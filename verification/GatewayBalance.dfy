/** The gateway's books at any moment, also while workers are busy: how far the records that say they were
    charged and the counters are apart. */
module GatewayBalance {
  import opened Text
  import opened Counting
  import opened CommandLine
  import opened Gateway
  import opened GatewaySafety

  predicate Charged(r: PredRecord) { r.charged }
  predicate ChargedSolveRecord(r: PredRecord) { r.charged && r.command == Some("solve") }

  /** Released, but still marked as charged. */
  predicate ChargedFailure(r: PredRecord) { r.charged && r.outcome.InfrastructureError? }

  predicate ChargedSolveFailure(r: PredRecord) { ChargedFailure(r) && r.command == Some("solve") }

  predicate Underway(r: PredRecord) { r.charged && r.outcome.Running? }

  predicate UnderwaySolve(r: PredRecord) { Underway(r) && r.command == Some("solve") }

  /** A worker whose charged record is still running. */
  predicate Runs(w: Worker) { w.Charged() && (w.pc.Invoking? || w.pc.Releasing? || w.pc.Finishing?) }

  predicate RunsSolve(w: Worker) { Runs(w) && w.Solves() }

  /** A worker that holds a reservation and has no record yet. */
  predicate Waiting(w: Worker) { w.pc.BadHolding? || (w.pc.Holding? && w.Charged()) }

  predicate WaitingSolve(w: Worker) { Waiting(w) && w.Solves() }

  /** A worker that gave its reservation back and has not finished its record. */
  predicate Released(w: Worker) {
    w.pc.Finishing? && w.Charged() && RunOutcome(w.pc.run).InfrastructureError?
  }

  predicate ReleasedSolve(w: Worker) { Released(w) && w.Solves() }

  /** Charged failures and releases in progress make up for the reservations that have no record yet. */
  ghost predicate Balanced(sys: System) {
    var ledger, workers := sys.shared.ledger, sys.workers;
    && CountIf(ledger, ChargedFailure) + CountIf(workers, Released) == CountIf(workers, Waiting)
    && CountIf(ledger, ChargedSolveFailure) + CountIf(workers, ReleasedSolve) == CountIf(workers, WaitingSolve)
  }

  /** The record of a worker that runs, and the worker of a record that is running. */
  lemma OwnRecord(sys: System, i: nat)
    requires Inv(sys) && i < |sys.workers| && Runs(sys.workers[i])
    ensures OwnedBy(sys, i, sys.workers[i].pc.index) && sys.workers[i].pc.index < |sys.shared.ledger|
    ensures Underway(sys.shared.ledger[sys.workers[i].pc.index])
    ensures UnderwaySolve(sys.shared.ledger[sys.workers[i].pc.index]) <==> RunsSolve(sys.workers[i])
  {
    hide Accounts, RecordOk, Owners, Records, Logs, WellRun, Counters, CommandName;
    assert WorkerOk(sys, sys.workers[i]);
    CountersShape(sys.workers[i].env.op.args);
  }

  lemma OwnWorker(sys: System, k: nat) returns (i: nat)
    requires Inv(sys) && k < |sys.shared.ledger| && Underway(sys.shared.ledger[k])
    ensures i < |sys.workers| && Runs(sys.workers[i]) && sys.workers[i].pc.index == k
  {
    hide Accounts, RecordOk, Records, Logs, WellRun, Counters, CommandName;
    var j :| OwnedBy(sys, j, k);
    i := j;
    assert WorkerOk(sys, sys.workers[i]);
  }

  function RecordIndex(sys: System, i: nat): nat {
    if i < |sys.workers| && sys.workers[i].Owns() then sys.workers[i].Index() else 0
  }

  lemma RunsOwn(sys: System)
    requires Inv(sys)
    ensures forall i :: i in Where(sys.workers, Runs) ==> RecordIndex(sys, i) in Where(sys.shared.ledger, Underway)
    ensures forall i :: i in Where(sys.workers, Runs) ==>
      (RecordIndex(sys, i) in Where(sys.shared.ledger, UnderwaySolve) <==> i in Where(sys.workers, RunsSolve))
    ensures forall i, j :: (
      i in Where(sys.workers, Runs) && j in Where(sys.workers, Runs) && RecordIndex(sys, i) == RecordIndex(sys, j)) ==> i == j
    ensures forall k :: k in Where(sys.shared.ledger, Underway) ==>
      exists i :: i in Where(sys.workers, Runs) && RecordIndex(sys, i) == k
  {
    assert forall i, j, k :: OwnedBy(sys, i, k) && OwnedBy(sys, j, k) ==> i == j;
    hide Inv, Underway, UnderwaySolve, RunsSolve, Worker.Charged;
    forall i | i in Where(sys.workers, Runs)
      ensures OwnedBy(sys, i, RecordIndex(sys, i)) && RecordIndex(sys, i) in Where(sys.shared.ledger, Underway)
      ensures RecordIndex(sys, i) in Where(sys.shared.ledger, UnderwaySolve) <==> i in Where(sys.workers, RunsSolve)
    {
      OwnRecord(sys, i);
    }
    forall k | k in Where(sys.shared.ledger, Underway)
      ensures exists i :: i in Where(sys.workers, Runs) && RecordIndex(sys, i) == k
    {
      var i := OwnWorker(sys, k);
      assert i in Where(sys.workers, Runs) && RecordIndex(sys, i) == k;
    }
  }

  lemma SolvesRun(sys: System)
    ensures Where(sys.workers, RunsSolve) <= Where(sys.workers, Runs)
    ensures Where(sys.shared.ledger, UnderwaySolve) <= Where(sys.shared.ledger, Underway)
  {
  }

  /** Charged running records and the workers that run them are as many. */
  lemma RunningAreOwned(sys: System)
    requires Inv(sys)
    ensures CountIf(sys.shared.ledger, Underway) == CountIf(sys.workers, Runs)
    ensures CountIf(sys.shared.ledger, UnderwaySolve) == CountIf(sys.workers, RunsSolve)
  {
    hide Inv, Where, RecordIndex, CountIf;
    var ledger, workers, f := sys.shared.ledger, sys.workers, (i: nat) => RecordIndex(sys, i);
    RunsOwn(sys);
    SolvesRun(sys);
    SameSize(Where(workers, Runs), Where(ledger, Underway), f);
    SameSize(Where(workers, RunsSolve), Where(ledger, UnderwaySolve), f);
    CountIsSize(workers, Runs);
    CountIsSize(workers, RunsSolve);
    CountIsSize(ledger, Underway);
    CountIsSize(ledger, UnderwaySolve);
  }

  predicate Settled(r: PredRecord) { SettledPred(r) || ChargedFailure(r) }
  predicate SettledSolves(r: PredRecord) { SettledSolve(r) || ChargedSolveFailure(r) }
  predicate Busy(w: Worker) { CarriesPred(w) || Released(w) }
  predicate BusySolve(w: Worker) { CarriesSolve(w) || ReleasedSolve(w) }

  lemma LedgerSplits(ledger: seq<PredRecord>)
    ensures CountIf(ledger, Charged)
      == CountIf(ledger, SettledPred) + CountIf(ledger, ChargedFailure) + CountIf(ledger, Underway)
    ensures CountIf(ledger, ChargedSolveRecord)
      == CountIf(ledger, SettledSolve) + CountIf(ledger, ChargedSolveFailure) + CountIf(ledger, UnderwaySolve)
  {
    hide CountIf;
    CountSplit(ledger, Charged, Settled, Underway);
    CountSplit(ledger, Settled, SettledPred, ChargedFailure);
    CountSplit(ledger, ChargedSolveRecord, SettledSolves, UnderwaySolve);
    CountSplit(ledger, SettledSolves, SettledSolve, ChargedSolveFailure);
  }

  lemma WorkersSplit(workers: seq<Worker>)
    ensures CountIf(workers, CarriesPred) + CountIf(workers, Released) == CountIf(workers, Runs) + CountIf(workers, Waiting)
    ensures CountIf(workers, CarriesSolve) + CountIf(workers, ReleasedSolve)
      == CountIf(workers, RunsSolve) + CountIf(workers, WaitingSolve)
  {
    hide CountIf, RunOutcome, IsCall, Counters;
    CountSplit(workers, Busy, CarriesPred, Released);
    CountSplit(workers, Busy, Runs, Waiting);
    SolveWorkersSplit(workers);
  }

  lemma SolveWorkersSplit(workers: seq<Worker>)
    ensures CountIf(workers, CarriesSolve) + CountIf(workers, ReleasedSolve)
      == CountIf(workers, RunsSolve) + CountIf(workers, WaitingSolve)
  {
    hide CountIf, RunOutcome, IsCall, Counters;
    CountSplit(workers, BusySolve, CarriesSolve, ReleasedSolve);
    CountSplit(workers, BusySolve, RunsSolve, WaitingSolve);
  }

  /** At every moment the records that say they were charged, together with the reservations that have no
      record yet, exceed the counters by the charged failures and the releases in progress. */
  lemma ChargedRecordsAnytime(sys: System)
    requires Inv(sys)
    ensures CountIf(sys.shared.ledger, Charged) + CountIf(sys.workers, Waiting)
      == sys.shared.used.preds + CountIf(sys.shared.ledger, ChargedFailure) + CountIf(sys.workers, Released)
    ensures CountIf(sys.shared.ledger, ChargedSolveRecord) + CountIf(sys.workers, WaitingSolve)
      == sys.shared.used.solves + CountIf(sys.shared.ledger, ChargedSolveFailure) + CountIf(sys.workers, ReleasedSolve)
  {
    hide Workers, Records, Owners, Logs, CountIf;
    RunningAreOwned(sys);
    LedgerSplits(sys.shared.ledger);
    WorkersSplit(sys.workers);
  }

  /** At rest the books are balanced exactly if no charged record ended in an infrastructure error. */
  lemma RestIsBalanced(sys: System)
    requires AtRest(sys)
    ensures CountIf(sys.workers, Waiting) == CountIf(sys.workers, Released) == 0
    ensures CountIf(sys.workers, WaitingSolve) == CountIf(sys.workers, ReleasedSolve) == 0
    ensures Balanced(sys) <==> forall k :: 0 <= k < |sys.shared.ledger| ==> !ChargedFailure(sys.shared.ledger[k])
  {
    var ledger := sys.shared.ledger;
    CountNone(sys.workers, Waiting);
    CountNone(sys.workers, Released);
    CountNone(sys.workers, WaitingSolve);
    CountNone(sys.workers, ReleasedSolve);
    CountImplies(ledger, ChargedSolveFailure, ChargedFailure);
    hide CountIf, ChargedFailure, Waiting, Released, WaitingSolve, ReleasedSolve;
    if CountIf(ledger, ChargedFailure) == 0 {
      forall k | 0 <= k < |ledger| ensures !ChargedFailure(ledger[k]) {
        if ChargedFailure(ledger[k]) { CountSome(ledger, k, ChargedFailure); }
      }
    } else if forall k :: 0 <= k < |ledger| ==> !ChargedFailure(ledger[k]) {
      CountNone(ledger, ChargedFailure);
    }
  }
}
