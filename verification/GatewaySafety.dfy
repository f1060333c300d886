/** Safety of the pred gateway under every interleaving of its workers. */
module GatewaySafety {
  import opened Text
  import opened Budget
  import opened CommandLine
  import opened Counting
  import opened Observations
  import opened Gateway

  // ---------------------------------------------------------------- who accounts for a charge

  /** The worker itself still carries a reserved pred call: no settled record stands for it yet. */
  predicate CarriesPred(w: Worker) {
    match w.pc
    case Holding => w.Charged()
    case Invoking(_) => w.Charged()
    case Releasing(_) => w.Charged()
    case Finishing(_, run) => w.Charged() && !RunOutcome(run).InfrastructureError?
    case BadHolding => true
    case _ => false
  }

  predicate CarriesSolve(w: Worker) { CarriesPred(w) && w.Solves() }

  /** A charged record that is finished and was not given back. */
  predicate SettledPred(r: PredRecord) {
    r.charged && !r.outcome.InfrastructureError? && !r.outcome.Running?
  }

  predicate SettledSolve(r: PredRecord) { SettledPred(r) && r.command == Some("solve") }

  // ---------------------------------------------------------------- the invariant

  ghost predicate Accounts(sys: System) {
    && Within(sys.shared.used, sys.limits)
    && sys.shared.used.preds == CountIf(sys.workers, CarriesPred) + CountIf(sys.shared.ledger, SettledPred)
    && sys.shared.used.solves == CountIf(sys.workers, CarriesSolve) + CountIf(sys.shared.ledger, SettledSolve)
  }

  /** The record a worker appended and has not finished yet. */
  predicate RecordOf(r: PredRecord, w: Worker) {
    && r.requestId == w.id && r.observation == None
    && if w.pc.BadFinishing? then
         r.outcome == ModelError && r.charged && r.command == None && w.pc.response.observation == None
       else
         && IsCall(w.env) && r.outcome == Running && r.args == w.env.op.args
         && r.command == CommandName(w.env.op.args) && r.charged == w.Charged()
  }

  predicate WorkerOk(sys: System, w: Worker) {
    && IsRequestId(w.id)
    && (w.NeedsCall() ==> IsCall(w.env))
    && (w.pc.Releasing? ==> w.Charged())
    && (w.pc.BadReserving? || w.pc.BadHolding? || w.pc.BadFinishing? ==> !IsCall(w.env))
    && (w.pc.Finishing? ==> IsCall(w.env) && WellRun(w.pc.run, w.id, w.env.op.args, sys.config))
    && (w.Owns() ==> w.Index() < |sys.shared.ledger| && RecordOf(sys.shared.ledger[w.Index()], w))
  }

  predicate RecordOk(config: Config, r: PredRecord, k: nat) {
    && r.sequence == k + 1 && IsRequestId(r.requestId) && !r.outcome.Admitted?
    && (r.outcome.BudgetExhausted? ==> !r.charged)
    && (if r.outcome.Completed? || r.outcome.NonzeroExit? || r.outcome.Timeout? then
          && r.observation.Some? && r.returncode == Some(r.observation.value.returncode)
          && var m := r.observation.value;
             && r.outcome == ExitOutcome(m.returncode, m.timedOut) && (m.timedOut ==> m.returncode == 124)
             && WellPackaged(m, PredId(r.requestId), PredKind, PredCommand(r.args), m.returncode, m.timedOut, config)
        else r.observation == None)
  }

  ghost predicate Workers(sys: System) {
    forall i :: 0 <= i < |sys.workers| ==> WorkerOk(sys, sys.workers[i])
  }

  ghost predicate Records(sys: System) {
    forall k :: 0 <= k < |sys.shared.ledger| ==> RecordOk(sys.config, sys.shared.ledger[k], k)
  }

  predicate OwnedBy(sys: System, i: int, k: int) {
    0 <= i < |sys.workers| && sys.workers[i].Owns() && sys.workers[i].Index() == k
  }

  /** No record has two unfinished owners, and every running record has one. */
  ghost predicate Owners(sys: System) {
    && (forall i, j, k :: OwnedBy(sys, i, k) && OwnedBy(sys, j, k) ==> i == j)
    && (forall k :: 0 <= k < |sys.shared.ledger| && sys.shared.ledger[k].outcome.Running? ==>
          exists i :: OwnedBy(sys, i, k))
  }

  /** A worker that holds a packaged observation for its record. */
  predicate Delivering(w: Worker) { w.pc.Finishing? && w.pc.run.Exited? }

  predicate Observes(r: PredRecord) { r.observation.Some? }

  /** Each id is observed at most once, by a record or by a worker about to finish one, and then its log exists. */
  ghost predicate Logs(sys: System) {
    var ledger, workers := sys.shared.ledger, sys.workers;
    && (forall k :: 0 <= k < |ledger| && Observes(ledger[k]) ==> ledger[k].requestId in sys.shared.logs)
    && (forall i :: 0 <= i < |workers| && Delivering(workers[i]) ==> workers[i].id in sys.shared.logs)
    && (forall j, k :: 0 <= j < k < |ledger| && Observes(ledger[j]) && Observes(ledger[k]) ==>
          ledger[j].requestId != ledger[k].requestId)
    && (forall i, j :: 0 <= i < j < |workers| && Delivering(workers[i]) && Delivering(workers[j]) ==>
          workers[i].id != workers[j].id)
    && (forall i, k :: 0 <= i < |workers| && 0 <= k < |ledger| && Delivering(workers[i]) && Observes(ledger[k]) ==>
          workers[i].id != ledger[k].requestId)
  }

  ghost predicate Inv(sys: System) {
    Accounts(sys) && Workers(sys) && Records(sys) && Owners(sys) && Logs(sys)
  }

  // ---------------------------------------------------------------- arithmetic of one reservation

  lemma ChargeOne(used: Usage, c: Counter)
    ensures Charge(used, [c], 1) == used.With(c, used.At(c) + 1)
  {
    assert Charge(used, [c], 0) == used;
  }

  lemma CountersShape(args: seq<string>)
    ensures Counters(args) == [] || Counters(args) == [PredCalls] || Counters(args) == [PredCalls, SolveCalls]
    ensures Counters(args) == [PredCalls, SolveCalls] <==> Counters(args) != [] && CommandName(args) == Some("solve")
  {
  }

  lemma ChargeCall(used: Usage, args: seq<string>)
    ensures Charge(used, Counters(args), |Counters(args)|)
      == used.(preds := used.preds + Bit(Counters(args) != []),
               solves := used.solves + Bit(Counters(args) == [PredCalls, SolveCalls]))
  {
    CountersShape(args);
    var n := Counters(args);
    if n != [] {
      assert Charge(used, n, 0) == used;
      assert Charge(used, n, 1) == used.(preds := used.preds + 1);
    }
  }

  lemma DischargeCall(used: Usage, args: seq<string>)
    requires Releasable(used, Counters(args))
    ensures Discharge(used, Counters(args), |Counters(args)|).models == used.models
    ensures Discharge(used, Counters(args), |Counters(args)|).shells == used.shells
    ensures Discharge(used, Counters(args), |Counters(args)|).preds + Bit(Counters(args) != []) == used.preds
    ensures Discharge(used, Counters(args), |Counters(args)|).solves + Bit(Counters(args) == [PredCalls, SolveCalls])
      == used.solves
  {
    CountersShape(args);
    var n := Counters(args);
    if n != [] {
      assert PredCalls in n;
      assert Discharge(used, n, 0) == used;
      assert Discharge(used, n, 1) == used.(preds := used.preds - 1);
      if n == [PredCalls, SolveCalls] { assert SolveCalls in n; }
    }
  }

  lemma AvailableCall(used: Usage, limits: Usage, args: seq<string>)
    requires Available(used, limits, Counters(args))
    ensures Counters(args) != [] ==> used.preds < limits.preds
    ensures Counters(args) == [PredCalls, SolveCalls] ==> used.solves < limits.solves
  {
    CountersShape(args);
    if Counters(args) != [] { assert PredCalls in Counters(args); }
    if Counters(args) == [PredCalls, SolveCalls] { assert SolveCalls in Counters(args); }
  }

  // ---------------------------------------------------------------- every step can be taken

  /** In a reachable state only finished workers cannot step; in particular the release that follows an
      infrastructure failure never finds a counter at zero. */
  lemma NeverStuck(sys: System, i: nat)
    requires Inv(sys) && i < |sys.workers| && !sys.workers[i].pc.Done?
    ensures CanStep(sys.shared, sys.workers[i])
  {
    var w := sys.workers[i];
    assert WorkerOk(sys, w);
    if w.pc.Releasing? {
      CountersShape(w.env.op.args);
      CountSome(sys.workers, i, CarriesPred);
      if w.Solves() { CountSome(sys.workers, i, CarriesSolve); }
    }
  }

  // ---------------------------------------------------------------- accounts are kept

  /** How the worker list and the ledger contribute after one worker moved. */
  lemma WorkerDelta(sys: System, i: nat, w': Worker)
    requires i < |sys.workers|
    ensures var w := sys.workers[i]; var ws := sys.workers[i := w'];
      && CountIf(ws, CarriesPred) + Bit(CarriesPred(w)) == CountIf(sys.workers, CarriesPred) + Bit(CarriesPred(w'))
      && CountIf(ws, CarriesSolve) + Bit(CarriesSolve(w)) == CountIf(sys.workers, CarriesSolve) + Bit(CarriesSolve(w'))
  {
    CountUpdate(sys.workers, i, w', CarriesPred);
    CountUpdate(sys.workers, i, w', CarriesSolve);
  }

  lemma LedgerPush(ledger: seq<PredRecord>, r: PredRecord)
    ensures CountIf(ledger + [r], SettledPred) == CountIf(ledger, SettledPred) + Bit(SettledPred(r))
    ensures CountIf(ledger + [r], SettledSolve) == CountIf(ledger, SettledSolve) + Bit(SettledSolve(r))
  {
    CountPush(ledger, r, SettledPred);
    CountPush(ledger, r, SettledSolve);
  }

  lemma LedgerUpdate(ledger: seq<PredRecord>, k: nat, r: PredRecord)
    requires k < |ledger|
    ensures CountIf(ledger[k := r], SettledPred) + Bit(SettledPred(ledger[k])) == CountIf(ledger, SettledPred) + Bit(SettledPred(r))
    ensures CountIf(ledger[k := r], SettledSolve) + Bit(SettledSolve(ledger[k])) == CountIf(ledger, SettledSolve) + Bit(SettledSolve(r))
  {
    CountUpdate(ledger, k, r, SettledPred);
    CountUpdate(ledger, k, r, SettledSolve);
  }

  /** The steps that touch the counters. */
  lemma CounterStep(sys: System, i: nat, choice: Choice)
    requires i < |sys.workers| && WorkerOk(sys, sys.workers[i]) && Accounts(sys)
    requires Enabled(sys, Work(i, choice))
    requires sys.workers[i].pc.Reserving? || sys.workers[i].pc.Releasing? || sys.workers[i].pc.BadReserving?
    ensures Accounts(Apply(sys, Work(i, choice)))
  {
    hide Counters, CommandName, TotalLength, WellRun, RecordOf;
    var w := sys.workers[i];
    WorkerDelta(sys, i, Apply(sys, Work(i, choice)).workers[i]);
    if w.pc.BadReserving? {
      ChargeOne(sys.shared.used, PredCalls);
      assert PredCalls in [PredCalls];
    } else {
      CountersShape(w.env.op.args);
      if w.pc.Releasing? {
        DischargeCall(sys.shared.used, w.env.op.args);
      } else {
        ChargeCall(sys.shared.used, w.env.op.args);
        if Available(sys.shared.used, sys.limits, Counters(w.env.op.args)) {
          AvailableCall(sys.shared.used, sys.limits, w.env.op.args);
        }
      }
    }
  }

  /** The steps that append to the ledger. */
  lemma AppendStep(sys: System, i: nat, choice: Choice)
    requires i < |sys.workers| && WorkerOk(sys, sys.workers[i]) && Accounts(sys)
    requires Enabled(sys, Work(i, choice))
    requires sys.workers[i].pc.Refused? || sys.workers[i].pc.Holding? || sys.workers[i].pc.BadHolding?
    ensures Accounts(Apply(sys, Work(i, choice)))
  {
    hide Counters, CommandName, TotalLength, WellRun, RecordOf;
    var w := sys.workers[i];
    WorkerDelta(sys, i, Apply(sys, Work(i, choice)).workers[i]);
    var ledger := Apply(sys, Work(i, choice)).shared.ledger;
    LedgerPush(sys.shared.ledger, ledger[|sys.shared.ledger|]);
    assert ledger == sys.shared.ledger + [ledger[|sys.shared.ledger|]];
  }

  /** The steps that finish a record. */
  lemma FinishStep(sys: System, i: nat, choice: Choice)
    requires i < |sys.workers| && WorkerOk(sys, sys.workers[i]) && Accounts(sys)
    requires Enabled(sys, Work(i, choice))
    requires sys.workers[i].pc.Finishing? || sys.workers[i].pc.BadFinishing?
    ensures Accounts(Apply(sys, Work(i, choice)))
  {
    hide Counters, CommandName, TotalLength, WellRun;
    var w := sys.workers[i];
    WorkerDelta(sys, i, Apply(sys, Work(i, choice)).workers[i]);
    if w.pc.Finishing? { CountersShape(w.env.op.args); }
    var ledger := Apply(sys, Work(i, choice)).shared.ledger;
    LedgerUpdate(sys.shared.ledger, w.Index(), ledger[w.Index()]);
    assert ledger == sys.shared.ledger[w.Index() := ledger[w.Index()]];
  }

  /** An exception escapes: the worker lets go of its record, and the record keeps the charge. */
  lemma EscapeStep(sys: System, i: nat, choice: Choice)
    requires i < |sys.workers| && WorkerOk(sys, sys.workers[i]) && Accounts(sys)
    requires Enabled(sys, Work(i, choice)) && Escapes(sys.shared, sys.workers[i], choice)
    ensures Accounts(Apply(sys, Work(i, choice)))
  {
    hide Counters, CommandName, TotalLength, WellRun, Delivered, CountIf;
    var w := sys.workers[i];
    WorkerDelta(sys, i, Apply(sys, Work(i, choice)).workers[i]);
    CountersShape(w.env.op.args);
    var ledger := Apply(sys, Work(i, choice)).shared.ledger;
    LedgerUpdate(sys.shared.ledger, w.Index(), ledger[w.Index()]);
    assert ledger == sys.shared.ledger[w.Index() := ledger[w.Index()]];
  }

  /** The steps that touch neither. */
  lemma OtherStep(sys: System, i: nat, choice: Choice)
    requires i < |sys.workers| && WorkerOk(sys, sys.workers[i]) && Accounts(sys)
    requires Enabled(sys, Work(i, choice))
    requires var pc := sys.workers[i].pc;
      pc.Arrived? || pc.Dispatching? || pc.Invoking? || pc.Caching? || pc.Storing?
    requires !Escapes(sys.shared, sys.workers[i], choice)
    ensures Accounts(Apply(sys, Work(i, choice)))
  {
    hide Counters, CommandName, TotalLength, WellRun, RecordOf, CountIf;
    WorkerDelta(sys, i, Apply(sys, Work(i, choice)).workers[i]);
  }

  lemma AccountsKept(sys: System, i: nat, choice: Choice)
    requires Inv(sys) && Enabled(sys, Work(i, choice))
    ensures Accounts(Apply(sys, Work(i, choice)))
  {
    assert WorkerOk(sys, sys.workers[i]);
    hide Counters, CommandName, TotalLength, WellRun, RecordOk, Owners, Records, RecordOf, Logs, Workers, WorkerOk;
    var pc := sys.workers[i].pc;
    if pc.Reserving? || pc.Releasing? || pc.BadReserving? {
      CounterStep(sys, i, choice);
    } else if pc.Refused? || pc.Holding? || pc.BadHolding? {
      AppendStep(sys, i, choice);
    } else if pc.Finishing? || pc.BadFinishing? {
      FinishStep(sys, i, choice);
    } else if Escapes(sys.shared, sys.workers[i], choice) {
      EscapeStep(sys, i, choice);
    } else {
      OtherStep(sys, i, choice);
    }
  }

  // ---------------------------------------------------------------- workers, records, owners are kept

  /** What a step does to the ledger: nothing, one more record, or the worker's own record finished. */
  ghost predicate LedgerStep(ledger: seq<PredRecord>, after: seq<PredRecord>, w: Worker, w': Worker) {
    || (after == ledger && w'.Owns() == w.Owns() && (w.Owns() ==> w'.Index() == w.Index()))
    || (|after| == |ledger| + 1 && after[..|ledger|] == ledger && !w.Owns()
        && (w'.Owns() ==> w'.Index() == |ledger|) && (after[|ledger|].outcome.Running? ==> w'.Owns()))
    || (w.Owns() && !w'.Owns() && w.Index() < |ledger| && |after| == |ledger|
        && after == ledger[w.Index() := after[w.Index()]] && !after[w.Index()].outcome.Running?)
  }

  lemma LedgerEffect(sys: System, i: nat, choice: Choice)
    requires i < |sys.workers| && WorkerOk(sys, sys.workers[i])
    requires Enabled(sys, Work(i, choice))
    ensures LedgerStep(sys.shared.ledger, Apply(sys, Work(i, choice)).shared.ledger,
                       sys.workers[i], Apply(sys, Work(i, choice)).workers[i])
  {
    hide Counters, CommandName, TotalLength, WellRun;
    assert WorkerOk(sys, sys.workers[i]);
  }

  lemma RecordsKept(sys: System, i: nat, choice: Choice)
    requires Inv(sys) && Enabled(sys, Work(i, choice))
    ensures Records(Apply(sys, Work(i, choice)))
  {
    hide Counters, CommandName, TotalLength, Accounts, Owners, PredCommand, PredId, LogPath;
    var w := sys.workers[i];
    assert WorkerOk(sys, w);
    var sys' := Apply(sys, Work(i, choice));
    LedgerEffect(sys, i, choice);
    forall k | 0 <= k < |sys'.shared.ledger| ensures RecordOk(sys.config, sys'.shared.ledger[k], k) {
      if k < |sys.shared.ledger| { assert RecordOk(sys.config, sys.shared.ledger[k], k); }
    }
  }

  lemma SteppedWorkerOk(sys: System, i: nat, choice: Choice)
    requires i < |sys.workers| && WorkerOk(sys, sys.workers[i]) && Enabled(sys, Work(i, choice))
    ensures WorkerOk(Apply(sys, Work(i, choice)), Apply(sys, Work(i, choice)).workers[i])
  {
    hide Counters, CommandName, TotalLength, WellPackaged, PredCommand, Charge, Discharge;
  }

  lemma WorkersKept(sys: System, i: nat, choice: Choice)
    requires Inv(sys) && Enabled(sys, Work(i, choice))
    ensures Workers(Apply(sys, Work(i, choice)))
  {
    hide Counters, CommandName, TotalLength, Accounts, WellPackaged, PredCommand, RecordOk;
    var w := sys.workers[i];
    assert WorkerOk(sys, w);
    var sys' := Apply(sys, Work(i, choice));
    LedgerEffect(sys, i, choice);
    SteppedWorkerOk(sys, i, choice);
    hide Advance, CanStep;
    forall j | 0 <= j < |sys'.workers| && j != i ensures WorkerOk(sys', sys'.workers[j]) {
      assert WorkerOk(sys, sys.workers[j]);
      if sys.workers[j].Owns() && w.Owns() {
        assert OwnedBy(sys, i, w.Index()) && OwnedBy(sys, j, sys.workers[j].Index());
      }
    }
  }

  lemma OwnersKept(sys: System, i: nat, choice: Choice)
    requires Inv(sys) && Enabled(sys, Work(i, choice))
    ensures Owners(Apply(sys, Work(i, choice)))
  {
    hide Accounts, RecordOk, WellRun, Advance, RecordOf, Records;
    var w := sys.workers[i];
    assert WorkerOk(sys, w);
    var sys' := Apply(sys, Work(i, choice));
    LedgerEffect(sys, i, choice);
    forall j, k | OwnedBy(sys', j, k) && j != i ensures OwnedBy(sys, j, k) && k < |sys.shared.ledger| {
      assert WorkerOk(sys, sys.workers[j]);
    }
    if w.Owns() { assert OwnedBy(sys, i, w.Index()); }
    forall k | 0 <= k < |sys'.shared.ledger| && sys'.shared.ledger[k].outcome.Running?
      ensures exists j :: OwnedBy(sys', j, k)
    {
      if k < |sys.shared.ledger| {
        assert sys.shared.ledger[k].outcome.Running?;
        var j :| OwnedBy(sys, j, k);
        assert OwnedBy(sys', j, k);
      } else {
        assert OwnedBy(sys', i, k);
      }
    }
  }

  /** What a step does to observations: nothing, or its worker receives one under a new log, or its worker hands
      the one it holds to its own record. Logs only become more. */
  ghost predicate ObservationStep(sys: System, i: nat, sys': System)
    requires i < |sys.workers| && i < |sys'.workers|
  {
    var w, w' := sys.workers[i], sys'.workers[i];
    var before, after := sys.shared.ledger, sys'.shared.ledger;
    && |after| >= |before| && w'.id == w.id
    && (forall k :: |before| <= k < |after| ==> !Observes(after[k]))
    && (forall k :: 0 <= k < |before| ==> after[k].requestId == before[k].requestId)
    && (forall k :: 0 <= k < |before| && !(Delivering(w) && k == w.pc.index) ==> after[k].observation == before[k].observation)
    && (Delivering(w) ==> !Delivering(w') && sys'.shared.logs == sys.shared.logs
                          && w.pc.index < |before| && before[w.pc.index].requestId == w.id)
    && (!Delivering(w) && Delivering(w') ==> w.id !in sys.shared.logs && sys'.shared.logs == sys.shared.logs + {w.id})
    && (!Delivering(w) && !Delivering(w') ==> sys.shared.logs <= sys'.shared.logs)
  }

  lemma ObservationEffect(sys: System, i: nat, choice: Choice)
    requires i < |sys.workers| && WorkerOk(sys, sys.workers[i])
    requires Enabled(sys, Work(i, choice))
    ensures ObservationStep(sys, i, Apply(sys, Work(i, choice)))
  {
    hide Counters, CommandName, TotalLength, WellRun, Charge, Discharge;
  }

  lemma LogsKept(sys: System, i: nat, choice: Choice)
    requires Inv(sys) && Enabled(sys, Work(i, choice))
    ensures Logs(Apply(sys, Work(i, choice)))
  {
    assert WorkerOk(sys, sys.workers[i]);
    hide Accounts, Workers, Records, Owners, WorkerOk, Advance, CanStep, WellRun;
    ObservationEffect(sys, i, choice);
    var sys' := Apply(sys, Work(i, choice));
    assert forall j :: 0 <= j < |sys.workers| && j != i ==> sys'.workers[j] == sys.workers[j];
  }

  lemma ClaimKeeps(sys: System, e: Event)
    requires Inv(sys) && Enabled(sys, e) && e.Claim?
    ensures Inv(Apply(sys, e))
  {
    hide Counters, CommandName, TotalLength, RecordOk, WellRun, RecordOf, CountIf, IsRequestId;
    var sys', w := Apply(sys, e), Worker(e.id, e.env, Arrived);
    assert sys'.workers == sys.workers + [w];
    CountPush(sys.workers, w, CarriesPred);
    CountPush(sys.workers, w, CarriesSolve);
    assert Accounts(sys');
    hide Accounts, CarriesPred, CarriesSolve;
    forall j | 0 <= j < |sys'.workers| ensures WorkerOk(sys', sys'.workers[j]) {
      if j < |sys.workers| { assert WorkerOk(sys, sys.workers[j]); }
    }
    hide WorkerOk;
    forall j, k ensures OwnedBy(sys', j, k) <==> OwnedBy(sys, j, k) {}
    hide OwnedBy;
  }

  lemma ReservationAccounts(sys: System, e: Event)
    requires Accounts(sys) && Enabled(sys, e) && e.Elsewhere?
    ensures Accounts(Apply(sys, e))
  {
    hide CountIf;
    ChargeOne(sys.shared.used, e.counter);
    assert e.counter in [e.counter];
  }

  lemma ReservationKeeps(sys: System, e: Event)
    requires Inv(sys) && Enabled(sys, e) && e.Elsewhere?
    ensures Inv(Apply(sys, e))
  {
    hide Counters, CommandName, TotalLength, RecordOk, WellRun, RecordOf, Accounts, Charge;
    ReservationAccounts(sys, e);
    var sys' := Apply(sys, e);
    forall j | 0 <= j < |sys'.workers| ensures WorkerOk(sys', sys'.workers[j]) { assert WorkerOk(sys, sys.workers[j]); }
    hide WorkerOk;
    forall j, k ensures OwnedBy(sys', j, k) <==> OwnedBy(sys, j, k) {}
    hide OwnedBy;
  }

  lemma EventKeeps(sys: System, e: Event)
    requires Inv(sys) && Enabled(sys, e)
    ensures Inv(Apply(sys, e))
  {
    hide Accounts, Workers, Records, Owners, Logs, Apply, Enabled;
    if e.Work? {
      LogsKept(sys, e.worker, e.choice);
      AccountsKept(sys, e.worker, e.choice);
      WorkersKept(sys, e.worker, e.choice);
      RecordsKept(sys, e.worker, e.choice);
      OwnersKept(sys, e.worker, e.choice);
    } else {
      if e.Claim? { ClaimKeeps(sys, e); } else { ReservationKeeps(sys, e); }
    }
  }

  lemma {:induction false} RunKeeps(sys: System, events: seq<Event>)
    requires Inv(sys) && IsRun(sys, events)
    ensures Inv(After(sys, events))
    decreases |events|
  {
    hide Inv, Apply, Enabled;
    if events != [] {
      EventKeeps(sys, events[0]);
      RunKeeps(Apply(sys, events[0]), events[1..]);
    }
  }

  lemma InitialInv(limits: Usage, config: Config)
    ensures Inv(Initial(limits, config))
  {
  }

  // ---------------------------------------------------------------- the safety theorem

  /** A charged record whose reservation was not given back. */
  predicate ChargedPred(r: PredRecord) { r.charged && !r.outcome.InfrastructureError? }

  predicate ChargedSolve(r: PredRecord) { ChargedPred(r) && r.command == Some("solve") }

  ghost predicate AtRest(sys: System) {
    forall i :: 0 <= i < |sys.workers| ==> sys.workers[i].pc.Done?
  }

  /** At rest no worker is left that would finish a record: one that still reads "running" was abandoned. */
  lemma RestIsSettled(sys: System)
    requires Inv(sys) && AtRest(sys)
    ensures forall k :: 0 <= k < |sys.shared.ledger| ==> !sys.shared.ledger[k].outcome.Running?
    ensures CountIf(sys.workers, CarriesPred) == 0 && CountIf(sys.workers, CarriesSolve) == 0
  {
    hide RecordOk, WorkerOk, Accounts;
    CountNone(sys.workers, CarriesPred);
    CountNone(sys.workers, CarriesSolve);
    forall k | 0 <= k < |sys.shared.ledger| ensures !sys.shared.ledger[k].outcome.Running? {
      assert forall i :: !OwnedBy(sys, i, k);
    }
  }

  /** Gateway safety. Whatever the schedule and whatever the processes do: every counter stays within its
      limit, solve use never exceeds pred use, pred use is exactly the reservations that workers still carry
      plus the settled charged records, and at rest it is exactly the charged records that did not end in an
      infrastructure error. */
  lemma Safety(limits: Usage, config: Config, events: seq<Event>)
    requires IsRun(Initial(limits, config), events)
    ensures var sys := After(Initial(limits, config), events);
      && Within(sys.shared.used, limits)
      && sys.shared.used.solves <= sys.shared.used.preds
      && sys.shared.used.preds == CountIf(sys.workers, CarriesPred) + CountIf(sys.shared.ledger, SettledPred)
      && sys.shared.used.solves == CountIf(sys.workers, CarriesSolve) + CountIf(sys.shared.ledger, SettledSolve)
      && (AtRest(sys) ==>
            && sys.shared.used.preds == CountIf(sys.shared.ledger, ChargedPred)
            && sys.shared.used.solves == CountIf(sys.shared.ledger, ChargedSolve))
  {
    hide RecordOk, WorkerOk, Owners, IsRun, After;
    InitialInv(limits, config);
    RunKeeps(Initial(limits, config), events);
    LimitsConstant(Initial(limits, config), events);
    var sys := After(Initial(limits, config), events);
    CountImplies(sys.workers, CarriesSolve, CarriesPred);
    CountImplies(sys.shared.ledger, SettledSolve, SettledPred);
    if AtRest(sys) {
      RestIsSettled(sys);
      CountSame(sys.shared.ledger, SettledPred, ChargedPred);
      CountSame(sys.shared.ledger, SettledSolve, ChargedSolve);
    }
  }

  lemma {:induction false} LimitsConstant(sys: System, events: seq<Event>)
    requires IsRun(sys, events)
    ensures After(sys, events).limits == sys.limits && After(sys, events).config == sys.config
    decreases |events|
  {
    hide Enabled, Advance;
    if events != [] { LimitsConstant(Apply(sys, events[0]), events[1..]); }
  }
}
