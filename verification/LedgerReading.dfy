/** `ledger()` is not one snapshot. The event lists, the pred records, the counters and the submit session are read
    in critical sections of their own, and gateway workers and the submit service may step in between. */
module LedgerReading {
  import opened Text
  import opened Counting
  import opened Json
  import opened Observations
  import opened Gateway
  import opened GatewaySafety
  import opened GatewayBalance
  import opened Episode
  import opened LedgerJson
  import opened Contract
  import opened ObservationContract
  import opened Agreement
  import Submit

  // ---------------------------------------------------------------- the moments of a reading

  /** The states in which the parts of a ledger are read, in this order: model and shell events with their
      observations, pred records, counters, the number of attempts, whether the session is closed, the number of
      attempts again for what remains, and the attempts. */
  datatype Moments = Moments(
    events: Episode, records: Episode, counters: Episode, used: Episode, closed: Episode, left: Episode, attempts: Episode)

  /** What happens before each read but the first. */
  datatype Reading = Reading(
    records: seq<Action>, counters: seq<Action>, used: seq<Action>, closed: seq<Action>, left: seq<Action>,
    attempts: seq<Action>)

  const AT_ONCE := Reading([], [], [], [], [], [])

  /** Only gateway workers and the submit service act while the ledger is taken: generations and shell actions are
      made by the very thread that takes it. */
  predicate IsBackground(ep: Episode, actions: seq<Action>) {
    IsEpisodeRun(ep, actions) && forall k :: 0 <= k < |actions| ==> actions[k].PredEvent? || actions[k].SubmitCall?
  }

  predicate IsReading(ep: Episode, r: Reading) {
    IsBackground(ep, r.records) && (
      var e1 := Final(ep, r.records);
      IsBackground(e1, r.counters) && (
        var e2 := Final(e1, r.counters);
        IsBackground(e2, r.used) && (
          var e3 := Final(e2, r.used);
          IsBackground(e3, r.closed) && (
            var e4 := Final(e3, r.closed);
            IsBackground(e4, r.left) && IsBackground(Final(e4, r.left), r.attempts)))))
  }

  function MomentsOf(ep: Episode, r: Reading): Moments
    requires IsReading(ep, r)
  {
    var e1 := Final(ep, r.records);
    var e2 := Final(e1, r.counters);
    var e3 := Final(e2, r.used);
    var e4 := Final(e3, r.closed);
    var e5 := Final(e4, r.left);
    Moments(ep, e1, e2, e3, e4, e5, Final(e5, r.attempts))
  }

  /** What the reading sees besides the status, put together. */
  function Cut(m: Moments): Episode { m.events.(gateway := m.records.gateway, submit := m.attempts.submit) }

  /** `status()`: the evidence counters in one critical section, `used` and `remaining` of the submit session in
      others, the latter in two. */
  function TakenStatus(m: Moments): Fields {
    StatusFields(m.counters.gateway.shared.used, m.counters.gateway.limits)[
      KSubmitAttempts := Obj(map[
        KUsed := Int(|m.used.submit.attempts|), KLimit := Int(SUBMIT_ATTEMPTS),
        KRemaining := Int(if m.closed.submit.closed then 0 else Max(0, SUBMIT_ATTEMPTS - |m.left.submit.attempts|))])]
  }

  /** `ledger()`. */
  function Taken(m: Moments): Fields { Ledger(Cut(m))[KStatus := Obj(TakenStatus(m))] }

  /** If nothing happens between the reads, the ledger is that of the one state. */
  lemma TakenAtOnce(ep: Episode)
    ensures IsReading(ep, AT_ONCE) && Cut(MomentsOf(ep, AT_ONCE)) == ep && Taken(MomentsOf(ep, AT_ONCE)) == Ledger(ep)
  {
    hide IsEpisodeRun, Final;
    FinalNothing(ep);
    assert Cut(MomentsOf(ep, AT_ONCE)) == ep;
    hide BudgetFields, PredItems, SubmitItems, ModelItems, ShellItems, ObservationItems, StatusFields;
    assert TakenStatus(MomentsOf(ep, AT_ONCE)) == EpisodeStatus(ep);
    assert Get(Ledger(ep), KStatus) == Obj(EpisodeStatus(ep));
  }

  // ---------------------------------------------------------------- what cannot change meanwhile

  /** The later state differs from the earlier one at most in gateway and submit session; the counters of
      generations and shell actions stand still, and attempts are only appended. */
  ghost predicate Evolves(ep: Episode, ep': Episode) {
    && ep' == ep.(gateway := ep'.gateway, submit := ep'.submit)
    && ep'.gateway.limits == ep.gateway.limits && ep'.gateway.config == ep.gateway.config
    && ep'.gateway.shared.used.models == ep.gateway.shared.used.models
    && ep'.gateway.shared.used.shells == ep.gateway.shared.used.shells
    && ep.submit.attempts <= ep'.submit.attempts
  }

  lemma StepEvolves(ep: Episode, a: Action)
    requires EpisodeInv(ep) && Possible(ep, a) && (a.PredEvent? || a.SubmitCall?)
    ensures EpisodeInv(Step(ep, a)) && Evolves(ep, Step(ep, a))
  {
    ActionKeeps(ep, a);
    EpisodeHolds(ep);
    hide EpisodeInv, Inv, Submit.SessionInv, Submit.Serve, Apply, Enabled;
    if a.PredEvent? {
      OtherCountersUntouched(ep.gateway, a.event);
      LimitsStay(ep.gateway, a.event);
    } else {
      Submit.ServeKeeps(SUBMIT_ATTEMPTS, ep.rule, ep.submit, a.call.id, a.call.req, a.call.v);
    }
  }

  lemma EpisodeHolds(ep: Episode)
    requires EpisodeInv(ep)
    ensures Inv(ep.gateway) && CountsOk(ep) && ShellsOk(ep) && SubmitOk(ep)
    ensures Submit.SessionInv(SUBMIT_ATTEMPTS, ep.rule, ep.submit)
  {
    hide Inv, CountsOk, ShellsOk, Submit.SessionInv;
  }

  lemma LimitsStay(sys: System, e: Event)
    requires Enabled(sys, e)
    ensures Apply(sys, e).limits == sys.limits
  {
    hide Advance, Enabled;
  }

  lemma {:induction false} BackgroundEvolves(ep: Episode, actions: seq<Action>)
    requires EpisodeInv(ep) && IsBackground(ep, actions)
    ensures EpisodeInv(Final(ep, actions)) && Evolves(ep, Final(ep, actions))
    decreases |actions|
  {
    hide EpisodeInv, Possible, Step, IsEpisodeRun, Final;
    if actions == [] {
      FinalNothing(ep);
    } else {
      FinalUnfolds(ep, actions);
      StepEvolves(ep, actions[0]);
      var next := Step(ep, actions[0]);
      assert IsBackground(next, actions[1..]);
      BackgroundEvolves(next, actions[1..]);
    }
  }

  /** Every moment is a state of the episode, and later ones evolve from earlier ones. */
  ghost predicate Coherent(m: Moments) {
    && EpisodeInv(m.events) && EpisodeInv(m.records) && EpisodeInv(m.counters) && EpisodeInv(m.used)
    && EpisodeInv(m.closed) && EpisodeInv(m.left) && EpisodeInv(m.attempts)
    && Evolves(m.events, m.records) && Evolves(m.records, m.counters) && Evolves(m.counters, m.used)
    && Evolves(m.used, m.closed) && Evolves(m.closed, m.left) && Evolves(m.left, m.attempts)
  }

  lemma ReadingIsCoherent(ep: Episode, r: Reading)
    requires EpisodeInv(ep) && IsReading(ep, r)
    ensures Coherent(MomentsOf(ep, r))
  {
    hide EpisodeInv, Evolves, IsBackground, IsEpisodeRun, Final;
    var m := MomentsOf(ep, r);
    BackgroundRuns(ep, r);
    BackgroundEvolves(ep, r.records);
    BackgroundEvolves(m.records, r.counters);
    BackgroundEvolves(m.counters, r.used);
    BackgroundEvolves(m.used, r.closed);
    BackgroundEvolves(m.closed, r.left);
    BackgroundEvolves(m.left, r.attempts);
  }

  lemma BackgroundRuns(ep: Episode, r: Reading)
    requires IsReading(ep, r)
    ensures var m := MomentsOf(ep, r);
      && IsBackground(ep, r.records) && IsBackground(m.records, r.counters) && IsBackground(m.counters, r.used)
      && IsBackground(m.used, r.closed) && IsBackground(m.closed, r.left) && IsBackground(m.left, r.attempts)
  {
    hide IsEpisodeRun, Final;
  }

  /** What the reading sees, put together, is in order as one state would be. */
  lemma CutHolds(m: Moments)
    requires Coherent(m)
    ensures EpisodeInv(Cut(m)) && BudgetFields(Cut(m)) == BudgetFields(m.counters)
    ensures m.counters.gateway.limits == Cut(m).gateway.limits && Cut(m).gateway.config == m.events.gateway.config
    ensures m.counters.gateway.shared.used.models == Cut(m).gateway.shared.used.models
    ensures m.counters.gateway.shared.used.shells == Cut(m).gateway.shared.used.shells
  {
    hide EpisodeInv, Inv, Submit.SessionInv, Observed, NumberedUpTo, CountIf, IsRequestId;
    EpisodeHolds(m.events);
    EpisodeHolds(m.records);
    EpisodeHolds(m.attempts);
    PartsMake(Cut(m));
  }

  lemma PartsMake(ep: Episode)
    requires Inv(ep.gateway) && CountsOk(ep) && ShellsOk(ep) && SubmitOk(ep)
    ensures EpisodeInv(ep)
  {
  }

  // ---------------------------------------------------------------- reading the JSON back

  lemma TakenField(m: Moments, k: Key)
    ensures k != KStatus ==> Get(Taken(m), k) == Get(Ledger(Cut(m)), k) && (k in Taken(m) <==> k in Ledger(Cut(m)))
    ensures k == KStatus ==> Get(Taken(m), k) == Obj(TakenStatus(m)) && k in Taken(m)
  {
    hide Ledger, TakenStatus;
  }

  lemma TakenCounter(m: Moments, counter: Key)
    requires IsCounter(counter)
    ensures counter in EpisodeStatus(m.counters) && counter in TakenStatus(m)
    ensures TakenStatus(m)[counter] == EpisodeStatus(m.counters)[counter]
  {
    hide LedgerJson.SubmitStatus, CounterJson;
  }

  /** What the status says about the submit session. */
  lemma TakenSubmit(m: Moments)
    ensures KSubmitAttempts in TakenStatus(m) && TakenStatus(m)[KSubmitAttempts].Obj?
    ensures var item := TakenStatus(m)[KSubmitAttempts].fields;
      && Get(item, KUsed) == Int(|m.used.submit.attempts|) && Get(item, KLimit) == Int(SUBMIT_ATTEMPTS)
      && Get(item, KRemaining) == Int(if m.closed.submit.closed then 0 else Max(0, SUBMIT_ATTEMPTS - |m.left.submit.attempts|))
  {
    hide StatusFields, Max;
  }

  lemma TakenItem(m: Moments, counter: Key)
    requires counter in TakenStatus(m) && TakenStatus(m)[counter].Obj?
    ensures StatusItem(Taken(m), counter) == Some(TakenStatus(m)[counter].fields)
  {
    hide Taken, TakenStatus;
    TakenField(m, KStatus);
  }

  lemma TakenUsed(m: Moments, counter: Key, n: nat)
    requires IsCounter(counter)
    ensures UsedIs(Taken(m), counter, n) <==> n == UsedFor(m.counters, counter)
  {
    hide Taken, TakenStatus, EpisodeStatus, BudgetFields, UsedFor, LimitFor, PyEq, StatusItem;
    StatusReads(m.counters, counter);
    TakenCounter(m, counter);
    TakenItem(m, counter);
    PyEqInts(n, UsedFor(m.counters, counter));
  }

  lemma TakenBudget(m: Moments, counter: Key)
    ensures BudgetNumber(Taken(m), counter) == BudgetNumber(Ledger(Cut(m)), counter)
  {
    hide Taken, Ledger;
    TakenField(m, KBudget);
  }

  lemma TakenStatusAgrees(m: Moments)
    requires Coherent(m)
    ensures StatusClean(Get(Taken(m), KStatus), BudgetFields(Cut(m)), COUNTERS)
  {
    hide Taken, TakenStatus, EpisodeStatus, EpisodeInv, BudgetFields, CounterClean, SubmitStatusClean, Evolves, Cut;
    TakenField(m, KStatus);
    CutHolds(m);
    TakenSubmitStatus(m);
    EpisodeHolds(m.counters);
    InvWithin(m.counters.gateway);
    forall k | 0 <= k < |COUNTERS| ensures CounterClean(TakenStatus(m), BudgetFields(Cut(m)), COUNTERS[k]) {
      CounterAgrees(m.counters, COUNTERS[k]);
      SameCounter(m, COUNTERS[k]);
    }
  }

  lemma TakenSubmitStatus(m: Moments)
    requires Coherent(m)
    ensures SubmitStatusClean(TakenStatus(m))
  {
    hide TakenStatus, EpisodeInv, PyEq, Evolves;
    TakenSubmit(m);
    EpisodeHolds(m.used);
    hide SubmitOk;
    SubmitBound(m.used);
    PyEqInts(2, 2);
  }

  lemma SameCounter(m: Moments, counter: Key)
    requires IsCounter(counter) && BudgetFields(Cut(m)) == BudgetFields(m.counters)
    ensures CounterClean(TakenStatus(m), BudgetFields(Cut(m)), counter)
      <==> CounterClean(EpisodeStatus(m.counters), BudgetFields(m.counters), counter)
  {
    hide TakenStatus, EpisodeStatus, BudgetFields, PyEq;
    TakenCounter(m, counter);
  }

  lemma TakenEventsAgree(m: Moments)
    requires Coherent(m)
    ensures EventsClean(Taken(m)) <==> EventsClean(Ledger(Cut(m)))
  {
    hide Taken, Ledger, EpisodeInv, UsedIs, BudgetNumber, CountIf, Evolves, BudgetFields;
    CutHolds(m);
    TakenField(m, KModelGenerations);
    TakenField(m, KShellActions);
    forall n: nat ensures UsedIs(Taken(m), KModelGenerations, n) <==> UsedIs(Ledger(Cut(m)), KModelGenerations, n) {
      TakenUsed(m, KModelGenerations, n);
      UsedReads(Cut(m), KModelGenerations, n);
    }
    forall n: nat ensures UsedIs(Taken(m), KShellActions, n) <==> UsedIs(Ledger(Cut(m)), KShellActions, n) {
      TakenUsed(m, KShellActions, n);
      UsedReads(Cut(m), KShellActions, n);
    }
    TakenBudget(m, KModelGenerations);
    TakenBudget(m, KShellActions);
    assert EVENT_FIELDS[0] == KModelGenerations && EVENT_FIELDS[1] == KShellActions;
  }

  lemma TakenObservations(m: Moments, config: Config)
    ensures ObservationsClean(Taken(m), false, config) <==> ObservationsClean(Ledger(Cut(m)), false, config)
    ensures LedgerIds(Taken(m), KPred) == LedgerIds(Ledger(Cut(m)), KPred)
  {
    hide Taken, Ledger, MetadataListClean, ReferencesClean, ById, ShellEvents, IdsOf, Cut;
    TakenField(m, KObservations);
    TakenField(m, KShellActions);
    TakenField(m, KPred);
  }

  // ---------------------------------------------------------------- the two checks that compare different moments

  /** What the pred check recounts in the records was, when the counters were read, in the counters. */
  ghost predicate Recounts(a: System, b: System) {
    && CountIf(a.shared.ledger, Charged) == b.shared.used.preds
    && CountIf(a.shared.ledger, ChargedSolveRecord) == b.shared.used.solves
  }

  /** What the workers reserved and released between the two reads makes up for the difference there was. */
  lemma RecountsExactly(a: System, b: System)
    requires Inv(a)
    ensures var ledger, workers := a.shared.ledger, a.workers;
      Recounts(a, b) <==>
        && b.shared.used.preds - a.shared.used.preds
           == CountIf(ledger, ChargedFailure) + CountIf(workers, Released) - CountIf(workers, Waiting)
        && b.shared.used.solves - a.shared.used.solves
           == CountIf(ledger, ChargedSolveFailure) + CountIf(workers, ReleasedSolve) - CountIf(workers, WaitingSolve)
    ensures Recounts(a, a) <==> Balanced(a)
  {
    hide Inv, CountIf;
    ChargedRecordsAnytime(a);
  }

  /** The pred check passes exactly if the counters at their moment are the recount of the records at theirs, the
      records keep their bound, and their ids are new and distinct. */
  lemma TakenPredAgrees(m: Moments, seen: set<string>)
    requires Coherent(m)
    ensures PredClean(Taken(m), seen) <==>
      && |m.records.gateway.shared.ledger| <= m.records.gateway.limits.shells + 1
      && Recounts(m.records.gateway, m.counters.gateway)
      && FreshRequests(m.records.gateway.shared.ledger, seen)
  {
    hide Taken, Ledger, EpisodeInv, UsedIs, BudgetNumber, CountIf, PredClean, FreshRequests, PredItems, Evolves, Records;
    CutHolds(m);
    GatewayInv(Cut(m));
    TakenField(m, KPred);
    LedgerReads(Cut(m));
    TakenBudget(m, KShellActions);
    PredAgreesWith(Cut(m), Taken(m), seen);
    TakenUsed(m, KPredCalls, CountIf(m.records.gateway.shared.ledger, Charged));
    TakenUsed(m, KSolveCalls, CountIf(m.records.gateway.shared.ledger, ChargedSolveRecord));
  }

  /** The session is closed exactly if its last attempt was accepted, so equal lists of attempts mean equal states. */
  lemma SameAttempts(rule: string, a: Submit.SubmitState, b: Submit.SubmitState)
    requires Submit.SessionInv(SUBMIT_ATTEMPTS, rule, a) && Submit.SessionInv(SUBMIT_ATTEMPTS, rule, b)
    requires a.attempts == b.attempts
    ensures a.closed == b.closed
  {
  }

  /** No attempt was recorded between the reading of their number and the reading of the attempts. */
  predicate Uninterrupted(m: Moments) { |m.used.submit.attempts| == |m.attempts.submit.attempts| }

  lemma AttemptsChain(m: Moments)
    requires Coherent(m)
    ensures |m.used.submit.attempts| <= |m.closed.submit.attempts| <= |m.left.submit.attempts| <= |m.attempts.submit.attempts| <= 2
    ensures Uninterrupted(m) ==>
      && m.left.submit.attempts == m.closed.submit.attempts == m.attempts.submit.attempts
      && m.closed.submit.closed == m.attempts.submit.closed
  {
    hide EpisodeInv, Submit.SessionInv;
    EpisodeHolds(m.closed);
    EpisodeHolds(m.attempts);
    SubmitBound(m.attempts);
    if Uninterrupted(m) { SameAttempts(m.attempts.rule, m.closed.submit, m.attempts.submit); }
  }

  /** The submit check passes exactly if no attempt came in between and no id was seen before. */
  lemma TakenSubmitAgrees(m: Moments, seen: set<string>)
    requires Coherent(m)
    ensures SubmitClean(Taken(m), Str(m.events.rule), seen) <==>
      && Uninterrupted(m)
      && forall k :: 0 <= k < |m.attempts.submit.attempts| ==> m.attempts.submit.attempts[k].requestId !in seen
  {
    hide Taken, TakenStatus, Ledger, EpisodeInv, PyEq, SubmitItems, AttemptClean, FreshIds, CountIf, Evolves, StatusItem, SubmitOk;
    var cut := Cut(m);
    CutHolds(m);
    EpisodeHolds(cut);
    AttemptsAgree(cut, seen);
    TakenField(m, KSubmit);
    LedgerReads(cut);
    TakenSubmit(m);
    TakenItem(m, KSubmitAttempts);
    AttemptsChain(m);
    hide Coherent;
    var z := |m.attempts.submit.attempts|;
    PyEqInts(z, |m.used.submit.attempts|);
    PyEqInts(if CountIf(SubmitItems(cut), IsAccepted) > 0 then 0 else 2 - z,
             if m.closed.submit.closed then 0 else Max(0, SUBMIT_ATTEMPTS - |m.left.submit.attempts|));
  }

  // ---------------------------------------------------------------- one state

  lemma AtOnceMoments(ep: Episode)
    ensures IsReading(ep, AT_ONCE) && MomentsOf(ep, AT_ONCE) == Moments(ep, ep, ep, ep, ep, ep, ep)
  {
    hide IsEpisodeRun, Final;
    FinalNothing(ep);
  }

  /** A ledger taken at rest passes the pred check exactly if no charged record failed in infrastructure, the
      records keep their bound, and their ids are new and distinct. */
  lemma PredAgrees(ep: Episode, seen: set<string>)
    requires EpisodeInv(ep) && AtRest(ep.gateway)
    ensures PredClean(Ledger(ep), seen) <==>
      && |ep.gateway.shared.ledger| <= ep.gateway.limits.shells + 1
      && (forall k :: 0 <= k < |ep.gateway.shared.ledger| ==> !ChargedFailure(ep.gateway.shared.ledger[k]))
      && FreshRequests(ep.gateway.shared.ledger, seen)
  {
    hide EpisodeInv, Ledger, Taken, FreshRequests, ChargedFailure, Balanced, AtRest, PredClean, Recounts, Coherent, MomentsOf, IsReading;
    TakenAtOnce(ep);
    AtOnceMoments(ep);
    ReadingIsCoherent(ep, AT_ONCE);
    TakenPredAgrees(MomentsOf(ep, AT_ONCE), seen);
    EpisodeHolds(ep);
    RecountsExactly(ep.gateway, ep.gateway);
    RestIsBalanced(ep.gateway);
  }

  /** A ledger taken at one moment passes the submit check exactly if no attempt reuses a seen id. */
  lemma SubmitAgrees(ep: Episode, seen: set<string>)
    requires EpisodeInv(ep)
    ensures SubmitClean(Ledger(ep), Str(ep.rule), seen) <==>
      forall k :: 0 <= k < |ep.submit.attempts| ==> ep.submit.attempts[k].requestId !in seen
  {
    hide EpisodeInv, Ledger, Taken, SubmitClean, Coherent, MomentsOf, IsReading;
    TakenAtOnce(ep);
    AtOnceMoments(ep);
    ReadingIsCoherent(ep, AT_ONCE);
    TakenSubmitAgrees(MomentsOf(ep, AT_ONCE), seen);
  }
}
