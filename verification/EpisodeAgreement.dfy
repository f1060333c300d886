/** The agreement theorem and what falls outside it. */
module EpisodeAgreement {
  import opened Text
  import opened Budget
  import opened Counting
  import opened Json
  import opened Observations
  import opened CommandLine
  import opened Gateway
  import opened GatewaySafety
  import opened GatewayBalance
  import opened GatewaySession
  import opened Episode
  import opened LedgerJson
  import opened Contract
  import opened ObservationContract
  import opened Agreement
  import opened ObservationAgreement
  import opened LedgerReading
  import Submit

  /** What the five `_validate_*` checks together accept, for one episode. */
  ghost predicate LedgerClean(ledger: Fields, budget: Fields, rule: Value, limits: Config, seen: set<string>) {
    && StatusClean(Get(ledger, KStatus), budget, COUNTERS)
    && EventsClean(ledger)
    && ObservationsClean(ledger, false, limits)
    && PredClean(ledger, seen)
    && SubmitClean(ledger, rule, seen + LedgerIds(ledger, KPred))
  }

  /** The five checks in their order, on one ledger. */
  method ValidateLedger(ledger: Fields, budget: Fields, rule: Value, limits: Config, seen: set<string>)
    returns (r: Checked, seen': set<string>)
    ensures r == Problems([]) <==> LedgerClean(ledger, budget, rule, limits, seen)
    ensures r == Problems([]) ==> seen' == seen + LedgerIds(ledger, KPred) + LedgerIds(ledger, KSubmit)
  {
    hide StatusClean, EventsClean, ObservationsClean, PredClean, SubmitClean, LedgerIds;
    var status := ValidateStatus(Get(ledger, KStatus), budget, COUNTERS);
    var events := ValidateEpisodeEvents(ledger);
    var observations := ValidateObservationLedger(ledger, false, limits);
    var pred, submit: Checked;
    pred, seen' := ValidatePredLedger(ledger, seen);
    submit, seen' := ValidateSubmitLedger(ledger, rule, seen');
    if status.Raised? || events.Raised? || observations.Raised? || pred.Raised? || submit.Raised? { return Raised, seen'; }
    r := Problems(status.list + events.list + observations.list + pred.list + submit.list);
  }

  /** What an episode has to avoid besides unbalanced books. */
  ghost predicate Bounded(ep: Episode, seen: set<string>) {
    var ledger, limits, attempts := ep.gateway.shared.ledger, ep.gateway.limits, ep.submit.attempts;
    && |ep.models| <= limits.models + 1 && |ep.shells| <= limits.shells + 1 && |ledger| <= limits.shells + 1
    && FreshRequests(ledger, seen)
    && (forall k :: 0 <= k < |attempts| ==> attempts[k].requestId !in seen)
    && (forall j, k :: 0 <= j < |ledger| && 0 <= k < |attempts| ==> ledger[j].requestId != attempts[k].requestId)
  }

  /** What an episode at rest has to avoid. */
  ghost predicate Provisos(ep: Episode, seen: set<string>) {
    && !ep.pending && Bounded(ep, seen)
    && forall k :: 0 <= k < |ep.gateway.shared.ledger| ==> !ChargedFailure(ep.gateway.shared.ledger[k])
  }

  lemma PredIds(ep: Episode, id: string)
    requires EpisodeInv(ep)
    ensures id in LedgerIds(Ledger(ep), KPred) <==>
      exists k :: 0 <= k < |ep.gateway.shared.ledger| && ep.gateway.shared.ledger[k].requestId == id
  {
    hide CountsOk, ShellsOk, SubmitOk, Accounts, Workers, Owners, Logs, RecordOk, Ledger, PredItems, IdsOf, IsRequestId;
    LedgerReads(ep);
    ItemCounts(ep);
    var items, ledger := PredItems(ep), ep.gateway.shared.ledger;
    InIdsOf(items, |items|, id);
    forall k | 0 <= k < |items| ensures RequestIdOf(items[k]) == Some(ledger[k].requestId) {
      PredItemReads(ep, k);
      RecordAt(ep, k);
      RecordIdValid(ep.gateway.config, ledger[k], k);
    }
  }

  lemma RecordIdValid(config: Config, r: PredRecord, k: nat)
    requires RecordOk(config, r, k)
    ensures IsRequestId(r.requestId)
  {
    hide IsRequestId, WellPackaged;
  }

  /** What a reading has to avoid: a pending shell action, lists beyond their bounds, reused ids, counters that had
      moved away from the recount of the records by the time they were read, and an attempt that came in between
      the reading of the number of attempts and that of the attempts. */
  ghost predicate TakenProvisos(m: Moments, seen: set<string>) {
    && !m.events.pending && Bounded(Cut(m), seen)
    && Recounts(m.records.gateway, m.counters.gateway) && Uninterrupted(m)
  }

  /** One reading of one episode's ledger. */
  lemma ReadingAgrees(m: Moments, seen: set<string>)
    requires Coherent(m)
    ensures LedgerClean(Taken(m), BudgetFields(Cut(m)), Str(m.events.rule), m.events.gateway.config, seen)
      <==> TakenProvisos(m, seen)
  {
    hide EpisodeInv, Recounts, Taken, Ledger, BudgetFields, StatusClean, EventsClean, ObservationsClean, PredClean, SubmitClean,
         LedgerIds, FreshRequests, Evolves, Coherent, Uninterrupted;
    var cut := Cut(m);
    CutHolds(m);
    var ledger, attempts := cut.gateway.shared.ledger, cut.submit.attempts;
    TakenStatusAgrees(m);
    TakenEventsAgree(m);
    EventsAgree(cut);
    TakenObservations(m, m.events.gateway.config);
    ObservationsAgree(cut);
    TakenPredAgrees(m, seen);
    TakenSubmitAgrees(m, seen + LedgerIds(Taken(m), KPred));
    forall k | 0 <= k < |attempts|
      ensures attempts[k].requestId in LedgerIds(Ledger(cut), KPred) <==>
        exists j :: 0 <= j < |ledger| && ledger[j].requestId == attempts[k].requestId
    {
      PredIds(cut, attempts[k].requestId);
    }
  }

  /** One episode whose ledger is taken at one moment. */
  lemma MomentAgreement(ep: Episode, seen: set<string>)
    requires EpisodeInv(ep)
    ensures LedgerClean(Ledger(ep), BudgetFields(ep), Str(ep.rule), ep.gateway.config, seen)
      <==> !ep.pending && Bounded(ep, seen) && Balanced(ep.gateway)
  {
    hide EpisodeInv, Balanced, Ledger, BudgetFields, LedgerClean, Bounded, Taken, Cut, Recounts, Coherent;
    TakenAtOnce(ep);
    ReadingIsCoherent(ep, AT_ONCE);
    ReadingAgrees(MomentsOf(ep, AT_ONCE), seen);
    AtOnceMoments(ep);
    EpisodeHolds(ep);
    RecountsExactly(ep.gateway, ep.gateway);
  }

  /** One episode, with the gateway at rest. */
  lemma RestingAgreement(ep: Episode, seen: set<string>)
    requires EpisodeInv(ep) && AtRest(ep.gateway)
    ensures LedgerClean(Ledger(ep), BudgetFields(ep), Str(ep.rule), ep.gateway.config, seen) <==> Provisos(ep, seen)
  {
    hide EpisodeInv, AtRest, Balanced, Ledger, BudgetFields, LedgerClean, Bounded, ChargedFailure;
    MomentAgreement(ep, seen);
    RestIsBalanced(ep.gateway);
  }

  lemma {:induction false} RunConstants(ep: Episode, actions: seq<Action>)
    requires IsEpisodeRun(ep, actions)
    ensures Final(ep, actions).rule == ep.rule
    ensures Final(ep, actions).gateway.config == ep.gateway.config
    ensures Final(ep, actions).gateway.limits == ep.gateway.limits
    decreases |actions|
  {
    hide Possible, Advance, Generate, Admit, Attach, Submit.Serve, IsEpisodeRun, Final;
    if actions != [] {
      FinalUnfolds(ep, actions);
      RunConstants(Step(ep, actions[0]), actions[1..]);
    } else {
      FinalNothing(ep);
    }
  }

  /** Producer and validator agree. After every run of an episode, with any interleaving of gateway workers,
      model generations, shell actions and submit requests, and however the ledger is then taken, part by part,
      while gateway workers and the submit service go on, the ledger passes all five checks exactly if: no shell
      action is pending; there is at most one pred record more than shell actions are budgeted, at most one model
      and one shell event more than budgeted; the request ids of the pred and submit ledgers are pairwise
      distinct and were not seen before; the counters, when they were read, held as many pred and solve calls as
      the records had charged when they were read; and no attempt was recorded between the two reads of the
      submit session. */
  lemma AgreementOverReading(rule: string, outputChars: nat, timeoutSeconds: nat, limits: Usage, config: Config,
                             actions: seq<Action>, reading: Reading, seen: set<string>)
    requires IsEpisodeRun(Fresh(rule, outputChars, timeoutSeconds, limits, config), actions)
    requires IsReading(Final(Fresh(rule, outputChars, timeoutSeconds, limits, config), actions), reading)
    ensures var m := MomentsOf(Final(Fresh(rule, outputChars, timeoutSeconds, limits, config), actions), reading);
      LedgerClean(Taken(m), BudgetFields(m.events), Str(rule), config, seen) <==> TakenProvisos(m, seen)
  {
    hide EpisodeInv, IsEpisodeRun, Final, Taken, LedgerClean, TakenProvisos, IsBackground, Coherent;
    var ep := Fresh(rule, outputChars, timeoutSeconds, limits, config);
    FreshInv(rule, outputChars, timeoutSeconds, limits, config);
    EpisodeRunKeeps(ep, actions);
    RunConstants(ep, actions);
    ReadingIsCoherent(Final(ep, actions), reading);
    var m := MomentsOf(Final(ep, actions), reading);
    ReadingAgrees(m, seen);
    CutBudget(m);
  }

  lemma CutBudget(m: Moments)
    requires Coherent(m)
    ensures BudgetFields(Cut(m)) == BudgetFields(m.events)
  {
    hide EpisodeInv;
  }

  /** If nothing happens while the ledger is taken, the condition on the counters is one on a single state: charged
      failures, and releases whose records are not yet finished, make up exactly for the reservations that do not
      have a record yet. */
  lemma AgreementAtAnyMoment(rule: string, outputChars: nat, timeoutSeconds: nat, limits: Usage, config: Config,
                             actions: seq<Action>, seen: set<string>)
    requires IsEpisodeRun(Fresh(rule, outputChars, timeoutSeconds, limits, config), actions)
    ensures var ep := Final(Fresh(rule, outputChars, timeoutSeconds, limits, config), actions);
      IsReading(ep, AT_ONCE) && Taken(MomentsOf(ep, AT_ONCE)) == Ledger(ep)
    ensures var ep := Final(Fresh(rule, outputChars, timeoutSeconds, limits, config), actions);
      LedgerClean(Ledger(ep), BudgetFields(ep), Str(rule), config, seen)
      <==> !ep.pending && Bounded(ep, seen) && Balanced(ep.gateway)
  {
    hide EpisodeInv, IsEpisodeRun, Final, Ledger, BudgetFields, LedgerClean, Bounded, Balanced, IsReading, Taken;
    var ep := Fresh(rule, outputChars, timeoutSeconds, limits, config);
    FreshInv(rule, outputChars, timeoutSeconds, limits, config);
    EpisodeRunKeeps(ep, actions);
    RunConstants(ep, actions);
    MomentAgreement(Final(ep, actions), seen);
    TakenAtOnce(Final(ep, actions));
  }

  /** And if the gateway has come to rest before, there are no such reservations and releases: the ledger passes
      exactly if, besides, no charged pred record ended in an infrastructure error. */
  lemma ProducerMeetsValidator(rule: string, outputChars: nat, timeoutSeconds: nat, limits: Usage, config: Config,
                               actions: seq<Action>, seen: set<string>)
    requires IsEpisodeRun(Fresh(rule, outputChars, timeoutSeconds, limits, config), actions)
    requires AtRest(Final(Fresh(rule, outputChars, timeoutSeconds, limits, config), actions).gateway)
    ensures var ep := Final(Fresh(rule, outputChars, timeoutSeconds, limits, config), actions);
      LedgerClean(Ledger(ep), BudgetFields(ep), Str(rule), config, seen) <==> Provisos(ep, seen)
  {
    hide EpisodeInv, IsEpisodeRun, Final, Ledger, BudgetFields, LedgerClean, Provisos, AtRest;
    var ep := Fresh(rule, outputChars, timeoutSeconds, limits, config);
    FreshInv(rule, outputChars, timeoutSeconds, limits, config);
    EpisodeRunKeeps(ep, actions);
    RunConstants(ep, actions);
    RestingAgreement(Final(ep, actions), seen);
  }

  // ---------------------------------------------------------------- the provisos are really needed

  /** A run of the gateway alone is a run of the episode. */
  lemma {:induction false} GatewayRunLifts(ep: Episode, events: seq<Event>) returns (actions: seq<Action>)
    requires IsRun(ep.gateway, events) && forall e :: e in events ==> !e.Elsewhere?
    ensures IsEpisodeRun(ep, actions) && Final(ep, actions) == ep.(gateway := After(ep.gateway, events))
    ensures forall k :: 0 <= k < |actions| ==> actions[k].PredEvent?
    decreases |events|
  {
    hide Enabled, Apply;
    if events == [] {
      FinalNothing(ep);
      return [];
    }
    var next := Step(ep, PredEvent(events[0]));
    assert next == ep.(gateway := Apply(ep.gateway, events[0]));
    var rest := GatewayRunLifts(next, events[1..]);
    actions := [PredEvent(events[0])] + rest;
    assert actions[0] == PredEvent(events[0]) && actions[1..] == rest;
  }

  lemma {:induction false} EpisodeRunConcat(ep: Episode, a: seq<Action>, b: seq<Action>)
    requires IsEpisodeRun(ep, a) && IsEpisodeRun(Final(ep, a), b)
    ensures IsEpisodeRun(ep, a + b) && Final(ep, a + b) == Final(Final(ep, a), b)
    decreases |a|
  {
    hide Possible, Step;
    if a == [] {
      assert a + b == b;
    } else {
      EpisodeRunConcat(Step(ep, a[0]), a[1..], b);
      assert (a + b)[0] == a[0] && (a + b)[1..] == a[1..] + b;
    }
  }

  /** A call made while the gateway rests, from its claim to its response. */
  lemma CallFromRest(ep: Episode, id: string, env: Envelope, run: Run) returns (actions: seq<Action>)
    requires Resting(ep) && IsRequestId(id) && id !in ep.gateway.shared.responses
    requires IsCall(env) && WellRun(run, id, env.op.args, ep.gateway.config)
    ensures IsEpisodeRun(ep, actions)
    ensures Resting(Final(ep, actions)) && Final(ep, actions) == ep.(gateway := Final(ep, actions).gateway)
    ensures Final(ep, actions).gateway.limits == ep.gateway.limits && Final(ep, actions).gateway.config == ep.gateway.config
    ensures Ready(ep.gateway.shared, Worker(id, env, Arrived))
    ensures Final(ep, actions).gateway.shared
      == Drive(ep.gateway.limits, ep.gateway.shared, Worker(id, env, Arrived), run).0
  {
    hide Counters, TotalLength, IsRequestId, WellRun, IsCall, Advance, Drive;
    var sys, w := ep.gateway, Worker(id, env, Arrived);
    var claimed := Apply(sys, Claim(id, env));
    assert Ready(claimed.shared, claimed.workers[|sys.workers|]);
    var events, end := DriveIsRun(claimed, |sys.workers|, run);
    assert ([Claim(id, env)] + events)[1..] == events;
    assert IsRun(sys, [Claim(id, env)] + events);
    actions := GatewayRunLifts(ep, [Claim(id, env)] + events);
  }

  /** A run that comes to rest with a ledger that the validator rejects. */
  ghost predicate RejectedRun(rule: string, outputChars: nat, timeoutSeconds: nat, limits: Usage, config: Config, actions: seq<Action>) {
    var start := Fresh(rule, outputChars, timeoutSeconds, limits, config);
    && IsEpisodeRun(start, actions) && Resting(Final(start, actions))
    && !LedgerClean(Ledger(Final(start, actions)), BudgetFields(Final(start, actions)), Str(rule), config, {})
  }

  /** One charged call whose process cannot be started is enough: its counters are given back, but its
      record still says `charged`, and the validator's recount differs from the status. */
  lemma ReleasedCallIsRejected(rule: string, outputChars: nat, timeoutSeconds: nat, limits: Usage, config: Config,
                               id: string, env: Envelope)
    requires IsRequestId(id) && IsCall(env) && Counters(env.op.args) != []
    requires Available(NO_USE, limits, Counters(env.op.args))
    ensures exists actions :: RejectedRun(rule, outputChars, timeoutSeconds, limits, config, actions)
  {
    hide Counters, TotalLength, IsRequestId, LedgerClean, Drive, IsCall, Ledger, BudgetFields;
    var ep := Fresh(rule, outputChars, timeoutSeconds, limits, config);
    var actions := CallFromRest(ep, id, env, SpawnFailed(false));
    GrantedCallNet(limits, ep.gateway.shared, Worker(id, env, Arrived), SpawnFailed(false));
    var end := Final(ep, actions);
    assert end.gateway.shared.ledger[0].charged && end.gateway.shared.ledger[0].outcome.InfrastructureError?;
    assert !Provisos(end, {});
    ProducerMeetsValidator(rule, outputChars, timeoutSeconds, limits, config, actions, {});
    assert RejectedRun(rule, outputChars, timeoutSeconds, limits, config, actions);
  }

  /** One granted call, charged or free, that an exception aborts, as an argument with a NUL character does: its
      record reads "running" for ever. If a pred call is left, the request is charged and recorded once more
      under its own id, and the ledger is rejected; if not, the ledger is accepted with the unfinished record in
      it. So it is accepted exactly if the call itself used up the budget of pred calls. */
  lemma AbortedCallIsRecordedTwice(rule: string, outputChars: nat, timeoutSeconds: nat, limits: Usage, config: Config,
                                   id: string, env: Envelope, logged: bool)
    returns (actions: seq<Action>)
    requires IsRequestId(id) && IsCall(env) && Available(NO_USE, limits, Counters(env.op.args))
    ensures var start := Fresh(rule, outputChars, timeoutSeconds, limits, config);
      && IsEpisodeRun(start, actions) && Resting(Final(start, actions))
      && var end, charged := Final(start, actions), Counters(env.op.args) != []; var ledger := end.gateway.shared.ledger;
         && |ledger| == (if limits.preds > Bit(charged) then 2 else 1)
         && ledger[0].outcome == Abandoned && ledger[0].charged == charged && (|ledger| == 2 ==> ledger[1].charged)
         && (forall k :: 0 <= k < |ledger| ==> ledger[k].requestId == id)
         && (LedgerClean(Ledger(end), BudgetFields(end), Str(rule), config, {}) <==> limits.preds == Bit(charged))
  {
    hide Counters, TotalLength, IsRequestId, LedgerClean, Drive, Ledger, BudgetFields, IsEpisodeRun, Final, NewlyCached;
    AnotherPredCall(limits, env.op.args);
    hide IsCall;
    var ep, w := Fresh(rule, outputChars, timeoutSeconds, limits, config), Worker(id, env, Arrived);
    actions := CallFromRest(ep, id, env, Escaped(logged));
    EscapedCallNet(limits, ep.gateway.shared, w, Escaped(logged));
    ProducerMeetsValidator(rule, outputChars, timeoutSeconds, limits, config, actions, {});
    var end := Final(ep, actions);
    assert end.gateway.shared.ledger[0].requestId == id;
  }

  /** After one granted call from nothing there is room for another pred call if the limit is above what it used. */
  lemma AnotherPredCall(limits: Usage, args: seq<string>)
    requires Available(NO_USE, limits, Counters(args))
    ensures limits.preds >= Bit(Counters(args) != [])
    ensures Available(Charge(NO_USE, Counters(args), |Counters(args)|), limits, [PredCalls])
      <==> limits.preds > Bit(Counters(args) != [])
  {
    CountersShape(args);
    ChargeCall(NO_USE, args);
    hide Counters, Charge;
    assert Counters(args) != [] ==> PredCalls in Counters(args);
    assert PredCalls in [PredCalls];
  }

  /** The `k`-th request id of a long run. */
  function NthId(k: nat): string { Padded(k, 32) }

  lemma NthIdValid(k: nat)
    requires |Decimal(k)| <= 32
    ensures IsRequestId(NthId(k))
  {
    PaddedRoundTrip(k, 32);
  }

  lemma NthIdInjective(j: nat, k: nat)
    requires NthId(j) == NthId(k)
    ensures j == k
  {
    PaddedRoundTrip(j, 32);
    PaddedRoundTrip(k, 32);
  }

  /** A call and what its process does, if it is started. */
  datatype Asked = Asked(env: Envelope, run: Run)

  /** The call leaves its result in the cache, if it gets as far. */
  predicate Succeeds(c: Asked) { IsCall(c.env) && NewlyCached(c.env, c.run) != {} }

  /** Any calls with any outcomes, as long as no free call that succeeded is repeated: the cache would answer it. */
  ghost predicate NoneCached(calls: nat -> Asked, n: nat, config: Config) {
    && (forall k: nat :: k < n ==> IsCall(calls(k).env) && WellRun(calls(k).run, NthId(k), calls(k).env.op.args, config))
    && (forall j: nat, k: nat :: j < k < n && Succeeds(calls(j)) ==> calls(k).env.op.args != calls(j).env.op.args)
  }

  ghost predicate SucceededBefore(calls: nat -> Asked, n: nat, args: seq<string>) {
    exists j: nat :: j < n && Succeeds(calls(j)) && calls(j).env.op.args == args
  }

  /** A state after the first `n` calls. */
  ghost predicate AfterCalls(start: Episode, ep: Episode, calls: nat -> Asked, n: nat) {
    && ep == start.(gateway := ep.gateway) && Resting(ep)
    && ep.gateway.limits == start.gateway.limits && ep.gateway.config == start.gateway.config
    && |ep.gateway.shared.ledger| >= n
    && (forall args :: args in ep.gateway.shared.cache ==> SucceededBefore(calls, n, args))
    && forall k: nat :: NthId(k) in ep.gateway.shared.responses ==> k < n
  }

  lemma FewerCalls(calls: nat -> Asked, n: nat, config: Config)
    requires n > 0 && NoneCached(calls, n, config)
    ensures NoneCached(calls, n - 1, config)
  {
    hide IsCall, WellRun, NthId, NewlyCached;
  }

  /** The next call is not in the cache. */
  lemma NextUncached(start: Episode, ep: Episode, calls: nat -> Asked, n: nat)
    requires n > 0 && AfterCalls(start, ep, calls, n - 1) && NoneCached(calls, n, start.gateway.config)
    ensures IsCall(calls(n - 1).env) && Uncached(ep.gateway.shared, calls(n - 1).env)
    ensures WellRun(calls(n - 1).run, NthId(n - 1), calls(n - 1).env.op.args, start.gateway.config)
    ensures NthId(n - 1) !in ep.gateway.shared.responses
  {
    hide IsCall, Counters, WellRun, NthId, Resting, NewlyCached;
  }

  lemma {:induction false} ManyCalls(start: Episode, calls: nat -> Asked, n: nat) returns (actions: seq<Action>)
    requires AfterCalls(start, start, calls, 0) && |Decimal(n)| <= 32 && NoneCached(calls, n, start.gateway.config)
    ensures IsEpisodeRun(start, actions) && AfterCalls(start, Final(start, actions), calls, n)
  {
    hide Counters, TotalLength, IsRequestId, IsCall, Drive, Resting, NthId, Decimal, IsEpisodeRun, Final, WellRun, Ready, NewlyCached,
         Uncached, SucceededBefore, NoneCached;
    if n == 0 {
      FinalNothing(start);
      return [];
    }
    DecimalMonotone(n - 1, n);
    FewerCalls(calls, n, start.gateway.config);
    var first := ManyCalls(start, calls, n - 1);
    var ep, id, call := Final(start, first), NthId(n - 1), calls(n - 1);
    NthIdValid(n - 1);
    NextUncached(start, ep, calls, n);
    var more := CallFromRest(ep, id, call.env, call.run);
    RecordedCallNet(ep.gateway.limits, ep.gateway.shared, Worker(id, call.env, Arrived), call.run);
    EpisodeRunConcat(start, first, more);
    var after := Final(ep, more).gateway.shared;
    forall k: nat | NthId(k) in after.responses ensures k < n {
      if NthId(k) == id { NthIdInjective(k, n - 1); }
    }
    forall args | args in after.cache ensures SucceededBefore(calls, n, args) {
      MoreSucceeded(calls, n, args);
    }
    return first + more;
  }

  lemma MoreSucceeded(calls: nat -> Asked, n: nat, args: seq<string>)
    requires n > 0
    ensures SucceededBefore(calls, n - 1, args) ==> SucceededBefore(calls, n, args)
    ensures IsCall(calls(n - 1).env) && args in NewlyCached(calls(n - 1).env, calls(n - 1).run) ==> SucceededBefore(calls, n, args)
  {
    hide Counters, TotalLength;
  }

  /** No budget keeps the pred ledger within the validator's bound, because every call that the cache does not
      answer appends a record, whether it is granted, refused or free, and whatever its process does. For all
      limits, however small, and all sequences of calls and outcomes in which no free call that succeeded is
      repeated, two calls more than shell actions are budgeted come to rest with a ledger that is rejected. */
  lemma EveryBudgetAllowsRejectedRuns(rule: string, outputChars: nat, timeoutSeconds: nat, limits: Usage, config: Config,
                                      calls: nat -> Asked)
    requires |Decimal(limits.shells + 2)| <= 32 && NoneCached(calls, limits.shells + 2, config)
    ensures exists actions :: RejectedRun(rule, outputChars, timeoutSeconds, limits, config, actions)
  {
    hide TotalLength, LedgerClean, Drive, Ledger, BudgetFields, NthId, Decimal, NoneCached, Succeeds;
    var start := Fresh(rule, outputChars, timeoutSeconds, limits, config);
    var actions := ManyCalls(start, calls, limits.shells + 2);
    ProducerMeetsValidator(rule, outputChars, timeoutSeconds, limits, config, actions, {});
    assert RejectedRun(rule, outputChars, timeoutSeconds, limits, config, actions);
  }
}
