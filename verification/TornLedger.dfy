/** Why the condition on the counters is one on two states: a ledger whose parts are read around the steps of a
    busy worker can be rejected although the books are balanced at either moment, and accepted although they are
    balanced at neither. */
module TornLedger {
  import opened Text
  import opened Budget
  import opened Json
  import opened Counting
  import opened Observations
  import opened CommandLine
  import opened Gateway
  import opened GatewaySafety
  import opened GatewayBalance
  import opened GatewayReplay
  import opened Episode
  import opened LedgerJson
  import opened LedgerReading
  import opened EpisodeAgreement

  lemma CountOne<T>(x: T, p: T -> bool)
    ensures CountIf([x], p) == Bit(p(x))
  {
    CountPush([], x, p);
    assert [] + [x] == [x];
  }

  /** The books of a gateway with one worker. */
  lemma OneWorkerBalance(sys: System, w: Worker)
    requires sys.workers == [w] && (forall k :: 0 <= k < |sys.shared.ledger| ==> !ChargedFailure(sys.shared.ledger[k]))
    ensures Balanced(sys) <==> Released(w) == Waiting(w)
  {
    CountNone(sys.shared.ledger, ChargedFailure);
    CountNone(sys.shared.ledger, ChargedSolveFailure);
    CountOne(w, Waiting);
    CountOne(w, WaitingSolve);
    CountOne(w, Released);
    CountOne(w, ReleasedSolve);
    hide CountIf, RunOutcome, IsCall, Counters;
  }

  /** A gateway with one request file in hand. */
  function Handed(limits: Usage, config: Config, id: string, env: Envelope): System {
    Initial(limits, config).(workers := [Worker(id, env, Arrived)])
  }

  lemma HandedByClaim(limits: Usage, config: Config, id: string, env: Envelope)
    requires IsRequestId(id)
    ensures IsRun(Initial(limits, config), [Claim(id, env)])
    ensures After(Initial(limits, config), [Claim(id, env)]) == Handed(limits, config, id, env)
  {
    hide IsRequestId;
    var e := Claim(id, env);
    assert [e][1..] == [];
    assert Apply(Initial(limits, config), e) == Handed(limits, config, id, env);
    assert IsRun(Handed(limits, config, id, env), []);
  }

  /** The request has its reservation and no record yet. */
  function Reserved(limits: Usage, config: Config, id: string, env: Envelope): System
    requires IsCall(env)
  {
    var names := Counters(env.op.args);
    var sys := Handed(limits, config, id, env);
    sys.(shared := sys.shared.(used := Charge(NO_USE, names, |names|)), workers := [Worker(id, env, Holding)])
  }

  lemma ReservedByThreeSteps(limits: Usage, config: Config, id: string, env: Envelope, c: Choice)
    requires IsCall(env) && Counters(env.op.args) != [] && Available(NO_USE, limits, Counters(env.op.args))
    ensures var sys := Handed(limits, config, id, env);
      IsRun(sys, Steps(0, c, 3)) && After(sys, Steps(0, c, 3)) == Reserved(limits, config, id, env)
  {
    hide Counters, CommandName, TotalLength, IsRun, After, Charge, WellRun;
    var sys := Handed(limits, config, id, env);
    var s1 := sys.(workers := [Worker(id, env, Dispatching)]);
    var s2 := sys.(workers := [Worker(id, env, Reserving)]);
    ThreeSteps(sys, s1, s2, Reserved(limits, config, id, env), 0, c);
  }

  /** Three steps later its process could not be started and the reservation was given back, but its record is not
      finished. */
  function GivenBack(limits: Usage, config: Config, id: string, env: Envelope, seen: Usage): System
    requires IsCall(env)
  {
    var sys := Reserved(limits, config, id, env);
    sys.(shared := sys.shared.(used := NO_USE,
                               ledger := [CallRecord(sys.shared, Worker(id, env, Holding), true, Running, seen)]),
         workers := [Worker(id, env, Finishing(0, SpawnFailed(false)))])
  }

  lemma GivenBackByThreeSteps(limits: Usage, config: Config, id: string, env: Envelope, seen: Usage)
    requires IsCall(env) && Counters(env.op.args) != []
    ensures var sys, c := Reserved(limits, config, id, env), Choice(seen, SpawnFailed(false));
      IsRun(sys, Steps(0, c, 3)) && After(sys, Steps(0, c, 3)) == GivenBack(limits, config, id, env, seen)
  {
    var names := Counters(env.op.args);
    ReleaseUndoesReserve(NO_USE, names);
    hide Counters, CommandName, TotalLength, IsRun, After, Charge, Discharge;
    var sys, c := Reserved(limits, config, id, env), Choice(seen, SpawnFailed(false));
    var record := CallRecord(sys.shared, sys.workers[0], true, Running, seen);
    var s1 := sys.(shared := sys.shared.(ledger := [record]), workers := [Worker(id, env, Invoking(0))]);
    var s2 := s1.(workers := [Worker(id, env, Releasing(0))]);
    assert sys.shared.ledger + [record] == [record];
    ThreeSteps(sys, s1, s2, GivenBack(limits, config, id, env, seen), 0, c);
  }

  /** A reading in which everything happens between the records and the counters. */
  lemma ReadAround(ep: Episode, events: seq<Event>) returns (r: Reading)
    requires IsRun(ep.gateway, events) && forall e :: e in events ==> !e.Elsewhere?
    ensures IsReading(ep, r)
    ensures var later := ep.(gateway := After(ep.gateway, events));
      MomentsOf(ep, r) == Moments(ep, ep, later, later, later, later, later)
  {
    hide IsEpisodeRun, Final, IsRun, After;
    var actions := GatewayRunLifts(ep, events);
    FinalNothing(ep);
    FinalNothing(Final(ep, actions));
    return AT_ONCE.(counters := actions);
  }

  /** The records are read when the request is in hand, the counters when its process is about to run. */
  lemma ReadWhileStarting(start: Episode, id: string, env: Envelope, c: Choice)
    returns (actions: seq<Action>, reading: Reading)
    requires start.gateway == Initial(start.gateway.limits, start.gateway.config)
    requires IsRequestId(id) && IsCall(env) && Counters(env.op.args) != []
    requires Available(NO_USE, start.gateway.limits, Counters(env.op.args))
    ensures IsEpisodeRun(start, actions) && IsReading(Final(start, actions), reading)
    ensures var ep := start.(gateway := Handed(start.gateway.limits, start.gateway.config, id, env));
      var later := ep.(gateway := Started(ep.gateway, 0, c));
      MomentsOf(Final(start, actions), reading) == Moments(ep, ep, later, later, later, later, later)
  {
    hide Counters, CommandName, TotalLength, IsRequestId, IsCall, IsRun, After, IsEpisodeRun, Final, IsReading, MomentsOf, Available,
         Charge;
    HandedByClaim(start.gateway.limits, start.gateway.config, id, env);
    actions := GatewayRunLifts(start, [Claim(id, env)]);
    var ep := Final(start, actions);
    ChargedCallStarts(ep.gateway, 0, c);
    reading := ReadAround(ep, Steps(0, c, 4));
  }

  /** Torn one way. For every charged call with room: at the moment the records are read its request is in hand,
      at the moment the counters are read its process runs, the books are balanced at both moments, nothing else
      is wrong, and the ledger is rejected. */
  lemma BalancedMomentsRejected(rule: string, outputChars: nat, timeoutSeconds: nat, limits: Usage, config: Config,
                                id: string, env: Envelope)
    returns (actions: seq<Action>, reading: Reading)
    requires IsRequestId(id) && IsCall(env) && Counters(env.op.args) != [] && Available(NO_USE, limits, Counters(env.op.args))
    ensures var start := Fresh(rule, outputChars, timeoutSeconds, limits, config);
      && IsEpisodeRun(start, actions) && IsReading(Final(start, actions), reading)
      && var m := MomentsOf(Final(start, actions), reading);
         && Balanced(m.records.gateway) && Balanced(m.counters.gateway)
         && !m.events.pending && Bounded(Cut(m), {}) && Uninterrupted(m)
         && !LedgerClean(Taken(m), BudgetFields(m.events), Str(rule), config, {})
  {
    hide Counters, CommandName, TotalLength, IsRequestId, IsCall, IsEpisodeRun, Final, Taken, LedgerClean, MomentsOf,
         BudgetFields, IsReading, Balanced, Available, TakenProvisos, Bounded, Uninterrupted, Started, Handed;
    var start, c := Fresh(rule, outputChars, timeoutSeconds, limits, config), Choice(NO_USE, SpawnFailed(true));
    actions, reading := ReadWhileStarting(start, id, env, c);
    StartIsTorn(start, MomentsOf(Final(start, actions), reading), id, env, c);
    AgreementOverReading(rule, outputChars, timeoutSeconds, limits, config, actions, reading, {});
  }

  /** The records of the one moment do not account for the counters of the other, and nothing else is wrong. */
  lemma StartIsTorn(start: Episode, m: Moments, id: string, env: Envelope, c: Choice)
    requires exists rule, outputChars, timeoutSeconds, limits, config :: start == Fresh(rule, outputChars, timeoutSeconds, limits, config)
    requires IsCall(env) && Counters(env.op.args) != []
    requires var ep := start.(gateway := Handed(start.gateway.limits, start.gateway.config, id, env));
      var later := ep.(gateway := Started(ep.gateway, 0, c));
      m == Moments(ep, ep, later, later, later, later, later)
    ensures Balanced(m.records.gateway) && Balanced(m.counters.gateway)
    ensures !m.events.pending && Bounded(Cut(m), {}) && Uninterrupted(m) && !TakenProvisos(m, {})
  {
    ChargedFromNothing(env.op.args);
    hide Counters, CommandName, TotalLength, IsCall, CallRecord, Balanced, Charge, Waiting, Released;
    StartsBalanced(m.records.gateway, m.counters.gateway, c);
  }

  lemma StartsBalanced(a: System, b: System, c: Choice)
    requires |a.workers| == 1 && a.workers[0].pc.Arrived? && IsCall(a.workers[0].env) && a.shared.ledger == []
    requires b == Started(a, 0, c)
    ensures Balanced(a) && Balanced(b)
  {
    hide Balanced, Counters, CommandName, Charge;
    NeitherWaits(a.workers[0], b.workers[0]);
    assert b.workers == [b.workers[0]] && a.workers == [a.workers[0]];
    OneWorkerBalance(a, a.workers[0]);
    OneWorkerBalance(b, b.workers[0]);
  }

  lemma NeitherWaits(a: Worker, b: Worker)
    requires a.pc.Arrived? && b.pc.Invoking?
    ensures !Waiting(a) && !Released(a) && !Waiting(b) && !Released(b)
  {
  }

  lemma ChargedFromNothing(args: seq<string>)
    requires Counters(args) != []
    ensures Charge(NO_USE, Counters(args), |Counters(args)|).preds == 1
  {
    ChargeCall(NO_USE, args);
  }

  /** Torn the other way. At the moment the records are read the request holds a reservation without a record, at
      the moment the counters are read it has given it back without finishing its record; the books are balanced
      at neither moment, and the ledger is accepted. */
  lemma UnbalancedMomentsAccepted(rule: string, outputChars: nat, timeoutSeconds: nat, limits: Usage, config: Config,
                                  id: string, env: Envelope)
    returns (actions: seq<Action>, reading: Reading)
    requires IsRequestId(id) && IsCall(env) && Counters(env.op.args) != [] && Available(NO_USE, limits, Counters(env.op.args))
    ensures var start := Fresh(rule, outputChars, timeoutSeconds, limits, config);
      && IsEpisodeRun(start, actions) && IsReading(Final(start, actions), reading)
      && var m := MomentsOf(Final(start, actions), reading);
         && !Balanced(m.records.gateway) && !Balanced(m.counters.gateway)
         && LedgerClean(Taken(m), BudgetFields(m.events), Str(rule), config, {})
  {
    hide Counters, CommandName, TotalLength, IsRequestId, IsRun, After, IsEpisodeRun, Final, Taken, LedgerClean,
         BudgetFields, IsReading, Balanced, Charge, Available;
    var start, c := Fresh(rule, outputChars, timeoutSeconds, limits, config), Choice(NO_USE, SpawnFailed(false));
    HandedByClaim(limits, config, id, env);
    ReservedByThreeSteps(limits, config, id, env, c);
    RunConcat(start.gateway, [Claim(id, env)], Steps(0, c, 3));
    actions := GatewayRunLifts(start, [Claim(id, env)] + Steps(0, c, 3));
    var ep := Final(start, actions);
    GivenBackByThreeSteps(limits, config, id, env, NO_USE);
    reading := ReadAround(ep, Steps(0, c, 3));
    var m := MomentsOf(ep, reading);
    OneWorkerBalance(m.records.gateway, m.records.gateway.workers[0]);
    OneWorkerBalance(m.counters.gateway, m.counters.gateway.workers[0]);
    AgreementOverReading(rule, outputChars, timeoutSeconds, limits, config, actions, reading, {});
  }
}
