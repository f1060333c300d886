/** One rule episode: the gateway, the model and shell ledgers and the submit judge together. Gateway
    workers run concurrently with everything else; model generations, shell actions and submit requests are
    one at a time, and a shell action is two steps (admission, observation) with anything in between. */
module Episode {
  import opened Text
  import opened Budget
  import opened Counting
  import opened Observations
  import opened Gateway
  import opened GatewaySafety
  import Submit

  const SUBMIT_ATTEMPTS: nat := 2

  datatype ModelEvent = ModelEvent(sequence: nat, charged: bool, outcome: string, budget: Usage)

  datatype ShellEvent = ShellEvent(
    sequence: nat, command: string, charged: bool, outcome: Outcome, budget: Usage, observationId: Option<string>)

  // ---------------------------------------------------------------- the three ledger updates

  /** `admit_shell_action`; `seen` is the status snapshot taken when the event is appended. */
  function Admit(limits: Usage, used: Usage, shells: seq<ShellEvent>, command: string, seen: Usage): (Usage, seq<ShellEvent>) {
    var granted := Available(used, limits, [ShellActions]);
    (if granted then Charge(used, [ShellActions], 1) else used,
     shells + [ShellEvent(|shells| + 1, command, granted, if granted then Admitted else BudgetExhausted, seen, None)])
  }

  /** `record_model_generation`. */
  function Generate(limits: Usage, used: Usage, models: seq<ModelEvent>, outcome: string, infrastructure: bool, seen: Usage)
    : (Usage, seq<ModelEvent>)
  {
    var granted := !infrastructure && Available(used, limits, [ModelGenerations]);
    (if granted then Charge(used, [ModelGenerations], 1) else used,
     models + [ModelEvent(|models| + 1, granted, if infrastructure || granted then outcome else "budget_exhausted", seen)])
  }

  predicate Open(e: ShellEvent, command: string) { e.command == command && e.observationId == None }

  /** The latest of the first `n` events that still waits for an observation of this command; -1 if none. */
  function LatestOpen(shells: seq<ShellEvent>, command: string, n: nat): (r: int)
    requires n <= |shells|
    ensures -1 <= r < n
    ensures r >= 0 ==> Open(shells[r], command)
    ensures forall k :: r < k < n ==> !Open(shells[k], command)
  {
    if n == 0 then -1 else if Open(shells[n - 1], command) then n - 1 else LatestOpen(shells, command, n - 1)
  }

  function Observe(e: ShellEvent, m: Metadata): ShellEvent {
    e.(observationId := Some(m.observationId),
       outcome := if e.charged then ExitOutcome(m.returncode, m.timedOut) else e.outcome)
  }

  /** `record_shell_observation`. */
  function Attach(shells: seq<ShellEvent>, command: string, m: Metadata): seq<ShellEvent> {
    var k := LatestOpen(shells, command, |shells|);
    if k < 0 then shells else shells[k := Observe(shells[k], m)]
  }

  /** A generation is charged exactly if it is no infrastructure failure and the counter has room, a shell action
      exactly if its counter has room; the event says so, says that the budget was exhausted if that is why not, and the
      counter goes up by what was charged. */
  lemma ChargedIfRoom(limits: Usage, used: Usage, models: seq<ModelEvent>, shells: seq<ShellEvent>, outcome: string,
                      infrastructure: bool, command: string, seen: Usage)
    ensures var (after, events) := Generate(limits, used, models, outcome, infrastructure, seen);
      var charged := !infrastructure && used.models < limits.models;
      && after == (if charged then used.(models := used.models + 1) else used)
      && events == models + [ModelEvent(|models| + 1, charged, if infrastructure || charged then outcome else "budget_exhausted", seen)]
    ensures var (after, events) := Admit(limits, used, shells, command, seen);
      var charged := used.shells < limits.shells;
      && after == (if charged then used.(shells := used.shells + 1) else used)
      && events == shells + [ShellEvent(|shells| + 1, command, charged, if charged then Admitted else BudgetExhausted, seen, None)]
  {
    assert ModelGenerations in [ModelGenerations] && ShellActions in [ShellActions];
    ChargeOne(used, ModelGenerations);
    ChargeOne(used, ShellActions);
  }

  /** The observation goes to the latest event of its command that has none, and to no other: its id always, and its
      outcome if the event was charged. If there is no such event, nothing changes. */
  lemma AttachesToLatestOpen(shells: seq<ShellEvent>, command: string, m: Metadata)
    ensures forall k :: 0 <= k < |shells| && shells[k].command == command && shells[k].observationId.None?
                        && (forall j :: k < j < |shells| ==> !(shells[j].command == command && shells[j].observationId.None?)) ==>
      && |Attach(shells, command, m)| == |shells| && Attach(shells, command, m) == shells[k := Attach(shells, command, m)[k]]
      && var e := Attach(shells, command, m)[k];
         && e.observationId == Some(m.observationId)
         && e.outcome == (if !shells[k].charged then shells[k].outcome
                          else if m.timedOut then Timeout else if m.returncode == 0 then Completed else NonzeroExit)
         && e == shells[k].(observationId := e.observationId, outcome := e.outcome)
    ensures (forall k :: 0 <= k < |shells| ==> !(shells[k].command == command && shells[k].observationId.None?)) ==>
      Attach(shells, command, m) == shells
  {
    var r := LatestOpen(shells, command, |shells|);
    assert r >= 0 ==> shells[r].command == command && shells[r].observationId.None?;
  }

  // ---------------------------------------------------------------- the transition system

  datatype Episode = Episode(
    rule: string, outputChars: nat, timeoutSeconds: nat, gateway: System, models: seq<ModelEvent>,
    shells: seq<ShellEvent>, observations: seq<Metadata>, pending: bool, numbered: nat, submit: Submit.SubmitState)

  datatype Action =
    | Generation(outcome: string, infrastructure: bool, seen: Usage)
    | BeginShell(command: string, seen: Usage)
    | EndShell(number: nat, metadata: Metadata)
    | PredEvent(event: Event)
    | SubmitCall(call: Submit.Call)

  function Fresh(rule: string, outputChars: nat, timeoutSeconds: nat, limits: Usage, config: Config): Episode {
    Episode(rule, outputChars, timeoutSeconds, Initial(limits, config), [], [], [], false, 0, Submit.NOTHING_SUBMITTED)
  }

  /** The result of a shell action as the harness packages it: numbered after all earlier ones, and reporting
      75 when the action was not admitted. */
  predicate ShellResult(e: ShellEvent, number: nat, m: Metadata, config: Config) {
    && number < 10000
    && WellPackaged(m, ShellId(number), ShellKind, e.command, m.returncode, m.timedOut, config)
    && (m.timedOut ==> m.returncode == 124)
    && (!e.charged ==> m.returncode == 75 && !m.timedOut)
  }

  predicate Possible(ep: Episode, a: Action) {
    match a
    case Generation(_, _, _) => true
    case BeginShell(_, _) => !ep.pending
    case EndShell(number, m) =>
      ep.pending && ep.shells != [] && number > ep.numbered
      && ShellResult(ep.shells[|ep.shells| - 1], number, m, ep.gateway.config)
    case PredEvent(event) => !event.Elsewhere? && Enabled(ep.gateway, event)
    case SubmitCall(call) => IsRequestId(call.id)
  }

  function Step(ep: Episode, a: Action): Episode
    requires Possible(ep, a)
  {
    var shared := ep.gateway.shared;
    match a
    case Generation(outcome, infrastructure, seen) =>
      var (used, models) := Generate(ep.gateway.limits, shared.used, ep.models, outcome, infrastructure, seen);
      ep.(gateway := ep.gateway.(shared := shared.(used := used)), models := models)
    case BeginShell(command, seen) =>
      var (used, shells) := Admit(ep.gateway.limits, shared.used, ep.shells, command, seen);
      ep.(gateway := ep.gateway.(shared := shared.(used := used)), shells := shells, pending := true)
    case EndShell(number, m) =>
      ep.(shells := Attach(ep.shells, m.command, m), observations := ep.observations + [m], pending := false,
          numbered := number)
    case PredEvent(event) => ep.(gateway := Apply(ep.gateway, event))
    case SubmitCall(call) =>
      ep.(submit := Submit.Serve(SUBMIT_ATTEMPTS, ep.rule, ep.submit, call.id, call.req, call.v).0)
  }

  predicate IsEpisodeRun(ep: Episode, actions: seq<Action>)
    decreases |actions|
  {
    actions == [] || (Possible(ep, actions[0]) && IsEpisodeRun(Step(ep, actions[0]), actions[1..]))
  }

  function Final(ep: Episode, actions: seq<Action>): Episode
    requires IsEpisodeRun(ep, actions)
    decreases |actions|
  {
    if actions == [] then ep else Final(Step(ep, actions[0]), actions[1..])
  }

  lemma FinalUnfolds(ep: Episode, actions: seq<Action>)
    requires IsEpisodeRun(ep, actions) && actions != []
    ensures Possible(ep, actions[0]) && IsEpisodeRun(Step(ep, actions[0]), actions[1..])
    ensures Final(ep, actions) == Final(Step(ep, actions[0]), actions[1..])
  {
    hide Possible, Step;
  }

  lemma FinalNothing(ep: Episode)
    ensures IsEpisodeRun(ep, []) && Final(ep, []) == ep
  {
  }

  // ---------------------------------------------------------------- the invariant

  predicate ChargedModel(e: ModelEvent) { e.charged }
  predicate ChargedShell(e: ShellEvent) { e.charged }

  /** An event together with the observation of its own result. */
  predicate Observed(e: ShellEvent, m: Metadata, config: Config) {
    && e.observationId == Some(m.observationId)
    && WellPackaged(m, m.observationId, ShellKind, e.command, m.returncode, m.timedOut, config)
    && (if e.charged then e.outcome == ExitOutcome(m.returncode, m.timedOut) && (m.timedOut ==> m.returncode == 124)
        else e.outcome == BudgetExhausted && m.returncode == 75 && !m.timedOut)
  }

  predicate NumberedUpTo(id: string, n: nat) {
    exists k: nat :: k <= n && k < 10000 && id == ShellId(k)
  }

  ghost predicate ShellsOk(ep: Episode) {
    && |ep.shells| == |ep.observations| + Bit(ep.pending)
    && (forall k :: 0 <= k < |ep.shells| ==> ep.shells[k].sequence == k + 1)
    && (forall k :: 0 <= k < |ep.observations| ==> Observed(ep.shells[k], ep.observations[k], ep.gateway.config))
    && (forall k :: 0 <= k < |ep.observations| ==> NumberedUpTo(ep.observations[k].observationId, ep.numbered))
    && (forall j, k :: 0 <= j < k < |ep.observations| ==>
          ep.observations[j].observationId != ep.observations[k].observationId)
    && (ep.pending ==>
          var e := ep.shells[|ep.shells| - 1];
          e.observationId == None && e.outcome == if e.charged then Admitted else BudgetExhausted)
  }

  ghost predicate CountsOk(ep: Episode) {
    && ep.gateway.shared.used.models == CountIf(ep.models, ChargedModel)
    && ep.gateway.shared.used.shells == CountIf(ep.shells, ChargedShell)
    && forall k :: 0 <= k < |ep.models| ==> ep.models[k].sequence == k + 1
  }

  ghost predicate SubmitOk(ep: Episode) {
    && Submit.SessionInv(SUBMIT_ATTEMPTS, ep.rule, ep.submit)
    && forall k :: 0 <= k < |ep.submit.attempts| ==> IsRequestId(ep.submit.attempts[k].requestId)
  }

  ghost predicate EpisodeInv(ep: Episode) {
    Inv(ep.gateway) && CountsOk(ep) && ShellsOk(ep) && SubmitOk(ep)
  }

  // ---------------------------------------------------------------- it is kept by every action

  lemma GenerationKeeps(ep: Episode, a: Action)
    requires EpisodeInv(ep) && a.Generation? && Possible(ep, a)
    ensures EpisodeInv(Step(ep, a))
  {
    hide Inv, SubmitOk, Observed, NumberedUpTo;
    var ep' := Step(ep, a);
    var used := ep.gateway.shared.used;
    ChargeOne(used, ModelGenerations);
    assert ModelGenerations in [ModelGenerations];
    CountPush(ep.models, ep'.models[|ep.models|], ChargedModel);
    if !a.infrastructure && Available(used, ep.gateway.limits, [ModelGenerations]) {
      assert ep'.gateway == Apply(ep.gateway, Elsewhere(ModelGenerations));
      EventKeeps(ep.gateway, Elsewhere(ModelGenerations));
    } else {
      assert ep'.gateway == ep.gateway;
    }
    SubmitKeptBy(ep, ep');
  }

  lemma SubmitKeptBy(ep: Episode, ep': Episode)
    requires SubmitOk(ep) && ep'.submit == ep.submit && ep'.rule == ep.rule
    ensures SubmitOk(ep')
  {
  }

  lemma BeginShellKeeps(ep: Episode, a: Action)
    requires EpisodeInv(ep) && a.BeginShell? && Possible(ep, a)
    ensures EpisodeInv(Step(ep, a))
  {
    hide Inv, SubmitOk, Observed, NumberedUpTo;
    var ep' := Step(ep, a);
    var used := ep.gateway.shared.used;
    ChargeOne(used, ShellActions);
    assert ShellActions in [ShellActions];
    CountPush(ep.shells, ep'.shells[|ep.shells|], ChargedShell);
    if Available(used, ep.gateway.limits, [ShellActions]) {
      assert ep'.gateway == Apply(ep.gateway, Elsewhere(ShellActions));
      EventKeeps(ep.gateway, Elsewhere(ShellActions));
    } else {
      assert ep'.gateway == ep.gateway;
    }
    SubmitKeptBy(ep, ep');
  }

  /** The observation goes to the event of its own action. */
  lemma AttachesToOwn(ep: Episode, number: nat, m: Metadata)
    requires ShellsOk(ep) && Possible(ep, EndShell(number, m))
    ensures LatestOpen(ep.shells, m.command, |ep.shells|) == |ep.shells| - 1
    ensures Observed(Observe(ep.shells[|ep.shells| - 1], m), m, ep.gateway.config)
  {
    hide NumberedUpTo;
  }

  lemma NewNumber(ep: Episode, number: nat, k: nat)
    requires ShellsOk(ep) && number > ep.numbered && k < |ep.observations|
    ensures ep.observations[k].observationId != ShellId(number)
  {
    hide Observed, Padded;
    assert NumberedUpTo(ep.observations[k].observationId, ep.numbered);
    var n: nat :| n <= ep.numbered && ep.observations[k].observationId == ShellId(n);
    if ShellId(n) == ShellId(number) { ShellIdInjective(n, number); }
  }

  lemma EndShellKeeps(ep: Episode, a: Action)
    requires EpisodeInv(ep) && a.EndShell? && Possible(ep, a)
    ensures EpisodeInv(Step(ep, a))
  {
    hide Inv, SubmitOk, Observed, ShellId, LatestOpen;
    var ep' := Step(ep, a);
    var last := |ep.shells| - 1;
    AttachesToOwn(ep, a.number, a.metadata);
    assert ep'.shells == ep.shells[last := Observe(ep.shells[last], a.metadata)];
    CountUpdate(ep.shells, last, ep'.shells[last], ChargedShell);
    forall k | 0 <= k < |ep.observations| ensures ep.observations[k].observationId != a.metadata.observationId {
      NewNumber(ep, a.number, k);
    }
    forall k | 0 <= k < |ep'.observations| ensures NumberedUpTo(ep'.observations[k].observationId, a.number) {
      if k < |ep.observations| {
        assert NumberedUpTo(ep.observations[k].observationId, ep.numbered);
      } else {
        assert a.metadata.observationId == ShellId(a.number);
      }
    }
    SubmitKeptBy(ep, ep');
  }

  /** Gateway workers never touch the model and shell counters. */
  lemma OtherCountersUntouched(sys: System, e: Event)
    requires Inv(sys) && Enabled(sys, e) && !e.Elsewhere?
    ensures Apply(sys, e).shared.used.models == sys.shared.used.models
    ensures Apply(sys, e).shared.used.shells == sys.shared.used.shells
    ensures Apply(sys, e).config == sys.config
  {
    hide Accounts, Records, Owners, CommandLine.Counters, CommandLine.CommandName, TotalLength, RecordOf, WellRun;
    if e.Work? {
      var w := sys.workers[e.worker];
      assert WorkerOk(sys, w);
      if w.pc.Reserving? {
        ChargeCall(sys.shared.used, w.env.op.args);
      } else if w.pc.Releasing? {
        DischargeCall(sys.shared.used, w.env.op.args);
      } else if w.pc.BadReserving? {
        ChargeOne(sys.shared.used, PredCalls);
      }
    }
  }

  lemma PredEventKeeps(ep: Episode, a: Action)
    requires EpisodeInv(ep) && a.PredEvent? && Possible(ep, a)
    ensures EpisodeInv(Step(ep, a))
  {
    hide Inv, SubmitOk, Observed, NumberedUpTo, Apply, Enabled, CountIf;
    EventKeeps(ep.gateway, a.event);
    OtherCountersUntouched(ep.gateway, a.event);
    SubmitKeptBy(ep, Step(ep, a));
  }

  lemma NewSubmitStateKeeps(ep: Episode, submit: Submit.SubmitState)
    requires EpisodeInv(ep) && Submit.SessionInv(SUBMIT_ATTEMPTS, ep.rule, submit)
    requires forall k :: 0 <= k < |submit.attempts| ==> IsRequestId(submit.attempts[k].requestId)
    ensures EpisodeInv(ep.(submit := submit))
  {
    hide Inv, Observed, NumberedUpTo, Submit.SessionInv, IsRequestId, CountIf;
  }

  lemma SubmitCallKeeps(ep: Episode, a: Action)
    requires EpisodeInv(ep) && a.SubmitCall? && Possible(ep, a)
    ensures EpisodeInv(Step(ep, a))
  {
    hide Inv, ShellsOk, CountsOk, Submit.SessionInv, Submit.Serve, IsRequestId;
    Submit.ServeKeeps(SUBMIT_ATTEMPTS, ep.rule, ep.submit, a.call.id, a.call.req, a.call.v);
    Submit.ServeAppends(SUBMIT_ATTEMPTS, ep.rule, ep.submit, a.call.id, a.call.req, a.call.v);
    NewSubmitStateKeeps(ep, Step(ep, a).submit);
  }

  lemma ActionKeeps(ep: Episode, a: Action)
    requires EpisodeInv(ep) && Possible(ep, a)
    ensures EpisodeInv(Step(ep, a))
  {
    hide EpisodeInv, Possible, Step;
    match a
    case Generation(_, _, _) => GenerationKeeps(ep, a);
    case BeginShell(_, _) => BeginShellKeeps(ep, a);
    case EndShell(_, _) => EndShellKeeps(ep, a);
    case PredEvent(_) => PredEventKeeps(ep, a);
    case SubmitCall(_) => SubmitCallKeeps(ep, a);
  }

  lemma {:induction false} EpisodeRunKeeps(ep: Episode, actions: seq<Action>)
    requires EpisodeInv(ep) && IsEpisodeRun(ep, actions)
    ensures EpisodeInv(Final(ep, actions))
    decreases |actions|
  {
    hide EpisodeInv, Possible, Step;
    if actions != [] {
      ActionKeeps(ep, actions[0]);
      EpisodeRunKeeps(Step(ep, actions[0]), actions[1..]);
    }
  }

  lemma FreshInv(rule: string, outputChars: nat, timeoutSeconds: nat, limits: Usage, config: Config)
    ensures EpisodeInv(Fresh(rule, outputChars, timeoutSeconds, limits, config))
  {
    InitialInv(limits, config);
    Submit.InitialSession(SUBMIT_ATTEMPTS, rule);
  }
}
