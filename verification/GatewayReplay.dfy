/** Replaying a request id at the gateway. The look-up of a stored response and the storing of a new one
    are separate critical sections, so a replay is idempotent only when it does not overlap the original; of
    two overlapping copies at most one is observed, because a log is created exclusively. */
module GatewayReplay {
  import opened Text
  import opened Budget
  import opened CommandLine
  import opened Observations
  import opened Gateway
  import opened GatewaySafety
  import opened GatewaySession
  import opened Counting

  lemma {:induction false} RunConcat(sys: System, a: seq<Event>, b: seq<Event>)
    requires IsRun(sys, a) && IsRun(After(sys, a), b)
    ensures IsRun(sys, a + b) && After(sys, a + b) == After(After(sys, a), b)
    decreases |a|
  {
    hide Apply, Enabled;
    if a == [] {
      assert a + b == b;
    } else {
      RunConcat(Apply(sys, a[0]), a[1..], b);
      assert (a + b)[1..] == a[1..] + b;
    }
  }

  // ---------------------------------------------------------------- overlapping requests are charged twice

  function Steps(worker: nat, c: Choice, n: nat): seq<Event> {
    seq(n, _ => Work(worker, c))
  }

  lemma OneStep(sys: System, i: nat, c: Choice)
    requires Enabled(sys, Work(i, c))
    ensures IsRun(sys, Steps(i, c, 1)) && After(sys, Steps(i, c, 1)) == Apply(sys, Work(i, c))
  {
    hide Apply, Enabled;
    assert Steps(i, c, 1) == [Work(i, c)];
    assert Steps(i, c, 1)[1..] == [];
  }

  lemma ThreeSteps(s0: System, s1: System, s2: System, s3: System, i: nat, c: Choice)
    requires Enabled(s0, Work(i, c)) && Apply(s0, Work(i, c)) == s1
    requires Enabled(s1, Work(i, c)) && Apply(s1, Work(i, c)) == s2
    requires Enabled(s2, Work(i, c)) && Apply(s2, Work(i, c)) == s3
    ensures IsRun(s0, Steps(i, c, 3)) && After(s0, Steps(i, c, 3)) == s3
  {
    hide Apply, Enabled, IsRun, After;
    OneStep(s0, i, c);
    OneStep(s1, i, c);
    OneStep(s2, i, c);
    RunConcat(s1, Steps(i, c, 1), Steps(i, c, 1));
    assert Steps(i, c, 1) + Steps(i, c, 1) == Steps(i, c, 2);
    RunConcat(s0, Steps(i, c, 1), Steps(i, c, 2));
    assert Steps(i, c, 1) + Steps(i, c, 2) == Steps(i, c, 3);
  }

  lemma FourSteps(s0: System, s1: System, s2: System, s3: System, s4: System, i: nat, c: Choice)
    requires Enabled(s0, Work(i, c)) && Apply(s0, Work(i, c)) == s1
    requires Enabled(s1, Work(i, c)) && Apply(s1, Work(i, c)) == s2
    requires Enabled(s2, Work(i, c)) && Apply(s2, Work(i, c)) == s3
    requires Enabled(s3, Work(i, c)) && Apply(s3, Work(i, c)) == s4
    ensures IsRun(s0, Steps(i, c, 4)) && After(s0, Steps(i, c, 4)) == s4
  {
    hide Apply, Enabled, IsRun, After;
    OneStep(s0, i, c);
    ThreeSteps(s1, s2, s3, s4, i, c);
    RunConcat(s0, Steps(i, c, 1), Steps(i, c, 3));
    assert Steps(i, c, 1) + Steps(i, c, 3) == Steps(i, c, 4);
  }

  /** A charged call on its way to its process: looked up, dispatched, reserved, recorded. */
  function Started(sys: System, i: nat, c: Choice): System
    requires i < |sys.workers| && IsCall(sys.workers[i].env)
  {
    var names := Counters(sys.workers[i].env.op.args);
    sys.(
      shared := sys.shared.(used := Charge(sys.shared.used, names, |names|),
                            ledger := sys.shared.ledger + [CallRecord(sys.shared, sys.workers[i], true, Running, c.seen)]),
      workers := sys.workers[i := sys.workers[i].(pc := Invoking(|sys.shared.ledger|))])
  }

  lemma ChargedCallStarts(sys: System, i: nat, c: Choice)
    requires i < |sys.workers| && sys.workers[i].pc.Arrived? && sys.workers[i].id !in sys.shared.responses
    requires IsCall(sys.workers[i].env) && Counters(sys.workers[i].env.op.args) != []
    requires Available(sys.shared.used, sys.limits, Counters(sys.workers[i].env.op.args))
    ensures IsRun(sys, Steps(i, c, 4)) && After(sys, Steps(i, c, 4)) == Started(sys, i, c)
  {
    hide Counters, CommandName, TotalLength, PredCommand, IsRun, After, Charge;
    var w := sys.workers[i];
    var names := Counters(w.env.op.args);
    var used := Charge(sys.shared.used, names, |names|);
    var s1 := sys.(workers := sys.workers[i := w.(pc := Dispatching)]);
    var s2 := sys.(workers := sys.workers[i := w.(pc := Reserving)]);
    var s3 := sys.(shared := sys.shared.(used := used), workers := sys.workers[i := w.(pc := Holding)]);
    FourSteps(sys, s1, s2, s3, Started(sys, i, c), i, c);
  }

  /** A gateway that was handed the same request file twice, before either worker moved. */
  function BothClaimed(limits: Usage, config: Config, id: string, env: Envelope): System {
    Initial(limits, config).(workers := [Worker(id, env, Arrived), Worker(id, env, Arrived)])
  }

  lemma ClaimBoth(limits: Usage, config: Config, id: string, env: Envelope)
    requires IsRequestId(id)
    ensures var claims := [Claim(id, env), Claim(id, env)];
      IsRun(Initial(limits, config), claims) && After(Initial(limits, config), claims) == BothClaimed(limits, config, id, env)
  {
    hide IsRequestId;
    var start, both := Initial(limits, config), BothClaimed(limits, config, id, env);
    var one := start.(workers := [Worker(id, env, Arrived)]);
    var claims := [Claim(id, env), Claim(id, env)];
    assert Apply(start, Claim(id, env)) == one && Apply(one, Claim(id, env)) == both;
    assert claims[1..] == [Claim(id, env)] && claims[1..][1..] == [];
    assert Enabled(start, Claim(id, env)) && Enabled(one, Claim(id, env));
    assert IsRun(both, []) && After(both, []) == both;
    assert IsRun(one, [Claim(id, env)]) && After(one, [Claim(id, env)]) == both;
  }

  /** What `n` calls with these counters use, and `extra` wrong requests. */
  function Uses(names: seq<Counter>, n: nat, extra: nat): Usage {
    NO_USE.(preds := n + extra, solves := if SolveCalls in names then n else 0)
  }

  lemma UsesCharged(args: seq<string>, n: nat, extra: nat)
    requires Counters(args) != []
    ensures Charge(Uses(Counters(args), n, extra), Counters(args), |Counters(args)|) == Uses(Counters(args), n + 1, extra)
    ensures Releasable(Uses(Counters(args), n + 1, extra), Counters(args))
    ensures Discharge(Uses(Counters(args), n + 1, extra), Counters(args), |Counters(args)|) == Uses(Counters(args), n, extra)
    ensures Charge(Uses(Counters(args), n, extra), [PredCalls], 1) == Uses(Counters(args), n, extra + 1)
  {
    CountersShape(args);
    ChargeCall(Uses(Counters(args), n, extra), args);
    ChargeOne(Uses(Counters(args), n, extra), PredCalls);
    hide Counters, Charge, Discharge;
    DischargeCall(Uses(Counters(args), n + 1, extra), args);
  }

  /** Room for two such calls. */
  predicate RoomForTwo(limits: Usage, names: seq<Counter>) {
    limits.preds >= 2 && (SolveCalls in names ==> limits.solves >= 2)
  }

  lemma RoomAvailable(limits: Usage, args: seq<string>, n: nat)
    requires Counters(args) != [] && RoomForTwo(limits, Counters(args)) && n < 2
    ensures Available(Uses(Counters(args), n, 0), limits, Counters(args))
  {
    CountersShape(args);
    hide Counters;
  }

  /** What the second copy is told about its process: if both got as far as a log, it finds that of the first. */
  function Second(first: Run, second: Run): Run {
    if WritesLog(first) && WritesLog(second) then SpawnFailed(false) else second
  }

  function Kept(run: Run): nat { if run == SpawnFailed(false) then 0 else 1 }

  /** Both copies are on their way to their processes: both charged and both recorded. */
  lemma BothStart(limits: Usage, config: Config, id: string, env: Envelope, c: Choice) returns (events: seq<Event>, both: System)
    requires IsRequestId(id) && IsCall(env) && Counters(env.op.args) != [] && RoomForTwo(limits, Counters(env.op.args))
    ensures IsRun(Initial(limits, config), events) && After(Initial(limits, config), events) == both
    ensures both.limits == limits && both.config == config && both.shared.used == Uses(Counters(env.op.args), 2, 0)
    ensures both.shared.responses == map[] && both.shared.logs == {}
    ensures |both.shared.ledger| == 2 && forall k :: 0 <= k < 2 ==>
      both.shared.ledger[k].requestId == id && both.shared.ledger[k].charged
    ensures both.workers == [Worker(id, env, Invoking(0)), Worker(id, env, Invoking(1))]
  {
    hide Counters, CommandName, TotalLength, IsRun, After, Charge, Discharge, Available, RoomForTwo, IsRequestId;
    var start, claimed := Initial(limits, config), BothClaimed(limits, config, id, env);
    ClaimBoth(limits, config, id, env);
    RoomAvailable(limits, env.op.args, 0);
    assert claimed.shared.used == Uses(Counters(env.op.args), 0, 0);
    ChargedCallStarts(claimed, 0, c);
    var mid := Started(claimed, 0, c);
    UsesCharged(env.op.args, 0, 0);
    RoomAvailable(limits, env.op.args, 1);
    ChargedCallStarts(mid, 1, c);
    UsesCharged(env.op.args, 1, 0);
    both := Started(mid, 1, c);
    RunConcat(claimed, Steps(0, c, 4), Steps(1, c, 4));
    RunConcat(start, [Claim(id, env), Claim(id, env)], Steps(0, c, 4) + Steps(1, c, 4));
    events := [Claim(id, env), Claim(id, env)] + (Steps(0, c, 4) + Steps(1, c, 4));
  }

  /** The exception that aborts a copy gets its request charged again, as a wrong one, if no response is stored
      for the id yet and there is room. */
  predicate ChargedAgain(sys: System, id: string, did: Run) {
    did.Escaped? && id !in sys.shared.responses && Available(sys.shared.used, sys.limits, [PredCalls])
  }

  /** The rest of a call that an exception aborts. */
  lemma AbortEnds(sys: System, i: nat, run: Run)
    requires i < |sys.workers| && sys.workers[i].pc.Invoking? && Ready(sys.shared, sys.workers[i])
    requires IsCall(sys.workers[i].env) && Delivered(sys.shared, sys.workers[i].id, run).Escaped?
    ensures var w, s := sys.workers[i], sys.shared; var index := w.pc.index;
      var end, again := Drive(sys.limits, s, w, run).0, ChargedAgain(sys, w.id, Delivered(s, w.id, run));
      && index < |s.ledger| && |end.ledger| == |s.ledger| + Bit(again)
      && end.ledger[index] == s.ledger[index].(outcome := Abandoned)
      && (forall k :: 0 <= k < |s.ledger| && k != index ==> end.ledger[k] == s.ledger[k])
      && (again ==> end.ledger[|s.ledger|].requestId == w.id && end.ledger[|s.ledger|].charged)
      && end.used == (if again then Charge(s.used, [PredCalls], 1) else s.used)
      && end.logs == Logged(s, w.id, run).logs && w.id in end.responses
  {
    hide Counters, CommandName, TotalLength, Charge, Discharge, Drive, Delivered, Available, Ready;
    var w, s := sys.workers[i], sys.shared;
    DriveEscapes(sys.limits, s, w, w.pc.index, run);
    var s', w' := Dropped(s, w.pc.index, w, run), Worker(w.id, Malformed(w.env.text), Arrived);
    assert s'.used == s.used && s'.responses == s.responses && s'.logs == Logged(s, w.id, run).logs;
    if w.id in s.responses {
      AnsweredAtOnce(sys.limits, s', w', run);
    } else if Available(s.used, sys.limits, [PredCalls]) {
      WrongCallNet(sys.limits, s', w', run);
    } else {
      RefusedCallNet(sys.limits, s', w', run);
    }
  }

  lemma AnsweredAtOnce(limits: Usage, s: Shared, w: Worker, run: Run)
    requires w.pc.Arrived? && w.id in s.responses && Ready(s, w)
    ensures Drive(limits, s, w, run).0 == s
  {
    var r := Advance(limits, s, w, Choice(s.used, run)).1.response;
    DriveStep(limits, s, w, run, s, Done(r));
    DriveDone(limits, s, w.(pc := Done(r)), run);
  }

  /** One copy runs its process and finishes, while the other stands still. */
  lemma CopyEnds(sys: System, i: nat, run: Run, n: nat, extra: nat) returns (events: seq<Event>, after: System)
    requires i < |sys.workers| && i < |sys.shared.ledger| && sys.workers[i].pc == Invoking(i)
    requires var w := sys.workers[i];
      && IsCall(w.env) && WellRun(run, w.id, w.env.op.args, sys.config)
      && Counters(w.env.op.args) != [] && sys.shared.used == Uses(Counters(w.env.op.args), n + 1, extra)
    ensures IsRun(sys, events) && After(sys, events) == after
    ensures var w := sys.workers[i]; var did := Delivered(sys.shared, w.id, run); var again := ChargedAgain(sys, w.id, did);
      && after.limits == sys.limits && after.config == sys.config
      && after.shared.used == Uses(Counters(w.env.op.args), n + Kept(did), extra + Bit(again))
      && after.shared.logs == Logged(sys.shared, w.id, run).logs && w.id in after.shared.responses
      && |after.shared.ledger| == |sys.shared.ledger| + Bit(again)
      && after.shared.ledger[i].requestId == sys.shared.ledger[i].requestId
      && after.shared.ledger[i].charged == sys.shared.ledger[i].charged
      && after.shared.ledger[i].outcome == RunOutcome(did)
      && (forall k :: 0 <= k < |sys.shared.ledger| && k != i ==> after.shared.ledger[k] == sys.shared.ledger[k])
      && (again ==> after.shared.ledger[|sys.shared.ledger|].requestId == w.id && after.shared.ledger[|sys.shared.ledger|].charged)
      && |after.workers| == |sys.workers| && after.workers[i].pc.Done?
      && (forall k :: 0 <= k < |sys.workers| && k != i ==> after.workers[k] == sys.workers[k])
  {
    var w := sys.workers[i];
    UsesCharged(w.env.op.args, n, extra);
    UsesCharged(w.env.op.args, n + 1, extra);
    assert Ready(sys.shared, w);
    hide Ready, IsRun, After, Drive, Counters, CommandName, TotalLength, WellRun, Charge, Discharge, Delivered, Logged, Uses, Available;
    var end;
    events, end := DriveIsRun(sys, i, run);
    after := After(sys, events);
    if Delivered(sys.shared, w.id, run).Escaped? {
      AbortEnds(sys, i, run);
    } else {
      OutcomeOfFailure(Delivered(sys.shared, w.id, run));
      CallEnds(sys.limits, sys.shared, w, i, run);
    }
  }

  /** Overlap defeats idempotence, for every charged call and whatever its two processes do: a replay that
      arrives before the first response is stored is recorded and marked charged a second time. When both are
      done, the counters hold one charge for each copy that did not end in an infrastructure error; that is
      two exactly when neither failed to start for a reason that is not the caller's and not both got as far as
      a log: then the second could not create its log and gave its reservation back. If an exception aborts
      the first copy, a third charge and record come on top if there is room. */
  lemma OverlapChargesTwice(limits: Usage, config: Config, id: string, env: Envelope, first: Run, second: Run)
    returns (events: seq<Event>)
    requires IsRequestId(id) && IsCall(env) && Counters(env.op.args) != [] && RoomForTwo(limits, Counters(env.op.args))
    requires WellRun(first, id, env.op.args, config) && WellRun(second, id, env.op.args, config)
    ensures IsRun(Initial(limits, config), events)
    ensures var sys, extra := After(Initial(limits, config), events), Bit(first.Escaped? && limits.preds > 2);
      var s := sys.shared;
      && AtRest(sys)
      && |s.ledger| == 2 + extra && (forall k :: 0 <= k < |s.ledger| ==> s.ledger[k].requestId == id && s.ledger[k].charged)
      && s.ledger[0].outcome == RunOutcome(first) && s.ledger[1].outcome == RunOutcome(Second(first, second))
      && s.used == Uses(Counters(env.op.args), Kept(first) + Kept(Second(first, second)), extra)
      && (s.used.preds == 2 + extra <==>
            first != SpawnFailed(false) && second != SpawnFailed(false) && !(WritesLog(first) && WritesLog(second)))
  {
    hide IsRun, After, Counters, CommandName, TotalLength, WellRun, IsCall, IsRequestId;
    var start := Initial(limits, config);
    var e0, s0 := BothStart(limits, config, id, env, Choice(NO_USE, first));
    assert Delivered(s0.shared, id, first) == first;
    assert PredCalls in [PredCalls];
    assert ChargedAgain(s0, id, first) == (first.Escaped? && limits.preds > 2);
    var e1, s1 := CopyEnds(s0, 0, first, 1, 0);
    var e2, s2 := CopyEnds(s1, 1, second, Kept(first), Bit(ChargedAgain(s0, id, first)));
    assert Delivered(s1.shared, id, second) == Second(first, second);
    RunConcat(s0, e1, e2);
    RunConcat(start, e0, e1 + e2);
    events := e0 + (e1 + e2);
    assert |s2.workers| == 2 && s2.workers[0].pc.Done? && s2.workers[1].pc.Done?;
  }

  // ---------------------------------------------------------------- in every run

  predicate Exits(r: PredRecord) { r.outcome.Completed? || r.outcome.NonzeroExit? || r.outcome.Timeout? }

  predicate Blamed(r: PredRecord) { r.outcome.ModelError? || r.outcome.Abandoned? }

  /** In every run, with any overlap: of all records of one request id at most one says that its process ran.
      So when two of them still hold their charges at rest, one of the two was rejected as the caller's fault or
      abandoned to an exception. */
  lemma DoubleChargeNeedsModelError(limits: Usage, config: Config, events: seq<Event>, j: nat, k: nat)
    requires IsRun(Initial(limits, config), events)
    requires var ledger := After(Initial(limits, config), events).shared.ledger;
      j < k < |ledger| && ledger[j].requestId == ledger[k].requestId
    ensures var ledger := After(Initial(limits, config), events).shared.ledger; !(Exits(ledger[j]) && Exits(ledger[k]))
    ensures var sys := After(Initial(limits, config), events); var ledger := sys.shared.ledger;
      AtRest(sys) && ChargedPred(ledger[j]) && ChargedPred(ledger[k]) ==>
        Blamed(ledger[j]) || Blamed(ledger[k])
  {
    hide IsRun, After, WorkerOk, Accounts, Owners, WellPackaged, PredCommand, PredId, IsRequestId;
    InitialInv(limits, config);
    RunKeeps(Initial(limits, config), events);
    var sys := After(Initial(limits, config), events);
    assert RecordOk(sys.config, sys.shared.ledger[j], j) && RecordOk(sys.config, sys.shared.ledger[k], k);
    if AtRest(sys) { RestIsSettled(sys); }
  }

  // ---------------------------------------------------------------- without overlap replays are idempotent

  predicate Active(w: Worker) { !w.pc.Done? }

  /** Past a look-up that found nothing. */
  predicate Past(w: Worker) { Active(w) && !w.pc.Arrived? }

  /** Past the point where its record was appended. */
  predicate Recorded(w: Worker) {
    w.pc.Invoking? || w.pc.Releasing? || w.pc.Finishing? || w.pc.BadFinishing? || w.pc.Caching? || w.pc.Storing?
  }

  /** A request file is claimed only while no worker is busy with the same id. */
  ghost predicate NoOverlap(sys: System, e: Event) {
    e.Claim? ==> forall i :: 0 <= i < |sys.workers| && Active(sys.workers[i]) ==> sys.workers[i].id != e.id
  }

  /** No exception aborts a call, which would send the same request through the gateway a second time. */
  predicate NoEscape(sys: System, e: Event)
    requires Enabled(sys, e)
  {
    e.Work? ==> !Escapes(sys.shared, sys.workers[e.worker], e.choice)
  }

  ghost predicate IsSerialRun(sys: System, events: seq<Event>)
    decreases |events|
  {
    events == [] || (Enabled(sys, events[0]) && NoOverlap(sys, events[0]) && NoEscape(sys, events[0])
                     && IsSerialRun(Apply(sys, events[0]), events[1..]))
  }

  predicate RecordedBy(sys: System, i: int, id: string) {
    0 <= i < |sys.workers| && Recorded(sys.workers[i]) && sys.workers[i].id == id
  }

  ghost predicate Serial(sys: System) {
    && (forall i, j :: 0 <= i < j < |sys.workers| && Active(sys.workers[i]) && Active(sys.workers[j]) ==>
          sys.workers[i].id != sys.workers[j].id)
    && (forall i :: 0 <= i < |sys.workers| && Past(sys.workers[i]) ==> sys.workers[i].id !in sys.shared.responses)
    && (forall k :: 0 <= k < |sys.shared.ledger| ==>
          sys.shared.ledger[k].requestId in sys.shared.responses
          || exists i :: RecordedBy(sys, i, sys.shared.ledger[k].requestId))
    && IdsDistinct(sys.shared.ledger)
  }

  ghost predicate IdsDistinct(ledger: seq<PredRecord>) {
    forall k, m :: 0 <= k < m < |ledger| ==> ledger[k].requestId != ledger[m].requestId
  }

  /** The request ids in the ledger after a step: the same ones, or the worker's id appended. */
  lemma IdsEffect(sys: System, i: nat, c: Choice)
    requires Enabled(sys, Work(i, c))
    ensures var ledger, after := sys.shared.ledger, Apply(sys, Work(i, c)).shared.ledger; var w := sys.workers[i];
      && |ledger| <= |after| <= |ledger| + 1
      && (forall k :: 0 <= k < |ledger| ==> after[k].requestId == ledger[k].requestId)
      && (|after| > |ledger| ==> after[|ledger|].requestId == w.id && Past(w) && !Recorded(w)
                                 && Recorded(Apply(sys, Work(i, c)).workers[i]))
  {
    hide Counters, CommandName, TotalLength, WellRun, Charge, Discharge;
  }

  /** What a step does to the stored responses: nothing, or it stores the worker's own. */
  lemma ResponsesEffect(sys: System, i: nat, c: Choice)
    requires Enabled(sys, Work(i, c))
    ensures var before, after := sys.shared.responses, Apply(sys, Work(i, c)).shared.responses;
      var w, w' := sys.workers[i], Apply(sys, Work(i, c)).workers[i];
      && (after == before || (w.pc.Storing? && w'.pc.Done? && after == before[w.id := Stored(w.env, w.pc.response)]))
      && (w.pc.Storing? ==> w.id in after)
      && (Recorded(w) && !Escapes(sys.shared, w, c) ==> Recorded(w') || w.id in after)
      && (Past(w') && !Past(w) ==> w.pc.Arrived? && w.id !in before)
      && w'.id == w.id
  {
    hide Counters, CommandName, TotalLength, WellRun, Charge, Discharge;
  }

  lemma SerialStep(sys: System, i: nat, c: Choice)
    requires Serial(sys) && Enabled(sys, Work(i, c)) && NoEscape(sys, Work(i, c))
    ensures Serial(Apply(sys, Work(i, c)))
    ensures forall id :: id in sys.shared.responses ==>
      id in Apply(sys, Work(i, c)).shared.responses
      && Apply(sys, Work(i, c)).shared.responses[id] == sys.shared.responses[id]
  {
    IdsEffect(sys, i, c);
    ResponsesEffect(sys, i, c);
    var w, sys' := sys.workers[i], Apply(sys, Work(i, c));
    hide Advance, Enabled;
    assert forall j :: 0 <= j < |sys'.workers| && j != i ==> sys'.workers[j] == sys.workers[j];
    forall k | 0 <= k < |sys'.shared.ledger|
      ensures sys'.shared.ledger[k].requestId in sys'.shared.responses
              || exists j :: RecordedBy(sys', j, sys'.shared.ledger[k].requestId)
    {
      var id := sys'.shared.ledger[k].requestId;
      if k < |sys.shared.ledger| && id !in sys.shared.responses {
        var j :| RecordedBy(sys, j, id);
        assert j != i ==> RecordedBy(sys', j, id);
        assert j == i ==> RecordedBy(sys', i, id) || id in sys'.shared.responses;
      } else if k == |sys.shared.ledger| {
        assert RecordedBy(sys', i, id);
      }
    }
    if |sys'.shared.ledger| > |sys.shared.ledger| {
      assert forall j :: !RecordedBy(sys, j, w.id);
    }
  }

  lemma SerialClaim(sys: System, e: Event)
    requires Serial(sys) && Enabled(sys, e) && NoOverlap(sys, e) && !e.Work?
    ensures Serial(Apply(sys, e)) && Apply(sys, e).shared.responses == sys.shared.responses
  {
    var sys' := Apply(sys, e);
    forall j, id | RecordedBy(sys, j, id) ensures RecordedBy(sys', j, id) {}
  }

  /** Replays without overlap. In every run in which a request id is claimed only while no worker is busy
      with it, and in which no exception aborts a call, each id has at most one ledger record, and a stored response never changes again. */
  lemma {:induction false} SerialReplay(sys: System, events: seq<Event>)
    requires Serial(sys) && IsSerialRun(sys, events)
    ensures IsRun(sys, events) && Serial(After(sys, events))
    ensures forall id :: id in sys.shared.responses ==>
      id in After(sys, events).shared.responses
      && After(sys, events).shared.responses[id] == sys.shared.responses[id]
    decreases |events|
  {
    hide Serial, Apply, Enabled;
    if events != [] {
      if events[0].Work? {
        SerialStep(sys, events[0].worker, events[0].choice);
      } else {
        SerialClaim(sys, events[0]);
      }
      SerialReplay(Apply(sys, events[0]), events[1..]);
    }
  }

  lemma InitialSerial(limits: Usage, config: Config)
    ensures Serial(Initial(limits, config))
  {
  }

  /** From an empty gateway: without overlap and aborted calls every request id has at most one ledger record. */
  lemma AtMostOneRecordPerId(limits: Usage, config: Config, events: seq<Event>)
    requires IsSerialRun(Initial(limits, config), events)
    ensures IsRun(Initial(limits, config), events)
    ensures IdsDistinct(After(Initial(limits, config), events).shared.ledger)
  {
    hide IsSerialRun, IsRun, After, IdsDistinct;
    InitialSerial(limits, config);
    SerialReplay(Initial(limits, config), events);
  }

  /** Once a response is stored, a replay with the same payload gets exactly that response in one step and
      changes nothing; a different payload under the same id is a collision and changes nothing. */
  lemma StoredResponseIsReplayed(sys: System, i: nat, c: Choice)
    requires Enabled(sys, Work(i, c)) && sys.workers[i].pc.Arrived? && sys.workers[i].id in sys.shared.responses
    ensures var w := sys.workers[i]; var stored := sys.shared.responses[w.id];
      && Apply(sys, Work(i, c)).shared == sys.shared
      && Apply(sys, Work(i, c)).workers[i].pc.Done?
      && (stored.fingerprint == w.env ==> Apply(sys, Work(i, c)).workers[i].pc.response == stored.response)
      && (stored.fingerprint != w.env ==> Apply(sys, Work(i, c)).workers[i].pc.response == Response(Collision, 2, c.seen, None))
  {
  }
}
