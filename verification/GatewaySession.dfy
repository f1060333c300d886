/** The gateway as an object: one request handled from start to end with nothing in between. Its methods
    are the schedule of the transition system in which the same worker takes every step, so all that is
    proved about runs of the system holds of the object. */
module GatewaySession {
  import opened Text
  import opened Budget
  import opened CommandLine
  import opened Lines
  import opened Preview
  import opened Observations
  import opened Gateway
  import opened Processes

  /** How many steps a worker still has at most; an escaped exception makes it start again, but not on a call. */
  function Rank(w: Worker): nat { PcRank(w.pc) + if IsCall(w.env) then 10 else 0 }

  function PcRank(pc: Pc): nat {
    match pc
    case Arrived => 9
    case Dispatching => 8
    case Reserving => 7
    case Refused => 6
    case Holding => 6
    case Invoking(_) => 5
    case Releasing(_) => 4
    case Finishing(_, _) => 3
    case BadReserving => 7
    case BadHolding => 6
    case BadFinishing(_, _) => 3
    case Caching(_) => 2
    case Storing(_) => 1
    case Done(_) => 0
  }

  /** What an uninterrupted worker can rely on. */
  predicate Ready(s: Shared, w: Worker) {
    && (w.Owns() ==> w.Index() < |s.ledger|)
    && (w.NeedsCall() ==> IsCall(w.env))
    && (w.pc.Holding? || w.pc.Invoking? || w.pc.Releasing? ==> Releasable(s.used, Counters(w.env.op.args)))
  }

  /** A worker that is not interrupted can always step, stays ready, and gets closer to its response. */
  lemma StepReady(limits: Usage, s: Shared, w: Worker, c: Choice)
    requires Ready(s, w) && !w.pc.Done?
    ensures CanStep(s, w)
    ensures var (s', pc) := Advance(limits, s, w, c); Ready(s', Moved(s, w, c, pc)) && Rank(Moved(s, w, c, pc)) < Rank(w)
  {
    hide Counters, CommandName, TotalLength, Charge, Discharge;
    if w.pc.Reserving? { ReleaseUndoesReserve(s.used, Counters(w.env.op.args)); }
  }

  /** The rest of a request, run without interruption; status snapshots are then current. */
  function Drive(limits: Usage, s: Shared, w: Worker, run: Run): (Shared, Response)
    requires Ready(s, w)
    decreases Rank(w)
  {
    if w.pc.Done? then (s, w.pc.response)
    else
      StepReady(limits, s, w, Choice(s.used, run));
      var (s', pc) := Advance(limits, s, w, Choice(s.used, run));
      Drive(limits, s', Moved(s, w, Choice(s.used, run), pc), run)
  }

  /** Both states have the same rest of the request before them. */
  predicate Continues(limits: Usage, s: Shared, w: Worker, s': Shared, w': Worker, run: Run) {
    Ready(s, w) && Ready(s', w') && Drive(limits, s, w, run) == Drive(limits, s', w', run)
  }

  /** The request, run without interruption, ends in this state with this response. */
  predicate Serves(limits: Usage, s: Shared, w: Worker, run: Run, s': Shared, r: Response) {
    Ready(s, w) && Drive(limits, s, w, run) == (s', r)
  }

  lemma DriveStep(limits: Usage, s: Shared, w: Worker, run: Run, s': Shared, pc: Pc)
    requires Ready(s, w) && !w.pc.Done? && CanStep(s, w)
    requires Advance(limits, s, w, Choice(s.used, run)) == (s', pc) && !Escapes(s, w, Choice(s.used, run))
    ensures Ready(s', w.(pc := pc))
    ensures Drive(limits, s, w, run) == Drive(limits, s', w.(pc := pc), run)
  {
    StepReady(limits, s, w, Choice(s.used, run));
    assert Moved(s, w, Choice(s.used, run), pc) == w.(pc := pc);
    hide Ready, CanStep, Advance, Moved;
  }

  /** Storing is the last step. */
  lemma DriveStores(limits: Usage, s: Shared, w: Worker, run: Run)
    requires w.pc.Storing?
    ensures Drive(limits, s, w, run)
      == (s.(responses := s.responses[w.id := Stored(w.env, w.pc.response)]), w.pc.response)
  {
    var s' := s.(responses := s.responses[w.id := Stored(w.env, w.pc.response)]);
    assert Drive(limits, s', w.(pc := Done(w.pc.response)), run) == (s', w.pc.response);
  }

  lemma DriveDone(limits: Usage, s: Shared, w: Worker, run: Run)
    requires w.pc.Done?
    ensures Drive(limits, s, w, run) == (s, w.pc.response)
  {
  }

  /** An uninterrupted request is a run of the transition system. */
  lemma {:induction false} DriveIsRun(sys: System, i: nat, run: Run) returns (events: seq<Event>, end: Worker)
    requires i < |sys.workers| && Ready(sys.shared, sys.workers[i])
    requires var w := sys.workers[i]; IsCall(w.env) ==> WellRun(run, w.id, w.env.op.args, sys.config)
    ensures IsRun(sys, events) && forall e :: e in events ==> e.Work?
    ensures end.id == sys.workers[i].id
    ensures var (s, r) := Drive(sys.limits, sys.shared, sys.workers[i], run);
      end.pc == Done(r) && After(sys, events) == sys.(shared := s, workers := sys.workers[i := end])
    decreases Rank(sys.workers[i])
  {
    hide Counters, CommandName, TotalLength, WellRun, Charge, Discharge, Advance, Delivered;
    var w := sys.workers[i];
    if w.pc.Done? {
      assert sys.workers[i := w] == sys.workers;
      return [], w;
    }
    var e := Work(i, Choice(sys.shared.used, run));
    StepReady(sys.limits, sys.shared, w, e.choice);
    var next := Apply(sys, e);
    var rest;
    rest, end := DriveIsRun(next, i, run);
    events := [e] + rest;
    assert events[1..] == rest && events[0] == e;
    assert next.workers[i := end] == sys.workers[i := end];
  }

  /** A run after which the worker has its response and the shared state is that of the uninterrupted request. */
  ghost predicate Completes(sys: System, i: nat, run: Run, events: seq<Event>)
    requires i < |sys.workers| && Ready(sys.shared, sys.workers[i])
  {
    var (s, r) := Drive(sys.limits, sys.shared, sys.workers[i], run);
    IsRun(sys, events) && After(sys, events).shared == s
    && var workers := After(sys, events).workers;
       |workers| == |sys.workers| && workers == sys.workers[i := workers[i]] && workers[i].pc == Done(r)
  }

  /** Handling one request from start to end, as the session object does, is one of the interleavings of the
      gateway: what holds after every run holds after it. */
  lemma SessionCallIsRun(sys: System, i: nat, run: Run)
    requires i < |sys.workers| && Ready(sys.shared, sys.workers[i])
    requires var w := sys.workers[i]; IsCall(w.env) ==> WellRun(run, w.id, w.env.op.args, sys.config)
    ensures exists events :: Completes(sys, i, run, events)
  {
    hide IsRun, After, Drive, Ready, WellRun, IsCall;
    var events, end := DriveIsRun(sys, i, run);
    assert Completes(sys, i, run, events);
  }

  /** The call is not one that the cache answers. */
  predicate Uncached(s: Shared, env: Envelope)
    requires IsCall(env)
  {
    Counters(env.op.args) == [] ==> env.op.args !in s.cache
  }

  /** A granted call up to its process: reserved and recorded. */
  lemma CallStarts(limits: Usage, s: Shared, w: Worker, run: Run)
    requires w.pc.Arrived? && w.id !in s.responses && IsCall(w.env) && Uncached(s, w.env)
    requires Available(s.used, limits, Counters(w.env.op.args))
    ensures var names := Counters(w.env.op.args);
      var s1 := s.(used := Charge(s.used, names, |names|));
      var s2 := s1.(ledger := s.ledger + [CallRecord(s1, w, w.Charged(), Running, s1.used)]);
      && Ready(s, w) && Ready(s2, w.(pc := Invoking(|s.ledger|)))
      && Drive(limits, s, w, run) == Drive(limits, s2, w.(pc := Invoking(|s.ledger|)), run)
  {
    var names := Counters(w.env.op.args);
    assert Ready(s, w);
    hide Ready, Counters, CommandName, TotalLength, Charge, Discharge, Drive, IsFree;
    DriveStep(limits, s, w, run, s, Dispatching);
    DriveStep(limits, s, w.(pc := Dispatching), run, s, Reserving);
    var s1 := s.(used := Charge(s.used, names, |names|));
    DriveStep(limits, s, w.(pc := Reserving), run, s1, Holding);
    var record := CallRecord(s1, w, w.Charged(), Running, s1.used);
    DriveStep(limits, s1, w.(pc := Holding), run, s1.(ledger := s.ledger + [record]), Invoking(|s.ledger|));
  }

  /** Where the process leaves its worker. */
  function Next(w: Worker, index: nat, did: Run): Pc
    requires IsCall(w.env)
  {
    if w.Charged() && did.SpawnFailed? && !did.tooBig then Releasing(index) else Finishing(index, did)
  }

  lemma DriveInvokes(limits: Usage, s: Shared, w: Worker, index: nat, run: Run)
    requires w.pc == Invoking(index) && Ready(s, w) && IsCall(w.env) && !Delivered(s, w.id, run).Escaped?
    ensures var s', w' := Logged(s, w.id, run), w.(pc := Next(w, index, Delivered(s, w.id, run)));
      Ready(s', w') && Drive(limits, s, w, run) == Drive(limits, s', w', run)
  {
    hide Counters, CommandName, TotalLength, Drive;
    assert Advance(limits, s, w, Choice(s.used, run)).0 == Logged(s, w.id, run);
    assert Advance(limits, s, w, Choice(s.used, run)).1 == Next(w, index, Delivered(s, w.id, run));
    DriveStep(limits, s, w, run, Logged(s, w.id, run), Next(w, index, Delivered(s, w.id, run)));
  }

  /** An exception that escapes: the record is abandoned, and the request starts again as a wrong envelope. */
  function Dropped(s: Shared, index: nat, w: Worker, did: Run): Shared
    requires index < |s.ledger|
  {
    Logged(s, w.id, did).(ledger := s.ledger[index := s.ledger[index].(outcome := Abandoned)])
  }

  lemma DriveEscapes(limits: Usage, s: Shared, w: Worker, index: nat, run: Run)
    requires w.pc == Invoking(index) && Ready(s, w) && IsCall(w.env) && Delivered(s, w.id, run).Escaped?
    ensures index < |s.ledger|
    ensures var s', w' := Dropped(s, index, w, run), Worker(w.id, Malformed(w.env.text), Arrived);
      Ready(s', w') && Drive(limits, s, w, run) == Drive(limits, s', w', run)
  {
    hide Counters, CommandName, TotalLength;
    var c := Choice(s.used, run);
    StepReady(limits, s, w, c);
    assert Advance(limits, s, w, c).0 == Dropped(s, index, w, run);
    assert Moved(s, w, c, Advance(limits, s, w, c).1) == Worker(w.id, Malformed(w.env.text), Arrived);
    hide Ready, Advance, Moved;
  }

  /** The arguments whose result a call leaves in the cache: its own, if it is free and its process exited with 0. */
  function NewlyCached(env: Envelope, did: Run): set<seq<string>>
    requires IsCall(env)
  {
    if Counters(env.op.args) == [] && did.Exited? && did.returncode == 0 then {env.op.args} else {}
  }

  /** The cache after a call that was answered with `r`. */
  function CacheWith(s: Shared, env: Envelope, did: Run, r: Response): map<seq<string>, Response>
    requires IsCall(env)
  {
    if NewlyCached(env, did) == {} then s.cache else s.cache[env.op.args := r]
  }

  /** A granted call from its process on: its record finished, its reservation given back if the process could
      not be started for a reason that is not the caller's, its result cached if it is free and succeeded. */
  lemma CallEnds(limits: Usage, s: Shared, w: Worker, index: nat, run: Run)
    requires w.pc == Invoking(index) && Ready(s, w) && IsCall(w.env) && !Delivered(s, w.id, run).Escaped?
    ensures index < |s.ledger|
    ensures var (end, r) := Drive(limits, s, w, run); var did, names := Delivered(s, w.id, run), Counters(w.env.op.args);
      && |end.ledger| == |s.ledger| && end.ledger == s.ledger[index := end.ledger[index]]
      && r == RunResponse(did, end.used) && end.ledger[index] == FinishedRecord(s.ledger[index], RunOutcome(did), r)
      && end.responses == s.responses[w.id := Stored(w.env, r)] && end.cache == CacheWith(s, w.env, did, r)
      && end.ledger[index].requestId == s.ledger[index].requestId && end.ledger[index].charged == s.ledger[index].charged
      && end.ledger[index].outcome == RunOutcome(did)
      && end.used == (if RunOutcome(did).InfrastructureError? then Discharge(s.used, names, |names|) else s.used)
      && end.responses.Keys == s.responses.Keys + {w.id} && end.responses[w.id].fingerprint == w.env
      && end.logs == Logged(s, w.id, run).logs && end.cache.Keys == s.cache.Keys + NewlyCached(w.env, did)
  {
    hide Ready, Counters, CommandName, TotalLength, Charge, Discharge, Drive, IsFree;
    ReadyHolds(s, w);
    DriveInvokes(limits, s, w, index, run);
    var names, did, s0 := Counters(w.env.op.args), Delivered(s, w.id, run), Logged(s, w.id, run);
    assert s0.used == s.used && s0.ledger == s.ledger && s0.responses == s.responses && s0.cache == s.cache;
    hide Delivered, Logged, RunOutcome, RunResponse, NewlyCached;
    var s1, pc := s0, Finishing(index, did);
    OutcomeOfFailure(did);
    if did == SpawnFailed(false) {
      if names == [] { NothingReleased(s.used); }
      s1 := s0.(used := Discharge(s.used, names, |names|));
      if names != [] { DriveStep(limits, s0, w.(pc := Releasing(index)), run, s1, pc); }
    }
    DriveConcludes(limits, s1, w.(pc := pc), index, did, run);
  }

  lemma OutcomeOfFailure(did: Run)
    ensures RunOutcome(did).InfrastructureError? ==> did == SpawnFailed(false)
    ensures RunOutcome(SpawnFailed(false)) == InfrastructureError
  {
  }

  lemma NothingReleased(used: Usage)
    ensures Discharge(used, [], 0) == used && Charge(used, [], 0) == used
  {
  }

  lemma DriveConcludes(limits: Usage, s: Shared, w: Worker, index: nat, did: Run, run: Run)
    requires w.pc == Finishing(index, did) && index < |s.ledger| && IsCall(w.env)
    ensures Ready(s, w)
    ensures var end, response := Drive(limits, s, w, run).0, RunResponse(did, s.used);
      && end.ledger == s.ledger[index := FinishedRecord(s.ledger[index], RunOutcome(did), response)]
      && end.responses == s.responses[w.id := Stored(w.env, response)]
      && end.used == s.used && end.logs == s.logs && end.cache.Keys == s.cache.Keys + NewlyCached(w.env, did)
      && end.cache == CacheWith(s, w.env, did, response) && Drive(limits, s, w, run).1 == response
  {
    assert Ready(s, w);
    hide Ready, Counters, CommandName, TotalLength, Drive, RunOutcome, RunResponse;
    var response := RunResponse(did, s.used);
    var s' := s.(ledger := s.ledger[index := FinishedRecord(s.ledger[index], RunOutcome(did), response)]);
    if NewlyCached(w.env, did) != {} {
      var s'' := s'.(cache := s.cache[w.env.op.args := response]);
      DriveStep(limits, s, w, run, s', Caching(response));
      DriveStep(limits, s', w.(pc := Caching(response)), run, s'', Storing(response));
      DriveStores(limits, s'', w.(pc := Storing(response)), run);
    } else {
      DriveStep(limits, s, w, run, s', Storing(response));
      DriveStores(limits, s', w.(pc := Storing(response)), run);
    }
  }

  /** A finished record says which call it was and how it was answered. */
  predicate Tallies(record: PredRecord, number: nat, args: seq<string>, r: Response) {
    && record.sequence == number && record.args == args && record.command == CommandName(args)
    && record.returncode == Some(r.returncode) && record.budget == r.budget && record.observation == r.observation
  }

  /** The net effect of one granted call, charged or free, from file to response: one record with the outcome of
      its process, and its reservation kept, unless the process could not be started for a reason that is not
      the caller's, or its observation was already logged. Then the counters are as before, but the record of a
      charged call still says it was charged. */
  lemma GrantedCallNet(limits: Usage, s: Shared, w: Worker, run: Run)
    requires w.pc.Arrived? && w.id !in s.responses && IsCall(w.env) && Uncached(s, w.env)
    requires Available(s.used, limits, Counters(w.env.op.args)) && !Delivered(s, w.id, run).Escaped?
    ensures Ready(s, w)
    ensures var (after, r) := Drive(limits, s, w, run); var did, names := Delivered(s, w.id, run), Counters(w.env.op.args);
      && r == RunResponse(did, after.used) && after.responses == s.responses[w.id := Stored(w.env, r)]
      && after.cache == CacheWith(s, w.env, did, r)
      && |after.ledger| == |s.ledger| + 1 && after.ledger[..|s.ledger|] == s.ledger
      && Tallies(after.ledger[|s.ledger|], |s.ledger| + 1, w.env.op.args, r)
      && after.ledger[|s.ledger|].requestId == w.id && after.ledger[|s.ledger|].charged == (names != [])
      && after.ledger[|s.ledger|].outcome == RunOutcome(did)
      && after.used == (if RunOutcome(did).InfrastructureError? then s.used else Charge(s.used, names, |names|))
      && after.responses.Keys == s.responses.Keys + {w.id}
      && after.logs == Logged(s, w.id, run).logs && after.cache.Keys == s.cache.Keys + NewlyCached(w.env, did)
  {
    hide Ready, Counters, TotalLength, Charge, Discharge, Drive, RunOutcome, NewlyCached;
    CallStarts(limits, s, w, run);
    var names := Counters(w.env.op.args);
    var s1 := s.(used := Charge(s.used, names, |names|));
    var s2 := s1.(ledger := s.ledger + [CallRecord(s1, w, w.Charged(), Running, s1.used)]);
    SameLogs(s, s2, w.id, run);
    CallEnds(limits, s2, w.(pc := Invoking(|s.ledger|)), |s.ledger|, run);
    ReleaseUndoesReserve(s.used, names);
  }

  /** A wrong request for which there is room: one charged record, and it is answered as the caller's fault. */
  lemma WrongCallNet(limits: Usage, s: Shared, w: Worker, run: Run)
    requires w.pc.Arrived? && w.id !in s.responses && IsBad(w.env) && Available(s.used, limits, [PredCalls])
    ensures Ready(s, w)
    ensures var used := Charge(s.used, [PredCalls], 1); var r := Response(BadRequest, 2, used, None);
      Drive(limits, s, w, run) == (
        s.(used := used, responses := s.responses[w.id := Stored(w.env, r)],
           ledger := s.ledger + [PredRecord(|s.ledger| + 1, w.id, [], None, true, ModelError, used, Some(2), None)]),
        r)
  {
    assert Ready(s, w);
    hide Ready, Counters, CommandName, TotalLength, Charge, Discharge, Drive, IsFree;
    var used, n := Charge(s.used, [PredCalls], 1), |s.ledger|;
    var r := Response(BadRequest, 2, used, None);
    var s1 := s.(used := used);
    var s2 := s1.(ledger := s.ledger + [PredRecord(n + 1, w.id, [], None, true, ModelError, used, None, None)]);
    var s3 := s1.(ledger := s.ledger + [PredRecord(n + 1, w.id, [], None, true, ModelError, used, Some(2), None)]);
    DriveStep(limits, s, w, run, s, Dispatching);
    DriveStep(limits, s, w.(pc := Dispatching), run, s, BadReserving);
    DriveStep(limits, s, w.(pc := BadReserving), run, s1, BadHolding);
    DriveStep(limits, s1, w.(pc := BadHolding), run, s2, BadFinishing(n, r));
    assert s3.ledger == s2.ledger[n := FinishedRecord(s2.ledger[n], ModelError, r)];
    DriveStep(limits, s2, w.(pc := BadFinishing(n, r)), run, s3, Storing(r));
    DriveStores(limits, s3, w.(pc := Storing(r)), run);
  }

  /** The counters a request needs; a wrong request is charged as a pred call. */
  function Needs(env: Envelope): seq<Counter>
    requires IsCall(env) || IsBad(env)
  {
    if IsCall(env) then Counters(env.op.args) else [PredCalls]
  }

  /** The net effect of one refused request from file to response, whatever its process would have done: no
      counter moves, nothing is cached or logged, the answer is 75 and is stored for replays, and a well-formed
      call leaves one uncharged record where a wrong one leaves none. */
  lemma RefusedCallNet(limits: Usage, s: Shared, w: Worker, run: Run)
    requires w.pc.Arrived? && w.id !in s.responses && (IsCall(w.env) || IsBad(w.env))
    requires !Available(s.used, limits, Needs(w.env))
    ensures Ready(s, w)
    ensures var (after, r) := Drive(limits, s, w, run);
      && r == Refusal(s.used) && r.returncode == 75
      && after.used == s.used && after.cache == s.cache && after.logs == s.logs
      && after.responses == s.responses[w.id := Stored(w.env, r)]
      && (IsBad(w.env) ==> after.ledger == s.ledger)
      && (IsCall(w.env) ==>
            && |after.ledger| == |s.ledger| + 1 && after.ledger[..|s.ledger|] == s.ledger
            && var last := after.ledger[|s.ledger|];
               && last.requestId == w.id && last.args == w.env.op.args && !last.charged
               && last.outcome == BudgetExhausted && last.observation == None)
  {
    assert Ready(s, w);
    hide Ready, Counters, CommandName, TotalLength, Charge, Discharge, Drive, IsFree;
    DriveStep(limits, s, w, run, s, Dispatching);
    if IsBad(w.env) {
      DriveStep(limits, s, w.(pc := Dispatching), run, s, BadReserving);
      DriveStep(limits, s, w.(pc := BadReserving), run, s, Storing(Refusal(s.used)));
      DriveStores(limits, s, w.(pc := Storing(Refusal(s.used))), run);
    } else {
      DriveStep(limits, s, w.(pc := Dispatching), run, s, Reserving);
      DriveStep(limits, s, w.(pc := Reserving), run, s, Refused);
      var s1 := s.(ledger := s.ledger + [CallRecord(s, w, false, BudgetExhausted, s.used)]);
      DriveStep(limits, s, w.(pc := Refused), run, s1, Storing(Refusal(s.used)));
      DriveStores(limits, s1, w.(pc := Storing(Refusal(s.used))), run);
    }
  }

  /** The net effect of a granted call, charged or free, that an exception aborts. Its record keeps reading
      "running" and is never finished, and the request is then handled once more as a wrong envelope: it is
      charged and recorded a second time under its own id if a pred call is left, and refused if not. The
      stored fingerprint is that of the wrong envelope, so a replay of the same request is a collision. */
  lemma EscapedCallNet(limits: Usage, s: Shared, w: Worker, run: Run)
    requires w.pc.Arrived? && w.id !in s.responses && IsCall(w.env) && Uncached(s, w.env)
    requires Available(s.used, limits, Counters(w.env.op.args)) && Delivered(s, w.id, run).Escaped?
    ensures Ready(s, w)
    ensures var (after, r), names, n := Drive(limits, s, w, run), Counters(w.env.op.args), |s.ledger|;
      var once := Charge(s.used, names, |names|);
      var again := Available(once, limits, [PredCalls]);
      && |after.ledger| == n + (if again then 2 else 1) && after.ledger[..n] == s.ledger
      && after.ledger[n].requestId == w.id && after.ledger[n].charged == (names != []) && after.ledger[n].outcome == Abandoned
      && (again ==>
            after.ledger[n + 1].requestId == w.id && after.ledger[n + 1].charged && after.ledger[n + 1].outcome == ModelError)
      && after.used == (if again then Charge(once, [PredCalls], 1) else once)
      && r == (if again then Response(BadRequest, 2, after.used, None) else Refusal(once))
      && after.responses == s.responses[w.id := Stored(Malformed(w.env.text), r)] && after.cache == s.cache
      && after.logs == s.logs + if Delivered(s, w.id, run).logged then {w.id} else {}
  {
    hide Ready, Counters, CommandName, TotalLength, Charge, Discharge, Drive, Delivered, Available;
    CallStarts(limits, s, w, run);
    var names, n := Counters(w.env.op.args), |s.ledger|;
    var s1 := s.(used := Charge(s.used, names, |names|));
    var s2 := s1.(ledger := s.ledger + [CallRecord(s1, w, w.Charged(), Running, s1.used)]);
    SameLogs(s, s2, w.id, run);
    DriveEscapes(limits, s2, w.(pc := Invoking(n)), n, run);
    var s3, again := Dropped(s2, n, w.(pc := Invoking(n)), run), Worker(w.id, Malformed(w.env.text), Arrived);
    assert s3.used == s1.used && s3.responses == s.responses && s3.cache == s.cache && s3.logs == Logged(s, w.id, run).logs;
    DroppedLogs(s, w.id, run);
    if Available(s1.used, limits, [PredCalls]) {
      WrongCallNet(limits, s3, again, run);
    } else {
      RefusedCallNet(limits, s3, again, run);
    }
  }

  lemma DroppedLogs(s: Shared, id: string, run: Run)
    requires Delivered(s, id, run).Escaped?
    ensures run.Escaped? && Delivered(s, id, run) == run
    ensures Logged(s, id, run).logs == s.logs + if run.logged then {id} else {}
  {
  }

  lemma SameLogs(s: Shared, s': Shared, id: string, run: Run)
    requires s.logs == s'.logs
    ensures Delivered(s, id, run) == Delivered(s', id, run)
  {
  }

  /** Every call that is not answered from the cache leaves a record under its id, whatever its process does:
      granted or refused, charged or free, and one more record at most if an exception aborts it. Only a free
      call whose process exited with 0 gets into the cache. */
  lemma RecordedCallNet(limits: Usage, s: Shared, w: Worker, run: Run)
    requires w.pc.Arrived? && w.id !in s.responses && IsCall(w.env) && Uncached(s, w.env)
    ensures Ready(s, w)
    ensures var after := Drive(limits, s, w, run).0;
      && |s.ledger| + 1 <= |after.ledger| <= |s.ledger| + (if run.Escaped? then 2 else 1)
      && after.ledger[..|s.ledger|] == s.ledger
      && (forall k :: |s.ledger| <= k < |after.ledger| ==> after.ledger[k].requestId == w.id)
      && s.cache.Keys <= after.cache.Keys <= s.cache.Keys + NewlyCached(w.env, run)
      && after.responses.Keys == s.responses.Keys + {w.id}
  {
    hide Ready, Counters, Available, Drive, RunOutcome, Charge, Logged, TotalLength;
    if !Available(s.used, limits, Counters(w.env.op.args)) {
      RefusedCallNet(limits, s, w, run);
    } else if Delivered(s, w.id, run).Escaped? {
      EscapedCallNet(limits, s, w, run);
    } else {
      GrantedCallNet(limits, s, w, run);
    }
  }

  // ---------------------------------------------------------------- what a request costs and what it is answered

  /** A granted call that is not aborted is answered and recorded as its process ended: with its return code and
      its observation if it ran, with 2 if it could not be started, which is the caller's fault exactly for E2BIG.
      The answer is stored for its id. */
  lemma GrantedCallIsReported(limits: Usage, s: Shared, w: Worker, run: Run)
    requires w.pc.Arrived? && w.id !in s.responses && IsCall(w.env) && Uncached(s, w.env)
    requires Available(s.used, limits, Counters(w.env.op.args)) && !Delivered(s, w.id, run).Escaped?
    ensures Ready(s, w)
    ensures var (after, r) := Drive(limits, s, w, run); var did := Delivered(s, w.id, run); var n := |s.ledger|;
      && did == (if !run.SpawnFailed? && w.id in s.logs then SpawnFailed(false) else run)
      && after.logs == (if did.Exited? then s.logs + {w.id} else s.logs)
      && after.responses == s.responses[w.id := Stored(w.env, r)] && |after.ledger| == n + 1 && r.budget == after.used
      && (did.Exited? ==>
            && r.kind == Ran && r.returncode == did.returncode && r.observation == Some(did.observation)
            && after.ledger[n].returncode == Some(did.returncode) && after.ledger[n].observation == Some(did.observation)
            && (after.ledger[n].outcome == Timeout <==> did.timedOut)
            && (after.ledger[n].outcome == Completed <==> !did.timedOut && did.returncode == 0)
            && (after.ledger[n].outcome == NonzeroExit <==> !did.timedOut && did.returncode != 0))
      && (did.SpawnFailed? ==>
            && r.kind == (if did.tooBig then Rejected else GatewayFailure) && r.returncode == 2 && r.observation == None
            && after.ledger[n].returncode == Some(2) && after.ledger[n].observation == None
            && after.ledger[n].outcome == if did.tooBig then ModelError else InfrastructureError)
  {
    hide Ready, Counters, CommandName, Drive, TotalLength, NewlyCached, CacheWith, Charge, Available;
    GrantedCallNet(limits, s, w, run);
    if w.id in s.logs { assert s.logs + {w.id} == s.logs; }
  }

  /** A wrong request, be it no JSON object, no list of words, or more than two million characters of them, costs a
      pred call and leaves one record without its words; if no call is left, it is refused and leaves none. */
  lemma WrongRequestIsCharged(limits: Usage, s: Shared, w: Worker, run: Run)
    requires w.pc.Arrived? && w.id !in s.responses
    requires w.env.Malformed? || w.env.op.BadPredOp? || (w.env.op.PredOp? && TotalLength(w.env.op.args) > 2097152)
    ensures Ready(s, w)
    ensures var (after, r) := Drive(limits, s, w, run); var n := |s.ledger|;
      && after.responses == s.responses[w.id := Stored(w.env, r)] && after.cache == s.cache && after.logs == s.logs
      && (s.used.preds < limits.preds ==>
            && after.used == s.used.(preds := s.used.preds + 1) && r == Response(BadRequest, 2, after.used, None)
            && |after.ledger| == n + 1 && after.ledger[..n] == s.ledger
            && after.ledger[n] == PredRecord(n + 1, w.id, [], None, true, ModelError, after.used, Some(2), None))
      && (s.used.preds >= limits.preds ==>
            after.used == s.used && after.ledger == s.ledger && r == Response(Exhausted, 75, s.used, None))
  {
    hide Ready, CommandName, TotalLength, Drive;
    assert IsBad(w.env);
    OnePredCall(s.used, limits);
    hide Charge, Available;
    if s.used.preds < limits.preds {
      WrongCallNet(limits, s, w, run);
    } else {
      RefusedCallNet(limits, s, w, run);
    }
  }

  lemma OnePredCall(used: Usage, limits: Usage)
    ensures Available(used, limits, [PredCalls]) <==> used.preds < limits.preds
    ensures Charge(used, [PredCalls], 1) == used.(preds := used.preds + 1)
  {
    assert PredCalls in [PredCalls];
  }

  /** What calling with these words is charged, in pred calls and in solve calls. */
  predicate Costs(prefix: seq<string>, rest: seq<string>, preds: nat, solves: nat) {
    && GlobalOptions(prefix) && rest != [] && !("-" <= rest[0]) && (forall arg :: arg in prefix + rest ==> !HelpWord(arg))
    && preds == (if rest[0] == "help" || (rest[0] == "list" && "--rules" in prefix + rest) then 0 else 1)
    && solves == (if rest[0] == "solve" then 1 else 0)
  }

  /** A whole request, as it is processed, costs what its words say. If there is room for it, and its process is
      started or the caller is to blame that it is not, the counters of pred and solve calls go up by exactly its
      price and its record says whether it has one; if there is none, nothing is charged and 75 is answered. */
  lemma RequestCosts(limits: Usage, s: Shared, id: string, text: string, prefix: seq<string>, rest: seq<string>, preds: nat,
                     solves: nat, run: Run, after: Shared, r: Response)
    requires Costs(prefix, rest, preds, solves) && TotalLength(prefix + rest) <= MAX_REQUEST_BYTES && id !in s.responses
    requires var env := Parsed(text, PredOp(prefix + rest));
      Serves(limits, s, Worker(id, env, Arrived), run, after, r) && Uncached(s, env)
    ensures var room := (preds > 0 ==> s.used.preds < limits.preds) && (solves > 0 ==> s.used.solves < limits.solves);
      var did := Delivered(s, id, run);
      && (room && !did.Escaped? && did != SpawnFailed(false) ==>
            && after.used == s.used.(preds := s.used.preds + preds, solves := s.used.solves + solves)
            && |after.ledger| == |s.ledger| + 1 && after.ledger[|s.ledger|].charged == (preds > 0))
      && (room && did == SpawnFailed(false) ==> after.used == s.used)
      && (!room ==> after.used == s.used && r.kind == Exhausted && r.returncode == 75)
  {
    var args, w := prefix + rest, Worker(id, Parsed(text, PredOp(prefix + rest)), Arrived);
    ChargedByFirstWord(prefix, rest);
    ChargedAs(s.used, limits, args);
    hide Drive, Counters, CommandName, TotalLength, GlobalOptions, Charge, Available, Ready;
    OutcomeOfFailure(Delivered(s, id, run));
    if !Available(s.used, limits, Counters(args)) {
      RefusedCallNet(limits, s, w, run);
    } else if !Delivered(s, id, run).Escaped? {
      GrantedCallNet(limits, s, w, run);
    }
  }

  lemma ChargedAs(used: Usage, limits: Usage, args: seq<string>)
    requires Counters(args) in {[], [PredCalls], [PredCalls, SolveCalls]}
    ensures var names := Counters(args);
      && Charge(used, names, |names|) == used.(preds := used.preds + (if names == [] then 0 else 1),
                                               solves := used.solves + if |names| == 2 then 1 else 0)
      && (Available(used, limits, names) <==>
            (names != [] ==> used.preds < limits.preds) && (|names| == 2 ==> used.solves < limits.solves))
  {
    hide Counters;
    var names := Counters(args);
    assert PredCalls in [PredCalls] && PredCalls in [PredCalls, SolveCalls] && SolveCalls in [PredCalls, SolveCalls];
    if names != [] { assert Charge(used, names, 1) == used.(preds := used.preds + 1); }
  }

  /** A free call whose result is cached is answered with that very result, whatever the budget, and leaves no
      record, no log and no charge. */
  lemma CachedCallNet(limits: Usage, s: Shared, w: Worker, run: Run)
    requires w.pc.Arrived? && w.id !in s.responses && IsCall(w.env) && !Uncached(s, w.env)
    ensures Ready(s, w)
    ensures var r := s.cache[w.env.op.args];
      Drive(limits, s, w, run) == (s.(responses := s.responses[w.id := Stored(w.env, r)]), r)
  {
    assert Ready(s, w);
    hide Ready, Counters, CommandName, TotalLength, Drive;
    DriveStep(limits, s, w, run, s, Dispatching);
    DriveStep(limits, s, w.(pc := Dispatching), run, s, Storing(s.cache[w.env.op.args]));
    DriveStores(limits, s, w.(pc := Storing(s.cache[w.env.op.args])), run);
  }

  /** The second of two equal free calls gets the answer of the first, if that exited with 0, and costs nothing. */
  lemma FreeResultIsReplayed(limits: Usage, s: Shared, w: Worker, run: Run, again: Worker, other: Run)
    requires w.pc.Arrived? && w.id !in s.responses && IsCall(w.env) && Counters(w.env.op.args) == [] && Uncached(s, w.env)
    requires Delivered(s, w.id, run).Exited? && Delivered(s, w.id, run).returncode == 0
    requires again.pc.Arrived? && again.id !in s.responses && again.id != w.id && IsCall(again.env) && again.env.op == w.env.op
    ensures Ready(s, w)
    ensures var (first, r) := Drive(limits, s, w, run);
      && Ready(first, again)
      && var (second, answer) := Drive(limits, first, again, other);
         && answer == r && second == first.(responses := first.responses[again.id := Stored(again.env, r)])
  {
    hide Ready, Counters, CommandName, TotalLength, Drive, RunResponse, RunOutcome, Tallies;
    GrantedCallNet(limits, s, w, run);
    CachedCallNet(limits, Drive(limits, s, w, run).0, again, other);
  }

  /** Status requests and unknown operations are answered with the counters as they are, and change nothing else. */
  lemma OtherOperationsAreAnswered(limits: Usage, s: Shared, w: Worker, run: Run)
    requires w.pc.Arrived? && w.id !in s.responses && w.env.Parsed? && (w.env.op.StatusOp? || w.env.op.UnknownOp?)
    ensures Ready(s, w)
    ensures var r := if w.env.op.StatusOp? then Response(StatusReply, 0, s.used, None) else Response(UnknownOperation, 2, s.used, None);
      Drive(limits, s, w, run) == (s.(responses := s.responses[w.id := Stored(w.env, r)]), r)
  {
    assert Ready(s, w);
    hide Ready, Drive;
    var r := if w.env.op.StatusOp? then Response(StatusReply, 0, s.used, None) else Response(UnknownOperation, 2, s.used, None);
    DriveStep(limits, s, w, run, s, Dispatching);
    DriveStep(limits, s, w.(pc := Dispatching), run, s, Storing(r));
    DriveStores(limits, s, w.(pc := Storing(r)), run);
  }

  lemma OneLength(arg: string)
    ensures TotalLength([arg]) == |arg|
  {
    assert [arg][1..] == [];
  }

  /** The size of a request is that of its words together. */
  lemma {:induction false} TotalLengthIsSum(args: seq<string>, more: seq<string>)
    ensures TotalLength(args + more) == TotalLength(args) + TotalLength(more)
    ensures forall arg :: TotalLength([arg]) == |arg|
  {
    forall arg ensures TotalLength([arg]) == |arg| { OneLength(arg); }
    if args == [] {
      assert args + more == more;
    } else {
      TotalLengthIsSum(args[1..], more);
      assert (args + more)[1..] == args[1..] + more;
    }
  }

  // ---------------------------------------------------------------- the object

  /** The request ids behind the log files of pred calls. */
  function PredLogs(files: set<string>): set<string> {
    set f | f in files && |f| >= 5 && f[..5] == "pred-" :: f[5..]
  }

  lemma PredLogsExact(files: set<string>, id: string)
    ensures id in PredLogs(files) <==> PredId(id) in files
    ensures PredLogs(files + {PredId(id)}) == PredLogs(files) + {id}
  {
    assert PredId(id)[..5] == "pred-" && PredId(id)[5..] == id;
    forall f | |f| >= 5 && f[..5] == "pred-" && f[5..] == id ensures f == PredId(id) {
      assert f == f[..5] + f[5..];
    }
  }

  /** The request gets as far as starting its process. */
  predicate Invokes(limits: Usage, s: Shared, id: string, env: Envelope) {
    && id !in s.responses && IsCall(env) && Available(s.used, limits, Counters(env.op.args))
    && !(Counters(env.op.args) == [] && env.op.args in s.cache)
  }

  /** What the workers are told about a process: `logged` says that the id has a log already, `shown` that the
      preview can be rendered. */
  predicate Reports(run: Run, p: Process, logged: bool, shown: bool) {
    match p
    case NotStarted(tooBig) => run == SpawnFailed(tooBig)
    case NotPassed => run == Escaped(false)
    case Ended(_, _, _, _) =>
      if logged then run == SpawnFailed(false)
      else if !shown then run == Escaped(true)
      else run.Exited? && run.returncode == Code(p) && run.timedOut == p.timedOut
  }

  /** A run the workers may be given for the request, and if its process is started, what that process did. */
  ghost predicate Tells(run: Run, p: Process, limits: Usage, s: Shared, id: string, env: Envelope, policy: Policy, config: Config) {
    && (IsCall(env) ==> WellRun(run, id, env.op.args, config))
    && (Invokes(limits, s, id, env) ==> Reports(run, p, id in s.logs, Presentable(p, id, policy, config)))
  }

  /** For a request that starts no process. */
  const NOT_RUN := SpawnFailed(false)

  lemma TellsNothing(p: Process, limits: Usage, s: Shared, id: string, env: Envelope, policy: Policy, config: Config)
    requires !Invokes(limits, s, id, env)
    ensures Tells(NOT_RUN, p, limits, s, id, env, policy, config)
  {
  }

  lemma TellsAll(run: Run, p: Process, limits: Usage, s: Shared, id: string, env: Envelope, policy: Policy, config: Config)
    requires IsCall(env) && WellRun(run, id, env.op.args, config)
    requires Reports(run, p, id in s.logs, Presentable(p, id, policy, config))
    ensures Tells(run, p, limits, s, id, env, policy, config)
  {
    hide Presentable;
  }

  /** What `_handle` does: it answers, or an exception other than an `OSError` leaves it. */
  datatype Handled = Answer(response: Response) | Aborted

  /** The worker after `_handle`. */
  function Left(id: string, env: Envelope, h: Handled): Worker {
    if h.Answer? then Worker(id, env, Storing(h.response)) else Worker(id, Malformed(env.text), Arrived)
  }

  class PredGatewaySession {
    const state: EvidenceBudgetState
    const store: ObservationStore
    var ledger: seq<PredRecord>
    var responses: map<string, Stored>
    var cache: map<seq<string>, Response>

    constructor (state: EvidenceBudgetState, store: ObservationStore)
      ensures this.state == state && this.store == store && ledger == [] && responses == map[] && cache == map[]
    {
      this.state, this.store := state, store;
      ledger, responses, cache := [], map[], map[];
    }

    ghost function View(): Shared
      reads this, state, store
    {
      Shared(state.used, ledger, responses, cache, PredLogs(store.logs.Keys))
    }

    /** A process whose output has a size the store can deal with. */
    ghost predicate Packages(id: string, p: Process) {
      JsonNonEmpty(store.policy) && ValidConfig(store.config) && IsRequestId(id) && Measured(p)
    }

    /** `_append_pred_record`. */
    method AppendPredRecord(id: string, args: seq<string>, command: Option<string>, charged: bool, outcome: Outcome,
                            budget: Usage)
      returns (index: nat)
      modifies this`ledger
      ensures index == |old(ledger)|
      ensures ledger == old(ledger)
        + [PredRecord(|old(ledger)| + 1, id, args, command, charged, outcome, budget, None, None)]
    {
      ledger := ledger + [PredRecord(|ledger| + 1, id, args, command, charged, outcome, budget, None, None)];
      return |ledger| - 1;
    }

    /** `_finish_pred_record`. */
    method FinishPredRecord(index: nat, outcome: Outcome, response: Response)
      requires index < |ledger|
      modifies this`ledger
      ensures ledger == old(ledger)[index := FinishedRecord(old(ledger)[index], outcome, response)]
    {
      var r := ledger[index].(outcome := outcome);
      r := r.(returncode := Some(response.returncode));
      r := r.(budget := response.budget);
      if response.observation.Some? { r := r.(observation := response.observation); }
      ledger := ledger[index := r];
    }

    /** `_handle_invalid_args`: a wrong request is charged as a pred call. */
    method HandleInvalidArgs(id: string, ghost env: Envelope, ghost run: Run) returns (r: Response)
      requires IsBad(env)
      modifies this`ledger, state
      ensures Continues(state.limits, old(View()), Worker(id, env, BadReserving), View(), Worker(id, env, Storing(r)), run)
    {
      ghost var w, limits := Worker(id, env, BadReserving), state.limits;
      assert Ready(View(), w);
      hide Drive, Ready, TotalLength;
      ghost var s0 := View();
      var granted, _ := state.Reserve([PredCalls]);
      if !granted {
        r := Response(Exhausted, 75, state.used, None);
        DriveStep(limits, s0, w, run, View(), Storing(r));
        return;
      }
      ghost var s1 := View();
      DriveStep(limits, s0, w, run, s1, BadHolding);
      r := Response(BadRequest, 2, state.used, None);
      var index := AppendPredRecord(id, [], None, true, ModelError, r.budget);
      ghost var s2 := View();
      DriveStep(limits, s1, w.(pc := BadHolding), run, s2, BadFinishing(index, r));
      FinishPredRecord(index, ModelError, r);
      DriveStep(limits, s2, w.(pc := BadFinishing(index, r)), run, View(), Storing(r));
    }

    /** `_handle`: everything between the look-up of the id and the storing of the response. */
    method Handle(id: string, env: Envelope, p: Process) returns (h: Handled, ghost run: Run)
      requires env.Parsed? && Packages(id, p)
      modifies this`ledger, this`cache, state, store
      ensures Continues(state.limits, old(View()), Worker(id, env, Dispatching), View(), Left(id, env, h), run)
      ensures responses == old(responses)
      ensures Tells(run, p, state.limits, old(View()), id, env, store.policy, store.config)
    {
      hide Packages, WellRun, Reports, Tells, PredLogs, Drive, TotalLength;
      ghost var w, limits, s0 := Worker(id, env, Dispatching), state.limits, View();
      assert Ready(s0, w);
      hide Ready, Counters, CommandName, IsFree;
      run := NOT_RUN;
      if !IsCall(env) { TellsNothing(p, limits, s0, id, env, store.policy, store.config); }
      if env.op.StatusOp? {
        h := Answer(Response(StatusReply, 0, state.used, None));
        DriveStep(limits, s0, w, run, s0, Storing(h.response));
        return;
      }
      if env.op.UnknownOp? {
        h := Answer(Response(UnknownOperation, 2, state.used, None));
        DriveStep(limits, s0, w, run, s0, Storing(h.response));
        return;
      }
      if env.op.BadPredOp? || TotalLength(env.op.args) > MAX_REQUEST_BYTES {
        DriveStep(limits, s0, w, run, s0, BadReserving);
        var r := HandleInvalidArgs(id, env, run);
        return Answer(r), run;
      }
      h, run := HandleCall(id, env, p);
    }

    /** The charged or free call itself. */
    method HandleCall(id: string, env: Envelope, p: Process) returns (h: Handled, ghost run: Run)
      requires IsCall(env) && Packages(id, p)
      modifies this`ledger, this`cache, state, store
      ensures Continues(state.limits, old(View()), Worker(id, env, Dispatching), View(), Left(id, env, h), run)
      ensures Tells(run, p, state.limits, old(View()), id, env, store.policy, store.config)
    {
      hide Packages, WellRun, Reports, Tells, PredLogs, Drive, TotalLength;
      ghost var w, limits, s0 := Worker(id, env, Dispatching), state.limits, View();
      assert Ready(s0, w);
      hide Ready, Counters, CommandName, IsFree;
      var args := env.op.args;
      var command := FindCommandName(args);
      var free := IsFree(args, command);
      var counters := if free then [] else if command == Some("solve") then [PredCalls, SolveCalls] else [PredCalls];
      CountersAre(args);
      if free && args in cache {
        h, run := Answer(cache[args]), NOT_RUN;
        TellsNothing(p, limits, s0, id, env, store.policy, store.config);
        DriveStep(limits, s0, w, run, s0, Storing(h.response));
        return;
      }
      h, run := ReserveCall(id, env, p, command, counters);
      DriveStep(limits, s0, w, run, s0, Reserving);
    }

    /** From the reservation to the finished record. */
    method ReserveCall(id: string, env: Envelope, p: Process, command: Option<string>, counters: seq<Counter>)
      returns (h: Handled, ghost run: Run)
      requires IsCall(env) && counters == Counters(env.op.args) && command == CommandName(env.op.args) && Packages(id, p)
      modifies this`ledger, this`cache, state, store
      ensures Continues(state.limits, old(View()), Worker(id, env, Reserving), View(), Left(id, env, h), run)
      ensures Tells(run, p, state.limits, old(View()), id, env, store.policy, store.config)
    {
      hide Packages, WellRun, Reports, Tells, PredLogs, Drive, TotalLength, Presentable;
      ghost var w, limits, s0 := Worker(id, env, Reserving), state.limits, View();
      assert Ready(s0, w);
      hide Ready, Counters, CommandName, IsFree;
      var args := env.op.args;
      var granted, _ := state.Reserve(counters);
      ghost var s1 := View();
      if counters != [] && !granted {
        run := NOT_RUN;
        TellsNothing(p, limits, s0, id, env, store.policy, store.config);
        DriveStep(limits, s0, w, run, s1, Refused);
        h := Answer(Response(Exhausted, 75, state.used, None));
        var _ := AppendPredRecord(id, args, command, false, BudgetExhausted, h.response.budget);
        DriveStep(limits, s1, w.(pc := Refused), run, View(), Storing(h.response));
        return;
      }
      var index := AppendPredRecord(id, args, command, counters != [], Running, state.used);
      ghost var s2 := View();
      DriveStep(limits, s0, w, SpawnFailed(false), s1, Holding);
      DriveStep(limits, s1, w.(pc := Holding), SpawnFailed(false), s2, Invoking(index));
      h, run := FinishCall(id, env, p, index, counters);
      DriveStep(limits, s0, w, run, s1, Holding);
      DriveStep(limits, s1, w.(pc := Holding), run, s2, Invoking(index));
      TellsAll(run, p, limits, s0, id, env, store.policy, store.config);
    }

    /** The process itself. */
    method Invoke(id: string, args: seq<string>, p: Process) returns (run: Run)
      requires Packages(id, p)
      modifies store
      ensures Reports(run, p, id in old(View()).logs, Presentable(p, id, store.policy, store.config))
      ensures WellRun(run, id, args, store.config)
      ensures View() == Logged(old(View()), id, run) && Delivered(old(View()), id, run) == run
    {
      hide Presentable, Measured, WellPackaged, KeptOut, KeptErr, Cut;
      PredLogsExact(store.logs.Keys, id);
      run := RunPred(store, id, args, p);
      assert WritesLog(run) ==> store.logs.Keys == old(store.logs.Keys) + {PredId(id)};
    }

    /** From the start of the process to the finished record. */
    method FinishCall(id: string, env: Envelope, p: Process, index: nat, counters: seq<Counter>)
      returns (h: Handled, ghost ran: Run)
      requires IsCall(env) && counters == Counters(env.op.args) && Packages(id, p)
      requires Ready(View(), Worker(id, env, Invoking(index)))
      modifies this`ledger, this`cache, state, store
      ensures Continues(state.limits, old(View()), Worker(id, env, Invoking(index)), View(), Left(id, env, h), ran)
      ensures WellRun(ran, id, env.op.args, store.config)
      ensures Reports(ran, p, id in old(View()).logs, Presentable(p, id, store.policy, store.config))
    {
      hide Packages, WellRun, Reports, Tells, PredLogs, Drive, TotalLength, Presentable;
      ghost var w, limits, s0 := Worker(id, env, Invoking(index)), state.limits, View();
      assert index < |ledger| && Releasable(s0.used, counters) by { ReadyHolds(s0, w); }
      hide Ready, Counters, CommandName, IsFree;
      var run := Invoke(id, env.op.args, p);
      ran := run;
      ghost var s := View();
      if run.Escaped? {
        DriveEscapes(limits, s0, w, index, run);
        Abandon(index);
        return Aborted, ran;
      }
      DriveInvokes(limits, s0, w, index, run);
      hide Delivered, Logged;
      if run.SpawnFailed? && counters != [] && !run.tooBig {
        RepeatedNameUnderflows(state.used, counters);
        var raised := state.Release(counters);
        DriveStep(limits, s, w.(pc := Releasing(index)), run, View(), Finishing(index, run));
      }
      var r := Conclude(id, env, run, index, counters);
      h := Answer(r);
    }

    /** Marks the record of an aborted call. The source does nothing here: the record goes on reading "running". */
    method Abandon(index: nat)
      requires index < |ledger|
      modifies this`ledger
      ensures ledger == old(ledger)[index := old(ledger)[index].(outcome := Abandoned)]
    {
      ledger := ledger[index := ledger[index].(outcome := Abandoned)];
    }

    /** From the outcome of the process to the finished record and the cache. */
    method Conclude(id: string, env: Envelope, run: Run, index: nat, counters: seq<Counter>) returns (r: Response)
      requires IsCall(env) && counters == Counters(env.op.args) && index < |ledger| && !run.Escaped?
      modifies this`ledger, this`cache
      ensures Continues(state.limits, old(View()), Worker(id, env, Finishing(index, run)), View(), Worker(id, env, Storing(r)), run)
    {
      ghost var w, limits, s1 := Worker(id, env, Finishing(index, run)), state.limits, View();
      assert Ready(s1, w);
      hide Drive, Ready, TotalLength, Counters, CommandName, IsFree, PredLogs;
      if run.SpawnFailed? {
        r := Response(if run.tooBig then Rejected else GatewayFailure, 2, state.used, None);
        FinishPredRecord(index, if run.tooBig then ModelError else InfrastructureError, r);
        DriveStep(limits, s1, w, run, View(), Storing(r));
        return;
      }
      r := Response(Ran, run.returncode, state.used, Some(run.observation));
      FinishPredRecord(index, ExitOutcome(run.returncode, run.timedOut), r);
      ghost var s2 := View();
      if counters == [] && run.returncode == 0 {
        DriveStep(limits, s1, w, run, s2, Caching(r));
        cache := cache[env.op.args := r];
        DriveStep(limits, s2, w.(pc := Caching(r)), run, View(), Storing(r));
      } else {
        DriveStep(limits, s1, w, run, s2, Storing(r));
      }
    }

    /** The look-up of an id: a stored response for the same payload, or a collision. */
    method LookUp(id: string, env: Envelope, ghost run: Run) returns (r: Option<Response>)
      ensures r.Some? <==> id in responses
      ensures r.Some? ==> Serves(state.limits, View(), Worker(id, env, Arrived), run, View(), r.value)
      ensures r.None? ==> Continues(state.limits, View(), Worker(id, env, Arrived), View(), Worker(id, env, Dispatching), run)
    {
      ghost var w, limits, s0 := Worker(id, env, Arrived), state.limits, View();
      assert Ready(s0, w);
      hide Ready, TotalLength, PredLogs, Drive;
      if id in responses {
        var found := if responses[id].fingerprint != env then Response(Collision, 2, state.used, None) else responses[id].response;
        DriveStep(limits, s0, w, run, s0, Done(found));
        DriveDone(limits, s0, w.(pc := Done(found)), run);
        return Some(found);
      }
      DriveStep(limits, s0, w, run, s0, Dispatching);
      return None;
    }

    /** `_handle_invalid_envelope`. */
    method HandleInvalidEnvelope(id: string, env: Envelope, ghost run: Run) returns (r: Response)
      requires env.Malformed?
      modifies this`ledger, this`responses, state
      ensures Serves(state.limits, old(View()), Worker(id, env, Arrived), run, View(), r)
    {
      hide Ready, TotalLength, PredLogs, Drive;
      ghost var w, limits, s0 := Worker(id, env, Dispatching), state.limits, View();
      var found := LookUp(id, env, run);
      if found.Some? { return found.value; }
      DriveStep(limits, s0, w, run, s0, BadReserving);
      r := HandleInvalidArgs(id, env, run);
      DriveStores(limits, View(), w.(pc := Storing(r)), run);
      responses := responses[id := Stored(env, r)];
    }

    /** `_process_request_file`: one request file, start to end, has exactly the effect of its worker run without
        interruption on what its process and the observation store deliver. An exception that escapes the
        handling of a call sends the request through the handling of a wrong envelope. */
    method Process(id: string, env: Envelope, p: Process) returns (r: Response, ghost run: Run)
      requires Packages(id, p)
      modifies this, state, store
      ensures Serves(state.limits, old(View()), Worker(id, env, Arrived), run, View(), r)
      ensures Tells(run, p, state.limits, old(View()), id, env, store.policy, store.config)
    {
      hide Packages, WellRun, Reports, Tells, PredLogs, Drive, TotalLength, Ready;
      ghost var limits, s0 := state.limits, View();
      run := NOT_RUN;
      if id in responses || env.Malformed? { TellsNothing(p, limits, s0, id, env, store.policy, store.config); }
      if env.Malformed? {
        r := HandleInvalidEnvelope(id, env, run);
        return;
      }
      var found := LookUp(id, env, run);
      if found.Some? { return found.value, run; }
      var h;
      h, run := Handle(id, env, p);
      Dispatches(limits, s0, id, env, run);
      if h.Aborted? {
        r := HandleInvalidEnvelope(id, Malformed(env.text), run);
      } else {
        r := h.response;
        DriveStores(limits, View(), Worker(id, env, Storing(r)), run);
        responses := responses[id := Stored(env, r)];
      }
    }
  }

  lemma Dispatches(limits: Usage, s: Shared, id: string, env: Envelope, run: Run)
    requires id !in s.responses
    ensures Continues(limits, s, Worker(id, env, Arrived), s, Worker(id, env, Dispatching), run)
  {
    var w := Worker(id, env, Arrived);
    assert Ready(s, w);
    hide Ready, Drive, TotalLength;
    DriveStep(limits, s, w, run, s, Dispatching);
  }

  lemma CountersAre(args: seq<string>)
    ensures IsFree(args, CommandName(args)) <==> Counters(args) == []
    ensures !IsFree(args, CommandName(args)) ==>
      Counters(args) == if CommandName(args) == Some("solve") then [PredCalls, SolveCalls] else [PredCalls]
  {
    hide CommandName, IsFree;
  }

  lemma ReadyHolds(s: Shared, w: Worker)
    requires Ready(s, w) && w.pc.Invoking? && IsCall(w.env)
    ensures w.pc.index < |s.ledger| && Releasable(s.used, Counters(w.env.op.args))
  {
  }
}
