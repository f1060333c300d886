/** The pred gateway. Requests are handled by a pool of workers that take locks only around small
    sections, so the model is a transition system: one step of one worker is one critical section (or the
    run of one process), and any worker may step at any time. */
module Gateway {
  import opened Text
  import opened Budget
  import opened CommandLine
  import opened Observations

  // ---------------------------------------------------------------- requests, responses, records

  datatype Op =
    | StatusOp
    | UnknownOp
    | PredOp(args: seq<string>)
    | BadPredOp                     // arguments that are not a list of strings

  /** The bytes of a request file, and what parsing them gives. The text stands for the fingerprint. */
  datatype Envelope = Malformed(text: string) | Parsed(text: string, op: Op)

  const MAX_REQUEST_BYTES: nat := 2 * 1024 * 1024

  function TotalLength(args: seq<string>): nat {
    if args == [] then 0 else |args[0]| + TotalLength(args[1..])
  }

  /** A well-formed pred call. */
  predicate IsCall(env: Envelope) {
    env.Parsed? && env.op.PredOp? && TotalLength(env.op.args) <= MAX_REQUEST_BYTES
  }

  /** A request that is charged for being wrong. */
  predicate IsBad(env: Envelope) {
    env.Malformed? || env.op.BadPredOp? || (env.op.PredOp? && !IsCall(env))
  }

  datatype ResponseKind =
    StatusReply | UnknownOperation | Collision | Exhausted | BadRequest | Rejected | GatewayFailure | Ran

  datatype Response = Response(kind: ResponseKind, returncode: int, budget: Usage, observation: Option<Metadata>)

  datatype PredRecord = PredRecord(
    sequence: nat, requestId: string, args: seq<string>, command: Option<string>, charged: bool,
    outcome: Outcome, budget: Usage, returncode: Option<int>, observation: Option<Metadata>)

  datatype Stored = Stored(fingerprint: Envelope, response: Response)

  /** Everything the workers share; `logs` are the ids whose observation log exists. */
  datatype Shared = Shared(
    used: Usage, ledger: seq<PredRecord>, responses: map<string, Stored>, cache: map<seq<string>, Response>,
    logs: set<string>)

  /** What the call of the process did: it ran and was packaged, or an `OSError` was raised on the way (with or
      without E2BIG), or another exception was, before the process could start or, once its log was written, by
      the renderer. */
  datatype Run =
    | Exited(returncode: int, timedOut: bool, observation: Metadata)
    | SpawnFailed(tooBig: bool)
    | Escaped(logged: bool)

  /** A run as the capped process runner and the observation store deliver it. */
  predicate WellRun(run: Run, id: string, args: seq<string>, config: Config) {
    run.Exited? ==>
      && (run.timedOut ==> run.returncode == 124)
      && WellPackaged(run.observation, PredId(id), PredKind, PredCommand(args), run.returncode, run.timedOut, config)
  }

  /** A log is created exclusively: the second observation of an id raises `FileExistsError`, an `OSError`. */
  predicate WritesLog(run: Run) { run.Exited? || (run.Escaped? && run.logged) }

  function Delivered(s: Shared, id: string, run: Run): Run {
    if WritesLog(run) && id in s.logs then SpawnFailed(false) else run
  }

  function Logged(s: Shared, id: string, run: Run): Shared {
    if WritesLog(run) then s.(logs := s.logs + {id}) else s
  }

  function RunOutcome(run: Run): Outcome {
    match run
    case Exited(returncode, timedOut, _) => ExitOutcome(returncode, timedOut)
    case SpawnFailed(tooBig) => if tooBig then ModelError else InfrastructureError
    case Escaped(_) => Abandoned
  }

  /** An escaped run never gets a response of its own: its request starts again as a wrong one. */
  function RunResponse(run: Run, seen: Usage): Response {
    match run
    case Exited(returncode, _, observation) => Response(Ran, returncode, seen, Some(observation))
    case SpawnFailed(tooBig) => Response(if tooBig then Rejected else GatewayFailure, 2, seen, None)
    case Escaped(_) => Response(BadRequest, 2, seen, None)
  }

  // ---------------------------------------------------------------- one worker

  /** Where a worker is. Each constructor names what it is about to do. */
  datatype Pc =
    | Arrived                                   // look the request id up
    | Dispatching
    | Reserving
    | Refused                                   // append the budget_exhausted record
    | Holding                                   // reservation granted; append the running record
    | Invoking(index: nat)                      // run the process
    | Releasing(index: nat)                     // give the reservation back
    | Finishing(index: nat, run: Run)           // finish the record
    | BadReserving
    | BadHolding
    | BadFinishing(index: nat, response: Response)
    | Caching(response: Response)
    | Storing(response: Response)
    | Done(response: Response)

  datatype Worker = Worker(id: string, env: Envelope, pc: Pc) {
    predicate Charged() { IsCall(env) && Counters(env.op.args) != [] }
    predicate Solves() { IsCall(env) && Counters(env.op.args) == [PredCalls, SolveCalls] }
    predicate NeedsCall() {
      pc.Reserving? || pc.Refused? || pc.Holding? || pc.Invoking? || pc.Releasing? || pc.Finishing? || pc.Caching?
    }
    predicate Owns() { pc.Invoking? || pc.Releasing? || pc.Finishing? || pc.BadFinishing? }
    function Index(): nat requires Owns() { pc.index }
  }

  /** What a step may depend on besides the shared state: the status snapshot the code takes in a
      critical section of its own (so possibly stale), and the outcome of the process. */
  datatype Choice = Choice(seen: Usage, run: Run)

  function CallRecord(s: Shared, w: Worker, charged: bool, outcome: Outcome, seen: Usage): PredRecord
    requires IsCall(w.env)
  {
    PredRecord(|s.ledger| + 1, w.id, w.env.op.args, CommandName(w.env.op.args), charged, outcome, seen, None, None)
  }

  /** The refusal of a reservation. */
  function Refusal(seen: Usage): Response { Response(Exhausted, 75, seen, None) }

  function FinishedRecord(r: PredRecord, outcome: Outcome, response: Response): PredRecord {
    r.(outcome := outcome, returncode := Some(response.returncode), budget := response.budget,
       observation := if response.observation.Some? then response.observation else r.observation)
  }

  /** A step is defined unless the worker is done; an owner's record exists. */
  predicate CanStep(s: Shared, w: Worker) {
    && !w.pc.Done?
    && (w.Owns() ==> w.Index() < |s.ledger|)
    && (w.NeedsCall() ==> IsCall(w.env))
    && (w.pc.Releasing? ==> Releasable(s.used, Counters(w.env.op.args)))
  }

  /** The process call of this step raises something other than an `OSError`. */
  predicate Escapes(s: Shared, w: Worker, c: Choice) { w.pc.Invoking? && Delivered(s, w.id, c.run).Escaped? }

  /** What the worker works on after the step: once an exception escaped, the request counts as a wrong envelope,
      which has a fingerprint of its own, and is looked up again from the start. */
  function Reread(s: Shared, w: Worker, c: Choice): Envelope {
    if Escapes(s, w, c) then Malformed(w.env.text) else w.env
  }

  /** One atomic step: the new shared state and where the worker is afterwards. */
  function Advance(limits: Usage, s: Shared, w: Worker, c: Choice): (Shared, Pc)
    requires CanStep(s, w)
  {
    match w.pc
    case Arrived =>
      if w.id !in s.responses then (s, Dispatching)
      else if s.responses[w.id].fingerprint != w.env then (s, Pc.Done(Response(Collision, 2, c.seen, None)))
      else (s, Pc.Done(s.responses[w.id].response))
    case Dispatching =>
      if IsBad(w.env) then (s, BadReserving)
      else if w.env.op.StatusOp? then (s, Storing(Response(StatusReply, 0, c.seen, None)))
      else if w.env.op.UnknownOp? then (s, Storing(Response(UnknownOperation, 2, c.seen, None)))
      else if Counters(w.env.op.args) == [] && w.env.op.args in s.cache then (s, Storing(s.cache[w.env.op.args]))
      else (s, Reserving)
    case Reserving =>
      var names := Counters(w.env.op.args);
      if Available(s.used, limits, names) then (s.(used := Charge(s.used, names, |names|)), Holding) else (s, Refused)
    case Refused =>
      (s.(ledger := s.ledger + [CallRecord(s, w, false, BudgetExhausted, c.seen)]), Storing(Refusal(c.seen)))
    case Holding =>
      (s.(ledger := s.ledger + [CallRecord(s, w, w.Charged(), Running, c.seen)]), Invoking(|s.ledger|))
    case Invoking(i) =>
      var run := Delivered(s, w.id, c.run);
      if run.Escaped? then
        (Logged(s, w.id, run).(ledger := s.ledger[i := s.ledger[i].(outcome := Abandoned)]), Arrived)
      else
        (Logged(s, w.id, run), if w.Charged() && run.SpawnFailed? && !run.tooBig then Releasing(i) else Finishing(i, run))
    case Releasing(i) =>
      var names := Counters(w.env.op.args);
      (s.(used := Discharge(s.used, names, |names|)), Finishing(i, SpawnFailed(false)))
    case Finishing(i, run) =>
      var response := RunResponse(run, c.seen);
      (s.(ledger := s.ledger[i := FinishedRecord(s.ledger[i], RunOutcome(run), response)]),
       if Counters(w.env.op.args) == [] && run.Exited? && run.returncode == 0 then Caching(response) else Storing(response))
    case BadReserving =>
      if Available(s.used, limits, [PredCalls]) then (s.(used := Charge(s.used, [PredCalls], 1)), BadHolding)
      else (s, Storing(Refusal(c.seen)))
    case BadHolding =>
      var response := Response(BadRequest, 2, c.seen, None);
      (s.(ledger := s.ledger + [PredRecord(|s.ledger| + 1, w.id, [], None, true, ModelError, c.seen, None, None)]),
       BadFinishing(|s.ledger|, response))
    case BadFinishing(i, response) =>
      (s.(ledger := s.ledger[i := FinishedRecord(s.ledger[i], ModelError, response)]), Storing(response))
    case Caching(response) =>
      (s.(cache := s.cache[w.env.op.args := response]), Storing(response))
    case Storing(response) =>
      (s.(responses := s.responses[w.id := Stored(w.env, response)]), Pc.Done(response))
  }

  /** The worker after the step. */
  function Moved(s: Shared, w: Worker, c: Choice, pc: Pc): Worker { w.(pc := pc, env := Reread(s, w, c)) }

  // ---------------------------------------------------------------- the system

  datatype System = System(limits: Usage, config: Config, shared: Shared, workers: seq<Worker>)

  datatype Event =
    | Claim(id: string, env: Envelope)                   // a request file is taken from the inbox
    | Work(worker: nat, choice: Choice)
    | Elsewhere(counter: Counter)                        // a model or shell reservation on the same counters

  function Initial(limits: Usage, config: Config): System {
    System(limits, config, Shared(NO_USE, [], map[], map[], {}), [])
  }

  predicate Enabled(sys: System, e: Event) {
    match e
    case Claim(id, env) => IsRequestId(id)
    case Work(i, choice) =>
      && i < |sys.workers| && CanStep(sys.shared, sys.workers[i])
      && (sys.workers[i].pc.Invoking? ==>
            WellRun(choice.run, sys.workers[i].id, sys.workers[i].env.op.args, sys.config))
    case Elsewhere(c) => (c.ModelGenerations? || c.ShellActions?) && Available(sys.shared.used, sys.limits, [c])
  }

  function Apply(sys: System, e: Event): System
    requires Enabled(sys, e)
  {
    match e
    case Claim(id, env) => sys.(workers := sys.workers + [Worker(id, env, Arrived)])
    case Work(i, choice) =>
      var (shared, pc) := Advance(sys.limits, sys.shared, sys.workers[i], choice);
      sys.(shared := shared, workers := sys.workers[i := Moved(sys.shared, sys.workers[i], choice, pc)])
    case Elsewhere(c) => sys.(shared := sys.shared.(used := Charge(sys.shared.used, [c], 1)))
  }

  /** Every event is possible when it happens. */
  predicate IsRun(sys: System, events: seq<Event>)
    decreases |events|
  {
    events == [] || (Enabled(sys, events[0]) && IsRun(Apply(sys, events[0]), events[1..]))
  }

  function After(sys: System, events: seq<Event>): System
    requires IsRun(sys, events)
    decreases |events|
  {
    if events == [] then sys else After(Apply(sys, events[0]), events[1..])
  }
}
