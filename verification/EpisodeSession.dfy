/** The episode session as an object: admission of shell actions, model generations, and attaching each
    observation to the shell event it belongs to. */
module EpisodeSession {
  import opened Text
  import opened Budget
  import opened Capture
  import opened Lines
  import opened Preview
  import opened Observations
  import opened Processes
  import opened Episode

  /** What running an admitted command did. */
  datatype ShellRun =
    | Finished(code: int, timedOut: bool, chunks: seq<string>)
    | Broken(output: string)          // an exception without a packaged observation

  function Shell(run: ShellRun): Process
    requires run.Finished?
  {
    Ended(run.code, run.timedOut, run.chunks, [])
  }

  /** The length of what there is to package can be written with so many digits. */
  predicate Sized(run: ShellRun) {
    if run.Finished? then Measured(Shell(run)) else |Decimal(|run.output|)| <= 60
  }

  /** The metadata reports what the command did if its output was packaged; if it was not, -1 and nothing, and if
      there was none because an exception was raised, -1 and what the exception had. */
  predicate ReportsShell(m: Metadata, run: ShellRun, packed: bool) {
    if run.Finished? && packed then
      && m.returncode == Code(Shell(run)) && m.timedOut == run.timedOut
      && m.originalChars == |OutStream(Shell(run))| && m.originalLines == LineCount(OutStream(Shell(run)))
    else
      && m.returncode == -1 && !m.timedOut
      && m.originalChars == if run.Broken? then |run.output| else 0
  }

  /** The answer the agent gets. */
  datatype ShellAnswer = Answered(output: string, returncode: int) | PackagingRaised

  function PhysicalLines(output: string): nat {
    Newlines(output) + if output != "" && !EndsNewline(output) then 1 else 0
  }

  /** The lines of a note are counted as those of a stream. */
  lemma PhysicalLinesAre(output: string)
    ensures PhysicalLines(output) == LineCount(output)
  {
    LineCountFromCounters(output);
  }

  const REFUSAL := "shell action budget exhausted\n"

  /** A text of the harness is packaged under the number `n`. */
  ghost predicate NotePacks(output: string, code: int, n: nat, logs: set<string>, policy: Policy, config: Config) {
    Packs(policy, config, logs, ShellId(n), code, false, output, "", |output|, PhysicalLines(output),
          |RawLog(output, "")| > config.archiveChars)
  }

  function NotePreview(output: string, code: int, n: nat, policy: Policy, config: Config): string {
    FullPreview(policy, config, ShellId(n), code, false, output, "", |output|, PhysicalLines(output),
                |RawLog(output, "")| > config.archiveChars)
  }

  /** The output of an admitted command is packaged, as the observation after the `n`-th. */
  ghost predicate RunPacks(run: ShellRun, n: nat, logs: set<string>, policy: Policy, config: Config) {
    run.Finished? && AgentPacks(Shell(run), n + 1, logs, policy, config)
  }

  /** What an admitted command is answered, if it is: what it printed if that can be packaged, under the number that
      comes next, and otherwise a note, under the next number or, if the attempt took that one, the one after it. */
  ghost predicate RunAnswer(r: ShellAnswer, run: ShellRun, n: nat, logs: set<string>, policy: Policy, config: Config) {
    if RunPacks(run, n, logs, policy, config) then
      r == Answered(AgentPreview(Shell(run), n + 1, policy, config), if run.timedOut then -1 else run.code)
    else
      var output, k := if run.Broken? then run.output else "", if run.Broken? then n + 1 else n + 2;
      r == if NotePacks(output, -1, k, logs, policy, config) then Answered(NotePreview(output, -1, k, policy, config), -1)
           else PackagingRaised
  }

  ghost predicate RefusalAnswer(r: ShellAnswer, n: nat, logs: set<string>, policy: Policy, config: Config) {
    r == if NotePacks(REFUSAL, 75, n + 1, logs, policy, config) then Answered(NotePreview(REFUSAL, 75, n + 1, policy, config), 75)
         else PackagingRaised
  }

  /** The steps of a whole shell action; one whose packaging raised stays open. */
  function ShellSteps(command: string, seen: Usage, number: nat, m: Option<Metadata>): seq<Action> {
    [BeginShell(command, seen)] + if m.Some? then [EndShell(number, m.value)] else []
  }

  class EvidenceBudgetSession {
    const state: EvidenceBudgetState
    const store: ObservationStore
    var modelEvents: seq<ModelEvent>
    var shellEvents: seq<ShellEvent>
    var observations: seq<Metadata>

    constructor (state: EvidenceBudgetState, store: ObservationStore)
      ensures this.state == state && this.store == store
      ensures modelEvents == [] && shellEvents == [] && observations == []
    {
      this.state, this.store := state, store;
      modelEvents, shellEvents, observations := [], [], [];
    }

    /** The session is at the given state of the episode's transition system. */
    ghost predicate Tracks(ep: Episode)
      reads this, state, store
    {
      && modelEvents == ep.models && shellEvents == ep.shells && observations == ep.observations
      && state.used == ep.gateway.shared.used && state.limits == ep.gateway.limits
      && store.config == ep.gateway.config && ep.numbered <= store.sequence
    }

    /** `admit_shell_action`. */
    method AdmitShellAction(command: string) returns (admitted: bool)
      modifies this`shellEvents, state
      ensures (state.used, shellEvents) == Admit(state.limits, old(state.used), old(shellEvents), command, state.used)
      ensures admitted <==> Available(old(state.used), state.limits, [ShellActions])
      ensures |shellEvents| == |old(shellEvents)| + 1 && shellEvents[|shellEvents| - 1].charged == admitted
    {
      var granted, _ := state.Reserve([ShellActions]);
      shellEvents := shellEvents + [ShellEvent(|shellEvents| + 1, command, granted,
                                               if granted then Admitted else BudgetExhausted, state.used, None)];
      return granted;
    }

    /** `record_model_generation`. */
    method RecordModelGeneration(outcome: string, infrastructure: bool, ghost ep: Episode) returns (admitted: bool)
      requires Tracks(ep)
      modifies this`modelEvents, state
      ensures Tracks(Step(ep, Generation(outcome, infrastructure, state.used)))
      ensures (state.used, modelEvents)
        == Generate(state.limits, old(state.used), old(modelEvents), outcome, infrastructure, state.used)
      ensures admitted <==> infrastructure || Available(old(state.used), state.limits, [ModelGenerations])
    {
      var granted := false;
      if !infrastructure {
        var reserved, _ := state.Reserve([ModelGenerations]);
        granted := reserved;
      }
      admitted := infrastructure || granted;
      modelEvents := modelEvents + [ModelEvent(|modelEvents| + 1, granted, if admitted then outcome else "budget_exhausted",
                                               state.used)];
    }

    /** `record_shell_observation`: the search runs backwards over the events. */
    method RecordShellObservation(command: string, metadata: Option<Metadata>)
      modifies this`shellEvents, this`observations
      ensures metadata.None? ==> shellEvents == old(shellEvents) && observations == old(observations)
      ensures metadata.Some? ==>
        observations == old(observations) + [metadata.value]
        && shellEvents == Attach(old(shellEvents), command, metadata.value)
    {
      if metadata.None? { return; }
      var m := metadata.value;
      observations := observations + [m];
      var i := |shellEvents|;
      while i > 0
        invariant 0 <= i <= |shellEvents| && shellEvents == old(shellEvents)
        invariant LatestOpen(shellEvents, command, |shellEvents|) == LatestOpen(shellEvents, command, i)
      {
        i := i - 1;
        var event := shellEvents[i];
        if event.command == command && event.observationId.None? {
          event := event.(observationId := Some(m.observationId));
          if event.charged { event := event.(outcome := ExitOutcome(m.returncode, m.timedOut)); }
          shellEvents := shellEvents[i := event];
          return;
        }
      }
    }

    /** `package_shell_result`. */
    method PackageShellResult(command: string, output: string, returncode: int, ghost base: seq<ShellEvent>, ghost e: ShellEvent)
      returns (r: ShellAnswer, ghost m: Option<Metadata>)
      requires JsonNonEmpty(store.policy) && ValidConfig(store.config) && |Decimal(|output|)| <= 60
      requires shellEvents == base + [e] && Open(e, command)
      modifies this`shellEvents, this`observations, store
      ensures store.sequence == old(store.sequence) + 1
      ensures m.Some? <==> r.Answered?
      ensures r == if NotePacks(output, returncode, store.sequence, old(store.logs).Keys, store.policy, store.config)
                   then Answered(NotePreview(output, returncode, store.sequence, store.policy, store.config), returncode)
                   else PackagingRaised
      ensures m.Some? ==> m.value.originalChars == |output|
      ensures m.Some? ==> shellEvents == base + [Observe(e, m.value)] && observations == old(observations) + [m.value]
      ensures m.None? ==> shellEvents == old(shellEvents) && observations == old(observations)
      ensures r.Answered? ==> r.returncode == returncode && |r.output| == m.value.previewChars <= store.config.previewChars
      ensures m.Some? ==> store.sequence < 10000 && m.value.returncode == returncode && !m.value.timedOut
      ensures m.Some? ==> WellPackaged(m.value, ShellId(store.sequence), ShellKind, command, returncode, false, store.config)
    {
      hide Renders, Body, RawLog, Header, BoundedText, IsObservationId, ShellId, Padded, Decimal, Newlines, LogPath, FullPreview, Packs,
           PhysicalLines;
      HarnessTextFits(output, store.config);
      var packaged, _, _ := store.Package(ShellKind, command, returncode, false, output, "", |output|, PhysicalLines(output),
                                          false, None);
      ShellIdValid(store.sequence);
      if !packaged.Packaged? { return PackagingRaised, None; }
      RecordShellObservation(command, Some(packaged.metadata));
      m := Some(packaged.metadata);
      AttachLast(base, e, command, packaged.metadata);
      r := Answered(packaged.preview, returncode);
    }

    /** `execute`: admit, run, package, record. Whatever happens, the action leaves exactly one new shell event,
        and unless packaging itself raised, that event carries the observation of its own result: 75 if it was
        refused, 124 if it ran into its time limit, -1 if its output could not be packaged. The whole action
        is two steps of the episode's transition system, or the first of them if packaging raised. */
    method Execute(command: string, run: ShellRun, ghost ep: Episode) returns (r: ShellAnswer, ghost m: Option<Metadata>)
      requires JsonNonEmpty(store.policy) && ValidConfig(store.config) && Sized(run)
      requires Tracks(ep) && !ep.pending
      modifies this`shellEvents, this`observations, state, store
      ensures m.Some? <==> r.Answered?
      ensures r.Answered? ==> |r.output| == m.value.previewChars
      ensures r.Answered? ==> r.returncode == if m.value.timedOut then -1 else m.value.returncode
      ensures if Available(old(state.used), state.limits, [ShellActions])
              then RunAnswer(r, run, old(store.sequence), old(store.logs).Keys, store.policy, store.config)
              else RefusalAnswer(r, old(store.sequence), old(store.logs).Keys, store.policy, store.config)
      ensures m.Some? && Available(old(state.used), state.limits, [ShellActions]) ==>
        ReportsShell(m.value, run, RunPacks(run, old(store.sequence), old(store.logs).Keys, store.policy, store.config))
      ensures (state.used, shellEvents) ==
        var (used, shells) := Admit(state.limits, old(state.used), old(shellEvents), command, state.used);
        (used, if m.Some? then old(shellEvents) + [Observe(shells[|old(shellEvents)|], m.value)] else shells)
      ensures observations == old(observations) + if m.Some? then [m.value] else []
      ensures m.Some? ==>
        ShellResult(Admit(state.limits, old(state.used), old(shellEvents), command, state.used).1[|old(shellEvents)|],
                    store.sequence, m.value, store.config)
      ensures IsEpisodeRun(ep, ShellSteps(command, state.used, store.sequence, m))
      ensures Tracks(Final(ep, ShellSteps(command, state.used, store.sequence, m)))
    {
      hide Sized, Decimal, IsEpisodeRun, Final, ShellId, LogPath, WellPackaged, ReportsShell, Attach, NotePacks, NotePreview, RunPacks,
           RunAnswer;
      ghost var base := shellEvents;
      var admitted := AdmitShellAction(command);
      ghost var e := shellEvents[|base|];
      if !admitted {
        RefusalIsShort();
        r, m := PackageShellResult(command, REFUSAL, 75, base, e);
      } else {
        r, m := RunAdmitted(command, run, base, e);
      }
      if m.Some? {
        MakesResult(e, store.sequence, m.value, store.config);
        ShellActionIsTwoSteps(ep, command, state.used, store.sequence, m.value);
        assert ShellSteps(command, state.used, store.sequence, m)
          == [BeginShell(command, state.used), EndShell(store.sequence, m.value)];
      } else {
        ShellActionIsOneStep(ep, command, state.used);
        assert ShellSteps(command, state.used, store.sequence, m) == [BeginShell(command, state.used)];
      }
    }

    /** The part of `execute` after the admission. */
    method RunAdmitted(command: string, run: ShellRun, ghost base: seq<ShellEvent>, ghost e: ShellEvent)
      returns (r: ShellAnswer, ghost m: Option<Metadata>)
      requires JsonNonEmpty(store.policy) && ValidConfig(store.config) && Sized(run)
      requires shellEvents == base + [e] && Open(e, command)
      modifies this`shellEvents, this`observations, store
      ensures store.sequence > old(store.sequence)
      ensures m.Some? <==> r.Answered?
      ensures RunAnswer(r, run, old(store.sequence), old(store.logs).Keys, store.policy, store.config)
      ensures m.Some? ==> shellEvents == base + [Observe(e, m.value)] && observations == old(observations) + [m.value]
      ensures m.None? ==> shellEvents == old(shellEvents) && observations == old(observations)
      ensures m.Some? ==> r.returncode == (if m.value.timedOut then -1 else m.value.returncode) && |r.output| == m.value.previewChars
      ensures m.Some? ==> store.sequence < 10000 && (m.value.timedOut ==> m.value.returncode == 124)
      ensures m.Some? ==>
        ReportsShell(m.value, run, RunPacks(run, old(store.sequence), old(store.logs).Keys, store.policy, store.config))
      ensures m.Some? ==> WellPackaged(m.value, ShellId(store.sequence), ShellKind, command, m.value.returncode, m.value.timedOut,
                                       store.config)
    {
      hide ShellId, LogPath, OutStream, LineCount, Decimal, CapturedText, NotePacks, NotePreview, AgentPacks, AgentPreview;
      EmptyIsShort();
      if run.Broken? {
        r, m := PackageShellResult(command, run.output, -1, base, e);
        return;
      }
      var packaged := RunAsAgent(store, command, Shell(run));
      if !packaged.Packaged? {
        NextIdIsFree("", -1, store.sequence + 1, old(store.logs).Keys, store.logs.Keys, store.policy, store.config);
        r, m := PackageShellResult(command, "", -1, base, e);
        return;
      }
      RecordShellObservation(command, Some(packaged.metadata));
      m := Some(packaged.metadata);
      AttachLast(base, e, command, packaged.metadata);
      r := Answered(packaged.preview, if run.timedOut then -1 else run.code);
    }
  }

  /** The log that a failed attempt may have left does not stand in the way of the note after it. */
  lemma NextIdIsFree(output: string, code: int, n: nat, before: set<string>, after: set<string>, policy: Policy, config: Config)
    requires n > 0 && before <= after <= before + {ShellId(n - 1)}
    ensures NotePacks(output, code, n, after, policy, config) <==> NotePacks(output, code, n, before, policy, config)
  {
    hide Renders, RawLog, Header, ShellId, PhysicalLines, IsObservationId;
    if ShellId(n) == ShellId(n - 1) { ShellIdInjective(n, n - 1); }
  }

  lemma RefusalIsShort()
    ensures |Decimal(|REFUSAL|)| <= 60
  {
    DecimalAtMost(|REFUSAL|, 2);
  }

  lemma EmptyIsShort()
    ensures |Decimal(|""|)| <= 60
  {
    DecimalAtMost(0, 1);
  }

  lemma MakesResult(e: ShellEvent, number: nat, m: Metadata, config: Config)
    requires number < 10000 && (m.timedOut ==> m.returncode == 124) && (!e.charged ==> m.returncode == 75 && !m.timedOut)
    requires WellPackaged(m, ShellId(number), ShellKind, e.command, m.returncode, m.timedOut, config)
    ensures ShellResult(e, number, m, config)
  {
    hide ShellId, WellPackaged;
  }

  /** An open event at the end is the one that gets the observation. */
  lemma AttachLast(base: seq<ShellEvent>, e: ShellEvent, command: string, m: Metadata)
    requires Open(e, command)
    ensures Attach(base + [e], command, m) == base + [Observe(e, m)]
  {
    assert LatestOpen(base + [e], command, |base| + 1) == |base|;
  }

  /** A shell action whose packaging raised. */
  lemma ShellActionIsOneStep(ep: Episode, command: string, seen: Usage)
    requires !ep.pending
    ensures var actions := [BeginShell(command, seen)];
      IsEpisodeRun(ep, actions) && Final(ep, actions) == Step(ep, actions[0])
  {
    hide Step;
    var actions := [BeginShell(command, seen)];
    FinalNothing(Step(ep, actions[0]));
    assert actions[1..] == [];
    assert IsEpisodeRun(ep, actions);
    FinalUnfolds(ep, actions);
  }

  /** A whole shell action is two steps of the episode and leaves its own observation on its own event. */
  lemma ShellActionIsTwoSteps(ep: Episode, command: string, seen: Usage, number: nat, m: Metadata)
    requires !ep.pending && number > ep.numbered
    requires var e := Admit(ep.gateway.limits, ep.gateway.shared.used, ep.shells, command, seen).1[|ep.shells|];
      ShellResult(e, number, m, ep.gateway.config)
    ensures var actions := [BeginShell(command, seen), EndShell(number, m)];
      var (used, shells) := Admit(ep.gateway.limits, ep.gateway.shared.used, ep.shells, command, seen);
      && IsEpisodeRun(ep, actions)
      && Final(ep, actions).shells == ep.shells + [Observe(shells[|ep.shells|], m)]
      && Final(ep, actions).observations == ep.observations + [m]
      && Final(ep, actions).gateway == ep.gateway.(shared := ep.gateway.shared.(used := used))
      && Final(ep, actions).models == ep.models && Final(ep, actions).numbered == number && !Final(ep, actions).pending
  {
    hide ShellId, WellPackaged, LatestOpen;
    var actions := [BeginShell(command, seen), EndShell(number, m)];
    var e := Admit(ep.gateway.limits, ep.gateway.shared.used, ep.shells, command, seen).1[|ep.shells|];
    assert m.command == command && Open(e, command) by { ResultCommand(e, number, m, ep.gateway.config); }
    AttachLast(ep.shells, e, command, m);
    var mid := Step(ep, actions[0]);
    assert Possible(mid, actions[1]);
    FinalNothing(Step(mid, actions[1]));
    assert [actions[1]][1..] == [];
    assert IsEpisodeRun(mid, [actions[1]]);
    FinalUnfolds(mid, [actions[1]]);
    assert actions[1..] == [actions[1]];
  }

  lemma ResultCommand(e: ShellEvent, number: nat, m: Metadata, config: Config)
    requires ShellResult(e, number, m, config)
    ensures m.command == e.command
  {
  }
}
