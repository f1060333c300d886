/** The triage phase: a source-only session that freezes one shortlist. */
module Triage {
  import opened Text
  import opened Budget
  import opened Counting
  import opened Json
  import opened Lines
  import opened Preview
  import opened Observations
  import opened Gateway
  import opened Processes
  import opened Episode
  import opened EpisodeSession

  datatype Entry = Entry(rule: string, hypothesis: string)

  datatype TriageEvent = ModelStep(model: ModelEvent) | ShellStep(shell: ShellEvent) | Commit(rules: seq<string>)

  /** What a shortlist must satisfy. */
  datatype Demands = Demands(inventory: seq<string>, size: nat, hypothesisChars: nat)

  // ---------------------------------------------------------------- reading a shortlist

  /** One item of the payload; `None` where the source raises `ValueError`. */
  function ReadEntry(d: Demands, item: Value): Option<Entry> {
    if !item.Str? && !item.Obj? then None
    else
      var rule := if item.Str? then item else Get(item.fields, KRule);
      var hypothesis := if item.Str? then Str("") else GetOr(item.fields, KHypothesis, Str(""));
      if rule.Str? && rule.s in d.inventory && hypothesis.Str? && |hypothesis.s| <= d.hypothesisChars
      then Some(Entry(rule.s, hypothesis.s)) else None
  }

  predicate DistinctRules(entries: seq<Entry>) {
    forall i, j :: 0 <= i < j < |entries| ==> entries[i].rule != entries[j].rule
  }

  /** A shortlist the benchmark can use. */
  predicate GoodShortlist(d: Demands, entries: seq<Entry>) {
    && |entries| == d.size && DistinctRules(entries)
    && forall k :: 0 <= k < |entries| ==> entries[k].rule in d.inventory && |entries[k].hypothesis| <= d.hypothesisChars
  }

  /** `entries` is what the payload says. */
  predicate Reads(d: Demands, payload: Value, entries: seq<Entry>) {
    && payload.List? && |payload.items| == |entries|
    && forall k :: 0 <= k < |entries| ==> ReadEntry(d, payload.items[k]) == Some(entries[k])
  }

  /** An item names its rule, alone or as an object with an optional hypothesis; nothing else is an entry. */
  lemma EntryIsRead(d: Demands, item: Value, rule: string, hypothesis: string)
    ensures ReadEntry(d, item) == Some(Entry(rule, hypothesis)) <==>
      && rule in d.inventory && |hypothesis| <= d.hypothesisChars
      && ((item == Str(rule) && hypothesis == "")
          || (item.Obj? && KRule in item.fields && item.fields[KRule] == Str(rule)
              && (if KHypothesis in item.fields then item.fields[KHypothesis] == Str(hypothesis) else hypothesis == "")))
  {
  }

  /** `_validate`: succeeds exactly on payloads that read as a good shortlist. */
  method Validate(d: Demands, payload: Value) returns (r: Option<seq<Entry>>)
    ensures r.Some? ==> GoodShortlist(d, r.value) && Reads(d, payload, r.value)
    ensures r.None? ==> !exists entries :: GoodShortlist(d, entries) && Reads(d, payload, entries)
  {
    if !payload.List? || |payload.items| != d.size { return None; }
    var entries: seq<Entry> := [];
    for i := 0 to |payload.items|
      invariant |entries| == i
      invariant forall k :: 0 <= k < i ==> ReadEntry(d, payload.items[k]) == Some(entries[k])
    {
      var entry := ReadEntry(d, payload.items[i]);
      if entry.None? { return None; }
      entries := entries + [entry.value];
    }
    if !DistinctRules(entries) {
      forall other | Reads(d, payload, other) ensures other == entries {
        assert forall k :: 0 <= k < |entries| ==> ReadEntry(d, payload.items[k]) == Some(other[k]);
      }
      return None;
    }
    return Some(entries);
  }

  // ---------------------------------------------------------------- the event list

  /** What `_append_event` adds for a model generation. */
  function AppendModel(events: seq<TriageEvent>, granted: bool, outcome: string, seen: Usage): seq<TriageEvent> {
    events + [ModelStep(ModelEvent(|events| + 1, granted, outcome, seen))]
  }

  /** What `_append_event` adds for a shell action. */
  function AppendShell(events: seq<TriageEvent>, granted: bool, command: string, seen: Usage): seq<TriageEvent> {
    events + [ShellStep(ShellEvent(|events| + 1, command, granted, if granted then Admitted else BudgetExhausted, seen, None))]
  }

  predicate OpenShell(e: TriageEvent, command: string) { e.ShellStep? && Open(e.shell, command) }

  function LatestOpenShell(events: seq<TriageEvent>, command: string, n: nat): (r: int)
    requires n <= |events|
    ensures -1 <= r < n
    ensures r >= 0 ==> OpenShell(events[r], command)
  {
    if n == 0 then -1 else if OpenShell(events[n - 1], command) then n - 1 else LatestOpenShell(events, command, n - 1)
  }

  function AttachTriage(events: seq<TriageEvent>, command: string, m: Metadata): seq<TriageEvent> {
    var k := LatestOpenShell(events, command, |events|);
    if k < 0 then events else events[k := ShellStep(Observe(events[k].shell, m))]
  }

  function RulesOfEntries(entries: seq<Entry>): seq<string> {
    seq(|entries|, k requires 0 <= k < |entries| => entries[k].rule)
  }

  lemma {:induction false} LatestOpenShellPrefix(events: seq<TriageEvent>, e: TriageEvent, command: string, n: nat)
    requires n <= |events|
    ensures LatestOpenShell(events + [e], command, n) == LatestOpenShell(events, command, n)
  {
    if n > 0 { LatestOpenShellPrefix(events, e, command, n - 1); }
  }

  lemma AttachTriageSkips(events: seq<TriageEvent>, e: TriageEvent, command: string, m: Metadata)
    requires !OpenShell(e, command)
    ensures AttachTriage(events + [e], command, m) == AttachTriage(events, command, m) + [e]
  {
    LatestOpenShellPrefix(events, e, command, |events|);
  }

  lemma AttachTriageTakes(events: seq<TriageEvent>, e: TriageEvent, command: string, m: Metadata)
    requires OpenShell(e, command)
    ensures AttachTriage(events + [e], command, m) == events + [ShellStep(Observe(e.shell, m))]
  {
    assert LatestOpenShell(events + [e], command, |events| + 1) == |events|;
  }

  lemma AttachPast(base: seq<TriageEvent>, e: ShellEvent, commits: seq<TriageEvent>, command: string, m: Metadata)
    requires Open(e, command) && |commits| <= 1 && forall c :: c in commits ==> c.Commit?
    ensures AttachTriage(base + [ShellStep(e)] + commits, command, m) == base + [ShellStep(Observe(e, m))] + commits
  {
    hide AttachTriage;
    AttachTriageTakes(base, ShellStep(e), command, m);
    if commits == [] {
      assert base + [ShellStep(e)] + commits == base + [ShellStep(e)];
    } else {
      assert commits[0] in commits && commits == [commits[0]];
      AttachTriageSkips(base + [ShellStep(e)], commits[0], command, m);
    }
  }

  /** What a shell command turns out to be once it was admitted. */
  datatype TriageCommand =
    | Unsplittable(message: string)
    | CommitMisused
    | CommitCommand(payload: Option<Value>, message: string)
    | ShellCommand(run: ShellRun)

  /** The length of what there is to package can be written with so many digits. */
  predicate Brief(what: TriageCommand) {
    match what
    case Unsplittable(message) => |Decimal(|message + "\n"|)| <= 60
    case CommitMisused => true
    case CommitCommand(_, message) => |Decimal(|message + "\n"|)| <= 60
    case ShellCommand(run) => Sized(run)
  }

  /** The metadata reports what became of an admitted command. */
  predicate ReportsCommand(m: Metadata, what: TriageCommand, committed: bool, packed: bool) {
    if what.ShellCommand? then ReportsShell(m, what.run, packed)
    else m.returncode == (if what.CommitCommand? && committed then 0 else 2) && !m.timedOut
  }

  const USAGE := "usage: commit-top50 SHORTLIST.json\n"

  /** What a command that runs nothing is told. */
  function NoteOf(what: TriageCommand): string {
    match what
    case Unsplittable(message) => message + "\n"
    case CommitMisused => USAGE
    case CommitCommand(_, message) => message + "\n"
    case ShellCommand(_) => ""
  }

  /** What the agent sees of the return codes: 0 for a commit that was accepted, 2 for one that was not, for a misuse
      of it and for what cannot be split into words; of a command that was run its own code, but -1 at the time limit
      or if its output could not be packaged or it failed with an exception. */
  lemma CodesSeen(r: ShellAnswer, what: TriageCommand, committed: bool, n: nat, logs: set<string>, policy: Policy, config: Config)
    requires CommandAnswer(r, what, committed, n, logs, policy, config) && r.Answered?
    ensures what.CommitCommand? && committed ==> r.returncode == 0
    ensures what.Unsplittable? || what.CommitMisused? || (what.CommitCommand? && !committed) ==> r.returncode == 2
    ensures what.ShellCommand? ==>
      var run := what.run;
      r.returncode == if run.Finished? && !run.timedOut && AgentPacks(Shell(run), n + 1, logs, policy, config) then run.code else -1
  {
    hide NotePacks, NotePreview, AgentPacks, AgentPreview;
  }

  /** What the observation of a command reports, likewise, with 124 at the time limit. */
  lemma CodesReported(m: Metadata, what: TriageCommand, committed: bool, packed: bool)
    requires ReportsCommand(m, what, committed, packed)
    ensures what.CommitCommand? && committed ==> m.returncode == 0 && !m.timedOut
    ensures what.Unsplittable? || what.CommitMisused? || (what.CommitCommand? && !committed) ==> m.returncode == 2 && !m.timedOut
    ensures what.ShellCommand? ==>
      var run := what.run;
      && m.returncode == (if run.Broken? || !packed then -1 else if run.timedOut then 124 else run.code)
      && (m.timedOut <==> run.Finished? && packed && run.timedOut)
  {
    hide OutStream, Capture.LineCount;
  }

  /** The output of an admitted command is packaged. */
  ghost predicate CommandPacks(what: TriageCommand, n: nat, logs: set<string>, policy: Policy, config: Config) {
    what.ShellCommand? && RunPacks(what.run, n, logs, policy, config)
  }

  /** What an admitted command is answered: as in an episode if it is run, and else its note, with 0 for a commit that
      was accepted and 2 for everything else. */
  ghost predicate CommandAnswer(r: ShellAnswer, what: TriageCommand, committed: bool, n: nat, logs: set<string>, policy: Policy,
                                config: Config) {
    if what.ShellCommand? then RunAnswer(r, what.run, n, logs, policy, config)
    else
      var code := if what.CommitCommand? && committed then 0 else 2;
      r == if NotePacks(NoteOf(what), code, n + 1, logs, policy, config)
           then Answered(NotePreview(NoteOf(what), code, n + 1, policy, config), code)
           else PackagingRaised
  }

  /** The event that `admit_shell_action` appends. */
  function Begun(sequence: nat, command: string, granted: bool, seen: Usage): ShellEvent {
    ShellEvent(sequence, command, granted, if granted then Admitted else BudgetExhausted, seen, None)
  }

  function Concluded(e: ShellEvent, m: Option<Metadata>): ShellEvent {
    if m.Some? then Observe(e, m.value) else e
  }

  class TriageSession {
    const demands: Demands
    const state: EvidenceBudgetState
    const store: ObservationStore
    var shortlist: Option<seq<Entry>>
    var events: seq<TriageEvent>
    var observations: seq<Metadata>

    constructor (demands: Demands, state: EvidenceBudgetState, store: ObservationStore)
      ensures this.demands == demands && this.state == state && this.store == store
      ensures shortlist == None && events == [] && observations == []
    {
      this.demands, this.state, this.store := demands, state, store;
      shortlist, events, observations := None, [], [];
    }

    /** The session is at the given state of the triage transition system. */
    ghost predicate Tracks(t: TriageState)
      reads this, state, store
    {
      && demands == t.demands && shortlist == t.shortlist && events == t.events && observations == t.observations
      && state.used == t.used && state.limits == t.limits && store.config == t.config && t.numbered <= store.sequence
    }

    /** `record_model_generation`. */
    method RecordModelGeneration(outcome: string, infrastructure: bool, ghost t: TriageState) returns (admitted: bool)
      requires Tracks(t)
      modifies this`events, state
      ensures Tracks(Do(t, Think(outcome, infrastructure, state.used)))
      ensures var granted := !infrastructure && Available(old(state.used), state.limits, [ModelGenerations]);
        && state.used == (if granted then Charge(old(state.used), [ModelGenerations], 1) else old(state.used))
        && events == AppendModel(old(events), granted, if infrastructure || granted then outcome else "budget_exhausted", state.used)
        && (admitted <==> infrastructure || granted)
    {
      var granted := false;
      if !infrastructure {
        var reserved, _ := state.Reserve([ModelGenerations]);
        granted := reserved;
      }
      admitted := infrastructure || granted;
      events := AppendModel(events, granted, if admitted then outcome else "budget_exhausted", state.used);
    }

    /** `admit_shell_action`. */
    method AdmitShellAction(command: string) returns (admitted: bool)
      modifies this`events, state
      ensures admitted <==> Available(old(state.used), state.limits, [ShellActions])
      ensures state.used == (if admitted then Charge(old(state.used), [ShellActions], 1) else old(state.used))
      ensures events == AppendShell(old(events), admitted, command, state.used)
    {
      var granted, _ := state.Reserve([ShellActions]);
      events := AppendShell(events, granted, command, state.used);
      return granted;
    }

    /** `commit_file`, from the parsed payload on; `None` stands for a file that could not be read. */
    method CommitFile(payload: Option<Value>) returns (accepted: bool)
      modifies this`events, this`shortlist
      ensures accepted <==>
        (old(shortlist).None? && payload.Some? && exists entries :: GoodShortlist(demands, entries) && Reads(demands, payload.value, entries))
      ensures accepted ==> shortlist.Some? && GoodShortlist(demands, shortlist.value)
      ensures accepted ==> Reads(demands, payload.value, shortlist.value)
      ensures accepted ==> events == old(events) + [Commit(RulesOfEntries(shortlist.value))]
      ensures !accepted ==> shortlist == old(shortlist) && events == old(events)
    {
      if payload.None? { return false; }
      var entries := Validate(demands, payload.value);
      if entries.None? || shortlist.Some? { return false; }
      shortlist := entries;
      events := events + [Commit(RulesOfEntries(entries.value))];
      return true;
    }

    /** `record_shell_observation`. */
    method RecordShellObservation(command: string, metadata: Option<Metadata>)
      modifies this`events, this`observations
      ensures metadata.None? ==> events == old(events) && observations == old(observations)
      ensures metadata.Some? ==>
        observations == old(observations) + [metadata.value] && events == AttachTriage(old(events), command, metadata.value)
    {
      if metadata.None? { return; }
      var m := metadata.value;
      observations := observations + [m];
      var i := |events|;
      while i > 0
        invariant 0 <= i <= |events| && events == old(events)
        invariant LatestOpenShell(events, command, |events|) == LatestOpenShell(events, command, i)
      {
        i := i - 1;
        if events[i].ShellStep? && events[i].shell.command == command && events[i].shell.observationId.None? {
          var event := events[i].shell.(observationId := Some(m.observationId));
          if event.charged { event := event.(outcome := ExitOutcome(m.returncode, m.timedOut)); }
          events := events[i := ShellStep(event)];
          return;
        }
      }
    }

    /** `package_shell_result`; a commit made by the very command may already follow its event. */
    method PackageResult(command: string, output: string, returncode: int, ghost base: seq<TriageEvent>, ghost e: ShellEvent,
                         ghost commits: seq<TriageEvent>)
      returns (r: ShellAnswer, ghost m: Option<Metadata>)
      requires JsonNonEmpty(store.policy) && ValidConfig(store.config) && |Decimal(|output|)| <= 60
      requires events == base + [ShellStep(e)] + commits && Open(e, command)
      requires |commits| <= 1 && forall c :: c in commits ==> c.Commit?
      modifies this`events, this`observations, store
      ensures store.sequence == old(store.sequence) + 1
      ensures m.Some? <==> r.Answered?
      ensures r == if NotePacks(output, returncode, store.sequence, old(store.logs).Keys, store.policy, store.config)
                   then Answered(NotePreview(output, returncode, store.sequence, store.policy, store.config), returncode)
                   else PackagingRaised
      ensures m.Some? ==> m.value.originalChars == |output|
      ensures m.Some? ==> events == base + [ShellStep(Observe(e, m.value))] + commits && observations == old(observations) + [m.value]
      ensures m.None? ==> events == old(events) && observations == old(observations)
      ensures m.Some? ==> store.sequence < 10000 && m.value.returncode == returncode && !m.value.timedOut
      ensures m.Some? ==> WellPackaged(m.value, ShellId(store.sequence), ShellKind, command, returncode, false, store.config)
      ensures m.Some? ==> r.returncode == returncode && |r.output| == m.value.previewChars
    {
      hide Renders, Body, RawLog, Header, BoundedText, IsObservationId, ShellId, Padded, Decimal, Newlines, AttachTriage, LogPath,
           FullPreview, Packs, PhysicalLines;
      HarnessTextFits(output, store.config);
      var packaged, _, _ := store.Package(ShellKind, command, returncode, false, output, "", |output|, PhysicalLines(output),
                                          false, None);
      ShellIdValid(store.sequence);
      if !packaged.Packaged? { return PackagingRaised, None; }
      AttachPast(base, e, commits, command, packaged.metadata);
      RecordShellObservation(command, Some(packaged.metadata));
      m := Some(packaged.metadata);
      r := Answered(packaged.preview, returncode);
    }

    /** `TriageEnvironment.execute`. Whatever the command is, it leaves one shell event, charged exactly if there
        was room, and behind it a commit exactly if it froze the shortlist; unless packaging raised, the event
        carries the observation of its own result: 75 if it was refused, 0 or 2 for a commit, 2 for a command
        that is no shell command, 124 at the time limit, -1 if its output could not be packaged. The whole is
        the beginning, the commit if there is one, and the end of an action of the triage transition system. */
    method Execute(command: string, what: TriageCommand, ghost t: TriageState)
      returns (r: ShellAnswer, ghost m: Option<Metadata>, ghost tail: seq<TriageAction>)
      requires JsonNonEmpty(store.policy) && ValidConfig(store.config) && Brief(what)
      requires Tracks(t) && !t.pending
      modifies this`events, this`observations, this`shortlist, state, store
      ensures m.Some? <==> r.Answered?
      ensures shortlist != old(shortlist) ==> old(shortlist).None? && what.CommitCommand? && what.payload.Some?
      ensures shortlist != old(shortlist) ==>
        shortlist.Some? && GoodShortlist(demands, shortlist.value) && Reads(demands, what.payload.value, shortlist.value)
      ensures r.Answered? ==> |r.output| == m.value.previewChars
      ensures r.Answered? ==> r.returncode == if m.value.timedOut then -1 else m.value.returncode
      ensures if Available(old(state.used), state.limits, [ShellActions])
              then CommandAnswer(r, what, shortlist != old(shortlist), old(store.sequence), old(store.logs).Keys, store.policy, store.config)
              else RefusalAnswer(r, old(store.sequence), old(store.logs).Keys, store.policy, store.config)
      ensures m.Some? && Available(old(state.used), state.limits, [ShellActions]) ==>
        ReportsCommand(m.value, what, shortlist != old(shortlist),
                       CommandPacks(what, old(store.sequence), old(store.logs).Keys, store.policy, store.config))
      ensures state.used == if Available(old(state.used), state.limits, [ShellActions])
                            then Charge(old(state.used), [ShellActions], 1) else old(state.used)
      ensures observations == old(observations) + if m.Some? then [m.value] else []
      ensures events == old(events)
        + [ShellStep(Concluded(Begun(|old(events)| + 1, command, Available(old(state.used), state.limits, [ShellActions]), state.used), m))]
        + if shortlist != old(shortlist) then [Commit(RulesOfEntries(shortlist.value))] else []
      ensures m.Some? ==>
        ShellResult(Begun(|old(events)| + 1, command, Available(old(state.used), state.limits, [ShellActions]), state.used),
                    store.sequence, m.value, store.config)
      ensures IsTail(tail, store.sequence, m)
      ensures IsTriageRun(t, [Begin(command, state.used)] + tail)
      ensures Tracks(TriageEnd(t, [Begin(command, state.used)] + tail))
    {
      hide Brief, Decimal, IsTriageRun, TriageEnd, ShellId, LogPath, WellPackaged, AttachTriage, GoodShortlist, Reads, NotePacks,
           NotePreview, CommandPacks, CommandAnswer, ReportsCommand;
      ghost var base := events;
      var admitted := AdmitShellAction(command);
      ghost var e := events[|base|].shell;
      assert events == base + [ShellStep(e)] + [];
      ghost var commit: Option<TriageAction> := None;
      if !admitted {
        RefusalIsShort();
        r, m := PackageResult(command, REFUSAL, 75, base, e, []);
      } else {
        r, m, commit := RunAdmitted(command, what, base, e, t);
      }
      if m.Some? { MakesResult(e, store.sequence, m.value, store.config); }
      tail := TriageActionIsRun(t, command, state.used, commit, store.sequence, m);
    }

    /** The part of `execute` after the admission; the commit step it takes, if it takes one. */
    method RunAdmitted(command: string, what: TriageCommand, ghost base: seq<TriageEvent>, ghost e: ShellEvent,
                       ghost t: TriageState)
      returns (r: ShellAnswer, ghost m: Option<Metadata>, ghost commit: Option<TriageAction>)
      requires JsonNonEmpty(store.policy) && ValidConfig(store.config) && Brief(what)
      requires events == base + [ShellStep(e)] + [] && Open(e, command)
      requires demands == t.demands && shortlist == t.shortlist
      modifies this`events, this`observations, this`shortlist, store
      ensures store.sequence > old(store.sequence)
      ensures m.Some? <==> r.Answered?
      ensures commit.Some? <==> shortlist != old(shortlist)
      ensures commit.Some? ==> commit.value.CommitPayload? && Commits(t, commit.value) && shortlist == Some(commit.value.entries)
                               && what.CommitCommand? && what.payload == commit.value.payload
      ensures events == base + [ShellStep(Concluded(e, m))]
        + if commit.Some? then [Commit(RulesOfEntries(shortlist.value))] else []
      ensures observations == old(observations) + if m.Some? then [m.value] else []
      ensures m.Some? ==> r.returncode == (if m.value.timedOut then -1 else m.value.returncode) && |r.output| == m.value.previewChars
      ensures CommandAnswer(r, what, commit.Some?, old(store.sequence), old(store.logs).Keys, store.policy, store.config)
      ensures m.Some? ==> store.sequence < 10000
      ensures m.Some? ==>
        ReportsCommand(m.value, what, commit.Some?,
                       CommandPacks(what, old(store.sequence), old(store.logs).Keys, store.policy, store.config))
      ensures m.Some? ==> m.value.timedOut ==> m.value.returncode == 124
      ensures m.Some? ==> WellPackaged(m.value, ShellId(store.sequence), ShellKind, command, m.value.returncode, m.value.timedOut,
                                       store.config)
    {
      hide ShellId, LogPath, WellPackaged, AttachTriage, GoodShortlist, Reads, Decimal, NotePacks, NotePreview, RunPacks, RunAnswer,
           ReportsShell;
      commit := None;
      UsageIsShort();
      if what.Unsplittable? {
        r, m := PackageResult(command, what.message + "\n", 2, base, e, []);
      } else if what.CommitMisused? {
        r, m := PackageResult(command, USAGE, 2, base, e, []);
      } else if what.CommitCommand? {
        var accepted := CommitFile(what.payload);
        if accepted { commit := Some(CommitPayload(what.payload, shortlist.value)); }
        r, m := PackageResult(command, what.message + "\n", if accepted then 0 else 2, base, e,
                              if accepted then [Commit(RulesOfEntries(shortlist.value))] else []);
      } else {
        r, m := RunShell(command, what.run, base, e);
      }
    }

    /** The part of `execute` that runs the command. */
    method RunShell(command: string, run: ShellRun, ghost base: seq<TriageEvent>, ghost e: ShellEvent)
      returns (r: ShellAnswer, ghost m: Option<Metadata>)
      requires JsonNonEmpty(store.policy) && ValidConfig(store.config) && Sized(run)
      requires events == base + [ShellStep(e)] + [] && Open(e, command)
      modifies this`events, this`observations, store
      ensures store.sequence > old(store.sequence)
      ensures m.Some? <==> r.Answered?
      ensures m.Some? ==> events == base + [ShellStep(Observe(e, m.value))] + [] && observations == old(observations) + [m.value]
      ensures m.None? ==> events == old(events) && observations == old(observations)
      ensures m.Some? ==> r.returncode == (if m.value.timedOut then -1 else m.value.returncode) && |r.output| == m.value.previewChars
      ensures RunAnswer(r, run, old(store.sequence), old(store.logs).Keys, store.policy, store.config)
      ensures m.Some? ==> store.sequence < 10000 && (m.value.timedOut ==> m.value.returncode == 124)
      ensures m.Some? ==>
        ReportsShell(m.value, run, RunPacks(run, old(store.sequence), old(store.logs).Keys, store.policy, store.config))
      ensures m.Some? ==> WellPackaged(m.value, ShellId(store.sequence), ShellKind, command, m.value.returncode, m.value.timedOut,
                                       store.config)
    {
      hide ShellId, LogPath, OutStream, Capture.LineCount, Decimal, Capture.CapturedText, AttachTriage, NotePacks, NotePreview,
           AgentPacks, AgentPreview;
      EmptyIsShort();
      if run.Broken? {
        r, m := PackageResult(command, run.output, -1, base, e, []);
        return;
      }
      var packaged := RunAsAgent(store, command, Shell(run));
      if !packaged.Packaged? {
        NextIdIsFree("", -1, store.sequence + 1, old(store.logs).Keys, store.logs.Keys, store.policy, store.config);
        r, m := PackageResult(command, "", -1, base, e, []);
        return;
      }
      AttachPast(base, e, [], command, packaged.metadata);
      RecordShellObservation(command, Some(packaged.metadata));
      m := Some(packaged.metadata);
      r := Answered(packaged.preview, if run.timedOut then -1 else run.code);
    }
  }

  lemma UsageIsShort()
    ensures |Decimal(|USAGE|)| <= 60
  {
    DecimalAtMost(|USAGE|, 2);
  }

  // ---------------------------------------------------------------- runs

  datatype TriageState = TriageState(
    demands: Demands, limits: Usage, config: Config, used: Usage, shortlist: Option<seq<Entry>>,
    events: seq<TriageEvent>, observations: seq<Metadata>, pending: bool, numbered: nat)

  datatype TriageAction =
    | Think(outcome: string, infrastructure: bool, seen: Usage)
    | Begin(command: string, seen: Usage)
    | CommitPayload(payload: Option<Value>, entries: seq<Entry>)   // the entries it reads as, if it is accepted
    | End(number: nat, metadata: Metadata)

  function Start(demands: Demands, limits: Usage, config: Config): TriageState {
    TriageState(demands, limits, config, NO_USE, None, [], [], false, 0)
  }

  ghost predicate Commits(t: TriageState, a: TriageAction)
    requires a.CommitPayload?
  {
    t.shortlist.None? && a.payload.Some? && GoodShortlist(t.demands, a.entries) && Reads(t.demands, a.payload.value, a.entries)
  }

  /** The shell events, numbered among themselves. */
  function Shells(events: seq<TriageEvent>): seq<ShellEvent> {
    if events == [] then []
    else
      var front, last := Shells(events[..|events| - 1]), events[|events| - 1];
      if last.ShellStep? then front + [last.shell.(sequence := |front| + 1)] else front
  }

  function Models(events: seq<TriageEvent>): seq<ModelEvent> {
    if events == [] then []
    else
      var front, last := Models(events[..|events| - 1]), events[|events| - 1];
      if last.ModelStep? then front + [last.model.(sequence := |front| + 1)] else front
  }

  /** Triage seen as an episode without pred calls and submissions. */
  function View(t: TriageState): Episode {
    Fresh("", 0, 0, t.limits, t.config).(
      gateway := Initial(t.limits, t.config).(shared := Initial(t.limits, t.config).shared.(used := t.used)),
      models := Models(t.events), shells := Shells(t.events), observations := t.observations,
      pending := t.pending, numbered := t.numbered)
  }

  ghost predicate CanDo(t: TriageState, a: TriageAction) {
    match a
    case Think(_, _, _) => true
    case Begin(_, _) => !t.pending
    case CommitPayload(_, _) => true
    case End(number, m) => Possible(View(t), EndShell(number, m))
  }

  ghost function Do(t: TriageState, a: TriageAction): TriageState
    requires CanDo(t, a)
  {
    match a
    case Think(outcome, infrastructure, seen) =>
      var granted := !infrastructure && Available(t.used, t.limits, [ModelGenerations]);
      t.(used := if granted then Charge(t.used, [ModelGenerations], 1) else t.used,
         events := AppendModel(t.events, granted, if infrastructure || granted then outcome else "budget_exhausted", seen))
    case Begin(command, seen) =>
      var granted := Available(t.used, t.limits, [ShellActions]);
      t.(used := if granted then Charge(t.used, [ShellActions], 1) else t.used,
         events := AppendShell(t.events, granted, command, seen), pending := true)
    case CommitPayload(_, entries) =>
      if Commits(t, a) then t.(shortlist := Some(entries), events := t.events + [Commit(RulesOfEntries(entries))]) else t
    case End(number, m) =>
      t.(events := AttachTriage(t.events, m.command, m), observations := t.observations + [m], pending := false, numbered := number)
  }

  ghost predicate IsTriageRun(t: TriageState, actions: seq<TriageAction>)
    decreases |actions|
  {
    actions == [] || (CanDo(t, actions[0]) && IsTriageRun(Do(t, actions[0]), actions[1..]))
  }

  ghost function TriageEnd(t: TriageState, actions: seq<TriageAction>): TriageState
    requires IsTriageRun(t, actions)
    decreases |actions|
  {
    if actions == [] then t else TriageEnd(Do(t, actions[0]), actions[1..])
  }

  // ---------------------------------------------------------------- triage refines the episode

  lemma PushEvent(events: seq<TriageEvent>, e: TriageEvent)
    ensures Shells(events + [e]) == Shells(events) + if e.ShellStep? then [e.shell.(sequence := |Shells(events)| + 1)] else []
    ensures Models(events + [e]) == Models(events) + if e.ModelStep? then [e.model.(sequence := |Models(events)| + 1)] else []
  {
    assert (events + [e])[..|events|] == events;
  }

  lemma {:induction false} LatestOpenPrefix(shells: seq<ShellEvent>, more: seq<ShellEvent>, command: string, n: nat)
    requires n <= |shells|
    ensures LatestOpen(shells + more, command, n) == LatestOpen(shells, command, n)
  {
    if n > 0 { LatestOpenPrefix(shells, more, command, n - 1); }
  }

  /** An event that does not wait for this observation is passed over. */
  lemma AttachSkips(shells: seq<ShellEvent>, e: ShellEvent, command: string, m: Metadata)
    requires !Open(e, command)
    ensures Attach(shells + [e], command, m) == Attach(shells, command, m) + [e]
  {
    LatestOpenPrefix(shells, [e], command, |shells|);
  }

  lemma AttachTakes(shells: seq<ShellEvent>, e: ShellEvent, command: string, m: Metadata)
    requires Open(e, command)
    ensures Attach(shells + [e], command, m) == shells + [Observe(e, m)]
  {
    assert LatestOpen(shells + [e], command, |shells| + 1) == |shells|;
  }

  /** Attaching an observation in the interleaved list is attaching it in the list of shell events. */
  lemma {:induction false} AttachRefines(events: seq<TriageEvent>, command: string, m: Metadata)
    ensures Shells(AttachTriage(events, command, m)) == Attach(Shells(events), command, m)
    ensures Models(AttachTriage(events, command, m)) == Models(events)
  {
    if events != [] {
      var front, last := events[..|events| - 1], events[|events| - 1];
      assert events == front + [last];
      hide Attach, AttachTriage, Shells, Models;
      AttachRefines(front, command, m);
      PushEvent(front, last);
      if OpenShell(last, command) {
        AttachTriageTakes(front, last, command, m);
        PushEvent(front, ShellStep(Observe(last.shell, m)));
        AttachTakes(Shells(front), last.shell.(sequence := |Shells(front)| + 1), command, m);
      } else {
        AttachTriageSkips(front, last, command, m);
        PushEvent(AttachTriage(front, command, m), last);
        AttachLength(Shells(front), command, m);
        if last.ShellStep? { AttachSkips(Shells(front), last.shell.(sequence := |Shells(front)| + 1), command, m); }
      }
    } else {
      assert AttachTriage(events, command, m) == events && Attach(Shells(events), command, m) == Shells(events);
    }
  }

  lemma AttachLength(shells: seq<ShellEvent>, command: string, m: Metadata)
    ensures |Attach(shells, command, m)| == |shells|
  {
  }

  /** The episode action a triage action amounts to; a commit amounts to none. */
  function Amounts(a: TriageAction): Option<Action> {
    match a
    case Think(outcome, infrastructure, seen) => Some(Generation(outcome, infrastructure, seen))
    case Begin(command, seen) => Some(BeginShell(command, seen))
    case CommitPayload(_, _) => None
    case End(number, m) => Some(EndShell(number, m))
  }

  lemma PushRefines(t: TriageState, a: TriageAction)
    requires a.Think? || a.Begin?
    requires CanDo(t, a)
    ensures Possible(View(t), Amounts(a).value) && View(Do(t, a)) == Step(View(t), Amounts(a).value)
  {
    PushEvent(t.events, Do(t, a).events[|t.events|]);
    hide Shells, Models;
  }

  lemma EndRefines(t: TriageState, a: TriageAction)
    requires a.End? && CanDo(t, a)
    ensures Possible(View(t), Amounts(a).value) && View(Do(t, a)) == Step(View(t), Amounts(a).value)
  {
    AttachRefines(t.events, a.metadata.command, a.metadata);
    hide Shells, Models, Attach, AttachTriage, ShellResult;
  }

  /** Triage refines the episode: the same counters, events and observations, with commits invisible. */
  lemma TriageRefines(t: TriageState, a: TriageAction)
    requires CanDo(t, a)
    ensures Amounts(a).Some? ==> Possible(View(t), Amounts(a).value) && View(Do(t, a)) == Step(View(t), Amounts(a).value)
    ensures Amounts(a).None? ==> View(Do(t, a)) == View(t)
  {
    if a.End? {
      EndRefines(t, a);
    } else if a.CommitPayload? {
      PushEvent(t.events, Commit(RulesOfEntries(a.entries)));
      hide Shells, Models, GoodShortlist, Reads;
    } else {
      PushRefines(t, a);
    }
  }

  // ---------------------------------------------------------------- a whole action

  /** What follows the beginning of a shell action: at most one commit, and the end unless packaging raised. */
  predicate IsTail(tail: seq<TriageAction>, number: nat, m: Option<Metadata>) {
    var last := if m.Some? then [End(number, m.value)] else [];
    || tail == last
    || (|tail| == 1 + |last| && tail[0].CommitPayload? && tail[1..] == last)
  }

  lemma {:induction false} TriageRunConcat(t: TriageState, a: seq<TriageAction>, b: seq<TriageAction>)
    requires IsTriageRun(t, a) && IsTriageRun(TriageEnd(t, a), b)
    ensures IsTriageRun(t, a + b) && TriageEnd(t, a + b) == TriageEnd(TriageEnd(t, a), b)
    decreases |a|
  {
    hide CanDo, Do;
    if a == [] {
      assert a + b == b;
    } else {
      TriageRunConcat(Do(t, a[0]), a[1..], b);
      assert (a + b)[1..] == a[1..] + b;
    }
  }

  lemma OneTriageStep(t: TriageState, a: TriageAction)
    requires CanDo(t, a)
    ensures IsTriageRun(t, [a]) && TriageEnd(t, [a]) == Do(t, a)
  {
    hide CanDo, Do;
    assert [a][1..] == [];
  }

  /** The observation of a result can be recorded while its action is the last one, with a commit behind it or not. */
  lemma CanEnd(t: TriageState, base: seq<TriageEvent>, e: ShellEvent, commits: seq<TriageEvent>, number: nat, m: Metadata)
    requires t.events == base + [ShellStep(e)] + commits && |commits| <= 1 && forall c :: c in commits ==> c.Commit?
    requires t.pending && number > t.numbered && Open(e, e.command) && ShellResult(e, number, m, t.config)
    ensures CanDo(t, End(number, m))
    ensures Do(t, End(number, m)).events == base + [ShellStep(Observe(e, m))] + commits
  {
    hide AttachTriage, Shells, Models, ShellId, WellPackaged;
    PushEvent(base, ShellStep(e));
    if commits == [] {
      assert base + [ShellStep(e)] + commits == base + [ShellStep(e)];
    } else {
      assert commits == [commits[0]] && commits[0] in commits;
      PushEvent(base + [ShellStep(e)], commits[0]);
    }
    ResultCommand(e, number, m, t.config);
    AttachPast(base, e, commits, m.command, m);
  }

  /** A whole shell action of triage is a run: its beginning, the commit it makes if it makes one, its end. */
  lemma TriageActionIsRun(t: TriageState, command: string, seen: Usage, commit: Option<TriageAction>, number: nat,
                          m: Option<Metadata>)
    returns (tail: seq<TriageAction>)
    requires !t.pending && number > t.numbered
    requires commit.Some? ==> commit.value.CommitPayload? && Commits(t, commit.value)
    requires m.Some? ==>
      ShellResult(Begun(|t.events| + 1, command, Available(t.used, t.limits, [ShellActions]), seen), number, m.value, t.config)
    ensures IsTail(tail, number, m) && IsTriageRun(t, [Begin(command, seen)] + tail)
    ensures var begun, end := Do(t, Begin(command, seen)), TriageEnd(t, [Begin(command, seen)] + tail);
      && end.demands == t.demands && end.limits == t.limits && end.config == t.config && end.used == begun.used
      && end.shortlist == (if commit.Some? then Some(commit.value.entries) else t.shortlist)
      && end.observations == t.observations + (if m.Some? then [m.value] else [])
      && end.numbered == (if m.Some? then number else t.numbered) && end.pending == m.None?
      && end.events == t.events
           + [ShellStep(Concluded(Begun(|t.events| + 1, command, Available(t.used, t.limits, [ShellActions]), seen), m))]
           + (if commit.Some? then [Commit(RulesOfEntries(commit.value.entries))] else [])
  {
    hide IsTriageRun, TriageEnd, GoodShortlist, Reads, ShellResult, AttachTriage, Possible;
    var e := Begun(|t.events| + 1, command, Available(t.used, t.limits, [ShellActions]), seen);
    var t1 := Do(t, Begin(command, seen));
    OneTriageStep(t, Begin(command, seen));
    var commits := if commit.Some? then [Commit(RulesOfEntries(commit.value.entries))] else [];
    var middle := if commit.Some? then [commit.value] else [];
    var t2 := if commit.Some? then Do(t1, commit.value) else t1;
    assert t2.events == t.events + [ShellStep(e)] + commits;
    assert IsTriageRun(t1, middle) && TriageEnd(t1, middle) == t2 by {
      if commit.Some? { OneTriageStep(t1, commit.value); } else { NoTriageStep(t1); }
    }
    TriageRunConcat(t, [Begin(command, seen)], middle);
    tail := middle;
    if m.Some? {
      assert Open(e, e.command);
      CanEnd(t2, t.events, e, commits, number, m.value);
      OneTriageStep(t2, End(number, m.value));
      TriageRunConcat(t, [Begin(command, seen)] + middle, [End(number, m.value)]);
      tail := middle + [End(number, m.value)];
      assert [Begin(command, seen)] + middle + [End(number, m.value)] == [Begin(command, seen)] + tail;
    }
  }

  lemma NoTriageStep(t: TriageState)
    ensures IsTriageRun(t, []) && TriageEnd(t, []) == t
  {
  }

  // ---------------------------------------------------------------- the triage invariant

  predicate IsCommitEvent(e: TriageEvent) { e.Commit? }

  function SequenceOf(e: TriageEvent): nat
    requires !e.Commit?
  {
    if e.ModelStep? then e.model.sequence else e.shell.sequence
  }

  ghost predicate TriageInv(t: TriageState) {
    && EpisodeInv(View(t))
    && CountIf(t.events, IsCommitEvent) == Bit(t.shortlist.Some?)
    && (t.shortlist.Some? ==> GoodShortlist(t.demands, t.shortlist.value))
    && (forall k :: 0 <= k < |t.events| && !t.events[k].Commit? ==> SequenceOf(t.events[k]) == k + 1)
  }

  lemma AttachKeepsKinds(events: seq<TriageEvent>, command: string, m: Metadata)
    ensures var after := AttachTriage(events, command, m);
      && |after| == |events| && CountIf(after, IsCommitEvent) == CountIf(events, IsCommitEvent)
      && forall k :: 0 <= k < |events| ==> (after[k].Commit? <==> events[k].Commit?)
                                           && (!events[k].Commit? ==> SequenceOf(after[k]) == SequenceOf(events[k]))
  {
    var k := LatestOpenShell(events, command, |events|);
    if k >= 0 { CountUpdate(events, k, ShellStep(Observe(events[k].shell, m)), IsCommitEvent); }
  }

  lemma PushKeeps(t: TriageState, t': TriageState, e: TriageEvent)
    requires TriageInv(t) && EpisodeInv(View(t')) && t'.events == t.events + [e] && t'.demands == t.demands
    requires !e.Commit? ==> SequenceOf(e) == |t.events| + 1 && t'.shortlist == t.shortlist
    requires e.Commit? ==> t.shortlist.None? && t'.shortlist.Some? && GoodShortlist(t.demands, t'.shortlist.value)
    ensures TriageInv(t')
  {
    hide EpisodeInv, View, GoodShortlist;
    CountPush(t.events, e, IsCommitEvent);
  }

  lemma AttachKeeps(t: TriageState, t': TriageState, command: string, m: Metadata)
    requires TriageInv(t) && EpisodeInv(View(t')) && t'.events == AttachTriage(t.events, command, m)
    requires t'.demands == t.demands && t'.shortlist == t.shortlist
    ensures TriageInv(t')
  {
    AttachKeepsKinds(t.events, command, m);
    hide EpisodeInv, View, GoodShortlist, AttachTriage;
  }

  lemma ViewInv(t: TriageState)
    requires TriageInv(t)
    ensures EpisodeInv(View(t))
  {
  }

  lemma TriageActionKeeps(t: TriageState, a: TriageAction)
    requires TriageInv(t) && CanDo(t, a)
    ensures TriageInv(Do(t, a))
    ensures t.shortlist.Some? ==> Do(t, a).shortlist == t.shortlist
    ensures Do(t, a).demands == t.demands && Do(t, a).limits == t.limits && Do(t, a).config == t.config
  {
    hide EpisodeInv, View, TriageInv, GoodShortlist, Reads, AttachTriage, Possible, Step;
    var t' := Do(t, a);
    ViewInv(t);
    TriageRefines(t, a);
    if Amounts(a).Some? { ActionKeeps(View(t), Amounts(a).value); }
    hide CanDo;
    match a
    case End(_, m) => AttachKeeps(t, t', m.command, m);
    case Think(_, _, _) => PushKeeps(t, t', t'.events[|t.events|]);
    case Begin(_, _) => PushKeeps(t, t', t'.events[|t.events|]);
    case CommitPayload(_, entries) => if Commits(t, a) { PushKeeps(t, t', Commit(RulesOfEntries(entries))); }
  }

  /** The freeze. Over every run the shortlist is set at most once and never changes again, it has exactly the
      required number of distinct inventory rules, the event list records exactly one commit for it, and every
      completed shell action left its own observation on its own event. */
  lemma {:induction false} ShortlistFreezes(t: TriageState, actions: seq<TriageAction>)
    requires TriageInv(t) && IsTriageRun(t, actions)
    ensures TriageInv(TriageEnd(t, actions))
    ensures t.shortlist.Some? ==> TriageEnd(t, actions).shortlist == t.shortlist
    ensures TriageEnd(t, actions).demands == t.demands && TriageEnd(t, actions).limits == t.limits
    ensures TriageEnd(t, actions).config == t.config
    decreases |actions|
  {
    hide TriageInv, CanDo, Do;
    if actions != [] {
      TriageActionKeeps(t, actions[0]);
      ShortlistFreezes(Do(t, actions[0]), actions[1..]);
    }
  }

  lemma StartInv(demands: Demands, limits: Usage, config: Config)
    ensures TriageInv(Start(demands, limits, config))
  {
    FreshInv("", 0, 0, limits, config);
    assert View(Start(demands, limits, config)) == Fresh("", 0, 0, limits, config);
  }
}
