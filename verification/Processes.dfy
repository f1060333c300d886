/** Running one process and packaging what it wrote: the pipeline from the reads of its pipes to the metadata
    that the ledgers keep. */
module Processes {
  import opened Text
  import opened Capture
  import opened Lines
  import opened Preview
  import opened Observations
  import opened CommandLine
  import opened Gateway

  /** What the operating system did with one command: it could not be started (with or without E2BIG), or not
      even be passed on (`Popen` raises `ValueError`, as for an argument with a NUL character), or it ended by
      itself or at its time limit, and its pipes delivered these reads. */
  datatype Process =
    | NotStarted(tooBig: bool)
    | NotPassed
    | Ended(code: int, timedOut: bool, outReads: seq<string>, errReads: seq<string>)

  /** The return code `run_capped_process` reports. */
  function Code(p: Process): int
    requires p.Ended?
  {
    if p.timedOut then 124 else p.code
  }

  function OutStream(p: Process): string
    requires p.Ended?
  {
    Concat(UntilEof(p.outReads))
  }

  function ErrStream(p: Process): string
    requires p.Ended?
  {
    Concat(UntilEof(p.errReads))
  }

  /** The lengths of the streams can be written with so many digits. */
  predicate Measured(p: Process) {
    p.Ended? ==> |Decimal(|OutStream(p)|)| <= 60 && |Decimal(|ErrStream(p)|)| <= 60
  }

  /** What a pred call keeps of its streams. */
  function KeptOut(p: Process, config: Config): string
    requires p.Ended?
  {
    CapturedText(OutStream(p), StdoutLimit(config.archiveChars, true))
  }

  function KeptErr(p: Process, config: Config): string
    requires p.Ended?
  {
    TimeoutNote(CapturedText(ErrStream(p), StderrLimit(config.archiveChars, true)), p.timedOut)
  }

  predicate Cut(p: Process, config: Config)
    requires p.Ended?
  {
    || CaptureTruncates(OutStream(p), StdoutLimit(config.archiveChars, true))
    || CaptureTruncates(ErrStream(p), StderrLimit(config.archiveChars, true))
  }

  /** Something is missing from what is kept exactly if a stream is longer than its half of the limit less 160. */
  lemma CutExactly(p: Process, config: Config)
    requires p.Ended?
    ensures Cut(p, config) <==>
      || |OutStream(p)| > Max(0, config.archiveChars / 2 - 160)
      || |ErrStream(p)| > Max(0, config.archiveChars - config.archiveChars / 2 - 160)
  {
  }

  function PredHeader(p: Process, id: string, config: Config): string
    requires p.Ended?
  {
    Header(PredId(id), Code(p), p.timedOut, |OutStream(p)| + |ErrStream(p)|,
           LineCount(OutStream(p)) + LineCount(ErrStream(p)), Cut(p, config))
  }

  /** The preview of this call can be rendered. */
  ghost predicate Presentable(p: Process, id: string, policy: Policy, config: Config) {
    p.Ended? ==> Renders(policy, KeptOut(p, config), KeptErr(p, config), BodyLimit(config, PredHeader(p, id, config)))
  }

  /** `_run_pred`, from the process to its packaged observation. A call that ran delivers metadata that tells
      the truth about the process and its whole output, within the limits, and its log holds all that the
      capture kept; a second log for the id is an `OSError`; what escapes is the `ValueError` and, exactly if
      the preview cannot be rendered, the renderer's assertion, when the log is already written. */
  method RunPred(store: ObservationStore, id: string, args: seq<string>, p: Process) returns (r: Run)
    requires JsonNonEmpty(store.policy) && ValidConfig(store.config) && IsRequestId(id) && Measured(p)
    modifies store
    ensures store.sequence == old(store.sequence)
    ensures p.NotStarted? ==> r == SpawnFailed(p.tooBig) && store.logs == old(store.logs)
    ensures p.NotPassed? ==> r == Escaped(false) && store.logs == old(store.logs)
    ensures p.Ended? && PredId(id) in old(store.logs) ==> r == SpawnFailed(false) && store.logs == old(store.logs)
    ensures p.Ended? && PredId(id) !in old(store.logs) ==>
      && store.logs == old(store.logs)[PredId(id) := RawLog(KeptOut(p, store.config), KeptErr(p, store.config))]
      && (!Presentable(p, id, store.policy, store.config) ==> r == Escaped(true))
      && (Presentable(p, id, store.policy, store.config) ==>
            && r.Exited? && r.returncode == Code(p) && r.timedOut == p.timedOut
            && r.observation.originalChars == |OutStream(p)| + |ErrStream(p)|
            && r.observation.originalLines == LineCount(OutStream(p)) + LineCount(ErrStream(p))
            && r.observation.archiveTruncated == Cut(p, store.config)
            && r.observation.archiveChars == |store.logs[PredId(id)]|)
    ensures WellRun(r, id, args, store.config)
  {
    hide Renders, Body, RawLog, Header, BoundedText, IsObservationId, CapturedText, Decimal, LineCount, Concat, UntilEof,
         CaptureTruncates, TimeoutNote, PredCommand, LogPath, BodyCompacts;
    if p.NotStarted? { return SpawnFailed(p.tooBig); }
    if p.NotPassed? { return Escaped(false); }
    var captured := CaptureProcess(p.outReads, p.errReads, store.config.archiveChars, true);
    var stderr := TimeoutNote(captured.stderr, p.timedOut);
    CapturedPairFitsArchive(OutStream(p), ErrStream(p), p.timedOut, store.config);
    PredIdValid(id);
    var packaged, name, header := store.Package(PredKind, PredCommand(args), Code(p), p.timedOut, captured.stdout, stderr,
                                                captured.chars, captured.lines, captured.truncated, Some(PredId(id)));
    if packaged.LogExists? { return SpawnFailed(false); }
    if packaged.RendererRaised? { return Escaped(true); }
    return Exited(Code(p), p.timedOut, packaged.metadata);
  }

  // ---------------------------------------------------------------- shell actions

  /** What a shell action keeps of its output; its error pipe is merged into the output pipe. */
  function KeptShell(p: Process, config: Config): string
    requires p.Ended?
  {
    CapturedText(OutStream(p), StdoutLimit(config.archiveChars, false))
  }

  /** The observation of a shell action that is packaged under the number `n`. */
  ghost predicate AgentPacks(p: Process, n: nat, logs: set<string>, policy: Policy, config: Config)
    requires p.Ended?
  {
    Packs(policy, config, logs, ShellId(n), Code(p), p.timedOut, KeptShell(p, config), "", |OutStream(p)|,
          LineCount(OutStream(p)), CaptureTruncates(OutStream(p), config.archiveChars))
  }

  function AgentPreview(p: Process, n: nat, policy: Policy, config: Config): string
    requires p.Ended?
  {
    FullPreview(policy, config, ShellId(n), Code(p), p.timedOut, KeptShell(p, config), "", |OutStream(p)|,
                LineCount(OutStream(p)), CaptureTruncates(OutStream(p), config.archiveChars))
  }

  /** `run_as_agent`, from the process to its packaged observation: numbered next, true to the process and to
      its whole output, within the limits, and logged exactly as captured. */
  method RunAsAgent(store: ObservationStore, command: string, p: Process) returns (r: Packaging)
    requires JsonNonEmpty(store.policy) && ValidConfig(store.config) && p.Ended? && p.errReads == [] && Measured(p)
    modifies store
    ensures store.sequence == old(store.sequence) + 1
    ensures r.InvalidId? <==> store.sequence > 9999
    ensures r.Packaged? <==> AgentPacks(p, store.sequence, old(store.logs).Keys, store.policy, store.config)
    ensures r.Packaged? ==> r.preview == AgentPreview(p, store.sequence, store.policy, store.config)
    ensures old(store.logs).Keys <= store.logs.Keys <= old(store.logs).Keys + {ShellId(store.sequence)}
    ensures r.Packaged? ==>
      && WellPackaged(r.metadata, ShellId(store.sequence), ShellKind, command, Code(p), p.timedOut, store.config)
      && r.metadata.originalChars == |OutStream(p)| && r.metadata.originalLines == LineCount(OutStream(p))
      && r.metadata.archiveTruncated == CaptureTruncates(OutStream(p), store.config.archiveChars)
      && r.metadata.previewChars == |r.preview|
      && store.logs == old(store.logs)[ShellId(store.sequence) := KeptShell(p, store.config)]
  {
    hide Renders, Body, RawLog, Header, BoundedText, IsObservationId, CapturedText, Decimal, LineCount, ShellId, Padded,
         LogPath, BodyCompacts;
    assert UntilEof(p.errReads) == [] && Concat([]) == "";
    hide Concat, UntilEof;
    var captured := CaptureProcess(p.outReads, p.errReads, store.config.archiveChars, false);
    NothingOnStderr();
    hide CaptureTruncates;
    CapturedShellFitsArchive(OutStream(p), store.config);
    RawLogOfOutput(captured.stdout);
    ghost var name, header;
    r, name, header := store.Package(ShellKind, command, Code(p), p.timedOut, captured.stdout, captured.stderr,
                                     captured.chars, captured.lines, captured.truncated, None);
    ShellIdValid(store.sequence);
  }

  lemma NothingOnStderr()
    ensures CapturedText("", 0) == "" && !CaptureTruncates("", 0) && LineCount("") == 0
  {
    RetainedLength("", 0);
  }

  lemma RawLogOfOutput(text: string)
    ensures RawLog(text, "") == text
  {
  }
}
