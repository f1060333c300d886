/** Packaging of one command's output: the immutable raw log, the compact preview and the metadata that
    the ledgers keep. */
module Observations {
  import opened Text
  import opened Capture
  import opened Lines
  import opened Preview

  datatype Config = Config(previewChars: nat, archiveChars: nat)

  /** What the source's constructor accepts. */
  predicate ValidConfig(config: Config) {
    config.archiveChars >= config.previewChars >= 256
  }

  datatype Kind = ShellKind | PredKind

  datatype Metadata = Metadata(
    observationId: string, kind: Kind, command: string, rawLog: string, returncode: int, timedOut: bool,
    originalChars: nat, originalLines: nat, previewChars: nat, archiveChars: nat,
    previewCompacted: bool, archiveTruncated: bool)

  /** How an action ended, as the ledgers name it. An abandoned record still reads "running", but an exception
      ended its handling and nobody will finish it. */
  datatype Outcome =
    | Admitted | Running | Completed | NonzeroExit | Timeout | BudgetExhausted | ModelError | InfrastructureError | Abandoned

  function ExitOutcome(returncode: int, timedOut: bool): Outcome {
    if timedOut then Timeout else if returncode == 0 then Completed else NonzeroExit
  }

  // ---------------------------------------------------------------- the raw log

  /** `_raw_log`. */
  function RawLog(stdout: string, stderr: string): string {
    if stderr != "" then "[stdout]\n" + stdout + "\n[stderr]\n" + stderr else stdout
  }

  function ArchiveMarker(count: nat): string {
    "\n... raw archive truncated; " + Decimal(count) + " or more characters omitted ...\n"
  }

  /** `_bounded_text`. */
  function BoundedText(text: string, limit: nat): string {
    if |text| <= limit then text
    else
      var available := Max(0, limit - |ArchiveMarker(|text| - limit)|);
      FirstChars(text, available / 2) + ArchiveMarker(|text| - limit) + LastChars(text, available - available / 2)
  }

  /** The stored archive never exceeds its limit, provided the limit can hold the marker. */
  lemma BoundedTextFits(text: string, limit: nat)
    requires |text| <= limit || |ArchiveMarker(|text| - limit)| <= limit
    ensures |BoundedText(text, limit)| <= limit
  {
  }

  /** The log holds both streams whole, the output stream first. */
  lemma LogHoldsBothStreams(stdout: string, stderr: string)
    ensures var log := RawLog(stdout, stderr); var at := if stderr == "" then 0 else 9;
      && |log| >= at + |stdout| + |stderr| && log[at..at + |stdout|] == stdout && log[|log| - |stderr|..] == stderr
      && (stderr != "" ==> log[..9] == "[stdout]\n" && log[9 + |stdout|..|log| - |stderr|] == "\n[stderr]\n")
      && (stderr == "" ==> log == stdout)
  {
    var log := RawLog(stdout, stderr);
    if stderr != "" {
      assert log == "[stdout]\n" + (stdout + ("\n[stderr]\n" + stderr));
    }
  }

  /** A log that is cut keeps both its ends, in equal parts but for one character, and says between them how much
      is missing at least. */
  lemma ArchiveKeepsBothEnds(text: string, limit: nat)
    requires |text| > limit >= |ArchiveMarker(|text| - limit)|
    ensures var cut, marker := BoundedText(text, limit), ArchiveMarker(|text| - limit); var n := limit - |marker|;
      && |cut| == limit && cut[..n / 2] == text[..n / 2] && cut[limit - (n - n / 2)..] == text[|text| - (n - n / 2)..]
      && cut[n / 2..n / 2 + |marker|] == marker
  {
  }

  /** The note the gateway appends to the error text of a timed-out call. */
  function TimeoutNote(stderr: string, timedOut: bool): string {
    if timedOut then stderr + (if stderr != "" && !EndsNewline(stderr) then "\n" else "") + "pred process timed out\n"
    else stderr
  }

  /** The note stands at the end, on a line of its own, behind all that the call wrote. */
  lemma NoteStandsAlone(stderr: string, timedOut: bool)
    ensures var noted := TimeoutNote(stderr, timedOut);
      && stderr <= noted && (!timedOut ==> noted == stderr)
      && (timedOut ==>
            var n := |noted| - |"pred process timed out\n"|;
            && n == |stderr| + (if stderr == "" || stderr[|stderr| - 1] == '\n' then 0 else 1)
            && noted[n..] == "pred process timed out\n" && (n == 0 || noted[n - 1] == '\n'))
  {
  }

  lemma CaptureFits(stream: string, limit: nat)
    ensures |CapturedText(stream, limit)| <= Max(0, limit - 160) + 46 + |Decimal(|stream|)|
  {
    RetainedLength(stream, limit);
    if CaptureTruncates(stream, limit) {
      DecimalMonotone(|stream| - Max(0, limit - 160), |stream|);
    }
  }

  /** No double truncation for gateway calls: what two captures keep, plus the timeout note and the log
      headings, always fits the archive limit they were captured under, as long as the lengths of the
      streams can be written with 121 digits in all. */
  lemma CapturedPairFitsArchive(out: string, err: string, timedOut: bool, config: Config)
    requires ValidConfig(config) && |Decimal(|out|)| + |Decimal(|err|)| <= 121
    ensures var stdout := CapturedText(out, StdoutLimit(config.archiveChars, true));
            var stderr := TimeoutNote(CapturedText(err, StderrLimit(config.archiveChars, true)), timedOut);
            && |RawLog(stdout, stderr)| <= config.archiveChars
            && BoundedText(RawLog(stdout, stderr), config.archiveChars) == RawLog(stdout, stderr)
  {
    hide CapturedText, Decimal;
    var limit := config.archiveChars;
    var stdout := CapturedText(out, StdoutLimit(limit, true));
    var captured := CapturedText(err, StderrLimit(limit, true));
    CaptureFits(out, StdoutLimit(limit, true));
    CaptureFits(err, StderrLimit(limit, true));
    assert |TimeoutNote(captured, timedOut)| <= |captured| + 24;
    assert |RawLog(stdout, TimeoutNote(captured, timedOut))| <= |stdout| + |captured| + 24 + 19;
  }

  /** The same for shell actions, whose error pipe is merged into the output pipe. */
  lemma CapturedShellFitsArchive(out: string, config: Config)
    requires ValidConfig(config) && |Decimal(|out|)| <= 114
    ensures var stdout := CapturedText(out, StdoutLimit(config.archiveChars, false));
            |stdout| <= config.archiveChars && BoundedText(RawLog(stdout, ""), config.archiveChars) == stdout
  {
    CaptureFits(out, StdoutLimit(config.archiveChars, false));
  }

  /** A text the harness writes itself fits too, cut if it must be. */
  lemma HarnessTextFits(text: string, config: Config)
    requires ValidConfig(config) && |Decimal(|text|)| <= 114
    ensures |BoundedText(RawLog(text, ""), config.archiveChars)| <= config.archiveChars
  {
    hide BoundedText, Decimal;
    var limit := config.archiveChars;
    if |text| > limit {
      DecimalMonotone(|text| - limit, |text|);
      ArchiveMarkerLength(|text| - limit);
    }
    BoundedTextFits(text, limit);
  }

  lemma ArchiveMarkerLength(count: nat)
    ensures |ArchiveMarker(count)| <= 70 + |Decimal(count)|
  {
  }

  // ---------------------------------------------------------------- the preview header

  function LogPath(observationId: string): string {
    "../observations/" + observationId + ".log"
  }

  function Flag(b: bool): string { if b then "true" else "false" }

  function Header(observationId: string, returncode: int, timedOut: bool, chars: nat, lines: nat, truncated: bool): string {
    "[observation " + observationId + "] returncode=" + Signed(returncode) + " timed_out=" + Flag(timedOut) + "\n"
    + "[raw log: " + LogPath(observationId) + "; original=" + Decimal(chars) + " chars/" + Decimal(lines)
    + " lines; archive=" + (if truncated then "truncated" else "complete") + "]\n"
  }

  function BodyLimit(config: Config, header: string): nat { Max(0, config.previewChars - |header|) }

  lemma SignedLength(i: int)
    ensures |Signed(i)| >= 1
  {
    DecimalMonotone(0, if i < 0 then -i else i);
  }

  lemma PredHeaderLength(request: string, returncode: int, timedOut: bool, chars: nat, lines: nat, truncated: bool)
    requires IsRequestId(request)
    ensures |Header(PredId(request), returncode, timedOut, chars, lines, truncated)| >= 193
  {
    SignedLength(returncode);
    DecimalMonotone(0, chars);
    DecimalMonotone(0, lines);
    assert |PredId(request)| == 37 && |LogPath(PredId(request))| == 57;
  }

  /** The smallest preview limit the configuration accepts is too small: a gateway call that prints four
      distinct lines and anything on its error stream cannot be rendered under it. */
  lemma MinimumPreviewTooSmall(policy: Policy, config: Config, request: string, returncode: int, timedOut: bool,
                               stdout: string, stderr: string, chars: nat, lines: nat, truncated: bool)
    requires config.previewChars == 256 && IsRequestId(request)
    requires stderr != "" && |StreamLines(policy, stdout)| >= 4
    ensures !Renders(policy, stdout, stderr,
                     BodyLimit(config, Header(PredId(request), returncode, timedOut, chars, lines, truncated)))
  {
    PredHeaderLength(request, returncode, timedOut, chars, lines, truncated);
    SmallLimitOverflows(policy, stdout, stderr,
                        BodyLimit(config, Header(PredId(request), returncode, timedOut, chars, lines, truncated)));
  }

  /** The preview of one observation: its header, and its body in what the header leaves of the limit. */
  function FullPreview(policy: Policy, config: Config, id: string, returncode: int, timedOut: bool, stdout: string, stderr: string,
                       chars: nat, lines: nat, truncated: bool): string {
    var header := Header(id, returncode, timedOut, chars, lines, truncated);
    header + Body(policy, stdout, stderr, BodyLimit(config, header))
  }

  /** The id is valid and has no log yet, and the preview can be rendered. */
  ghost predicate Packs(policy: Policy, config: Config, logs: set<string>, id: string, returncode: int, timedOut: bool,
                        stdout: string, stderr: string, chars: nat, lines: nat, truncated: bool) {
    && IsObservationId(id) && id !in logs
    && Renders(policy, stdout, stderr, BodyLimit(config, Header(id, returncode, timedOut, chars, lines, truncated)))
  }

  // ---------------------------------------------------------------- the store

  datatype Packaging =
    | Packaged(preview: string, metadata: Metadata)
    | InvalidId          // ValueError
    | LogExists          // FileExistsError, an OSError
    | RendererRaised     // AssertionError

  /** What every consumer of packaged metadata relies on. */
  predicate WellPackaged(m: Metadata, id: string, kind: Kind, command: string, returncode: int, timedOut: bool, config: Config) {
    && m.observationId == id && m.kind == kind && m.command == command && m.rawLog == LogPath(id)
    && m.returncode == returncode && m.timedOut == timedOut
    && m.previewChars <= config.previewChars && m.archiveChars <= config.archiveChars
  }

  class ObservationStore {
    const config: Config
    const policy: Policy
    var sequence: nat
    var logs: map<string, string>   // the log files written so far

    constructor (config: Config, policy: Policy)
      ensures this.config == config && this.policy == policy && sequence == 0 && logs == map[]
    {
      this.config, this.policy := config, policy;
      sequence, logs := 0, map[];
    }

    /** `package`: every outcome with its exact condition, the preview bound, and a log that is written
        at most once. */
    method Package(kind: Kind, command: string, returncode: int, timedOut: bool, stdout: string, stderr: string,
                   originalChars: nat, originalLines: nat, captureTruncated: bool, given: Option<string>)
      returns (r: Packaging, ghost id: string, ghost header: string)
      requires JsonNonEmpty(policy)
      modifies this
      ensures sequence == old(sequence) + if given.None? then 1 else 0
      ensures id == if given.Some? then given.value
                    else (if kind.ShellKind? then ShellId(sequence) else "pred-" + Padded(sequence, 4))
      ensures header == Header(id, returncode, timedOut, originalChars, originalLines,
                               captureTruncated || |RawLog(stdout, stderr)| > config.archiveChars)
      ensures var truncated := captureTruncated || |RawLog(stdout, stderr)| > config.archiveChars;
        && (r.Packaged? <==> Packs(policy, config, old(logs).Keys, id, returncode, timedOut, stdout, stderr, originalChars,
                                   originalLines, truncated))
        && (r.Packaged? ==> r.preview == FullPreview(policy, config, id, returncode, timedOut, stdout, stderr, originalChars,
                                                     originalLines, truncated))
      ensures r.InvalidId? <==> !IsObservationId(id)
      ensures r.LogExists? <==> IsObservationId(id) && id in old(logs)
      ensures r.RendererRaised? <==>
        (IsObservationId(id) && id !in old(logs) && !Renders(policy, stdout, stderr, BodyLimit(config, header)))
      ensures logs == if r.Packaged? || r.RendererRaised?
                      then old(logs)[id := BoundedText(RawLog(stdout, stderr), config.archiveChars)] else old(logs)
      ensures r.Packaged? ==>
        && |r.preview| <= config.previewChars
        && r.preview == header + Body(policy, stdout, stderr, BodyLimit(config, header))
        && r.metadata.observationId == id && r.metadata.kind == kind && r.metadata.command == command
        && r.metadata.rawLog == LogPath(id) && r.metadata.returncode == returncode && r.metadata.timedOut == timedOut
        && r.metadata.originalChars == originalChars && r.metadata.originalLines == originalLines
        && r.metadata.previewChars == |r.preview| && r.metadata.archiveChars == |logs[id]|
        && r.metadata.archiveTruncated == (captureTruncated || |RawLog(stdout, stderr)| > config.archiveChars)
        && (r.metadata.previewCompacted <==> BodyCompacts(policy, stdout, stderr, BodyLimit(config, header)))
      ensures r.Packaged? && |BoundedText(RawLog(stdout, stderr), config.archiveChars)| <= config.archiveChars ==>
        WellPackaged(r.metadata, id, kind, command, returncode, timedOut, config)
    {
      hide Renders, Body, RawLog, Header, BoundedText, IsObservationId, ShellId, Padded, Compacts;
      var name: string;
      if given.None? {
        sequence := sequence + 1;
        name := if kind.ShellKind? then ShellId(sequence) else "pred-" + Padded(sequence, 4);
      } else {
        name := given.value;
      }
      id := name;
      var raw := RawLog(stdout, stderr);
      var truncated := captureTruncated || |raw| > config.archiveChars;
      var top := Header(name, returncode, timedOut, originalChars, originalLines, truncated);
      header := top;
      if !IsObservationId(name) { return InvalidId, id, header; }
      if name in logs { return LogExists, id, header; }
      var archive := BoundedText(raw, config.archiveChars);
      logs := logs[name := archive];
      var body := CompactOutput(policy, stdout, stderr, BodyLimit(config, top));
      if body.RendererOverflow? { return RendererRaised, id, header; }
      var preview := top + body.text;
      HeaderRoom(policy, stdout, stderr, config, top);
      r := Packaged(preview, Metadata(name, kind, command, LogPath(name), returncode, timedOut, originalChars,
                                      originalLines, |preview|, |archive|, body.compacted, truncated));
    }
  }

  lemma HeaderRoom(policy: Policy, stdout: string, stderr: string, config: Config, header: string)
    requires Renders(policy, stdout, stderr, BodyLimit(config, header))
    ensures |header| + BodyLimit(config, header) == config.previewChars
  {
  }
}
