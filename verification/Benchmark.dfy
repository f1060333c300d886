/** The released numbers, instantiated last. */
module Benchmark {
  import opened Text
  import opened Budget
  import opened Lines
  import opened Selection
  import opened Preview
  import opened Observations
  import opened Gateway
  import opened Episode
  import opened LedgerReading
  import opened EpisodeAgreement
  import opened Json
  import opened Triage
  import opened TriageAgreement
  import opened Runner
  import opened Submission
  import opened EndToEnd

  const EPISODE_LIMITS := Usage(10, 12, 24, 10)
  const TRIAGE_LIMITS := Usage(8, 12, 0, 0)
  const OBSERVATION := Config(10_000, 1_048_576)
  const OUTPUT_CHARS: nat := 10_000
  const COMMAND_SECONDS: nat := 300
  const SHORTLIST_SIZE: nat := 50
  const HYPOTHESIS_CHARS: nat := 500

  lemma HeaderAtMost(id: string, returncode: int, timedOut: bool, chars: nat, lines: nat, truncated: bool)
    ensures |Header(id, returncode, timedOut, chars, lines, truncated)|
      <= 2 * |id| + |Signed(returncode)| + |Decimal(chars)| + |Decimal(lines)| + 140
  {
    hide Decimal, Signed;
  }

  /** With the released preview limit neither internal assertion of the renderer can fire: the header leaves
      each stream a share that holds any omission marker, for all outputs whose sizes have at most a thousand
      digits. */
  lemma PreviewsNeverRaise(policy: Policy, id: string, returncode: int, timedOut: bool, stdout: string, stderr: string,
                           chars: nat, lines: nat, truncated: bool)
    requires IsObservationId(id)
    requires |Signed(returncode)| <= 1000 && |Decimal(chars)| <= 1000 && |Decimal(lines)| <= 1000
    requires |Decimal(|Physical(Effective(policy, stdout))|)| <= 1000
    requires |Decimal(|Physical(Effective(policy, stderr))|)| <= 1000
    ensures Renders(policy, stdout, stderr, BodyLimit(OBSERVATION, Header(id, returncode, timedOut, chars, lines, truncated)))
  {
    hide Decimal, Signed, Header, Physical, Effective, Renders, Marker;
    HeaderAtMost(id, returncode, timedOut, chars, lines, truncated);
    MarkerLength(|Physical(Effective(policy, stdout))|);
    MarkerLength(|Physical(Effective(policy, stderr))|);
    MarkerSharesSuffice(policy, stdout, stderr, BodyLimit(OBSERVATION, Header(id, returncode, timedOut, chars, lines, truncated)));
  }

  /** The released budget allows runs the released validator rejects: any fourteen calls, granted, refused or free,
      whatever their processes do, leave one record more than the validator's bound of 13, unless the cache
      answers one of them. */
  lemma ReleasedBudgetAllowsRejectedRuns(rule: string, calls: nat -> Asked)
    requires NoneCached(calls, 14, OBSERVATION)
    ensures exists actions :: RejectedRun(rule, OUTPUT_CHARS, COMMAND_SECONDS, EPISODE_LIMITS, OBSERVATION, actions)
  {
    hide NoneCached, TotalLength, IsCall;
    DecimalAtMost(14, 32);
    EveryBudgetAllowsRejectedRuns(rule, OUTPUT_CHARS, COMMAND_SECONDS, EPISODE_LIMITS, OBSERVATION, calls);
  }

  /** The smallest preview limit the configuration accepts would not do. */
  lemma SmallestPreviewWouldRaise(policy: Policy, request: string, stdout: string, stderr: string)
    requires IsRequestId(request) && stderr != "" && |StreamLines(policy, stdout)| >= 4
    ensures ValidConfig(OBSERVATION.(previewChars := 256))
    ensures !Renders(policy, stdout, stderr,
                     BodyLimit(OBSERVATION.(previewChars := 256), Header(PredId(request), 1, false, |stdout| + |stderr|, 5, false)))
  {
    hide Header, Renders, StreamLines;
    MinimumPreviewTooSmall(policy, OBSERVATION.(previewChars := 256), request, 1, false, stdout, stderr, |stdout| + |stderr|, 5, false);
  }

  function Released(inventory: seq<string>): Bench {
    Bench(TRIAGE_LIMITS, EPISODE_LIMITS, OBSERVATION, OUTPUT_CHARS, COMMAND_SECONDS, COMMAND_SECONDS,
          Demands(inventory, SHORTLIST_SIZE, HYPOTHESIS_CHARS))
  }

  /** At most 23 triage events and, in every ledger, at most 11 generations, 13 shell actions and 13 pred
      records. */
  ghost predicate IsShort(b: Bench, t: TriageState, plays: seq<Play>) {
    && |t.events| <= 23 && t.shortlist.Some? && |t.shortlist.value| == |plays| == 50
    && forall i :: 0 <= i < |plays| ==>
         Played(b, t.shortlist.value[i].rule, plays[i])
         && IsShortEpisode(Cut(MomentsIn(b, t.shortlist.value[i].rule, plays[i])))
  }

  predicate IsShortEpisode(ep: Episode) { |ep.models| <= 11 && |ep.shells| <= 13 && |ep.gateway.shared.ledger| <= 13 }

  lemma LimitsOfPlay(b: Bench, rule: string, play: Play)
    requires Played(b, rule, play)
    ensures Cut(MomentsIn(b, rule, play)).gateway.limits == b.episodeLimits
  {
    hide IsEpisodeRun, Final, IsReading, MomentsOf, EpisodeInv;
    RunConstants(StartOf(b, rule), play.actions);
    PlayIsCoherent(b, rule, play);
  }

  /** The agreement theorem with the released numbers. */
  lemma AcceptedRunsAreShort(inventory: seq<string>, x: Expected, s: Setup, t: TriageState, actions: seq<TriageAction>,
                             triage: TriageRun, plays: seq<Play>)
    requires HonestRun(Released(inventory), x, s, t, actions, triage, plays)
    requires SubmissionClean(Obj(Artifact(Released(inventory), s, triage, plays)), Some(set rule | rule in inventory), x)
    ensures IsShort(Released(inventory), t, plays)
  {
    hide SubmissionClean, Artifact, CommitIsLast, AllPlayed, Matches, GoodMetadata, IsTriageRun, TriageEnd,
         TriageLedger, SafeModel, Played, MomentsIn, Recounts;
    var b := Released(inventory);
    HonestRunMeetsValidator(b, x, s, t, actions, triage, plays);
    forall i | 0 <= i < |plays|
      ensures Played(b, t.shortlist.value[i].rule, plays[i])
      ensures IsShortEpisode(Cut(MomentsIn(b, t.shortlist.value[i].rule, plays[i])))
    {
      LimitsOfPlay(b, t.shortlist.value[i].rule, plays[i]);
    }
  }
}
