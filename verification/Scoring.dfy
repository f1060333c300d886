/** Scoring of a validated artifact: every accepted certificate is verified again. */
module Scoring {
  import opened Text
  import opened Counting
  import opened Json
  import opened Contract
  import opened ObservationContract
  import opened EpisodeAgreement
  import opened Submission
  import opened Soundness

  datatype ReportLine = ReportLine(position: nat, rule: Value, attempt: Value, accepted: bool)

  datatype Score = Score(
    rankable: bool, bugs: nat, bugsAt10: nat, bugsAt25: nat, bugsAt50: nat, firstAccepts: nat, secondAccepts: nat,
    report: seq<ReportLine>)

  datatype ScoringResult = Scored(score: Score) | ScoringRaised

  function Attempts(episode: Value): seq<Value> { Items(Get(LedgerOf(episode), KSubmit)) }

  /** Where the first accepted attempt is; the length if there is none. */
  function FirstAccepted(attempts: seq<Value>, from: nat): (r: nat)
    requires from <= |attempts|
    ensures from <= r <= |attempts|
    ensures r < |attempts| ==> IsAccepted(attempts[r])
    ensures forall k :: from <= k < r ==> !IsAccepted(attempts[k])
    decreases |attempts| - from
  {
    if from == |attempts| || IsAccepted(attempts[from]) then from else FirstAccepted(attempts, from + 1)
  }

  predicate HoldsAccepted(episode: Value) { FirstAccepted(Attempts(episode), 0) < |Attempts(episode)| }

  function CertificateOf(attempt: Value): Value { if attempt.Obj? then Get(attempt.fields, KCertificate) else Null }

  /** The accepted certificate of the episode passes verification again. */
  predicate IsBug(episode: Value, verifier: Value -> bool) {
    HoldsAccepted(episode) && verifier(CertificateOf(Attempts(episode)[FirstAccepted(Attempts(episode), 0)]))
  }

  /** Its attempt calls itself the first one. */
  predicate OnFirst(episode: Value) {
    HoldsAccepted(episode)
    && PyEq(Get(Attempts(episode)[FirstAccepted(Attempts(episode), 0)].fields, KAttempt), Int(1))
  }

  /** The bugs among the first `n` episodes. */
  function Bugs(episodes: seq<Value>, n: nat, verifier: Value -> bool): (r: nat)
    requires n <= |episodes|
    ensures r <= n
  {
    if n == 0 then 0 else Bugs(episodes, n - 1, verifier) + Bit(IsBug(episodes[n - 1], verifier))
  }

  function FirstTries(episodes: seq<Value>, n: nat, verifier: Value -> bool): nat
    requires n <= |episodes|
  {
    if n == 0 then 0
    else FirstTries(episodes, n - 1, verifier) + Bit(IsBug(episodes[n - 1], verifier) && OnFirst(episodes[n - 1]))
  }

  /** The episodes among the first `n` that hold an accepted attempt. */
  function Accepted(episodes: seq<Value>, n: nat): nat
    requires n <= |episodes|
  {
    if n == 0 then 0 else Accepted(episodes, n - 1) + Bit(HoldsAccepted(episodes[n - 1]))
  }

  lemma {:induction false} BugsMonotone(episodes: seq<Value>, m: nat, n: nat, verifier: Value -> bool)
    requires m <= n <= |episodes|
    ensures Bugs(episodes, m, verifier) <= Bugs(episodes, n, verifier)
    decreases n
  {
    hide IsBug;
    if m < n { BugsMonotone(episodes, m, n - 1, verifier); }
  }

  /** The report on one episode: one line about its accepted attempt, if it has one. */
  function LinesOf(position: nat, episode: Value, verifier: Value -> bool): seq<ReportLine> {
    if !HoldsAccepted(episode) then []
    else
      var attempt := Attempts(episode)[FirstAccepted(Attempts(episode), 0)];
      [ReportLine(position, if episode.Obj? then Get(episode.fields, KRule) else Null, Get(attempt.fields, KAttempt),
                  IsBug(episode, verifier))]
  }

  /** The report on the first `n` episodes. */
  function ReportOf(episodes: seq<Value>, n: nat, verifier: Value -> bool): (r: seq<ReportLine>)
    requires n <= |episodes|
    ensures |r| == Accepted(episodes, n)
  {
    if n == 0 then [] else ReportOf(episodes, n - 1, verifier) + LinesOf(n, episodes[n - 1], verifier)
  }

  /** The certificates of the first `n` episodes that are verified again, in order: one for every episode with an
      accepted attempt. */
  function Reverified(episodes: seq<Value>, n: nat): (r: seq<Value>)
    requires n <= |episodes|
    ensures |r| == Accepted(episodes, n)
  {
    if n == 0 then [] else Reverified(episodes, n - 1) + CallsOf(episodes[n - 1])
  }

  function CallsOf(episode: Value): seq<Value> {
    if HoldsAccepted(episode) then [CertificateOf(Attempts(episode)[FirstAccepted(Attempts(episode), 0)])] else []
  }

  /** Calls and report lines are in the order of the episodes: those of an episode with an accepted attempt stand where
      the number of such episodes before it says. */
  lemma {:induction false} OnePerAcceptedInOrder(episodes: seq<Value>, i: nat, n: nat, verifier: Value -> bool)
    requires i < n <= |episodes| && HoldsAccepted(episodes[i])
    ensures Accepted(episodes, i) < Accepted(episodes, n)
    ensures Reverified(episodes, n)[Accepted(episodes, i)] == CallsOf(episodes[i])[0]
    ensures ReportOf(episodes, n, verifier)[Accepted(episodes, i)] == LinesOf(i + 1, episodes[i], verifier)[0]
    decreases n
  {
    hide HoldsAccepted, IsBug, CertificateOf;
    if i < n - 1 { OnePerAcceptedInOrder(episodes, i, n - 1, verifier); }
  }

  /** The verifier, with a record of what it was called on. */
  class Verifying {
    const accepts: Value -> bool
    var calls: seq<Value>

    constructor (accepts: Value -> bool)
      ensures this.accepts == accepts && calls == []
    {
      this.accepts := accepts;
      calls := [];
    }

    method Verify(certificate: Value) returns (accepted: bool)
      modifies this
      ensures accepted == accepts(certificate) && calls == old(calls) + [certificate]
    {
      calls := calls + [certificate];
      return accepts(certificate);
    }
  }

  /** How many positions of an increasing list are at most `bound`. */
  function AtMost(positions: seq<nat>, bound: nat): nat {
    if positions == [] then 0 else AtMost(positions[..|positions| - 1], bound) + Bit(positions[|positions| - 1] <= bound)
  }

  /** The body of the episode loop: the first attempt marked accepted is verified, later ones are not. */
  method VerifyEpisode(position: nat, episode: Value, verifier: Verifying)
    returns (report: seq<ReportLine>, bug: bool, first: bool)
    modifies verifier
    ensures report == LinesOf(position, episode, verifier.accepts) && bug == IsBug(episode, verifier.accepts)
    ensures verifier.calls == old(verifier.calls) + CallsOf(episode)
    ensures bug ==> first == OnFirst(episode)
  {
    hide PyEq;
    report, bug, first := [], false, false;
    var attempts, i := Attempts(episode), 0;
    while i < |attempts|
      invariant 0 <= i <= |attempts| && FirstAccepted(attempts, 0) == FirstAccepted(attempts, i)
      invariant report == [] && !bug && verifier.calls == old(verifier.calls)
    {
      var attempt := attempts[i];
      if !IsAccepted(attempt) {
        i := i + 1;
        continue;
      }
      bug := verifier.Verify(CertificateOf(attempt));
      report := [ReportLine(position, if episode.Obj? then Get(episode.fields, KRule) else Null, Get(attempt.fields, KAttempt), bug)];
      first := PyEq(Get(attempt.fields, KAttempt), Int(1));
      break;
    }
  }

  /** What the numbers of a score count. */
  predicate ScoreCounts(score: Score, episodes: seq<Value>, verifier: Value -> bool) {
    && score.bugs == score.bugsAt50 == Bugs(episodes, |episodes|, verifier)
    && score.bugsAt10 == Bugs(episodes, Min(10, |episodes|), verifier)
    && score.bugsAt25 == Bugs(episodes, Min(25, |episodes|), verifier)
    && score.firstAccepts == FirstTries(episodes, |episodes|, verifier)
    && score.firstAccepts + score.secondAccepts == score.bugs
    && score.report == ReportOf(episodes, |episodes|, verifier)
  }

  /** `score_top50_submission`: an artifact that does not validate is not verified at all; of one that does, the
      first accepted certificate of every episode is verified once, in order. */
  method ScoreTop50(submission: Value, inventory: Option<set<string>>, x: Expected, verifier: Verifying) returns (r: ScoringResult)
    modifies verifier
    ensures r.Scored? ==> (r.score.rankable <==> SubmissionClean(submission, inventory, x))
    ensures r.ScoringRaised? ==> !SubmissionClean(submission, inventory, x)
    ensures r.Scored? && !r.score.rankable ==> r.score == Score(false, 0, 0, 0, 0, 0, 0, [])
    ensures r.Scored? && r.score.rankable ==> ScoreCounts(r.score, Episodes(submission), verifier.accepts)
    ensures verifier.calls == old(verifier.calls) + if r.Scored? && r.score.rankable
                                                    then Reverified(Episodes(submission), |Episodes(submission)|) else []
  {
    hide SubmissionClean, ScoreCounts;
    var checked := ValidateTop50(submission, inventory, x);
    if checked.ValidationRaised? { return ScoringRaised; }
    if checked.list != [] { return Scored(Score(false, 0, 0, 0, 0, 0, 0, [])); }
    var score := CountBugs(Episodes(submission), verifier);
    return Scored(score);
  }

  /** The loop state of the scoring loop after `n` episodes. */
  ghost predicate Tally(episodes: seq<Value>, n: nat, accepts: Value -> bool, positions: seq<nat>, first: nat, second: nat,
                        report: seq<ReportLine>)
    requires n <= |episodes|
  {
    && |positions| == Bugs(episodes, n, accepts) && first + second == |positions|
    && first == FirstTries(episodes, n, accepts) && report == ReportOf(episodes, n, accepts)
    && AtMost(positions, 10) == Bugs(episodes, Min(10, n), accepts)
    && AtMost(positions, 25) == Bugs(episodes, Min(25, n), accepts)
    && (forall k :: 0 <= k < |positions| ==> positions[k] <= n)
    && (forall j, k :: 0 <= j < k < |positions| ==> positions[j] < positions[k])
  }

  lemma TallyPush(episodes: seq<Value>, n: nat, accepts: Value -> bool, positions: seq<nat>, first: nat, second: nat,
                  report: seq<ReportLine>)
    requires n < |episodes| && Tally(episodes, n, accepts, positions, first, second, report)
    ensures var episode, lines := episodes[n], LinesOf(n + 1, episodes[n], accepts);
      if !IsBug(episode, accepts) then Tally(episodes, n + 1, accepts, positions, first, second, report + lines)
      else if OnFirst(episode) then Tally(episodes, n + 1, accepts, positions + [n + 1], first + 1, second, report + lines)
      else Tally(episodes, n + 1, accepts, positions + [n + 1], first, second + 1, report + lines)
  {
    hide IsBug, OnFirst, HoldsAccepted, LinesOf;
    assert (positions + [n + 1])[..|positions|] == positions;
  }

  /** The scoring loop. */
  method CountBugs(episodes: seq<Value>, verifier: Verifying) returns (score: Score)
    modifies verifier
    ensures score.rankable && ScoreCounts(score, episodes, verifier.accepts)
    ensures verifier.calls == old(verifier.calls) + Reverified(episodes, |episodes|)
  {
    hide CallsOf, IsBug, OnFirst, HoldsAccepted, LinesOf;
    var positions: seq<nat> := [];
    var report: seq<ReportLine> := [];
    var first, second := 0, 0;
    assert Tally(episodes, 0, verifier.accepts, positions, first, second, report);
    for i := 0 to |episodes|
      invariant Tally(episodes, i, verifier.accepts, positions, first, second, report)
      invariant verifier.calls == old(verifier.calls) + Reverified(episodes, i)
    {
      hide Tally;
      TallyPush(episodes, i, verifier.accepts, positions, first, second, report);
      var lines, bug, onFirst := VerifyEpisode(i + 1, episodes[i], verifier);
      report := report + lines;
      if bug {
        positions := positions + [i + 1];
        if onFirst { first := first + 1; } else { second := second + 1; }
      }
    }
    // The positions are strictly increasing, so sorting the set of them changes nothing.
    return Score(true, |positions|, AtMost(positions, 10), AtMost(positions, 25), |positions|, first, second, report);
  }

  // ---------------------------------------------------------------- what the numbers mean

  /** The shortlisted rules whose accepted certificate was verified again. */
  function VerifiedRules(episodes: seq<Value>, rules: seq<string>, n: nat, verifier: Value -> bool): set<string>
    requires n <= |episodes|
  {
    if n == 0 then {}
    else
      VerifiedRules(episodes, rules, n - 1, verifier)
      + if IsBug(episodes[n - 1], verifier) && n - 1 < |rules| then {rules[n - 1]} else {}
  }

  lemma {:induction false} VerifiedRulesCount(episodes: seq<Value>, rules: seq<string>, n: nat, verifier: Value -> bool)
    requires n <= |episodes| && n <= |rules| && NoDuplicates(rules)
    ensures |VerifiedRules(episodes, rules, n, verifier)| == Bugs(episodes, n, verifier)
    ensures forall k :: n <= k < |rules| ==> rules[k] !in VerifiedRules(episodes, rules, n, verifier)
  {
    hide IsBug;
    if n > 0 {
      VerifiedRulesCount(episodes, rules, n - 1, verifier);
      assert rules[n - 1] !in VerifiedRules(episodes, rules, n - 1, verifier);
    }
  }

  /** For an accepted artifact the verified bugs are exactly the distinct shortlisted rules that were
      verified again, and the counts at 10 and 25 never exceed the total, nor that the number of episodes. */
  lemma BugsAreDistinctRules(submission: Value, inventory: Option<set<string>>, x: Expected, verifier: Value -> bool, score: Score)
    requires SubmissionClean(submission, inventory, x) && ScoreCounts(score, Episodes(submission), verifier)
    ensures |RulesOf(submission)| == |Episodes(submission)| == x.shortlistSize
    ensures score.bugs == |VerifiedRules(Episodes(submission), RulesOf(submission), |Episodes(submission)|, verifier)|
    ensures score.bugsAt10 <= score.bugsAt25 <= score.bugsAt50 <= |Episodes(submission)|
    ensures score.firstAccepts + score.secondAccepts == score.bugs
  {
    hide HeaderClean, TriageClean, EpisodesClean, EntryClean, Rules, IsBug;
    var episodes, entries := Episodes(submission), ShortlistOf(submission);
    RulesOfCleanEntries(entries, |entries|, x);
    VerifiedRulesCount(episodes, RulesOf(submission), |episodes|, verifier);
    BugsMonotone(episodes, Min(10, |episodes|), Min(25, |episodes|), verifier);
    BugsMonotone(episodes, Min(25, |episodes|), |episodes|, verifier);
  }

  lemma NumberIs(v: Value, n: nat)
    requires PyEq(v, Int(n))
    ensures PyEq(v, Int(1)) <==> n == 1
  {
  }

  lemma TwoAccepted(attempts: seq<Value>, f: nat, k: nat)
    requires f < k < |attempts| && IsAccepted(attempts[f]) && IsAccepted(attempts[k])
    ensures CountIf(attempts, IsAccepted) >= 2
  {
    CountUpdate(attempts, f, Null, IsAccepted);
    CountSome(attempts[f := Null], k, IsAccepted);
  }

  lemma OnlyAccepted(ledger: Fields, rule: Value, seen: set<string>, k: nat)
    requires SubmitClean(ledger, rule, seen) && k < |Items(Get(ledger, KSubmit))|
    requires IsAccepted(Items(Get(ledger, KSubmit))[k])
    ensures FirstAccepted(Items(Get(ledger, KSubmit)), 0) == k
    ensures PyEq(Get(Items(Get(ledger, KSubmit))[k].fields, KAttempt), Int(1)) <==> k == 0
  {
    hide Canon, AcceptanceClean, FreshIds, StatusItem, CountIf;
    var attempts := Items(Get(ledger, KSubmit));
    var f := FirstAccepted(attempts, 0);
    if f < k { TwoAccepted(attempts, f, k); }
    assert AttemptClean(attempts[k], k, rule);
    NumberIs(Get(attempts[k].fields, KAttempt), k + 1);
  }

  /** In an accepted artifact every episode has at most one accepted attempt, which is the one that is verified
      again, and it is counted as a first accept exactly when it is the first attempt of its episode. */
  lemma AttemptNumbersAreTrue(submission: Value, inventory: Option<set<string>>, x: Expected, i: nat, k: nat)
    requires SubmissionClean(submission, inventory, x) && i < |Episodes(submission)|
    requires k < |Attempts(Episodes(submission)[i])| && IsAccepted(Attempts(Episodes(submission)[i])[k])
    ensures FirstAccepted(Attempts(Episodes(submission)[i]), 0) == k
    ensures OnFirst(Episodes(submission)[i]) <==> k == 0
  {
    hide SubmissionClean, StatusClean, EventsClean, ObservationsClean, PredClean, SubmitClean, PyEq, IsAccepted;
    CleanEpisode(submission, inventory, x, i);
    var episodes := Episodes(submission);
    var ledger := LedgerOf(episodes[i]);
    var rule :| LedgerClean(ledger, x.episodeBudget, rule, x.observation, SeenBefore(episodes, i));
    OnlyAccepted(ledger, rule, SeenBefore(episodes, i) + LedgerIds(ledger, KPred), k);
  }
}
