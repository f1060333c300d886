/** Validation of a whole private artifact: header, shortlist, triage ledger and fifty episode ledgers, with
    one set of request ids threaded through all of them. */
module Submission {
  import opened Text
  import opened Json
  import opened Observations
  import opened Contract
  import opened ObservationContract
  import opened TriageContract
  import opened EpisodeAgreement

  /** What the released benchmark expects: the number of rules (and of episodes) among it; `contentLength` is the
      length of `str(content)` of a message. */
  datatype Expected = Expected(
    runnerVersion: Value, safetyControls: Value, inference: Value, promptId: Value,
    triageBudget: Fields, episodeBudget: Fields, observation: Config,
    shortlistSize: nat, hypothesisChars: nat, contentLength: Value -> nat)

  const MESSAGE_CHARS: nat := 200_000

  const REQUIRED_TOP: set<Key> := {
    KModel, KLibraryCommit, KRunnerVersion, KPredVersion, KPromptId, KShortlist, KTriage, KEpisodes, KStatus,
    KSafetyControls, KInferenceParameters }

  const ALLOWED_TOP: set<Key> := REQUIRED_TOP + { KRankable, KCreatedAt, KSubmittedBy, KTest, KRunError }

  datatype Finding =
    | NotAnObject | MissingField | UnsupportedField | WrongRunnerVersion | WrongSafetyControls | Incomplete | NotRankable
    | UnsafeModel | UnsafeSubmitter | WrongInference | WrongPrompt
    | ShortlistSize | EntryNotRule | EntryInvalid | RulesNotUnique | RulesUnknown
    | TriageNotObject | TriageBudget | ShortlistDiffers
    | EpisodeCount | EpisodeNotObject | EpisodeOrder | HypothesisDiffers | RunErrorEpisode | LedgerNotObject | RuleOrBudget
    | TooManyMessages | OversizedMessage | OutcomeDiffers
    | InLedger(complaint: Complaint)

  datatype Outcome = Findings(list: seq<Finding>) | ValidationRaised

  // ---------------------------------------------------------------- small checks

  predicate IsWordChar(c: char) { 'a' <= c <= 'z' || 'A' <= c <= 'Z' || IsDigit(c) || c == '.' || c == '_' || c == '-' }

  predicate SafeModel(v: Value) {
    v.Str? && 1 <= |v.s| <= 200 && forall c :: c in v.s ==> IsWordChar(c) || c == ':' || c == '/'
  }

  predicate SafeSubmitter(v: Value) {
    v.Null? || (v.Str? && 1 <= |v.s| <= 100 && forall c :: c in v.s ==> IsWordChar(c) || c == '@')
  }

  function IntOf(v: Value): int { if v.Int? then v.i else 0 }

  predicate HeaderClean(s: Fields, x: Expected) {
    && REQUIRED_TOP <= s.Keys <= ALLOWED_TOP
    && PyEq(Get(s, KRunnerVersion), x.runnerVersion) && PyEq(Get(s, KSafetyControls), x.safetyControls)
    && PyEq(Get(s, KStatus), Str("completed")) && !Truthy(Get(s, KRunError)) && Get(s, KRankable) == Bool(true)
    && SafeModel(Get(s, KModel)) && SafeSubmitter(Get(s, KSubmittedBy))
    && PyEq(Get(s, KInferenceParameters), x.inference) && PyEq(Get(s, KPromptId), x.promptId)
  }

  method CheckHeader(s: Fields, x: Expected) returns (problems: seq<Finding>)
    requires REQUIRED_TOP <= s.Keys
    ensures problems == [] <==> HeaderClean(s, x)
  {
    hide PyEq, SafeModel, SafeSubmitter, Truthy;
    problems := [];
    if !(s.Keys <= ALLOWED_TOP) { problems := problems + [UnsupportedField]; }
    if !PyEq(Get(s, KRunnerVersion), x.runnerVersion) { problems := problems + [WrongRunnerVersion]; }
    if !PyEq(Get(s, KSafetyControls), x.safetyControls) { problems := problems + [WrongSafetyControls]; }
    if !PyEq(Get(s, KStatus), Str("completed")) || Truthy(Get(s, KRunError)) { problems := problems + [Incomplete]; }
    if Get(s, KRankable) != Bool(true) { problems := problems + [NotRankable]; }
    if !SafeModel(Get(s, KModel)) { problems := problems + [UnsafeModel]; }
    if !SafeSubmitter(Get(s, KSubmittedBy)) { problems := problems + [UnsafeSubmitter]; }
    if !PyEq(Get(s, KInferenceParameters), x.inference) { problems := problems + [WrongInference]; }
    if !PyEq(Get(s, KPromptId), x.promptId) { problems := problems + [WrongPrompt]; }
  }

  // ---------------------------------------------------------------- shortlist

  predicate HasRule(v: Value) { v.Obj? && Get(v.fields, KRule).Str? }

  predicate EntryClean(v: Value, x: Expected) {
    && HasRule(v) && v.fields.Keys <= {KRule, KHypothesis}
    && GetOr(v.fields, KHypothesis, Str("")).Str? && |GetOr(v.fields, KHypothesis, Str("")).s| <= x.hypothesisChars
  }

  /** The rules of the entries that have one. */
  function Rules(entries: seq<Value>, n: nat): seq<string>
    requires n <= |entries|
  {
    if n == 0 then []
    else Rules(entries, n - 1) + if HasRule(entries[n - 1]) then [Get(entries[n - 1].fields, KRule).s] else []
  }

  ghost predicate ShortlistClean(entries: seq<Value>, inventory: Option<set<string>>, x: Expected) {
    && (forall k :: 0 <= k < |entries| ==> EntryClean(entries[k], x))
    && NoDuplicates(Rules(entries, |entries|))
    && (inventory.Some? ==> forall rule :: rule in Rules(entries, |entries|) ==> rule in inventory.value)
  }

  method CheckShortlist(entries: seq<Value>, inventory: Option<set<string>>, x: Expected)
    returns (problems: seq<Finding>, rules: seq<string>)
    ensures problems == [] <==> ShortlistClean(entries, inventory, x)
    ensures rules == Rules(entries, |entries|)
  {
    problems, rules := [], [];
    for i := 0 to |entries|
      invariant problems == [] <==> forall k :: 0 <= k < i ==> EntryClean(entries[k], x)
      invariant rules == Rules(entries, i)
    {
      var entry := entries[i];
      if !HasRule(entry) {
        problems := problems + [EntryNotRule];
        continue;
      }
      rules := rules + [Get(entry.fields, KRule).s];
      var hypothesis := GetOr(entry.fields, KHypothesis, Str(""));
      if !(entry.fields.Keys <= {KRule, KHypothesis}) || !hypothesis.Str? || |hypothesis.s| > x.hypothesisChars {
        problems := problems + [EntryInvalid];
      }
    }
    if !NoDuplicates(rules) { problems := problems + [RulesNotUnique]; }
    if inventory.Some? && !(forall rule :: rule in rules ==> rule in inventory.value) {
      problems := problems + [RulesUnknown];
    }
  }

  // ---------------------------------------------------------------- triage

  function Wrap(list: seq<Complaint>): seq<Finding> { seq(|list|, k requires 0 <= k < |list| => InLedger(list[k])) }

  ghost predicate TriageClean(triage: Value, shortlist: Value, x: Expected) {
    triage.Obj? && Get(triage.fields, KLedger).Obj? &&
    var ledger := Get(triage.fields, KLedger).fields;
    && PyEq(Get(ledger, KBudget), Obj(x.triageBudget)) && PyEq(Get(ledger, KShortlist), shortlist)
    && TriageLedgerClean(ledger, x.triageBudget, x.observation)
  }

  method CheckTriage(triage: Value, shortlist: Value, x: Expected) returns (r: Outcome)
    ensures r == Findings([]) <==> TriageClean(triage, shortlist, x)
  {
    hide PyEq, ObservationsClean, StatusClean, TriageEventsClean;
    if !triage.Obj? || !Get(triage.fields, KLedger).Obj? { return Findings([TriageNotObject]); }
    var ledger := Get(triage.fields, KLedger).fields;
    var problems: seq<Finding> := if PyEq(Get(ledger, KBudget), Obj(x.triageBudget)) then [] else [TriageBudget];
    var observations := ValidateObservationLedger(ledger, true, x.observation);
    if observations.Raised? { return ValidationRaised; }
    problems := problems + Wrap(observations.list);
    if !PyEq(Get(ledger, KShortlist), shortlist) { problems := problems + [ShortlistDiffers]; }
    var status := ValidateStatus(Get(ledger, KStatus), x.triageBudget, TRIAGE_COUNTERS);
    if status.Raised? { return ValidationRaised; }
    var events := ValidateTriageEvents(ledger);
    if events.Raised? { return ValidationRaised; }
    return Findings(problems + Wrap(status.list) + Wrap(events.list));
  }

  // ---------------------------------------------------------------- one episode

  predicate MessageOk(v: Value, x: Expected) {
    v.Obj? && x.contentLength(GetOr(v.fields, KContent, Str(""))) <= MESSAGE_CHARS
  }

  ghost predicate MessagesClean(v: Value, x: Expected) {
    && v.List? && |v.items| <= 3 * IntOf(GetOr(x.episodeBudget, KModelGenerations, Int(0))) + 4
    && forall k :: 0 <= k < |v.items| ==> MessageOk(v.items[k], x)
  }

  /** The attempt number the episode should report: that of the first accepted attempt. */
  function ExpectedAttempt(attempts: seq<Value>): Option<Value> {
    if attempts == [] then None
    else if IsAccepted(attempts[0]) then Some(Get(attempts[0].fields, KAttempt))
    else ExpectedAttempt(attempts[1..])
  }

  predicate OutcomeClean(episode: Fields, ledger: Fields) {
    var attempts := Iterated(GetOr(ledger, KSubmit, List([])));
    attempts.Some? &&
    var expected := ExpectedAttempt(attempts.value);
    && PyEq(Get(episode, KStatus), Str(if expected.Some? then "bug_found" else "completed"))
    && PyEq(Get(episode, KAcceptedSubmitAttempt), if expected.Some? then expected.value else Null)
  }

  /** The rule at a position, as the validator looks it up. */
  function RuleAt(rules: seq<string>, i: nat): Value { if i < |rules| then Str(rules[i]) else Null }

  function LedgerOf(episode: Value): Fields {
    if episode.Obj? && Get(episode.fields, KLedger).Obj? then Get(episode.fields, KLedger).fields else map[]
  }

  predicate EpisodeRecordClean(episode: Fields, i: nat, entry: Fields, rules: seq<string>, x: Expected) {
    && PyEq(Get(episode, KIndex), Int(i + 1)) && PyEq(Get(episode, KRule), RuleAt(rules, i))
    && PyEq(Get(episode, KHypothesis), GetOr(entry, KHypothesis, Str("")))
    && !PyEq(Get(episode, KStatus), Str("run_error"))
    && Get(episode, KLedger).Obj?
    && PyEq(Get(Get(episode, KLedger).fields, KRule), RuleAt(rules, i))
    && PyEq(Get(Get(episode, KLedger).fields, KBudget), Obj(x.episodeBudget))
  }

  ghost predicate EpisodeClean(episode: Value, i: nat, entry: Value, rules: seq<string>, x: Expected, seen: set<string>) {
    && episode.Obj? && entry.Obj?
    && EpisodeRecordClean(episode.fields, i, entry.fields, rules, x)
    && MessagesClean(Get(episode.fields, KMessages), x)
    && LedgerClean(LedgerOf(episode), x.episodeBudget, RuleAt(rules, i), x.observation, seen)
    && OutcomeClean(episode.fields, LedgerOf(episode))
  }

  /** The request ids of one episode's ledgers. */
  function EpisodeIds(episode: Value): set<string> {
    LedgerIds(LedgerOf(episode), KPred) + LedgerIds(LedgerOf(episode), KSubmit)
  }

  method CheckEpisode(episode: Value, i: nat, entry: Value, rules: seq<string>, x: Expected, seen: set<string>)
    returns (r: Outcome, seen': set<string>)
    ensures r == Findings([]) <==> EpisodeClean(episode, i, entry, rules, x, seen)
    ensures r == Findings([]) ==> seen' == seen + EpisodeIds(episode)
  {
    hide PyEq, LedgerClean, LedgerIds, MessageOk, ExpectedAttempt;
    seen' := seen;
    if !episode.Obj? { return Findings([EpisodeNotObject]), seen'; }
    var d := episode.fields;
    var problems: seq<Finding> := [];
    if !PyEq(Get(d, KIndex), Int(i + 1)) || !PyEq(Get(d, KRule), RuleAt(rules, i)) { problems := problems + [EpisodeOrder]; }
    if !entry.Obj? { return ValidationRaised, seen'; }
    if !PyEq(Get(d, KHypothesis), GetOr(entry.fields, KHypothesis, Str(""))) { problems := problems + [HypothesisDiffers]; }
    if PyEq(Get(d, KStatus), Str("run_error")) { problems := problems + [RunErrorEpisode]; }
    if !Get(d, KLedger).Obj? { return Findings(problems + [LedgerNotObject]), seen'; }
    var ledger := Get(d, KLedger).fields;
    if !PyEq(Get(ledger, KRule), RuleAt(rules, i)) || !PyEq(Get(ledger, KBudget), Obj(x.episodeBudget)) {
      problems := problems + [RuleOrBudget];
    }
    ghost var recordClean := problems == [];
    assert recordClean <==> EpisodeRecordClean(d, i, entry.fields, rules, x);
    var messages := Get(d, KMessages);
    if !messages.List? || |messages.items| > 3 * IntOf(GetOr(x.episodeBudget, KModelGenerations, Int(0))) + 4 {
      problems := problems + [TooManyMessages];
    } else if exists k :: 0 <= k < |messages.items| && !MessageOk(messages.items[k], x) {
      problems := problems + [OversizedMessage];
    }
    assert problems == [] <==> recordClean && MessagesClean(messages, x);
    hide EpisodeRecordClean, MessagesClean;
    var checked: Checked;
    checked, seen' := ValidateLedger(ledger, x.episodeBudget, RuleAt(rules, i), x.observation, seen);
    if checked.Raised? { return ValidationRaised, seen'; }
    problems := problems + Wrap(checked.list);
    var attempts := Iterated(GetOr(ledger, KSubmit, List([])));
    if attempts.None? { return ValidationRaised, seen'; }
    var expected := ExpectedAttempt(attempts.value);
    if !PyEq(Get(d, KStatus), Str(if expected.Some? then "bug_found" else "completed"))
       || !PyEq(Get(d, KAcceptedSubmitAttempt), if expected.Some? then expected.value else Null) {
      problems := problems + [OutcomeDiffers];
    }
    return Findings(problems), seen';
  }

  // ---------------------------------------------------------------- the artifact

  /** The request ids of the first `n` episodes. */
  function SeenBefore(episodes: seq<Value>, n: nat): set<string>
    requires n <= |episodes|
  {
    if n == 0 then {} else SeenBefore(episodes, n - 1) + EpisodeIds(episodes[n - 1])
  }

  ghost predicate EpisodesClean(episodes: seq<Value>, n: nat, entries: seq<Value>, rules: seq<string>, x: Expected)
    requires n <= |episodes| && n <= |entries|
  {
    forall i :: 0 <= i < n ==> EpisodeClean(episodes[i], i, entries[i], rules, x, SeenBefore(episodes, i))
  }

  ghost predicate SubmissionClean(submission: Value, inventory: Option<set<string>>, x: Expected) {
    && submission.Obj? && HeaderClean(submission.fields, x)
    && var shortlist, episodes := Get(submission.fields, KShortlist), Get(submission.fields, KEpisodes);
       && shortlist.List? && |shortlist.items| == x.shortlistSize && ShortlistClean(shortlist.items, inventory, x)
       && TriageClean(Get(submission.fields, KTriage), shortlist, x)
       && episodes.List? && |episodes.items| == x.shortlistSize
       && EpisodesClean(episodes.items, |episodes.items|, shortlist.items, Rules(shortlist.items, |shortlist.items|), x)
  }

  method CheckEpisodes(episodes: seq<Value>, entries: seq<Value>, rules: seq<string>, x: Expected) returns (r: Outcome)
    requires |episodes| <= |entries|
    ensures r == Findings([]) <==> EpisodesClean(episodes, |episodes|, entries, rules, x)
  {
    hide EpisodeClean, EpisodeIds;
    var problems: seq<Finding> := [];
    var seen: set<string> := {};
    for i := 0 to |episodes|
      invariant problems == [] <==> EpisodesClean(episodes, i, entries, rules, x)
      invariant problems == [] ==> seen == SeenBefore(episodes, i)
    {
      var one: Outcome;
      one, seen := CheckEpisode(episodes[i], i, entries[i], rules, x, seen);
      if one.ValidationRaised? {
        if problems == [] { assert !EpisodeClean(episodes[i], i, entries[i], rules, x, SeenBefore(episodes, i)); }
        return ValidationRaised;
      }
      problems := problems + one.list;
    }
    return Findings(problems);
  }

  /** `list(dict.fromkeys(problems))`. */
  function Unique(list: seq<Finding>): (r: seq<Finding>)
    ensures forall f :: f in r <==> f in list
    ensures r == [] <==> list == []
  {
    if list == [] then []
    else
      var front, last := Unique(list[..|list| - 1]), list[|list| - 1];
      if last in front then front else front + [last]
  }

  /** `validate_top50_submission`: silent exactly on the artifacts `SubmissionClean` describes. */
  method ValidateTop50(submission: Value, inventory: Option<set<string>>, x: Expected) returns (r: Outcome)
    ensures r == Findings([]) <==> SubmissionClean(submission, inventory, x)
  {
    hide HeaderClean, ShortlistClean, TriageClean, EpisodesClean, Rules, Unique;
    if !submission.Obj? { return Findings([NotAnObject]); }
    var s := submission.fields;
    if !(REQUIRED_TOP <= s.Keys) {
      assert !HeaderClean(s, x) by { MissingMeansUnclean(s, x); }
      return Findings([MissingField]);
    }
    var problems := CheckHeader(s, x);
    var shortlist := Get(s, KShortlist);
    if !shortlist.List? || |shortlist.items| != x.shortlistSize { return Findings(problems + [ShortlistSize]); }
    var listed, rules := CheckShortlist(shortlist.items, inventory, x);
    problems := problems + listed;
    var triaged := CheckTriage(Get(s, KTriage), shortlist, x);
    if triaged.ValidationRaised? { return ValidationRaised; }
    problems := problems + triaged.list;
    var episodes := Get(s, KEpisodes);
    if !episodes.List? || |episodes.items| != x.shortlistSize { return Findings(problems + [EpisodeCount]); }
    var each := CheckEpisodes(episodes.items, shortlist.items, rules, x);
    if each.ValidationRaised? { return ValidationRaised; }
    return Findings(Unique(problems + each.list));
  }

  lemma MissingMeansUnclean(s: Fields, x: Expected)
    requires !(REQUIRED_TOP <= s.Keys)
    ensures !HeaderClean(s, x)
  {
  }
}
