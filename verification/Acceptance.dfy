/** What an accepted artifact says, field by field, in the words of its JSON: a problem list is empty only if all of
    this holds, whoever wrote the artifact. */
module Acceptance {
  import opened Text
  import opened Counting
  import opened Json
  import opened Observations
  import opened CommandLine
  import opened Agreement
  import opened Contract
  import opened ObservationContract
  import opened TriageContract
  import opened EpisodeAgreement
  import opened Submission
  import opened Soundness
  import Scoring

  /** `v[k]` for a JSON object; null if there is no such thing. */
  function Field(v: Value, k: Key): Value { if v.Obj? then Get(v.fields, k) else Null }

  function EpisodeAt(submission: Value, i: nat): Value
    requires i < |Items(Field(submission, KEpisodes))|
  {
    Items(Field(submission, KEpisodes))[i]
  }

  function LedgerAt(submission: Value, i: nat): Value
    requires i < |Items(Field(submission, KEpisodes))|
  {
    Field(EpisodeAt(submission, i), KLedger)
  }

  /** The rule at a position of the shortlist. */
  function ListedRule(submission: Value, i: nat): Value
    requires i < |Items(Field(submission, KShortlist))|
  {
    Field(Items(Field(submission, KShortlist))[i], KRule)
  }

  // ---------------------------------------------------------------- the header and the shortlist

  lemma AcceptedHeader(submission: Value, inventory: Option<set<string>>, x: Expected)
    requires SubmissionClean(submission, inventory, x)
    ensures submission.Obj?
    ensures {KModel, KLibraryCommit, KRunnerVersion, KPredVersion, KPromptId, KShortlist, KTriage, KEpisodes, KStatus,
             KSafetyControls, KInferenceParameters} <= submission.fields.Keys
    ensures submission.fields.Keys - {KModel, KLibraryCommit, KRunnerVersion, KPredVersion, KPromptId, KShortlist, KTriage,
             KEpisodes, KStatus, KSafetyControls, KInferenceParameters} <= {KRankable, KCreatedAt, KSubmittedBy, KTest, KRunError}
    ensures Field(submission, KStatus) == Str("completed") && Field(submission, KRankable) == Bool(true)
    ensures !Truthy(Field(submission, KRunError))
    ensures PyEq(Field(submission, KRunnerVersion), x.runnerVersion) && PyEq(Field(submission, KPromptId), x.promptId)
    ensures PyEq(Field(submission, KSafetyControls), x.safetyControls) && PyEq(Field(submission, KInferenceParameters), x.inference)
    ensures var model := Field(submission, KModel);
      model.Str? && 1 <= |model.s| <= 200
      && forall c :: c in model.s ==> 'a' <= c <= 'z' || 'A' <= c <= 'Z' || '0' <= c <= '9' || c in "._-:/"
    ensures var submitter := Field(submission, KSubmittedBy);
      submitter.Null? || (submitter.Str? && 1 <= |submitter.s| <= 100
                   && forall c :: c in submitter.s ==> 'a' <= c <= 'z' || 'A' <= c <= 'Z' || '0' <= c <= '9' || c in "._-@")
  {
    hide ShortlistClean, TriageClean, EpisodesClean, Rules, Truthy;
    PyEqStr("completed", Field(submission, KStatus));
    hide PyEq;
  }

  /** Which names of models and submitters are accepted. */
  lemma NamesAllowed(v: Value)
    ensures SafeModel(v) <==>
      v.Str? && 1 <= |v.s| <= 200 && forall c :: c in v.s ==> 'a' <= c <= 'z' || 'A' <= c <= 'Z' || '0' <= c <= '9' || c in "._-:/"
    ensures SafeSubmitter(v) <==>
      || v == Null
      || (v.Str? && 1 <= |v.s| <= 100 && forall c :: c in v.s ==> 'a' <= c <= 'z' || 'A' <= c <= 'Z' || '0' <= c <= '9' || c in "._-@")
  {
  }

  lemma AcceptedShortlist(submission: Value, inventory: Option<set<string>>, x: Expected)
    requires SubmissionClean(submission, inventory, x)
    ensures Field(submission, KShortlist).List? && |Items(Field(submission, KShortlist))| == x.shortlistSize
    ensures Field(submission, KEpisodes).List? && |Items(Field(submission, KEpisodes))| == x.shortlistSize
    ensures forall i :: 0 <= i < x.shortlistSize ==>
      var entry := Items(Field(submission, KShortlist))[i];
      && entry.Obj? && entry.fields.Keys <= {KRule, KHypothesis} && ListedRule(submission, i).Str?
      && (KHypothesis in entry.fields ==>
            entry.fields[KHypothesis].Str? && |entry.fields[KHypothesis].s| <= x.hypothesisChars)
      && (inventory.Some? ==> ListedRule(submission, i).s in inventory.value)
    ensures forall i, j :: 0 <= i < j < x.shortlistSize ==> ListedRule(submission, i) != ListedRule(submission, j)
  {
    hide HeaderClean, TriageClean, EpisodesClean;
    var entries := Items(Field(submission, KShortlist));
    assert ShortlistClean(entries, inventory, x);
    RulesOfCleanEntries(entries, |entries|, x);
    hide Rules;
    forall i | 0 <= i < x.shortlistSize ensures EntryClean(entries[i], x) && ListedRule(submission, i) == Str(RulesOf(submission)[i]) {
      assert HasRule(entries[i]);
    }
  }

  // ---------------------------------------------------------------- one episode

  lemma EpisodeIsClean(submission: Value, inventory: Option<set<string>>, x: Expected, i: nat)
    requires SubmissionClean(submission, inventory, x) && i < |Items(Field(submission, KEpisodes))|
    ensures i < |Items(Field(submission, KShortlist))| && ListedRule(submission, i).Str?
    ensures EpisodeClean(EpisodeAt(submission, i), i, Items(Field(submission, KShortlist))[i], RulesOf(submission), x,
                         SeenBefore(Episodes(submission), i))
    ensures RuleAt(RulesOf(submission), i) == ListedRule(submission, i)
    ensures LedgerAt(submission, i) == Obj(LedgerOf(EpisodeAt(submission, i)))
  {
    hide HeaderClean, TriageClean, LedgerClean, MessagesClean, OutcomeClean, SeenBefore, PyEq;
    var entries := Items(Field(submission, KShortlist));
    assert ShortlistClean(entries, inventory, x);
    RulesOfCleanEntries(entries, |entries|, x);
    hide Rules;
    assert HasRule(entries[i]);
    assert EpisodeClean(EpisodeAt(submission, i), i, entries[i], RulesOf(submission), x, SeenBefore(Episodes(submission), i));
  }

  /** Attempts are numbered, at most two, at most one of them accepted, and what was accepted is a certificate for
      the rule of this very episode. */
  lemma AcceptedAttempts(submission: Value, inventory: Option<set<string>>, x: Expected, i: nat)
    requires SubmissionClean(submission, inventory, x) && i < |Items(Field(submission, KEpisodes))|
    ensures i < |Items(Field(submission, KShortlist))|
    ensures Field(LedgerAt(submission, i), KSubmit).List? && |Items(Field(LedgerAt(submission, i), KSubmit))| <= 2
    ensures var attempts := Items(Field(LedgerAt(submission, i), KSubmit));
      && (forall k :: 0 <= k < |attempts| ==>
            PyEq(Field(attempts[k], KAttempt), Int(k + 1)) && Field(attempts[k], KAccepted).Bool?)
      && (forall k :: 0 <= k < |attempts| && Field(attempts[k], KAccepted) == Bool(true) ==>
            Field(attempts[k], KCertificate).Obj? && ListedRule(submission, i).Str?
            && Field(Field(attempts[k], KCertificate), KRule) == ListedRule(submission, i))
      && (forall j, k :: 0 <= j < k < |attempts| ==>
            !(Field(attempts[j], KAccepted) == Bool(true) == Field(attempts[k], KAccepted)))
  {
    EpisodeIsClean(submission, inventory, x, i);
    var ledger, rule := LedgerOf(EpisodeAt(submission, i)), ListedRule(submission, i);
    assert SubmitClean(ledger, rule, SeenBefore(Episodes(submission), i) + LedgerIds(ledger, KPred)) by {
      hide SubmitClean, StatusClean, EventsClean, ObservationsClean, PredClean;
    }
    hide SubmissionClean, EpisodeClean, RuleAt, LedgerIds, StatusItem, FreshIds, SeenBefore, CountIf;
    SubmitTells(ledger, rule.s, SeenBefore(Episodes(submission), i) + LedgerIds(ledger, KPred));
  }

  lemma SubmitTells(ledger: Fields, rule: string, seen: set<string>)
    requires SubmitClean(ledger, Str(rule), seen)
    ensures Get(ledger, KSubmit).List? && |Items(Get(ledger, KSubmit))| <= 2
    ensures var attempts := Items(Get(ledger, KSubmit));
      && (forall k :: 0 <= k < |attempts| ==>
            PyEq(Field(attempts[k], KAttempt), Int(k + 1)) && Field(attempts[k], KAccepted).Bool?)
      && (forall k :: 0 <= k < |attempts| && Field(attempts[k], KAccepted) == Bool(true) ==>
            Field(attempts[k], KCertificate).Obj? && Field(Field(attempts[k], KCertificate), KRule) == Str(rule))
      && (forall j, k :: 0 <= j < k < |attempts| ==>
            !(Field(attempts[j], KAccepted) == Bool(true) == Field(attempts[k], KAccepted)))
  {
    hide StatusItem, FreshIds, CountIf, Canon;
    var attempts := Items(Get(ledger, KSubmit));
    forall k | 0 <= k < |attempts| && Field(attempts[k], KAccepted) == Bool(true)
      ensures Field(attempts[k], KCertificate).Obj? && Field(Field(attempts[k], KCertificate), KRule) == Str(rule)
    {
      assert AttemptClean(attempts[k], k, Str(rule));
      PyEqStr(rule, Field(Field(attempts[k], KCertificate), KRule));
    }
    forall j, k | 0 <= j < k < |attempts| ensures !(Field(attempts[j], KAccepted) == Bool(true) == Field(attempts[k], KAccepted)) {
      if Field(attempts[j], KAccepted) == Bool(true) == Field(attempts[k], KAccepted) { Scoring.TwoAccepted(attempts, j, k); }
    }
  }

  lemma {:induction false} ExpectedIsFirst(attempts: seq<Value>) returns (f: nat)
    ensures f <= |attempts| && forall k :: 0 <= k < f ==> !IsAccepted(attempts[k])
    ensures f < |attempts| ==> IsAccepted(attempts[f]) && ExpectedAttempt(attempts) == Some(Field(attempts[f], KAttempt))
    ensures f == |attempts| ==> ExpectedAttempt(attempts) == None
  {
    if attempts == [] || IsAccepted(attempts[0]) {
      f := 0;
    } else {
      f := ExpectedIsFirst(attempts[1..]);
      f := f + 1;
    }
  }

  lemma AcceptedOutcome(submission: Value, inventory: Option<set<string>>, x: Expected, i: nat)
    requires SubmissionClean(submission, inventory, x) && i < |Items(Field(submission, KEpisodes))|
    ensures var episode, attempts := EpisodeAt(submission, i), Items(Field(LedgerAt(submission, i), KSubmit));
      && (Field(episode, KStatus) == Str("bug_found") <==>
            exists k :: 0 <= k < |attempts| && Field(attempts[k], KAccepted) == Bool(true))
      && Field(episode, KStatus) in {Str("bug_found"), Str("completed")}
      && (forall k :: 0 <= k < |attempts| && Field(attempts[k], KAccepted) == Bool(true) ==>
            PyEq(Field(episode, KAcceptedSubmitAttempt), Int(k + 1)))
      && (Field(episode, KStatus) == Str("completed") ==> Field(episode, KAcceptedSubmitAttempt) == Null)
  {
    hide SubmissionClean, EpisodeClean, SeenBefore, RuleAt, PyEq, ExpectedAttempt, RulesOf, OutcomeClean;
    AcceptedAttempts(submission, inventory, x, i);
    EpisodeIsClean(submission, inventory, x, i);
    var episode, attempts := EpisodeAt(submission, i), Items(Field(LedgerAt(submission, i), KSubmit));
    OutcomeReads(episode, i, Items(Field(submission, KShortlist))[i], RulesOf(submission), x, SeenBefore(Episodes(submission), i));
    NamesDiffer();
    OutcomeTells(attempts, Field(episode, KStatus), Field(episode, KAcceptedSubmitAttempt), "bug_found", "completed");
  }

  lemma OutcomeReads(episode: Value, i: nat, entry: Value, rules: seq<string>, x: Expected, seen: set<string>)
    requires EpisodeClean(episode, i, entry, rules, x, seen) && Get(LedgerOf(episode), KSubmit).List?
    ensures var expected := ExpectedAttempt(Items(Get(LedgerOf(episode), KSubmit)));
      && PyEq(Field(episode, KStatus), Str(if expected.Some? then "bug_found" else "completed"))
      && PyEq(Field(episode, KAcceptedSubmitAttempt), if expected.Some? then expected.value else Null)
  {
    hide EpisodeRecordClean, MessagesClean, LedgerClean, ExpectedAttempt, PyEq;
  }

  lemma OutcomeTells(attempts: seq<Value>, status: Value, number: Value, found: string, none: string)
    requires found != none
    requires forall k :: 0 <= k < |attempts| && IsAccepted(attempts[k]) ==> PyEq(Field(attempts[k], KAttempt), Int(k + 1))
    requires forall j, k :: 0 <= j < k < |attempts| ==> !(IsAccepted(attempts[j]) && IsAccepted(attempts[k]))
    requires var expected := ExpectedAttempt(attempts);
      && PyEq(status, Str(if expected.Some? then found else none))
      && PyEq(number, if expected.Some? then expected.value else Null)
    ensures status == Str(found) <==> exists k :: 0 <= k < |attempts| && IsAccepted(attempts[k])
    ensures status in {Str(found), Str(none)}
    ensures forall k :: 0 <= k < |attempts| && IsAccepted(attempts[k]) ==> PyEq(number, Int(k + 1))
    ensures status == Str(none) ==> number == Null
  {
    hide ExpectedAttempt, PyEq, IsAccepted;
    var f := ExpectedIsFirst(attempts);
    PyEqStr(if f < |attempts| then found else none, status);
    if f < |attempts| {
      Transitive(number, Field(attempts[f], KAttempt), Int(f + 1));
      OnlyOne(attempts, f);
    } else {
      IsNull(number);
    }
  }

  lemma OnlyOne(attempts: seq<Value>, f: nat)
    requires f < |attempts| && IsAccepted(attempts[f])
    requires forall j, k :: 0 <= j < k < |attempts| ==> !(IsAccepted(attempts[j]) && IsAccepted(attempts[k]))
    ensures forall k :: 0 <= k < |attempts| && IsAccepted(attempts[k]) ==> k == f
  {
  }

  lemma NamesDiffer()
    ensures "bug_found" != "completed"
  {
    assert "bug_found"[0] != "completed"[0];
  }

  lemma IsNull(v: Value)
    ensures PyEq(v, Null) <==> v == Null
  {
  }

  lemma Transitive(a: Value, b: Value, c: Value)
    requires PyEq(a, b) && PyEq(b, c)
    ensures PyEq(a, c)
  {
  }

  /** The episode is about the shortlisted rule of its position, and so is its ledger; it says that a bug was found,
      and at which attempt, exactly if an attempt of its ledger was accepted. */
  lemma AcceptedEpisode(submission: Value, inventory: Option<set<string>>, x: Expected, i: nat)
    requires SubmissionClean(submission, inventory, x) && i < |Items(Field(submission, KEpisodes))|
    ensures i < |Items(Field(submission, KShortlist))|
    ensures var episode, ledger, rule := EpisodeAt(submission, i), LedgerAt(submission, i), ListedRule(submission, i);
      && rule.Str? && Field(episode, KRule) == rule && Field(ledger, KRule) == rule
      && PyEq(Field(episode, KIndex), Int(i + 1)) && PyEq(Field(ledger, KBudget), Obj(x.episodeBudget))
      && PyEq(Field(episode, KHypothesis), GetOr(Items(Field(submission, KShortlist))[i].fields, KHypothesis, Str("")))
    ensures var episode, attempts := EpisodeAt(submission, i), Items(Field(LedgerAt(submission, i), KSubmit));
      && (Field(episode, KStatus) == Str("bug_found") <==>
            exists k :: 0 <= k < |attempts| && Field(attempts[k], KAccepted) == Bool(true))
      && Field(episode, KStatus) in {Str("bug_found"), Str("completed")}
      && (forall k :: 0 <= k < |attempts| && Field(attempts[k], KAccepted) == Bool(true) ==>
            PyEq(Field(episode, KAcceptedSubmitAttempt), Int(k + 1)))
      && (Field(episode, KStatus) == Str("completed") ==> Field(episode, KAcceptedSubmitAttempt) == Null)
    ensures var messages := Field(EpisodeAt(submission, i), KMessages);
      && messages.List? && |messages.items| <= 3 * IntOf(GetOr(x.episodeBudget, KModelGenerations, Int(0))) + 4
      && forall k :: 0 <= k < |messages.items| ==>
           messages.items[k].Obj? && x.contentLength(GetOr(messages.items[k].fields, KContent, Str(""))) <= 200000
  {
    hide LedgerClean, SeenBefore, RuleAt;
    EpisodeIsClean(submission, inventory, x, i);
    AcceptedOutcome(submission, inventory, x, i);
    var episode := EpisodeAt(submission, i);
    PyEqStr(ListedRule(submission, i).s, Field(episode, KRule));
    PyEqStr(ListedRule(submission, i).s, Field(LedgerAt(submission, i), KRule));
    hide PyEq;
  }

  /** What scoring makes of an accepted episode: the one certificate it accepted is what the verifier is called on,
      the episode counts as a bug exactly if the verifier says so, and the report names its rule and its attempt. */
  lemma ScoredByItsCertificate(submission: Value, inventory: Option<set<string>>, x: Expected, i: nat, k: nat,
                               position: nat, verifier: Value -> bool)
    requires SubmissionClean(submission, inventory, x) && i < |Items(Field(submission, KEpisodes))|
    requires k < |Items(Field(LedgerAt(submission, i), KSubmit))|
    requires Field(Items(Field(LedgerAt(submission, i), KSubmit))[k], KAccepted) == Bool(true)
    ensures i < |Items(Field(submission, KShortlist))|
    ensures var episode, attempt := EpisodeAt(submission, i), Items(Field(LedgerAt(submission, i), KSubmit))[k];
      var certificate := Field(attempt, KCertificate);
      && Scoring.CallsOf(episode) == [certificate] && (Scoring.IsBug(episode, verifier) <==> verifier(certificate))
      && Scoring.LinesOf(position, episode, verifier)
         == [Scoring.ReportLine(position, ListedRule(submission, i), Field(attempt, KAttempt), verifier(certificate))]
      && (Scoring.OnFirst(episode) <==> k == 0)
  {
    hide SubmissionClean, EpisodeClean, ExpectedAttempt, PyEq, RulesOf, SeenBefore, RuleAt;
    AcceptedEpisode(submission, inventory, x, i);
    EpisodeIsClean(submission, inventory, x, i);
    assert Episodes(submission) == Items(Field(submission, KEpisodes));
    Scoring.AttemptNumbersAreTrue(submission, inventory, x, i, k);
  }

  lemma NothingAcceptedNothingScored(submission: Value, i: nat, position: nat, verifier: Value -> bool)
    requires i < |Items(Field(submission, KEpisodes))|
    requires forall k :: 0 <= k < |Items(Field(LedgerAt(submission, i), KSubmit))| ==>
      Field(Items(Field(LedgerAt(submission, i), KSubmit))[k], KAccepted) != Bool(true)
    ensures Scoring.CallsOf(EpisodeAt(submission, i)) == [] && !Scoring.IsBug(EpisodeAt(submission, i), verifier)
    ensures Scoring.LinesOf(position, EpisodeAt(submission, i), verifier) == []
  {
    var attempts := Scoring.Attempts(EpisodeAt(submission, i));
    assert attempts == Items(Field(LedgerAt(submission, i), KSubmit));
    assert forall k :: 0 <= k < |attempts| ==> !IsAccepted(attempts[k]);
  }

  // ---------------------------------------------------------------- counters, records and events of an episode

  lemma LedgerIsClean(submission: Value, inventory: Option<set<string>>, x: Expected, i: nat)
    requires SubmissionClean(submission, inventory, x) && i < |Items(Field(submission, KEpisodes))|
    ensures LedgerAt(submission, i).Obj?
    ensures exists rule, seen :: LedgerClean(LedgerAt(submission, i).fields, x.episodeBudget, rule, x.observation, seen)
  {
    hide SubmissionClean, LedgerClean, SeenBefore, EpisodeRecordClean, MessagesClean, OutcomeClean;
    EpisodeIsClean(submission, inventory, x, i);
  }

  /** One counter of a status: the built-in limit, a use within it, and what is left. */
  predicate Counts(status: Value, counter: Key, limit: Value) {
    var item := Field(status, counter);
    && limit.Int? && limit.i >= 0 && PyEq(Field(item, KLimit), limit)
    && Field(item, KUsed).Int? && 0 <= Field(item, KUsed).i <= limit.i
    && PyEq(Field(item, KRemaining), Int(limit.i - Field(item, KUsed).i))
  }

  lemma AcceptedStatus(submission: Value, inventory: Option<set<string>>, x: Expected, i: nat)
    requires SubmissionClean(submission, inventory, x) && i < |Items(Field(submission, KEpisodes))|
    ensures var status := Field(LedgerAt(submission, i), KStatus);
      && Counts(status, KModelGenerations, Get(x.episodeBudget, KModelGenerations))
      && Counts(status, KShellActions, Get(x.episodeBudget, KShellActions))
      && Counts(status, KPredCalls, Get(x.episodeBudget, KPredCalls))
      && Counts(status, KSolveCalls, Get(x.episodeBudget, KSolveCalls))
    ensures var item, attempts := Field(Field(LedgerAt(submission, i), KStatus), KSubmitAttempts), Items(Field(LedgerAt(submission, i), KSubmit));
      && item.Obj? ==>
         && PyEq(Field(item, KLimit), Int(2)) && Field(item, KUsed) == Int(|attempts|)
         && PyEq(Field(item, KRemaining),
                 Int(if exists k :: 0 <= k < |attempts| && Field(attempts[k], KAccepted) == Bool(true) then 0 else 2 - |attempts|))
  {
    hide SubmissionClean, LedgerClean, PyEq;
    LedgerIsClean(submission, inventory, x, i);
    var ledger := LedgerAt(submission, i).fields;
    var rule, seen :| LedgerClean(ledger, x.episodeBudget, rule, x.observation, seen);
    StatusTells(ledger, x.episodeBudget, rule, x.observation, seen);
    SubmitStatusTells(ledger, x.episodeBudget, rule, x.observation, seen);
  }

  lemma StatusTells(ledger: Fields, budget: Fields, rule: Value, limits: Config, seen: set<string>)
    requires LedgerClean(ledger, budget, rule, limits, seen)
    ensures Counts(Get(ledger, KStatus), KModelGenerations, Get(budget, KModelGenerations))
    ensures Counts(Get(ledger, KStatus), KShellActions, Get(budget, KShellActions))
    ensures Counts(Get(ledger, KStatus), KPredCalls, Get(budget, KPredCalls))
    ensures Counts(Get(ledger, KStatus), KSolveCalls, Get(budget, KSolveCalls))
  {
    hide EventsClean, ObservationsClean, PredClean, SubmitClean, SubmitStatusClean, CounterClean, Counts;
    var status := Get(ledger, KStatus);
    CounterTells(status, budget, KModelGenerations);
    CounterTells(status, budget, KShellActions);
    CounterTells(status, budget, KPredCalls);
    CounterTells(status, budget, KSolveCalls);
    assert COUNTERS[0] == KModelGenerations && COUNTERS[1] == KShellActions && COUNTERS[2] == KPredCalls && COUNTERS[3] == KSolveCalls;
  }

  lemma CounterTells(status: Value, budget: Fields, counter: Key)
    ensures status.Obj? && CounterClean(status.fields, budget, counter) ==> Counts(status, counter, Get(budget, counter))
  {
    hide PyEq;
  }

  lemma SubmitStatusTells(ledger: Fields, budget: Fields, rule: Value, limits: Config, seen: set<string>)
    requires LedgerClean(ledger, budget, rule, limits, seen)
    ensures var item, attempts := Field(Get(ledger, KStatus), KSubmitAttempts), Items(Get(ledger, KSubmit));
      && item.Obj? ==>
         && PyEq(Field(item, KLimit), Int(2)) && Field(item, KUsed) == Int(|attempts|)
         && PyEq(Field(item, KRemaining),
                 Int(if exists k :: 0 <= k < |attempts| && Field(attempts[k], KAccepted) == Bool(true) then 0 else 2 - |attempts|))
  {
    hide EventsClean, ObservationsClean, PredClean, CounterClean, FreshIds, AttemptClean, CountIf, LedgerIds, PyEq;
    var item, attempts := Field(Get(ledger, KStatus), KSubmitAttempts), Items(Get(ledger, KSubmit));
    if item.Obj? {
      PyEqByKind(Int(|attempts|), Field(item, KUsed));
      PyEqByKind(Int(if CountIf(attempts, IsAccepted) > 0 then 0 else 2 - |attempts|), Field(item, KRemaining));
      SomeAccepted(attempts);
      Symmetric(Int(if CountIf(attempts, IsAccepted) > 0 then 0 else 2 - |attempts|), Field(item, KRemaining));
    }
  }

  lemma Symmetric(a: Value, b: Value)
    requires PyEq(a, b)
    ensures PyEq(b, a)
  {
  }

  lemma SomeAccepted(attempts: seq<Value>)
    ensures CountIf(attempts, IsAccepted) > 0 <==> exists k :: 0 <= k < |attempts| && Field(attempts[k], KAccepted) == Bool(true)
  {
    if forall k :: 0 <= k < |attempts| ==> !IsAccepted(attempts[k]) {
      CountNone(attempts, IsAccepted);
    } else {
      var k :| 0 <= k < |attempts| && IsAccepted(attempts[k]);
      CountSome(attempts, k, IsAccepted);
    }
  }

  /** The lists are no longer than one more than what is budgeted. */
  predicate AtMostOneMore(list: Value, limit: Value) { list.List? && limit.Int? && |list.items| <= limit.i + 1 }

  lemma AcceptedLists(submission: Value, inventory: Option<set<string>>, x: Expected, i: nat)
    requires SubmissionClean(submission, inventory, x) && i < |Items(Field(submission, KEpisodes))|
    ensures AtMostOneMore(Field(LedgerAt(submission, i), KModelGenerations), Get(x.episodeBudget, KModelGenerations))
    ensures AtMostOneMore(Field(LedgerAt(submission, i), KShellActions), Get(x.episodeBudget, KShellActions))
    ensures AtMostOneMore(Field(LedgerAt(submission, i), KPred), Get(x.episodeBudget, KShellActions))
    ensures forall k :: 0 <= k < |Items(Field(LedgerAt(submission, i), KModelGenerations))| ==>
      var event := Items(Field(LedgerAt(submission, i), KModelGenerations))[k]; event.Obj? ==> Field(event, KCharged).Bool?
    ensures forall k :: 0 <= k < |Items(Field(LedgerAt(submission, i), KShellActions))| ==>
      var event := Items(Field(LedgerAt(submission, i), KShellActions))[k]; event.Obj? ==> Field(event, KCharged).Bool?
    ensures forall k :: 0 <= k < |Items(Field(LedgerAt(submission, i), KPred))| ==>
      var record := Items(Field(LedgerAt(submission, i), KPred))[k];
      && PyEq(Field(record, KSequence), Int(k + 1)) && Field(record, KCharged).Bool? && Field(record, KRequestId).Str?
      && |Field(record, KRequestId).s| == 32
      && forall c :: c in Field(record, KRequestId).s ==> '0' <= c <= '9' || 'a' <= c <= 'f'
  {
    hide SubmissionClean, LedgerClean, PyEq, Counts;
    LedgerIsClean(submission, inventory, x, i);
    AcceptedStatus(submission, inventory, x, i);
    BudgetIs(submission, inventory, x, i);
    var ledger := LedgerAt(submission, i).fields;
    var rule, seen :| LedgerClean(ledger, x.episodeBudget, rule, x.observation, seen);
    ListsTell(ledger, x.episodeBudget, rule, x.observation, seen);
  }

  lemma BudgetIs(submission: Value, inventory: Option<set<string>>, x: Expected, i: nat)
    requires SubmissionClean(submission, inventory, x) && i < |Items(Field(submission, KEpisodes))|
    ensures PyEq(Field(LedgerAt(submission, i), KBudget), Obj(x.episodeBudget))
    ensures Get(x.episodeBudget, KModelGenerations).Int? && Get(x.episodeBudget, KShellActions).Int?
  {
    hide SubmissionClean, LedgerClean, PyEq, MessagesClean, OutcomeClean, SeenBefore;
    EpisodeIsClean(submission, inventory, x, i);
    AcceptedStatus(submission, inventory, x, i);
  }

  /** A budget that equals the expected one has its numbers. */
  lemma BudgetReads(ledger: Fields, budget: Fields, field: Key)
    requires PyEq(Get(ledger, KBudget), Obj(budget)) && Get(budget, field).Int?
    ensures BudgetNumber(ledger, field) == Some(Get(budget, field).i as real)
  {
    PyEqByKind(Get(ledger, KBudget), Obj(budget));
    PyEqByKind(Get(Get(ledger, KBudget).fields, field), Get(budget, field));
    hide PyEq;
  }

  lemma ListsTell(ledger: Fields, budget: Fields, rule: Value, limits: Config, seen: set<string>)
    requires LedgerClean(ledger, budget, rule, limits, seen)
    requires PyEq(Get(ledger, KBudget), Obj(budget)) && Get(budget, KModelGenerations).Int? && Get(budget, KShellActions).Int?
    ensures AtMostOneMore(Get(ledger, KModelGenerations), Get(budget, KModelGenerations))
    ensures AtMostOneMore(Get(ledger, KShellActions), Get(budget, KShellActions))
    ensures AtMostOneMore(Get(ledger, KPred), Get(budget, KShellActions))
    ensures forall k :: 0 <= k < |Items(Get(ledger, KModelGenerations))| ==>
      var event := Items(Get(ledger, KModelGenerations))[k]; event.Obj? ==> Field(event, KCharged).Bool?
    ensures forall k :: 0 <= k < |Items(Get(ledger, KShellActions))| ==>
      var event := Items(Get(ledger, KShellActions))[k]; event.Obj? ==> Field(event, KCharged).Bool?
    ensures forall k :: 0 <= k < |Items(Get(ledger, KPred))| ==>
      var record := Items(Get(ledger, KPred))[k];
      && PyEq(Field(record, KSequence), Int(k + 1)) && Field(record, KCharged).Bool? && Field(record, KRequestId).Str?
      && |Field(record, KRequestId).s| == 32
      && forall c :: c in Field(record, KRequestId).s ==> '0' <= c <= '9' || 'a' <= c <= 'f'
  {
    hide StatusClean, ObservationsClean, SubmitClean, PyEq, UsedIs, CountIf, BudgetNumber;
    BudgetReads(ledger, budget, KModelGenerations);
    BudgetReads(ledger, budget, KShellActions);
    assert EVENT_FIELDS[0] == KModelGenerations && EVENT_FIELDS[1] == KShellActions;
    var preds := Items(Get(ledger, KPred));
    forall k | 0 <= k < |preds| ensures RequestIdOf(preds[k]).Some? && PredRecordClean(preds[k], k) {
    }
  }

  // ---------------------------------------------------------------- observations

  /** The ledgers whose observations are checked: that of triage and that of every episode. */
  lemma AcceptedLedgers(submission: Value, inventory: Option<set<string>>, x: Expected)
    requires SubmissionClean(submission, inventory, x)
    ensures forall i: nat :: i < |Items(Field(submission, KEpisodes))| ==>
      LedgerAt(submission, i).Obj? && ObservationsClean(LedgerAt(submission, i).fields, false, x.observation)
    ensures Field(Field(submission, KTriage), KLedger).Obj?
    ensures ObservationsClean(Field(Field(submission, KTriage), KLedger).fields, true, x.observation)
  {
    hide ObservationsClean, TriageEventsClean, StatusClean, PyEq;
    forall i: nat | i < |Items(Field(submission, KEpisodes))|
      ensures LedgerAt(submission, i).Obj? && ObservationsClean(LedgerAt(submission, i).fields, false, x.observation)
    {
      hide SubmissionClean;
      LedgerIsClean(submission, inventory, x, i);
    }
  }

  /** One record of an observation list: the twelve fields and no other, sizes within the limits, and its log at the
      path its id names. */
  predicate Describes(v: Value, limits: Config) {
    && v.Obj?
    && v.fields.Keys == {KObservationId, KKind, KCommand, KRawLog, KReturncode, KTimedOut, KOriginalChars, KOriginalLines,
                         KPreviewChars, KArchiveChars, KPreviewCompacted, KArchiveTruncated}
    && v.fields[KObservationId].Str? && IsObservationId(v.fields[KObservationId].s)
    && v.fields[KRawLog] == Str("../observations/" + v.fields[KObservationId].s + ".log")
    && v.fields[KKind] in {Str("shell"), Str("pred")} && v.fields[KCommand].Str? && v.fields[KReturncode].Int?
    && v.fields[KTimedOut].Bool? && v.fields[KPreviewCompacted].Bool? && v.fields[KArchiveTruncated].Bool?
    && v.fields[KPreviewChars].Int? && 0 <= v.fields[KPreviewChars].i <= limits.previewChars
    && v.fields[KArchiveChars].Int? && 0 <= v.fields[KArchiveChars].i <= limits.archiveChars
    && v.fields[KOriginalChars].Int? && 0 <= v.fields[KOriginalChars].i
    && v.fields[KOriginalLines].Int? && 0 <= v.fields[KOriginalLines].i
  }

  /** How a described action ended, as the action itself names it. */
  predicate EndedAs(v: Value, outcome: Value) {
    var code := Field(v, KReturncode);
    && code.Int? && Field(v, KTimedOut).Bool?
    && (outcome == Str("completed") ==> code.i == 0) && (outcome == Str("nonzero_exit") ==> code.i != 0)
    && (outcome == Str("timeout") ==> code.i == 124) && (outcome == Str("budget_exhausted") ==> code.i == 75)
    && (outcome == Str("timeout") <==> Field(v, KTimedOut) == Bool(true))
    && outcome in {Str("completed"), Str("nonzero_exit"), Str("timeout"), Str("budget_exhausted")}
  }

  /** Every observation of an accepted ledger is described in full, and no two have the same id. */
  lemma AcceptedObservations(ledger: Fields, triage: bool, limits: Config)
    requires ObservationsClean(ledger, triage, limits)
    ensures Get(ledger, KObservations).List?
    ensures forall k :: 0 <= k < |Items(Get(ledger, KObservations))| ==> Describes(Items(Get(ledger, KObservations))[k], limits)
    ensures forall j, k :: 0 <= j < k < |Items(Get(ledger, KObservations))| ==>
      Field(Items(Get(ledger, KObservations))[j], KObservationId) != Field(Items(Get(ledger, KObservations))[k], KObservationId)
  {
    hide ReferencesClean, ShellEvents, ById, IsObservationId;
    var records := Items(Get(ledger, KObservations));
    assert MetadataListClean(records, |records|, limits);
    forall k | 0 <= k < |records| ensures Describes(records[k], limits) && ObservationIdOf(records[k]) == Some(Field(records[k], KObservationId).s) {
      assert MetadataClean(records[k], limits);
    }
  }

  /** The event is about an observation of the ledger: of a shell command, the same one, that ended as it says. */
  predicate Witnessed(event: Value, records: seq<Value>) {
    exists k :: 0 <= k < |records| && IsWitness(event, records[k])
  }

  predicate IsWitness(event: Value, record: Value) {
    && Field(record, KObservationId) == Field(event, KObservationId) && Field(record, KKind) == Str("shell")
    && PyEq(Field(record, KCommand), Field(event, KCommand)) && EndedAs(record, Field(event, KOutcome))
  }

  /** Every shell event of an accepted ledger has its observation. */
  lemma AcceptedShellEvents(ledger: Fields, triage: bool, limits: Config, k: nat)
    requires ObservationsClean(ledger, triage, limits) && k < |Items(EventSource(ledger, triage))|
    requires var event := Items(EventSource(ledger, triage))[k];
      event.Obj? && (triage ==> Field(event, KType) == Str("shell_action"))
    ensures Witnessed(Items(EventSource(ledger, triage))[k], Items(Get(ledger, KObservations)))
  {
    hide ObservationsClean, Describes, PyEq;
    var events, records := Items(EventSource(ledger, triage)), Items(Get(ledger, KObservations));
    var event := events[k];
    if triage { PyEqSame(Field(event, KType)); }
    ListedEvent(events, triage, k);
    AcceptedObservations(ledger, triage, limits);
    ShellEventTells(ledger, triage, limits, event);
    var byId, id := ById(records, |records|), Field(event, KObservationId);
    InById(records, |records|, id.s);
    var n :| 0 <= n < |records| && ObservationIdOf(records[n]) == Some(id.s);
    FoundById(ledger, triage, limits, n);
    assert Describes(records[n], limits);
    ExitTells(records[n], limits, Field(event, KOutcome));
    assert IsWitness(event, records[n]);
  }

  lemma {:induction false} ListedEvent(events: seq<Value>, triage: bool, k: nat)
    requires k < |events| && IsShellEvent(events[k], triage)
    ensures events[k] in ShellEvents(events, triage)
  {
    if k > 0 { ListedEvent(events[1..], triage, k - 1); }
  }

  lemma ShellEventTells(ledger: Fields, triage: bool, limits: Config, event: Value)
    requires ObservationsClean(ledger, triage, limits) && event.Obj?
    requires Iterated(EventSource(ledger, triage)).Some? ==> event in ShellEvents(Iterated(EventSource(ledger, triage)).value, triage)
    ensures Get(ledger, KObservations).List?
    ensures var records := Items(Get(ledger, KObservations)); ShellEventClean(event.fields, ById(records, |records|))
  {
    hide MetadataListClean, ShellEventClean, PredObservationClean, ShellEvents, ById, ShellRefs, PredRefs, NoDuplicates, Elements;
  }

  lemma FoundById(ledger: Fields, triage: bool, limits: Config, n: nat)
    requires ObservationsClean(ledger, triage, limits) && n < |Items(Get(ledger, KObservations))|
    ensures var records := Items(Get(ledger, KObservations)); var id := ObservationIdOf(records[n]);
      id.Some? && id.value in ById(records, |records|) && records[n] == Obj(ById(records, |records|)[id.value])
  {
    hide ReferencesClean, ShellEvents, ById, MetadataClean;
    var records := Items(Get(ledger, KObservations));
    ByIdHolds(records, |records|, n);
    assert records[n].Obj?;
  }

  lemma ExitTells(v: Value, limits: Config, outcome: Value)
    requires Describes(v, limits) && OutcomeMatches(v.fields, outcome)
    ensures EndedAs(v, outcome)
  {
    PyEqInts(v.fields[KReturncode].i, 0);
    PyEqInts(v.fields[KReturncode].i, 124);
    PyEqInts(v.fields[KReturncode].i, 75);
    hide PyEq;
  }

  /** The embedded observation of a pred record is one of the ledger's, describes the call of this record, and ended
      as the record says. */
  predicate IsPredWitness(record: Value, observation: Value) {
    var args := Field(record, KArgs);
    && PyEq(observation, Field(record, KObservation)) && Field(observation, KKind) == Str("pred")
    && args.List? && (forall k :: 0 <= k < |args.items| ==> args.items[k].Str?)
    && Field(observation, KCommand) == Str("pred " + JoinQuoted(Strings(args.items)))
    && PyEq(Field(observation, KReturncode), Field(record, KReturncode)) && EndedAs(observation, Field(record, KOutcome))
  }

  /** Every record of a finished process embeds its observation, and what a record embeds is its observation. */
  lemma AcceptedPredRecords(ledger: Fields, limits: Config, k: nat)
    requires ObservationsClean(ledger, false, limits) && k < |Items(Get(ledger, KPred))| && Items(Get(ledger, KPred))[k].Obj?
    ensures var record := Items(Get(ledger, KPred))[k];
      && (Field(record, KOutcome) in {Str("completed"), Str("nonzero_exit"), Str("timeout")} ==> Field(record, KObservation) != Null)
      && (Field(record, KObservation) != Null ==>
            exists n :: 0 <= n < |Items(Get(ledger, KObservations))| && IsPredWitness(record, Items(Get(ledger, KObservations))[n]))
  {
    hide ObservationsClean, Describes, PyEq, Canon, CommandMatches, OutcomeMatches;
    var records, record := Items(Get(ledger, KObservations)), Items(Get(ledger, KPred))[k];
    AcceptedObservations(ledger, false, limits);
    PredRecordTells(ledger, limits, k);
    var embedded := Field(record, KObservation);
    if embedded != Null {
      var id := Get(embedded.fields, KObservationId).s;
      InById(records, |records|, id);
      var n :| 0 <= n < |records| && ObservationIdOf(records[n]) == Some(id);
      FoundById(ledger, false, limits, n);
      assert Describes(records[n], limits);
      EmbeddedTells(record, records[n], limits);
    }
  }

  lemma PredRecordTells(ledger: Fields, limits: Config, k: nat)
    requires ObservationsClean(ledger, false, limits) && k < |Items(Get(ledger, KPred))| && Items(Get(ledger, KPred))[k].Obj?
    ensures Get(ledger, KObservations).List?
    ensures var records := Items(Get(ledger, KObservations));
      PredObservationClean(Items(Get(ledger, KPred))[k].fields, ById(records, |records|))
  {
    hide MetadataListClean, ShellEventClean, PredObservationClean, ShellEvents, ById, ShellRefs, PredRefs, NoDuplicates, Elements;
    assert Items(PredSource(ledger, false)) == Items(Get(ledger, KPred));
  }

  lemma EmbeddedTells(record: Value, observation: Value, limits: Config)
    requires record.Obj? && Describes(observation, limits)
    requires var embedded := Field(record, KObservation);
      && embedded.Obj? && PyEq(observation, embedded) && Field(embedded, KKind) == Str("pred")
      && CommandMatches(embedded.fields, record.fields) && PyEq(Field(embedded, KReturncode), Field(record, KReturncode))
      && OutcomeMatches(embedded.fields, Field(record, KOutcome))
    ensures IsPredWitness(record, observation)
  {
    var embedded := Field(record, KObservation);
    FieldsEqual(observation, embedded);
    var command := "pred " + JoinQuoted(Strings(Field(record, KArgs).items));
    PyEqStr(command, Field(embedded, KCommand));
    PyEqStr(command, Field(observation, KCommand));
    PyEqStr("pred", Field(observation, KKind));
    Transitive(Field(observation, KReturncode), Field(embedded, KReturncode), Field(record, KReturncode));
    hide PyEq, JoinQuoted;
    SameExit(observation, embedded, limits, Field(record, KOutcome));
  }

  lemma FieldsEqual(a: Value, b: Value)
    requires a.Obj? && b.Obj? && PyEq(a, b)
    ensures forall k :: k in a.fields ==> PyEq(Field(a, k), Field(b, k))
  {
    PyEqByKind(a, b);
    hide PyEq;
  }

  lemma SameExit(a: Value, b: Value, limits: Config, outcome: Value)
    requires Describes(a, limits) && b.Obj? && OutcomeMatches(b.fields, outcome)
    requires PyEq(Field(a, KReturncode), Field(b, KReturncode)) && PyEq(Field(a, KTimedOut), Field(b, KTimedOut))
    ensures EndedAs(a, outcome)
  {
    var code, flag := Field(a, KReturncode), Field(a, KTimedOut);
    PyEqByKind(code, Field(b, KReturncode));
    PyEqByKind(Field(b, KReturncode), Int(0));
    PyEqByKind(Field(b, KReturncode), Int(124));
    PyEqByKind(Field(b, KReturncode), Int(75));
    PyEqByKind(flag, Field(b, KTimedOut));
    hide PyEq;
  }

  // ---------------------------------------------------------------- triage

  predicate IsCommitEvent(v: Value) { Field(v, KType) == Str("shortlist_commit") && Field(v, KAccepted) == Bool(true) }

  predicate Numbered(v: Value) { v.Obj? && KSequence in v.fields }

  predicate ChargedAs(v: Value, kind: string) { Field(v, KCharged) == Bool(true) && Field(v, KType) == Str(kind) }

  /** The triage ledger froze this very shortlist, once; its numbered events count up from 1, and its counters are
      the charged events of their kind, within their limits. */
  lemma AcceptedTriage(submission: Value, inventory: Option<set<string>>, x: Expected)
    requires SubmissionClean(submission, inventory, x)
    ensures var ledger := Field(Field(submission, KTriage), KLedger);
      && ledger.Obj? && PyEq(Field(ledger, KBudget), Obj(x.triageBudget)) && PyEq(Field(ledger, KShortlist), Field(submission, KShortlist))
      && Counts(Field(ledger, KStatus), KModelGenerations, Get(x.triageBudget, KModelGenerations))
      && Counts(Field(ledger, KStatus), KShellActions, Get(x.triageBudget, KShellActions))
      && var item := Field(Field(ledger, KStatus), KSubmitAttempts);
         item.Obj? ==>
           && PyEq(Field(item, KLimit), Int(2)) && Field(item, KUsed).Int? && 0 <= Field(item, KUsed).i <= 2
           && Field(item, KRemaining).Int? && 0 <= Field(item, KRemaining).i
    ensures var events := Field(Field(Field(submission, KTriage), KLedger), KEvents);
      && events.List?
      && |events.items| <= Get(x.triageBudget, KModelGenerations).i + Get(x.triageBudget, KShellActions).i + 3
      && (exists k :: 0 <= k < |events.items| && IsCommitEvent(events.items[k]))
      && (forall j, k :: 0 <= j < k < |events.items| ==> !(IsCommitEvent(events.items[j]) && IsCommitEvent(events.items[k])))
      && (forall k :: 0 <= k < |events.items| && Numbered(events.items[k]) ==>
            PyEq(Field(events.items[k], KSequence), Int(CountIf(events.items[..k + 1], Numbered))))
      && (forall k :: 0 <= k < |events.items| ==> Field(events.items[k], KCharged) in {Null, Bool(true), Bool(false)})
    ensures var ledger := Field(Field(submission, KTriage), KLedger); var events := Items(Field(ledger, KEvents));
      && Field(Field(Field(ledger, KStatus), KModelGenerations), KUsed) == Int(CountIf(events, v => ChargedAs(v, "model_generation")))
      && Field(Field(Field(ledger, KStatus), KShellActions), KUsed) == Int(CountIf(events, v => ChargedAs(v, "shell_action")))
  {
    hide HeaderClean, ShortlistClean, EpisodesClean, ObservationsClean, PyEq, StatusClean, TriageEventsClean, CountIf, Counts;
    var ledger := Field(Field(submission, KTriage), KLedger);
    TriageStatusTells(ledger.fields, x.triageBudget);
    TriageEventsTell(ledger.fields, x.triageBudget);
    TriageCountsTell(ledger.fields, x.triageBudget);
  }

  lemma TriageStatusTells(ledger: Fields, budget: Fields)
    requires StatusClean(Get(ledger, KStatus), budget, TRIAGE_COUNTERS)
    ensures Counts(Get(ledger, KStatus), KModelGenerations, Get(budget, KModelGenerations))
    ensures Counts(Get(ledger, KStatus), KShellActions, Get(budget, KShellActions))
    ensures Get(budget, KModelGenerations).Int? && Get(budget, KShellActions).Int?
    ensures var item := Field(Get(ledger, KStatus), KSubmitAttempts);
      item.Obj? ==>
           && PyEq(Field(item, KLimit), Int(2)) && Field(item, KUsed).Int? && 0 <= Field(item, KUsed).i <= 2
           && Field(item, KRemaining).Int? && 0 <= Field(item, KRemaining).i
  {
    hide CounterClean, PyEq;
    var status := Get(ledger, KStatus);
    CounterTells(status, budget, KModelGenerations);
    CounterTells(status, budget, KShellActions);
    assert TRIAGE_COUNTERS[0] == KModelGenerations && TRIAGE_COUNTERS[1] == KShellActions;
  }

  lemma TriageEventsTell(ledger: Fields, budget: Fields)
    requires TriageEventsClean(ledger) && PyEq(Get(ledger, KBudget), Obj(budget))
    requires Get(budget, KModelGenerations).Int? && Get(budget, KShellActions).Int?
    ensures Get(ledger, KEvents).List?
    ensures var events := Items(Get(ledger, KEvents));
      && |events| <= Get(budget, KModelGenerations).i + Get(budget, KShellActions).i + 3
      && (exists k :: 0 <= k < |events| && IsCommitEvent(events[k]))
      && (forall j, k :: 0 <= j < k < |events| ==> !(IsCommitEvent(events[j]) && IsCommitEvent(events[k])))
      && (forall k :: 0 <= k < |events| && Numbered(events[k]) ==>
            PyEq(Field(events[k], KSequence), Int(CountIf(events[..k + 1], Numbered))))
      && (forall k :: 0 <= k < |events| ==> Field(events[k], KCharged) in {Null, Bool(true), Bool(false)})
  {
    hide PyEq, CountIf, UsedIs, BudgetNumber, Sequenced, IsCommit, IsCommitEvent;
    BudgetReads(ledger, budget, KModelGenerations);
    BudgetReads(ledger, budget, KShellActions);
    var events := Items(Get(ledger, KEvents));
    OneCommit(events);
    forall k | 0 <= k < |events| && Numbered(events[k]) ensures PyEq(Field(events[k], KSequence), Int(CountIf(events[..k + 1], Numbered))) {
      SequencedAt(events, k);
    }
    forall k | 0 <= k < |events| ensures Field(events[k], KCharged) in {Null, Bool(true), Bool(false)} {
      assert ChargedFieldOk(events[k]);
    }
  }

  lemma CommitReads(v: Value)
    ensures IsCommit(v) <==> IsCommitEvent(v)
  {
    if v.Obj? { PyEqStr("shortlist_commit", Get(v.fields, KType)); }
    hide PyEq;
  }

  lemma OneCommit(events: seq<Value>)
    requires CountIf(events, IsCommit) == 1
    ensures exists k :: 0 <= k < |events| && IsCommitEvent(events[k])
    ensures forall j, k :: 0 <= j < k < |events| ==> !(IsCommitEvent(events[j]) && IsCommitEvent(events[k]))
  {
    hide IsCommit, IsCommitEvent, CountIf;
    forall v ensures IsCommit(v) <==> IsCommitEvent(v) { CommitReads(v); }
    if forall k :: 0 <= k < |events| ==> !IsCommit(events[k]) { CountNone(events, IsCommit); }
    forall j, k | 0 <= j < k < |events| ensures !(IsCommitEvent(events[j]) && IsCommitEvent(events[k])) {
      if IsCommit(events[j]) && IsCommit(events[k]) {
        CommitReads(Null);
        NullIsNoCommit();
        CountUpdate(events, j, Null, IsCommit);
        CountSome(events[j := Null], k, IsCommit);
      }
    }
  }

  lemma NullIsNoCommit()
    ensures !IsCommit(Null)
  {
  }

  /** The number an event has is that of the numbered events up to it. */
  lemma {:induction false} SequencedAt(events: seq<Value>, k: nat)
    requires k < |events| && Numbered(events[k])
    ensures |Sequenced(events)| == CountIf(events, Numbered)
    ensures 1 <= CountIf(events[..k + 1], Numbered) <= |Sequenced(events)|
    ensures Sequenced(events)[CountIf(events[..k + 1], Numbered) - 1] == events[k]
    decreases |events|
  {
    var front := events[..|events| - 1];
    SequencedLength(front);
    assert events == front + [events[|events| - 1]];
    if k == |events| - 1 {
      assert events[..k + 1] == events;
    } else {
      SequencedAt(front, k);
      assert front[..k + 1] == events[..k + 1];
    }
  }

  lemma {:induction false} SequencedLength(events: seq<Value>)
    ensures |Sequenced(events)| == CountIf(events, Numbered)
  {
    if events != [] { SequencedLength(events[..|events| - 1]); }
  }

  lemma TriageCountsTell(ledger: Fields, budget: Fields)
    requires TriageEventsClean(ledger)
    requires Counts(Get(ledger, KStatus), KModelGenerations, Get(budget, KModelGenerations))
    requires Counts(Get(ledger, KStatus), KShellActions, Get(budget, KShellActions))
    ensures var events := Items(Get(ledger, KEvents));
      && Field(Field(Get(ledger, KStatus), KModelGenerations), KUsed) == Int(CountIf(events, v => ChargedAs(v, "model_generation")))
      && Field(Field(Get(ledger, KStatus), KShellActions), KUsed) == Int(CountIf(events, v => ChargedAs(v, "shell_action")))
  {
    hide PyEq, CountIf, Sequenced, EventBound, IsCommit, TriageContract.CountCharged, ChargedAs;
    var events := Items(Get(ledger, KEvents));
    SameCharge(events, "model_generation");
    SameCharge(events, "shell_action");
    UseReads(ledger, KModelGenerations, TriageContract.CountCharged(events, "model_generation"));
    UseReads(ledger, KShellActions, TriageContract.CountCharged(events, "shell_action"));
  }

  lemma UseReads(ledger: Fields, counter: Key, n: nat)
    requires UsedIs(ledger, counter, n) && Field(Field(Get(ledger, KStatus), counter), KUsed).Int?
    ensures Field(Field(Get(ledger, KStatus), counter), KUsed) == Int(n)
  {
    PyEqInts(n, Field(Field(Get(ledger, KStatus), counter), KUsed).i);
    hide PyEq;
  }

  lemma SameCharge(events: seq<Value>, kind: string)
    ensures TriageContract.CountCharged(events, kind) == CountIf(events, v => ChargedAs(v, kind))
  {
    forall v ensures IsChargedOf(v, kind) <==> ChargedAs(v, kind) {
      if v.Obj? { PyEqStr(kind, Get(v.fields, KType)); }
    }
    hide IsChargedOf, ChargedAs;
    CountSame(events, v => IsChargedOf(v, kind), v => ChargedAs(v, kind));
  }
}
