/** What an empty problem list implies about an artifact, whoever wrote it. */
module Soundness {
  import opened Text
  import opened Counting
  import opened Json
  import opened Observations
  import opened Contract
  import opened ObservationContract
  import opened Agreement
  import opened EpisodeAgreement
  import opened Submission

  function Episodes(submission: Value): seq<Value> {
    if submission.Obj? then Items(Get(submission.fields, KEpisodes)) else []
  }

  predicate IsLedger(key: Key) { key.KPred? || key.KSubmit? }

  /** The records of one of the two ledgers that carry request ids. */
  function RecordsOf(submission: Value, i: nat, key: Key): seq<Value>
    requires i < |Episodes(submission)|
  {
    Items(Get(LedgerOf(Episodes(submission)[i]), key))
  }

  function ShortlistOf(submission: Value): seq<Value> {
    if submission.Obj? then Items(Get(submission.fields, KShortlist)) else []
  }

  function RulesOf(submission: Value): seq<string> { Rules(ShortlistOf(submission), |ShortlistOf(submission)|) }

  lemma {:induction false} RulesOfCleanEntries(entries: seq<Value>, n: nat, x: Expected)
    requires n <= |entries| && forall k :: 0 <= k < n ==> EntryClean(entries[k], x)
    ensures |Rules(entries, n)| == n
    ensures forall k :: 0 <= k < n ==> HasRule(entries[k]) && Rules(entries, n)[k] == Get(entries[k].fields, KRule).s
  {
    if n > 0 {
      RulesOfCleanEntries(entries, n - 1, x);
      assert HasRule(entries[n - 1]);
    }
  }

  lemma CleanEpisode(submission: Value, inventory: Option<set<string>>, x: Expected, i: nat)
    requires SubmissionClean(submission, inventory, x) && i < |Episodes(submission)|
    ensures |Episodes(submission)| == x.shortlistSize
    ensures exists rule :: LedgerClean(LedgerOf(Episodes(submission)[i]), x.episodeBudget, rule, x.observation,
                                       SeenBefore(Episodes(submission), i))
  {
    hide HeaderClean, ShortlistClean, TriageClean, LedgerClean, EpisodeRecordClean, MessagesClean, OutcomeClean, Rules, SeenBefore;
    var entries := Get(submission.fields, KShortlist).items;
    assert EpisodeClean(Episodes(submission)[i], i, entries[i], Rules(entries, |entries|), x, SeenBefore(Episodes(submission), i));
  }

  // ---------------------------------------------------------------- request ids

  lemma {:induction false} SeenGrows(episodes: seq<Value>, i: nat, j: nat)
    requires i < j <= |episodes|
    ensures EpisodeIds(episodes[i]) <= SeenBefore(episodes, j)
    decreases j
  {
    hide EpisodeIds;
    if i < j - 1 { SeenGrows(episodes, i, j - 1); }
  }

  /** Within one episode: all ids valid, and none seen before. */
  lemma IdsOfOneLedger(ledger: Fields, budget: Fields, rule: Value, limits: Config, seen: set<string>, key: Key, k: nat)
    requires LedgerClean(ledger, budget, rule, limits, seen) && IsLedger(key) && k < |Items(Get(ledger, key))|
    ensures RequestIdOf(Items(Get(ledger, key))[k]).Some?
    ensures var id := RequestIdOf(Items(Get(ledger, key))[k]).value;
      id !in seen && id in LedgerIds(ledger, key) && (key.KSubmit? ==> id !in LedgerIds(ledger, KPred))
  {
    hide StatusClean, EventsClean, ObservationsClean, RequestIdOf, PredRecordClean, AttemptClean, UsedIs, PyEq, StatusItem;
    var items := Items(Get(ledger, key));
    InIdsOf(items, |items|, RequestIdOf(items[k]).value);
  }

  lemma IdsDifferInLedger(ledger: Fields, budget: Fields, rule: Value, limits: Config, seen: set<string>, key: Key, j: nat, k: nat)
    requires LedgerClean(ledger, budget, rule, limits, seen) && IsLedger(key) && j < k < |Items(Get(ledger, key))|
    ensures RequestIdOf(Items(Get(ledger, key))[j]) != RequestIdOf(Items(Get(ledger, key))[k])
  {
    hide StatusClean, EventsClean, ObservationsClean, RequestIdOf, PredRecordClean, AttemptClean, UsedIs, PyEq, StatusItem;
  }

  /** Any two records of an accepted artifact, in any two ledgers of any two episodes, have different valid
      request ids. */
  lemma RequestIdsDistinct(submission: Value, inventory: Option<set<string>>, x: Expected,
                           i: nat, a: Key, k: nat, j: nat, b: Key, m: nat)
    requires SubmissionClean(submission, inventory, x)
    requires i < |Episodes(submission)| && j < |Episodes(submission)| && IsLedger(a) && IsLedger(b)
    requires k < |RecordsOf(submission, i, a)| && m < |RecordsOf(submission, j, b)|
    requires (i, a, k) != (j, b, m)
    ensures RequestIdOf(RecordsOf(submission, i, a)[k]).Some? && RequestIdOf(RecordsOf(submission, j, b)[m]).Some?
    ensures RequestIdOf(RecordsOf(submission, i, a)[k]) != RequestIdOf(RecordsOf(submission, j, b)[m])
  {
    hide SubmissionClean, LedgerClean, RequestIdOf, SeenBefore, LedgerIds;
    var episodes := Episodes(submission);
    CleanEpisode(submission, inventory, x, i);
    CleanEpisode(submission, inventory, x, j);
    var rule :| LedgerClean(LedgerOf(episodes[i]), x.episodeBudget, rule, x.observation, SeenBefore(episodes, i));
    var other :| LedgerClean(LedgerOf(episodes[j]), x.episodeBudget, other, x.observation, SeenBefore(episodes, j));
    IdsOfOneLedger(LedgerOf(episodes[i]), x.episodeBudget, rule, x.observation, SeenBefore(episodes, i), a, k);
    IdsOfOneLedger(LedgerOf(episodes[j]), x.episodeBudget, other, x.observation, SeenBefore(episodes, j), b, m);
    if i < j {
      SeenGrows(episodes, i, j);
    } else if j < i {
      SeenGrows(episodes, j, i);
    } else if a == b {
      if k < m {
        IdsDifferInLedger(LedgerOf(episodes[i]), x.episodeBudget, rule, x.observation, SeenBefore(episodes, i), a, k, m);
      } else {
        IdsDifferInLedger(LedgerOf(episodes[i]), x.episodeBudget, rule, x.observation, SeenBefore(episodes, i), a, m, k);
      }
    }
  }

  // ---------------------------------------------------------------- charged counts

  /** The used number a ledger reports for a counter. */
  function Used(ledger: Fields, counter: Key): int {
    if StatusItem(ledger, counter).Some? then IntOf(Get(StatusItem(ledger, counter).value, KUsed)) else -1
  }

  lemma ReportedUse(ledger: Fields, budget: Fields, counter: Key, n: nat)
    requires StatusClean(Get(ledger, KStatus), budget, COUNTERS) && IsCounter(counter) && UsedIs(ledger, counter, n)
    ensures Used(ledger, counter) == n <= IntOf(Get(budget, counter))
  {
    hide Canon;
    var k := if counter.KModelGenerations? then 0 else if counter.KShellActions? then 1 else if counter.KPredCalls? then 2 else 3;
    assert COUNTERS[k] == counter && CounterClean(Get(ledger, KStatus).fields, budget, COUNTERS[k]);
    PyEqInts(n, Get(StatusItem(ledger, counter).value, KUsed).i);
  }

  lemma SolvesWithinPreds(items: seq<Value>)
    ensures CountIf(items, IsChargedSolve) <= CountIf(items, IsCharged)
  {
    CountImplies(items, IsChargedSolve, IsCharged);
  }

  /** Every counter of an accepted episode is exactly the number of its charged records, within its limit;
      solve use never exceeds pred use. */
  lemma CountersAreTrue(submission: Value, inventory: Option<set<string>>, x: Expected, i: nat)
    requires SubmissionClean(submission, inventory, x) && i < |Episodes(submission)|
    ensures var ledger := LedgerOf(Episodes(submission)[i]);
      && Used(ledger, KPredCalls) == CountIf(Items(Get(ledger, KPred)), IsCharged) <= IntOf(Get(x.episodeBudget, KPredCalls))
      && Used(ledger, KSolveCalls) == CountIf(Items(Get(ledger, KPred)), IsChargedSolve) <= IntOf(Get(x.episodeBudget, KSolveCalls))
      && Used(ledger, KModelGenerations) == CountIf(Items(Get(ledger, KModelGenerations)), IsCharged) <= IntOf(Get(x.episodeBudget, KModelGenerations))
      && Used(ledger, KShellActions) == CountIf(Items(Get(ledger, KShellActions)), IsCharged) <= IntOf(Get(x.episodeBudget, KShellActions))
      && Used(ledger, KSolveCalls) <= Used(ledger, KPredCalls)
  {
    CleanEpisode(submission, inventory, x, i);
    var episodes := Episodes(submission);
    var ledger := LedgerOf(episodes[i]);
    var rule :| LedgerClean(ledger, x.episodeBudget, rule, x.observation, SeenBefore(episodes, i));
    LedgerCounts(ledger, x.episodeBudget, rule, x.observation, SeenBefore(episodes, i));
  }

  lemma LedgerCounts(ledger: Fields, budget: Fields, rule: Value, limits: Config, seen: set<string>)
    requires LedgerClean(ledger, budget, rule, limits, seen)
    ensures Used(ledger, KPredCalls) == CountIf(Items(Get(ledger, KPred)), IsCharged) <= IntOf(Get(budget, KPredCalls))
    ensures Used(ledger, KSolveCalls) == CountIf(Items(Get(ledger, KPred)), IsChargedSolve) <= IntOf(Get(budget, KSolveCalls))
    ensures Used(ledger, KModelGenerations) == CountIf(Items(Get(ledger, KModelGenerations)), IsCharged) <= IntOf(Get(budget, KModelGenerations))
    ensures Used(ledger, KShellActions) == CountIf(Items(Get(ledger, KShellActions)), IsCharged) <= IntOf(Get(budget, KShellActions))
    ensures Used(ledger, KSolveCalls) <= Used(ledger, KPredCalls)
  {
    hide StatusClean, ObservationsClean, SubmitClean, UsedIs, CountIf, FreshIds, PredRecordClean, PyEq, Used;
    assert EventListClean(ledger, EVENT_FIELDS[0]) && EventListClean(ledger, EVENT_FIELDS[1]);
    ReportedUse(ledger, budget, KPredCalls, CountIf(Items(Get(ledger, KPred)), IsCharged));
    ReportedUse(ledger, budget, KSolveCalls, CountIf(Items(Get(ledger, KPred)), IsChargedSolve));
    ReportedUse(ledger, budget, KModelGenerations, CountIf(Items(Get(ledger, KModelGenerations)), IsCharged));
    ReportedUse(ledger, budget, KShellActions, CountIf(Items(Get(ledger, KShellActions)), IsCharged));
    SolvesWithinPreds(Items(Get(ledger, KPred)));
  }

  // ---------------------------------------------------------------- observations

  lemma {:induction false} OnceEach(s: seq<string>, x: string)
    requires NoDuplicates(s)
    ensures multiset(s)[x] == if x in s then 1 else 0
  {
    if s != [] {
      OnceEach(s[..|s| - 1], x);
      assert s == s[..|s| - 1] + [s[|s| - 1]];
      assert s[|s| - 1] !in s[..|s| - 1];
    }
  }

  lemma SameElementsOnce(s: seq<string>, t: seq<string>)
    requires NoDuplicates(s) && NoDuplicates(t) && Elements(s) == Elements(t)
    ensures multiset(s) == multiset(t)
  {
    forall x ensures multiset(s)[x] == multiset(t)[x] {
      OnceEach(s, x);
      OnceEach(t, x);
      assert x in s <==> x in Elements(s);
      assert x in t <==> x in Elements(t);
    }
  }

  /** The ids of a list of metadata records. */
  function RecordIds(records: seq<Value>): seq<string>
    requires forall k :: 0 <= k < |records| ==> ObservationIdOf(records[k]).Some?
  {
    seq(|records|, k requires 0 <= k < |records| => ObservationIdOf(records[k]).value)
  }

  /** All ids that the actions of a ledger name: those of its shell events, then those embedded in its pred
      records. */
  function NamedIds(ledger: Fields, triage: bool): seq<string> {
    var events := Iterated(EventSource(ledger, triage));
    var shells := ShellEvents(if events.Some? then events.value else [], triage);
    var preds := Items(PredSource(ledger, triage));
    ShellRefs(shells, |shells|) + PredRefs(preds, |preds|)
  }

  /** Observations and the actions that name them match one to one: as collections of ids they are equal,
      and no id occurs twice. It holds of the triage ledger and of every episode ledger. */
  lemma ObservationsBijective(ledger: Fields, triage: bool, limits: Config)
    requires ObservationsClean(ledger, triage, limits)
    ensures var records := Items(Get(ledger, KObservations));
      && (forall k :: 0 <= k < |records| ==> ObservationIdOf(records[k]).Some?)
      && multiset(RecordIds(records)) == multiset(NamedIds(ledger, triage))
      && NoDuplicates(RecordIds(records))
  {
    hide MetadataClean, ShellEvents, ShellRefs, PredRefs, ShellEventClean, PredObservationClean, ById;
    var records := Items(Get(ledger, KObservations));
    var ids, named := RecordIds(records), NamedIds(ledger, triage);
    forall x ensures x in ids <==> x in named {
      InById(records, |records|, x);
      if x in ids {
        var k :| 0 <= k < |ids| && ids[k] == x;
        assert ObservationIdOf(records[k]) == Some(x);
      }
      if x in ById(records, |records|) {
        var k :| 0 <= k < |records| && ObservationIdOf(records[k]) == Some(x);
        assert ids[k] == x;
      }
      assert x in named <==> x in Elements(named);
    }
    assert Elements(ids) == Elements(named);
    SameElementsOnce(ids, named);
  }

  lemma EpisodeObservationsBijective(submission: Value, inventory: Option<set<string>>, x: Expected, i: nat)
    requires SubmissionClean(submission, inventory, x) && i < |Episodes(submission)|
    ensures var ledger := LedgerOf(Episodes(submission)[i]); var records := Items(Get(ledger, KObservations));
      && (forall k :: 0 <= k < |records| ==> ObservationIdOf(records[k]).Some?)
      && multiset(RecordIds(records)) == multiset(NamedIds(ledger, false))
      && NoDuplicates(RecordIds(records))
  {
    hide SubmissionClean, ObservationsClean, StatusClean, EventsClean, PredClean, SubmitClean;
    CleanEpisode(submission, inventory, x, i);
    ObservationsBijective(LedgerOf(Episodes(submission)[i]), false, x.observation);
  }
}
