/** The observation ledger of an episode: one entry per observed action, whatever the interleaving. */
module ObservationAgreement {
  import opened Text
  import opened Json
  import opened Observations
  import opened CommandLine
  import opened Gateway
  import opened GatewaySafety
  import opened Episode
  import opened LedgerJson
  import opened ObservationContract
  import opened Agreement

  // ---------------------------------------------------------------- metadata as JSON

  lemma MetadataReads(m: Metadata)
    ensures MetadataJson(m).Obj? && MetadataJson(m).fields.Keys == REQUIRED_FIELDS
    ensures var d := MetadataJson(m).fields;
      && d[KObservationId] == Str(m.observationId) && d[KKind] == Str(KindName(m.kind)) && d[KCommand] == Str(m.command)
      && d[KRawLog] == Str(m.rawLog) && d[KReturncode] == Int(m.returncode) && d[KTimedOut] == Bool(m.timedOut)
      && d[KOriginalChars] == Int(m.originalChars) && d[KOriginalLines] == Int(m.originalLines)
      && d[KPreviewChars] == Int(m.previewChars) && d[KArchiveChars] == Int(m.archiveChars)
      && d[KPreviewCompacted] == Bool(m.previewCompacted) && d[KArchiveTruncated] == Bool(m.archiveTruncated)
  {
    hide KindName;
  }

  /** Metadata the validator can accept. */
  predicate Good(m: Metadata, config: Config) {
    && IsObservationId(m.observationId) && m.rawLog == LogPath(m.observationId)
    && m.previewChars <= config.previewChars && m.archiveChars <= config.archiveChars
  }

  lemma GoodIsClean(m: Metadata, config: Config)
    requires Good(m, config)
    ensures MetadataClean(MetadataJson(m), config)
    ensures ObservationIdOf(MetadataJson(m)) == Some(m.observationId)
  {
    hide IsObservationId, LogPath, MetadataJson;
    MetadataReads(m);
  }

  lemma ExitMatches(m: Metadata)
    requires m.timedOut ==> m.returncode == 124
    ensures OutcomeMatches(MetadataJson(m).fields, Str(OutcomeName(ExitOutcome(m.returncode, m.timedOut))))
  {
    hide MetadataJson, PyEq;
    MetadataReads(m);
    PyEqInts(m.returncode, 0);
    PyEqInts(m.returncode, 124);
  }

  lemma RefusalMatches(m: Metadata)
    requires m.returncode == 75 && !m.timedOut
    ensures OutcomeMatches(MetadataJson(m).fields, Str(OutcomeName(BudgetExhausted)))
  {
    hide MetadataJson, PyEq;
    MetadataReads(m);
    PyEqInts(75, 75);
  }

  lemma WhichRequire(o: Outcome)
    ensures RequiresObservation(Str(OutcomeName(o))) <==> o.Completed? || o.NonzeroExit? || o.Timeout?
  {
    OutcomeNamesDiffer(o, Completed);
    OutcomeNamesDiffer(o, NonzeroExit);
    OutcomeNamesDiffer(o, Timeout);
  }

  // ---------------------------------------------------------------- lists with one entry per id

  predicate OneEach(s: seq<Metadata>) {
    forall i, j :: 0 <= i < j < |s| ==> s[i].observationId != s[j].observationId
  }

  function Ids(s: seq<Metadata>): seq<string> { seq(|s|, k requires 0 <= k < |s| => s[k].observationId) }

  lemma {:induction false} InsertKeepsOneEach(m: Metadata, s: seq<Metadata>)
    requires OneEach(s) && forall x :: x in s ==> x.observationId != m.observationId
    ensures OneEach(Insert(m, s))
  {
    if s != [] {
      var front, last := s[..|s| - 1], s[|s| - 1];
      InsertKeepsOneEach(m, front);
      InsertPermutes(m, front);
      forall x | x in Insert(m, front) ensures x.observationId != last.observationId {
        assert x in multiset(Insert(m, front));
        if x != m { assert x in multiset(front); }
      }
    }
  }

  lemma SortMembers(s: seq<Metadata>, x: Metadata)
    ensures x in SortById(s) <==> x in s
  {
    hide SortById;
    SortByIdCorrect(s);
    assert x in SortById(s) <==> x in multiset(SortById(s));
    assert x in s <==> x in multiset(s);
  }

  lemma {:induction false} SortKeepsOneEach(s: seq<Metadata>)
    requires OneEach(s)
    ensures OneEach(SortById(s))
    ensures forall x :: x in SortById(s) <==> x in s
  {
    if s != [] {
      var front, last := s[..|s| - 1], s[|s| - 1];
      SortKeepsOneEach(front);
      InsertKeepsOneEach(last, SortById(front));
    }
    hide SortById;
    forall x ensures x in SortById(s) <==> x in s { SortMembers(s, x); }
  }

  // ---------------------------------------------------------------- the observations of an episode

  lemma ShellObservationsGood(ep: Episode, k: nat)
    requires ShellsOk(ep) && k < |ep.observations|
    ensures Good(ep.observations[k], ep.gateway.config) && ep.observations[k].kind == ShellKind
    ensures exists n: nat :: ep.observations[k].observationId == ShellId(n)
  {
    var m := ep.observations[k];
    assert Observed(ep.shells[k], m, ep.gateway.config) && NumberedUpTo(m.observationId, ep.numbered);
    hide ShellsOk, ShellId, LogPath, IsObservationId;
    var n: nat :| n <= ep.numbered && n < 10000 && m.observationId == ShellId(n);
    ShellIdValid(n);
  }

  lemma PredObservationGood(config: Config, r: PredRecord, k: nat)
    requires RecordOk(config, r, k) && r.observation.Some?
    ensures Good(r.observation.value, config) && r.observation.value.kind == PredKind
    ensures r.observation.value.observationId == PredId(r.requestId) && r.observation.value.command == PredCommand(r.args)
    ensures r.returncode == Some(r.observation.value.returncode)
    ensures r.outcome == ExitOutcome(r.observation.value.returncode, r.observation.value.timedOut)
    ensures r.observation.value.timedOut ==> r.observation.value.returncode == 124
  {
    hide PredCommand, LogPath, PredId, IsRequestId, IsObservationId;
    PredIdValid(r.requestId);
  }

  /** Everything in the list comes from a record, and conversely. */
  lemma {:induction false} InPredObservations(ledger: seq<PredRecord>, m: Metadata)
    ensures m in PredObservations(ledger) <==> exists k :: 0 <= k < |ledger| && ledger[k].observation == Some(m)
  {
    if ledger != [] {
      InPredObservations(ledger[..|ledger| - 1], m);
      if ledger[|ledger| - 1].observation == Some(m) { assert 0 <= |ledger| - 1 < |ledger|; }
    }
  }

  lemma {:induction false} PredObservationsCount(ledger: seq<PredRecord>)
    ensures |PredObservations(ledger)| <= |ledger|
  {
    if ledger != [] { PredObservationsCount(ledger[..|ledger| - 1]); }
  }

  /** No request id has two records with an observation. */
  ghost predicate ObservedOnce(ledger: seq<PredRecord>) {
    forall j, k :: 0 <= j < k < |ledger| && Observes(ledger[j]) && Observes(ledger[k]) ==>
      ledger[j].requestId != ledger[k].requestId
  }

  lemma {:induction false} PredObservationsOneEach(config: Config, ledger: seq<PredRecord>)
    requires forall k :: 0 <= k < |ledger| ==> RecordOk(config, ledger[k], k)
    requires ObservedOnce(ledger)
    ensures OneEach(PredObservations(ledger))
  {
    hide RecordOk, PredId;
    if ledger != [] {
      var front, last := ledger[..|ledger| - 1], ledger[|ledger| - 1];
      PredObservationsOneEach(config, front);
      if last.observation.Some? {
        PredObservationGood(config, last, |ledger| - 1);
        forall m | m in PredObservations(front) ensures m.observationId != last.observation.value.observationId {
          InPredObservations(front, m);
          var k :| 0 <= k < |front| && front[k].observation == Some(m);
          PredObservationGood(config, ledger[k], k);
          if PredId(ledger[k].requestId) == PredId(last.requestId) { PredIdInjective(ledger[k].requestId, last.requestId); }
        }
      }
    }
  }

  ghost predicate Resting(ep: Episode) { AtRest(ep.gateway) && !ep.pending }

  /** Shell and pred observations together, in the order they were collected. */
  function Collected(ep: Episode): seq<Metadata> { ep.observations + PredObservations(ep.gateway.shared.ledger) }

  /** One good observation per id. */
  ghost predicate GoodCollection(ep: Episode) {
    OneEach(Collected(ep)) && forall m :: m in Collected(ep) ==> Good(m, ep.gateway.config)
  }

  lemma RecordAt(ep: Episode, k: nat)
    requires EpisodeInv(ep) && k < |ep.gateway.shared.ledger|
    ensures RecordOk(ep.gateway.config, ep.gateway.shared.ledger[k], k)
  {
    hide RecordOk, Accounts, Owners, Workers, Logs, CountsOk, SubmitOk, ShellsOk;
  }

  lemma UnobservedRecord(config: Config, r: PredRecord, k: nat)
    requires RecordOk(config, r, k) && r.observation.None?
    ensures !(r.outcome.Completed? || r.outcome.NonzeroExit? || r.outcome.Timeout?)
  {
    hide WellPackaged;
  }

  lemma EpisodeParts(ep: Episode)
    requires EpisodeInv(ep)
    ensures forall k :: 0 <= k < |ep.gateway.shared.ledger| ==> RecordOk(ep.gateway.config, ep.gateway.shared.ledger[k], k)
    ensures ShellsOk(ep) && OneEach(ep.observations) && ObservedOnce(ep.gateway.shared.ledger)
  {
    hide RecordOk, Accounts, Owners, Workers, CountsOk, SubmitOk, Observed, NumberedUpTo;
  }

  lemma CollectedOneEach(ep: Episode)
    requires EpisodeInv(ep)
    ensures GoodCollection(ep)
  {
    hide EpisodeInv, RecordOk, ShellsOk, Good, ShellId, PredId, ObservedOnce, PredObservations;
    var ledger := ep.gateway.shared.ledger;
    EpisodeParts(ep);
    PredObservationsOneEach(ep.gateway.config, ledger);
    forall m | m in PredObservations(ledger)
      ensures Good(m, ep.gateway.config) && exists id :: m.observationId == PredId(id)
    {
      InPredObservations(ledger, m);
      var k :| 0 <= k < |ledger| && ledger[k].observation == Some(m);
      PredObservationGood(ep.gateway.config, ledger[k], k);
    }
    forall k | 0 <= k < |ep.observations|
      ensures Good(ep.observations[k], ep.gateway.config)
      ensures forall m :: m in PredObservations(ledger) ==> ep.observations[k].observationId != m.observationId
    {
      ShellObservationsGood(ep, k);
      forall m | m in PredObservations(ledger) ensures ep.observations[k].observationId != m.observationId {
        var n: nat :| ep.observations[k].observationId == ShellId(n);
        var id :| m.observationId == PredId(id);
        ShellIsNotPred(n, id);
      }
    }
  }

  // ---------------------------------------------------------------- the index

  lemma ItemsClean(ep: Episode)
    requires GoodCollection(ep)
    ensures MetadataListClean(ObservationItems(ep), |ObservationItems(ep)|, ep.gateway.config)
    ensures forall k :: 0 <= k < |AllObservations(ep)| ==>
      ObservationIdOf(ObservationItems(ep)[k]) == Some(AllObservations(ep)[k].observationId)
  {
    hide Good, MetadataClean, MetadataJson, SortById, PredObservations;
    SortKeepsOneEach(Collected(ep));
    var all, items := AllObservations(ep), ObservationItems(ep);
    forall k | 0 <= k < |items|
      ensures MetadataClean(items[k], ep.gateway.config) && ObservationIdOf(items[k]) == Some(all[k].observationId)
    {
      assert all[k] in all;
      GoodIsClean(all[k], ep.gateway.config);
    }
  }

  function Index(ep: Episode): map<string, Fields> { ById(ObservationItems(ep), |ObservationItems(ep)|) }

  /** Every collected observation is found under its id. */
  lemma IndexFinds(ep: Episode, m: Metadata)
    requires GoodCollection(ep)
    requires m in Collected(ep)
    ensures m.observationId in Index(ep) && Index(ep)[m.observationId] == MetadataJson(m).fields
  {
    ItemsClean(ep);
    SortKeepsOneEach(Collected(ep));
    var all, items := AllObservations(ep), ObservationItems(ep);
    var k :| 0 <= k < |all| && all[k] == m;
    assert items[k] == MetadataJson(m) && ObservationIdOf(items[k]) == Some(m.observationId);
    hide Good, MetadataClean, SortById, PredObservations, MetadataJson;
    ByIdHolds(items, |items|, k);
  }

  lemma IndexKeys(ep: Episode)
    requires GoodCollection(ep)
    ensures Index(ep).Keys == Elements(Ids(Collected(ep)))
  {
    hide Good, MetadataListClean, SortById, PredObservations, MetadataJson;
    ItemsClean(ep);
    SortKeepsOneEach(Collected(ep));
    var all, items, ids := AllObservations(ep), ObservationItems(ep), Ids(Collected(ep));
    forall id ensures id in Index(ep) <==> id in ids {
      InById(items, |items|, id);
      if id in Index(ep) {
        var k :| 0 <= k < |items| && ObservationIdOf(items[k]) == Some(id);
        assert all[k] in Collected(ep);
        var j :| 0 <= j < |Collected(ep)| && Collected(ep)[j] == all[k];
        assert ids[j] == id;
      }
      if id in ids {
        var j :| 0 <= j < |ids| && ids[j] == id;
        assert Collected(ep)[j] in all;
        var k :| 0 <= k < |all| && all[k] == Collected(ep)[j];
        assert ObservationIdOf(items[k]) == Some(id);
      }
    }
  }

  // ---------------------------------------------------------------- the references

  lemma {:induction false} ShellEventsAreAll(events: seq<Value>)
    requires forall k :: 0 <= k < |events| ==> events[k].Obj?
    ensures ShellEvents(events, false) == events
  {
    if events != [] { ShellEventsAreAll(events[1..]); }
  }

  lemma {:induction false} ShellRefsAre(events: seq<Value>, ms: seq<Metadata>, n: nat)
    requires n <= |events| && n <= |ms|
    requires forall k :: 0 <= k < n ==> ObservationIdOf(events[k]) == Some(ms[k].observationId)
    ensures ShellRefs(events, n) == Ids(ms[..n])
  {
    hide ObservationIdOf;
    if n > 0 {
      ShellRefsAre(events, ms, n - 1);
      assert ms[..n] == ms[..n - 1] + [ms[n - 1]];
    }
  }

  function Embedded(r: PredRecord): Value { if r.observation.Some? then MetadataJson(r.observation.value) else Null }

  lemma ObservationRef(m: Metadata)
    ensures OneRef(MetadataJson(m)) == [m.observationId]
  {
    hide MetadataJson;
    MetadataReads(m);
  }

  lemma PredRefsStep(items: seq<Value>, ledger: seq<PredRecord>, n: nat)
    requires 0 < n <= |items| && n <= |ledger|
    requires items[n - 1].Obj? && Get(items[n - 1].fields, KObservation) == Embedded(ledger[n - 1])
    requires PredRefs(items, n - 1) == Ids(PredObservations(ledger[..n - 1]))
    ensures PredRefs(items, n) == Ids(PredObservations(ledger[..n]))
  {
    hide MetadataJson;
    var r := ledger[n - 1];
    PredObservationsStep(ledger, n);
    if r.observation.Some? { ObservationRef(r.observation.value); }
  }

  lemma PredObservationsStep(ledger: seq<PredRecord>, n: nat)
    requires 0 < n <= |ledger|
    ensures PredObservations(ledger[..n]) == PredObservations(ledger[..n - 1])
      + if ledger[n - 1].observation.Some? then [ledger[n - 1].observation.value] else []
  {
    assert ledger[..n][..n - 1] == ledger[..n - 1];
  }

  lemma {:induction false} PredRefsAre(items: seq<Value>, ledger: seq<PredRecord>, n: nat)
    requires n <= |items| && n <= |ledger|
    requires forall k :: 0 <= k < n ==> items[k].Obj? && Get(items[k].fields, KObservation) == Embedded(ledger[k])
    ensures PredRefs(items, n) == Ids(PredObservations(ledger[..n]))
  {
    if n > 0 {
      hide PredRefs, PredObservations, Embedded;
      PredRefsAre(items, ledger, n - 1);
      PredRefsStep(items, ledger, n);
    }
  }

  /** Every shell event names its own observation. */
  lemma ShellReferences(ep: Episode)
    requires ShellsOk(ep) && !ep.pending
    ensures |ShellItems(ep)| == |ep.observations|
    ensures ShellRefs(ShellItems(ep), |ShellItems(ep)|) == Ids(ep.observations)
  {
    hide ShellItems, NumberedUpTo, ShellRefs;
    ItemCounts(ep);
    forall k | 0 <= k < |ep.observations|
      ensures ObservationIdOf(ShellItems(ep)[k]) == Some(ep.observations[k].observationId)
    {
      assert Observed(ep.shells[k], ep.observations[k], ep.gateway.config);
      ShellItemReads(ep, k);
    }
    ShellRefsAre(ShellItems(ep), ep.observations, |ep.observations|);
    assert ep.observations[..|ep.observations|] == ep.observations;
  }

  lemma PredReferences(ep: Episode)
    ensures PredRefs(PredItems(ep), |PredItems(ep)|) == Ids(PredObservations(ep.gateway.shared.ledger))
  {
    hide PredItems, PredRefs, MetadataJson, PredObservations, OutcomeName;
    var ledger := ep.gateway.shared.ledger;
    ItemCounts(ep);
    forall k | 0 <= k < |ledger|
      ensures PredItems(ep)[k].Obj? && Get(PredItems(ep)[k].fields, KObservation) == Embedded(ledger[k])
    {
      PredItemReads(ep, k);
    }
    PredRefsAre(PredItems(ep), ledger, |ledger|);
    assert ledger[..|ledger|] == ledger;
  }

  lemma ShellEventAgrees(ep: Episode, k: nat)
    requires EpisodeInv(ep) && k < |ep.observations|
    requires GoodCollection(ep)
    ensures k < |ShellItems(ep)| && ShellItems(ep)[k].Obj? && ShellEventClean(ShellItems(ep)[k].fields, Index(ep))
  {
    hide Inv, CountsOk, SubmitOk, GoodCollection, PyEq, MetadataJson, Index, OutcomeMatches, ShellItems, OutcomeName,
         NumberedUpTo;
    var e, m := ep.shells[k], ep.observations[k];
    assert Observed(e, m, ep.gateway.config);
    ShellObservationsGood(ep, k);
    hide ShellsOk, Good;
    ItemCounts(ep);
    ShellItemReads(ep, k);
    assert m == Collected(ep)[k];
    hide Collected;
    IndexFinds(ep, m);
    MetadataReads(m);
    if e.charged { ExitMatches(m); } else { RefusalMatches(m); }
    PyEqSame(Str(m.command));
  }

  lemma CommandAgrees(r: PredRecord, m: Metadata, record: Fields)
    requires m.command == PredCommand(r.args) && Get(record, KArgs) == TextList(r.args)
    ensures CommandMatches(MetadataJson(m).fields, record)
  {
    hide PredCommand, MetadataJson;
    MetadataReads(m);
    assert Strings(TextList(r.args).items) == r.args;
  }

  lemma ObservedRecordAgrees(ep: Episode, k: nat, m: Metadata)
    requires GoodCollection(ep) && k < |ep.gateway.shared.ledger|
    requires RecordOk(ep.gateway.config, ep.gateway.shared.ledger[k], k)
    requires ep.gateway.shared.ledger[k].observation == Some(m)
    ensures k < |PredItems(ep)| && PredItems(ep)[k].Obj? && PredObservationClean(PredItems(ep)[k].fields, Index(ep))
  {
    hide GoodCollection, PyEq, MetadataJson, Index, OutcomeMatches, OutcomeName, CommandMatches, RequiresObservation,
         PredItems, RecordOk, PredId, PredCommand, Good, PredObservations;
    var ledger := ep.gateway.shared.ledger;
    ItemCounts(ep);
    PredItemReads(ep, k);
    PredObservationGood(ep.gateway.config, ledger[k], k);
    InPredObservations(ledger, m);
    assert m in Collected(ep);
    IndexFinds(ep, m);
    MetadataReads(m);
    ExitMatches(m);
    CommandAgrees(ledger[k], m, PredItems(ep)[k].fields);
    PyEqSame(MetadataJson(m));
    PyEqSame(Int(m.returncode));
  }

  lemma PredObservationAgrees(ep: Episode, k: nat)
    requires EpisodeInv(ep) && k < |ep.gateway.shared.ledger|
    requires GoodCollection(ep)
    ensures k < |PredItems(ep)| && PredItems(ep)[k].Obj? && PredObservationClean(PredItems(ep)[k].fields, Index(ep))
  {
    hide EpisodeInv, GoodCollection, PyEq, MetadataJson, Index, OutcomeMatches, OutcomeName, CommandMatches,
         RequiresObservation, PredItems, RecordOk;
    var r := ep.gateway.shared.ledger[k];
    RecordAt(ep, k);
    if r.observation.Some? {
      ObservedRecordAgrees(ep, k, r.observation.value);
    } else {
      ItemCounts(ep);
      PredItemReads(ep, k);
      WhichRequire(r.outcome);
      UnobservedRecord(ep.gateway.config, r, k);
    }
  }

  /** A pending shell action has no observation, and the validator wants one. */
  lemma PendingIsRejected(ep: Episode)
    requires ShellsOk(ep) && ep.pending
    ensures !ObservationsClean(Ledger(ep), false, ep.gateway.config)
  {
    hide Ledger, PredItems, ShellItems, ObservationItems, ById, PredObservationClean, MetadataListClean, ShellRefs, PredRefs,
         NoDuplicates, PyEq, OutcomeMatches, Observed, NumberedUpTo;
    LedgerReads(ep);
    ItemCounts(ep);
    var last := |ep.shells| - 1;
    ShellItemReads(ep, last);
    forall k | 0 <= k < |ShellItems(ep)| ensures ShellItems(ep)[k].Obj? { ShellItemReads(ep, k); }
    ShellEventsAreAll(ShellItems(ep));
    var byId := ById(ObservationItems(ep), |ObservationItems(ep)|);
    assert !ShellEventClean(ShellEvents(ShellItems(ep), false)[last].fields, byId);
  }

  /** The observation ledger is accepted exactly if no shell action is pending, whatever the workers are doing
      and also if request ids were reused. */
  lemma ObservationsAgree(ep: Episode)
    requires EpisodeInv(ep)
    ensures ObservationsClean(Ledger(ep), false, ep.gateway.config) <==> !ep.pending
  {
    hide EpisodeInv, ObservationsClean, ShellsOk, Ledger;
    EpisodeParts(ep);
    if ep.pending { PendingIsRejected(ep); } else { ObservedActionsAgree(ep); }
  }

  lemma ObservedActionsAgree(ep: Episode)
    requires EpisodeInv(ep) && !ep.pending
    ensures ObservationsClean(Ledger(ep), false, ep.gateway.config)
  {
    assert |ep.shells| == |ep.observations| && ShellsOk(ep);
    hide EpisodeInv, ShellsOk, GoodCollection, ShellItems, PredItems, Index, ShellEventClean, PredObservationClean, AtRest,
         Ledger, ObservationsClean, ShellRefs, PredRefs, PredObservations;
    CollectedOneEach(ep);
    ItemCounts(ep);
    forall k | 0 <= k < |ShellItems(ep)| ensures ShellItems(ep)[k].Obj? && ShellEventClean(ShellItems(ep)[k].fields, Index(ep)) {
      ShellEventAgrees(ep, k);
    }
    forall k | 0 <= k < |PredItems(ep)| ensures PredItems(ep)[k].Obj? && PredObservationClean(PredItems(ep)[k].fields, Index(ep)) {
      PredObservationAgrees(ep, k);
    }
    ShellReferences(ep);
    PredReferences(ep);
    References(ep);
  }

  lemma IdsDistinct(ep: Episode)
    requires GoodCollection(ep)
    ensures NoDuplicates(Ids(Collected(ep)))
  {
  }

  lemma References(ep: Episode)
    requires GoodCollection(ep)
    requires |ShellItems(ep)| == |ep.observations|
    requires forall k :: 0 <= k < |ShellItems(ep)| ==> ShellItems(ep)[k].Obj? && ShellEventClean(ShellItems(ep)[k].fields, Index(ep))
    requires forall k :: 0 <= k < |PredItems(ep)| ==> PredItems(ep)[k].Obj? && PredObservationClean(PredItems(ep)[k].fields, Index(ep))
    requires ShellRefs(ShellItems(ep), |ShellItems(ep)|) == Ids(ep.observations)
    requires PredRefs(PredItems(ep), |PredItems(ep)|) == Ids(PredObservations(ep.gateway.shared.ledger))
    ensures ObservationsClean(Ledger(ep), false, ep.gateway.config)
  {
    hide Ledger, PredItems, ShellItems, ObservationItems, GoodCollection, ById, ShellEventClean, PredObservationClean,
         MetadataListClean, PredObservations, ShellRefs, PredRefs, SortById, ShellEvents;
    LedgerReads(ep);
    ItemCounts(ep);
    ItemsClean(ep);
    IndexKeys(ep);
    ShellEventsAreAll(ShellItems(ep));
    SortByIdCorrect(Collected(ep));
    PredObservationsCount(ep.gateway.shared.ledger);
    assert NoDuplicates(Ids(Collected(ep))) by { IdsDistinct(ep); }
    assert Ids(Collected(ep)) == Ids(ep.observations) + Ids(PredObservations(ep.gateway.shared.ledger));
  }
}
