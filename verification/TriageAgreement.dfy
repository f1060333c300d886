/** Exactly which triage phases leave a ledger that the validator accepts. */
module TriageAgreement {
  import opened Text
  import opened Budget
  import opened Counting
  import opened Json
  import opened Observations
  import opened GatewaySafety
  import opened Episode
  import opened LedgerJson
  import opened Contract
  import opened ObservationContract
  import opened TriageContract
  import opened Agreement
  import opened ObservationAgreement
  import opened Triage

  // ---------------------------------------------------------------- the triage ledger as JSON

  function EventFields(e: TriageEvent, limits: Usage): Fields {
    match e
    case ModelStep(model) => ModelEventFields(model, limits)[KType := Str("model_generation")]
    case ShellStep(shell) => ShellEventFields(shell, limits)[KType := Str("shell_action")]
    case Commit(rules) => map[KType := Str("shortlist_commit"), KAccepted := Bool(true), KRules := TextList(rules)]
  }

  function ItemsOf(events: seq<TriageEvent>, limits: Usage): seq<Value> {
    seq(|events|, k requires 0 <= k < |events| => Obj(EventFields(events[k], limits)))
  }

  function EventItems(t: TriageState): seq<Value> { ItemsOf(t.events, t.limits) }

  function JsonList(ms: seq<Metadata>): seq<Value> { seq(|ms|, k requires 0 <= k < |ms| => MetadataJson(ms[k])) }

  function EntryJson(e: Entry): Value { Obj(map[KRule := Str(e.rule), KHypothesis := Str(e.hypothesis)]) }

  function EntryItems(entries: seq<Entry>): seq<Value> {
    seq(|entries|, k requires 0 <= k < |entries| => EntryJson(entries[k]))
  }

  function EntriesJson(entries: seq<Entry>): Value { List(EntryItems(entries)) }

  function ShortlistJson(t: TriageState): Value {
    if t.shortlist.None? then Null else EntriesJson(t.shortlist.value)
  }

  function TriageBudgetFields(limits: Usage, outputChars: nat, timeoutSeconds: nat): Fields {
    map[KModelGenerations := Int(limits.models), KShellActions := Int(limits.shells),
        KMaxOutputChars := Int(outputChars), KCommandTimeoutSeconds := Int(timeoutSeconds)]
  }

  /** `ledger()` of the triage session. */
  function TriageLedger(t: TriageState, outputChars: nat, timeoutSeconds: nat): Fields {
    map[KBudget := Obj(TriageBudgetFields(t.limits, outputChars, timeoutSeconds)),
        KStatus := Obj(StatusFields(t.used, t.limits)), KObservations := List(JsonList(t.observations)),
        KEvents := List(EventItems(t)), KShortlist := ShortlistJson(t)]
  }

  // ---------------------------------------------------------------- reading it back

  lemma TriageLedgerReads(t: TriageState, chars: nat, seconds: nat)
    ensures var d := TriageLedger(t, chars, seconds);
      && Get(d, KBudget) == Obj(TriageBudgetFields(t.limits, chars, seconds)) && KBudget in d
      && Get(d, KStatus) == Obj(StatusFields(t.used, t.limits)) && KStatus in d
      && Get(d, KObservations) == List(JsonList(t.observations))
      && Get(d, KEvents) == List(EventItems(t)) && KEvents in d
  {
    hide TriageBudgetFields, StatusFields, JsonList, EventItems, ShortlistJson;
  }

  lemma TriageBudgetReads(limits: Usage, chars: nat, seconds: nat)
    ensures var d := TriageBudgetFields(limits, chars, seconds);
      && KModelGenerations in d && d[KModelGenerations] == Int(limits.models)
      && KShellActions in d && d[KShellActions] == Int(limits.shells)
  {
  }

  lemma TriageStatusReads(used: Usage, limits: Usage)
    ensures var d := StatusFields(used, limits);
      && d.Keys == {KModelGenerations, KShellActions, KPredCalls, KSolveCalls}
      && d[KModelGenerations] == CounterJson(used.models, limits.models)
      && d[KShellActions] == CounterJson(used.shells, limits.shells)
  {
    hide CounterJson;
  }

  lemma TriageUsedReads(t: TriageState, chars: nat, seconds: nat, n: nat)
    ensures UsedIs(TriageLedger(t, chars, seconds), KModelGenerations, n) <==> n == t.used.models
    ensures UsedIs(TriageLedger(t, chars, seconds), KShellActions, n) <==> n == t.used.shells
  {
    hide TriageLedger, StatusFields, CounterJson, PyEq;
    TriageLedgerReads(t, chars, seconds);
    TriageStatusReads(t.used, t.limits);
    CounterJsonReads(t.used.models, t.limits.models);
    CounterJsonReads(t.used.shells, t.limits.shells);
    PyEqInts(n, t.used.models);
    PyEqInts(n, t.used.shells);
  }

  lemma TriageBoundReads(t: TriageState, chars: nat, seconds: nat)
    ensures EventBound(TriageLedger(t, chars, seconds)) == Some((t.limits.models + t.limits.shells + 3) as real)
  {
    hide TriageLedger, TriageBudgetFields;
    TriageLedgerReads(t, chars, seconds);
    TriageBudgetReads(t.limits, chars, seconds);
  }

  lemma TriageStatusAgrees(t: TriageState, chars: nat, seconds: nat)
    requires Within(t.used, t.limits)
    ensures StatusClean(Get(TriageLedger(t, chars, seconds), KStatus), TriageBudgetFields(t.limits, chars, seconds), TRIAGE_COUNTERS)
  {
    hide TriageLedger, StatusFields, TriageBudgetFields, CounterJson, PyEq;
    TriageLedgerReads(t, chars, seconds);
    TriageBudgetReads(t.limits, chars, seconds);
    TriageStatusReads(t.used, t.limits);
    CounterJsonReads(t.used.models, t.limits.models);
    CounterJsonReads(t.used.shells, t.limits.shells);
    PyEqInts(t.limits.models, t.limits.models);
    PyEqInts(t.limits.shells, t.limits.shells);
    PyEqInts(t.limits.models - t.used.models, t.limits.models - t.used.models);
    PyEqInts(t.limits.shells - t.used.shells, t.limits.shells - t.used.shells);
  }

  lemma KindsDiffer()
    ensures "model_generation" != "shell_action" && "shell_action" != "shortlist_commit" && "model_generation" != "shortlist_commit"
  {
    assert "model_generation"[0] == 'm' && "shell_action"[1] == 'h' && "shortlist_commit"[2] == 'o' && "shell_action"[2] == 'e';
  }

  function KindOf(e: TriageEvent): string {
    match e
    case ModelStep(_) => "model_generation"
    case ShellStep(_) => "shell_action"
    case Commit(_) => "shortlist_commit"
  }

  predicate ChargedStep(e: TriageEvent) { (e.ModelStep? && e.model.charged) || (e.ShellStep? && e.shell.charged) }

  lemma EventFieldsRead(e: TriageEvent, limits: Usage)
    ensures var d := EventFields(e, limits);
      && Get(d, KType) == Str(KindOf(e)) && (KSequence in d <==> !e.Commit?)
      && (!e.Commit? ==> d[KSequence] == Int(SequenceOf(e)))
      && Get(d, KAccepted) == (if e.Commit? then Bool(true) else Null)
      && (KCharged in d <==> !e.Commit?) && (!e.Commit? ==> d[KCharged] == Bool(ChargedStep(e)))
      && (e.ShellStep? ==> Get(d, KCommand) == Str(e.shell.command) && Get(d, KOutcome) == Str(OutcomeName(e.shell.outcome))
                           && Get(d, KObservationId) == OptionalText(e.shell.observationId))
  {
    hide StatusFields, OutcomeName, TextList;
  }

  /** What the validator's predicates see in one event. */
  lemma EventSeen(e: TriageEvent, limits: Usage)
    ensures var v := Obj(EventFields(e, limits));
      && (IsCommit(v) <==> e.Commit?) && (IsSequenced(v) <==> !e.Commit?) && ChargedFieldOk(v)
      && (IsCharged(v) <==> ChargedStep(e))
      && (IsChargedOf(v, "model_generation") <==> e.ModelStep? && e.model.charged)
      && (IsChargedOf(v, "shell_action") <==> e.ShellStep? && e.shell.charged)
      && (IsShellEvent(v, true) <==> e.ShellStep?)
      && Hashable(Get(v.fields, KType))
  {
    hide EventFields, PyEq;
    EventFieldsRead(e, limits);
    KindsDiffer();
    PyEqStr("shortlist_commit", Str(KindOf(e)));
    PyEqStr("model_generation", Str(KindOf(e)));
    PyEqStr("shell_action", Str(KindOf(e)));
  }

  // ---------------------------------------------------------------- the sequence check

  /** No event follows a commit. */
  predicate CommitIsLast(events: seq<TriageEvent>) {
    forall i :: 0 <= i < |events| - 1 ==> !events[i].Commit?
  }

  /** No numbered event follows a commit. */
  predicate NothingAfterCommit(events: seq<TriageEvent>) {
    forall i, j :: 0 <= i < j < |events| && events[i].Commit? ==> events[j].Commit?
  }

  lemma SequenceSeen(e: TriageEvent, limits: Usage)
    ensures IsSequenced(Obj(EventFields(e, limits))) <==> !e.Commit?
    ensures !e.Commit? ==> Get(EventFields(e, limits), KSequence) == Int(SequenceOf(e))
  {
    hide EventFields, KindOf, OutcomeName;
    EventFieldsRead(e, limits);
  }

  predicate SequenceAgrees(events: seq<TriageEvent>, limits: Usage) {
    && |Sequenced(ItemsOf(events, limits))| + CountIf(events, IsCommitEvent) == |events|
    && (NumberedInOrder(Sequenced(ItemsOf(events, limits))) <==> NothingAfterCommit(events))
  }

  lemma SequenceStep(front: seq<TriageEvent>, last: TriageEvent, limits: Usage)
    requires SequenceAgrees(front, limits) && (!last.Commit? ==> SequenceOf(last) == |front| + 1)
    ensures SequenceAgrees(front + [last], limits)
  {
    var v := Obj(EventFields(last, limits));
    assert ItemsOf(front + [last], limits) == ItemsOf(front, limits) + [v];
    hide EventFields, PyEq, Sequenced, ItemsOf, NumberedInOrder, NothingAfterCommit, CountIf, IsSequenced;
    SequencedPush(ItemsOf(front, limits), v);
    SequenceSeen(last, limits);
    CountPush(front, last, IsCommitEvent);
    NothingAfterPush(front, last);
    var numbered := Sequenced(ItemsOf(front, limits));
    if !last.Commit? {
      NumberedPush(numbered, v);
      PyEqInts(|front| + 1, |numbered| + 1);
      assert Get(v.fields, KSequence) == Int(|front| + 1);
      assert Sequenced(ItemsOf(front + [last], limits)) == numbered + [v];
      assert NumberedInOrder(numbered + [v]) <==> NumberedInOrder(numbered) && |front| == |numbered|;
      assert NumberedInOrder(numbered + [v]) <==> NothingAfterCommit(front + [last]);
    } else {
      assert Sequenced(ItemsOf(front + [last], limits)) == numbered;
    }
  }

  lemma {:induction false} SequencedAgrees(events: seq<TriageEvent>, limits: Usage)
    requires forall k :: 0 <= k < |events| && !events[k].Commit? ==> SequenceOf(events[k]) == k + 1
    ensures SequenceAgrees(events, limits)
  {
    if events != [] {
      hide SequenceAgrees;
      SequencedAgrees(events[..|events| - 1], limits);
      SequenceStep(events[..|events| - 1], events[|events| - 1], limits);
      assert events == events[..|events| - 1] + [events[|events| - 1]];
    }
  }

  lemma SequencedPush(items: seq<Value>, v: Value)
    ensures Sequenced(items + [v]) == Sequenced(items) + if IsSequenced(v) then [v] else []
  {
    assert (items + [v])[..|items|] == items;
  }

  lemma NumberedPush(front: seq<Value>, v: Value)
    requires v.Obj?
    ensures NumberedInOrder(front + [v]) <==> NumberedInOrder(front) && PyEq(Get(v.fields, KSequence), Int(|front| + 1))
  {
    hide PyEq;
    var all := front + [v];
    if NumberedInOrder(all) {
      assert all[|front|] == v;
      forall k | 0 <= k < |front| ensures front[k].Obj? && PyEq(Get(front[k].fields, KSequence), Int(k + 1)) {
        assert all[k] == front[k];
      }
    }
  }

  lemma NothingAfterPush(front: seq<TriageEvent>, last: TriageEvent)
    ensures NothingAfterCommit(front + [last]) <==>
      NothingAfterCommit(front) && (last.Commit? || CountIf(front, IsCommitEvent) == 0)
  {
    var all := front + [last];
    assert all[|front|] == last && forall k :: 0 <= k < |front| ==> all[k] == front[k];
    if CountIf(front, IsCommitEvent) == 0 {
      forall i | 0 <= i < |front| ensures !front[i].Commit? {
        if front[i].Commit? { CountSome(front, i, IsCommitEvent); }
      }
    } else if forall i :: 0 <= i < |front| ==> !front[i].Commit? {
      CountNone(front, IsCommitEvent);
    }
  }

  /** With exactly one commit, `NothingAfterCommit` says it is the last event. */
  lemma OneCommitLast(events: seq<TriageEvent>)
    requires CountIf(events, IsCommitEvent) == 1
    ensures NothingAfterCommit(events) <==> CommitIsLast(events)
  {
    if NothingAfterCommit(events) {
      forall i | 0 <= i < |events| - 1 ensures !events[i].Commit? {
        if events[i].Commit? {
          assert events[|events| - 1].Commit?;
          TwoCommits(events, i, |events| - 1);
        }
      }
    }
  }

  lemma TwoCommits(events: seq<TriageEvent>, i: nat, j: nat)
    requires i < j < |events| && events[i].Commit? && events[j].Commit?
    ensures CountIf(events, IsCommitEvent) >= 2
  {
    var other := ModelStep(ModelEvent(0, false, "", NO_USE));
    CountUpdate(events, i, other, IsCommitEvent);
    CountSome(events[i := other], j, IsCommitEvent);
  }

  // ---------------------------------------------------------------- the counts

  predicate ChargedModelStep(e: TriageEvent) { e.ModelStep? && e.model.charged }
  predicate ChargedShellStep(e: TriageEvent) { e.ShellStep? && e.shell.charged }

  lemma {:induction false} ChargedSteps(events: seq<TriageEvent>)
    ensures CountIf(events, ChargedModelStep) == CountIf(Models(events), ChargedModel)
    ensures CountIf(events, ChargedShellStep) == CountIf(Shells(events), ChargedShell)
  {
    if events != [] {
      var front, last := events[..|events| - 1], events[|events| - 1];
      assert events == front + [last];
      ChargedSteps(front);
      PushEvent(front, last);
      CountPush(front, last, ChargedModelStep);
      CountPush(front, last, ChargedShellStep);
      hide Models, Shells;
      if last.ModelStep? { CountPush(Models(front), last.model.(sequence := |Models(front)| + 1), ChargedModel); }
      if last.ShellStep? { CountPush(Shells(front), last.shell.(sequence := |Shells(front)| + 1), ChargedShell); }
    }
  }

  lemma TriageCountsAgree(t: TriageState)
    requires TriageInv(t)
    ensures CountIf(EventItems(t), IsCommit) == Bit(t.shortlist.Some?)
    ensures TriageContract.CountCharged(EventItems(t), "model_generation") == t.used.models
    ensures TriageContract.CountCharged(EventItems(t), "shell_action") == t.used.shells
  {
    var items := EventItems(t);
    assert t.used.models == CountIf(Models(t.events), ChargedModel);
    assert t.used.shells == CountIf(Shells(t.events), ChargedShell);
    hide EpisodeInv, EventFields, Models, Shells, GoodShortlist;
    forall k | 0 <= k < |items|
      ensures IsCommit(items[k]) <==> IsCommitEvent(t.events[k])
      ensures IsChargedOf(items[k], "model_generation") <==> ChargedModelStep(t.events[k])
      ensures IsChargedOf(items[k], "shell_action") <==> ChargedShellStep(t.events[k])
    {
      EventSeen(t.events[k], t.limits);
    }
    hide IsChargedOf, IsCommit;
    CountMapped(items, t.events, IsCommit, IsCommitEvent);
    CountMapped(items, t.events, v => IsChargedOf(v, "model_generation"), ChargedModelStep);
    CountMapped(items, t.events, v => IsChargedOf(v, "shell_action"), ChargedShellStep);
    ChargedSteps(t.events);
  }

  lemma EventItemsOk(t: TriageState, k: nat)
    requires k < |t.events|
    ensures ChargedFieldOk(EventItems(t)[k]) && EventItems(t)[k].Obj? && Hashable(Get(EventItems(t)[k].fields, KType))
  {
    hide EventFields, ChargedFieldOk, Hashable;
    EventSeen(t.events[k], t.limits);
  }

  /** The sequence check passes exactly if no numbered event follows the commit. */
  lemma SequenceCheckAgrees(t: TriageState)
    requires TriageInv(t)
    ensures |EventItems(t)| == |t.events|
    ensures t.shortlist.Some? ==> (NumberedInOrder(Sequenced(EventItems(t))) <==> CommitIsLast(t.events))
  {
    assert forall k :: 0 <= k < |t.events| && !t.events[k].Commit? ==> SequenceOf(t.events[k]) == k + 1;
    assert CountIf(t.events, IsCommitEvent) == Bit(t.shortlist.Some?);
    assert |EventItems(t)| == |t.events|;
    hide TriageInv, ItemsOf, Sequenced, NumberedInOrder, NothingAfterCommit, CommitIsLast;
    SequencedAgrees(t.events, t.limits);
    if t.shortlist.Some? { OneCommitLast(t.events); }
  }

  lemma TriageEventsAgree(t: TriageState, chars: nat, seconds: nat)
    requires TriageInv(t)
    ensures TriageEventsClean(TriageLedger(t, chars, seconds)) <==>
      t.shortlist.Some? && CommitIsLast(t.events) && |t.events| <= t.limits.models + t.limits.shells + 3
  {
    hide TriageInv, TriageLedger, EventItems, UsedIs, EventBound, TriageContract.CountCharged, Sequenced, NumberedInOrder, CommitIsLast,
         CountIf, ChargedFieldOk, Hashable, IsCharged;
    TriageLedgerReads(t, chars, seconds);
    TriageBoundReads(t, chars, seconds);
    TriageCountsAgree(t);
    TriageUsedReads(t, chars, seconds, t.used.models);
    TriageUsedReads(t, chars, seconds, t.used.shells);
    SequenceCheckAgrees(t);
    forall k | 0 <= k < |EventItems(t)| ensures ChargedFieldOk(EventItems(t)[k]) && EventItems(t)[k].Obj? {
      EventItemsOk(t, k);
    }
    forall k | 0 <= k < |EventItems(t)| ensures Hashable(Get(EventItems(t)[k].fields, KType)) { EventItemsOk(t, k); }
  }

  // ---------------------------------------------------------------- observations

  lemma ListClean(ms: seq<Metadata>, config: Config)
    requires OneEach(ms) && forall m :: m in ms ==> Good(m, config)
    ensures MetadataListClean(JsonList(ms), |ms|, config)
    ensures forall k :: 0 <= k < |ms| ==> ObservationIdOf(JsonList(ms)[k]) == Some(ms[k].observationId)
  {
    hide Good, MetadataClean, MetadataJson;
    forall k | 0 <= k < |ms|
      ensures MetadataClean(JsonList(ms)[k], config) && ObservationIdOf(JsonList(ms)[k]) == Some(ms[k].observationId)
    {
      assert ms[k] in ms;
      GoodIsClean(ms[k], config);
    }
  }

  lemma IdInList(ms: seq<Metadata>, config: Config, id: string)
    requires OneEach(ms) && forall m :: m in ms ==> Good(m, config)
    ensures |JsonList(ms)| == |ms| && (id in ById(JsonList(ms), |ms|) <==> id in Ids(ms))
  {
    hide Good, MetadataClean, MetadataJson, ById, MetadataListClean;
    ListClean(ms, config);
    var items := JsonList(ms);
    InById(items, |ms|, id);
    if id in ById(items, |ms|) {
      var k :| 0 <= k < |ms| && ObservationIdOf(items[k]) == Some(id);
      assert Ids(ms)[k] == id;
    }
    if id in Ids(ms) {
      var k :| 0 <= k < |ms| && Ids(ms)[k] == id;
      assert ObservationIdOf(items[k]) == Some(id);
    }
  }

  lemma SameEntry(ep: Episode, k: nat)
    requires GoodCollection(ep) && Collected(ep) == ep.observations && k < |ep.observations|
    ensures var id := ep.observations[k].observationId;
      |JsonList(ep.observations)| == |ep.observations|
      && id in Index(ep) && id in ById(JsonList(ep.observations), |ep.observations|)
      && ById(JsonList(ep.observations), |ep.observations|)[id] == Index(ep)[id]
  {
    var ms := ep.observations;
    ListClean(ms, ep.gateway.config);
    hide Good, MetadataClean, MetadataJson, Index, GoodCollection, ById;
    assert ms[k] in Collected(ep);
    IndexFinds(ep, ms[k]);
    ByIdHolds(JsonList(ms), |ms|, k);
    assert JsonList(ms)[k] == MetadataJson(ms[k]);
  }

  lemma CollectedIsGood(ep: Episode)
    requires GoodCollection(ep)
    ensures OneEach(Collected(ep)) && forall m :: m in Collected(ep) ==> Good(m, ep.gateway.config)
  {
  }

  lemma Lengths(ms: seq<Metadata>)
    ensures |Ids(ms)| == |JsonList(ms)| == |ms|
    ensures forall k :: 0 <= k < |ms| ==> Ids(ms)[k] == ms[k].observationId
  {
  }

  /** In arrival order or sorted, the index is the same. */
  lemma SameIndex(ep: Episode)
    requires GoodCollection(ep) && Collected(ep) == ep.observations
    ensures |JsonList(ep.observations)| == |ep.observations|
    ensures ById(JsonList(ep.observations), |ep.observations|) == Index(ep)
    ensures MetadataListClean(JsonList(ep.observations), |ep.observations|, ep.gateway.config)
  {
    hide Good, MetadataListClean, Index, GoodCollection, ById, OneEach, JsonList, Collected, ObservationIdOf, Ids;
    var ms := ep.observations;
    CollectedIsGood(ep);
    Lengths(ms);
    ListClean(ms, ep.gateway.config);
    IndexKeys(ep);
    forall id ensures id in ById(JsonList(ms), |ms|) <==> id in Index(ep) {
      IdInList(ms, ep.gateway.config, id);
      assert id in Index(ep) <==> id in Elements(Ids(ms));
    }
    forall id | id in Index(ep) ensures ById(JsonList(ms), |ms|)[id] == Index(ep)[id] {
      assert id in Elements(Ids(ms));
      var k :| 0 <= k < |ms| && Ids(ms)[k] == id;
      SameEntry(ep, k);
    }
  }

  /** The shell events of the triage ledger, as the validator filters them. */
  lemma {:induction false} FilteredShells(t: TriageState, events: seq<TriageEvent>)
    ensures |ShellEvents(ItemsOf(events, t.limits), true)| == |Shells(events)|
    ensures forall k :: 0 <= k < |Shells(events)| ==> SameReference(ShellEvents(ItemsOf(events, t.limits), true)[k].fields, Shells(events)[k])
  {
    if events != [] {
      var front, last := events[..|events| - 1], events[|events| - 1];
      assert events == front + [last];
      FilteredShells(t, front);
      PushEvent(front, last);
      var items := ItemsOf(front, t.limits);
      assert ItemsOf(events, t.limits) == items + [Obj(EventFields(last, t.limits))];
      ShellEventsPush(items, Obj(EventFields(last, t.limits)), true);
      EventSeen(last, t.limits);
      EventFieldsRead(last, t.limits);
      hide Shells, ItemsOf, ShellEvents, EventFields;
    }
  }

  /** The three fields by which an event refers to its observation. */
  predicate SameReference(d: Fields, e: ShellEvent) {
    && Get(d, KCommand) == Str(e.command) && Get(d, KOutcome) == Str(OutcomeName(e.outcome))
    && Get(d, KObservationId) == OptionalText(e.observationId)
  }

  lemma {:induction false} ShellEventsPush(events: seq<Value>, v: Value, triage: bool)
    ensures ShellEvents(events + [v], triage) == ShellEvents(events, triage) + if IsShellEvent(v, triage) then [v] else []
  {
    hide IsShellEvent;
    if events == [] {
      assert ([] + [v])[1..] == [];
    } else {
      ShellEventsPush(events[1..], v, triage);
      assert (events + [v])[1..] == events[1..] + [v];
    }
  }

  lemma ShellReferenceClean(t: TriageState, k: nat)
    requires EpisodeInv(View(t)) && GoodCollection(View(t)) && k < |t.observations|
    ensures |ShellEvents(EventItems(t), true)| == |Shells(t.events)| >= |t.observations|
    ensures ShellEventClean(ShellEvents(EventItems(t), true)[k].fields, Index(View(t)))
    ensures ObservationIdOf(ShellEvents(EventItems(t), true)[k]) == Some(t.observations[k].observationId)
  {
    var ep := View(t);
    assert ShellsOk(ep);
    assert Observed(ep.shells[k], ep.observations[k], ep.gateway.config);
    hide EpisodeInv, ShellsOk, GoodCollection, ShellEvents, Shells, ItemsOf, Index, ShellItems, ShellEventClean;
    FilteredShells(t, t.events);
    ShellEventAgrees(ep, k);
    ShellItemReads(ep, k);
    SameReferenceClean(ShellEvents(EventItems(t), true)[k].fields, ShellItems(ep)[k].fields, Index(ep));
  }

  lemma RestingView(t: TriageState)
    requires TriageInv(t) && !t.pending
    ensures EpisodeInv(View(t)) && View(t).observations == t.observations && View(t).gateway.shared.ledger == []
    ensures View(t).gateway.config == t.config && |Shells(t.events)| == |t.observations|
  {
    hide Inv, CountsOk, SubmitOk, Observed, NumberedUpTo, Shells, Models;
  }

  /** Shell events that each name their own entry of the index match it one to one. */
  lemma ReferencesMatch(shells: seq<Value>, ms: seq<Metadata>, byId: map<string, Fields>)
    requires |shells| == |ms| && forall k :: 0 <= k < |shells| ==> shells[k].Obj? && ShellEventClean(shells[k].fields, byId)
    requires forall k :: 0 <= k < |shells| ==> ObservationIdOf(shells[k]) == Some(ms[k].observationId)
    requires byId.Keys == Elements(Ids(ms)) && NoDuplicates(Ids(ms))
    ensures ReferencesClean(shells, [], byId)
  {
    hide ShellEventClean, Ids, Elements, NoDuplicates, ObservationIdOf, ShellRefs, PredRefs;
    ShellRefsAre(shells, ms, |shells|);
    assert ms[..|shells|] == ms;
    NoPredRefs();
    assert ShellRefs(shells, |shells|) + PredRefs([], 0) == Ids(ms);
  }

  lemma TriageReferences(t: TriageState)
    requires TriageInv(t) && !t.pending
    ensures |Shells(t.events)| == |t.observations| == |JsonList(t.observations)|
    ensures ReferencesClean(ShellEvents(EventItems(t), true), [], ById(JsonList(t.observations), |JsonList(t.observations)|))
    ensures MetadataListClean(JsonList(t.observations), |JsonList(t.observations)|, t.config)
  {
    hide TriageInv, View, EpisodeInv, GoodCollection, ShellEvents, Shells, ById, ItemsOf, JsonList, MetadataListClean,
         Ids, Elements, Index, ShellEventClean, ObservationIdOf, ReferencesClean, NoDuplicates;
    var ep := View(t);
    RestingView(t);
    CollectedOneEach(ep);
    assert Collected(ep) == ep.observations by { NoPreds(ep); }
    hide Collected;
    SameIndex(ep);
    var shells := ShellEvents(EventItems(t), true);
    FilteredShells(t, t.events);
    forall k | 0 <= k < |shells|
      ensures ShellEventClean(shells[k].fields, Index(ep)) && ObservationIdOf(shells[k]) == Some(t.observations[k].observationId)
    {
      ShellReferenceClean(t, k);
    }
    IndexKeys(ep);
    IdsDistinct(ep);
    ReferencesMatch(shells, t.observations, Index(ep));
  }

  lemma NoPreds(ep: Episode)
    requires ep.gateway.shared.ledger == []
    ensures Collected(ep) == ep.observations
  {
  }

  lemma NoPredRefs()
    ensures PredRefs([], 0) == []
  {
  }

  lemma SameReferenceClean(d: Fields, e: Fields, byId: map<string, Fields>)
    requires Get(d, KCommand) == Get(e, KCommand) && Get(d, KOutcome) == Get(e, KOutcome)
    requires Get(d, KObservationId) == Get(e, KObservationId) && ShellEventClean(e, byId)
    ensures ShellEventClean(d, byId)
  {
    hide OutcomeMatches, PyEq;
  }

  lemma TriageObservationsAgree(t: TriageState, chars: nat, seconds: nat)
    requires TriageInv(t) && !t.pending
    ensures ObservationsClean(TriageLedger(t, chars, seconds), true, t.config)
  {
    hide TriageInv, TriageLedger, ReferencesClean, MetadataListClean, ItemsOf, JsonList, Shells, ById, ShellEvents;
    TriageLedgerReads(t, chars, seconds);
    TriageReferences(t);
    FilteredShells(t, t.events);
  }

  // ---------------------------------------------------------------- the theorem

  /** Triage and validator agree. After every run of the triage phase with no shell action pending, the ledger
      is accepted exactly if the shortlist was frozen, the commit is the last event of all, and there are at
      most three events more than generations and actions are budgeted. */
  lemma TriageMeetsValidator(demands: Demands, limits: Usage, config: Config, chars: nat, seconds: nat, actions: seq<TriageAction>)
    requires IsTriageRun(Start(demands, limits, config), actions)
    requires !TriageEnd(Start(demands, limits, config), actions).pending
    ensures var t := TriageEnd(Start(demands, limits, config), actions);
      TriageLedgerClean(TriageLedger(t, chars, seconds), TriageBudgetFields(limits, chars, seconds), config) <==>
      t.shortlist.Some? && CommitIsLast(t.events) && |t.events| <= limits.models + limits.shells + 3
  {
    hide TriageInv, IsTriageRun, TriageEnd, TriageLedger, ObservationsClean, StatusClean, TriageEventsClean, TriageBudgetFields, CommitIsLast;
    var start := Start(demands, limits, config);
    StartInv(demands, limits, config);
    ShortlistFreezes(start, actions);
    var t := TriageEnd(start, actions);
    TriageWithin(t);
    TriageObservationsAgree(t, chars, seconds);
    TriageStatusAgrees(t, chars, seconds);
    TriageEventsAgree(t, chars, seconds);
  }

  lemma TriageWithin(t: TriageState)
    requires TriageInv(t)
    ensures Within(t.used, t.limits)
  {
    assert EpisodeInv(View(t));
    InvWithin(View(t).gateway);
  }
}
