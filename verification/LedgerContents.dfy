/** The JSON ledger loses nothing: from the ledger of an episode and its limits, everything the ledger is about can be
    read back. */
module LedgerContents {
  import opened Budget
  import opened Json
  import opened Observations
  import opened Gateway
  import opened Episode
  import opened LedgerJson
  import Submit

  lemma CounterReads(a: nat, b: nat, limit: nat)
    requires CounterJson(a, limit) == CounterJson(b, limit)
    ensures a == b
  {
    assert CounterJson(a, limit).fields[KUsed] == CounterJson(b, limit).fields[KUsed];
  }

  lemma UsageReads(a: Usage, b: Usage, limits: Usage)
    requires StatusFields(a, limits) == StatusFields(b, limits)
    ensures a == b
  {
    var s, t := StatusFields(a, limits), StatusFields(b, limits);
    hide CounterJson;
    assert s[KModelGenerations] == t[KModelGenerations] && s[KShellActions] == t[KShellActions];
    assert s[KPredCalls] == t[KPredCalls] && s[KSolveCalls] == t[KSolveCalls];
    CounterReads(a.models, b.models, limits.models);
    CounterReads(a.shells, b.shells, limits.shells);
    CounterReads(a.preds, b.preds, limits.preds);
    CounterReads(a.solves, b.solves, limits.solves);
  }

  lemma MetadataTexts(m: Metadata)
    ensures MetadataJson(m).Obj?
    ensures var d := MetadataJson(m).fields;
      && Get(d, KObservationId) == Str(m.observationId) && Get(d, KKind) == Str(KindName(m.kind)) && Get(d, KCommand) == Str(m.command)
      && Get(d, KRawLog) == Str(m.rawLog) && Get(d, KReturncode) == Int(m.returncode) && Get(d, KTimedOut) == Bool(m.timedOut)
  {
    hide KindName;
  }

  lemma MetadataSizes(m: Metadata)
    ensures MetadataJson(m).Obj?
    ensures var d := MetadataJson(m).fields;
      && Get(d, KOriginalChars) == Int(m.originalChars) && Get(d, KOriginalLines) == Int(m.originalLines)
      && Get(d, KPreviewChars) == Int(m.previewChars) && Get(d, KArchiveChars) == Int(m.archiveChars)
      && Get(d, KPreviewCompacted) == Bool(m.previewCompacted) && Get(d, KArchiveTruncated) == Bool(m.archiveTruncated)
  {
    hide KindName;
  }

  lemma KindReads(a: Kind, b: Kind)
    requires KindName(a) == KindName(b)
    ensures a == b
  {
    assert "shell"[0] != "pred"[0];
  }

  lemma MetadataReads(a: Metadata, b: Metadata)
    requires MetadataJson(a) == MetadataJson(b)
    ensures a == b
  {
    hide MetadataJson, KindName;
    MetadataTexts(a);
    MetadataTexts(b);
    MetadataSizes(a);
    MetadataSizes(b);
    KindReads(a.kind, b.kind);
  }

  lemma TextsRead(a: seq<string>, b: seq<string>)
    requires TextList(a) == TextList(b)
    ensures a == b
  {
    var s, t := TextList(a).items, TextList(b).items;
    assert |a| == |s| == |t| == |b|;
    forall k | 0 <= k < |a| ensures a[k] == b[k] { assert s[k] == t[k]; }
  }

  /** A record, but for the mark that tells an abandoned one from a running one. */
  function Written(r: PredRecord): PredRecord { r.(outcome := Named(r.outcome)) }

  lemma RecordFields(r: PredRecord, limits: Usage)
    ensures var d := PredRecordFields(r, limits);
      && Get(d, KSequence) == Int(r.sequence) && Get(d, KRequestId) == Str(r.requestId) && Get(d, KArgs) == TextList(r.args)
      && Get(d, KCommand) == OptionalText(r.command) && Get(d, KCharged) == Bool(r.charged)
      && Get(d, KOutcome) == Str(OutcomeName(r.outcome)) && Get(d, KBudget) == Obj(StatusFields(r.budget, limits))
      && Get(d, KReturncode) == (if r.returncode.Some? then Int(r.returncode.value) else Null)
      && Get(d, KObservation) == if r.observation.Some? then MetadataJson(r.observation.value) else Null
  {
    hide StatusFields, MetadataJson, TextList, OutcomeName, OptionalText;
  }

  lemma RecordReads(a: PredRecord, b: PredRecord, limits: Usage)
    requires PredRecordFields(a, limits) == PredRecordFields(b, limits)
    ensures Written(a) == Written(b)
  {
    hide StatusFields, TextList, OutcomeName, PredRecordFields, Get;
    RecordFields(a, limits);
    RecordFields(b, limits);
    TextsRead(a.args, b.args);
    OutcomeNamesDiffer(a.outcome, b.outcome);
    UsageReads(a.budget, b.budget, limits);
    if a.observation.Some? && b.observation.Some? { MetadataReads(a.observation.value, b.observation.value); }
  }

  lemma ModelReads(a: ModelEvent, b: ModelEvent, limits: Usage)
    requires ModelEventFields(a, limits) == ModelEventFields(b, limits)
    ensures a == b
  {
    hide StatusFields;
    var s, t := ModelEventFields(a, limits), ModelEventFields(b, limits);
    assert s[KSequence] == t[KSequence] && s[KCharged] == t[KCharged] && s[KOutcome] == t[KOutcome] && s[KBudget] == t[KBudget];
    UsageReads(a.budget, b.budget, limits);
  }

  lemma ShellReads(a: ShellEvent, b: ShellEvent, limits: Usage)
    requires ShellEventFields(a, limits) == ShellEventFields(b, limits)
    ensures a.(outcome := Named(a.outcome)) == b.(outcome := Named(b.outcome))
  {
    hide StatusFields, OutcomeName;
    var s, t := ShellEventFields(a, limits), ShellEventFields(b, limits);
    assert s[KSequence] == t[KSequence] && s[KCommand] == t[KCommand] && s[KCharged] == t[KCharged];
    assert s[KOutcome] == t[KOutcome] && s[KBudget] == t[KBudget];
    assert KObservationId in s <==> KObservationId in t;
    assert KObservationId in s ==> s[KObservationId] == t[KObservationId];
    OutcomeNamesDiffer(a.outcome, b.outcome);
    UsageReads(a.budget, b.budget, limits);
  }

  lemma AttemptReads(a: Submit.Attempt, b: Submit.Attempt)
    requires AttemptFields(a) == AttemptFields(b)
    ensures a == b.(reason := a.reason)
  {
    var s, t := AttemptFields(a), AttemptFields(b);
    assert s[KAttempt] == t[KAttempt] && s[KAccepted] == t[KAccepted] && s[KRule] == t[KRule];
    assert s[KCertificate] == t[KCertificate] && s[KRequestId] == t[KRequestId];
  }

  /** Two episodes with the same limits that leave the same ledger are the same in everything the ledger is about:
      rule, counters, generations, shell events, pred records, and attempts but for their reasons. */
  lemma LedgerLosesNothing(a: Episode, b: Episode)
    requires a.gateway.limits == b.gateway.limits && Ledger(a) == Ledger(b)
    ensures a.rule == b.rule && a.gateway.shared.used == b.gateway.shared.used && a.models == b.models
    ensures |a.shells| == |b.shells|
      && forall k :: 0 <= k < |a.shells| ==> a.shells[k].(outcome := Named(a.shells[k].outcome)) == b.shells[k].(outcome := Named(b.shells[k].outcome))
    ensures var s, t := a.gateway.shared.ledger, b.gateway.shared.ledger;
      |s| == |t| && forall k :: 0 <= k < |s| ==> Written(s[k]) == Written(t[k])
    ensures var s, t := a.submit.attempts, b.submit.attempts;
      |s| == |t| && forall k :: 0 <= k < |s| ==> s[k] == t[k].(reason := s[k].reason)
  {
    hide BudgetFields, PredRecordFields, ModelEventFields, ShellEventFields, AttemptFields, ObservationItems, StatusFields, Named;
    var s, t := Ledger(a), Ledger(b);
    assert s[KRule] == t[KRule] && s[KStatus] == t[KStatus] && s[KPred] == t[KPred] && s[KSubmit] == t[KSubmit];
    assert s[KModelGenerations] == t[KModelGenerations] && s[KShellActions] == t[KShellActions];
    StatusReads(a, b);
    ListsRead(a, b);
  }

  lemma StatusReads(a: Episode, b: Episode)
    requires a.gateway.limits == b.gateway.limits && EpisodeStatus(a) == EpisodeStatus(b)
    ensures a.gateway.shared.used == b.gateway.shared.used
  {
    hide CounterJson, SubmitStatus;
    var limits := a.gateway.limits;
    var s, t := StatusFields(a.gateway.shared.used, limits), StatusFields(b.gateway.shared.used, limits);
    assert EpisodeStatus(a)[KModelGenerations] == s[KModelGenerations] && EpisodeStatus(b)[KModelGenerations] == t[KModelGenerations];
    assert EpisodeStatus(a)[KShellActions] == s[KShellActions] && EpisodeStatus(b)[KShellActions] == t[KShellActions];
    assert EpisodeStatus(a)[KPredCalls] == s[KPredCalls] && EpisodeStatus(b)[KPredCalls] == t[KPredCalls];
    assert EpisodeStatus(a)[KSolveCalls] == s[KSolveCalls] && EpisodeStatus(b)[KSolveCalls] == t[KSolveCalls];
    assert s == t;
    UsageReads(a.gateway.shared.used, b.gateway.shared.used, limits);
  }

  lemma ListsRead(a: Episode, b: Episode)
    requires a.gateway.limits == b.gateway.limits
    requires PredItems(a) == PredItems(b) && SubmitItems(a) == SubmitItems(b) && ModelItems(a) == ModelItems(b) && ShellItems(a) == ShellItems(b)
    ensures a.models == b.models
    ensures |a.shells| == |b.shells|
      && forall k :: 0 <= k < |a.shells| ==> a.shells[k].(outcome := Named(a.shells[k].outcome)) == b.shells[k].(outcome := Named(b.shells[k].outcome))
    ensures var s, t := a.gateway.shared.ledger, b.gateway.shared.ledger;
      |s| == |t| && forall k :: 0 <= k < |s| ==> Written(s[k]) == Written(t[k])
    ensures var s, t := a.submit.attempts, b.submit.attempts;
      |s| == |t| && forall k :: 0 <= k < |s| ==> s[k] == t[k].(reason := s[k].reason)
  {
    hide PredRecordFields, ModelEventFields, ShellEventFields, AttemptFields, Named;
    var limits, s, t := a.gateway.limits, a.gateway.shared.ledger, b.gateway.shared.ledger;
    assert |a.models| == |ModelItems(a)| && |b.models| == |ModelItems(b)| && |a.shells| == |ShellItems(a)| && |b.shells| == |ShellItems(b)|;
    assert |s| == |PredItems(a)| && |t| == |PredItems(b)|;
    assert |a.submit.attempts| == |SubmitItems(a)| && |b.submit.attempts| == |SubmitItems(b)|;
    forall k | 0 <= k < |a.models| ensures a.models[k] == b.models[k] {
      assert ModelItems(a)[k] == ModelItems(b)[k];
      ModelReads(a.models[k], b.models[k], limits);
    }
    forall k | 0 <= k < |a.shells| ensures a.shells[k].(outcome := Named(a.shells[k].outcome)) == b.shells[k].(outcome := Named(b.shells[k].outcome)) {
      assert ShellItems(a)[k] == ShellItems(b)[k];
      ShellReads(a.shells[k], b.shells[k], limits);
    }
    forall k | 0 <= k < |s| ensures Written(s[k]) == Written(t[k]) {
      assert PredItems(a)[k] == PredItems(b)[k];
      RecordReads(s[k], t[k], limits);
    }
    forall k | 0 <= k < |a.submit.attempts| ensures a.submit.attempts[k] == b.submit.attempts[k].(reason := a.submit.attempts[k].reason) {
      assert SubmitItems(a)[k] == SubmitItems(b)[k];
      AttemptReads(a.submit.attempts[k], b.submit.attempts[k]);
    }
  }
}
