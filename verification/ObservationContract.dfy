/** The validator's check that the observations of a ledger and the actions that produced them match
    one to one. */
module ObservationContract {
  import opened Text
  import opened Json
  import opened Observations
  import opened CommandLine
  import opened Contract

  const REQUIRED_FIELDS: set<Key> := {
    KObservationId, KKind, KCommand, KRawLog, KReturncode, KTimedOut, KOriginalChars, KOriginalLines,
    KPreviewChars, KArchiveChars, KPreviewCompacted, KArchiveTruncated }

  // ---------------------------------------------------------------- one metadata record

  predicate MetadataClean(v: Value, limits: Config) {
    && v.Obj? && v.fields.Keys == REQUIRED_FIELDS
    && v.fields[KObservationId].Str? && IsObservationId(v.fields[KObservationId].s)
    && IsNat(v.fields[KPreviewChars]) && v.fields[KPreviewChars].i <= limits.previewChars
    && IsNat(v.fields[KArchiveChars]) && v.fields[KArchiveChars].i <= limits.archiveChars
    && IsNat(v.fields[KOriginalChars]) && IsNat(v.fields[KOriginalLines])
    && (v.fields[KKind] == Str("shell") || v.fields[KKind] == Str("pred"))
    && v.fields[KCommand].Str? && v.fields[KReturncode].Int? && v.fields[KTimedOut].Bool?
    && v.fields[KPreviewCompacted].Bool? && v.fields[KArchiveTruncated].Bool?
    && v.fields[KRawLog] == Str(LogPath(v.fields[KObservationId].s))
  }

  function ObservationIdOf(v: Value): Option<string> {
    if v.Obj? && Get(v.fields, KObservationId).Str? then Some(Get(v.fields, KObservationId).s) else None
  }

  /** The first `n` records by observation id, later ones winning. */
  function ById(records: seq<Value>, n: nat): map<string, Fields>
    requires n <= |records|
  {
    if n == 0 then map[]
    else if records[n - 1].Obj? && ObservationIdOf(records[n - 1]).Some?
    then ById(records, n - 1)[ObservationIdOf(records[n - 1]).value := records[n - 1].fields]
    else ById(records, n - 1)
  }

  /** The index that the first loop builds from any records, well formed or not: the first of an id wins. */
  function FirstById(records: seq<Value>, n: nat): map<string, Fields>
    requires n <= |records|
  {
    if n == 0 then map[]
    else if Indexable(records[n - 1]) && records[n - 1].fields[KObservationId].s !in FirstById(records, n - 1)
    then FirstById(records, n - 1)[records[n - 1].fields[KObservationId].s := records[n - 1].fields]
    else FirstById(records, n - 1)
  }

  predicate Indexable(v: Value) {
    && v.Obj? && v.fields.Keys == REQUIRED_FIELDS
    && v.fields[KObservationId].Str? && IsObservationId(v.fields[KObservationId].s)
  }

  /** The first `n` records have different observation ids. */
  ghost predicate DistinctIds(records: seq<Value>, n: nat)
    requires n <= |records|
  {
    && (forall k :: 0 <= k < n ==> ObservationIdOf(records[k]).Some?)
    && (forall j, k :: 0 <= j < k < n ==> ObservationIdOf(records[j]) != ObservationIdOf(records[k]))
  }

  /** The first `n` metadata records are well formed and have different ids. */
  ghost predicate MetadataListClean(records: seq<Value>, n: nat, limits: Config)
    requires n <= |records|
  {
    (forall k :: 0 <= k < n ==> MetadataClean(records[k], limits)) && DistinctIds(records, n)
  }

  lemma {:induction false} InById(records: seq<Value>, n: nat, id: string)
    requires n <= |records|
    ensures id in ById(records, n) <==> exists k :: 0 <= k < n && ObservationIdOf(records[k]) == Some(id)
  {
    if n > 0 {
      InById(records, n - 1, id);
      if ObservationIdOf(records[n - 1]) == Some(id) { assert 0 <= n - 1 < n; }
    }
  }

  /** Looking a record up by its id finds it, and there are no other entries. */
  lemma {:induction false} ByIdHolds(records: seq<Value>, n: nat, k: nat)
    requires k < n <= |records| && DistinctIds(records, n)
    ensures ObservationIdOf(records[k]).value in ById(records, n)
    ensures ById(records, n)[ObservationIdOf(records[k]).value] == records[k].fields
  {
    if k < n - 1 { ByIdHolds(records, n - 1, k); }
  }

  lemma MetadataListStep(records: seq<Value>, n: nat, limits: Config)
    requires n < |records|
    ensures MetadataListClean(records, n + 1, limits) <==>
      && MetadataListClean(records, n, limits) && MetadataClean(records[n], limits)
      && ObservationIdOf(records[n]).value !in ById(records, n)
  {
    if MetadataClean(records[n], limits) {
      hide MetadataClean;
      InById(records, n, ObservationIdOf(records[n]).value);
    }
  }

  // ---------------------------------------------------------------- actions that refer to observations

  /** Whether the exit of an observed action is the one its record names. */
  predicate OutcomeMatches(d: Fields, outcome: Value) {
    || (outcome == Str("completed") && PyEq(Get(d, KReturncode), Int(0)) && Get(d, KTimedOut) == Bool(false))
    || (outcome == Str("nonzero_exit") && !PyEq(Get(d, KReturncode), Int(0)) && Get(d, KTimedOut) == Bool(false))
    || (outcome == Str("timeout") && PyEq(Get(d, KReturncode), Int(124)) && Get(d, KTimedOut) == Bool(true))
    || (outcome == Str("budget_exhausted") && PyEq(Get(d, KReturncode), Int(75)) && Get(d, KTimedOut) == Bool(false))
  }

  predicate RequiresObservation(outcome: Value) {
    outcome == Str("completed") || outcome == Str("nonzero_exit") || outcome == Str("timeout")
  }

  /** `_pred_command_matches`. */
  predicate CommandMatches(observation: Fields, record: Fields) {
    var args := Get(record, KArgs);
    && args.List? && (forall k :: 0 <= k < |args.items| ==> args.items[k].Str?)
    && PyEq(Get(observation, KCommand), Str(PredCommand(Strings(args.items))))
  }

  function Strings(items: seq<Value>): seq<string>
    requires forall k :: 0 <= k < |items| ==> items[k].Str?
  {
    seq(|items|, k requires 0 <= k < |items| => items[k].s)
  }

  predicate ShellEventClean(event: Fields, byId: map<string, Fields>) {
    var id := Get(event, KObservationId);
    && id.Str? && id.s in byId
    && Get(byId[id.s], KKind) == Str("shell") && PyEq(Get(byId[id.s], KCommand), Get(event, KCommand))
    && OutcomeMatches(byId[id.s], Get(event, KOutcome))
  }

  predicate PredObservationClean(record: Fields, byId: map<string, Fields>) {
    var embedded, outcome := Get(record, KObservation), Get(record, KOutcome);
    && Hashable(outcome)
    && if embedded.Null? then !RequiresObservation(outcome)
       else
         && embedded.Obj? && Get(embedded.fields, KObservationId).Str?
         && Get(embedded.fields, KObservationId).s in byId
         && PyEq(Obj(byId[Get(embedded.fields, KObservationId).s]), embedded)
         && Get(embedded.fields, KKind) == Str("pred") && CommandMatches(embedded.fields, record)
         && PyEq(Get(embedded.fields, KReturncode), Get(record, KReturncode))
         && OutcomeMatches(embedded.fields, outcome)
  }

  /** Looking up an unhashable value is an exception in Python. */
  predicate ShellEventRaises(event: Fields, byId: map<string, Fields>) {
    var id := Get(event, KObservationId);
    !Hashable(id) || (id.Str? && id.s in byId && !Hashable(Get(event, KOutcome)))
  }

  predicate PredObservationRaises(record: Fields) {
    var embedded := Get(record, KObservation);
    !Hashable(Get(record, KOutcome)) || (embedded.Obj? && !Hashable(Get(embedded.fields, KObservationId)))
  }

  function OneRef(v: Value): seq<string> {
    if ObservationIdOf(v).Some? then [ObservationIdOf(v).value] else []
  }

  /** The ids the first `n` shell events name. */
  function ShellRefs(events: seq<Value>, n: nat): seq<string>
    requires n <= |events|
  {
    if n == 0 then [] else ShellRefs(events, n - 1) + OneRef(events[n - 1])
  }

  /** The ids of the observations embedded in the first `n` pred records. */
  function PredRefs(records: seq<Value>, n: nat): seq<string>
    requires n <= |records|
  {
    if n == 0 then []
    else PredRefs(records, n - 1) + if records[n - 1].Obj? then OneRef(Get(records[n - 1].fields, KObservation)) else []
  }

  predicate NoDuplicates(s: seq<string>) { forall i, j :: 0 <= i < j < |s| ==> s[i] != s[j] }

  function Elements(s: seq<string>): set<string> { set x | x in s }

  // ---------------------------------------------------------------- the whole ledger

  predicate IsShellEvent(v: Value, triage: bool) {
    v.Obj? && (triage ==> PyEq(Get(v.fields, KType), Str("shell_action")))
  }

  function ShellEvents(events: seq<Value>, triage: bool): (r: seq<Value>)
    ensures forall k :: 0 <= k < |r| ==> r[k].Obj?
  {
    if events == [] then []
    else (if IsShellEvent(events[0], triage) then [events[0]] else []) + ShellEvents(events[1..], triage)
  }

  /** The action list whose entries must each have an observation. */
  function EventSource(ledger: Fields, triage: bool): Value {
    GetOr(ledger, if triage then KEvents else KShellActions, List([]))
  }

  function PredSource(ledger: Fields, triage: bool): Value {
    if triage then List([]) else GetOr(ledger, KPred, List([]))
  }

  ghost predicate ReferencesClean(shells: seq<Value>, preds: seq<Value>, byId: map<string, Fields>)
    requires forall k :: 0 <= k < |shells| ==> shells[k].Obj?
  {
    && (forall k :: 0 <= k < |shells| ==> ShellEventClean(shells[k].fields, byId))
    && (forall k :: 0 <= k < |preds| && preds[k].Obj? ==> PredObservationClean(preds[k].fields, byId))
    && NoDuplicates(ShellRefs(shells, |shells|) + PredRefs(preds, |preds|))
    && Elements(ShellRefs(shells, |shells|) + PredRefs(preds, |preds|)) == byId.Keys
  }

  ghost predicate ObservationsClean(ledger: Fields, triage: bool, limits: Config) {
    var observations, events := Get(ledger, KObservations), Iterated(EventSource(ledger, triage));
    && observations.List? && events.Some?
    && |observations.items| <= |ShellEvents(events.value, triage)| + |Items(PredSource(ledger, triage))|
    && MetadataListClean(observations.items, |observations.items|, limits)
    && ReferencesClean(ShellEvents(events.value, triage), Items(PredSource(ledger, triage)),
                       ById(observations.items, |observations.items|))
  }

  /** On which ledgers the check raises rather than reports. */
  ghost predicate ObservationsRaise(ledger: Fields, triage: bool) {
    var observations, events := Get(ledger, KObservations), Iterated(EventSource(ledger, triage));
    observations.List? && (
      || events.None?
      || (exists event <- ShellEvents(events.value, triage) ::
            ShellEventRaises(event.fields, FirstById(observations.items, |observations.items|)))
      || (exists record <- Items(PredSource(ledger, triage)) :: record.Obj? && PredObservationRaises(record.fields)))
  }

  /** The checks on one record whose id is valid and new. */
  method CheckMetadata(d: Fields, limits: Config) returns (problems: seq<Complaint>)
    requires d.Keys == REQUIRED_FIELDS && d[KObservationId].Str? && IsObservationId(d[KObservationId].s)
    ensures problems == [] <==> MetadataClean(Obj(d), limits)
  {
    hide IsObservationId, LogPath;
    problems := [];
    if !IsNat(d[KPreviewChars]) || d[KPreviewChars].i > limits.previewChars { problems := problems + [PreviewTooLong]; }
    if !IsNat(d[KArchiveChars]) || d[KArchiveChars].i > limits.archiveChars { problems := problems + [ArchiveTooLong]; }
    if !IsNat(d[KOriginalChars]) { problems := problems + [SizeInvalid]; }
    if !IsNat(d[KOriginalLines]) { problems := problems + [SizeInvalid]; }
    if !(d[KKind] == Str("shell") || d[KKind] == Str("pred")) || !d[KCommand].Str? || !d[KReturncode].Int?
       || !d[KTimedOut].Bool? || !d[KPreviewCompacted].Bool? || !d[KArchiveTruncated].Bool? {
      problems := problems + [FieldTypes];
    }
    if d[KRawLog] != Str(LogPath(d[KObservationId].s)) { problems := problems + [RawLogInvalid]; }
  }

  /** The first loop of `_validate_observation_ledger`. */
  method IndexObservations(records: seq<Value>, limits: Config) returns (problems: seq<Complaint>, byId: map<string, Fields>)
    ensures problems == [] <==> MetadataListClean(records, |records|, limits)
    ensures problems == [] ==> byId == ById(records, |records|)
    ensures byId == FirstById(records, |records|)
  {
    hide IsObservationId, LogPath, MetadataListClean, ById;
    problems, byId := [], map[];
    var seen: set<string> := {};
    EmptyListClean(records, limits);
    for i := 0 to |records|
      invariant problems == [] <==> MetadataListClean(records, i, limits)
      invariant problems == [] ==> byId == ById(records, i)
      invariant byId == FirstById(records, i) && seen == byId.Keys
    {
      MetadataListStep(records, i, limits);
      ByIdStep(records, i, limits);
      var record := records[i];
      if !record.Obj? || record.fields.Keys != REQUIRED_FIELDS {
        problems := problems + [ObservationMalformed];
        continue;
      }
      var d := record.fields;
      if !d[KObservationId].Str? || !IsObservationId(d[KObservationId].s) {
        problems := problems + [ObservationIdInvalid];
        continue;
      }
      hide MetadataClean;
      var id := d[KObservationId].s;
      if id in seen {
        problems := problems + [ObservationIdInvalid];
        continue;
      }
      seen, byId := seen + {id}, byId[id := d];
      var found := CheckMetadata(d, limits);
      problems := problems + found;
    }
  }

  lemma EmptyListClean(records: seq<Value>, limits: Config)
    ensures MetadataListClean(records, 0, limits) && ById(records, 0) == map[]
  {
  }

  lemma ByIdStep(records: seq<Value>, n: nat, limits: Config)
    requires n < |records|
    ensures MetadataClean(records[n], limits) ==>
      && Indexable(records[n])
      && ById(records, n + 1) == ById(records, n)[records[n].fields[KObservationId].s := records[n].fields]
  {
    hide IsObservationId, LogPath;
  }

  /** The loop over the shell events; `None` where Python raises on an unhashable id or outcome. */
  method MatchShellEvents(shells: seq<Value>, byId: map<string, Fields>) returns (problems: Option<seq<Complaint>>, refs: seq<string>)
    requires forall k :: 0 <= k < |shells| ==> shells[k].Obj?
    ensures problems == Some([]) <==> forall k :: 0 <= k < |shells| ==> ShellEventClean(shells[k].fields, byId)
    ensures problems == Some([]) ==> refs == ShellRefs(shells, |shells|)
    ensures problems.None? <==> exists k :: 0 <= k < |shells| && ShellEventRaises(shells[k].fields, byId)
  {
    hide Canon, OutcomeMatches;
    var list: seq<Complaint> := [];
    refs := [];
    for i := 0 to |shells|
      invariant list == [] <==> forall k :: 0 <= k < i ==> ShellEventClean(shells[k].fields, byId)
      invariant list == [] ==> refs == ShellRefs(shells, i)
      invariant forall k :: 0 <= k < i ==> !ShellEventRaises(shells[k].fields, byId)
    {
      var event := shells[i].fields;
      var id, outcome := Get(event, KObservationId), Get(event, KOutcome);
      if !Hashable(id) { return None, refs; }
      if !id.Str? || id.s !in byId {
        list := list + [ObservationMissing];
        continue;
      }
      refs := refs + [id.s];
      if Get(byId[id.s], KKind) != Str("shell") || !PyEq(Get(byId[id.s], KCommand), Get(event, KCommand)) {
        list := list + [ObservationMismatch];
      }
      if !Hashable(outcome) { OutcomesAreNames(byId[id.s], outcome); return None, refs; }
      if !OutcomeMatches(byId[id.s], outcome) { list := list + [OutcomeInconsistent]; }
    }
    return Some(list), refs;
  }

  lemma OutcomesAreNames(d: Fields, outcome: Value)
    ensures OutcomeMatches(d, outcome) ==> outcome.Str?
  {
  }

  /** The loop over the pred records. */
  method MatchPredRecords(preds: seq<Value>, byId: map<string, Fields>) returns (problems: Option<seq<Complaint>>, refs: seq<string>)
    ensures problems == Some([]) <==>
      forall k :: 0 <= k < |preds| && preds[k].Obj? ==> PredObservationClean(preds[k].fields, byId)
    ensures problems == Some([]) ==> refs == PredRefs(preds, |preds|)
    ensures problems.None? <==> exists k :: 0 <= k < |preds| && preds[k].Obj? && PredObservationRaises(preds[k].fields)
  {
    hide Canon, OutcomeMatches, CommandMatches;
    var list: seq<Complaint> := [];
    refs := [];
    for i := 0 to |preds|
      invariant list == [] <==>
        forall k :: 0 <= k < i && preds[k].Obj? ==> PredObservationClean(preds[k].fields, byId)
      invariant list == [] ==> refs == PredRefs(preds, i)
      invariant forall k :: 0 <= k < i && preds[k].Obj? ==> !PredObservationRaises(preds[k].fields)
    {
      if !preds[i].Obj? { continue; }
      var record := preds[i].fields;
      var embedded, outcome := Get(record, KObservation), Get(record, KOutcome);
      if !Hashable(outcome) { return None, refs; }
      if embedded.Null? {
        if RequiresObservation(outcome) { list := list + [ObservationMissing]; }
        continue;
      }
      if !embedded.Obj? {
        list := list + [ObservationMalformed];
        continue;
      }
      var id := Get(embedded.fields, KObservationId);
      if !Hashable(id) { return None, refs; }
      if id.Str? { refs := refs + [id.s]; }
      if !id.Str? || id.s !in byId || !PyEq(Obj(byId[id.s]), embedded) || Get(embedded.fields, KKind) != Str("pred")
         || !CommandMatches(embedded.fields, record)
         || !PyEq(Get(embedded.fields, KReturncode), Get(record, KReturncode))
         || !OutcomeMatches(embedded.fields, outcome) {
        list := list + [ObservationMismatch];
      }
    }
    return Some(list), refs;
  }

  /** `_validate_observation_ledger`. */
  method ValidateObservationLedger(ledger: Fields, triage: bool, limits: Config) returns (r: Checked)
    ensures r == Problems([]) <==> ObservationsClean(ledger, triage, limits)
    ensures r == Raised <==> ObservationsRaise(ledger, triage)
  {
    hide MetadataListClean, ShellEventClean, PredObservationClean, ById, ShellEvents, ShellRefs, PredRefs, Elements, NoDuplicates,
         ShellEventRaises, PredObservationRaises, FirstById;
    var observations := Get(ledger, KObservations);
    if !observations.List? { return Problems([LedgerNotList]); }
    var events := Iterated(EventSource(ledger, triage));
    if events.None? { return Raised; }
    var shells, preds := ShellEvents(events.value, triage), Items(PredSource(ledger, triage));
    var problems: seq<Complaint> := if |observations.items| > |shells| + |preds| then [BeyondBound] else [];
    var indexing, byId := IndexObservations(observations.items, limits);
    var shellProblems, shellRefs := MatchShellEvents(shells, byId);
    if shellProblems.None? { return Raised; }
    var predProblems, predRefs := MatchPredRecords(preds, byId);
    if predProblems.None? { return Raised; }
    problems := problems + indexing + shellProblems.value + predProblems.value;
    var refs := shellRefs + predRefs;
    if !NoDuplicates(refs) || Elements(refs) != byId.Keys { problems := problems + [NotBijective]; }
    return Problems(problems);
  }
}
