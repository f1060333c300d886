/** The validator's recount of one ledger. Every `_validate_*` helper is a method that returns what it
    appends to the problem list, or `Raised` where Python would raise; each is proved to stay silent exactly
    on the ledgers a declarative predicate describes. */
module Contract {
  import opened Text
  import opened Counting
  import opened Json

  datatype Complaint =
    | StatusNotObject | LimitInvalid | LimitDiffers | UsageInconsistent | SubmitLimit | SubmitUsage
    | LedgerNotList | BeyondBound | SequenceInconsistent | RequestIdInvalid | RequestIdReused | ChargedNotBoolean
    | CountDiffers | SolveCountDiffers
    | ObservationMalformed | ObservationIdInvalid | PreviewTooLong | ArchiveTooLong | SizeInvalid | FieldTypes
    | RawLogInvalid | ObservationMissing | ObservationMismatch | OutcomeInconsistent | NotBijective
    | TooManyAttempts | AcceptedNotBoolean | CertificateMismatch | AcceptedTwice | RemainingInconsistent
    | CommitCount

  datatype Checked = Problems(list: seq<Complaint>) | Raised

  // ---------------------------------------------------------------- reading a ledger

  /** `ledger.get("budget", {}).get(field, 0)` as a number; `None` where using it raises. */
  function BudgetNumber(ledger: Fields, field: Key): Option<real> {
    var budget := GetOr(ledger, KBudget, Obj(map[]));
    if budget.Obj? then Number(GetOr(budget.fields, field, Int(0))) else None
  }

  /** `ledger.get("status", {}).get(counter, {})` when that is an object. */
  function StatusItem(ledger: Fields, counter: Key): Option<Fields> {
    var status := GetOr(ledger, KStatus, Obj(map[]));
    if !status.Obj? then None
    else
      var item := GetOr(status.fields, counter, Obj(map[]));
      if item.Obj? then Some(item.fields) else None
  }

  /** The status reports exactly `n` uses of the counter. */
  predicate UsedIs(ledger: Fields, counter: Key, n: nat) {
    StatusItem(ledger, counter).Some? && PyEq(Int(n), Get(StatusItem(ledger, counter).value, KUsed))
  }

  /** At most one element more than the budgeted number. */
  predicate WithinOneMore(n: nat, limit: Option<real>) { limit.Some? && n as real <= limit.value + 1.0 }

  function Items(v: Value): seq<Value> { if v.List? then v.items else [] }

  predicate IsCharged(v: Value) { v.Obj? && Get(v.fields, KCharged) == Bool(true) }

  predicate IsChargedSolve(v: Value) { IsCharged(v) && PyEq(Get(v.fields, KCommand), Str("solve")) }

  predicate ChargedIsBool(v: Value) { v.Obj? ==> Get(v.fields, KCharged).Bool? }

  /** The well-formed request id of a record. */
  function RequestIdOf(v: Value): Option<string> {
    if v.Obj? && Get(v.fields, KRequestId).Str? && IsRequestId(Get(v.fields, KRequestId).s)
    then Some(Get(v.fields, KRequestId).s) else None
  }

  /** The request ids of the first `n` records. */
  function IdsOf(records: seq<Value>, n: nat): set<string>
    requires n <= |records|
  {
    if n == 0 then {}
    else IdsOf(records, n - 1) + if RequestIdOf(records[n - 1]).Some? then {RequestIdOf(records[n - 1]).value} else {}
  }

  lemma {:induction false} InIdsOf(records: seq<Value>, n: nat, id: string)
    requires n <= |records|
    ensures id in IdsOf(records, n) <==> exists k :: 0 <= k < n && RequestIdOf(records[k]) == Some(id)
  {
    if n > 0 {
      InIdsOf(records, n - 1, id);
      if RequestIdOf(records[n - 1]) == Some(id) { assert 0 <= n - 1 < n; }
    }
  }

  /** The first `n` records have valid request ids, pairwise distinct and none of them seen before. */
  ghost predicate FreshIds(records: seq<Value>, n: nat, seen: set<string>)
    requires n <= |records|
  {
    && (forall k :: 0 <= k < n ==> RequestIdOf(records[k]).Some? && RequestIdOf(records[k]).value !in seen)
    && (forall j, k :: 0 <= j < k < n ==> RequestIdOf(records[j]) != RequestIdOf(records[k]))
  }

  lemma NoIdsFresh(records: seq<Value>, seen: set<string>)
    ensures FreshIds(records, 0, seen)
  {
  }

  lemma FreshIdsStep(records: seq<Value>, n: nat, seen: set<string>)
    requires n < |records|
    ensures FreshIds(records, n + 1, seen) <==>
      && FreshIds(records, n, seen) && RequestIdOf(records[n]).Some?
      && RequestIdOf(records[n]).value !in seen + IdsOf(records, n)
  {
    if RequestIdOf(records[n]).Some? {
      InIdsOf(records, n, RequestIdOf(records[n]).value);
    }
  }

  // ---------------------------------------------------------------- status

  predicate CounterClean(status: Fields, budget: Fields, counter: Key) {
    var limit, item := Get(budget, counter), Get(status, counter);
    && IsNat(limit) && item.Obj? && PyEq(Get(item.fields, KLimit), limit)
    && IsNat(Get(item.fields, KUsed)) && Get(item.fields, KUsed).i <= limit.i
    && PyEq(Get(item.fields, KRemaining), Int(limit.i - Get(item.fields, KUsed).i))
  }

  predicate SubmitStatusClean(status: Fields) {
    KSubmitAttempts in status ==>
      var item := status[KSubmitAttempts];
      && item.Obj? && PyEq(Get(item.fields, KLimit), Int(2))
      && IsNat(Get(item.fields, KUsed)) && Get(item.fields, KUsed).i <= 2 && IsNat(Get(item.fields, KRemaining))
  }

  predicate StatusClean(status: Value, budget: Fields, counters: seq<Key>) {
    && status.Obj? && SubmitStatusClean(status.fields)
    && forall k :: 0 <= k < |counters| ==> CounterClean(status.fields, budget, counters[k])
  }

  /** `_validate_status`. */
  method ValidateStatus(status: Value, budget: Fields, counters: seq<Key>) returns (r: Checked)
    ensures r == Problems([]) <==> StatusClean(status, budget, counters)
    ensures r.Problems?
  {
    if !status.Obj? { return Problems([StatusNotObject]); }
    var problems: seq<Complaint> := [];
    for i := 0 to |counters|
      invariant problems == [] <==> forall k :: 0 <= k < i ==> CounterClean(status.fields, budget, counters[k])
    {
      var item, limit := Get(status.fields, counters[i]), Get(budget, counters[i]);
      if !IsNat(limit) {
        problems := problems + [LimitInvalid];
      } else if !item.Obj? || !PyEq(Get(item.fields, KLimit), limit) {
        problems := problems + [LimitDiffers];
      } else {
        var used, remaining := Get(item.fields, KUsed), Get(item.fields, KRemaining);
        if !IsNat(used) || used.i > limit.i || !PyEq(remaining, Int(limit.i - used.i)) {
          problems := problems + [UsageInconsistent];
        }
      }
    }
    if KSubmitAttempts in status.fields {
      var item := status.fields[KSubmitAttempts];
      if !item.Obj? || !PyEq(Get(item.fields, KLimit), Int(2)) {
        problems := problems + [SubmitLimit];
      } else if !IsNat(Get(item.fields, KUsed)) || Get(item.fields, KUsed).i > 2 || !IsNat(Get(item.fields, KRemaining)) {
        problems := problems + [SubmitUsage];
      }
    }
    return Problems(problems);
  }

  // ---------------------------------------------------------------- pred ledger

  predicate PredRecordClean(v: Value, k: nat) {
    v.Obj? && PyEq(Get(v.fields, KSequence), Int(k + 1)) && Get(v.fields, KCharged).Bool?
  }

  /** What an accepted pred ledger is, given the request ids seen in earlier ledgers. */
  ghost predicate PredClean(ledger: Fields, seen: set<string>) {
    var pred := Get(ledger, KPred);
    && pred.List? && WithinOneMore(|pred.items|, BudgetNumber(ledger, KShellActions))
    && (forall k :: 0 <= k < |pred.items| ==> PredRecordClean(pred.items[k], k))
    && FreshIds(pred.items, |pred.items|, seen)
    && UsedIs(ledger, KPredCalls, CountIf(pred.items, IsCharged))
    && UsedIs(ledger, KSolveCalls, CountIf(pred.items, IsChargedSolve))
  }

  function LedgerIds(ledger: Fields, key: Key): set<string> {
    if Get(ledger, key).List? then IdsOf(Get(ledger, key).items, |Get(ledger, key).items|) else {}
  }

  /** `_validate_pred_ledger`; `seen` is the set of request ids that the caller threads through all ledgers. */
  method ValidatePredLedger(ledger: Fields, seen: set<string>) returns (r: Checked, seen': set<string>)
    ensures r == Problems([]) <==> PredClean(ledger, seen)
    ensures r.Raised? <==> Get(ledger, KPred).List? && (BudgetNumber(ledger, KShellActions).None?
                           || StatusItem(ledger, KPredCalls).None? || StatusItem(ledger, KSolveCalls).None?)
    ensures r == Problems([]) ==> seen' == seen + LedgerIds(ledger, KPred)
  {
    hide IsRequestId, PyEq, RequestIdOf, FreshIds, StatusItem;
    assert FreshIds(Items(Get(ledger, KPred)), 0, seen) by { NoIdsFresh(Items(Get(ledger, KPred)), seen); }
    seen' := seen;
    var pred := Get(ledger, KPred);
    if !pred.List? { return Problems([LedgerNotList]), seen'; }
    var records := pred.items;
    var limit := BudgetNumber(ledger, KShellActions);
    if limit.None? { return Raised, seen'; }
    var problems: seq<Complaint> := if |records| as real > limit.value + 1.0 then [BeyondBound] else [];
    ghost var bounded := problems == [];
    var charged, solve := 0, 0;
    for i := 0 to |records|
      invariant problems == [] <==>
        bounded && FreshIds(records, i, seen) && forall k :: 0 <= k < i ==> PredRecordClean(records[k], k)
      invariant problems == [] ==> seen' == seen + IdsOf(records, i)
      invariant problems == [] ==>
        charged == CountIf(records[..i], IsCharged) && solve == CountIf(records[..i], IsChargedSolve)
    {
      FreshIdsStep(records, i, seen);
      CountTake(records, i, IsCharged);
      CountTake(records, i, IsChargedSolve);
      var record := records[i];
      if !record.Obj? || !PyEq(Get(record.fields, KSequence), Int(i + 1)) {
        problems := problems + [SequenceInconsistent];
        continue;
      }
      var id := RequestIdOf(record);
      if id.None? {
        problems := problems + [RequestIdInvalid];
      } else if id.value in seen' {
        problems := problems + [RequestIdReused];
      } else {
        seen' := seen' + {id.value};
      }
      if !Get(record.fields, KCharged).Bool? { problems := problems + [ChargedNotBoolean]; }
      if Get(record.fields, KCharged) == Bool(true) {
        charged := charged + 1;
        solve := solve + if PyEq(Get(record.fields, KCommand), Str("solve")) then 1 else 0;
      }
    }
    assert records[..|records|] == records;
    var preds, solves := StatusItem(ledger, KPredCalls), StatusItem(ledger, KSolveCalls);
    if preds.None? { return Raised, seen'; }
    if !PyEq(Int(charged), Get(preds.value, KUsed)) { problems := problems + [CountDiffers]; }
    if solves.None? { return Raised, seen'; }
    if !PyEq(Int(solve), Get(solves.value, KUsed)) { problems := problems + [SolveCountDiffers]; }
    return Problems(problems), seen';
  }

  // ---------------------------------------------------------------- model and shell events of an episode

  ghost predicate EventListClean(ledger: Fields, field: Key) {
    var events := Get(ledger, field);
    && events.List? && WithinOneMore(|events.items|, BudgetNumber(ledger, field))
    && (forall k :: 0 <= k < |events.items| ==> ChargedIsBool(events.items[k]))
    && UsedIs(ledger, field, CountIf(events.items, IsCharged))
  }

  /** Looking at the list raises: the budget or the status cannot be read. */
  predicate EventListRaises(ledger: Fields, field: Key) {
    Get(ledger, field).List? && (BudgetNumber(ledger, field).None? || StatusItem(ledger, field).None?)
  }

  const EVENT_FIELDS: seq<Key> := [KModelGenerations, KShellActions]

  ghost predicate EventsClean(ledger: Fields) {
    forall k :: 0 <= k < |EVENT_FIELDS| ==> EventListClean(ledger, EVENT_FIELDS[k])
  }

  method CountCharged(events: seq<Value>) returns (charged: nat, allBool: bool)
    ensures charged == CountIf(events, IsCharged)
    ensures allBool <==> forall k :: 0 <= k < |events| ==> ChargedIsBool(events[k])
  {
    charged, allBool := 0, true;
    for i := 0 to |events|
      invariant charged == CountIf(events[..i], IsCharged)
      invariant allBool <==> forall k :: 0 <= k < i ==> ChargedIsBool(events[k])
    {
      CountTake(events, i, IsCharged);
      allBool := allBool && ChargedIsBool(events[i]);
      charged := charged + if IsCharged(events[i]) then 1 else 0;
    }
    assert events[..|events|] == events;
  }

  /** `_validate_episode_events`. */
  method ValidateEpisodeEvents(ledger: Fields) returns (r: Checked)
    ensures r == Problems([]) <==> EventsClean(ledger)
    ensures r.Raised? <==> exists k :: 0 <= k < |EVENT_FIELDS| && EventListRaises(ledger, EVENT_FIELDS[k])
  {
    hide Canon, CountIf;
    var problems: seq<Complaint> := [];
    for i := 0 to |EVENT_FIELDS|
      invariant problems == [] <==> forall k :: 0 <= k < i ==> EventListClean(ledger, EVENT_FIELDS[k])
      invariant forall k :: 0 <= k < i ==> !EventListRaises(ledger, EVENT_FIELDS[k])
    {
      var field := EVENT_FIELDS[i];
      var events := Get(ledger, field);
      if !events.List? {
        problems := problems + [LedgerNotList];
        continue;
      }
      var limit := BudgetNumber(ledger, field);
      if limit.None? {
        assert EventListRaises(ledger, EVENT_FIELDS[i]);
        return Raised;
      }
      if |events.items| as real > limit.value + 1.0 { problems := problems + [BeyondBound]; }
      var charged, allBool := CountCharged(events.items);
      if !allBool { problems := problems + [ChargedNotBoolean]; }
      var item := StatusItem(ledger, field);
      if item.None? {
        assert EventListRaises(ledger, EVENT_FIELDS[i]);
        return Raised;
      }
      if !PyEq(Int(charged), Get(item.value, KUsed)) { problems := problems + [CountDiffers]; }
    }
    return Problems(problems);
  }

  // ---------------------------------------------------------------- submit ledger

  predicate IsAccepted(v: Value) { v.Obj? && Get(v.fields, KAccepted) == Bool(true) }

  /** A boolean verdict, and a certificate for the episode's rule if it is positive. */
  predicate AcceptanceClean(attempt: Fields, rule: Value) {
    && Get(attempt, KAccepted).Bool?
    && (Get(attempt, KAccepted) == Bool(true) ==>
          var certificate := Get(attempt, KCertificate);
          certificate.Obj? && PyEq(Get(certificate.fields, KRule), rule))
  }

  predicate AttemptClean(v: Value, k: nat, rule: Value) {
    v.Obj? && PyEq(Get(v.fields, KAttempt), Int(k + 1)) && AcceptanceClean(v.fields, rule)
  }

  ghost predicate SubmitClean(ledger: Fields, rule: Value, seen: set<string>) {
    var submit, item := Get(ledger, KSubmit), StatusItem(ledger, KSubmitAttempts);
    && submit.List? && |submit.items| <= 2 && item.Some?
    && PyEq(Int(|submit.items|), Get(item.value, KUsed))
    && (forall k :: 0 <= k < |submit.items| ==> AttemptClean(submit.items[k], k, rule))
    && FreshIds(submit.items, |submit.items|, seen)
    && CountIf(submit.items, IsAccepted) <= 1
    && PyEq(Int(if CountIf(submit.items, IsAccepted) > 0 then 0 else 2 - |submit.items|), Get(item.value, KRemaining))
  }

  method CheckAcceptance(attempt: Fields, rule: Value) returns (problems: seq<Complaint>)
    ensures problems == [] <==> AcceptanceClean(attempt, rule)
  {
    hide Canon;
    problems := [];
    if !Get(attempt, KAccepted).Bool? { problems := problems + [AcceptedNotBoolean]; }
    if Get(attempt, KAccepted) == Bool(true) {
      var certificate := Get(attempt, KCertificate);
      if !certificate.Obj? || !PyEq(Get(certificate.fields, KRule), rule) {
        problems := problems + [CertificateMismatch];
      }
    }
  }

  /** The loop over the attempts. */
  method WalkAttempts(attempts: seq<Value>, rule: Value, seen: set<string>)
    returns (problems: seq<Complaint>, accepted: nat, seen': set<string>)
    ensures problems == [] <==>
      FreshIds(attempts, |attempts|, seen) && forall k :: 0 <= k < |attempts| ==> AttemptClean(attempts[k], k, rule)
    ensures problems == [] ==> accepted == CountIf(attempts, IsAccepted) && seen' == seen + IdsOf(attempts, |attempts|)
  {
    hide IsRequestId, PyEq, AcceptanceClean, RequestIdOf, FreshIds;
    problems, accepted, seen' := [], 0, seen;
    assert FreshIds(attempts, 0, seen) by { NoIdsFresh(attempts, seen); }
    for i := 0 to |attempts|
      invariant problems == [] <==> FreshIds(attempts, i, seen) && forall k :: 0 <= k < i ==> AttemptClean(attempts[k], k, rule)
      invariant problems == [] ==> seen' == seen + IdsOf(attempts, i)
      invariant problems == [] ==> accepted == CountIf(attempts[..i], IsAccepted)
    {
      FreshIdsStep(attempts, i, seen);
      CountTake(attempts, i, IsAccepted);
      var attempt := attempts[i];
      if !attempt.Obj? || !PyEq(Get(attempt.fields, KAttempt), Int(i + 1)) {
        problems := problems + [SequenceInconsistent];
        continue;
      }
      var id := RequestIdOf(attempt);
      if id.None? {
        problems := problems + [RequestIdInvalid];
      } else if id.value in seen' {
        problems := problems + [RequestIdReused];
      } else {
        seen' := seen' + {id.value};
      }
      var found := CheckAcceptance(attempt.fields, rule);
      problems := problems + found;
      if Get(attempt.fields, KAccepted) == Bool(true) { accepted := accepted + 1; }
    }
    assert attempts[..|attempts|] == attempts;
  }

  /** `_validate_submit_ledger`. */
  method ValidateSubmitLedger(ledger: Fields, rule: Value, seen: set<string>) returns (r: Checked, seen': set<string>)
    ensures r == Problems([]) <==> SubmitClean(ledger, rule, seen)
    ensures r.Raised? <==>
      Get(ledger, KSubmit).List? && |Get(ledger, KSubmit).items| <= 2 && StatusItem(ledger, KSubmitAttempts).None?
    ensures r == Problems([]) ==> seen' == seen + LedgerIds(ledger, KSubmit)
  {
    hide PyEq, AttemptClean, FreshIds, StatusItem, IdsOf, CountIf;
    seen' := seen;
    var submit := Get(ledger, KSubmit);
    if !submit.List? || |submit.items| > 2 { return Problems([TooManyAttempts]), seen'; }
    var attempts := submit.items;
    var item := StatusItem(ledger, KSubmitAttempts);
    if item.None? { return Raised, seen'; }
    var problems: seq<Complaint> := if PyEq(Int(|attempts|), Get(item.value, KUsed)) then [] else [CountDiffers];
    var found: seq<Complaint>, accepted: nat;
    found, accepted, seen' := WalkAttempts(attempts, rule, seen);
    problems := problems + found;
    if accepted > 1 { problems := problems + [AcceptedTwice]; }
    var remaining := if accepted > 0 then 0 else 2 - |attempts|;
    if !PyEq(Int(remaining), Get(item.value, KRemaining)) { problems := problems + [RemainingInconsistent]; }
    return Problems(problems), seen';
  }
}
