/** Where the two halves meet: exactly which episodes leave a ledger that the validator accepts. */
module Agreement {
  import opened Text
  import opened Budget
  import opened Counting
  import opened Json
  import opened Gateway
  import opened GatewaySafety
  import opened GatewayBalance
  import opened Episode
  import opened LedgerJson
  import opened Contract
  import Submit

  const COUNTERS: seq<Key> := [KModelGenerations, KShellActions, KPredCalls, KSolveCalls]

  // ---------------------------------------------------------------- reading the JSON back

  lemma LedgerReads(ep: Episode)
    ensures Get(Ledger(ep), KStatus) == Obj(EpisodeStatus(ep)) && Get(Ledger(ep), KBudget) == Obj(BudgetFields(ep))
    ensures Get(Ledger(ep), KPred) == List(PredItems(ep)) && Get(Ledger(ep), KSubmit) == List(SubmitItems(ep))
    ensures Get(Ledger(ep), KModelGenerations) == List(ModelItems(ep))
    ensures Get(Ledger(ep), KShellActions) == List(ShellItems(ep))
    ensures Get(Ledger(ep), KObservations) == List(ObservationItems(ep))
    ensures KStatus in Ledger(ep) && KBudget in Ledger(ep) && KPred in Ledger(ep) && KShellActions in Ledger(ep)
  {
    hide EpisodeStatus, BudgetFields, PredItems, SubmitItems, ModelItems, ShellItems, ObservationItems;
  }

  function UsedFor(ep: Episode, counter: Key): int {
    var used := ep.gateway.shared.used;
    match counter
    case KModelGenerations => used.models
    case KShellActions => used.shells
    case KPredCalls => used.preds
    case KSolveCalls => used.solves
    case KSubmitAttempts => |ep.submit.attempts|
    case _ => -1
  }

  function LimitFor(ep: Episode, counter: Key): int {
    var limits := ep.gateway.limits;
    match counter
    case KModelGenerations => limits.models
    case KShellActions => limits.shells
    case KPredCalls => limits.preds
    case KSolveCalls => limits.solves
    case KSubmitAttempts => SUBMIT_ATTEMPTS
    case _ => -1
  }

  predicate IsCounter(k: Key) { k.KModelGenerations? || k.KShellActions? || k.KPredCalls? || k.KSolveCalls? }

  lemma CounterJsonReads(used: nat, limit: nat)
    ensures CounterJson(used, limit).Obj? && Get(CounterJson(used, limit).fields, KUsed) == Int(used)
    ensures Get(CounterJson(used, limit).fields, KLimit) == Int(limit)
    ensures Get(CounterJson(used, limit).fields, KRemaining) == Int(Max(0, limit - used))
  {
  }

  lemma EpisodeStatusReads(ep: Episode)
    ensures EpisodeStatus(ep).Keys == {KModelGenerations, KShellActions, KPredCalls, KSolveCalls, KSubmitAttempts}
    ensures EpisodeStatus(ep)[KModelGenerations] == CounterJson(ep.gateway.shared.used.models, ep.gateway.limits.models)
    ensures EpisodeStatus(ep)[KShellActions] == CounterJson(ep.gateway.shared.used.shells, ep.gateway.limits.shells)
    ensures EpisodeStatus(ep)[KPredCalls] == CounterJson(ep.gateway.shared.used.preds, ep.gateway.limits.preds)
    ensures EpisodeStatus(ep)[KSolveCalls] == CounterJson(ep.gateway.shared.used.solves, ep.gateway.limits.solves)
    ensures EpisodeStatus(ep)[KSubmitAttempts] == LedgerJson.SubmitStatus(ep.submit)
  {
    hide CounterJson, LedgerJson.SubmitStatus;
  }

  lemma BudgetFieldsRead(ep: Episode, counter: Key)
    requires IsCounter(counter) || counter == KSubmitAttempts
    ensures counter in BudgetFields(ep) && BudgetFields(ep)[counter] == Int(LimitFor(ep, counter))
  {
  }

  lemma StatusReads(ep: Episode, counter: Key)
    requires IsCounter(counter) || counter == KSubmitAttempts
    ensures counter in EpisodeStatus(ep) && EpisodeStatus(ep)[counter].Obj?
    ensures Get(EpisodeStatus(ep)[counter].fields, KUsed) == Int(UsedFor(ep, counter))
    ensures Get(EpisodeStatus(ep)[counter].fields, KLimit) == Int(LimitFor(ep, counter))
    ensures counter != KSubmitAttempts ==>
      Get(EpisodeStatus(ep)[counter].fields, KRemaining) == Int(Max(0, LimitFor(ep, counter) - UsedFor(ep, counter)))
    ensures counter == KSubmitAttempts ==>
      Get(EpisodeStatus(ep)[counter].fields, KRemaining) == Int(Submit.Remaining(SUBMIT_ATTEMPTS, ep.submit))
    ensures counter in BudgetFields(ep) && BudgetFields(ep)[counter] == Int(LimitFor(ep, counter))
  {
    hide Max, Submit.Remaining, EpisodeStatus, BudgetFields, CounterJson;
    EpisodeStatusReads(ep);
    BudgetFieldsRead(ep, counter);
    if IsCounter(counter) { CounterJsonReads(UsedFor(ep, counter), LimitFor(ep, counter)); }
  }

  lemma StatusItemReads(ep: Episode, counter: Key)
    requires IsCounter(counter) || counter == KSubmitAttempts
    ensures counter in EpisodeStatus(ep)
    ensures EpisodeStatus(ep)[counter].Obj? && StatusItem(Ledger(ep), counter) == Some(EpisodeStatus(ep)[counter].fields)
  {
    hide Ledger, EpisodeStatus, BudgetFields, UsedFor, LimitFor, Submit.Remaining, PredItems, SubmitItems,
         ModelItems, ShellItems, ObservationItems;
    LedgerReads(ep);
    StatusReads(ep, counter);
  }

  /** The status of the ledger reports `n` uses exactly when there are `n`. */
  lemma UsedReads(ep: Episode, counter: Key, n: nat)
    requires IsCounter(counter) || counter == KSubmitAttempts
    ensures UsedIs(Ledger(ep), counter, n) <==> n == UsedFor(ep, counter)
  {
    hide Ledger, EpisodeStatus, BudgetFields, UsedFor, LimitFor, PyEq, StatusItem;
    StatusItemReads(ep, counter);
    StatusReads(ep, counter);
    PyEqInts(n, UsedFor(ep, counter));
  }

  lemma BudgetReads(ep: Episode, counter: Key)
    requires IsCounter(counter)
    ensures BudgetNumber(Ledger(ep), counter) == Some(LimitFor(ep, counter) as real)
  {
    LedgerReads(ep);
    StatusReads(ep, counter);
    hide Ledger, EpisodeStatus, BudgetFields, LimitFor;
  }

  lemma {:induction false} CountMapped<S, T>(s: seq<S>, t: seq<T>, p: S -> bool, q: T -> bool)
    requires |s| == |t| && forall k :: 0 <= k < |s| ==> (p(s[k]) <==> q(t[k]))
    ensures CountIf(s, p) == CountIf(t, q)
  {
    if s != [] {
      CountMapped(s[..|s| - 1], t[..|t| - 1], p, q);
    }
  }

  // ---------------------------------------------------------------- status

  lemma CounterAgrees(ep: Episode, counter: Key)
    requires Within(ep.gateway.shared.used, ep.gateway.limits) && IsCounter(counter)
    ensures CounterClean(EpisodeStatus(ep), BudgetFields(ep), counter)
  {
    hide EpisodeStatus, BudgetFields, PyEq;
    StatusReads(ep, counter);
    PyEqInts(LimitFor(ep, counter), LimitFor(ep, counter));
    PyEqInts(LimitFor(ep, counter) - UsedFor(ep, counter), LimitFor(ep, counter) - UsedFor(ep, counter));
  }

  lemma SubmitStatusAgrees(ep: Episode)
    requires |ep.submit.attempts| <= 2
    ensures SubmitStatusClean(EpisodeStatus(ep))
  {
    hide EpisodeStatus, BudgetFields, PyEq;
    StatusReads(ep, KSubmitAttempts);
    PyEqInts(2, 2);
  }

  lemma StatusAgrees(ep: Episode)
    requires EpisodeInv(ep)
    ensures StatusClean(Get(Ledger(ep), KStatus), BudgetFields(ep), COUNTERS)
  {
    hide Inv, CountsOk, ShellsOk, SubmitOk, Ledger, EpisodeStatus, BudgetFields, PredItems, SubmitItems,
         ModelItems, ShellItems, ObservationItems, CounterClean, SubmitStatusClean;
    InvWithin(ep.gateway);
    SubmitBound(ep);
    SubmitStatusAgrees(ep);
    LedgerReads(ep);
    forall k | 0 <= k < |COUNTERS| ensures CounterClean(EpisodeStatus(ep), BudgetFields(ep), COUNTERS[k]) {
      CounterAgrees(ep, COUNTERS[k]);
    }
  }

  lemma InvWithin(sys: System)
    requires Inv(sys)
    ensures Within(sys.shared.used, sys.limits)
  {
  }

  lemma SubmitBound(ep: Episode)
    requires SubmitOk(ep)
    ensures |ep.submit.attempts| <= SUBMIT_ATTEMPTS
  {
  }

  // ---------------------------------------------------------------- model and shell events

  lemma ModelItemReads(ep: Episode, k: nat)
    requires k < |ep.models|
    ensures ModelItems(ep)[k].Obj? && Get(ModelItems(ep)[k].fields, KCharged) == Bool(ep.models[k].charged)
  {
  }

  lemma ShellItemReads(ep: Episode, k: nat)
    requires k < |ep.shells|
    ensures ShellItems(ep)[k].Obj? && Get(ShellItems(ep)[k].fields, KCharged) == Bool(ep.shells[k].charged)
    ensures Get(ShellItems(ep)[k].fields, KCommand) == Str(ep.shells[k].command)
    ensures Get(ShellItems(ep)[k].fields, KOutcome) == Str(OutcomeName(ep.shells[k].outcome))
    ensures Get(ShellItems(ep)[k].fields, KObservationId) == OptionalText(ep.shells[k].observationId)
  {
    hide StatusFields, OutcomeName;
  }

  lemma EventsAgree(ep: Episode)
    requires EpisodeInv(ep)
    ensures EventsClean(Ledger(ep)) <==>
      |ep.models| <= ep.gateway.limits.models + 1 && |ep.shells| <= ep.gateway.limits.shells + 1
  {
    hide Inv, ShellsOk, SubmitOk, Ledger, EpisodeStatus, BudgetFields, ModelItems, ShellItems, UsedIs, StatusItem,
         BudgetNumber, PyEq, PredItems, SubmitItems, ObservationItems;
    LedgerReads(ep);
    BudgetReads(ep, KModelGenerations);
    BudgetReads(ep, KShellActions);
    UsedReads(ep, KModelGenerations, CountIf(ModelItems(ep), IsCharged));
    UsedReads(ep, KShellActions, CountIf(ShellItems(ep), IsCharged));
    assert |ModelItems(ep)| == |ep.models| && |ShellItems(ep)| == |ep.shells| by { ItemCounts(ep); }
    forall k | 0 <= k < |ep.models| ensures ChargedIsBool(ModelItems(ep)[k])
      ensures IsCharged(ModelItems(ep)[k]) <==> ChargedModel(ep.models[k]) { ModelItemReads(ep, k); }
    forall k | 0 <= k < |ep.shells| ensures ChargedIsBool(ShellItems(ep)[k])
      ensures IsCharged(ShellItems(ep)[k]) <==> ChargedShell(ep.shells[k]) { ShellItemReads(ep, k); }
    CountMapped(ModelItems(ep), ep.models, IsCharged, ChargedModel);
    CountMapped(ShellItems(ep), ep.shells, IsCharged, ChargedShell);
    assert EVENT_FIELDS[0] == KModelGenerations && EVENT_FIELDS[1] == KShellActions;
  }

  lemma ItemCounts(ep: Episode)
    ensures |ModelItems(ep)| == |ep.models| && |ShellItems(ep)| == |ep.shells|
    ensures |PredItems(ep)| == |ep.gateway.shared.ledger| && |SubmitItems(ep)| == |ep.submit.attempts|
    ensures |ObservationItems(ep)| == |AllObservations(ep)|
  {
  }

  // ---------------------------------------------------------------- pred records

  lemma PredBaseReads(r: PredRecord, limits: Usage)
    ensures var d := PredRecordBase(r, limits);
      && Get(d, KSequence) == Int(r.sequence) && Get(d, KRequestId) == Str(r.requestId)
      && Get(d, KArgs) == TextList(r.args) && Get(d, KCommand) == OptionalText(r.command)
      && Get(d, KCharged) == Bool(r.charged) && Get(d, KOutcome) == Str(OutcomeName(r.outcome))
      && KReturncode !in d && KObservation !in d
  {
    hide StatusFields, OutcomeName, TextList, OptionalText;
  }

  lemma PredItemReads(ep: Episode, k: nat)
    requires k < |ep.gateway.shared.ledger|
    ensures var r, d := ep.gateway.shared.ledger[k], PredItems(ep)[k];
      && d.Obj? && Get(d.fields, KSequence) == Int(r.sequence) && Get(d.fields, KRequestId) == Str(r.requestId)
      && Get(d.fields, KArgs) == TextList(r.args) && Get(d.fields, KCommand) == OptionalText(r.command)
      && Get(d.fields, KCharged) == Bool(r.charged) && Get(d.fields, KOutcome) == Str(OutcomeName(r.outcome))
      && Get(d.fields, KReturncode) == (if r.returncode.Some? then Int(r.returncode.value) else Null)
      && Get(d.fields, KObservation) == (if r.observation.Some? then MetadataJson(r.observation.value) else Null)
  {
    hide StatusFields, OutcomeName, MetadataJson, TextList, OptionalText, PredRecordBase;
    PredBaseReads(ep.gateway.shared.ledger[k], ep.gateway.limits);
  }

  /** The request ids of the pred ledger are new and pairwise distinct. */
  ghost predicate FreshRequests(ledger: seq<PredRecord>, seen: set<string>) {
    && (forall k :: 0 <= k < |ledger| ==> ledger[k].requestId !in seen)
    && (forall j, k :: 0 <= j < k < |ledger| ==> ledger[j].requestId != ledger[k].requestId)
  }

  lemma PredIdsAgree(ep: Episode, seen: set<string>)
    requires Records(ep.gateway)
    ensures FreshIds(PredItems(ep), |PredItems(ep)|, seen) <==> FreshRequests(ep.gateway.shared.ledger, seen)
    ensures forall k :: 0 <= k < |PredItems(ep)| ==> PredRecordClean(PredItems(ep)[k], k)
  {
    hide IsRequestId, PredItems;
    ItemCounts(ep);
    forall k | 0 <= k < |PredItems(ep)|
      ensures RequestIdOf(PredItems(ep)[k]) == Some(ep.gateway.shared.ledger[k].requestId)
      ensures PredRecordClean(PredItems(ep)[k], k)
    {
      PredItemReads(ep, k);
      assert RecordOk(ep.gateway.config, ep.gateway.shared.ledger[k], k);
    }
  }

  lemma PredItemsCount(ep: Episode)
    ensures CountIf(PredItems(ep), IsCharged) == CountIf(ep.gateway.shared.ledger, Charged)
    ensures CountIf(PredItems(ep), IsChargedSolve) == CountIf(ep.gateway.shared.ledger, ChargedSolveRecord)
  {
    hide PredItems;
    var ledger := ep.gateway.shared.ledger;
    ItemCounts(ep);
    forall k | 0 <= k < |ledger|
      ensures IsCharged(PredItems(ep)[k]) <==> Charged(ledger[k])
      ensures IsChargedSolve(PredItems(ep)[k]) <==> ChargedSolveRecord(ledger[k])
    {
      PredItemReads(ep, k);
    }
    CountMapped(PredItems(ep), ledger, IsCharged, Charged);
    CountMapped(PredItems(ep), ledger, IsChargedSolve, ChargedSolveRecord);
  }

  /** At rest the charged counts that the validator recounts exceed the counters by the charged failures. */
  lemma PredCountsAgree(ep: Episode)
    requires Inv(ep.gateway) && AtRest(ep.gateway)
    ensures CountIf(PredItems(ep), IsCharged)
      == ep.gateway.shared.used.preds + CountIf(ep.gateway.shared.ledger, ChargedFailure)
    ensures CountIf(PredItems(ep), IsChargedSolve)
      == ep.gateway.shared.used.solves + CountIf(ep.gateway.shared.ledger, ChargedSolveFailure)
  {
    hide Inv, CountIf, PredItems, Waiting, Released, WaitingSolve, ReleasedSolve;
    PredItemsCount(ep);
    ChargedRecordsAnytime(ep.gateway);
    RestIsBalanced(ep.gateway);
  }

  lemma GatewayInv(ep: Episode)
    requires EpisodeInv(ep)
    ensures Inv(ep.gateway) && Records(ep.gateway)
  {
    hide Accounts, Workers, Records, Owners, Logs, CountsOk, ShellsOk, SubmitOk;
  }

  /** The pred check of any ledger with the pred records and the budget of this state, whatever its status says. */
  lemma PredAgreesWith(ep: Episode, ledger: Fields, seen: set<string>)
    requires Records(ep.gateway)
    requires Get(ledger, KPred) == List(PredItems(ep)) && BudgetNumber(ledger, KShellActions) == BudgetNumber(Ledger(ep), KShellActions)
    ensures PredClean(ledger, seen) <==>
      && |ep.gateway.shared.ledger| <= ep.gateway.limits.shells + 1
      && FreshRequests(ep.gateway.shared.ledger, seen)
      && UsedIs(ledger, KPredCalls, CountIf(ep.gateway.shared.ledger, Charged))
      && UsedIs(ledger, KSolveCalls, CountIf(ep.gateway.shared.ledger, ChargedSolveRecord))
  {
    hide Records, Ledger, FreshIds, FreshRequests, CountIf, PredItems, PredRecordClean, UsedIs, BudgetNumber;
    ItemCounts(ep);
    BudgetReads(ep, KShellActions);
    PredIdsAgree(ep, seen);
    PredItemsCount(ep);
  }

  // ---------------------------------------------------------------- submit attempts

  lemma SubmitItemReads(ep: Episode, k: nat)
    requires k < |ep.submit.attempts|
    ensures var a, d := ep.submit.attempts[k], SubmitItems(ep)[k];
      && d.Obj? && Get(d.fields, KAttempt) == Int(a.number) && Get(d.fields, KAccepted) == Bool(a.accepted)
      && Get(d.fields, KCertificate) == a.certificate && Get(d.fields, KRequestId) == Str(a.requestId)
  {
  }

  predicate AcceptedAttempt(a: Submit.Attempt) { a.accepted }

  /** At most one attempt is accepted, and one is exactly when the session is closed. */
  lemma AcceptedCount(ep: Episode)
    requires SubmitOk(ep)
    ensures CountIf(ep.submit.attempts, AcceptedAttempt) == Bit(ep.submit.closed)
  {
    var attempts := ep.submit.attempts;
    if attempts != [] {
      CountNone(attempts[..|attempts| - 1], AcceptedAttempt);
    }
  }

  /** The attempts themselves are in order. */
  lemma AttemptsAgree(ep: Episode, seen: set<string>)
    requires SubmitOk(ep)
    ensures |SubmitItems(ep)| == |ep.submit.attempts| <= 2
    ensures forall k :: 0 <= k < |SubmitItems(ep)| ==> AttemptClean(SubmitItems(ep)[k], k, Str(ep.rule))
    ensures CountIf(SubmitItems(ep), IsAccepted) == Bit(ep.submit.closed)
    ensures FreshIds(SubmitItems(ep), |SubmitItems(ep)|, seen) <==>
      forall k :: 0 <= k < |ep.submit.attempts| ==> ep.submit.attempts[k].requestId !in seen
  {
    hide SubmitItems, IsRequestId, PyEq;
    ItemCounts(ep);
    AcceptedCount(ep);
    var items := SubmitItems(ep);
    forall k | 0 <= k < |items|
      ensures RequestIdOf(items[k]) == Some(ep.submit.attempts[k].requestId)
      ensures AttemptClean(items[k], k, Str(ep.rule))
      ensures IsAccepted(items[k]) <==> AcceptedAttempt(ep.submit.attempts[k])
    {
      SubmitItemReads(ep, k);
      PyEqInts(ep.submit.attempts[k].number, k + 1);
      assert Submit.AttemptOk(ep.rule, ep.submit.attempts[k], k);
    }
    hide AttemptClean, RequestIdOf;
    CountMapped(items, ep.submit.attempts, IsAccepted, AcceptedAttempt);
  }
}
