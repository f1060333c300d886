/** The validator's check of the triage event list. */
module TriageContract {
  import opened Text
  import opened Counting
  import opened Json
  import opened Observations
  import opened Contract
  import opened ObservationContract

  predicate IsCommit(v: Value) {
    v.Obj? && PyEq(Get(v.fields, KType), Str("shortlist_commit")) && Get(v.fields, KAccepted) == Bool(true)
  }

  predicate IsSequenced(v: Value) { v.Obj? && KSequence in v.fields }

  /** The events that carry a sequence number, in order. */
  function Sequenced(events: seq<Value>): seq<Value> {
    if events == [] then []
    else Sequenced(events[..|events| - 1]) + if IsSequenced(events[|events| - 1]) then [events[|events| - 1]] else []
  }

  /** Numbered 1, 2, 3, ... */
  predicate NumberedInOrder(events: seq<Value>) {
    forall k :: 0 <= k < |events| ==> events[k].Obj? && PyEq(Get(events[k].fields, KSequence), Int(k + 1))
  }

  predicate ChargedFieldOk(v: Value) { v.Obj? && KCharged in v.fields ==> v.fields[KCharged].Bool? }

  predicate IsChargedOf(v: Value, kind: string) { IsCharged(v) && PyEq(Get(v.fields, KType), Str(kind)) }

  function CountCharged(events: seq<Value>, kind: string): nat { CountIf(events, v => IsChargedOf(v, kind)) }

  /** `budget.get("model_generations", 0) + budget.get("shell_actions", 0) + 3`; `None` where it raises. */
  function EventBound(ledger: Fields): Option<real> {
    var models, shells := BudgetNumber(ledger, KModelGenerations), BudgetNumber(ledger, KShellActions);
    if models.Some? && shells.Some? then Some(models.value + shells.value + 3.0) else None
  }

  ghost predicate TriageEventsClean(ledger: Fields) {
    var events := Get(ledger, KEvents);
    && events.List? && EventBound(ledger).Some? && |events.items| as real <= EventBound(ledger).value
    && CountIf(events.items, IsCommit) == 1
    && NumberedInOrder(Sequenced(events.items))
    && (forall k :: 0 <= k < |events.items| ==> ChargedFieldOk(events.items[k]))
    && (forall k :: 0 <= k < |events.items| && IsCharged(events.items[k]) ==> Hashable(Get(events.items[k].fields, KType)))
    && UsedIs(ledger, KModelGenerations, CountCharged(events.items, "model_generation"))
    && UsedIs(ledger, KShellActions, CountCharged(events.items, "shell_action"))
  }

  /** Looking at the list raises: budget or status cannot be read, or a charged event has an unhashable type. */
  predicate TriageEventsRaise(ledger: Fields, events: seq<Value>) {
    || EventBound(ledger).None?
    || StatusItem(ledger, KModelGenerations).None? || StatusItem(ledger, KShellActions).None?
    || exists k :: 0 <= k < |events| && IsCharged(events[k]) && !Hashable(Get(events[k].fields, KType))
  }

  const TRIAGE_COUNTERS: seq<Key> := [KModelGenerations, KShellActions]

  /** What the validator checks of a triage ledger besides its budget and shortlist. */
  ghost predicate TriageLedgerClean(ledger: Fields, budget: Fields, limits: Config) {
    ObservationsClean(ledger, true, limits) && StatusClean(Get(ledger, KStatus), budget, TRIAGE_COUNTERS) && TriageEventsClean(ledger)
  }

  /** `_validate_triage_events`. */
  method ValidateTriageEvents(ledger: Fields) returns (r: Checked)
    ensures r == Problems([]) <==> TriageEventsClean(ledger)
    ensures r.Raised? <==> Get(ledger, KEvents).List? && TriageEventsRaise(ledger, Get(ledger, KEvents).items)
  {
    hide PyEq, CountIf, Sequenced, BudgetNumber, StatusItem;
    var value := Get(ledger, KEvents);
    if !value.List? { return Problems([LedgerNotList]); }
    var events := value.items;
    var bound := EventBound(ledger);
    if bound.None? { return Raised; }
    var problems: seq<Complaint> := if |events| as real > bound.value then [BeyondBound] else [];
    if CountIf(events, IsCommit) != 1 { problems := problems + [CommitCount]; }
    if !NumberedInOrder(Sequenced(events)) { problems := problems + [SequenceInconsistent]; }
    if exists k :: 0 <= k < |events| && !ChargedFieldOk(events[k]) { problems := problems + [ChargedNotBoolean]; }
    if exists k :: 0 <= k < |events| && IsCharged(events[k]) && !Hashable(Get(events[k].fields, KType)) { return Raised; }
    var models, shells := StatusItem(ledger, KModelGenerations), StatusItem(ledger, KShellActions);
    if models.None? { return Raised; }
    if !PyEq(Int(CountCharged(events, "model_generation")), Get(models.value, KUsed)) { problems := problems + [CountDiffers]; }
    if shells.None? { return Raised; }
    if !PyEq(Int(CountCharged(events, "shell_action")), Get(shells.value, KUsed)) { problems := problems + [CountDiffers]; }
    return Problems(problems);
  }
}
