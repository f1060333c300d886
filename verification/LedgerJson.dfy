/** The artifact an episode leaves behind: `ledger()` as JSON. */
module LedgerJson {
  import opened Text
  import opened Budget
  import opened Json
  import opened Observations
  import opened Gateway
  import opened Episode
  import Submit

  function OutcomeName(o: Outcome): string {
    match o
    case Admitted => "admitted"
    case Running => "running"
    case Completed => "completed"
    case NonzeroExit => "nonzero_exit"
    case Timeout => "timeout"
    case BudgetExhausted => "budget_exhausted"
    case ModelError => "model_error"
    case InfrastructureError => "infrastructure_error"
    case Abandoned => "running"
  }

  /** What can be read off the name. */
  function Named(o: Outcome): Outcome { if o.Abandoned? then Running else o }

  lemma OutcomeNamesDiffer(a: Outcome, b: Outcome)
    ensures OutcomeName(a) == OutcomeName(b) ==> Named(a) == Named(b)
    ensures OutcomeName(a) == OutcomeName(b) ==> a == b || (a in {Running, Abandoned} && b in {Running, Abandoned})
  {
    assert "completed"[0] == 'c' && "nonzero_exit"[0] == 'n' && "timeout"[0] == 't' && "budget_exhausted"[0] == 'b';
    assert "admitted"[0] == 'a' && "running"[0] == 'r' && "model_error"[0] == 'm' && "infrastructure_error"[0] == 'i';
  }

  function KindName(k: Kind): string { if k.ShellKind? then "shell" else "pred" }

  function OptionalText(s: Option<string>): Value { if s.Some? then Str(s.value) else Null }

  // ---------------------------------------------------------------- records

  function CounterJson(used: nat, limit: nat): Value {
    Obj(map[KUsed := Int(used), KLimit := Int(limit), KRemaining := Int(Max(0, limit - used))])
  }

  /** `status()` of the evidence counters. */
  function StatusFields(used: Usage, limits: Usage): Fields {
    map[KModelGenerations := CounterJson(used.models, limits.models),
        KShellActions := CounterJson(used.shells, limits.shells),
        KPredCalls := CounterJson(used.preds, limits.preds),
        KSolveCalls := CounterJson(used.solves, limits.solves)]
  }

  function MetadataJson(m: Metadata): Value {
    Obj(map[KObservationId := Str(m.observationId), KKind := Str(KindName(m.kind)), KCommand := Str(m.command),
            KRawLog := Str(m.rawLog), KReturncode := Int(m.returncode), KTimedOut := Bool(m.timedOut),
            KOriginalChars := Int(m.originalChars), KOriginalLines := Int(m.originalLines),
            KPreviewChars := Int(m.previewChars), KArchiveChars := Int(m.archiveChars),
            KPreviewCompacted := Bool(m.previewCompacted), KArchiveTruncated := Bool(m.archiveTruncated)])
  }

  function TextList(items: seq<string>): Value {
    List(seq(|items|, k requires 0 <= k < |items| => Str(items[k])))
  }

  /** `d[k] = v`, when there is a value. */
  function WithField(d: Fields, k: Key, v: Option<Value>): Fields { if v.Some? then d[k := v.value] else d }

  function PredRecordBase(r: PredRecord, limits: Usage): Fields {
    map[KSequence := Int(r.sequence), KRequestId := Str(r.requestId), KArgs := TextList(r.args),
        KCommand := OptionalText(r.command), KCharged := Bool(r.charged), KOutcome := Str(OutcomeName(r.outcome)),
        KBudget := Obj(StatusFields(r.budget, limits))]
  }

  function PredRecordFields(r: PredRecord, limits: Usage): Fields {
    WithField(WithField(PredRecordBase(r, limits), KReturncode, if r.returncode.Some? then Some(Int(r.returncode.value)) else None),
              KObservation, if r.observation.Some? then Some(MetadataJson(r.observation.value)) else None)
  }

  function ModelEventFields(e: ModelEvent, limits: Usage): Fields {
    map[KSequence := Int(e.sequence), KCharged := Bool(e.charged), KOutcome := Str(e.outcome),
        KBudget := Obj(StatusFields(e.budget, limits))]
  }

  function ShellEventFields(e: ShellEvent, limits: Usage): Fields {
    WithField(map[KSequence := Int(e.sequence), KCommand := Str(e.command), KCharged := Bool(e.charged),
                  KOutcome := Str(OutcomeName(e.outcome)), KBudget := Obj(StatusFields(e.budget, limits))],
              KObservationId, if e.observationId.Some? then Some(Str(e.observationId.value)) else None)
  }

  function AttemptFields(a: Submit.Attempt): Fields {
    map[KAttempt := Int(a.number), KAccepted := Bool(a.accepted), KRule := a.rule, KCertificate := a.certificate,
        KRequestId := Str(a.requestId)]
  }

  // ---------------------------------------------------------------- the ledger

  /** Insertion into a list sorted by observation id, after equal ids, so that sorting is stable. */
  function Insert(m: Metadata, sorted: seq<Metadata>): seq<Metadata> {
    if sorted == [] then [m]
    else
      var last := sorted[|sorted| - 1];
      if LexLe(last.observationId, m.observationId) then sorted + [m] else Insert(m, sorted[..|sorted| - 1]) + [last]
  }

  /** `observations.sort(key=lambda item: item["observation_id"])`. */
  function SortById(items: seq<Metadata>): seq<Metadata> {
    if items == [] then [] else Insert(items[|items| - 1], SortById(items[..|items| - 1]))
  }

  function PredObservations(ledger: seq<PredRecord>): seq<Metadata> {
    if ledger == [] then []
    else
      var last := ledger[|ledger| - 1];
      PredObservations(ledger[..|ledger| - 1]) + if last.observation.Some? then [last.observation.value] else []
  }

  function BudgetFields(ep: Episode): Fields {
    map[KModelGenerations := Int(ep.gateway.limits.models), KShellActions := Int(ep.gateway.limits.shells),
        KPredCalls := Int(ep.gateway.limits.preds), KSolveCalls := Int(ep.gateway.limits.solves),
        KSubmitAttempts := Int(SUBMIT_ATTEMPTS), KMaxOutputChars := Int(ep.outputChars),
        KPredTimeoutSeconds := Int(ep.timeoutSeconds)]
  }

  function SubmitStatus(s: Submit.SubmitState): Value {
    Obj(map[KUsed := Int(|s.attempts|), KLimit := Int(SUBMIT_ATTEMPTS), KRemaining := Int(Submit.Remaining(SUBMIT_ATTEMPTS, s))])
  }

  function EpisodeStatus(ep: Episode): Fields {
    StatusFields(ep.gateway.shared.used, ep.gateway.limits)[KSubmitAttempts := SubmitStatus(ep.submit)]
  }

  function PredItems(ep: Episode): seq<Value> {
    seq(|ep.gateway.shared.ledger|, k requires 0 <= k < |ep.gateway.shared.ledger| =>
      Obj(PredRecordFields(ep.gateway.shared.ledger[k], ep.gateway.limits)))
  }

  function ModelItems(ep: Episode): seq<Value> {
    seq(|ep.models|, k requires 0 <= k < |ep.models| => Obj(ModelEventFields(ep.models[k], ep.gateway.limits)))
  }

  function ShellItems(ep: Episode): seq<Value> {
    seq(|ep.shells|, k requires 0 <= k < |ep.shells| => Obj(ShellEventFields(ep.shells[k], ep.gateway.limits)))
  }

  function SubmitItems(ep: Episode): seq<Value> {
    seq(|ep.submit.attempts|, k requires 0 <= k < |ep.submit.attempts| => Obj(AttemptFields(ep.submit.attempts[k])))
  }

  /** All observations in the order of the ledger. */
  function AllObservations(ep: Episode): seq<Metadata> {
    SortById(ep.observations + PredObservations(ep.gateway.shared.ledger))
  }

  function ObservationItems(ep: Episode): seq<Value> {
    seq(|AllObservations(ep)|, k requires 0 <= k < |AllObservations(ep)| => MetadataJson(AllObservations(ep)[k]))
  }

  /** `ledger()`. */
  function Ledger(ep: Episode): Fields {
    map[KRule := Str(ep.rule), KBudget := Obj(BudgetFields(ep)), KStatus := Obj(EpisodeStatus(ep)),
        KPred := List(PredItems(ep)), KSubmit := List(SubmitItems(ep)),
        KModelGenerations := List(ModelItems(ep)), KShellActions := List(ShellItems(ep)),
        KObservations := List(ObservationItems(ep))]
  }

  // ---------------------------------------------------------------- sorting

  lemma {:induction false} InsertPermutes(m: Metadata, sorted: seq<Metadata>)
    ensures |Insert(m, sorted)| == |sorted| + 1
    ensures multiset(Insert(m, sorted)) == multiset(sorted) + multiset{m}
  {
    if sorted != [] {
      var last := sorted[|sorted| - 1];
      InsertPermutes(m, sorted[..|sorted| - 1]);
      assert sorted == sorted[..|sorted| - 1] + [last];
    }
  }

  predicate SortedById(s: seq<Metadata>) {
    forall i, j :: 0 <= i < j < |s| ==> LexLe(s[i].observationId, s[j].observationId)
  }

  lemma {:induction false} InsertSorted(m: Metadata, sorted: seq<Metadata>)
    requires SortedById(sorted)
    ensures SortedById(Insert(m, sorted))
  {
    if sorted != [] {
      var last := sorted[|sorted| - 1];
      if LexLe(last.observationId, m.observationId) {
        forall i | 0 <= i < |sorted| ensures LexLe(sorted[i].observationId, m.observationId) {
          LexTotal(sorted[i].observationId, last.observationId);
          if i < |sorted| - 1 { LexTransitive(sorted[i].observationId, last.observationId, m.observationId); }
        }
      } else {
        var front := sorted[..|sorted| - 1];
        InsertSorted(m, front);
        InsertPermutes(m, front);
        LexTotal(last.observationId, m.observationId);
        forall x | x in Insert(m, front) ensures LexLe(x.observationId, last.observationId) {
          assert x in multiset(Insert(m, front));
          if x != m { assert x in multiset(front); }
        }
      }
    }
  }

  /** The ledger holds every observation exactly once, in id order. */
  lemma {:induction false} SortByIdCorrect(items: seq<Metadata>)
    ensures multiset(SortById(items)) == multiset(items) && |SortById(items)| == |items|
    ensures SortedById(SortById(items))
  {
    if items != [] {
      hide SortedById, Insert;
      var front, last := items[..|items| - 1], items[|items| - 1];
      SortByIdCorrect(front);
      InsertPermutes(last, SortById(front));
      InsertSorted(last, SortById(front));
      assert items == front + [last];
    }
  }
}
