/** Parsed JSON as the validator sees it, with the parts of Python's behaviour the validator depends on:
    `dict.get`, equality across `bool`, `int` and `float`, hashability, and arithmetic on JSON numbers. */
module Json {
  import opened Text

  /** The field names the benchmark uses; `KOther` is any other name. */
  datatype Key =
    | KRule | KBudget | KStatus | KPred | KSubmit | KModelGenerations | KShellActions | KObservations
    | KPredCalls | KSolveCalls | KSubmitAttempts | KMaxOutputChars | KPredTimeoutSeconds | KCommandTimeoutSeconds
    | KUsed | KLimit | KRemaining
    | KSequence | KRequestId | KArgs | KCommand | KCharged | KOutcome | KReturncode | KObservation
    | KObservationId | KKind | KRawLog | KTimedOut | KOriginalChars | KOriginalLines | KPreviewChars
    | KArchiveChars | KPreviewCompacted | KArchiveTruncated
    | KAttempt | KAccepted | KReason | KCertificate
    | KEvents | KType | KShortlist | KHypothesis | KRules
    | KIndex | KLedger | KMessages | KContent | KAcceptedSubmitAttempt
    | KModel | KLibraryCommit | KRunnerVersion | KPredVersion | KPromptId | KRankable | KSafetyControls | KTriage
    | KEpisodes | KInferenceParameters | KCreatedAt | KSubmittedBy | KTest | KRunError
    | KOther(name: string)

  datatype Value =
    | Null
    | Bool(b: bool)
    | Int(i: int)
    | Float(r: real)
    | Str(s: string)
    | List(items: seq<Value>)
    | Obj(fields: map<Key, Value>)

  type Fields = map<Key, Value>

  /** `d.get(k)`. */
  function Get(d: Fields, k: Key): Value { if k in d then d[k] else Null }

  /** `d.get(k, default)`. */
  function GetOr(d: Fields, k: Key, default: Value): Value { if k in d then d[k] else default }

  /** One representative for all values Python calls equal. */
  function Canon(v: Value): Value
    decreases v
  {
    match v
    case Bool(b) => Int(if b then 1 else 0)
    case Float(r) => if r == r.Floor as real then Int(r.Floor) else v
    case List(items) => List(seq(|items|, i requires 0 <= i < |items| => Canon(items[i])))
    case Obj(fields) => Obj(map k | k in fields :: Canon(fields[k]))
    case _ => v
  }

  /** Python's `==`. */
  predicate PyEq(a: Value, b: Value) { Canon(a) == Canon(b) }

  lemma PyEqSame(v: Value)
    ensures PyEq(v, v)
  {
  }

  lemma PyEqInts(a: int, b: int)
    ensures PyEq(Int(a), Int(b)) <==> a == b
  {
  }

  lemma PyEqStr(s: string, v: Value)
    ensures PyEq(Str(s), v) <==> v == Str(s)
    ensures PyEq(v, Str(s)) <==> v == Str(s)
  {
  }

  /** Equality of JSON values, kind by kind: booleans, integers and floats by what they are worth, lists element by
      element, objects key by key, and nothing equals a value of another kind. */
  lemma PyEqByKind(a: Value, b: Value)
    ensures Number(a).Some? || Number(b).Some? ==> (PyEq(a, b) <==> Number(a) == Number(b))
    ensures a.Null? || a.Str? || b.Null? || b.Str? ==> (PyEq(a, b) <==> a == b)
    ensures a.List? || b.List? ==>
      (PyEq(a, b) <==> a.List? && b.List? && |a.items| == |b.items| && forall k :: 0 <= k < |a.items| ==> PyEq(a.items[k], b.items[k]))
    ensures a.Obj? || b.Obj? ==>
      (PyEq(a, b) <==> a.Obj? && b.Obj? && a.fields.Keys == b.fields.Keys && forall k :: k in a.fields ==> PyEq(a.fields[k], b.fields[k]))
  {
    if a.List? && b.List? { ListsEqual(a, b); }
    if a.Obj? && b.Obj? { ObjectsEqual(a, b); }
  }

  lemma ListsEqual(a: Value, b: Value)
    requires a.List? && b.List?
    ensures PyEq(a, b) <==> |a.items| == |b.items| && forall k :: 0 <= k < |a.items| ==> PyEq(a.items[k], b.items[k])
  {
    if PyEq(a, b) {
      forall k | 0 <= k < |a.items| ensures k < |b.items| && PyEq(a.items[k], b.items[k]) {
        assert Canon(a).items[k] == Canon(b).items[k];
      }
    }
  }

  lemma ObjectsEqual(a: Value, b: Value)
    requires a.Obj? && b.Obj?
    ensures PyEq(a, b) <==> a.fields.Keys == b.fields.Keys && forall k :: k in a.fields ==> PyEq(a.fields[k], b.fields[k])
  {
    assert Canon(a).fields.Keys == a.fields.Keys && Canon(b).fields.Keys == b.fields.Keys;
    if PyEq(a, b) {
      forall k | k in a.fields ensures k in b.fields && PyEq(a.fields[k], b.fields[k]) {
        assert Canon(a).fields[k] == Canon(b).fields[k];
      }
    }
  }

  /** `isinstance(v, int) and not isinstance(v, bool) and v >= 0`. */
  predicate IsNat(v: Value) { v.Int? && v.i >= 0 }

  /** Values a Python `dict` or `set` accepts as members. */
  predicate Hashable(v: Value) { !v.List? && !v.Obj? }

  /** The number a JSON value counts as in arithmetic; `None` where Python raises `TypeError`. */
  function Number(v: Value): Option<real> {
    match v
    case Bool(b) => Some(if b then 1.0 else 0.0)
    case Int(i) => Some(i as real)
    case Float(r) => Some(r)
    case _ => None
  }

  /** What `for x in v` yields, `None` where it raises. Iterating a string or an object yields strings. */
  function Iterated(v: Value): Option<seq<Value>> {
    match v
    case List(items) => Some(items)
    case Str(s) => Some([])
    case Obj(_) => Some([])
    case _ => None
  }

  /** Python's truth value. */
  predicate Truthy(v: Value) {
    match v
    case Null => false
    case Bool(b) => b
    case Int(i) => i != 0
    case Float(r) => r != 0.0
    case Str(s) => s != ""
    case List(items) => items != []
    case Obj(fields) => fields != map[]
  }
}
