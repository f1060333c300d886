/** The certificate verifier over an abstract `pred`. Every call may time out or fail independently of every
    other; the call number stands for whatever makes the difference. */
module Verifier {
  import opened Text
  import opened Json

  const TOLERANCE: real := 0.000001

  datatype EvalKind = Objective | Decision | Unknown
  datatype Sense = Maximize | Minimize | NoSense

  /** A parsed evaluation. */
  datatype Eval = Eval(kind: EvalKind, feasible: bool, value: Option<real>, sense: Sense)

  function Abs(r: real): real { if r < 0.0 then -r else r }

  /** `agrees`. */
  predicate Agrees(a: Eval, b: Eval) {
    if a.feasible != b.feasible then false
    else if !a.feasible then true
    else if a.value.Some? && b.value.Some? then Abs(a.value.value - b.value.value) <= TOLERANCE
    else true
  }

  /** `_strictly_worse`. */
  predicate StrictlyWorse(value: real, optimum: real, sense: Sense) {
    if sense.Minimize? then value - optimum > TOLERANCE else optimum - value > TOLERANCE
  }

  datatype Label = FeasibilityNotPreserved | SpuriousSolution | OptimumNotPreserved

  /** `_derive_label`. */
  function DeriveLabel(src: Eval, bnd: Eval): Label {
    if src.feasible && !bnd.feasible then FeasibilityNotPreserved
    else if !src.feasible && bnd.feasible then SpuriousSolution
    else OptimumNotPreserved
  }

  /** When the round trip disagrees, the label names exactly the case that holds. */
  lemma LabelsAreExact(src: Eval, bnd: Eval)
    requires !Agrees(src, bnd)
    ensures DeriveLabel(src, bnd) == FeasibilityNotPreserved <==> (src.feasible && !bnd.feasible)
    ensures DeriveLabel(src, bnd) == SpuriousSolution <==> (!src.feasible && bnd.feasible)
    ensures DeriveLabel(src, bnd) == OptimumNotPreserved <==>
      (src.feasible && bnd.feasible && src.value.Some? && bnd.value.Some? && Abs(src.value.value - bnd.value.value) > TOLERANCE)
  {
  }

  // ---------------------------------------------------------------- the oracle

  /** What one `pred` call gives: an answer, a failure the verifier handles, or a timeout that escapes it. */
  datatype Answer<T> = Answered(value: T) | Failed | TimedOut

  datatype Solver = DefaultSolver | BruteForce

  datatype Oracle = Oracle(
    reduce: (nat, Value, string) -> Answer<Value>,
    evaluate: (nat, Value, string) -> Answer<Eval>,
    extract: (nat, Value, string) -> Answer<Option<string>>,
    solve: (nat, Value, Solver) -> Option<Eval>)       // `None`: failed, panicked or timed out

  /** `PredSolver.solve`: the default solver with a brute-force fallback, or brute force alone. The number of
      calls made is part of the result. */
  function Solved(o: Oracle, n: nat, instance: Value, independent: bool): (Option<Eval>, nat) {
    if !independent && o.solve(n + 1, instance, DefaultSolver).Some? then (o.solve(n + 1, instance, DefaultSolver), n + 1)
    else
      var m := if independent then n + 1 else n + 2;
      (o.solve(m, instance, BruteForce), m)
  }

  datatype Verdict = Verdict(accepted: bool, finding: Finding) | Raised

  datatype Finding =
    | BadCertificate | ReduceFailed | Inconclusive | NoBug
    | Confirmed(which: Label) | UnsoundExtraction | SuboptimalExtraction

  // ---------------------------------------------------------------- the witness check

  /** `bundle.get("target")`. */
  function TargetOf(bundle: Value): Value { if bundle.Obj? then Get(bundle.fields, KOther("target")) else Null }

  /** `_witness_check`; `None` when it finds nothing. */
  function Witness(o: Oracle, n: nat, source: Value, bundle: Value, config: string, src: Eval): Option<Verdict> {
    var target := TargetOf(bundle);
    if !Truthy(target) then None
    else match o.evaluate(n + 1, target, config)
      case Failed => None
      case TimedOut => Some(Raised)
      case Answered(tev) =>
        if !tev.feasible then None
        else match o.extract(n + 2, bundle, config)
          case Failed => None
          case TimedOut => Some(Raised)
          case Answered(sol) =>
            if sol.None? then None
            else match o.evaluate(n + 3, source, sol.value)
              case Failed => None
              case TimedOut => Some(Raised)
              case Answered(sev) =>
                if !sev.feasible then Some(Verdict(true, UnsoundExtraction))
                else if src.kind.Objective? && src.feasible && sev.value.Some? && src.value.Some? then
                  var best := Solved(o, n + 3, target, false).0;
                  if best.None? then None
                  else if best.value.feasible && tev.value.Some? && best.value.value.Some?
                          && Abs(tev.value.value - best.value.value.value) <= TOLERANCE
                          && StrictlyWorse(sev.value.value, src.value.value, src.sense)
                  then Some(Verdict(true, SuboptimalExtraction))
                  else None
                else None
  }

  // ---------------------------------------------------------------- the decision

  /** A certificate after its shape has been read: the source instance, the cleaned target type if one could be
      read, and the optional witness. */
  datatype Certificate = Certificate(source: Option<Value>, sourceBytes: nat, targetType: Option<string>, targetConfig: Option<string>)

  const MAX_INPUT_BYTES: nat := 256 * 1024

  function Upper(c: char): char { if 'a' <= c <= 'z' then (c as int - 32) as char else c }

  /** `str(target_type).upper().startswith("ILP")`. */
  predicate TargetsIlp(name: string) {
    |name| >= 3 && Upper(name[0]) == 'I' && Upper(name[1]) == 'L' && Upper(name[2]) == 'P'
  }

  predicate Readable(cert: Certificate) {
    cert.source.Some? && cert.source.value.Obj? && cert.source.value.fields != map[] && cert.targetType.Some?
    && cert.sourceBytes <= MAX_INPUT_BYTES
  }

  /** `verify`, as a function of what `pred` answers. */
  function Decide(o: Oracle, cert: Certificate): Verdict {
    if !Readable(cert) then Verdict(false, BadCertificate)
    else
      var source := cert.source.value;
      match o.reduce(1, source, cert.targetType.value)
      case Failed => Verdict(false, ReduceFailed)
      case TimedOut => Raised
      case Answered(bundle) =>
        var (src, m) := Solved(o, 1, source, TargetsIlp(cert.targetType.value));
        if src.None? then Verdict(false, Inconclusive)
        else
          var (bnd, k) := Solved(o, m, bundle, false);
          if bnd.None? then Verdict(false, Inconclusive)
          else if !Agrees(src.value, bnd.value) then Verdict(true, Confirmed(DeriveLabel(src.value, bnd.value)))
          else if cert.targetConfig.Some? && cert.targetConfig.value != "" then
            var w := Witness(o, k, source, bundle, cert.targetConfig.value, src.value);
            if w.Some? then w.value else Verdict(false, NoBug)
          else Verdict(false, NoBug)
  }

  class PredSolver {
    const oracle: Oracle
    var calls: nat

    constructor (oracle: Oracle)
      ensures this.oracle == oracle && calls == 0
    {
      this.oracle := oracle;
      calls := 0;
    }

    /** `_solve_with`. */
    method SolveWith(instance: Value, solver: Solver) returns (r: Option<Eval>)
      modifies this
      ensures calls == old(calls) + 1 && r == oracle.solve(calls, instance, solver)
    {
      calls := calls + 1;
      r := oracle.solve(calls, instance, solver);
    }

    /** `solve`; `None` stands for `Inconclusive`. */
    method Solve(instance: Value, independent: bool) returns (r: Option<Eval>)
      modifies this
      ensures (r, calls) == Solved(oracle, old(calls), instance, independent)
    {
      if !independent {
        r := SolveWith(instance, DefaultSolver);
        if r.Some? { return; }
      }
      r := SolveWith(instance, BruteForce);
    }

    method Evaluate(instance: Value, config: string) returns (r: Answer<Eval>)
      modifies this
      ensures calls == old(calls) + 1 && r == oracle.evaluate(calls, instance, config)
    {
      calls := calls + 1;
      r := oracle.evaluate(calls, instance, config);
    }

    method Extract(bundle: Value, config: string) returns (r: Answer<Option<string>>)
      modifies this
      ensures calls == old(calls) + 1 && r == oracle.extract(calls, bundle, config)
    {
      calls := calls + 1;
      r := oracle.extract(calls, bundle, config);
    }

    /** `_witness_check`. */
    method WitnessCheck(source: Value, bundle: Value, config: string, src: Eval) returns (r: Option<Verdict>)
      modifies this
      ensures r == Witness(oracle, old(calls), source, bundle, config, src)
    {
      var target := TargetOf(bundle);
      if !Truthy(target) { return None; }
      var tev := Evaluate(target, config);
      if tev.Failed? { return None; }
      if tev.TimedOut? { return Some(Raised); }
      if !tev.value.feasible { return None; }
      var sol := Extract(bundle, config);
      if sol.Failed? { return None; }
      if sol.TimedOut? { return Some(Raised); }
      if sol.value.None? { return None; }
      var sev := Evaluate(source, sol.value.value);
      if sev.Failed? { return None; }
      if sev.TimedOut? { return Some(Raised); }
      if !sev.value.feasible { return Some(Verdict(true, UnsoundExtraction)); }
      if src.kind.Objective? && src.feasible && sev.value.value.Some? && src.value.Some? {
        var best := Solve(target, false);
        if best.None? { return None; }
        var optimal := best.value.feasible && tev.value.value.Some? && best.value.value.Some?
                       && Abs(tev.value.value.value - best.value.value.value) <= TOLERANCE;
        if optimal && StrictlyWorse(sev.value.value.value, src.value.value, src.sense) {
          return Some(Verdict(true, SuboptimalExtraction));
        }
      }
      return None;
    }
  }

  /** `verify`: the round trip first, then the optional witness. */
  method Verify(o: Oracle, cert: Certificate) returns (r: Verdict)
    ensures r == Decide(o, cert)
  {
    if cert.source.None? || !cert.source.value.Obj? || cert.source.value.fields == map[] { return Verdict(false, BadCertificate); }
    if cert.targetType.None? { return Verdict(false, BadCertificate); }
    if cert.sourceBytes > MAX_INPUT_BYTES { return Verdict(false, BadCertificate); }
    var solver := new PredSolver(o);
    solver.calls := 1;
    var reduced := o.reduce(1, cert.source.value, cert.targetType.value);
    if reduced.Failed? { return Verdict(false, ReduceFailed); }
    if reduced.TimedOut? { return Raised; }
    var bundle := reduced.value;
    var src := solver.Solve(cert.source.value, TargetsIlp(cert.targetType.value));
    if src.None? { return Verdict(false, Inconclusive); }
    var bnd := solver.Solve(bundle, false);
    if bnd.None? { return Verdict(false, Inconclusive); }
    if !Agrees(src.value, bnd.value) { return Verdict(true, Confirmed(DeriveLabel(src.value, bnd.value))); }
    if cert.targetConfig.Some? && cert.targetConfig.value != "" {
      var w := solver.WitnessCheck(cert.source.value, bundle, cert.targetConfig.value, src.value);
      if w.Some? { return w.value; }
    }
    return Verdict(false, NoBug);
  }

  // ---------------------------------------------------------------- completeness

  /** The certificate can be read at all, in the words of its fields. */
  predicate Usable(cert: Certificate, source: Fields, name: string) {
    cert.source == Some(Obj(source)) && source != map[] && cert.targetType == Some(name) && cert.sourceBytes <= 262144
  }

  /** The reduction and both solves are answered: `src` for the source, `bnd` for the way through the reduction,
      after `k` calls. */
  predicate Answers(o: Oracle, source: Fields, name: string, bundle: Value, src: Eval, bnd: Eval, k: nat) {
    && o.reduce(1, Obj(source), name) == Answered(bundle)
    && var (first, m) := Solved(o, 1, Obj(source), TargetsIlp(name));
       first == Some(src) && Solved(o, m, bundle, false) == (Some(bnd), k)
  }

  /** The two optima are too far apart to be a rounding difference. */
  predicate Apart(a: Option<real>, b: Option<real>) {
    a.Some? && b.Some? && (a.value - b.value > 0.000001 || b.value - a.value > 0.000001)
  }

  /** Everything that is turned down before the two solves are compared. */
  lemma RejectionsAreExact(o: Oracle, cert: Certificate)
    ensures Decide(o, cert) == Verdict(false, BadCertificate) <==> !exists source, name :: Usable(cert, source, name)
    ensures forall source, name | Usable(cert, source, name) ::
      var reduced, solved := o.reduce(1, Obj(source), name), Solved(o, 1, Obj(source), TargetsIlp(name));
      && (Decide(o, cert) == Verdict(false, ReduceFailed) <==> reduced.Failed?)
      && (reduced.TimedOut? ==> Decide(o, cert) == Raised)
      && (Decide(o, cert) == Verdict(false, Inconclusive) <==>
            reduced.Answered? && (solved.0.None? || Solved(o, solved.1, reduced.value, false).0.None?))
  {
    hide Agrees, Solved, TargetsIlp, StrictlyWorse;
    if Readable(cert) { assert Usable(cert, cert.source.value.fields, cert.targetType.value); }
  }

  /** Bugs are found: a certificate is accepted for its round trip, with the label of the case, exactly if one side
      alone is feasible, or both are and their values are apart. */
  lemma DisagreementIsAccepted(o: Oracle, cert: Certificate, source: Fields, name: string, bundle: Value, src: Eval, bnd: Eval, k: nat)
    requires Usable(cert, source, name) && Answers(o, source, name, bundle, src, bnd, k)
    ensures Decide(o, cert) == Verdict(true, Confirmed(FeasibilityNotPreserved)) <==> src.feasible && !bnd.feasible
    ensures Decide(o, cert) == Verdict(true, Confirmed(SpuriousSolution)) <==> !src.feasible && bnd.feasible
    ensures Decide(o, cert) == Verdict(true, Confirmed(OptimumNotPreserved)) <==>
      src.feasible && bnd.feasible && Apart(src.value, bnd.value)
  {
    hide Solved, TargetsIlp, Witness;
    WitnessHasOwnFindings(o, k, Obj(source), bundle, if cert.targetConfig.Some? then cert.targetConfig.value else "", src);
  }

  lemma WitnessHasOwnFindings(o: Oracle, n: nat, source: Value, bundle: Value, config: string, src: Eval)
    ensures Witness(o, n, source, bundle, config, src)
      in {None, Some(Raised), Some(Verdict(true, UnsoundExtraction)), Some(Verdict(true, SuboptimalExtraction))}
  {
    hide Solved;
  }

  /** The round trip finds nothing, so the verdict is up to the witness. */
  predicate Undecided(src: Eval, bnd: Eval) {
    src.feasible == bnd.feasible && !(src.feasible && Apart(src.value, bnd.value))
  }

  /** The witness is a valid target solution, as `evaluate` says, and extracts to a source configuration that
      evaluates to `sev`. */
  predicate Extracts(o: Oracle, k: nat, source: Fields, bundle: Value, config: string, tev: Eval, sol: string, sev: Eval) {
    && bundle.Obj? && Truthy(Get(bundle.fields, KOther("target")))
    && o.evaluate(k + 1, Get(bundle.fields, KOther("target")), config) == Answered(tev) && tev.feasible
    && o.extract(k + 2, bundle, config) == Answered(Some(sol))
    && o.evaluate(k + 3, Obj(source), sol) == Answered(sev)
  }

  /** `value` is worse than the optimum by more than rounding. */
  predicate Worse(value: real, optimum: real, sense: Sense) {
    (sense.Minimize? && value > optimum + 0.000001) || (!sense.Minimize? && value < optimum - 0.000001)
  }

  /** The witness is an optimal target solution, but what it extracts to is no optimal source solution. */
  predicate LosesOptimum(o: Oracle, k: nat, bundle: Value, src: Eval, tev: Eval, sev: Eval)
    requires bundle.Obj?
  {
    && src.kind.Objective? && src.feasible && src.value.Some? && sev.value.Some?
    && var best := Solved(o, k + 3, Get(bundle.fields, KOther("target")), false).0;
       && best.Some? && best.value.feasible && best.value.value.Some? && tev.value.Some?
       && !Apart(tev.value, best.value.value) && Worse(sev.value.value, src.value.value, src.sense)
  }

  /** When the round trip finds nothing, a certificate is accepted exactly for a valid target solution that
      extracts to an invalid source solution, or for an optimal one that extracts to a valid suboptimal one. */
  lemma WitnessIsAccepted(o: Oracle, cert: Certificate, source: Fields, name: string, bundle: Value, src: Eval, bnd: Eval, k: nat,
                          config: string)
    requires Usable(cert, source, name) && Answers(o, source, name, bundle, src, bnd, k) && Undecided(src, bnd)
    requires cert.targetConfig == Some(config) && config != ""
    ensures Decide(o, cert) == Verdict(true, UnsoundExtraction) <==>
      exists tev, sol, sev :: Extracts(o, k, source, bundle, config, tev, sol, sev) && !sev.feasible
    ensures Decide(o, cert) == Verdict(true, SuboptimalExtraction) <==>
      exists tev, sol, sev :: Extracts(o, k, source, bundle, config, tev, sol, sev) && sev.feasible
                              && LosesOptimum(o, k, bundle, src, tev, sev)
    ensures Decide(o, cert).Verdict? && Decide(o, cert).accepted ==>
      Decide(o, cert).finding in {UnsoundExtraction, SuboptimalExtraction}
  {
    hide TargetsIlp;
    assert Agrees(src, bnd) && Readable(cert);
    var w := Witness(o, k, Obj(source), bundle, config, src);
    assert Decide(o, cert) == if w.Some? then w.value else Verdict(false, NoBug);
    hide Decide, Agrees, Solved, Answers, Usable, Truthy;
    WitnessSteps(o, k, source, bundle, config, src);
  }

  lemma WitnessSteps(o: Oracle, k: nat, source: Fields, bundle: Value, config: string, src: Eval)
    ensures var w := Witness(o, k, Obj(source), bundle, config, src);
      && (w == Some(Verdict(true, UnsoundExtraction)) <==>
            exists tev, sol, sev :: Extracts(o, k, source, bundle, config, tev, sol, sev) && !sev.feasible)
      && (w == Some(Verdict(true, SuboptimalExtraction)) <==>
            exists tev, sol, sev :: Extracts(o, k, source, bundle, config, tev, sol, sev) && sev.feasible
                                    && LosesOptimum(o, k, bundle, src, tev, sev))
      && w in {None, Some(Raised), Some(Verdict(true, UnsoundExtraction)), Some(Verdict(true, SuboptimalExtraction))}
  {
    hide Solved, Truthy;
    assert !Truthy(Null) by { TruthyNull(); }
    if bundle.Obj? {
      var target := Get(bundle.fields, KOther("target"));
      var t, e := o.evaluate(k + 1, target, config), o.extract(k + 2, bundle, config);
      if t.Answered? && e.Answered? && e.value.Some? {
        var x := o.evaluate(k + 3, Obj(source), e.value.value);
        if x.Answered? && Truthy(target) && t.value.feasible {
          assert Extracts(o, k, source, bundle, config, t.value, e.value.value, x.value);
        }
      }
    }
  }

  lemma TruthyNull()
    ensures !Truthy(Null)
  {
  }

  /** Without a witness nothing else is looked at. */
  lemma NoWitnessNoBug(o: Oracle, cert: Certificate, source: Fields, name: string, bundle: Value, src: Eval, bnd: Eval, k: nat)
    requires Usable(cert, source, name) && Answers(o, source, name, bundle, src, bnd, k) && Undecided(src, bnd)
    requires cert.targetConfig in {None, Some("")}
    ensures Decide(o, cert) == Verdict(false, NoBug)
  {
    hide Solved, TargetsIlp, Witness;
  }

  /** The default solver is asked first wherever it may be, and brute force decides when it may not or does not. */
  lemma BruteForceIsTheFallback(o: Oracle, n: nat, instance: Value, independent: bool, ev: Eval)
    ensures Solved(o, n, instance, independent).0 == Some(ev) <==>
      || (!independent && o.solve(n + 1, instance, DefaultSolver) == Some(ev))
      || (independent && o.solve(n + 1, instance, BruteForce) == Some(ev))
      || (!independent && o.solve(n + 1, instance, DefaultSolver) == None && o.solve(n + 2, instance, BruteForce) == Some(ev))
  {
  }

  /** The rules into ILP are those whose target starts with these three letters, in any case. */
  lemma IlpNames(name: string)
    ensures TargetsIlp(name) <==> |name| >= 3 && name[0] in "iI" && name[1] in "lL" && name[2] in "pP"
  {
  }

  // ---------------------------------------------------------------- soundness

  /** The mathematical facts about one source instance and its reduction. */
  datatype Truth = Truth(
    sense: Sense, sourceFeasible: bool, sourceOptimum: Option<real>, targetFeasible: bool, targetOptimum: Option<real>,
    sourceHolds: string -> bool, sourceValue: string -> Option<real>,
    targetHolds: string -> bool, targetValue: string -> Option<real>, extraction: string -> Option<string>)

  /** The evaluation says what is true of a configuration. */
  predicate Describes(ev: Eval, holds: bool, value: Option<real>) { ev.feasible == holds && (holds ==> ev.value == value) }

  /** No feasible value beats the optimum. */
  predicate Bounds(sense: Sense, optimum: real, value: real) {
    if sense.Minimize? then optimum <= value else value <= optimum
  }

  /** A target configuration that is optimal up to the tolerance. */
  predicate NearlyOptimal(t: Truth, config: string) {
    && t.targetHolds(config)
    && (t.targetValue(config).Some? && t.targetOptimum.Some? ==>
          Abs(t.targetValue(config).value - t.targetOptimum.value) <= TOLERANCE)
  }

  /** Every answer `pred` gives about this instance is correct, whichever calls fail. The round trip returns
      what extracting an exactly optimal target solution gives. */
  ghost predicate Correct(o: Oracle, t: Truth, source: Value, bundle: Value, target: Value) {
    && (forall n, solver {:trigger o.solve(n, source, solver)} :: o.solve(n, source, solver).Some? ==>
          var ev := o.solve(n, source, solver).value; Describes(ev, t.sourceFeasible, t.sourceOptimum) && ev.sense == t.sense)
    && (forall n, solver {:trigger o.solve(n, target, solver)} :: o.solve(n, target, solver).Some? ==>
          Describes(o.solve(n, target, solver).value, t.targetFeasible, t.targetOptimum))
    && (forall n, solver {:trigger o.solve(n, bundle, solver)} :: o.solve(n, bundle, solver).Some? ==>
          RoundTrip(t, o.solve(n, bundle, solver).value))
    && (forall n, c {:trigger o.evaluate(n, source, c)} :: o.evaluate(n, source, c).Answered? ==>
          Describes(o.evaluate(n, source, c).value, t.sourceHolds(c), t.sourceValue(c)))
    && (forall n, c {:trigger o.evaluate(n, target, c)} :: o.evaluate(n, target, c).Answered? ==>
          Describes(o.evaluate(n, target, c).value, t.targetHolds(c), t.targetValue(c)))
    && (forall n, c {:trigger o.extract(n, bundle, c)} :: o.extract(n, bundle, c).Answered? ==>
          o.extract(n, bundle, c).value == t.extraction(c))
  }

  /** The configuration `c` is an exact optimum of the target. */
  predicate Optimal(t: Truth, c: string) { t.targetHolds(c) && t.targetValue(c) == t.targetOptimum }

  predicate ExtractsTo(t: Truth, c: string, ev: Eval) {
    Optimal(t, c) && t.extraction(c).Some?
    && Describes(ev, t.sourceHolds(t.extraction(c).value), t.sourceValue(t.extraction(c).value))
  }

  ghost predicate RoundTrip(t: Truth, ev: Eval) {
    if t.targetFeasible then exists c :: ExtractsTo(t, c, ev) else !ev.feasible
  }

  /** A correct reduction: it preserves feasibility, extraction keeps feasibility, and target solutions within
      tolerance of optimal extract to source solutions within tolerance of optimal. */
  ghost predicate Faithful(t: Truth) {
    && (t.targetFeasible <==> t.sourceFeasible)
    && (forall c :: t.targetHolds(c) && t.extraction(c).Some? ==> t.sourceHolds(t.extraction(c).value))
    && (forall x :: t.sourceHolds(x) && t.sourceValue(x).Some? && t.sourceOptimum.Some? ==>
          Bounds(t.sense, t.sourceOptimum.value, t.sourceValue(x).value))
    && (forall c :: KeepsOptimum(t, c))
  }

  predicate KeepsOptimum(t: Truth, c: string) {
    NearlyOptimal(t, c) && t.extraction(c).Some? && t.sourceValue(t.extraction(c).value).Some? && t.sourceOptimum.Some? ==>
      !StrictlyWorse(t.sourceValue(t.extraction(c).value).value, t.sourceOptimum.value, t.sense)
  }

  lemma RoundTripAgrees(t: Truth, src: Eval, bnd: Eval)
    requires Faithful(t) && Describes(src, t.sourceFeasible, t.sourceOptimum) && RoundTrip(t, bnd)
    ensures Agrees(src, bnd)
  {
    if t.targetFeasible {
      var c :| ExtractsTo(t, c, bnd);
      var x := t.extraction(c).value;
      assert NearlyOptimal(t, c) && KeepsOptimum(t, c);
      assert t.sourceHolds(x);
    }
  }

  lemma WitnessFindsNothing(o: Oracle, t: Truth, n: nat, source: Value, bundle: Value, config: string, src: Eval)
    requires Correct(o, t, source, bundle, TargetOf(bundle)) && Faithful(t)
    requires Describes(src, t.sourceFeasible, t.sourceOptimum) && src.sense == t.sense
    ensures Witness(o, n, source, bundle, config, src) in {None, Some(Raised)}
  {
    assert KeepsOptimum(t, config);
  }

  /** Verifier soundness. For any pattern of failures, timeouts and solver fallbacks: if every answer that is
      returned is correct and the reduction is faithful on the source instance, no certificate for it is
      accepted. */
  lemma NoFalseAcceptance(o: Oracle, cert: Certificate, t: Truth)
    requires Readable(cert) && Faithful(t)
    requires o.reduce(1, cert.source.value, cert.targetType.value).Answered? ==>
      var bundle := o.reduce(1, cert.source.value, cert.targetType.value).value;
      Correct(o, t, cert.source.value, bundle, TargetOf(bundle))
    ensures Decide(o, cert).Raised? || !Decide(o, cert).accepted
  {
    hide Correct, Faithful, Agrees, RoundTrip, Witness;
    if o.reduce(1, cert.source.value, cert.targetType.value).Answered? {
      var source, bundle := cert.source.value, o.reduce(1, cert.source.value, cert.targetType.value).value;
      var (src, m) := Solved(o, 1, source, TargetsIlp(cert.targetType.value));
      var (bnd, k) := Solved(o, m, bundle, false);
      if src.Some? && bnd.Some? {
        CorrectSolves(o, t, source, bundle);
        RoundTripAgrees(t, src.value, bnd.value);
        if cert.targetConfig.Some? {
          WitnessFindsNothing(o, t, k, source, bundle, cert.targetConfig.value, src.value);
        }
      }
    }
  }

  lemma CorrectSolves(o: Oracle, t: Truth, source: Value, bundle: Value)
    requires Correct(o, t, source, bundle, TargetOf(bundle))
    ensures forall n, solver {:trigger o.solve(n, source, solver)} :: o.solve(n, source, solver).Some? ==>
      Describes(o.solve(n, source, solver).value, t.sourceFeasible, t.sourceOptimum)
      && o.solve(n, source, solver).value.sense == t.sense
    ensures forall n, solver {:trigger o.solve(n, bundle, solver)} :: o.solve(n, bundle, solver).Some? ==>
      RoundTrip(t, o.solve(n, bundle, solver).value)
  {
  }

  /** For an objective with integer values the tolerance is no loss: nearly optimal is optimal, so it is enough
      that exactly optimal target solutions extract to exactly optimal source solutions. */
  lemma IntegerObjectives(t: Truth)
    requires forall c :: t.targetHolds(c) && t.targetValue(c).Some? ==> IsInteger(t.targetValue(c).value)
    requires t.targetOptimum.Some? ==> IsInteger(t.targetOptimum.value)
    requires forall c :: t.targetHolds(c) ==> (t.targetValue(c).Some? <==> t.targetOptimum.Some?)
    requires forall c :: Optimal(t, c) && t.extraction(c).Some? ==> t.sourceValue(t.extraction(c).value) == t.sourceOptimum
    ensures forall c :: KeepsOptimum(t, c)
  {
    forall c ensures KeepsOptimum(t, c) {
      if NearlyOptimal(t, c) && t.targetOptimum.Some? {
        IntegersWithinTolerance(t.targetValue(c).value, t.targetOptimum.value);
      }
      assert NearlyOptimal(t, c) ==> Optimal(t, c);
    }
  }

  predicate IsInteger(r: real) { r == r.Floor as real }

  lemma IntegersWithinTolerance(a: real, b: real)
    requires IsInteger(a) && IsInteger(b) && Abs(a - b) <= TOLERANCE
    ensures a == b
  {
    assert a - b == (a.Floor - b.Floor) as real;
  }

  /** The source of a rule into ILP is never solved by the default solver, which would use that very rule. */
  lemma IlpSourceSolvedIndependently(o: Oracle, o': Oracle, cert: Certificate)
    requires Readable(cert) && TargetsIlp(cert.targetType.value)
    requires o'.reduce == o.reduce && o'.evaluate == o.evaluate && o'.extract == o.extract
    requires forall n: nat, p: Value, solver: Solver {:trigger o'.solve(n, p, solver)} ::
      (p != cert.source.value || solver.BruteForce?) ==> o'.solve(n, p, solver) == o.solve(n, p, solver)
    requires o.reduce(1, cert.source.value, cert.targetType.value).Answered? ==>
      var bundle := o.reduce(1, cert.source.value, cert.targetType.value).value;
      bundle != cert.source.value && TargetOf(bundle) != cert.source.value
    ensures Decide(o', cert) == Decide(o, cert)
  {
    hide Agrees, StrictlyWorse;
  }
}
