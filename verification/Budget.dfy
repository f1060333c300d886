/** The counters of one rule episode: reserved together or not at all, released on infrastructure failure. */
module Budget {
  import opened Text

  datatype Counter = ModelGenerations | ShellActions | PredCalls | SolveCalls

  /** One number per counter; used both for limits and for what has been used. */
  datatype Usage = Usage(models: nat, shells: nat, preds: nat, solves: nat) {
    function At(c: Counter): nat {
      match c
      case ModelGenerations => models
      case ShellActions => shells
      case PredCalls => preds
      case SolveCalls => solves
    }

    function With(c: Counter, n: nat): Usage {
      match c
      case ModelGenerations => this.(models := n)
      case ShellActions => this.(shells := n)
      case PredCalls => this.(preds := n)
      case SolveCalls => this.(solves := n)
    }
  }

  const NO_USE := Usage(0, 0, 0, 0)

  /** Every counter is within its limit. */
  predicate Within(used: Usage, limits: Usage) {
    used.models <= limits.models && used.shells <= limits.shells
    && used.preds <= limits.preds && used.solves <= limits.solves
  }

  predicate Available(used: Usage, limits: Usage, names: seq<Counter>) {
    forall c :: c in names ==> used.At(c) < limits.At(c)
  }

  function Charge(used: Usage, names: seq<Counter>, n: nat): Usage
    requires n <= |names|
  {
    if n == 0 then used
    else var before := Charge(used, names, n - 1); before.With(names[n - 1], before.At(names[n - 1]) + 1)
  }

  predicate Distinct(names: seq<Counter>) {
    forall i, j :: 0 <= i < j < |names| ==> names[i] != names[j]
  }

  predicate Releasable(used: Usage, names: seq<Counter>) {
    forall c :: c in names ==> used.At(c) > 0
  }

  /** One off every named counter; only meaningful where `Releasable`. */
  function Discharge(used: Usage, names: seq<Counter>, n: nat): Usage
    requires n <= |names|
  {
    if n == 0 then used
    else var before := Discharge(used, names, n - 1);
         before.With(names[n - 1], Max(0, before.At(names[n - 1]) - 1))
  }

  /** No name occurs more often than its counter can give back. */
  ghost predicate Backed(used: Usage, names: seq<Counter>) {
    forall c: Counter :: multiset(names)[c] <= used.At(c)
  }

  lemma {:induction false} DischargeCounts(used: Usage, names: seq<Counter>, n: nat, c: Counter)
    requires n <= |names| && multiset(names[..n])[c] <= used.At(c)
    ensures Discharge(used, names, n).At(c) == used.At(c) - multiset(names[..n])[c]
  {
    if n > 0 {
      assert names[..n] == names[..n - 1] + [names[n - 1]];
      DischargeCounts(used, names, n - 1, c);
    } else {
      assert names[..0] == [];
    }
  }

  lemma PrefixCounts(names: seq<Counter>, n: nat, c: Counter)
    requires n <= |names|
    ensures multiset(names[..n])[c] <= multiset(names)[c]
  {
    assert names == names[..n] + names[n..];
  }

  /** Charging counts every occurrence of a name. */
  lemma {:induction false} ChargeCounts(used: Usage, names: seq<Counter>, n: nat, c: Counter)
    requires n <= |names|
    ensures Charge(used, names, n).At(c) == used.At(c) + multiset(names[..n])[c]
  {
    if n > 0 {
      ChargeCounts(used, names, n - 1, c);
      assert names[..n] == names[..n - 1] + [names[n - 1]];
    } else {
      assert names[..0] == [];
    }
  }

  lemma {:induction false} DistinctOnce(names: seq<Counter>, n: nat, c: Counter)
    requires Distinct(names) && n <= |names|
    ensures multiset(names[..n])[c] == if c in names[..n] then 1 else 0
  {
    if n > 0 {
      DistinctOnce(names, n - 1, c);
      assert names[..n] == names[..n - 1] + [names[n - 1]];
      assert names[n - 1] !in names[..n - 1];
    } else {
      assert names[..0] == [];
    }
  }

  /** A granted reservation of distinct names stays within the limits; distinctness is what makes the
      check before the loop enough. */
  lemma ReserveKeepsLimits(used: Usage, limits: Usage, names: seq<Counter>)
    requires Distinct(names) && Available(used, limits, names) && Within(used, limits)
    ensures Within(Charge(used, names, |names|), limits)
  {
    forall c: Counter ensures Charge(used, names, |names|).At(c) <= limits.At(c) {
      ChargeCounts(used, names, |names|, c);
      DistinctOnce(names, |names|, c);
      assert names[..|names|] == names;
      assert used.At(c) <= limits.At(c);
    }
    var r := Charge(used, names, |names|);
    assert r.At(ModelGenerations) <= limits.At(ModelGenerations) && r.At(ShellActions) <= limits.At(ShellActions);
    assert r.At(PredCalls) <= limits.At(PredCalls) && r.At(SolveCalls) <= limits.At(SolveCalls);
  }

  /** In general a granted reservation stays within the limits exactly when no name occurs more often
      than its counter has room; a repeated name can overspend. */
  lemma ReserveWithRepeats(used: Usage, limits: Usage, names: seq<Counter>)
    ensures Within(Charge(used, names, |names|), limits)
      <==> forall c: Counter :: used.At(c) + multiset(names)[c] <= limits.At(c)
  {
    var r := Charge(used, names, |names|);
    assert names[..|names|] == names;
    forall c: Counter ensures r.At(c) == used.At(c) + multiset(names)[c] { ChargeCounts(used, names, |names|, c); }
    if Within(r, limits) {
      forall c: Counter ensures r.At(c) <= limits.At(c) {}
    } else {
      var c := if r.models > limits.models then ModelGenerations else if r.shells > limits.shells then ShellActions
               else if r.preds > limits.preds then PredCalls else SolveCalls;
      assert r.At(c) > limits.At(c);
    }
  }

  const ONE_EACH := Usage(1, 1, 1, 1)

  lemma {:induction false} SomeTwice(names: seq<Counter>)
    ensures Distinct(names) <==> forall c: Counter :: multiset(names)[c] <= 1
  {
    assert names[..|names|] == names;
    if Distinct(names) {
      forall c: Counter ensures multiset(names)[c] <= 1 { DistinctOnce(names, |names|, c); }
    } else {
      var i, j :| 0 <= i < j < |names| && names[i] == names[j];
      var front := names[..j];
      assert front[i] == names[j];
      assert names[..j + 1] == front + [names[j]];
      PrefixCounts(names, j + 1, names[j]);
      assert multiset(names)[names[j]] >= 2;
    }
  }

  /** The check before the loop looks at each counter once: with room for one of each, every list of names is
      granted, and the limits are kept exactly if no name is repeated. */
  lemma RepeatedNameOverspends(names: seq<Counter>)
    ensures Available(NO_USE, ONE_EACH, names)
    ensures Within(Charge(NO_USE, names, |names|), ONE_EACH) <==> Distinct(names)
  {
    ReserveWithRepeats(NO_USE, ONE_EACH, names);
    SomeTwice(names);
    assert forall c: Counter :: NO_USE.At(c) == 0 && ONE_EACH.At(c) == 1;
  }

  /** The check before a release is as weak: for distinct names it is enough, and from counters that hold one of
      each it lets every list of names pass, also one that names a counter twice and takes it below zero. */
  lemma RepeatedNameUnderflows(used: Usage, names: seq<Counter>)
    ensures Distinct(names) && Releasable(used, names) ==> Backed(used, names)
    ensures Releasable(ONE_EACH, names)
    ensures Backed(ONE_EACH, names) <==> Distinct(names)
  {
    SomeTwice(names);
    assert forall c: Counter :: ONE_EACH.At(c) == 1;
    forall c: Counter | c in names ensures multiset(names)[c] >= 1 {}
  }

  /** Releasing what was reserved restores the counters, also if names are repeated. */
  lemma ReleaseUndoesReserve(used: Usage, names: seq<Counter>)
    ensures Releasable(Charge(used, names, |names|), names) && Backed(Charge(used, names, |names|), names)
    ensures Discharge(Charge(used, names, |names|), names, |names|) == used
  {
    var r := Charge(used, names, |names|);
    assert names[..|names|] == names;
    forall c: Counter ensures r.At(c) == used.At(c) + multiset(names)[c] { ChargeCounts(used, names, |names|, c); }
    forall c: Counter | c in names ensures r.At(c) > 0 { assert multiset(names)[c] >= 1; }
    var back := Discharge(r, names, |names|);
    forall c: Counter ensures back.At(c) == used.At(c) { DischargeCounts(r, names, |names|, c); }
    assert back.At(ModelGenerations) == used.models && back.At(ShellActions) == used.shells;
    assert back.At(PredCalls) == used.preds && back.At(SolveCalls) == used.solves;
  }

  lemma NothingDischarged(used: Usage, names: seq<Counter>)
    ensures Discharge(used, names, 0) == used
  {
  }

  lemma StillBacked(used: Usage, names: seq<Counter>, i: nat)
    requires i < |names| && Backed(used, names)
    ensures Discharge(used, names, i).At(names[i]) > 0
    ensures Discharge(used, names, i + 1)
      == Discharge(used, names, i).With(names[i], Discharge(used, names, i).At(names[i]) - 1)
  {
    assert names[..i + 1] == names[..i] + [names[i]];
    PrefixCounts(names, i + 1, names[i]);
    DischargeCounts(used, names, i, names[i]);
  }

  class EvidenceBudgetState {
    const limits: Usage
    var used: Usage

    constructor (limits: Usage)
      ensures this.limits == limits && used == NO_USE
    {
      this.limits := limits;
      used := NO_USE;
    }

    /** `reserve`: all named counters or none of them. */
    method Reserve(names: seq<Counter>) returns (granted: bool, before: Usage)
      modifies this
      ensures granted <==> Available(old(used), limits, names)
      ensures before == old(used)
      ensures used == if granted then Charge(old(used), names, |names|) else old(used)
    {
      before := used;
      granted := true;
      var i := 0;
      while i < |names|
        invariant 0 <= i <= |names| && granted && used == before
        invariant forall j :: 0 <= j < i ==> used.At(names[j]) < limits.At(names[j])
      {
        if used.At(names[i]) >= limits.At(names[i]) { return false, before; }
        i := i + 1;
      }
      i := 0;
      while i < |names|
        invariant 0 <= i <= |names| && used == Charge(before, names, i)
      {
        used := used.With(names[i], used.At(names[i]) + 1);
        i := i + 1;
      }
    }

    /** `release`; it raises, changing nothing, if some counter is already at zero. The counters are natural
        numbers here, so a release that the check lets pass must not take one below zero. */
    method Release(names: seq<Counter>) returns (raised: bool)
      requires Releasable(used, names) ==> Backed(used, names)
      modifies this
      ensures raised <==> !Releasable(old(used), names)
      ensures !raised ==> used == Discharge(old(used), names, |names|)
      ensures raised ==> used == old(used)
    {
      raised := false;
      var i := 0;
      while i < |names|
        invariant 0 <= i <= |names| && !raised && used == old(used)
        invariant forall j :: 0 <= j < i ==> used.At(names[j]) > 0
      {
        if used.At(names[i]) <= 0 { return true; }
        i := i + 1;
      }
      ghost var before := used;
      hide Discharge, Backed;
      NothingDischarged(before, names);
      i := 0;
      while i < |names|
        invariant 0 <= i <= |names| && used == Discharge(before, names, i)
        invariant Backed(before, names)
      {
        StillBacked(before, names, i);
        used := used.With(names[i], used.At(names[i]) - 1);
        i := i + 1;
      }
    }
  }
}
