/** Counting the elements of a sequence that satisfy a predicate. */
module Counting {

  function Bit(b: bool): nat { if b then 1 else 0 }

  function CountIf<T>(s: seq<T>, p: T -> bool): nat {
    if s == [] then 0 else CountIf(s[..|s| - 1], p) + Bit(p(s[|s| - 1]))
  }

  lemma CountPush<T>(s: seq<T>, x: T, p: T -> bool)
    ensures CountIf(s + [x], p) == CountIf(s, p) + Bit(p(x))
  {
    assert (s + [x])[..|s|] == s;
  }

  lemma {:induction false} CountUpdate<T>(s: seq<T>, i: nat, x: T, p: T -> bool)
    requires i < |s|
    ensures CountIf(s[i := x], p) + Bit(p(s[i])) == CountIf(s, p) + Bit(p(x))
  {
    var n := |s| - 1;
    if i < n {
      CountUpdate(s[..n], i, x, p);
      assert s[i := x][..n] == s[..n][i := x];
    } else {
      assert s[i := x][..n] == s[..n];
    }
  }

  lemma {:induction false} CountNone<T>(s: seq<T>, p: T -> bool)
    requires forall x :: x in s ==> !p(x)
    ensures CountIf(s, p) == 0
  {
    if s != [] { CountNone(s[..|s| - 1], p); }
  }

  lemma {:induction false} CountSome<T>(s: seq<T>, i: nat, p: T -> bool)
    requires i < |s| && p(s[i])
    ensures CountIf(s, p) >= 1
  {
    if i < |s| - 1 { CountSome(s[..|s| - 1], i, p); }
  }

  lemma {:induction false} CountImplies<T>(s: seq<T>, p: T -> bool, q: T -> bool)
    requires forall x :: x in s && p(x) ==> q(x)
    ensures CountIf(s, p) <= CountIf(s, q) <= |s|
  {
    if s != [] { CountImplies(s[..|s| - 1], p, q); }
  }

  lemma {:induction false} CountSame<T>(s: seq<T>, p: T -> bool, q: T -> bool)
    requires forall x :: x in s ==> (p(x) <==> q(x))
    ensures CountIf(s, p) == CountIf(s, q)
  {
    if s != [] { CountSame(s[..|s| - 1], p, q); }
  }

  /** Two predicates that exclude each other split the count of their disjunction. */
  lemma {:induction false} CountSplit<T>(s: seq<T>, p: T -> bool, a: T -> bool, b: T -> bool)
    requires forall x :: x in s ==> (p(x) <==> a(x) || b(x)) && !(a(x) && b(x))
    ensures CountIf(s, p) == CountIf(s, a) + CountIf(s, b)
  {
    if s != [] { CountSplit(s[..|s| - 1], p, a, b); }
  }

  /** Counting one more element of a prefix. */
  lemma CountTake<T>(s: seq<T>, n: nat, p: T -> bool)
    requires n < |s|
    ensures CountIf(s[..n + 1], p) == CountIf(s[..n], p) + Bit(p(s[n]))
  {
    assert s[..n + 1] == s[..n] + [s[n]];
    CountPush(s[..n], s[n], p);
  }

  // ---------------------------------------------------------------- counting across two sequences

  function Where<T>(s: seq<T>, p: T -> bool): set<nat> {
    set k: nat | k < |s| && p(s[k])
  }

  lemma {:induction false} CountIsSize<T>(s: seq<T>, p: T -> bool)
    ensures CountIf(s, p) == |Where(s, p)|
  {
    if s != [] {
      var front, n := s[..|s| - 1], |s| - 1;
      CountIsSize(front, p);
      assert Where(s, p) == Where(front, p) + if p(s[n]) then {n} else {};
    }
  }

  /** Sets in one-to-one correspondence have the same size. */
  lemma {:induction false} SameSize(a: set<nat>, b: set<nat>, f: nat -> nat)
    requires forall i :: i in a ==> f(i) in b
    requires forall i, j :: i in a && j in a && f(i) == f(j) ==> i == j
    requires forall k :: k in b ==> exists i :: i in a && f(i) == k
    ensures |a| == |b|
    decreases a
  {
    if a == {} {
      assert b == {};
    } else {
      var i :| i in a;
      SameSize(a - {i}, b - {f(i)}, f);
    }
  }
}
