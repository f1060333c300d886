/** The greedy choice of output lines under a character budget: diagnostics first and latest first,
    then their context, then the head and the tail. */
module Greedy {
  import opened Text
  import opened Lines
  import opened Selection

  // ---------------------------------------------------------------- lengths

  /** Sum of the piece lengths, one separator each. */
  function Width(texts: seq<string>): nat {
    if texts == [] then 0 else |texts[0]| + 1 + Width(texts[1..])
  }

  lemma {:induction false} JoinWidth(texts: seq<string>)
    ensures texts != [] ==> |Join(texts)| + 1 == Width(texts)
  {
    if |texts| > 1 {
      JoinWidth(texts[1..]);
    } else if |texts| == 1 {
      assert texts[1..] == [];
    }
  }

  lemma {:induction false} WidthAtLeast(texts: seq<string>)
    requires forall t :: t in texts ==> |t| >= 9
    ensures Width(texts) >= 10 * |texts|
  {
    if texts != [] {
      WidthAtLeast(texts[1..]);
    }
  }

  function Size(lines: seq<Line>, selected: set<nat>): nat {
    |Join(Rendered(lines, selected))|
  }

  lemma TextsWide(lines: seq<Line>, pieces: seq<Piece>)
    requires InRange(lines, pieces)
    ensures forall t :: t in Texts(lines, pieces) ==> |t| >= 9
  {
    forall k | 0 <= k < |pieces| ensures |Texts(lines, pieces)[k]| >= 9 {
      assert pieces[k] in pieces;
      match pieces[k] {
        case Shown(i) => RenderLineLength(lines[i]);
        case Omitted(n) => MarkerLength(n);
      }
    }
  }

  lemma TextsSize(texts: seq<string>)
    requires texts != [] && forall t :: t in texts ==> |t| >= 9
    ensures |Join(texts)| + 1 >= 10 * |texts|
  {
    JoinWidth(texts);
    WidthAtLeast(texts);
  }

  lemma RenderedWide(lines: seq<Line>, selected: set<nat>)
    ensures Rendered(lines, selected) != [] ==> Size(lines, selected) + 1 >= 10 * |Rendered(lines, selected)|
  {
    PiecesInRange(lines, selected, 0, 0);
    TextsWide(lines, Pieces(lines, selected, 0, 0));
    if Rendered(lines, selected) != [] {
      TextsSize(Rendered(lines, selected));
    }
  }

  // ---------------------------------------------------------------- the reference choice

  /** `_try_add` on values. */
  function Try(lines: seq<Line>, selected: set<nat>, index: int, limit: nat): set<nat> {
    if 0 <= index < |lines| && index !in selected && Size(lines, selected + {index}) <= limit
    then selected + {index} else selected
  }

  /** The selection after the first `n` attempts. */
  function Attempt(lines: seq<Line>, start: set<nat>, order: seq<int>, n: nat, limit: nat): set<nat>
    requires n <= |order|
  {
    if n == 0 then start else Try(lines, Attempt(lines, start, order, n - 1, limit), order[n - 1], limit)
  }

  /** Indices of diagnostic lines below `n`, latest first. */
  function Diagnostics(policy: Policy, lines: seq<Line>, n: nat): seq<int>
    requires n <= |lines|
  {
    if n == 0 then []
    else (if policy.diagnostic(lines[n - 1].text) then [n - 1] else []) + Diagnostics(policy, lines, n - 1)
  }

  /** The neighbours at one distance of every diagnostic. */
  function Around(diagnostics: seq<int>, distance: nat): seq<int> {
    seq(2 * |diagnostics|, k requires 0 <= k < 2 * |diagnostics| =>
      if k % 2 == 0 then diagnostics[k / 2] - distance else diagnostics[k / 2] + distance)
  }

  /** Head and tail in turn. */
  function Edges(n: nat): seq<int> {
    seq(2 * n, k requires 0 <= k < 2 * n => if k % 2 == 0 then k / 2 else n - 1 - k / 2)
  }

  function AllDiagnostics(policy: Policy, lines: seq<Line>): seq<int> {
    Diagnostics(policy, lines, |lines|)
  }

  function ChosenDiagnostics(policy: Policy, lines: seq<Line>, limit: nat): set<nat> {
    var d := AllDiagnostics(policy, lines);
    Attempt(lines, {}, d, |d|, limit)
  }

  function ChosenContext(policy: Policy, lines: seq<Line>, limit: nat, distance: nat): set<nat> {
    var a := Around(AllDiagnostics(policy, lines), distance);
    Attempt(lines, if distance <= 1 then ChosenDiagnostics(policy, lines, limit)
                   else ChosenContext(policy, lines, limit, distance - 1), a, |a|, limit)
  }

  const CONTEXT_LINES := 2

  function Chosen(policy: Policy, lines: seq<Line>, limit: nat): set<nat> {
    var e := Edges(|lines|);
    Attempt(lines, ChosenContext(policy, lines, limit, CONTEXT_LINES), e, |e|, limit)
  }

  // ---------------------------------------------------------------- what the greedy choice guarantees

  ghost predicate Fitting(lines: seq<Line>, selected: set<nat>, limit: nat) {
    (forall i :: i in selected ==> i < |lines|) && (selected == {} || Size(lines, selected) <= limit)
  }

  /** The selection only grows, and it fits at every step. */
  lemma {:induction false} AttemptGrows(lines: seq<Line>, start: set<nat>, order: seq<int>, m: nat, n: nat, limit: nat)
    requires m <= n <= |order| && Fitting(lines, start, limit)
    ensures start <= Attempt(lines, start, order, m, limit) <= Attempt(lines, start, order, n, limit)
    ensures Fitting(lines, Attempt(lines, start, order, n, limit), limit)
    decreases n
  {
    hide Size;
    if m < n {
      AttemptGrows(lines, start, order, m, n - 1, limit);
    } else if n > 0 {
      AttemptGrows(lines, start, order, n - 1, n - 1, limit);
    }
  }

  /** Diagnostics first, then their context, then the rest: each stage keeps what the one before it chose, and
      every stage fits. */
  lemma ChosenGrows(policy: Policy, lines: seq<Line>, limit: nat)
    ensures Fitting(lines, ChosenDiagnostics(policy, lines, limit), limit)
    ensures Fitting(lines, ChosenContext(policy, lines, limit, 1), limit)
    ensures Fitting(lines, ChosenContext(policy, lines, limit, 2), limit)
    ensures Fitting(lines, Chosen(policy, lines, limit), limit)
    ensures ChosenDiagnostics(policy, lines, limit) <= ChosenContext(policy, lines, limit, 1)
    ensures ChosenContext(policy, lines, limit, 1) <= ChosenContext(policy, lines, limit, 2)
    ensures ChosenContext(policy, lines, limit, 2) <= Chosen(policy, lines, limit)
  {
    hide Size;
    var d := AllDiagnostics(policy, lines);
    AttemptGrows(lines, {}, d, 0, |d|, limit);
    var a1, a2 := Around(d, 1), Around(d, 2);
    AttemptGrows(lines, ChosenDiagnostics(policy, lines, limit), a1, 0, |a1|, limit);
    AttemptGrows(lines, ChosenContext(policy, lines, limit, 1), a2, 0, |a2|, limit);
    var e := Edges(|lines|);
    AttemptGrows(lines, ChosenContext(policy, lines, limit, 2), e, 0, |e|, limit);
  }

  lemma {:induction false} DiagnosticsExact(policy: Policy, lines: seq<Line>, n: nat)
    requires n <= |lines|
    ensures forall i :: i in Diagnostics(policy, lines, n) <==> 0 <= i < n && policy.diagnostic(lines[i].text)
    ensures forall j, k :: 0 <= j < k < |Diagnostics(policy, lines, n)| ==>
      Diagnostics(policy, lines, n)[k] < Diagnostics(policy, lines, n)[j]
  {
    if n > 0 {
      DiagnosticsExact(policy, lines, n - 1);
      var rest := Diagnostics(policy, lines, n - 1);
      assert forall k :: 0 <= k < |rest| ==> rest[k] in rest;
    }
  }

  /** Only later diagnostics can keep a diagnostic out: context, head and tail lines never do. */
  lemma DiagnosticsFirst(policy: Policy, lines: seq<Line>, limit: nat, k: nat, index: nat)
    requires k < |AllDiagnostics(policy, lines)| && AllDiagnostics(policy, lines)[k] == index
    ensures index in Chosen(policy, lines, limit)
      || Size(lines, Attempt(lines, {}, AllDiagnostics(policy, lines), k, limit) + {index}) > limit
  {
    hide Size;
    var d := AllDiagnostics(policy, lines);
    DiagnosticsExact(policy, lines, |lines|);
    assert d[k] in d;
    ChosenGrows(policy, lines, limit);
    AttemptGrows(lines, {}, d, k + 1, |d|, limit);
  }

  /** The latest diagnostic is shown whenever rendering it alone fits. */
  lemma LatestDiagnosticShown(policy: Policy, lines: seq<Line>, limit: nat, latest: nat)
    requires latest < |lines| && policy.diagnostic(lines[latest].text)
    requires forall i :: latest < i < |lines| ==> !policy.diagnostic(lines[i].text)
    requires Size(lines, {latest}) <= limit
    ensures latest in Chosen(policy, lines, limit)
  {
    var d := AllDiagnostics(policy, lines);
    DiagnosticsExact(policy, lines, |lines|);
    assert latest in d;
    var k :| 0 <= k < |d| && d[k] == latest;
    assert d[0] in d;
    DiagnosticsFirst(policy, lines, limit, 0, latest);
    assert {} + {latest} == {latest};
  }

  /** Only what was tried is added. */
  lemma {:induction false} AttemptAdds(lines: seq<Line>, start: set<nat>, order: seq<int>, n: nat, limit: nat, i: nat)
    requires n <= |order| && i in Attempt(lines, start, order, n, limit)
    ensures i in start || exists k :: 0 <= k < n && order[k] == i
  {
    hide Size;
    if n > 0 && i in Attempt(lines, start, order, n - 1, limit) { AttemptAdds(lines, start, order, n - 1, limit, i); }
  }

  /** What was tried and is not there did not fit when it was its turn. */
  lemma TriedOrNoRoom(lines: seq<Line>, start: set<nat>, order: seq<int>, k: nat, limit: nat, i: nat)
    requires Fitting(lines, start, limit) && k < |order| && order[k] == i && i < |lines|
    ensures var before, after := Attempt(lines, start, order, k, limit), Attempt(lines, start, order, |order|, limit);
      start <= before <= after && (i in after || Size(lines, before + {i}) > limit)
  {
    hide Size;
    AttemptGrows(lines, start, order, k, k + 1, limit);
    AttemptGrows(lines, start, order, k, |order|, limit);
    AttemptGrows(lines, start, order, k + 1, |order|, limit);
  }

  /** Some selection between these two is so large that the line does not fit any more. */
  ghost predicate NoRoom(lines: seq<Line>, low: set<nat>, high: set<nat>, i: nat, limit: nat) {
    exists chosen: set<nat> :: low <= chosen <= high && Size(lines, chosen + {i}) > limit
  }

  predicate IsDiagnostic(policy: Policy, lines: seq<Line>, j: int) { 0 <= j < |lines| && policy.diagnostic(lines[j].text) }

  lemma DiagnosticAt(policy: Policy, lines: seq<Line>, k: nat)
    requires k < |AllDiagnostics(policy, lines)|
    ensures IsDiagnostic(policy, lines, AllDiagnostics(policy, lines)[k])
  {
    DiagnosticsExact(policy, lines, |lines|);
    assert AllDiagnostics(policy, lines)[k] in AllDiagnostics(policy, lines);
  }

  lemma DiagnosticIn(policy: Policy, lines: seq<Line>, j: int) returns (k: nat)
    requires IsDiagnostic(policy, lines, j)
    ensures k < |AllDiagnostics(policy, lines)| && AllDiagnostics(policy, lines)[k] == j
  {
    DiagnosticsExact(policy, lines, |lines|);
    k :| k < |AllDiagnostics(policy, lines)| && AllDiagnostics(policy, lines)[k] == j;
  }

  /** Some diagnostic is at most that far from the line. */
  predicate Near(policy: Policy, lines: seq<Line>, i: int, distance: nat) {
    exists j: int :: i - distance <= j <= i + distance && IsDiagnostic(policy, lines, j)
  }

  /** The first stage chooses nothing but diagnostics, and the next ones nothing that is farther from one than their
      distance. */
  lemma ContextIsNear(policy: Policy, lines: seq<Line>, limit: nat, i: nat)
    ensures i in ChosenDiagnostics(policy, lines, limit) ==> IsDiagnostic(policy, lines, i)
    ensures i in ChosenContext(policy, lines, limit, 1) ==> Near(policy, lines, i, 1)
    ensures i in ChosenContext(policy, lines, limit, 2) ==> Near(policy, lines, i, 2)
  {
    hide Attempt, IsDiagnostic, Near, AllDiagnostics;
    var d := AllDiagnostics(policy, lines);
    if i in ChosenDiagnostics(policy, lines, limit) {
      AttemptAdds(lines, {}, d, |d|, limit, i);
      var k :| 0 <= k < |d| && d[k] == i;
      DiagnosticAt(policy, lines, k);
    }
    NearStep(policy, lines, limit, 1, ChosenDiagnostics(policy, lines, limit), i);
    NearStep(policy, lines, limit, 2, ChosenContext(policy, lines, limit, 1), i);
  }

  lemma NearStep(policy: Policy, lines: seq<Line>, limit: nat, distance: nat, start: set<nat>, i: nat)
    requires distance >= 1 && (i in start ==> IsDiagnostic(policy, lines, i) || Near(policy, lines, i, distance - 1))
    ensures var a := Around(AllDiagnostics(policy, lines), distance);
      i in Attempt(lines, start, a, |a|, limit) ==> Near(policy, lines, i, distance)
  {
    hide Attempt, IsDiagnostic, AllDiagnostics;
    var d := AllDiagnostics(policy, lines);
    var a := Around(d, distance);
    if i in Attempt(lines, start, a, |a|, limit) {
      AttemptAdds(lines, start, a, |a|, limit, i);
      if k :| 0 <= k < |a| && a[k] == i { DiagnosticAt(policy, lines, k / 2); }
    }
  }

  /** Whatever is one or two lines from a diagnostic is chosen as its context unless there is no room for it, and then
      only diagnostics and context that is no farther take its place. */
  lemma ContextIsTried(policy: Policy, lines: seq<Line>, limit: nat, distance: nat, i: nat)
    requires 1 <= distance <= 2 && i < |lines|
    requires IsDiagnostic(policy, lines, i - distance) || IsDiagnostic(policy, lines, i + distance)
    ensures i in ChosenContext(policy, lines, limit, distance)
      || NoRoom(lines, ChosenDiagnostics(policy, lines, limit), ChosenContext(policy, lines, limit, distance), i, limit)
  {
    hide Attempt, Size, IsDiagnostic, AllDiagnostics;
    var d := AllDiagnostics(policy, lines);
    var a := Around(d, distance);
    var start := if distance == 1 then ChosenDiagnostics(policy, lines, limit) else ChosenContext(policy, lines, limit, 1);
    ChosenGrows(policy, lines, limit);
    var k: nat;
    if IsDiagnostic(policy, lines, i - distance) {
      k := DiagnosticIn(policy, lines, i - distance);
      k := 2 * k + 1;
    } else {
      k := DiagnosticIn(policy, lines, i + distance);
      k := 2 * k;
    }
    assert a[k] == i;
    TriedOrNoRoom(lines, start, a, k, limit, i);
  }

  /** How far a line is from the nearer end. */
  function EdgeDistance(n: nat, i: nat): int { Min(i, n - 1 - i) }

  /** Every line is chosen in the end unless there is no room for it, and then only diagnostics, their context, and
      lines that are no farther from an end take its place. */
  lemma EdgesFirst(policy: Policy, lines: seq<Line>, limit: nat, i: nat)
    requires i < |lines| && i !in Chosen(policy, lines, limit)
    ensures exists chosen: set<nat> ::
      && ChosenContext(policy, lines, limit, 2) <= chosen <= Chosen(policy, lines, limit) && Size(lines, chosen + {i}) > limit
      && forall j :: j in chosen ==>
           j in ChosenContext(policy, lines, limit, 2) || EdgeDistance(|lines|, j) <= EdgeDistance(|lines|, i)
  {
    hide Attempt, Size;
    var n, e, start := |lines|, Edges(|lines|), ChosenContext(policy, lines, limit, 2);
    ChosenGrows(policy, lines, limit);
    var k := if i <= n - 1 - i then 2 * i else 2 * (n - 1 - i) + 1;
    assert e[k] == i;
    TriedOrNoRoom(lines, start, e, k, limit, i);
    var chosen := Attempt(lines, start, e, k, limit);
    forall j | j in chosen ensures j in start || EdgeDistance(n, j) <= EdgeDistance(n, i) {
      AttemptAdds(lines, start, e, k, limit, j);
    }
    assert Size(lines, chosen + {i}) > limit;
  }

  // ---------------------------------------------------------------- the procedure

  /** `_try_add`. */
  method TryAdd(lines: seq<Line>, selected: set<nat>, index: int, limit: nat) returns (r: set<nat>, added: bool)
    requires Tiled(lines) && forall i :: i in selected ==> i < |lines|
    ensures r == Try(lines, selected, index, limit)
    ensures added <==> r != selected
    ensures forall i :: i in r ==> i < |lines|
  {
    if !(0 <= index < |lines|) || index in selected {
      return selected, false;
    }
    var candidate := selected + {index};
    var rendering := RenderSelected(lines, candidate);
    if |Join(rendering)| > limit {
      return selected, false;
    }
    r, added := candidate, true;
  }

  method CollectDiagnostics(policy: Policy, lines: seq<Line>) returns (r: seq<int>)
    ensures r == AllDiagnostics(policy, lines)
  {
    r := [];
    var i := 0;
    while i < |lines|
      invariant 0 <= i <= |lines| && r == Diagnostics(policy, lines, i)
    {
      r := (if policy.diagnostic(lines[i].text) then [i] else []) + r;
      i := i + 1;
    }
  }

  method AddDiagnostics(policy: Policy, lines: seq<Line>, limit: nat, diagnostics: seq<int>) returns (selected: set<nat>)
    requires Tiled(lines) && diagnostics == AllDiagnostics(policy, lines)
    ensures selected == ChosenDiagnostics(policy, lines, limit)
    ensures forall i :: i in selected ==> i < |lines|
  {
    hide Size;
    selected := {};
    var k := 0;
    while k < |diagnostics|
      invariant 0 <= k <= |diagnostics| && selected == Attempt(lines, {}, diagnostics, k, limit)
      invariant forall i :: i in selected ==> i < |lines|
    {
      var added;
      selected, added := TryAdd(lines, selected, diagnostics[k], limit);
      k := k + 1;
    }
  }

  method AddContext(lines: seq<Line>, limit: nat, diagnostics: seq<int>, distance: nat, start: set<nat>)
    returns (selected: set<nat>)
    requires Tiled(lines) && forall i :: i in start ==> i < |lines|
    ensures selected == Attempt(lines, start, Around(diagnostics, distance), 2 * |diagnostics|, limit)
    ensures forall i :: i in selected ==> i < |lines|
  {
    hide Size;
    ghost var order := Around(diagnostics, distance);
    selected := start;
    var k := 0;
    while k < |diagnostics|
      invariant 0 <= k <= |diagnostics| && selected == Attempt(lines, start, order, 2 * k, limit)
      invariant forall i :: i in selected ==> i < |lines|
    {
      var added;
      selected, added := TryAdd(lines, selected, diagnostics[k] - distance, limit);
      selected, added := TryAdd(lines, selected, diagnostics[k] + distance, limit);
      assert order[2 * k] == diagnostics[k] - distance && order[2 * k + 1] == diagnostics[k] + distance;
      k := k + 1;
    }
  }

  /** With at most one character nothing can be added, so stopping early changes nothing. */
  lemma {:induction false} NothingFits(lines: seq<Line>, start: set<nat>, order: seq<int>, m: nat, n: nat, limit: nat)
    requires limit <= 1 && m <= n <= |order|
    ensures Attempt(lines, start, order, n, limit) == Attempt(lines, start, order, m, limit)
    decreases n
  {
    if m < n {
      NothingFits(lines, start, order, m, n - 1, limit);
      var before, index := Attempt(lines, start, order, n - 1, limit), order[n - 1];
      if 0 <= index < |lines| {
        var candidate: set<nat> := before + {index};
        Conservation(lines, candidate, 0, 0);
        assert Shown(index) in Pieces(lines, candidate, 0, 0);
        RenderedWide(lines, candidate);
      }
    }
  }

  /** One round of the head/tail loop. */
  method AddPair(lines: seq<Line>, limit: nat, ghost start: set<nat>, before: set<nat>, offset: nat)
    returns (selected: set<nat>, added: bool)
    requires Tiled(lines) && Fitting(lines, start, limit) && offset < |lines|
    requires Fitting(lines, before, limit) && before == Attempt(lines, start, Edges(|lines|), 2 * offset, limit)
    ensures selected == Attempt(lines, start, Edges(|lines|), 2 * offset + 2, limit)
    ensures Fitting(lines, selected, limit)
  {
    hide Size;
    ghost var order := Edges(|lines|);
    assert order[2 * offset] == offset && order[2 * offset + 1] == |lines| - 1 - offset;
    selected, added := TryAdd(lines, before, offset, limit);
    var last;
    selected, last := TryAdd(lines, selected, |lines| - 1 - offset, limit);
    added := last || added;
    AttemptGrows(lines, start, order, 0, 2 * offset + 2, limit);
  }

  /** The head/tail loop with its early exit, which compares the number of rendered lines with the
      character limit. */
  method AddEdges(lines: seq<Line>, limit: nat, start: set<nat>) returns (selected: set<nat>)
    requires Tiled(lines) && Fitting(lines, start, limit)
    ensures selected == Attempt(lines, start, Edges(|lines|), 2 * |lines|, limit)
    ensures Fitting(lines, selected, limit)
  {
    hide Size;
    selected := start;
    var offset := 0;
    while offset < |lines|
      invariant 0 <= offset <= |lines| && selected == Attempt(lines, start, Edges(|lines|), 2 * offset, limit)
      invariant Fitting(lines, selected, limit)
    {
      var added;
      selected, added := AddPair(lines, limit, start, selected, offset);
      if !added {
        var rendering := RenderSelected(lines, selected);
        if |rendering| >= limit {
          StoppingEarly(lines, selected, limit);
          NothingFits(lines, start, Edges(|lines|), 2 * offset + 2, 2 * |lines|, limit);
          return;
        }
      }
      offset := offset + 1;
    }
  }

  lemma StoppingEarly(lines: seq<Line>, selected: set<nat>, limit: nat)
    requires Fitting(lines, selected, limit) && |Rendered(lines, selected)| >= limit
    ensures limit <= 1
  {
    RenderedWide(lines, selected);
    if selected == {} {
      NothingSelected(lines, 0, 0);
    }
  }
}
