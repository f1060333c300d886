/** Leaderboard aggregation: one entry per model, the best one, in a strict order. */
module Leaderboard {
  import opened Text

  /** A public entry; `rest` is everything the ranking does not look at. */
  datatype Entry = Entry(model: string, bugs: int, rest: string)

  datatype Rank = Rank(model: string, bugs: int)

  function RankOf(e: Entry): Rank { Rank(e.model, e.bugs) }

  function Ranks(s: seq<Entry>): seq<Rank> { seq(|s|, k requires 0 <= k < |s| => RankOf(s[k])) }

  /** The order of the sort key `(-bugs, model)`. */
  predicate AtMostRank(a: Rank, b: Rank) { a.bugs > b.bugs || (a.bugs == b.bugs && LexLe(a.model, b.model)) }

  predicate Before(a: Rank, b: Rank) { AtMostRank(a, b) && a != b }

  lemma BeforeIsStrict(a: Rank, b: Rank)
    ensures !(Before(a, b) && Before(b, a))
    ensures a == b || Before(a, b) || Before(b, a)
  {
    if a.bugs == b.bugs {
      LexTotal(a.model, b.model);
      if Before(a, b) && Before(b, a) { LexAntisymmetric(a.model, b.model); }
    }
  }

  lemma BeforeTransitive(a: Rank, b: Rank, c: Rank)
    requires Before(a, b) && Before(b, c)
    ensures Before(a, c)
  {
    if a.bugs == b.bugs == c.bugs {
      LexTransitive(a.model, b.model, c.model);
      if a == c { BeforeIsStrict(a, b); }
    }
  }

  // ---------------------------------------------------------------- what the board must be

  /** `bugs` is the model's highest count among the entries. */
  ghost predicate IsBest(entries: seq<Entry>, model: string, bugs: int) {
    && (exists k :: 0 <= k < |entries| && RankOf(entries[k]) == Rank(model, bugs))
    && (forall k :: 0 <= k < |entries| && entries[k].model == model ==> entries[k].bugs <= bugs)
  }

  predicate StrictlyOrdered(s: seq<Rank>) {
    forall i, j :: 0 <= i < j < |s| ==> Before(s[i], s[j])
  }

  /** Exactly one entry per model, each with the model's highest count, strictly ordered by falling count and
      then by name; and among equals the entry is the first one given. */
  ghost predicate IsBoard(entries: seq<Entry>, board: seq<Entry>) {
    && StrictlyOrdered(Ranks(board))
    && (forall rank :: rank in Ranks(board) <==> IsBest(entries, rank.model, rank.bugs))
    && (forall e :: e in board ==> IsFirst(entries, e))
  }

  /** The entry comes before every other entry of its model with as high a count. */
  ghost predicate IsFirst(entries: seq<Entry>, e: Entry) {
    exists k :: FirstAt(entries, e, k)
  }

  predicate FirstAt(entries: seq<Entry>, e: Entry, k: int) {
    0 <= k < |entries| && entries[k] == e && forall j :: 0 <= j < k && entries[j].model == e.model ==> entries[j].bugs < e.bugs
  }

  // ---------------------------------------------------------------- the aggregation

  function Insert(e: Entry, sorted: seq<Entry>): seq<Entry> {
    if sorted == [] then [e]
    else if AtMostRank(RankOf(e), RankOf(sorted[0])) then [e] + sorted
    else [sorted[0]] + Insert(e, sorted[1..])
  }

  /** `sorted(values, key=...)`. */
  function Sort(entries: seq<Entry>): seq<Entry> {
    if entries == [] then [] else Insert(entries[0], Sort(entries[1..]))
  }

  lemma {:induction false} InsertElements(e: Entry, sorted: seq<Entry>, x: Entry)
    ensures x in Insert(e, sorted) <==> x == e || x in sorted
  {
    if sorted != [] && !AtMostRank(RankOf(e), RankOf(sorted[0])) {
      InsertElements(e, sorted[1..], x);
      assert sorted == [sorted[0]] + sorted[1..];
    }
  }

  lemma {:induction false} SortElements(entries: seq<Entry>, x: Entry)
    ensures x in Sort(entries) <==> x in entries
  {
    if entries != [] {
      SortElements(entries[1..], x);
      InsertElements(entries[0], Sort(entries[1..]), x);
      assert entries == [entries[0]] + entries[1..];
    }
  }

  predicate Ordered(s: seq<Entry>) { forall i, j :: 0 <= i < j < |s| ==> Before(RankOf(s[i]), RankOf(s[j])) }

  lemma {:induction false} InsertOrdered(e: Entry, sorted: seq<Entry>)
    requires Ordered(sorted) && forall x :: x in sorted ==> x.model != e.model
    ensures Ordered(Insert(e, sorted))
  {
    if sorted != [] {
      var first, rest := sorted[0], sorted[1..];
      BeforeIsStrict(RankOf(e), RankOf(first));
      if AtMostRank(RankOf(e), RankOf(first)) {
        forall j | 0 <= j < |sorted| ensures Before(RankOf(e), RankOf(sorted[j])) {
          if j > 0 { BeforeTransitive(RankOf(e), RankOf(first), RankOf(sorted[j])); }
        }
      } else {
        InsertOrdered(e, rest);
        var after := Insert(e, rest);
        forall j | 0 <= j < |after| ensures Before(RankOf(first), RankOf(after[j])) {
          InsertElements(e, rest, after[j]);
          if after[j] != e {
            var k :| 0 <= k < |rest| && rest[k] == after[j];
            assert sorted[k + 1] == after[j];
          }
        }
      }
    }
  }

  predicate OnePerModel(s: seq<Entry>) { forall i, j :: 0 <= i < j < |s| ==> s[i].model != s[j].model }

  lemma {:induction false} SortOrdered(entries: seq<Entry>)
    requires OnePerModel(entries)
    ensures Ordered(Sort(entries))
  {
    if entries != [] {
      SortOrdered(entries[1..]);
      forall x | x in Sort(entries[1..]) ensures x.model != entries[0].model {
        SortElements(entries[1..], x);
      }
      InsertOrdered(entries[0], Sort(entries[1..]));
    }
  }

  /** The best entry of every model seen in the first `n` entries, in first-seen order. */
  ghost predicate Collects(entries: seq<Entry>, n: nat, order: seq<string>, best: map<string, Entry>)
    requires n <= |entries|
  {
    && (forall i, j :: 0 <= i < j < |order| ==> order[i] != order[j])
    && (forall m :: m in order <==> m in best)
    && (forall m :: m in best ==> best[m].model == m && IsFirst(entries[..n], best[m]) && IsBest(entries[..n], m, best[m].bugs))
    && (forall k :: 0 <= k < n ==> entries[k].model in best)
  }

  lemma BestKept(before: seq<Entry>, e: Entry, m: string, n: int)
    requires IsBest(before, m, n) && (m != e.model || e.bugs <= n)
    ensures IsBest(before + [e], m, n)
  {
    var k :| 0 <= k < |before| && RankOf(before[k]) == Rank(m, n);
    assert (before + [e])[k] == before[k];
  }

  lemma FirstKept(before: seq<Entry>, e: Entry, first: Entry)
    requires IsFirst(before, first)
    ensures IsFirst(before + [e], first)
  {
    var k :| FirstAt(before, first, k);
    assert FirstAt(before + [e], first, k);
  }

  lemma FirstReplaced(before: seq<Entry>, e: Entry)
    requires forall k :: 0 <= k < |before| && before[k].model == e.model ==> before[k].bugs < e.bugs
    ensures IsFirst(before + [e], e)
  {
    assert FirstAt(before + [e], e, |before|);
  }

  lemma BestReplaced(before: seq<Entry>, e: Entry)
    requires forall k :: 0 <= k < |before| && before[k].model == e.model ==> before[k].bugs <= e.bugs
    ensures IsBest(before + [e], e.model, e.bugs)
  {
    assert (before + [e])[|before|] == e;
  }

  /** Entries that one more entry does not beat stay best and first. */
  lemma UnbeatenKept(entries: seq<Entry>, n: nat, order: seq<string>, best: map<string, Entry>, m: string)
    requires n < |entries| && Collects(entries, n, order, best) && m in best
    requires m != entries[n].model || entries[n].bugs <= best[m].bugs
    ensures best[m].model == m && IsFirst(entries[..n + 1], best[m]) && IsBest(entries[..n + 1], m, best[m].bugs)
  {
    assert IsFirst(entries[..n], best[m]) && IsBest(entries[..n], m, best[m].bugs);
    assert entries[..n + 1] == entries[..n] + [entries[n]];
    hide Collects, IsFirst, IsBest;
    BestKept(entries[..n], entries[n], m, best[m].bugs);
    FirstKept(entries[..n], entries[n], best[m]);
  }

  /** An entry that beats all earlier ones of its model becomes best and first. */
  lemma WinnerTakesOver(entries: seq<Entry>, n: nat, order: seq<string>, best: map<string, Entry>)
    requires n < |entries| && Collects(entries, n, order, best)
    requires entries[n].model in best ==> entries[n].bugs > best[entries[n].model].bugs
    ensures IsFirst(entries[..n + 1], entries[n]) && IsBest(entries[..n + 1], entries[n].model, entries[n].bugs)
  {
    var e, before := entries[n], entries[..n];
    assert entries[..n + 1] == before + [e];
    forall k | 0 <= k < n && before[k].model == e.model ensures before[k].bugs < e.bugs {
      assert entries[k].model in best;
    }
    BestReplaced(before, e);
    FirstReplaced(before, e);
  }

  lemma CollectStep(entries: seq<Entry>, n: nat, order: seq<string>, best: map<string, Entry>)
    requires n < |entries| && Collects(entries, n, order, best)
    ensures var e := entries[n];
      && (e.model !in best ==> Collects(entries, n + 1, order + [e.model], best[e.model := e]))
      && (e.model in best && e.bugs > best[e.model].bugs ==> Collects(entries, n + 1, order, best[e.model := e]))
      && (e.model in best && e.bugs <= best[e.model].bugs ==> Collects(entries, n + 1, order, best))
  {
    hide IsBest, IsFirst;
    var e := entries[n];
    forall m | m in best && (m != e.model || e.bugs <= best[m].bugs)
      ensures best[m].model == m && IsFirst(entries[..n + 1], best[m]) && IsBest(entries[..n + 1], m, best[m].bugs)
    {
      UnbeatenKept(entries, n, order, best, m);
    }
    if e.model !in best || e.bugs > best[e.model].bugs { WinnerTakesOver(entries, n, order, best); }
  }

  /** `_dedup_best`. */
  method DedupBest(entries: seq<Entry>) returns (board: seq<Entry>)
    ensures IsBoard(entries, board)
  {
    var best: map<string, Entry> := map[];
    var order: seq<string> := [];
    for i := 0 to |entries|
      invariant Collects(entries, i, order, best)
    {
      CollectStep(entries, i, order, best);
      var e := entries[i];
      if e.model !in best {
        order := order + [e.model];
        best := best[e.model := e];
      } else if e.bugs > best[e.model].bugs {
        best := best[e.model := e];
      }
    }
    assert entries[..|entries|] == entries;
    var values := seq(|order|, k requires 0 <= k < |order| && order[k] in best => best[order[k]]);
    board := Sort(values);
    CollectedIsBoard(entries, order, best, values);
  }

  /** The values of the dictionary. */
  ghost predicate ValuesOf(order: seq<string>, best: map<string, Entry>, values: seq<Entry>) {
    |values| == |order| && forall k :: 0 <= k < |order| ==> order[k] in best && values[k] == best[order[k]]
  }

  lemma ValueIsBest(entries: seq<Entry>, order: seq<string>, best: map<string, Entry>, values: seq<Entry>, e: Entry)
    requires Collects(entries, |entries|, order, best) && ValuesOf(order, best, values) && e in values
    ensures IsFirst(entries, e) && IsBest(entries, e.model, e.bugs)
  {
    assert entries[..|entries|] == entries;
    hide IsBest, IsFirst;
  }

  lemma BestIsValue(entries: seq<Entry>, order: seq<string>, best: map<string, Entry>, values: seq<Entry>, rank: Rank)
    returns (e: Entry)
    requires Collects(entries, |entries|, order, best) && ValuesOf(order, best, values)
    requires IsBest(entries, rank.model, rank.bugs)
    ensures e in values && RankOf(e) == rank
  {
    assert entries[..|entries|] == entries;
    var k :| 0 <= k < |entries| && RankOf(entries[k]) == rank;
    hide IsBest, IsFirst;
    assert entries[k].model in order;
    var j :| 0 <= j < |order| && order[j] == rank.model;
    e := values[j];
    BestIsUnique(entries, rank.model, rank.bugs, e.bugs);
  }

  lemma ValuesOnePerModel(entries: seq<Entry>, order: seq<string>, best: map<string, Entry>, values: seq<Entry>)
    requires Collects(entries, |entries|, order, best) && ValuesOf(order, best, values)
    ensures OnePerModel(values)
  {
    hide IsBest, IsFirst;
    forall i, j | 0 <= i < j < |values| ensures values[i].model != values[j].model {
      assert values[i].model == order[i] && values[j].model == order[j];
    }
  }

  lemma CollectedIsBoard(entries: seq<Entry>, order: seq<string>, best: map<string, Entry>, values: seq<Entry>)
    requires Collects(entries, |entries|, order, best) && ValuesOf(order, best, values)
    ensures IsBoard(entries, Sort(values))
  {
    hide Collects, ValuesOf, IsBest, IsFirst, Sort;
    var board := Sort(values);
    ValuesOnePerModel(entries, order, best, values);
    SortOrdered(values);
    forall e | e in board ensures IsFirst(entries, e) && IsBest(entries, e.model, e.bugs) {
      SortElements(values, e);
      ValueIsBest(entries, order, best, values, e);
    }
    forall rank ensures rank in Ranks(board) <==> IsBest(entries, rank.model, rank.bugs) {
      if rank in Ranks(board) {
        var k :| 0 <= k < |Ranks(board)| && Ranks(board)[k] == rank;
        assert board[k] in board;
      }
      if IsBest(entries, rank.model, rank.bugs) {
        var e := BestIsValue(entries, order, best, values, rank);
        SortElements(values, e);
        var i :| 0 <= i < |board| && board[i] == e;
        assert Ranks(board)[i] == rank;
      }
    }
  }

  lemma BestIsUnique(entries: seq<Entry>, model: string, a: int, b: int)
    requires IsBest(entries, model, a) && IsBest(entries, model, b)
    ensures a == b
  {
    var i :| 0 <= i < |entries| && RankOf(entries[i]) == Rank(model, a);
    var j :| 0 <= j < |entries| && RankOf(entries[j]) == Rank(model, b);
    assert entries[i].model == model && entries[j].model == model;
  }

  // ---------------------------------------------------------------- the board is determined

  lemma {:induction false} OrderedListsEqual(s: seq<Rank>, t: seq<Rank>)
    requires StrictlyOrdered(s) && StrictlyOrdered(t) && forall r :: r in s <==> r in t
    ensures s == t
    decreases |s|
  {
    if s == [] {
      assert forall k :: 0 <= k < |t| ==> t[k] in t;
    } else {
      assert s[0] in s;
      assert t != [];
      assert t[0] in t;
      var i :| 0 <= i < |t| && t[i] == s[0];
      var j :| 0 <= j < |s| && s[j] == t[0];
      if i > 0 && j > 0 { BeforeIsStrict(s[0], t[0]); }
      assert s[0] == t[0];
      forall r ensures r in s[1..] <==> r in t[1..] {
        TailMembers(s, r);
        TailMembers(t, r);
      }
      OrderedListsEqual(s[1..], t[1..]);
      assert s == [s[0]] + s[1..] && t == [t[0]] + t[1..];
    }
  }

  lemma TailMembers(s: seq<Rank>, r: Rank)
    requires s != [] && StrictlyOrdered(s)
    ensures r in s[1..] <==> r in s && r != s[0]
  {
    if r in s && r != s[0] {
      var k :| 0 <= k < |s| && s[k] == r;
      assert s[1..][k - 1] == r;
    }
    if r in s[1..] {
      var k :| 0 <= k < |s[1..]| && s[1..][k] == r;
      assert s[k + 1] == r && Before(s[0], s[k + 1]);
    }
  }

  /** Two lists of entries with the same best counts have the same board. */
  lemma BoardDetermined(a: seq<Entry>, b: seq<Entry>, boardA: seq<Entry>, boardB: seq<Entry>)
    requires IsBoard(a, boardA) && IsBoard(b, boardB)
    requires forall m, n :: IsBest(a, m, n) <==> IsBest(b, m, n)
    ensures Ranks(boardA) == Ranks(boardB)
  {
    hide IsBest;
    OrderedListsEqual(Ranks(boardA), Ranks(boardB));
  }

  predicate SameMembers(a: seq<Entry>, b: seq<Entry>) { (forall e :: e in a ==> e in b) && (forall e :: e in b ==> e in a) }

  /** The board does not depend on the order of the entries, nor on how often each occurs. */
  lemma OrderDoesNotMatter(a: seq<Entry>, b: seq<Entry>, boardA: seq<Entry>, boardB: seq<Entry>)
    requires IsBoard(a, boardA) && IsBoard(b, boardB) && SameMembers(a, b)
    ensures Ranks(boardA) == Ranks(boardB)
  {
    hide IsBoard, IsBest;
    forall m, n ensures IsBest(a, m, n) <==> IsBest(b, m, n) {
      if IsBest(a, m, n) { SameMembersSameBest(a, b, m, n); }
      if IsBest(b, m, n) { SameMembersSameBest(b, a, m, n); }
    }
    BoardDetermined(a, b, boardA, boardB);
  }

  lemma SameMembersSameBest(a: seq<Entry>, b: seq<Entry>, m: string, n: int)
    requires SameMembers(a, b) && IsBest(a, m, n)
    ensures IsBest(b, m, n)
  {
    var k :| 0 <= k < |a| && RankOf(a[k]) == Rank(m, n);
    assert a[k] in b;
    var j :| 0 <= j < |b| && b[j] == a[k];
    forall i | 0 <= i < |b| && b[i].model == m ensures b[i].bugs <= n {
      assert b[i] in a;
    }
  }

  lemma PermutationInvariant(a: seq<Entry>, b: seq<Entry>, boardA: seq<Entry>, boardB: seq<Entry>)
    requires IsBoard(a, boardA) && IsBoard(b, boardB) && multiset(a) == multiset(b)
    ensures Ranks(boardA) == Ranks(boardB)
  {
    forall e ensures e in a <==> e in b {
      assert e in a <==> e in multiset(a);
      assert e in b <==> e in multiset(b);
    }
    hide IsBoard;
    OrderDoesNotMatter(a, b, boardA, boardB);
  }

  /** Aggregating a part first changes nothing. */
  lemma PreAggregationInvariant(part: seq<Entry>, rest: seq<Entry>, partBoard: seq<Entry>, whole: seq<Entry>, twoStep: seq<Entry>)
    requires IsBoard(part, partBoard) && IsBoard(part + rest, whole) && IsBoard(partBoard + rest, twoStep)
    ensures Ranks(whole) == Ranks(twoStep)
  {
    forall m, n ensures IsBest(part + rest, m, n) <==> IsBest(partBoard + rest, m, n) {
      if IsBest(part + rest, m, n) { KeptByAggregation(part, rest, partBoard, m, n); }
      if IsBest(partBoard + rest, m, n) { ComesFromPart(part, rest, partBoard, m, n); }
    }
    BoardDetermined(part + rest, partBoard + rest, whole, twoStep);
  }

  lemma BoardFromPart(part: seq<Entry>, board: seq<Entry>, i: nat)
    requires IsBoard(part, board) && i < |board|
    ensures board[i] in part
  {
    hide IsBest;
    assert IsFirst(part, board[i]);
    var k :| FirstAt(part, board[i], k);
  }

  /** Every entry of the part is dominated by its model's entry on the part's board. */
  lemma Dominated(part: seq<Entry>, board: seq<Entry>, k: nat) returns (best: Entry)
    requires IsBoard(part, board) && k < |part|
    ensures best in board && best in part && best.model == part[k].model && best.bugs >= part[k].bugs
  {
    var top := Highest(part, part[k].model, |part|);
    assert Rank(part[k].model, top) in Ranks(board);
    var i :| 0 <= i < |board| && RankOf(board[i]) == Rank(part[k].model, top);
    best := board[i];
    BoardFromPart(part, board, i);
  }

  /** The highest count of a model that occurs. */
  lemma {:induction false} Highest(entries: seq<Entry>, model: string, n: nat) returns (top: int)
    requires n <= |entries| && exists k :: 0 <= k < n && entries[k].model == model
    ensures exists k :: 0 <= k < n && RankOf(entries[k]) == Rank(model, top)
    ensures forall k :: 0 <= k < n && entries[k].model == model ==> entries[k].bugs <= top
  {
    var last := entries[n - 1];
    if exists k :: 0 <= k < n - 1 && entries[k].model == model {
      var before := Highest(entries, model, n - 1);
      var k :| 0 <= k < n - 1 && RankOf(entries[k]) == Rank(model, before);
      top := if last.model == model && last.bugs > before then last.bugs else before;
      if top == before { assert RankOf(entries[k]) == Rank(model, top); } else { assert RankOf(entries[n - 1]) == Rank(model, top); }
    } else {
      top := last.bugs;
      assert RankOf(entries[n - 1]) == Rank(model, top);
    }
  }

  lemma KeptByAggregation(part: seq<Entry>, rest: seq<Entry>, board: seq<Entry>, m: string, n: int)
    requires IsBoard(part, board) && IsBest(part + rest, m, n)
    ensures IsBest(board + rest, m, n)
  {
    var all, less := part + rest, board + rest;
    var k :| 0 <= k < |all| && RankOf(all[k]) == Rank(m, n);
    if k < |part| {
      var best := Dominated(part, board, k);
      var i :| 0 <= i < |part| && part[i] == best;
      assert all[i] == best;
      var j :| 0 <= j < |board| && board[j] == best;
      assert less[j] == best;
    } else {
      assert less[|board| + (k - |part|)] == all[k];
    }
    forall i | 0 <= i < |less| && less[i].model == m ensures less[i].bugs <= n {
      if i < |board| {
        BoardFromPart(part, board, i);
        var j :| 0 <= j < |part| && part[j] == board[i];
        assert all[j] == board[i];
      } else {
        assert all[|part| + (i - |board|)] == less[i];
      }
    }
  }

  lemma ComesFromPart(part: seq<Entry>, rest: seq<Entry>, board: seq<Entry>, m: string, n: int)
    requires IsBoard(part, board) && IsBest(board + rest, m, n)
    ensures IsBest(part + rest, m, n)
  {
    var all, less := part + rest, board + rest;
    var k :| 0 <= k < |less| && RankOf(less[k]) == Rank(m, n);
    if k < |board| {
      BoardFromPart(part, board, k);
      var j :| 0 <= j < |part| && part[j] == board[k];
      assert all[j] == less[k];
    } else {
      assert all[|part| + (k - |board|)] == less[k];
    }
    forall i | 0 <= i < |all| && all[i].model == m ensures all[i].bugs <= n {
      if i < |part| {
        var best := Dominated(part, board, i);
        var j :| 0 <= j < |board| && board[j] == best;
        assert less[j] == best;
      } else {
        assert less[|board| + (i - |part|)] == all[i];
      }
    }
  }
}
