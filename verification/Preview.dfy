/** The compact preview of a command's output, and exactly when its two internal budget assertions
    would be raised. */
module Preview {
  import opened Text
  import opened Lines
  import opened Selection
  import opened Greedy

  // ---------------------------------------------------------------- one stream

  function FullTexts(lines: seq<Line>): (r: seq<string>)
    ensures |r| == |lines|
  {
    seq(|lines|, i requires 0 <= i < |lines| => RenderLine(lines[i]))
  }

  predicate FullFits(lines: seq<Line>, limit: nat) { |Join(FullTexts(lines))| <= limit }

  /** The texts the selector returns when it returns. */
  function SelectedTexts(policy: Policy, lines: seq<Line>, limit: nat): seq<string> {
    if FullFits(lines, limit) then FullTexts(lines) else Rendered(lines, Chosen(policy, lines, limit))
  }

  /** The share holds the complete rendering or at least one marker for everything. */
  predicate ShareSuffices(lines: seq<Line>, limit: nat) {
    FullFits(lines, limit) || |Marker(Total(lines, 0))| <= limit
  }

  lemma {:induction false} AloneFrom(lines: seq<Line>, i: nat, from: nat, pending: nat)
    requires from <= i < |lines|
    ensures Total(lines, from) >= Total(lines, i)
    ensures Pieces(lines, {i}, from, pending)
      == Skipped(pending + Total(lines, from) - Total(lines, i)) + [Shown(i)] + Skipped(Total(lines, i + 1))
    decreases i - from
  {
    if from < i {
      AloneFrom(lines, i, from + 1, pending + lines[from].repeated);
    } else {
      NothingAfter(lines, i, i + 1, 0);
    }
  }

  lemma {:induction false} NothingAfter(lines: seq<Line>, i: nat, from: nat, pending: nat)
    requires i < from <= |lines|
    ensures Pieces(lines, {i}, from, pending) == Skipped(pending + Total(lines, from))
    decreases |lines| - from
  {
    if from < |lines| { NothingAfter(lines, i, from + 1, pending + lines[from].repeated); }
  }

  function SkippedWidth(count: nat): nat { if count > 0 then |Marker(count)| + 1 else 0 }

  /** The size of a rendering that shows a single line. */
  lemma AloneSize(lines: seq<Line>, i: nat)
    requires i < |lines|
    ensures Total(lines, 0) >= Total(lines, i)
    ensures Size(lines, {i}) == SkippedWidth(Total(lines, 0) - Total(lines, i)) + |RenderLine(lines[i])|
                                + SkippedWidth(Total(lines, i + 1))
  {
    hide Pieces, Join, RenderLine, Marker, Total;
    AloneFrom(lines, i, 0, 0);
    var before, after := Total(lines, 0) - Total(lines, i), Total(lines, i + 1);
    PiecesInRange(lines, {i}, 0, 0);
    var texts := Rendered(lines, {i});
    var head := if before > 0 then [Marker(before)] else [];
    var tail := if after > 0 then [Marker(after)] else [];
    assert texts == head + [RenderLine(lines[i])] + tail;
    JoinAround(head, RenderLine(lines[i]), tail);
  }

  lemma JoinAround(head: seq<string>, middle: string, tail: seq<string>)
    requires |head| <= 1 && |tail| <= 1
    ensures |Join(head + [middle] + tail)|
      == (if head == [] then 0 else |head[0]| + 1) + |middle| + (if tail == [] then 0 else |tail[0]| + 1)
  {
    if head != [] {
      assert head + [middle] + tail == head + ([middle] + tail);
      JoinLength(head, [middle] + tail);
    } else {
      assert head + [middle] + tail == [middle] + tail;
    }
    if tail != [] {
      JoinLength([middle], tail);
    } else {
      assert [middle] + tail == [middle];
    }
  }

  lemma OneDigit()
    ensures |Decimal(1)| == 1
  {
  }

  lemma MarkersOutgrowTotal(before: nat, repeated: nat, after: nat, shown: nat)
    requires before > 0 || after > 0
    requires repeated >= 1 && shown >= 9 && (repeated > 1 ==> shown >= 9 + |Decimal(repeated)|)
    ensures SkippedWidth(before) + shown + SkippedWidth(after) >= |Marker(before + repeated + after)|
  {
    hide Decimal, Marker;
    var around := before + after;
    assert before + repeated + after == around + repeated;
    OneDigit();
    MarkerLength(around + repeated);
    MarkerLength(before);
    MarkerLength(after);
    DecimalSum(around, repeated);
    DecimalMonotone(1, repeated);
    if before == 0 || after == 0 {
      DecimalMonotone(1, around);
    } else {
      DecimalSum(before, after);
      DecimalMonotone(1, before);
      DecimalMonotone(1, after);
    }
  }

  lemma OnlyLine(lines: seq<Line>, i: nat)
    requires Tiled(lines) && i < |lines| && Total(lines, 0) == Total(lines, i) && Total(lines, i + 1) == 0
    ensures i == 0 && |lines| == 1
  {
    TiledTotal(lines, i + 1);
    TiledTotal(lines, 0);
    TiledTotal(lines, i);
    if i > 0 { TiledOrder(lines, 0, i - 1); }
  }

  /** Showing one line and omitting the rest is never shorter than omitting everything. */
  lemma AloneNotShorter(lines: seq<Line>, i: nat, limit: nat)
    requires Tiled(lines) && i < |lines| && !ShareSuffices(lines, limit)
    ensures Size(lines, {i}) > limit
  {
    hide Size, Marker, RenderLine, Decimal;
    AloneSize(lines, i);
    var before, after := Total(lines, 0) - Total(lines, i), Total(lines, i + 1);
    RenderLineLength(lines[i]);
    if before == 0 && after == 0 {
      OnlyLine(lines, i);
      assert FullTexts(lines) == [RenderLine(lines[0])];
    } else {
      MarkersOutgrowTotal(before, lines[i].repeated, after, |RenderLine(lines[i])|);
    }
  }

  lemma {:induction false} NothingChosen(lines: seq<Line>, order: seq<int>, n: nat, limit: nat)
    requires n <= |order| && forall i: nat :: i < |lines| ==> Size(lines, {i}) > limit
    ensures Attempt(lines, {}, order, n, limit) == {}
  {
    hide Size;
    if n > 0 {
      NothingChosen(lines, order, n - 1, limit);
      if 0 <= order[n - 1] < |lines| {
        var i: nat := order[n - 1];
        assert {} + {i} == {i};
      }
    }
  }

  /** When the lines do not all fit, the final rendering fits exactly when a bare marker does. */
  lemma ChosenFits(policy: Policy, lines: seq<Line>, limit: nat)
    requires Tiled(lines) && !FullFits(lines, limit)
    ensures Size(lines, Chosen(policy, lines, limit)) <= limit <==> |Marker(Total(lines, 0))| <= limit
  {
    hide Size, Tiled, FullFits, Marker, AllDiagnostics, Edges, Around;
    BareMarker(lines, limit);
    if |Marker(Total(lines, 0))| <= limit {
      ChosenGrows(policy, lines, limit);
    } else {
      forall i: nat | i < |lines| ensures Size(lines, {i}) > limit { AloneNotShorter(lines, i, limit); }
      var d, e := AllDiagnostics(policy, lines), Edges(|lines|);
      NothingChosen(lines, d, |d|, limit);
      assert ChosenDiagnostics(policy, lines, limit) == {};
      NothingChosen(lines, Around(d, 1), |Around(d, 1)|, limit);
      assert ChosenContext(policy, lines, limit, 1) == {};
      NothingChosen(lines, Around(d, 2), |Around(d, 2)|, limit);
      assert ChosenContext(policy, lines, limit, 2) == {};
      NothingChosen(lines, e, |e|, limit);
      assert Chosen(policy, lines, limit) == {};
    }
  }

  lemma BareMarker(lines: seq<Line>, limit: nat)
    requires Tiled(lines) && !FullFits(lines, limit)
    ensures Size(lines, {}) == |Marker(Total(lines, 0))|
  {
    assert lines == [] ==> FullTexts(lines) == [];
    NothingSelected(lines, 0, 0);
    PiecesInRange(lines, {}, 0, 0);
    assert Rendered(lines, {}) == [Marker(Total(lines, 0))];
  }

  datatype Selected = Selected(texts: seq<string>, compacted: bool) | SelectorOverflow

  /** `_select_lines`. It raises exactly when neither everything nor a bare marker fits; otherwise its
      rendering fits the limit. */
  method SelectLines(policy: Policy, lines: seq<Line>, limit: nat) returns (r: Selected)
    requires Tiled(lines)
    ensures r.SelectorOverflow? <==> !ShareSuffices(lines, limit)
    ensures r.Selected? ==> r.texts == SelectedTexts(policy, lines, limit) && |Join(r.texts)| <= limit
    ensures r.Selected? ==> r.compacted == !FullFits(lines, limit)
  {
    hide Size, Tiled;
    var full := FullTexts(lines);
    if |Join(full)| <= limit {
      return Selected(full, false);
    }
    var diagnostics := CollectDiagnostics(policy, lines);
    var selected := AddDiagnostics(policy, lines, limit, diagnostics);
    var distance := 1;
    while distance <= CONTEXT_LINES
      invariant 1 <= distance <= CONTEXT_LINES + 1
      invariant selected == if distance == 1 then ChosenDiagnostics(policy, lines, limit)
                            else ChosenContext(policy, lines, limit, distance - 1)
      invariant forall i :: i in selected ==> i < |lines|
    {
      selected := AddContext(lines, limit, diagnostics, distance, selected);
      distance := distance + 1;
    }
    ChosenGrows(policy, lines, limit);
    selected := AddEdges(lines, limit, selected);
    var output := RenderSelected(lines, selected);
    ChosenFits(policy, lines, limit);
    ChosenSize(policy, lines, limit);
    if |Join(output)| > limit {
      return SelectorOverflow;
    }
    r := Selected(output, true);
  }

  lemma ChosenSize(policy: Policy, lines: seq<Line>, limit: nat)
    ensures Size(lines, Chosen(policy, lines, limit)) == |Join(Rendered(lines, Chosen(policy, lines, limit)))|
  {
  }

  // ---------------------------------------------------------------- both streams

  /** The text that is actually compacted: re-serialised JSON where that applies. */
  function Effective(policy: Policy, text: string): string {
    if policy.compactJson(text).Some? then policy.compactJson(text).value else text
  }

  function StreamLines(policy: Policy, text: string): seq<Line> {
    NormalLines(policy, Effective(policy, text))
  }

  /** What is left for the lines of one of `n` streams after separators and its heading. */
  function Share(limit: nat, n: nat): nat
    requires n == 1 || n == 2
  {
    Max(0, Max(0, (limit - n) / n) - 9)
  }

  function StreamCount(stderr: string): nat { if stderr != "" then 2 else 1 }

  /** Every selector call succeeds, and so does the final length check. */
  predicate Renders(policy: Policy, stdout: string, stderr: string, limit: nat) {
    && ShareSuffices(StreamLines(policy, stdout), Share(limit, StreamCount(stderr)))
    && (stderr != "" ==> ShareSuffices(StreamLines(policy, stderr), Share(limit, 2)))
    && limit >= 9
  }

  function StreamTexts(policy: Policy, name: string, text: string, share: nat): seq<string> {
    ["[" + name + "]"] + SelectedTexts(policy, StreamLines(policy, text), share)
  }

  function BodyTexts(policy: Policy, stdout: string, stderr: string, limit: nat): seq<string> {
    StreamTexts(policy, "stdout", stdout, Share(limit, StreamCount(stderr)))
    + if stderr != "" then StreamTexts(policy, "stderr", stderr, Share(limit, 2)) else []
  }

  /** The preview body as a function of the streams. */
  function Body(policy: Policy, stdout: string, stderr: string, limit: nat): string {
    RStrip(Join(BodyTexts(policy, stdout, stderr, limit))) + "\n"
  }

  ghost predicate Compacts(policy: Policy, text: string, share: nat) {
    policy.compactJson(text).Some? || Changed(policy, Effective(policy, text))
    || !FullFits(StreamLines(policy, text), share)
  }

  /** The body differs from the raw streams. */
  ghost predicate BodyCompacts(policy: Policy, stdout: string, stderr: string, limit: nat) {
    || Compacts(policy, stdout, Share(limit, StreamCount(stderr)))
    || (stderr != "" && Compacts(policy, stderr, Share(limit, 2)))
  }

  /** Re-serialisation never turns a text into nothing. */
  ghost predicate JsonNonEmpty(policy: Policy) {
    forall text :: policy.compactJson(text).Some? ==> policy.compactJson(text).value != ""
  }

  lemma HasLines(policy: Policy, text: string)
    requires JsonNonEmpty(policy) && text != ""
    ensures StreamLines(policy, text) != []
  {
    var t := Effective(policy, text);
    NormalLinesTotal(policy, t);
    SplitCount(t);
    SplitLast(t);
  }

  // ---------------------------------------------------------------- lengths of the body

  lemma FullSize(lines: seq<Line>)
    requires lines != []
    ensures |Join(FullTexts(lines))| + 1 >= 10 * |lines|
  {
    hide RenderLine, Join;
    var texts := FullTexts(lines);
    forall i | 0 <= i < |texts| ensures |texts[i]| >= 9 { RenderLineLength(lines[i]); }
    TextsSize(texts);
  }

  lemma NoLinesFit(lines: seq<Line>)
    requires ShareSuffices(lines, 0)
    ensures lines == []
  {
    MarkerLength(Total(lines, 0));
    if lines != [] {
      FullSize(lines);
    }
  }

  lemma StreamLength(name: string, texts: seq<string>)
    ensures |Join(["[" + name + "]"] + texts)| == |name| + 2 + if texts == [] then 0 else 1 + |Join(texts)|
  {
    if texts == [] {
      assert ["[" + name + "]"] + texts == ["[" + name + "]"];
    } else {
      JoinLength(["[" + name + "]"], texts);
    }
  }

  /** A heading and selected lines that fit their share fit the stream's part of the limit. */
  lemma OneStreamFits(texts: seq<string>, limit: nat)
    requires |Join(texts)| <= Share(limit, 1) && limit >= 9 && (Share(limit, 1) == 0 ==> texts == [])
    ensures |Join(["[stdout]"] + texts)| + 1 <= limit
  {
    StreamLength("stdout", texts);
  }

  lemma TwoStreamsFit(a: seq<string>, b: seq<string>, limit: nat)
    requires |Join(a)| <= Share(limit, 2) && |Join(b)| <= Share(limit, 2) && Share(limit, 2) > 0
    ensures |Join((["[stdout]"] + a) + (["[stderr]"] + b))| + 1 <= limit
  {
    StreamLength("stdout", a);
    StreamLength("stderr", b);
    JoinLength(["[stdout]"] + a, ["[stderr]"] + b);
  }

  datatype Compacted = Compacted(text: string, compacted: bool) | RendererOverflow

  /** One stream's part of `_compact_output`. */
  method CompactStream(policy: Policy, name: string, text: string, share: nat)
    returns (ok: bool, texts: seq<string>, compacted: bool)
    ensures ok <==> ShareSuffices(StreamLines(policy, text), share)
    ensures ok ==> texts == StreamTexts(policy, name, text, share)
    ensures ok ==> |Join(SelectedTexts(policy, StreamLines(policy, text), share))| <= share
    ensures ok ==> (compacted <==> Compacts(policy, text, share))
  {
    hide ShareSuffices, SelectedTexts, FullFits, Join;
    var json := policy.compactJson(text);
    var effective := if json.Some? then json.value else text;
    var lines, changed := NormalizeLines(policy, effective);
    NormalLinesTotal(policy, effective);
    var selection := SelectLines(policy, lines, share);
    if selection.SelectorOverflow? {
      return false, [], false;
    }
    ok, texts, compacted := true, ["[" + name + "]"] + selection.texts, json.Some? || changed || selection.compacted;
  }

  /** `_compact_output`. It raises exactly when some stream's share cannot hold a marker (or the limit
      cannot even hold the heading); otherwise the result never exceeds the limit. */
  method CompactOutput(policy: Policy, stdout: string, stderr: string, limit: nat) returns (r: Compacted)
    requires JsonNonEmpty(policy)
    ensures r.Compacted? <==> Renders(policy, stdout, stderr, limit)
    ensures r.Compacted? ==> r.text == Body(policy, stdout, stderr, limit) && |r.text| <= limit
    ensures r.Compacted? ==> (r.compacted <==> BodyCompacts(policy, stdout, stderr, limit))
  {
    hide ShareSuffices, SelectedTexts, FullFits, Join, Compacts, StreamLines;
    var share := Share(limit, StreamCount(stderr));
    var ok, rendered, compacted := CompactStream(policy, "stdout", stdout, share);
    if !ok { return RendererOverflow; }
    if stderr != "" {
      var also, more, compactedToo := CompactStream(policy, "stderr", stderr, share);
      if !also { return RendererOverflow; }
      rendered, compacted := rendered + more, compacted || compactedToo;
    }
    assert rendered == BodyTexts(policy, stdout, stderr, limit);
    var result := RStrip(Join(rendered)) + "\n";
    BodyLength(policy, stdout, stderr, limit);
    if |result| > limit { return RendererOverflow; }
    r := Compacted(result, compacted);
  }

  /** The selector kept its promise for one stream. */
  predicate StreamDone(policy: Policy, text: string, share: nat) {
    && ShareSuffices(StreamLines(policy, text), share)
    && |Join(SelectedTexts(policy, StreamLines(policy, text), share))| <= share
  }

  /** The body fits exactly when the limit holds the first heading, given that the selectors succeeded. */
  lemma BodyLength(policy: Policy, stdout: string, stderr: string, limit: nat)
    requires JsonNonEmpty(policy)
    requires StreamDone(policy, stdout, Share(limit, StreamCount(stderr)))
    requires stderr != "" ==> StreamDone(policy, stderr, Share(limit, 2))
    ensures |Body(policy, stdout, stderr, limit)| <= limit <==> limit >= 9
  {
    hide StreamLines, SelectedTexts, ShareSuffices, Join, RStrip, BodyTexts;
    BodyStarts(policy, stdout, stderr, limit);
    HeadingSurvives(BodyTexts(policy, stdout, stderr, limit));
    if limit >= 9 {
      JoinedLength(policy, stdout, stderr, limit);
    }
  }

  lemma JoinedLength(policy: Policy, stdout: string, stderr: string, limit: nat)
    requires JsonNonEmpty(policy) && limit >= 9
    requires StreamDone(policy, stdout, Share(limit, StreamCount(stderr)))
    requires stderr != "" ==> StreamDone(policy, stderr, Share(limit, 2))
    ensures |Join(BodyTexts(policy, stdout, stderr, limit))| + 1 <= limit
  {
    hide StreamLines, SelectedTexts, ShareSuffices, Join;
    var share := Share(limit, StreamCount(stderr));
    var a := SelectedTexts(policy, StreamLines(policy, stdout), share);
    assert "[" + "stdout" + "]" == "[stdout]" && "[" + "stderr" + "]" == "[stderr]";
    assert StreamTexts(policy, "stdout", stdout, share) == ["[stdout]"] + a;
    if stderr == "" {
      if share == 0 { EmptyShare(policy, stdout); }
      OneStreamFits(a, limit);
      assert BodyTexts(policy, stdout, stderr, limit) == ["[stdout]"] + a;
    } else {
      if share == 0 {
        EmptyShare(policy, stderr);
        HasLines(policy, stderr);
      }
      var b := SelectedTexts(policy, StreamLines(policy, stderr), share);
      TwoStreamsFit(a, b, limit);
      assert BodyTexts(policy, stdout, stderr, limit) == (["[stdout]"] + a) + (["[stderr]"] + b);
    }
  }

  lemma BodyStarts(policy: Policy, stdout: string, stderr: string, limit: nat)
    ensures BodyTexts(policy, stdout, stderr, limit) != []
    ensures BodyTexts(policy, stdout, stderr, limit)[0] == "[stdout]"
  {
    hide SelectedTexts, StreamLines;
  }

  lemma EmptyShare(policy: Policy, text: string)
    requires ShareSuffices(StreamLines(policy, text), 0)
    ensures StreamLines(policy, text) == [] && SelectedTexts(policy, StreamLines(policy, text), 0) == []
  {
    NoLinesFit(StreamLines(policy, text));
    assert FullTexts([]) == [];
  }

  /** The first heading is never stripped, and stripping only shortens. */
  lemma HeadingSurvives(texts: seq<string>)
    requires texts != [] && texts[0] == "[stdout]"
    ensures 8 <= |RStrip(Join(texts))| <= |Join(texts)|
  {
    hide Join;
    JoinStarts(texts);
    var all := Join(texts);
    assert all[7] == all[..8][7] == ']' && !IsSpace(']');
  }

  lemma JoinStarts(texts: seq<string>)
    requires texts != []
    ensures |Join(texts)| >= |texts[0]| && Join(texts)[..|texts[0]|] == texts[0]
  {
  }

  // ---------------------------------------------------------------- when a limit is large enough

  /** The preview bound: if each stream's share holds an omission marker, nothing is raised. */
  lemma MarkerSharesSuffice(policy: Policy, stdout: string, stderr: string, limit: nat)
    requires limit >= 9
    requires |Marker(|Physical(Effective(policy, stdout))|)| <= Share(limit, StreamCount(stderr))
    requires stderr != "" ==> |Marker(|Physical(Effective(policy, stderr))|)| <= Share(limit, 2)
    ensures Renders(policy, stdout, stderr, limit)
  {
    NormalLinesTotal(policy, Effective(policy, stdout));
    NormalLinesTotal(policy, Effective(policy, stderr));
  }

  /** Four lines on stdout and anything on stderr overflow every limit up to 81. */
  lemma SmallLimitOverflows(policy: Policy, stdout: string, stderr: string, limit: nat)
    requires limit <= 81 && stderr != "" && |StreamLines(policy, stdout)| >= 4
    ensures !Renders(policy, stdout, stderr, limit)
  {
    hide StreamLines, Join, Marker, FullTexts;
    var lines := StreamLines(policy, stdout);
    MarkerLength(Total(lines, 0));
    DecimalMonotone(0, Total(lines, 0));
    FullSize(lines);
  }
}
