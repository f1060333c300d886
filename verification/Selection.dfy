/** Rendering a selection of normalised lines: the shown lines in order, with a marker for each run of lines
    left out. */
module Selection {
  import opened Text
  import opened Lines

  // ---------------------------------------------------------------- one line, one marker

  /** `_render_line`. */
  function RenderLine(line: Line): string {
    "[L" + Padded(line.number, 5) + "] " + Shorten(line.text) + RepeatSuffix(line)
  }

  function Shorten(text: string): string {
    if |text| > 600
    then text[..300] + " ... " + Decimal(|text| - 600) + " chars omitted ... " + text[|text| - 300..]
    else text
  }

  function RepeatSuffix(line: Line): string {
    if line.repeated > 1
    then " (repeated " + Decimal(line.repeated) + " times; original lines "
         + Decimal(line.number) + "-" + Decimal(line.endNumber) + ")"
    else ""
  }

  function Marker(count: nat): string {
    "... " + Decimal(count) + " original lines omitted ..."
  }

  lemma MarkerLength(count: nat)
    ensures |Marker(count)| == 31 + |Decimal(count)|
  {
  }

  lemma RenderLineLength(line: Line)
    ensures |RenderLine(line)| >= 9
    ensures line.repeated > 1 ==> |RenderLine(line)| >= 9 + |Decimal(line.repeated)|
  {
    PaddedRoundTrip(line.number, 5);
  }

  // ---------------------------------------------------------------- the reference rendering

  datatype Piece = Shown(index: nat) | Omitted(count: nat)

  /** Walks the lines once, counting what is skipped: `pending` original lines wait for a marker. */
  function Pieces(lines: seq<Line>, selected: set<nat>, from: nat, pending: nat): seq<Piece>
    requires from <= |lines|
    decreases |lines| - from
  {
    if from == |lines| then Skipped(pending)
    else if from in selected then Skipped(pending) + [Shown(from)] + Pieces(lines, selected, from + 1, 0)
    else Pieces(lines, selected, from + 1, pending + lines[from].repeated)
  }

  function Skipped(pending: nat): seq<Piece> {
    if pending > 0 then [Omitted(pending)] else []
  }

  predicate InRange(lines: seq<Line>, pieces: seq<Piece>) {
    forall p :: p in pieces && p.Shown? ==> p.index < |lines|
  }

  function PieceText(lines: seq<Line>, p: Piece): string
    requires p.Shown? ==> p.index < |lines|
  {
    match p
    case Shown(i) => RenderLine(lines[i])
    case Omitted(n) => Marker(n)
  }

  function Texts(lines: seq<Line>, pieces: seq<Piece>): (r: seq<string>)
    requires InRange(lines, pieces)
    ensures |r| == |pieces|
  {
    seq(|pieces|, i requires 0 <= i < |pieces| => assert pieces[i] in pieces; PieceText(lines, pieces[i]))
  }

  function Rendered(lines: seq<Line>, selected: set<nat>): seq<string> {
    PiecesInRange(lines, selected, 0, 0);
    Texts(lines, Pieces(lines, selected, 0, 0))
  }

  lemma {:induction false} PiecesInRange(lines: seq<Line>, selected: set<nat>, from: nat, pending: nat)
    requires from <= |lines|
    ensures InRange(lines, Pieces(lines, selected, from, pending))
    decreases |lines| - from
  {
    if from < |lines| {
      PiecesInRange(lines, selected, from + 1, 0);
      PiecesInRange(lines, selected, from + 1, pending + lines[from].repeated);
    }
  }

  // ---------------------------------------------------------------- conservation

  /** How many original lines a piece accounts for. */
  function Accounts(lines: seq<Line>, p: Piece): nat {
    match p
    case Shown(i) => if i < |lines| then lines[i].repeated else 0
    case Omitted(n) => n
  }

  function Accounted(lines: seq<Line>, pieces: seq<Piece>): nat {
    if pieces == [] then 0 else Accounts(lines, pieces[0]) + Accounted(lines, pieces[1..])
  }

  lemma {:induction false} AccountedConcat(lines: seq<Line>, a: seq<Piece>, b: seq<Piece>)
    ensures Accounted(lines, a + b) == Accounted(lines, a) + Accounted(lines, b)
  {
    if a == [] {
      assert a + b == b;
    } else {
      AccountedConcat(lines, a[1..], b);
      assert (a + b)[1..] == a[1..] + b;
    }
  }

  /** Line conservation: whatever is selected, shown lines and markers together account for every
      original line, every marker counts at least one line, and exactly the selected lines are shown. */
  lemma {:induction false} Conservation(lines: seq<Line>, selected: set<nat>, from: nat, pending: nat)
    requires from <= |lines|
    ensures Accounted(lines, Pieces(lines, selected, from, pending)) == pending + Total(lines, from)
    ensures forall p :: p in Pieces(lines, selected, from, pending) && p.Omitted? ==> p.count >= 1
    ensures forall i: nat :: Shown(i) in Pieces(lines, selected, from, pending) <==> from <= i < |lines| && i in selected
    decreases |lines| - from
  {
    var pieces := Pieces(lines, selected, from, pending);
    if from == |lines| {
      AccountedSkipped(lines, pending);
    } else if from in selected {
      var rest := Pieces(lines, selected, from + 1, 0);
      Conservation(lines, selected, from + 1, 0);
      AccountedSkipped(lines, pending);
      AccountedConcat(lines, Skipped(pending) + [Shown(from)], rest);
      AccountedConcat(lines, Skipped(pending), [Shown(from)]);
      assert [Shown(from)][1..] == [];
    } else {
      Conservation(lines, selected, from + 1, pending + lines[from].repeated);
    }
  }

  lemma AccountedSkipped(lines: seq<Line>, pending: nat)
    ensures Accounted(lines, Skipped(pending)) == pending
  {
    if pending > 0 {
      assert [Omitted(pending)][1..] == [];
    }
  }

  /** Conservation for a whole rendering of a normalised text. */
  lemma RenderingConserves(lines: seq<Line>, cleaned: seq<string>, selected: set<nat>)
    requires Normalizes(lines, cleaned, |cleaned|)
    ensures Accounted(lines, Pieces(lines, selected, 0, 0)) == |cleaned|
    ensures forall p :: p in Pieces(lines, selected, 0, 0) && p.Omitted? ==> p.count >= 1
    ensures forall i: nat :: Shown(i) in Pieces(lines, selected, 0, 0) <==> i < |lines| && i in selected
  {
    Conservation(lines, selected, 0, 0);
    NormalizeRoundTrip(lines, cleaned);
  }

  // ---------------------------------------------------------------- rendering by line numbers

  /** Original lines between the line rendered last (or the start) and index `i`. */
  function Gap(lines: seq<Line>, previous: int, i: nat): int
    requires -1 <= previous < |lines| && i <= |lines|
  {
    (if i < |lines| then lines[i].number - 1 else LastNumber(lines))
    - (if previous < 0 then 0 else lines[previous].endNumber)
  }

  lemma GapStep(lines: seq<Line>, previous: int, i: nat)
    requires Tiled(lines) && -1 <= previous < i < |lines|
    ensures Gap(lines, previous, i + 1) == Gap(lines, previous, i) + lines[i].repeated
    ensures Gap(lines, i, i + 1) == 0
  {
    if i + 1 < |lines| { assert lines[i + 1].number == lines[i].endNumber + 1; }
  }

  lemma TextsPush(lines: seq<Line>, pieces: seq<Piece>, p: Piece)
    requires InRange(lines, pieces) && (p.Shown? ==> p.index < |lines|)
    ensures InRange(lines, pieces + [p])
    ensures Texts(lines, pieces + [p]) == Texts(lines, pieces) + [PieceText(lines, p)]
  {
  }

  /** Emits the marker for a gap, if there is one. */
  method EmitMarker(lines: seq<Line>, output: seq<string>, ghost done: seq<Piece>, gap: nat)
    returns (r: seq<string>)
    requires InRange(lines, done) && output == Texts(lines, done)
    ensures InRange(lines, done + Skipped(gap)) && r == Texts(lines, done + Skipped(gap))
  {
    r := output;
    if gap > 0 {
      r := output + [Marker(gap)];
      TextsPush(lines, done, Omitted(gap));
    } else {
      assert done + [] == done;
    }
  }

  lemma AssociativePieces(a: seq<Piece>, b: seq<Piece>, c: seq<Piece>, d: seq<Piece>)
    ensures a + (b + c + d) == (a + b + c) + d
  {
  }

  /** The loop state of `RenderSelected`: what is rendered so far plus what is still to come. */
  ghost predicate Rendering(lines: seq<Line>, selected: set<nat>, output: seq<string>, done: seq<Piece>,
                            previous: int, index: nat) {
    && -1 <= previous < index <= |lines|
    && InRange(lines, done) && output == Texts(lines, done)
    && Gap(lines, previous, index) >= 0
    && (previous + 1 < index <==> Gap(lines, previous, index) > 0)
    && done + Pieces(lines, selected, index, Gap(lines, previous, index)) == Pieces(lines, selected, 0, 0)
  }

  lemma SkipLine(lines: seq<Line>, selected: set<nat>, output: seq<string>, done: seq<Piece>, previous: int, index: nat)
    requires Tiled(lines) && Rendering(lines, selected, output, done, previous, index)
    requires index < |lines| && index !in selected
    ensures Rendering(lines, selected, output, done, previous, index + 1)
  {
    GapStep(lines, previous, index);
  }

  lemma ShowLine(lines: seq<Line>, selected: set<nat>, output: seq<string>, done: seq<Piece>, previous: int,
                 index: nat, r: seq<string>)
    requires Tiled(lines) && Rendering(lines, selected, output, done, previous, index)
    requires index < |lines| && index in selected
    requires InRange(lines, done + Skipped(Gap(lines, previous, index)))
    requires r == Texts(lines, done + Skipped(Gap(lines, previous, index)))
    ensures Rendering(lines, selected, r + [RenderLine(lines[index])],
                      done + Skipped(Gap(lines, previous, index)) + [Shown(index)], index, index + 1)
  {
    GapStep(lines, previous, index);
    var gap := Gap(lines, previous, index);
    TextsPush(lines, done + Skipped(gap), Shown(index));
    AssociativePieces(done, Skipped(gap), [Shown(index)], Pieces(lines, selected, index + 1, 0));
  }

  /** The body of the loop for a selected index. */
  method RenderOne(lines: seq<Line>, ghost selected: set<nat>, output: seq<string>, ghost done: seq<Piece>,
                   previous: int, index: nat) returns (r: seq<string>, ghost next: seq<Piece>)
    requires Tiled(lines) && Rendering(lines, selected, output, done, previous, index)
    requires index < |lines| && index in selected
    ensures Rendering(lines, selected, r, next, index, index + 1)
  {
    ghost var gap := Gap(lines, previous, index);
    r := output;
    if previous == -1 && lines[index].number > 1 {
      r := EmitMarker(lines, output, done, lines[index].number - 1);
    } else if previous >= 0 && index > previous + 1 {
      r := EmitMarker(lines, output, done, lines[index].number - lines[previous].endNumber - 1);
    } else {
      assert done + Skipped(gap) == done;
    }
    ShowLine(lines, selected, output, done, previous, index, r);
    r := r + [RenderLine(lines[index])];
    next := done + Skipped(gap) + [Shown(index)];
  }

  lemma {:induction false} NothingSelected(lines: seq<Line>, from: nat, pending: nat)
    requires from <= |lines|
    ensures Pieces(lines, {}, from, pending) == Skipped(pending + Total(lines, from))
    decreases |lines| - from
  {
    if from < |lines| { NothingSelected(lines, from + 1, pending + lines[from].repeated); }
  }

  lemma StartRendering(lines: seq<Line>, selected: set<nat>)
    requires Tiled(lines) && lines != []
    ensures Rendering(lines, selected, [], [], -1, 0)
  {
    assert [] + Pieces(lines, selected, 0, 0) == Pieces(lines, selected, 0, 0);
  }

  /** What follows the last shown line. */
  method RenderTail(lines: seq<Line>, ghost selected: set<nat>, output: seq<string>, ghost done: seq<Piece>, previous: nat)
    returns (r: seq<string>)
    requires Tiled(lines) && Rendering(lines, selected, output, done, previous, |lines|)
    ensures r == Rendered(lines, selected)
  {
    PiecesInRange(lines, selected, 0, 0);
    r := output;
    if lines[previous].endNumber < lines[|lines| - 1].endNumber {
      r := EmitMarker(lines, output, done, lines[|lines| - 1].endNumber - lines[previous].endNumber);
    } else {
      assert done + [] == done;
    }
  }

  /** `_render_selected`, which works with line numbers: visiting the selected indices in ascending
      order yields the reference rendering. */
  method RenderSelected(lines: seq<Line>, selected: set<nat>) returns (output: seq<string>)
    requires Tiled(lines) && forall i :: i in selected ==> i < |lines|
    ensures output == Rendered(lines, selected)
  {
    if selected == {} {
      PiecesInRange(lines, selected, 0, 0);
      NothingSelected(lines, 0, 0);
      return if lines != [] then [Marker(Total(lines, 0))] else [];
    }
    hide Tiled, Rendering;
    ghost var i :| i in selected;
    ghost var done: seq<Piece> := [];
    var previous, index := -1, 0;
    output := [];
    StartRendering(lines, selected);
    while index < |lines|
      invariant -1 <= previous && index <= |lines|
      invariant Rendering(lines, selected, output, done, previous, index)
      invariant previous == -1 ==> forall i :: i in selected ==> i >= index
    {
      if index in selected {
        output, done := RenderOne(lines, selected, output, done, previous, index);
        previous := index;
      } else {
        SkipLine(lines, selected, output, done, previous, index);
      }
      index := index + 1;
    }
    assert i < |lines|;
    output := RenderTail(lines, selected, output, done, previous);
  }
}
