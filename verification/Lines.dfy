/** Run-length normalisation of the lines of one output stream: every line is cleaned, and equal neighbours
    are merged into one line with a range of line numbers. */
module Lines {
  import opened Text

  /** The parts of the policy that are pattern matching on one line: control-sequence removal, the
      diagnostic test, and JSON re-serialisation of a whole stream. */
  datatype Policy = Policy(strip: string -> string, diagnostic: string -> bool, compactJson: string -> Option<string>)

  datatype Line = Line(number: nat, endNumber: nat, text: string, repeated: nat)

  // ---------------------------------------------------------------- physical and cleaned lines

  /** The text after the last carriage return. */
  function AfterReturn(raw: string): string {
    if raw == "" then ""
    else if raw[|raw| - 1] == '\r' then ""
    else if '\r' in raw[..|raw| - 1] then AfterReturn(raw[..|raw| - 1]) + [raw[|raw| - 1]]
    else raw
  }

  /** The lines of a text; a final empty piece is not a line. */
  function Physical(text: string): seq<string> {
    SplitNonEmpty(text);
    var pieces := Split(text);
    if pieces[|pieces| - 1] == "" then pieces[..|pieces| - 1] else pieces
  }

  function Clean(policy: Policy, raw: string): string {
    policy.strip(AfterReturn(raw))
  }

  function CleanAll(policy: Policy, raw: seq<string>): (r: seq<string>)
    ensures |r| == |raw|
  {
    seq(|raw|, i requires 0 <= i < |raw| => Clean(policy, raw[i]))
  }

  predicate Altered(policy: Policy, raw: string) {
    '\r' in raw || Clean(policy, raw) != AfterReturn(raw)
  }

  /** The lines of a text have no newline in them, and joined they are the text, but for its last newline. */
  lemma PhysicalExact(text: string)
    ensures forall line :: line in Physical(text) ==> '\n' !in line
    ensures text == "" ==> Physical(text) == []
    ensures text != "" ==> text == Join(Physical(text)) + if EndsNewline(text) then "\n" else ""
  {
    SplitJoin(text);
    SplitLast(text);
    SplitPieces(text);
    var pieces := Split(text);
    var n := |pieces| - 1;
    assert pieces == pieces[..n] + [pieces[n]];
    if text != "" && EndsNewline(text) {
      SplitCount(text);
      assert n > 0;
      JoinConcat(pieces[..n], [pieces[n]]);
    }
  }

  /** What a carriage return leaves of a line is all that follows the last one. */
  lemma {:induction false} AfterReturnExact(raw: string)
    ensures '\r' !in AfterReturn(raw) && |AfterReturn(raw)| <= |raw|
    ensures raw[|raw| - |AfterReturn(raw)|..] == AfterReturn(raw)
    ensures '\r' in raw ==> |AfterReturn(raw)| < |raw| && raw[|raw| - |AfterReturn(raw)| - 1] == '\r'
    ensures '\r' !in raw ==> AfterReturn(raw) == raw
  {
    if raw != "" && raw[|raw| - 1] != '\r' {
      var front := raw[..|raw| - 1];
      assert raw == front + [raw[|raw| - 1]];
      if '\r' in front { AfterReturnExact(front); }
    }
  }

  // ---------------------------------------------------------------- normalised lines

  /** The line ranges tile 1..N without gap or overlap, and `repeated` is the width of the range. */
  ghost predicate Tiled(lines: seq<Line>) {
    && (forall i :: 0 <= i < |lines| ==>
          lines[i].repeated >= 1 && lines[i].endNumber == lines[i].number + lines[i].repeated - 1)
    && (lines != [] ==> lines[0].number == 1)
    && (forall i, j :: 0 <= i < j < |lines| && j == i + 1 ==> lines[j].number == lines[i].endNumber + 1)
  }

  function LastNumber(lines: seq<Line>): nat {
    if lines == [] then 0 else lines[|lines| - 1].endNumber
  }

  ghost predicate NeighboursDiffer(lines: seq<Line>) {
    forall i, j :: 0 <= i < j < |lines| && j == i + 1 ==> lines[i].text != lines[j].text
  }

  /** Every original line number lies in the range of a line with its text. */
  ghost predicate Covers(lines: seq<Line>, cleaned: seq<string>) {
    forall i, k :: 0 <= i < |lines| && 0 <= k < |cleaned| && lines[i].number <= k + 1 <= lines[i].endNumber ==>
      cleaned[k] == lines[i].text
  }

  /** `lines` is the run-length form of the first `n` cleaned lines. */
  ghost predicate Normalizes(lines: seq<Line>, cleaned: seq<string>, n: nat) {
    n <= |cleaned| && Tiled(lines) && NeighboursDiffer(lines) && LastNumber(lines) == n && Covers(lines, cleaned)
  }

  /** The first `n` lines, each repeated as often as it says. */
  function Expand(lines: seq<Line>, n: nat): seq<string>
    requires n <= |lines|
  {
    if n == 0 then [] else Expand(lines, n - 1) + seq(lines[n - 1].repeated, _ => lines[n - 1].text)
  }

  /** How many original lines the lines from index `from` on stand for. */
  function Total(lines: seq<Line>, from: nat): nat
    requires from <= |lines|
    decreases |lines| - from
  {
    if from == |lines| then 0 else lines[from].repeated + Total(lines, from + 1)
  }

  lemma {:induction false} TiledTotal(lines: seq<Line>, from: nat)
    requires Tiled(lines) && from <= |lines|
    ensures Total(lines, from) == LastNumber(lines) - if from == 0 then 0 else lines[from - 1].endNumber
    decreases |lines| - from
  {
    if from < |lines| { TiledTotal(lines, from + 1); }
  }

  lemma {:induction false} TiledOrder(lines: seq<Line>, i: nat, j: nat)
    requires Tiled(lines) && i <= j < |lines|
    ensures lines[i].endNumber <= lines[j].endNumber && lines[i].number <= lines[j].number
  {
    if i < j { TiledOrder(lines, i, j - 1); }
  }

  lemma {:induction false} ExpandPrefix(lines: seq<Line>, cleaned: seq<string>, n: nat)
    requires Normalizes(lines, cleaned, |cleaned|) && n <= |lines|
    ensures |Expand(lines, n)| == if n == 0 then 0 else lines[n - 1].endNumber
    ensures |Expand(lines, n)| <= |cleaned|
    ensures Expand(lines, n) == cleaned[..|Expand(lines, n)|]
  {
    if n > 0 {
      ExpandPrefix(lines, cleaned, n - 1);
      var last := lines[n - 1];
      TiledOrder(lines, n - 1, |lines| - 1);
      var before, all := Expand(lines, n - 1), Expand(lines, n);
      forall k | 0 <= k < |all| ensures k < |cleaned| && all[k] == cleaned[k] {
        if k >= |before| { assert last.number <= k + 1 <= last.endNumber; }
      }
    }
  }

  /** Normalisation loses nothing: expanding every line by its count gives the cleaned lines back. */
  lemma NormalizeRoundTrip(lines: seq<Line>, cleaned: seq<string>)
    requires Normalizes(lines, cleaned, |cleaned|)
    ensures Expand(lines, |lines|) == cleaned
    ensures Total(lines, 0) == |cleaned|
  {
    ExpandPrefix(lines, cleaned, |lines|);
    TiledTotal(lines, 0);
    assert cleaned[..|cleaned|] == cleaned;
  }

  /** A normalised run ends no later than the same run of another normalised form. */
  lemma RunEnds(a: seq<Line>, b: seq<Line>, cleaned: seq<string>, i: nat)
    requires Normalizes(a, cleaned, |cleaned|) && Normalizes(b, cleaned, |cleaned|)
    requires i < |a| && i < |b| && a[i].number == b[i].number
    ensures a[i].text == b[i].text && b[i].endNumber <= a[i].endNumber
  {
    TiledOrder(a, 0, i);
    TiledOrder(a, i, |a| - 1);
    TiledOrder(b, i, |b| - 1);
    assert cleaned[a[i].number - 1] == a[i].text;
    assert cleaned[b[i].number - 1] == b[i].text;
    if i + 1 < |a| {
      TiledOrder(a, i + 1, |a| - 1);
      assert cleaned[a[i].endNumber] == a[i + 1].text;
    }
  }

  lemma {:induction false} SamePrefix(a: seq<Line>, b: seq<Line>, cleaned: seq<string>, n: nat)
    requires Normalizes(a, cleaned, |cleaned|) && Normalizes(b, cleaned, |cleaned|)
    requires n <= |a| && n <= |b|
    ensures forall i :: 0 <= i < n ==> a[i] == b[i]
  {
    if n > 0 {
      SamePrefix(a, b, cleaned, n - 1);
      if n > 1 { assert a[n - 2] == b[n - 2]; }
      RunEnds(a, b, cleaned, n - 1);
      RunEnds(b, a, cleaned, n - 1);
    }
  }

  /** Normalisation is determined: one cleaned text has one normalised form. */
  lemma NormalFormUnique(a: seq<Line>, b: seq<Line>, cleaned: seq<string>)
    requires Normalizes(a, cleaned, |cleaned|) && Normalizes(b, cleaned, |cleaned|)
    ensures a == b
  {
    var n := Min(|a|, |b|);
    SamePrefix(a, b, cleaned, n);
    if n < |a| {
      TiledOrder(a, n, |a| - 1);
    } else if n < |b| {
      TiledOrder(b, n, |b| - 1);
    }
  }

  lemma EmptyNormalizes(cleaned: seq<string>)
    ensures Normalizes([], cleaned, 0)
  {
  }

  /** One physical line added at the end of a normalised list. */
  function Extend(lines: seq<Line>, number: nat, clean: string): seq<Line> {
    if lines != [] && lines[|lines| - 1].text == clean then
      lines[|lines| - 1 := Line(lines[|lines| - 1].number, number, clean, lines[|lines| - 1].repeated + 1)]
    else lines + [Line(number, number, clean, 1)]
  }

  lemma ExtendTiles(lines: seq<Line>, n: nat, clean: string)
    requires Tiled(lines) && NeighboursDiffer(lines) && LastNumber(lines) == n
    ensures Tiled(Extend(lines, n + 1, clean)) && NeighboursDiffer(Extend(lines, n + 1, clean))
    ensures LastNumber(Extend(lines, n + 1, clean)) == n + 1
  {
  }

  lemma ExtendNormalizes(lines: seq<Line>, cleaned: seq<string>, n: nat)
    requires n < |cleaned| && Normalizes(lines, cleaned, n)
    ensures Normalizes(Extend(lines, n + 1, cleaned[n]), cleaned, n + 1)
  {
    var r := Extend(lines, n + 1, cleaned[n]);
    ExtendTiles(lines, n, cleaned[n]);
    hide Tiled, NeighboursDiffer;
    forall i, k | 0 <= i < |r| && 0 <= k < |cleaned| && r[i].number <= k + 1 <= r[i].endNumber
      ensures cleaned[k] == r[i].text
    {
      if i < |r| - 1 || (|r| == |lines| && k < n) {
        assert r[i].text == lines[i].text;
      }
    }
  }

  /** The list update of one loop round; `merged` says that the line repeated its predecessor. */
  method Append(lines: seq<Line>, number: nat, clean: string) returns (r: seq<Line>, merged: bool)
    ensures r == Extend(lines, number, clean)
    ensures |r| == |lines| + if merged then 0 else 1
  {
    merged := lines != [] && lines[|lines| - 1].text == clean;
    if merged {
      var previous := lines[|lines| - 1];
      r := lines[|lines| - 1 := Line(previous.number, number, clean, previous.repeated + 1)];
    } else {
      r := lines + [Line(number, number, clean, 1)];
    }
  }

  lemma NoReturn(raw: string)
    requires '\r' !in raw
    ensures AfterReturn(raw) == raw
  {
  }

  /** Cleans one physical line and says whether that altered it. */
  method CleanLine(policy: Policy, raw: string) returns (clean: string, altered: bool)
    ensures clean == Clean(policy, raw) && altered == Altered(policy, raw)
  {
    var text := raw;
    if '\r' in raw {
      text := AfterReturn(raw);
    } else {
      NoReturn(raw);
    }
    clean := policy.strip(text);
    altered := '\r' in raw || clean != text;
  }

  /** One round of the loop below. */
  method NormalizeOne(policy: Policy, raw: string, number: nat, lines: seq<Line>, ghost cleaned: seq<string>)
    returns (grown: seq<Line>, noted: bool)
    requires 1 <= number <= |cleaned| && cleaned[number - 1] == Clean(policy, raw)
    requires Normalizes(lines, cleaned, number - 1)
    ensures Normalizes(grown, cleaned, number)
    ensures |lines| <= |grown| <= |lines| + 1 && noted == (Altered(policy, raw) || |grown| == |lines|)
  {
    hide Normalizes, Extend, Clean, Altered;
    var clean, altered := CleanLine(policy, raw);
    ExtendNormalizes(lines, cleaned, number - 1);
    var merged;
    grown, merged := Append(lines, number, clean);
    noted := altered || merged;
  }

  /** `_normalize_lines`: number, clean and run-length encode the lines of one stream. It reports a
      change exactly when some line was altered or merged into its predecessor. */
  method NormalizeLines(policy: Policy, text: string) returns (lines: seq<Line>, changed: bool)
    ensures Normalizes(lines, CleanAll(policy, Physical(text)), |Physical(text)|)
    ensures lines == NormalLines(policy, text)
    ensures changed <==> Changed(policy, text)
  {
    hide Clean, Altered, RunLengths, Tiled, NeighboursDiffer, Covers;
    var physical := Split(text);
    ghost var wanted := Physical(text);
    ghost var cleaned := CleanAll(policy, wanted);
    SplitNonEmpty(text);
    EmptyNormalizes(cleaned);
    lines, changed := [], false;
    var i := 0;
    while i < |physical|
      invariant 0 <= i <= |wanted| && |lines| <= i
      invariant Normalizes(lines, cleaned, i)
      invariant changed <==> |lines| < i || exists j :: 0 <= j < i && Altered(policy, wanted[j])
    {
      var number, raw := i + 1, physical[i];
      if number == |physical| && raw == "" { break; }
      assert wanted[i] == raw;
      var grown, noted := NormalizeOne(policy, raw, number, lines, cleaned);
      changed := changed || noted;
      lines := grown;
      i := i + 1;
    }
    NormalFormUnique(lines, NormalLines(policy, text), cleaned);
  }

  /** The normal form as a function of the cleaned lines. */
  function RunLengths(cleaned: seq<string>, n: nat): seq<Line>
    requires n <= |cleaned|
  {
    if n == 0 then [] else Extend(RunLengths(cleaned, n - 1), n, cleaned[n - 1])
  }

  lemma {:induction false} RunLengthsNormalize(cleaned: seq<string>, n: nat)
    requires n <= |cleaned|
    ensures Normalizes(RunLengths(cleaned, n), cleaned, n)
  {
    hide Normalizes, Extend;
    if n == 0 {
      EmptyNormalizes(cleaned);
    } else {
      RunLengthsNormalize(cleaned, n - 1);
      ExtendNormalizes(RunLengths(cleaned, n - 1), cleaned, n - 1);
    }
  }

  /** The normalised lines of a text. */
  function NormalLines(policy: Policy, text: string): (lines: seq<Line>)
    ensures Normalizes(lines, CleanAll(policy, Physical(text)), |Physical(text)|)
  {
    RunLengthsNormalize(CleanAll(policy, Physical(text)), |Physical(text)|);
    RunLengths(CleanAll(policy, Physical(text)), |Physical(text)|)
  }

  lemma NormalLinesTotal(policy: Policy, text: string)
    ensures Tiled(NormalLines(policy, text))
    ensures Total(NormalLines(policy, text), 0) == |Physical(text)|
    ensures NormalLines(policy, text) == [] <==> Physical(text) == []
  {
    NormalizeRoundTrip(NormalLines(policy, text), CleanAll(policy, Physical(text)));
  }

  /** Whether normalising the text drops or alters anything. */
  ghost predicate Changed(policy: Policy, text: string) {
    |NormalLines(policy, text)| < |Physical(text)|
    || exists i :: 0 <= i < |Physical(text)| && Altered(policy, Physical(text)[i])
  }
}
