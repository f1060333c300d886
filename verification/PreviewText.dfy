/** What a preview says to its reader: every entry can be read back, the entries account for the whole output in order,
    and the body of the preview is nothing but these entries under their headings. */
module PreviewText {
  import opened Text
  import opened Lines
  import opened Selection
  import opened Greedy
  import opened Preview
  import opened Observations

  // ---------------------------------------------------------------- reading a number

  /** The digits a text starts with. */
  function LeadingDigits(s: string): (r: string)
    ensures r <= s && AllDigits(r)
  {
    if s == "" || !IsDigit(s[0]) then "" else [s[0]] + LeadingDigits(s[1..])
  }

  /** The number a text starts with. */
  function NumberAt(s: string): nat { ReadDecimal(LeadingDigits(s)) }

  /** What follows the number a text starts with. */
  function AfterNumber(s: string): string { s[|LeadingDigits(s)|..] }

  lemma {:induction false} LeadingDigitsOf(digits: string, rest: string)
    requires AllDigits(digits) && (rest == "" || !IsDigit(rest[0]))
    ensures LeadingDigits(digits + rest) == digits
  {
    if digits == "" {
      assert digits + rest == rest;
    } else {
      LeadingDigitsOf(digits[1..], rest);
      assert (digits + rest)[1..] == digits[1..] + rest;
      assert (digits + rest)[0] == digits[0] && digits[0] in digits;
      assert digits == [digits[0]] + digits[1..];
    }
  }

  lemma NumberReads(digits: string, rest: string)
    requires AllDigits(digits) && (rest == "" || !IsDigit(rest[0]))
    ensures NumberAt(digits + rest) == ReadDecimal(digits) && AfterNumber(digits + rest) == rest
  {
    LeadingDigitsOf(digits, rest);
  }

  lemma DecimalReads(n: nat, rest: string)
    requires rest == "" || !IsDigit(rest[0])
    ensures NumberAt(Decimal(n) + rest) == n && AfterNumber(Decimal(n) + rest) == rest
  {
    DecimalRoundTrip(n);
    NumberReads(Decimal(n), rest);
  }

  /** `s` is `prefix` and then the rest. */
  function Behind(s: string, prefix: string): Option<string> {
    if prefix <= s then Some(s[|prefix|..]) else None
  }

  lemma BehindPrefix(prefix: string, rest: string)
    ensures Behind(prefix + rest, prefix) == Some(rest)
  {
  }

  // ---------------------------------------------------------------- reading an entry

  /** A marker that reads as this count. */
  predicate MarksOmitted(entry: string, count: nat) {
    var rest := Behind(entry, "... ");
    rest.Some? && NumberAt(rest.value) == count && AfterNumber(rest.value) == " original lines omitted ..."
  }

  /** How often the line occurred, and where, if it occurred more than once. */
  predicate TellsRepeat(s: string, line: Line) {
    if line.repeated <= 1 then s == ""
    else
      var a := Behind(s, " (repeated ");
      && a.Some? && NumberAt(a.value) == line.repeated
      && var b := Behind(AfterNumber(a.value), " times; original lines ");
         && b.Some? && NumberAt(b.value) == line.number
         && var c := Behind(AfterNumber(b.value), "-");
            c.Some? && NumberAt(c.value) == line.endNumber && AfterNumber(c.value) == ")"
  }

  /** The whole text of the line if it has at most 600 characters; else its first and its last 300, and how many are
      left out between them. */
  predicate TellsText(s: string, line: Line) {
    if |line.text| <= 600 then
      var rest := Behind(s, line.text);
      rest.Some? && TellsRepeat(rest.value, line)
    else
      var a := Behind(s, line.text[..300] + " ... ");
      && a.Some? && NumberAt(a.value) == |line.text| - 600
      && var b := Behind(AfterNumber(a.value), " chars omitted ... " + line.text[|line.text| - 300..]);
         b.Some? && TellsRepeat(b.value, line)
  }

  /** An entry that reads as this line: its number, its text, its repetitions. */
  predicate ShowsLine(entry: string, line: Line) {
    var a := Behind(entry, "[L");
    && a.Some? && NumberAt(a.value) == line.number && |LeadingDigits(a.value)| >= 5
    && var b := Behind(AfterNumber(a.value), "] ");
       b.Some? && TellsText(b.value, line)
  }

  lemma MarkerReads(count: nat)
    ensures MarksOmitted(Marker(count), count)
  {
    var rest := Decimal(count) + " original lines omitted ...";
    assert Marker(count) == "... " + rest;
    BehindPrefix("... ", rest);
    DecimalReads(count, " original lines omitted ...");
  }

  lemma RepeatReads(line: Line)
    ensures TellsRepeat(RepeatSuffix(line), line)
  {
    if line.repeated > 1 {
      var d := Decimal(line.endNumber) + ")";
      var c := Decimal(line.number) + ("-" + d);
      var b := Decimal(line.repeated) + (" times; original lines " + c);
      assert RepeatSuffix(line) == " (repeated " + b;
      BehindPrefix(" (repeated ", b);
      DecimalReads(line.repeated, " times; original lines " + c);
      BehindPrefix(" times; original lines ", c);
      DecimalReads(line.number, "-" + d);
      BehindPrefix("-", d);
      DecimalReads(line.endNumber, ")");
    }
  }

  lemma TextReads(line: Line)
    ensures TellsText(Shorten(line.text) + RepeatSuffix(line), line)
  {
    hide TellsRepeat, RepeatSuffix, Decimal;
    RepeatReads(line);
    var text, suffix := line.text, RepeatSuffix(line);
    if |text| <= 600 {
      BehindPrefix(text, suffix);
    } else {
      var tail := " chars omitted ... " + text[|text| - 300..];
      var b := tail + suffix;
      var a := Decimal(|text| - 600) + b;
      assert Shorten(text) + suffix == (text[..300] + " ... ") + a;
      BehindPrefix(text[..300] + " ... ", a);
      assert b[0] == ' ';
      DecimalReads(|text| - 600, b);
      BehindPrefix(tail, suffix);
    }
  }

  lemma LineReads(line: Line)
    ensures ShowsLine(RenderLine(line), line)
  {
    hide TellsText, Shorten, RepeatSuffix, Padded;
    TextReads(line);
    PaddedRoundTrip(line.number, 5);
    var b := Shorten(line.text) + RepeatSuffix(line);
    var a := Padded(line.number, 5) + ("] " + b);
    assert RenderLine(line) == "[L" + a;
    BehindPrefix("[L", a);
    NumberReads(Padded(line.number, 5), "] " + b);
    LeadingDigitsOf(Padded(line.number, 5), "] " + b);
    BehindPrefix("] ", b);
  }

  // ---------------------------------------------------------------- the entries of one stream

  /** Walking over the pieces from original line `at` on: a shown line is the next one, a marker skips as many as it
      says, and the walk ends at original line `end`. */
  predicate Walks(lines: seq<Line>, pieces: seq<Piece>, at: nat, end: nat)
    decreases |pieces|
  {
    if pieces == [] then at == end
    else match pieces[0]
      case Shown(i) => i < |lines| && lines[i].number == at + 1 && Walks(lines, pieces[1..], lines[i].endNumber, end)
      case Omitted(n) => n >= 1 && Walks(lines, pieces[1..], at + n, end)
  }

  lemma WalkShows(lines: seq<Line>, i: nat, rest: seq<Piece>, at: nat, end: nat)
    requires i < |lines| && lines[i].number == at + 1 && Walks(lines, rest, lines[i].endNumber, end)
    ensures Walks(lines, [Shown(i)] + rest, at, end)
  {
    assert ([Shown(i)] + rest)[1..] == rest;
  }

  lemma WalkSkips(lines: seq<Line>, n: nat, rest: seq<Piece>, at: nat, end: nat)
    requires Walks(lines, rest, at + n, end)
    ensures Walks(lines, Skipped(n) + rest, at, end)
  {
    if n > 0 {
      assert ([Omitted(n)] + rest)[1..] == rest;
    } else {
      assert [] + rest == rest;
    }
  }

  lemma WalkEnds(lines: seq<Line>, at: nat)
    ensures Walks(lines, [], at, at)
  {
  }

  lemma {:induction false} PiecesWalk(lines: seq<Line>, selected: set<nat>, from: nat, pending: nat, at: nat)
    requires Tiled(lines) && from <= |lines| && at + pending == (if from == 0 then 0 else lines[from - 1].endNumber)
    ensures Walks(lines, Pieces(lines, selected, from, pending), at, LastNumber(lines))
    decreases |lines| - from
  {
    hide Walks, Skipped;
    if from == |lines| {
      WalkEnds(lines, at + pending);
      WalkSkips(lines, pending, [], at, at + pending);
      assert Skipped(pending) + [] == Skipped(pending);
    } else if from in selected {
      PiecesWalk(lines, selected, from + 1, 0, lines[from].endNumber);
      var rest := Pieces(lines, selected, from + 1, 0);
      WalkShows(lines, from, rest, at + pending, LastNumber(lines));
      WalkSkips(lines, pending, [Shown(from)] + rest, at, LastNumber(lines));
      assert Skipped(pending) + [Shown(from)] + rest == Skipped(pending) + ([Shown(from)] + rest);
    } else {
      PiecesWalk(lines, selected, from + 1, pending + lines[from].repeated, at);
    }
  }

  /** Everything, shown. */
  function All(n: nat): seq<Piece> { seq(n, i requires 0 <= i < n => Shown(i)) }

  lemma {:induction false} AllWalk(lines: seq<Line>, from: nat)
    requires Tiled(lines) && from <= |lines|
    ensures Walks(lines, All(|lines|)[from..], if from == 0 then 0 else lines[from - 1].endNumber, LastNumber(lines))
    decreases |lines| - from
  {
    if from < |lines| {
      AllWalk(lines, from + 1);
      assert All(|lines|)[from..][1..] == All(|lines|)[from + 1..];
    }
  }

  /** The pieces behind the texts of one stream. */
  function SelectedPieces(policy: Policy, lines: seq<Line>, limit: nat): seq<Piece> {
    if FullFits(lines, limit) then All(|lines|) else Pieces(lines, Chosen(policy, lines, limit), 0, 0)
  }

  /** The entry reads as its piece. */
  predicate EntryReads(entry: string, lines: seq<Line>, piece: Piece) {
    match piece
    case Shown(i) => i < |lines| && ShowsLine(entry, lines[i])
    case Omitted(n) => MarksOmitted(entry, n)
  }

  /** The entries of a stream read as pieces that walk over its whole output, line by line; all lines are shown if
      they fit, and the chosen ones if not. */
  predicate Listing(entries: seq<string>, policy: Policy, lines: seq<Line>, limit: nat) {
    var pieces := SelectedPieces(policy, lines, limit);
    && |entries| == |pieces| && Walks(lines, pieces, 0, LastNumber(lines))
    && (forall k :: 0 <= k < |entries| ==> EntryReads(entries[k], lines, pieces[k]))
  }

  lemma SelectedTextsRead(policy: Policy, lines: seq<Line>, limit: nat)
    requires Tiled(lines)
    ensures Listing(SelectedTexts(policy, lines, limit), policy, lines, limit)
    ensures forall i: nat :: Shown(i) in SelectedPieces(policy, lines, limit) <==>
      i < |lines| && (FullFits(lines, limit) || i in Chosen(policy, lines, limit))
  {
    hide Tiled, ShowsLine, MarksOmitted, RenderLine, Marker, FullFits, Chosen, Walks;
    var pieces, entries := SelectedPieces(policy, lines, limit), SelectedTexts(policy, lines, limit);
    if FullFits(lines, limit) {
      AllWalk(lines, 0);
      assert All(|lines|)[0..] == All(|lines|);
      forall i: nat | i < |lines| ensures pieces[i] == Shown(i) {
      }
      forall k | 0 <= k < |entries| ensures EntryReads(entries[k], lines, pieces[k]) { LineReads(lines[k]); }
    } else {
      var chosen := Chosen(policy, lines, limit);
      PiecesWalk(lines, chosen, 0, 0, 0);
      Conservation(lines, chosen, 0, 0);
      PiecesInRange(lines, chosen, 0, 0);
      forall k | 0 <= k < |entries| ensures EntryReads(entries[k], lines, pieces[k]) {
        assert pieces[k] in pieces;
        match pieces[k] {
          case Shown(i) => LineReads(lines[i]);
          case Omitted(n) => MarkerReads(n);
        }
      }
    }
  }

  // ---------------------------------------------------------------- the whole body

  /** One entry a line. */
  function Listed(entries: seq<string>): string {
    if entries == [] then "" else "\n" + entries[0] + Listed(entries[1..])
  }

  lemma {:induction false} JoinListed(heading: string, entries: seq<string>)
    ensures Join([heading] + entries) == heading + Listed(entries)
    decreases |entries|
  {
    if entries == [] {
      assert [heading] + entries == [heading];
    } else {
      JoinListed(entries[0], entries[1..]);
      assert ([heading] + entries)[1..] == entries && entries == [entries[0]] + entries[1..];
    }
  }

  /** The preview before its end is trimmed: the output stream under its heading, then, if anything was written to
      it, the error stream under its own. */
  function Sheet(out: seq<string>, err: Option<seq<string>>): string {
    "[stdout]" + Listed(out) + if err.Some? then "\n[stderr]" + Listed(err.value) else ""
  }

  predicate Blank(c: char) { c == ' ' || c == '\n' || c == '\t' || c == '\r' }

  /** `body` is the sheet without the white space at its end, and one newline. */
  predicate Trims(body: string, sheet: string) {
    var n := |body| - 1;
    && n >= 8 && body[n] == '\n' && !Blank(body[n - 1]) && body[..n] <= sheet
    && forall i :: n <= i < |sheet| ==> IsSpace(sheet[i])
  }

  lemma RStripTrims(sheet: string)
    requires |RStrip(sheet)| >= 8
    ensures Trims(RStrip(sheet) + "\n", sheet)
  {
    assert (RStrip(sheet) + "\n")[..|RStrip(sheet)|] == RStrip(sheet);
  }

  /** Any preview body can be read. It is the sheet of the two listings, up to white space at its end, which is
      replaced by one newline. */
  lemma BodyReads(policy: Policy, stdout: string, stderr: string, limit: nat)
    returns (out: seq<string>, err: Option<seq<string>>)
    ensures Listing(out, policy, StreamLines(policy, stdout), Share(limit, if stderr == "" then 1 else 2))
    ensures err.Some? <==> stderr != ""
    ensures err.Some? ==> Listing(err.value, policy, StreamLines(policy, stderr), Share(limit, 2))
    ensures Trims(Body(policy, stdout, stderr, limit), Sheet(out, err))
  {
    hide Tiled, SelectedTexts, Listing, StreamLines, Share, Listed, Join, BodyTexts, Trims, RStrip, Sheet;
    StreamTiled(policy, stdout);
    StreamTiled(policy, stderr);
    SelectedTextsRead(policy, StreamLines(policy, stdout), Share(limit, StreamCount(stderr)));
    SelectedTextsRead(policy, StreamLines(policy, stderr), Share(limit, 2));
    out := SelectedTexts(policy, StreamLines(policy, stdout), Share(limit, StreamCount(stderr)));
    err := if stderr != "" then Some(SelectedTexts(policy, StreamLines(policy, stderr), Share(limit, 2))) else None;
    SheetJoins(policy, stdout, stderr, limit, out, err);
    BodyStarts(policy, stdout, stderr, limit);
    HeadingSurvives(BodyTexts(policy, stdout, stderr, limit));
    RStripTrims(Sheet(out, err));
  }

  lemma SheetJoins(policy: Policy, stdout: string, stderr: string, limit: nat, out: seq<string>, err: Option<seq<string>>)
    requires out == SelectedTexts(policy, StreamLines(policy, stdout), Share(limit, StreamCount(stderr)))
    requires err == if stderr != "" then Some(SelectedTexts(policy, StreamLines(policy, stderr), Share(limit, 2))) else None
    ensures Join(BodyTexts(policy, stdout, stderr, limit)) == Sheet(out, err)
  {
    hide SelectedTexts, StreamLines, Share, Listed, Join;
    assert "[" + "stdout" + "]" == "[stdout]" && "[" + "stderr" + "]" == "[stderr]";
    JoinListed("[stdout]", out);
    if err.Some? {
      JoinListed("[stderr]", err.value);
      JoinConcat(["[stdout]"] + out, ["[stderr]"] + err.value);
    } else {
      assert BodyTexts(policy, stdout, stderr, limit) == ["[stdout]"] + out;
    }
  }

  /** The text of a stream, re-serialised if it is JSON that can be. */
  function Source(policy: Policy, text: string): string {
    match policy.compactJson(text)
    case Some(json) => json
    case None => text
  }

  /** And the text that a line shows is what the stream had there, cleaned: on each of the original lines the entry
      stands for, without control sequences and up to its last carriage return. */
  lemma ShownTextIsTheOutputs(policy: Policy, text: string, i: nat, number: nat)
    requires i < |StreamLines(policy, text)|
    requires StreamLines(policy, text)[i].number <= number <= StreamLines(policy, text)[i].endNumber
    ensures 1 <= number <= |Physical(Source(policy, text))|
    ensures StreamLines(policy, text)[i].text == policy.strip(AfterReturn(Physical(Source(policy, text))[number - 1]))
  {
    hide Physical, NormalLines;
    assert Source(policy, text) == Effective(policy, text);
    var lines, cleaned := StreamLines(policy, text), CleanAll(policy, Physical(Effective(policy, text)));
    assert Normalizes(lines, cleaned, |cleaned|);
    TiledOrder(lines, 0, i);
    TiledOrder(lines, i, |lines| - 1);
    assert cleaned[number - 1] == lines[i].text;
  }

  /** Nothing is done to the lines: no carriage return, no control sequence, and no line like the one before it. */
  ghost predicate Untouched(policy: Policy, physical: seq<string>) {
    && (forall k :: 0 <= k < |physical| ==> '\r' !in physical[k] && policy.strip(physical[k]) == physical[k])
    && (forall j, k :: 0 <= j < k < |physical| && k == j + 1 ==> physical[j] != physical[k])
  }

  /** A stream counts as not compacted exactly if it is no JSON, its lines are left as they are, and all of them fit;
      and then its entries are those very lines, one each. */
  lemma NotCompactedIsVerbatim(policy: Policy, text: string, share: nat)
    ensures !Compacts(policy, text, share) <==>
      policy.compactJson(text).None? && Untouched(policy, Physical(text)) && FullFits(StreamLines(policy, text), share)
    ensures !Compacts(policy, text, share) ==>
      && |StreamLines(policy, text)| == |Physical(text)|
      && forall i :: 0 <= i < |Physical(text)| ==> StreamLines(policy, text)[i] == Line(i + 1, i + 1, Physical(text)[i], 1)
  {
    hide FullFits, Physical, NormalLines, Changed, Untouched;
    if policy.compactJson(text).None? { ChangedExactly(policy, text); }
  }

  /** And a preview counts as not compacted exactly if that holds of every stream it shows. */
  lemma BodyIsVerbatim(policy: Policy, stdout: string, stderr: string, limit: nat)
    ensures var n := if stderr == "" then 1 else 2;
      !BodyCompacts(policy, stdout, stderr, limit) <==>
        && policy.compactJson(stdout).None? && Untouched(policy, Physical(stdout)) && FullFits(StreamLines(policy, stdout), Share(limit, n))
        && (stderr != "" ==>
              && policy.compactJson(stderr).None? && Untouched(policy, Physical(stderr))
              && FullFits(StreamLines(policy, stderr), Share(limit, n)))
  {
    hide Compacts, FullFits, Untouched, Physical, StreamLines;
    NotCompactedIsVerbatim(policy, stdout, Share(limit, StreamCount(stderr)));
    NotCompactedIsVerbatim(policy, stderr, Share(limit, 2));
  }

  lemma ChangedExactly(policy: Policy, text: string)
    ensures !Changed(policy, text) <==> Untouched(policy, Physical(text))
    ensures !Changed(policy, text) ==>
      && |NormalLines(policy, text)| == |Physical(text)|
      && forall i :: 0 <= i < |Physical(text)| ==> NormalLines(policy, text)[i] == Line(i + 1, i + 1, Physical(text)[i], 1)
  {
    hide Physical, NormalLines, Normalizes, AfterReturn, Clean;
    var lines, physical := NormalLines(policy, text), Physical(text);
    if forall k :: 0 <= k < |physical| ==> !Altered(policy, physical[k]) {
      CleanIsSame(policy, physical);
      UnchangedLines(lines, physical);
    } else {
      var k :| 0 <= k < |physical| && Altered(policy, physical[k]);
      AlteredTouches(policy, physical[k]);
    }
  }

  lemma AlteredTouches(policy: Policy, raw: string)
    requires Altered(policy, raw)
    ensures '\r' in raw || policy.strip(raw) != raw
  {
    AfterReturnExact(raw);
  }

  lemma CleanIsSame(policy: Policy, physical: seq<string>)
    requires forall k :: 0 <= k < |physical| ==> !Altered(policy, physical[k])
    ensures CleanAll(policy, physical) == physical
    ensures forall k :: 0 <= k < |physical| ==> '\r' !in physical[k] && policy.strip(physical[k]) == physical[k]
  {
    forall k | 0 <= k < |physical|
      ensures Clean(policy, physical[k]) == physical[k] == policy.strip(physical[k]) && '\r' !in physical[k]
    {
      AfterReturnExact(physical[k]);
    }
  }

  /** Each line ends behind the one before it. */
  lemma {:induction false} Spread(lines: seq<Line>, i: nat, j: nat)
    requires Tiled(lines) && i <= j < |lines|
    ensures lines[i].endNumber >= 1 && lines[j].endNumber >= lines[i].endNumber + j - i
  {
    TiledOrder(lines, 0, i);
    if i < j { Spread(lines, i, j - 1); }
  }

  lemma {:induction false} OnesEnd(lines: seq<Line>, i: nat)
    requires Tiled(lines) && i < |lines| && forall k :: 0 <= k < |lines| ==> lines[k].repeated == 1
    ensures lines[i].endNumber == i + 1
  {
    assert lines[i].repeated == 1 && lines[i].endNumber == lines[i].number;
    if i > 0 {
      OnesEnd(lines, i - 1);
      assert lines[i].number == lines[i - 1].endNumber + 1;
    }
  }

  lemma SingleLine(lines: seq<Line>, i: nat)
    requires Tiled(lines) && i < |lines| == LastNumber(lines)
    ensures lines[i].number == lines[i].endNumber == i + 1 && lines[i].repeated == 1
  {
    Spread(lines, 0, i);
    Spread(lines, i, |lines| - 1);
    if i > 0 {
      Spread(lines, 0, i - 1);
      Spread(lines, i - 1, |lines| - 1);
    }
  }

  /** As many lines as there were, or no equal neighbours: either means that every line stands for itself. */
  lemma UnchangedLines(lines: seq<Line>, physical: seq<string>)
    requires Normalizes(lines, physical, |physical|)
    ensures |lines| >= |physical| <==> forall j, k :: 0 <= j < k < |physical| && k == j + 1 ==> physical[j] != physical[k]
    ensures |lines| >= |physical| ==>
      |lines| == |physical| && forall i :: 0 <= i < |physical| ==> lines[i] == Line(i + 1, i + 1, physical[i], 1)
  {
    if lines != [] { Spread(lines, 0, |lines| - 1); }
    if |lines| >= |physical| {
      forall i | 0 <= i < |physical| ensures lines[i] == Line(i + 1, i + 1, physical[i], 1) {
        hide Tiled, NeighboursDiffer;
        SingleLine(lines, i);
        assert physical[i] == lines[i].text;
      }
    } else if forall k :: 0 <= k < |lines| ==> lines[k].repeated == 1 {
      if lines != [] { OnesEnd(lines, |lines| - 1); }
    } else {
      var i :| 0 <= i < |lines| && lines[i].repeated != 1;
      TiledOrder(lines, 0, i);
      TiledOrder(lines, i, |lines| - 1);
      assert physical[lines[i].number - 1] == lines[i].text == physical[lines[i].number];
    }
  }

  lemma StreamTiled(policy: Policy, text: string)
    ensures Tiled(StreamLines(policy, text))
  {
    NormalLinesTotal(policy, Effective(policy, text));
  }

  /** Each of `n` streams gets as many characters as an equal share allows, besides its heading and separators. */
  lemma ShareIsLargest(limit: nat, n: nat)
    requires n == 1 || n == 2
    ensures limit >= 10 * n ==> n * (Share(limit, n) + 10) <= limit < n * (Share(limit, n) + 11)
    ensures limit < 10 * n ==> Share(limit, n) == 0
  {
  }

  // ---------------------------------------------------------------- the header

  /** The same for a number that may be negative. */
  function SignedAt(s: string): int { if "-" <= s then 0 - NumberAt(s[1..]) as int else NumberAt(s) }

  function AfterSigned(s: string): string { if "-" <= s then AfterNumber(s[1..]) else AfterNumber(s) }

  lemma NegativeReads(n: nat, rest: string)
    requires rest == "" || !IsDigit(rest[0])
    ensures SignedAt("-" + Decimal(n) + rest) == 0 - n as int && AfterSigned("-" + Decimal(n) + rest) == rest
  {
    hide Decimal, NumberAt, AfterNumber;
    DecimalReads(n, rest);
    var s := "-" + Decimal(n) + rest;
    assert s[0] == '-' && s[1..] == Decimal(n) + rest;
  }

  lemma NaturalReads(n: nat, rest: string)
    requires rest == "" || !IsDigit(rest[0])
    ensures SignedAt(Decimal(n) + rest) == n && AfterSigned(Decimal(n) + rest) == rest
  {
    hide Decimal, NumberAt, AfterNumber, ReadDecimal;
    DecimalReads(n, rest);
    DecimalRoundTrip(n);
    var s := Decimal(n) + rest;
    assert s[0] == Decimal(n)[0] && Decimal(n)[0] in Decimal(n);
    assert IsDigit(s[0]) && !IsDigit('-');
  }

  lemma SignedReads(i: int, rest: string)
    requires rest == "" || !IsDigit(rest[0])
    ensures SignedAt(Signed(i) + rest) == i && AfterSigned(Signed(i) + rest) == rest
  {
    hide Decimal, SignedAt, AfterSigned;
    if i < 0 { NegativeReads(-i, rest); } else { NaturalReads(i, rest); }
  }

  /** The header of a preview tells its reader which observation it is, how the command ended, where its log is, how
      much it wrote, and whether the log has all of it. */
  predicate HeaderTells(header: string, id: string, code: int, timedOut: bool, chars: nat, lines: nat, truncated: bool) {
    var a := Behind(header, "[observation ");
    a.Some? &&
    var b := Behind(a.value, id);
    b.Some? &&
    var c := Behind(b.value, "] returncode=");
    c.Some? && SignedAt(c.value) == code &&
    var d := Behind(AfterSigned(c.value), " timed_out=");
    d.Some? &&
    var e := Behind(d.value, if timedOut then "true" else "false");
    e.Some? &&
    var f := Behind(e.value, "\n");
    f.Some? && LogLineTells(f.value, id, chars, lines, truncated)
  }

  predicate LogLineTells(s: string, id: string, chars: nat, lines: nat, truncated: bool) {
    var a := Behind(s, "[raw log: ");
    a.Some? &&
    var b := Behind(a.value, "../observations/" + id + ".log");
    b.Some? &&
    var c := Behind(b.value, "; original=");
    c.Some? && NumberAt(c.value) == chars &&
    var d := Behind(AfterNumber(c.value), " chars/");
    d.Some? && NumberAt(d.value) == lines &&
    var e := Behind(AfterNumber(d.value), " lines; archive=");
    e.Some? && e.value == (if truncated then "truncated" else "complete") + "]\n"
  }

  lemma Shift(x: string, y: string, z: string)
    ensures (x + y) + z == x + (y + z)
  {
  }

  lemma EightParts(a: string, b: string, c: string, d: string, e: string, f: string, g: string, h: string)
    ensures a + b + c + d + e + f + g + h == a + (b + (c + (d + (e + (f + (g + h))))))
  {
    var s2, s3, s4, s5 := a + b, a + b + c, a + b + c + d, a + b + c + d + e;
    Shift(s5 + f, g, h);
    Shift(s5, f, g + h);
    Shift(s4, e, f + (g + h));
    Shift(s3, d, e + (f + (g + h)));
    Shift(s2, c, d + (e + (f + (g + h))));
    Shift(a, b, c + (d + (e + (f + (g + h)))));
  }

  lemma SixteenParts(a: string, b: string, c: string, d: string, e: string, f: string, g: string, h: string,
                     i: string, j: string, k: string, l: string, m: string, n: string, o: string, p: string)
    ensures a + b + c + d + e + f + g + h + i + j + k + l + m + n + o + p
      == a + (b + (c + (d + (e + (f + (g + (h + (i + (j + (k + (l + (m + (n + (o + p))))))))))))))
  {
    var first := a + b + c + d + e + f + g;
    var rest := i + (j + (k + (l + (m + (n + (o + p))))));
    EightParts(first + h, i, j, k, l, m, n, o + p);
    Shift(first + h + i + j + k + l + m + n, o, p);
    Shift(first, h, rest);
    EightParts(a, b, c, d, e, f, g, h + rest);
  }

  lemma HeaderReads(id: string, code: int, timedOut: bool, chars: nat, lines: nat, truncated: bool)
    ensures HeaderTells(Header(id, code, timedOut, chars, lines, truncated), id, code, timedOut, chars, lines, truncated)
  {
    hide Decimal, Signed, SignedAt, AfterSigned, LogLineTells;
    var word := if truncated then "truncated" else "complete";
    var path := "../observations/" + id + ".log";
    SixteenParts("[observation ", id, "] returncode=", Signed(code), " timed_out=", Flag(timedOut), "\n", "[raw log: ", path,
                 "; original=", Decimal(chars), " chars/", Decimal(lines), " lines; archive=", word, "]\n");
    var log := "[raw log: " + (path + ("; original=" + (Decimal(chars) + (" chars/" + (Decimal(lines) + (" lines; archive=" + (word + "]\n")))))));
    LogLineReads(id, chars, lines, truncated, log);
    var f := "\n" + log;
    var e := Flag(timedOut) + f;
    var d := " timed_out=" + e;
    SignedReads(code, d);
    BehindPrefix("[observation ", id + ("] returncode=" + (Signed(code) + d)));
    BehindPrefix(id, "] returncode=" + (Signed(code) + d));
    BehindPrefix("] returncode=", Signed(code) + d);
    BehindPrefix(" timed_out=", e);
    BehindPrefix(Flag(timedOut), f);
    BehindPrefix("\n", log);
  }

  lemma LogLineReads(id: string, chars: nat, lines: nat, truncated: bool, log: string)
    requires log == "[raw log: " + (("../observations/" + id + ".log") + ("; original=" + (Decimal(chars) + (" chars/"
      + (Decimal(lines) + (" lines; archive=" + ((if truncated then "truncated" else "complete") + "]\n")))))))
    ensures LogLineTells(log, id, chars, lines, truncated)
  {
    hide Decimal, NumberAt, AfterNumber;
    var path, word := "../observations/" + id + ".log", (if truncated then "truncated" else "complete") + "]\n";
    var e := " lines; archive=" + word;
    var d := " chars/" + (Decimal(lines) + e);
    var c := "; original=" + (Decimal(chars) + d);
    BehindPrefix("[raw log: ", path + c);
    BehindPrefix(path, c);
    BehindPrefix("; original=", Decimal(chars) + d);
    DecimalReads(chars, d);
    BehindPrefix(" chars/", Decimal(lines) + e);
    DecimalReads(lines, e);
    BehindPrefix(" lines; archive=", word);
  }
}
