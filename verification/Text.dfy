/** Decimal formatting, line splitting and joining, and the string order that Python's `sorted` uses.
    Everything the renderers need to speak about lengths and identifiers. */
module Text {

  datatype Option<+T> = None | Some(value: T)

  function Max(a: int, b: int): int { if a >= b then a else b }
  function Min(a: int, b: int): int { if a <= b then a else b }

  // ---------------------------------------------------------------- numbers

  function Digit(d: nat): char
    requires d < 10
  {
    ('0' as int + d) as char
  }

  /** `str(n)` for a natural number. */
  function Decimal(n: nat): string {
    if n < 10 then [Digit(n)] else Decimal(n / 10) + [Digit(n % 10)]
  }

  /** `str(i)` for any integer. */
  function Signed(i: int): string {
    if i < 0 then "-" + Decimal(-i) else Decimal(i)
  }

  function Repeat(c: char, n: nat): string {
    seq(n, _ => c)
  }

  /** `f"{n:0{width}d}"`. */
  function Padded(n: nat, width: nat): string {
    Repeat('0', Max(0, width - |Decimal(n)|)) + Decimal(n)
  }

  predicate IsDigit(c: char) { '0' <= c <= '9' }

  predicate AllDigits(s: string) { forall c :: c in s ==> IsDigit(c) }

  /** Reads a decimal back; the partner of `Decimal` and `Padded`. */
  function ReadDecimal(s: string): nat
    requires AllDigits(s)
  {
    if s == [] then 0
    else assert s[|s| - 1] in s;
         10 * ReadDecimal(s[..|s| - 1]) + (s[|s| - 1] as int - '0' as int)
  }

  lemma {:induction false} DecimalRoundTrip(n: nat)
    ensures |Decimal(n)| >= 1
    ensures AllDigits(Decimal(n)) && ReadDecimal(Decimal(n)) == n
  {
    if n >= 10 {
      DecimalRoundTrip(n / 10);
      assert Decimal(n)[..|Decimal(n)| - 1] == Decimal(n / 10);
    } else {
      assert Decimal(n)[..0] == [];
    }
  }

  lemma {:induction false} ReadDecimalZeros(k: nat, s: string)
    requires AllDigits(s)
    ensures AllDigits(Repeat('0', k) + s) && ReadDecimal(Repeat('0', k) + s) == ReadDecimal(s)
    decreases |s|, k
  {
    var t := Repeat('0', k) + s;
    if s != [] {
      ReadDecimalZeros(k, s[..|s| - 1]);
      assert t[..|t| - 1] == Repeat('0', k) + s[..|s| - 1];
    } else if k > 0 {
      ReadDecimalZeros(k - 1, []);
      assert t[..|t| - 1] == Repeat('0', k - 1) + [];
    }
  }

  lemma PaddedRoundTrip(n: nat, width: nat)
    ensures AllDigits(Padded(n, width)) && ReadDecimal(Padded(n, width)) == n
    ensures |Padded(n, width)| == Max(width, |Decimal(n)|)
  {
    DecimalRoundTrip(n);
    ReadDecimalZeros(Max(0, width - |Decimal(n)|), Decimal(n));
  }

  lemma {:induction false} DecimalMonotone(a: nat, b: nat)
    requires a <= b
    ensures 1 <= |Decimal(a)| <= |Decimal(b)|
  {
    if a >= 10 {
      DecimalMonotone(a / 10, b / 10);
    } else if b >= 10 {
      DecimalMonotone(0, b / 10);
    }
  }

  /** A sum has at most one digit more than its longer summand. */
  lemma {:induction false} DecimalSum(a: nat, b: nat)
    ensures |Decimal(a + b)| <= Max(|Decimal(a)|, |Decimal(b)|) + 1
  {
    var m := Max(a, b);
    DecimalMonotone(a + b, 10 * m + 9);
    if m == 0 {
    } else {
      assert (10 * m + 9) / 10 == m;
      assert |Decimal(10 * m + 9)| == |Decimal(m)| + 1;
    }
  }

  lemma DecimalAtMost(n: nat, k: nat)
    requires (n < 10 && k >= 1) || (n < 100 && k >= 2) || (n < 1000 && k >= 3) || (n < 10000 && k >= 4)
    ensures |Decimal(n)| <= k
  {
    DecimalMonotone(n, if n < 10 then 9 else if n < 100 then 99 else if n < 1000 then 999 else 9999);
    assert |Decimal(9)| == 1;
    assert |Decimal(99)| == 2;
    assert |Decimal(999)| == 3;
    assert |Decimal(9999)| == 4;
  }

  // ---------------------------------------------------------------- identifiers

  predicate IsHexDigit(c: char) { IsDigit(c) || 'a' <= c <= 'f' }

  /** `re.fullmatch(r"[0-9a-f]{32}", s)`. */
  predicate IsRequestId(s: string) {
    |s| == 32 && forall c :: c in s ==> IsHexDigit(c)
  }

  /** `re.fullmatch(r"(?:shell-[0-9]{4}|pred-[0-9a-f]{32})", s)`. */
  predicate IsObservationId(s: string) {
    || (|s| == 10 && s[..6] == "shell-" && AllDigits(s[6..]))
    || (|s| == 37 && s[..5] == "pred-" && IsRequestId(s[5..]))
  }

  /** `f"shell-{n:04d}"`. */
  function ShellId(n: nat): string { "shell-" + Padded(n, 4) }

  /** `f"pred-{request_id}"`. */
  function PredId(request: string): string { "pred-" + request }

  /** Shell observation ids are valid exactly up to 9999. */
  lemma ShellIdValid(n: nat)
    ensures IsObservationId(ShellId(n)) <==> n < 10000
  {
    PaddedRoundTrip(n, 4);
    assert ShellId(n)[..6] == "shell-" && ShellId(n)[6..] == Padded(n, 4);
    if n < 10000 {
      DecimalAtMost(n, 4);
    } else {
      DecimalMonotone(10000, n);
      assert |Decimal(10000)| == 5;
      assert ShellId(n)[0] == 's' && "pred-"[0] == 'p';
    }
  }

  /** A number that is read has no more digits than were read. */
  lemma {:induction false} DigitsBound(s: string)
    requires s != "" && AllDigits(s)
    ensures |Decimal(ReadDecimal(s))| <= |s|
  {
    var t := s[..|s| - 1];
    assert s[|s| - 1] in s;
    if t != "" { DigitsBound(t); }
  }

  lemma OneDigitPads(d: nat, width: nat)
    requires d < 10 && width > 0
    ensures Padded(d, width) == Repeat('0', width - 1) + [Digit(d)]
  {
  }

  lemma DigitPushes(m: nat, d: nat, width: nat)
    requires 0 < m && d < 10 && |Decimal(m)| <= width
    ensures Padded(10 * m + d, width + 1) == Padded(m, width) + [Digit(d)]
  {
    assert (10 * m + d) / 10 == m && (10 * m + d) % 10 == d;
    assert Decimal(10 * m + d) == Decimal(m) + [Digit(d)];
    hide Decimal;
  }

  /** Reading digits and writing them again in the same width gives them back. */
  lemma {:induction false} DigitsRoundTrip(s: string)
    requires s != "" && AllDigits(s)
    ensures Padded(ReadDecimal(s), |s|) == s
  {
    hide Padded, Repeat, Decimal;
    var t, c := s[..|s| - 1], s[|s| - 1];
    assert c in s && s == t + [c];
    var d: nat := c as int - '0' as int;
    assert Digit(d) == c;
    OneDigitPads(d, |s|);
    if t == "" {
      NoZeros();
    } else {
      DigitsRoundTrip(t);
      var m := ReadDecimal(t);
      if m == 0 {
        OneDigitPads(0, |t|);
        ZerosGrow(|t|);
      } else {
        DigitsBound(t);
        DigitPushes(m, d, |t|);
      }
    }
  }

  lemma NoZeros()
    ensures Repeat('0', 0) == ""
  {
  }

  lemma ZerosGrow(n: nat)
    requires n > 0
    ensures Repeat('0', n - 1) + [Digit(0)] == Repeat('0', n)
  {
  }

  /** The ids the patterns accept are exactly those that are generated. */
  lemma IdsAreGenerated(s: string)
    ensures IsRequestId(s) <==> |s| == 32 && forall c :: c in s ==> '0' <= c <= '9' || 'a' <= c <= 'f'
    ensures IsObservationId(s) <==> (exists n: nat :: n < 10000 && s == ShellId(n)) || (exists r :: IsRequestId(r) && s == PredId(r))
  {
    if IsObservationId(s) {
      if |s| == 10 {
        DigitsRoundTrip(s[6..]);
        var n := ReadDecimal(s[6..]);
        assert s == s[..6] + s[6..] == ShellId(n);
        ShellIdValid(n);
      } else {
        assert s == s[..5] + s[5..] == PredId(s[5..]);
      }
    }
    forall n: nat | n < 10000 && s == ShellId(n) ensures IsObservationId(s) { ShellIdValid(n); }
    forall r | IsRequestId(r) && s == PredId(r) ensures IsObservationId(s) { PredIdValid(r); }
  }

  lemma ShellIdInjective(a: nat, b: nat)
    requires ShellId(a) == ShellId(b)
    ensures a == b
  {
    PaddedRoundTrip(a, 4);
    PaddedRoundTrip(b, 4);
    assert ShellId(a)[6..] == Padded(a, 4) && ShellId(b)[6..] == Padded(b, 4);
  }

  lemma PredIdValid(request: string)
    ensures IsObservationId(PredId(request)) <==> IsRequestId(request)
  {
    assert PredId(request)[..5] == "pred-" && PredId(request)[5..] == request;
    assert PredId(request)[0] == 'p' && "shell-"[0] == 's';
  }

  lemma PredIdInjective(a: string, b: string)
    requires PredId(a) == PredId(b)
    ensures a == b
  {
    assert PredId(a)[5..] == a && PredId(b)[5..] == b;
  }

  lemma ShellIsNotPred(n: nat, request: string)
    ensures ShellId(n) != PredId(request)
  {
    assert ShellId(n)[0] == 's' && PredId(request)[0] == 'p';
  }

  // ---------------------------------------------------------------- lines

  /** `text.split("\n")`. */
  function Split(text: string): seq<string> {
    if text == "" then [""]
    else if text[0] == '\n' then [""] + Split(text[1..])
    else var rest := Split(text[1..]);
         if rest == [] then [] else [[text[0]] + rest[0]] + rest[1..]
  }

  lemma {:induction false} SplitNonEmpty(text: string)
    ensures |Split(text)| >= 1
  {
    if text != "" { SplitNonEmpty(text[1..]); }
  }

  /** `"\n".join(lines)`. */
  function Join(lines: seq<string>): string {
    if lines == [] then ""
    else if |lines| == 1 then lines[0]
    else lines[0] + "\n" + Join(lines[1..])
  }

  lemma {:induction false} JoinConcat(a: seq<string>, b: seq<string>)
    requires a != [] && b != []
    ensures Join(a + b) == Join(a) + "\n" + Join(b)
  {
    if |a| == 1 {
      assert (a + b)[1..] == b;
    } else {
      JoinConcat(a[1..], b);
      assert (a + b)[1..] == a[1..] + b;
    }
  }

  lemma JoinLength(a: seq<string>, b: seq<string>)
    requires a != [] && b != []
    ensures |Join(a + b)| == |Join(a)| + 1 + |Join(b)|
  {
    JoinConcat(a, b);
  }

  /** Splitting loses nothing: joining gives the text back. */
  lemma {:induction false} SplitJoin(text: string)
    ensures |Split(text)| >= 1 && Join(Split(text)) == text
  {
    if text != "" {
      SplitJoin(text[1..]);
      var rest := Split(text[1..]);
      assert text == [text[0]] + text[1..];
      if text[0] == '\n' {
        assert ([""] + rest)[1..] == rest;
      } else {
        JoinPrepend(text[0], rest);
      }
    }
  }

  lemma JoinPrepend(c: char, lines: seq<string>)
    requires lines != []
    ensures Join([[c] + lines[0]] + lines[1..]) == [c] + Join(lines)
  {
    assert ([[c] + lines[0]] + lines[1..])[1..] == lines[1..];
  }

  /** `text.count("\n")`. */
  function Newlines(text: string): nat {
    if text == "" then 0
    else Newlines(text[..|text| - 1]) + if text[|text| - 1] == '\n' then 1 else 0
  }

  lemma {:induction false} NewlinesAppend(a: string, b: string)
    ensures Newlines(a + b) == Newlines(a) + Newlines(b)
  {
    if b == "" {
      assert a + b == a;
    } else {
      var t := a + b;
      assert t[..|t| - 1] == a + b[..|b| - 1];
      NewlinesAppend(a, b[..|b| - 1]);
    }
  }

  /** No piece of a split text has a newline in it. */
  lemma {:induction false} SplitPieces(text: string)
    ensures |Split(text)| >= 1 && forall piece :: piece in Split(text) ==> '\n' !in piece
  {
    if text != "" { SplitPieces(text[1..]); }
  }

  predicate EndsNewline(text: string) { text != "" && text[|text| - 1] == '\n' }

  /** Every newline is one split point. */
  lemma {:induction false} SplitCount(text: string)
    ensures |Split(text)| == Newlines(text) + 1
  {
    if text != "" {
      SplitCount(text[1..]);
      NewlinesAppend([text[0]], text[1..]);
      assert [text[0]] + text[1..] == text;
      assert [text[0]][..0] == "";
    }
  }

  lemma {:induction false} SplitLast(text: string)
    ensures |Split(text)| >= 1
    ensures Split(text)[|Split(text)| - 1] == "" <==> text == "" || EndsNewline(text)
  {
    if text != "" {
      SplitLast(text[1..]);
      SplitCount(text[1..]);
    }
  }

  /** The characters Python's `str.rstrip()` removes. */
  predicate IsSpace(c: char) {
    ('\t' <= c <= '\r') || ('\U{1C}' <= c <= ' ') || c == '\U{85}' || c == '\U{A0}' || c == '\U{1680}'
    || ('\U{2000}' <= c <= '\U{200A}') || c == '\U{2028}' || c == '\U{2029}' || c == '\U{202F}'
    || c == '\U{205F}' || c == '\U{3000}'
  }

  /** `text.rstrip()`. */
  function RStrip(text: string): (r: string)
    ensures r <= text
    ensures r == "" || !IsSpace(r[|r| - 1])
    ensures forall i :: |r| <= i < |text| ==> IsSpace(text[i])
  {
    if text == "" || !IsSpace(text[|text| - 1]) then text else RStrip(text[..|text| - 1])
  }

  // ---------------------------------------------------------------- string order

  /** Lexicographic `<=` by code point. */
  predicate LexLe(a: string, b: string) {
    a == "" || (b != "" && (a[0] < b[0] || (a[0] == b[0] && LexLe(a[1..], b[1..]))))
  }

  lemma {:induction false} LexTotal(a: string, b: string)
    ensures LexLe(a, b) || LexLe(b, a)
  {
    if a != "" && b != "" && a[0] == b[0] { LexTotal(a[1..], b[1..]); }
  }

  lemma {:induction false} LexAntisymmetric(a: string, b: string)
    requires LexLe(a, b) && LexLe(b, a)
    ensures a == b
  {
    if a != "" && b != "" {
      LexAntisymmetric(a[1..], b[1..]);
      assert a == [a[0]] + a[1..] && b == [b[0]] + b[1..];
    }
  }

  lemma {:induction false} LexTransitive(a: string, b: string, c: string)
    requires LexLe(a, b) && LexLe(b, c)
    ensures LexLe(a, c)
  {
    if a != "" && b != "" && c != "" && a[0] == b[0] == c[0] {
      LexTransitive(a[1..], b[1..], c[1..]);
    }
  }
}
