/** Bounded capture of a child's output: chunks are kept as a head list and a tail list, and the
    result must not depend on how the pipe happened to cut the stream into chunks. */
module Capture {
  import opened Text

  // ---------------------------------------------------------------- the reference: functions of the whole stream

  /** The last `n` characters. */
  function LastChars(s: string, n: nat): string {
    s[|s| - Min(n, |s|)..]
  }

  function FirstChars(s: string, n: nat): string {
    s[..Min(n, |s|)]
  }

  /** What remains after the head part. */
  function Rest(stream: string, headLimit: nat): string {
    stream[Min(headLimit, |stream|)..]
  }

  /** First `headLimit` characters, then the last `tailLimit` of what follows them. */
  function Retained(stream: string, headLimit: nat, tailLimit: nat): string {
    FirstChars(stream, headLimit) + LastChars(Rest(stream, headLimit), tailLimit)
  }

  /** Lines as the splitter sees them; a final empty piece is not a line. */
  function LineCount(stream: string): nat {
    SplitNonEmpty(stream);
    |Split(stream)| - if Split(stream)[|Split(stream)| - 1] == "" then 1 else 0
  }

  lemma LineCountFromCounters(stream: string)
    ensures LineCount(stream) == Newlines(stream) + if stream != "" && !EndsNewline(stream) then 1 else 0
  {
    SplitCount(stream);
    SplitLast(stream);
  }

  function OmittedMarker(n: nat): string {
    "\n... bounded archive: " + Decimal(n) + " characters omitted ...\n"
  }

  function HeadLimit(limit: nat): nat { Max(0, limit - 160) / 2 }

  function TailLimit(limit: nat): nat { Max(0, limit - 160) - HeadLimit(limit) }

  /** What a capture with the given limit reports for a stream. */
  function CapturedText(stream: string, limit: nat): string {
    var kept := Retained(stream, HeadLimit(limit), TailLimit(limit));
    if |stream| > |kept| then kept + OmittedMarker(|stream| - |kept|) else kept
  }

  predicate CaptureTruncates(stream: string, limit: nat) {
    |stream| > Max(0, limit - 160)
  }

  /** Nothing is lost unless the stream is longer than what may be retained, and then exactly the
      characters the marker counts are missing. */
  lemma RetainedLength(stream: string, limit: nat)
    ensures |Retained(stream, HeadLimit(limit), TailLimit(limit))| == Min(|stream|, Max(0, limit - 160))
    ensures !CaptureTruncates(stream, limit) ==> CapturedText(stream, limit) == stream
    ensures CaptureTruncates(stream, limit) ==>
      |CapturedText(stream, limit)|
        == Max(0, limit - 160) + |OmittedMarker(|stream| - Max(0, limit - 160))|
  {
    var h, t := HeadLimit(limit), TailLimit(limit);
    if |stream| <= h + t {
      assert stream == stream[..Min(h, |stream|)] + stream[Min(h, |stream|)..];
    }
  }

  /** A stream that is cut keeps as much of its beginning as of its end, one character of the end more if the number
      is odd, and says behind them how many characters are missing. */
  lemma BothEndsAreKept(stream: string, limit: nat)
    requires CaptureTruncates(stream, limit)
    ensures var kept, text := Max(0, limit - 160), CapturedText(stream, limit); var head := kept / 2;
      && |text| > kept && text[..head] == stream[..head] && text[head..kept] == stream[|stream| - (kept - head)..]
      && text[kept..] == "\n... bounded archive: " + Decimal(|stream| - kept) + " characters omitted ...\n"
  {
    RetainedLength(stream, limit);
    var kept := Max(0, limit - 160);
    var retained := Retained(stream, HeadLimit(limit), TailLimit(limit));
    assert CapturedText(stream, limit)[..kept] == retained;
  }

  // ---------------------------------------------------------------- chunk lists

  function Concat(chunks: seq<string>): string {
    if chunks == [] then "" else chunks[0] + Concat(chunks[1..])
  }

  lemma {:induction false} ConcatAppend(a: seq<string>, b: seq<string>)
    ensures Concat(a + b) == Concat(a) + Concat(b)
  {
    if a == [] {
      assert a + b == b;
    } else {
      ConcatAppend(a[1..], b);
      assert (a + b)[1..] == a[1..] + b;
    }
  }

  lemma ConcatPush(a: seq<string>, c: string)
    ensures Concat(a + [c]) == Concat(a) + c
  {
    ConcatAppend(a, [c]);
    assert Concat([c]) == c + Concat([]);
  }

  lemma Associative(a: string, b: string, c: string)
    ensures (a + b) + c == a + (b + c)
  {
  }

  /** Keeping only the tail before more text arrives loses nothing the final tail needs. */
  lemma LastCharsAppend(rest: string, chunk: string, n: nat)
    ensures LastChars(LastChars(rest, n) + chunk, n) == LastChars(rest + chunk, n)
  {
  }

  /** One round of trimming, whether it drops the first chunk or cuts into it, drops a prefix. */
  lemma TrimStep(chunks: seq<string>, excess: nat, kept: string, gone: nat)
    requires chunks != [] && gone <= |kept| && Concat(chunks) == kept[gone..]
    ensures |chunks[0]| <= excess ==> gone + |chunks[0]| <= |kept| && Concat(chunks[1..]) == kept[gone + |chunks[0]|..]
    ensures |chunks[0]| > excess ==>
      gone + excess <= |kept| && Concat(chunks[0 := chunks[0][excess..]]) == kept[gone + excess..]
  {
    if |chunks[0]| <= excess {
      assert Concat(chunks[1..]) == Concat(chunks)[|chunks[0]|..];
    } else {
      ConcatCut(chunks, excess);
    }
  }

  lemma ConcatCut(chunks: seq<string>, excess: nat)
    requires chunks != [] && excess < |chunks[0]|
    ensures Concat(chunks[0 := chunks[0][excess..]]) == Concat(chunks)[excess..]
  {
    assert chunks[0 := chunks[0][excess..]][1..] == chunks[1..];
  }

  /** What `read` delivered before end of file. */
  function UntilEof(pieces: seq<string>): seq<string> {
    if pieces == [] || pieces[0] == "" then [] else [pieces[0]] + UntilEof(pieces[1..])
  }

  /** All reads before the first empty one, which is the end of the file. */
  lemma {:induction false} UntilEofIsPrefix(pieces: seq<string>)
    ensures UntilEof(pieces) <= pieces && "" !in UntilEof(pieces)
    ensures |UntilEof(pieces)| < |pieces| ==> pieces[|UntilEof(pieces)|] == ""
  {
    if pieces != [] && pieces[0] != "" { UntilEofIsPrefix(pieces[1..]); }
  }

  lemma UntilEofStep(pieces: seq<string>, i: nat, done: seq<string>)
    requires i < |pieces| && pieces[i] != ""
    ensures done + UntilEof(pieces[i..]) == (done + [pieces[i]]) + UntilEof(pieces[i + 1..])
  {
    assert pieces[i..][1..] == pieces[i + 1..];
  }

  lemma CountersStep(before: string, chunk: string)
    requires chunk != ""
    ensures Newlines(before + chunk) == Newlines(before) + Newlines(chunk)
    ensures EndsNewline(before + chunk) == EndsNewline(chunk)
  {
    NewlinesAppend(before, chunk);
  }

  // ---------------------------------------------------------------- the capture object

  class StreamCapture {
    const headLimit: nat
    const tailLimit: nat
    var total: nat
    var newlines: nat
    var endsNewline: bool
    var head: seq<string>
    var headChars: nat
    var tail: seq<string>
    var tailChars: nat
    ghost var stream: string   // everything added so far

    ghost predicate Valid()
      reads this
    {
      && total == |stream|
      && newlines == Newlines(stream)
      && (stream != "" ==> endsNewline == EndsNewline(stream))
      && Concat(head) == FirstChars(stream, headLimit) && headChars == |Concat(head)|
      && Concat(tail) == LastChars(Rest(stream, headLimit), tailLimit)
      && tailChars == |Concat(tail)|
    }

    constructor (limit: nat)
      ensures Valid() && stream == ""
      ensures headLimit == HeadLimit(limit) && tailLimit == TailLimit(limit)
    {
      headLimit := HeadLimit(limit);
      tailLimit := TailLimit(limit);
      total, newlines, endsNewline := 0, 0, true;
      head, headChars := [], 0;
      tail, tailChars := [], 0;
      stream := "";
    }

    /** Drops characters from the front of the tail list until it fits. */
    method TrimTail(ghost kept: string)
      requires tailChars == |Concat(tail)| && Concat(tail) == kept
      modifies `tail, `tailChars
      ensures tailChars == |Concat(tail)| && Concat(tail) == LastChars(kept, tailLimit)
    {
      ghost var gone: nat := 0;
      while tailChars > tailLimit
        invariant gone <= |kept| && Concat(tail) == kept[gone..]
        invariant tailChars == |kept| - gone && (gone > 0 ==> tailChars >= tailLimit)
        decreases |tail|, tailChars
      {
        var excess := tailChars - tailLimit;
        assert tail != [];
        TrimStep(tail, excess, kept, gone);
        if |tail[0]| <= excess {
          gone := gone + |tail[0]|;
          tailChars, tail := tailChars - |tail[0]|, tail[1..];
        } else {
          gone := gone + excess;
          tail := tail[0 := tail[0][excess..]];
          tailChars := tailChars - excess;
        }
      }
    }

    /** Moves as much of the chunk as fits into the head list and returns the rest. */
    method FillHead(chunk: string, ghost before: string) returns (left: string)
      requires Concat(head) == FirstChars(before, headLimit) && headChars == |Concat(head)|
      modifies `head, `headChars
      ensures Concat(head) == FirstChars(before + chunk, headLimit) && headChars == |Concat(head)|
      ensures Rest(before + chunk, headLimit) == Rest(before, headLimit) + left
    {
      var remaining := headLimit - headChars;
      left := chunk;
      if remaining != 0 {
        var piece := FirstChars(chunk, remaining);
        ConcatPush(head, piece);
        head := head + [piece];
        headChars := headChars + |piece|;
        left := chunk[|piece|..];
      }
    }

    /** Appends to the tail list and trims it back to the limit. */
    method FillTail(left: string, ghost rest: string)
      requires Concat(tail) == LastChars(rest, tailLimit) && tailChars == |Concat(tail)|
      modifies `tail, `tailChars
      ensures Concat(tail) == LastChars(rest + left, tailLimit) && tailChars == |Concat(tail)|
    {
      if left != "" && tailLimit != 0 {
        ConcatPush(tail, left);
        LastCharsAppend(rest, left, tailLimit);
        tail := tail + [left];
        tailChars := tailChars + |left|;
        TrimTail(Concat(tail));
      } else if left == "" {
        assert rest + left == rest;
      }
    }

    /** Takes one non-empty read. */
    method Add(chunk: string)
      requires Valid() && chunk != ""
      modifies this
      ensures Valid() && stream == old(stream) + chunk
    {
      hide Newlines, EndsNewline, Concat, FirstChars, LastChars, Rest;
      ghost var before, rest := stream, Rest(stream, headLimit);
      assert Concat(tail) == LastChars(rest, tailLimit);
      CountersStep(before, chunk);
      total := total + |chunk|;
      newlines := newlines + Newlines(chunk);
      endsNewline := EndsNewline(chunk);
      assert Concat(head) == FirstChars(before, headLimit);
      var left := FillHead(chunk, before);
      FillTail(left, rest);
      stream := before + chunk;
      assert Rest(stream, headLimit) == rest + left;
    }

    /** The reader thread's loop: one `Add` per read until end of file. */
    method Drain(pieces: seq<string>)
      requires Valid()
      modifies this
      ensures Valid() && stream == old(stream) + Concat(UntilEof(pieces))
    {
      hide Newlines, EndsNewline, FirstChars, LastChars, Rest;
      var i := 0;
      ghost var done: seq<string> := [];
      while i < |pieces| && pieces[i] != ""
        invariant 0 <= i <= |pieces| && Valid()
        invariant stream == old(stream) + Concat(done)
        invariant done + UntilEof(pieces[i..]) == UntilEof(pieces)
      {
        Add(pieces[i]);
        ConcatPush(done, pieces[i]);
        Associative(old(stream), Concat(done), pieces[i]);
        UntilEofStep(pieces, i, done);
        done := done + [pieces[i]];
        i := i + 1;
      }
      assert UntilEof(pieces[i..]) == [];
      assert done == UntilEof(pieces);
    }

    /** Text, line count and truncation flag are functions of the concatenated stream alone. */
    method Result(limit: nat) returns (text: string, lines: nat, truncated: bool)
      requires Valid() && headLimit == HeadLimit(limit) && tailLimit == TailLimit(limit)
      ensures text == CapturedText(stream, limit)
      ensures lines == LineCount(stream)
      ensures truncated == CaptureTruncates(stream, limit)
    {
      var retained := JoinParts(stream, limit);
      LineCountFromCounters(stream);
      lines := newlines + if total > 0 && !endsNewline then 1 else 0;
      text, truncated := Finish(retained, stream, limit);
    }

    method JoinParts(ghost all: string, limit: nat) returns (retained: string)
      requires Concat(head) == FirstChars(all, HeadLimit(limit))
      requires Concat(tail) == LastChars(Rest(all, HeadLimit(limit)), TailLimit(limit))
      ensures retained == Retained(all, HeadLimit(limit), TailLimit(limit))
    {
      ConcatAppend(head, tail);
      retained := Concat(head + tail);
    }

    method Finish(retained: string, ghost all: string, limit: nat) returns (text: string, truncated: bool)
      requires retained == Retained(all, HeadLimit(limit), TailLimit(limit)) && total == |all|
      ensures text == CapturedText(all, limit) && truncated == CaptureTruncates(all, limit)
    {
      RetainedLength(all, limit);
      truncated := total > |retained|;
      text := retained;
      if truncated {
        text := retained + OmittedMarker(total - |retained|);
      }
    }
  }

  // ---------------------------------------------------------------- both streams of one process

  function StdoutLimit(limit: nat, split: bool): nat { if split then limit / 2 else limit }

  function StderrLimit(limit: nat, split: bool): nat { if split then limit - limit / 2 else 0 }

  /** Two pipes share the limit in halves; one pipe has all of it. */
  lemma LimitsAreShared(limit: nat)
    ensures StdoutLimit(limit, true) + StderrLimit(limit, true) == limit
    ensures StdoutLimit(limit, true) <= StderrLimit(limit, true) <= StdoutLimit(limit, true) + 1
    ensures StdoutLimit(limit, false) == limit && StderrLimit(limit, false) == 0
  {
  }

  datatype Captured = Captured(stdout: string, stderr: string, chars: nat, lines: nat, truncated: bool)

  /** What a process that wrote the two given streams must be reported as. */
  predicate IsCapture(r: Captured, out: string, err: string, limit: nat, split: bool) {
    && r.stdout == CapturedText(out, StdoutLimit(limit, split))
    && r.stderr == CapturedText(err, StderrLimit(limit, split))
    && r.chars == |out| + |err|
    && r.lines == LineCount(out) + LineCount(err)
    && r.truncated == (CaptureTruncates(out, StdoutLimit(limit, split))
                       || CaptureTruncates(err, StderrLimit(limit, split)))
  }

  /** One reader thread together with the capture it feeds. */
  method CaptureStream(pieces: seq<string>, limit: nat) returns (text: string, total: nat, lines: nat, truncated: bool)
    ensures text == CapturedText(Concat(UntilEof(pieces)), limit)
    ensures total == |Concat(UntilEof(pieces))| && lines == LineCount(Concat(UntilEof(pieces)))
    ensures truncated == CaptureTruncates(Concat(UntilEof(pieces)), limit)
  {
    var capture := new StreamCapture(limit);
    capture.Drain(pieces);
    assert capture.stream == Concat(UntilEof(pieces));
    total := capture.total;
    text, lines, truncated := capture.Result(limit);
  }

  /** Captures both pipes of one process. With `split` false the error pipe is merged into the
      output pipe by the operating system, so it delivers no reads of its own. */
  method CaptureProcess(outReads: seq<string>, errReads: seq<string>, limit: nat, split: bool)
    returns (r: Captured)
    requires !split ==> errReads == []
    ensures IsCapture(r, Concat(UntilEof(outReads)), Concat(UntilEof(errReads)), limit, split)
  {
    var stdout, outTotal, outLines, outCut := CaptureStream(outReads, StdoutLimit(limit, split));
    var stderr, errTotal, errLines, errCut := CaptureStream(errReads, StderrLimit(limit, split));
    r := Captured(stdout, stderr, outTotal + errTotal, outLines + errLines, outCut || errCut);
  }
}
