/** The line splitter of the event stream, and the scanner that feeds it one
    read at a time. */
module LineScanner {
  import opened Text

  newtype byte = b: int | 0 <= b < 256
  type Bytes = seq<byte>

  const LF: byte := 10
  const CR: byte := 13

  /** `bytes.IndexByte`. */
  function IndexOf(data: Bytes, b: byte): (i: int)
    ensures -1 <= i < |data|
    ensures i < 0 ==> b !in data
    ensures i >= 0 ==> data[i] == b && b !in data[..i]
  {
    if data == [] then -1
    else if data[0] == b then 0
    else
      var i := IndexOf(data[1..], b);
      if i < 0 then -1
      else
        assert data[..i + 1] == [data[0]] + data[1..][..i];
        i + 1
  }

  lemma {:induction false} IndexIs(a: Bytes, b: byte, rest: Bytes)
    requires b !in a
    ensures IndexOf(a + [b] + rest, b) == |a|
  {
    if a != [] {
      assert (a + [b] + rest)[0] == a[0] && a[0] in a;
      assert (a + [b] + rest)[1..] == a[1..] + [b] + rest;
      IndexIs(a[1..], b, rest);
    }
  }

  /** `lineTerminatorPosition`: 0 says "none", and also "at the very start". */
  function TerminatorPosition(data: Bytes): nat
  {
    var lf, cr := IndexOf(data, LF), IndexOf(data, CR);
    if lf >= 0 then lf else if cr >= 0 then cr else 0
  }

  function DropCR(data: Bytes): (r: Bytes)
    ensures r == data || r + [CR] == data
  {
    if |data| > 0 && data[|data| - 1] == CR then data[..|data| - 1] else data
  }

  /** `ScanLines`: how far to advance, and the token if there is one. Every token
      moves the scanner forward within the data, and at the end of the input
      there is a token as long as there is data. */
  function ScanLines(data: Bytes, atEOF: bool): (r: (nat, Option<Bytes>))
    ensures r.0 <= |data| && (r.1.Some? <==> r.0 > 0)
    ensures atEOF ==> (r.1.Some? <==> data != [])
  {
    if atEOF && |data| == 0 then (0, None)
    else
      var pos := TerminatorPosition(data);
      if pos != 0 then (pos + 1, Some(DropCR(data[..pos])))
      else if atEOF then (|data|, Some(DropCR(data)))
      else (0, None)
  }

  /** All tokens that are still to come from the unread data of the buffer and
      the reads that the connection will return before its end. */
  function Tokens(buffer: Bytes, chunks: seq<Bytes>, eof: bool): seq<Bytes>
    decreases |chunks|, !eof, |buffer|
  {
    var (advance, token) := ScanLines(buffer, eof);
    match token
    case Some(t) => [t] + Tokens(buffer[advance..], chunks, eof)
    case None =>
      if eof then []
      else if chunks == [] then Tokens(buffer, [], true)
      else Tokens(buffer + chunks[0], chunks[1..], false)
  }

  lemma TokenStep(buffer: Bytes, chunks: seq<Bytes>)
    requires ScanLines(buffer, false).1.Some?
    ensures var (advance, token) := ScanLines(buffer, false);
            Tokens(buffer, chunks, false) == [token.value] + Tokens(buffer[advance..], chunks, false)
  {
  }

  lemma ReadStep(buffer: Bytes, chunks: seq<Bytes>)
    requires ScanLines(buffer, false).1.None? && chunks != []
    ensures Tokens(buffer, chunks, false) == Tokens(buffer + chunks[0], chunks[1..], false)
  {
  }

  lemma EndStep(buffer: Bytes)
    requires ScanLines(buffer, false).1.None?
    ensures Tokens(buffer, [], false) == if buffer == [] then [] else [DropCR(buffer)]
  {
    if buffer != [] {
      assert ScanLines(buffer, true) == (|buffer|, Some(DropCR(buffer)));
      assert Tokens(buffer, [], true) == [DropCR(buffer)] + Tokens(buffer[|buffer|..], [], true);
      assert buffer[|buffer|..] == [];
    }
  }

  /** The part of `bufio.Scanner` that the stream needs; its buffer is as large
      as the longest line. */
  class Scanner {
    var buffer: Bytes
    var chunks: seq<Bytes>
    var eof: bool

    constructor (chunks: seq<Bytes>)
      ensures Pending() == Tokens([], chunks, false)
    {
      this.buffer, this.chunks, this.eof := [], chunks, false;
    }

    ghost function Pending(): seq<Bytes>
      reads this
    {
      Tokens(buffer, chunks, eof)
    }

    method Scan() returns (token: Option<Bytes>)
      modifies this
      ensures token.Some? ==> old(Pending()) == [token.value] + Pending()
      ensures token.None? ==> old(Pending()) == [] && Pending() == []
    {
      while true
        invariant Pending() == old(Pending())
        decreases |chunks|, !eof
      {
        var (advance, t) := ScanLines(buffer, eof);
        if t.Some? {
          buffer := buffer[advance..];
          return t;
        }
        if eof {
          return None;
        }
        if chunks == [] {
          eof := true;
        } else {
          buffer, chunks := buffer + chunks[0], chunks[1..];
        }
      }
    }
  }

  // ---- CRLF framing ---------------------------------------------------------

  predicate Clean(line: Bytes) { CR !in line && LF !in line }

  predicate AllClean(lines: seq<Bytes>) { forall i :: 0 <= i < |lines| ==> Clean(lines[i]) }

  function Frame(lines: seq<Bytes>): Bytes
  {
    if lines == [] then [] else lines[0] + [CR, LF] + Frame(lines[1..])
  }

  /** Every line is followed by a carriage return and a line feed. */
  lemma FrameIsCrLf(line: Bytes, lines: seq<Bytes>)
    ensures Frame([line] + lines) == line + [13, 10] + Frame(lines)
  {
    assert ([line] + lines)[1..] == lines;
  }

  function Flatten(chunks: seq<Bytes>): Bytes
  {
    if chunks == [] then [] else chunks[0] + Flatten(chunks[1..])
  }

  lemma FlattenStep(buffer: Bytes, chunks: seq<Bytes>)
    requires chunks != []
    ensures buffer + chunks[0] + Flatten(chunks[1..]) == buffer + Flatten(chunks)
  {
  }

  /** The data stops between the CR and the LF that end a line with text. */
  predicate Torn(data: Bytes)
  {
    |data| >= 2 && data[|data| - 1] == CR && data[|data| - 2] != LF
  }

  /** No read, put after what was seen before it, stops there. */
  predicate NeverTorn(seen: Bytes, chunks: seq<Bytes>)
    decreases |chunks|
  {
    chunks == [] || (!Torn(seen + chunks[0]) && NeverTorn(seen + chunks[0], chunks[1..]))
  }

  /** A buffer with a line feed holds the whole first line. */
  lemma FirstLine(lines: seq<Bytes>, buffer: Bytes, rest: Bytes) returns (buffer': Bytes)
    requires buffer + rest == Frame(lines) && AllClean(lines) && LF in buffer
    ensures lines != [] && buffer == lines[0] + [CR, LF] + buffer'
    ensures buffer' + rest == Frame(lines[1..])
    ensures ScanLines(buffer, false) == (|lines[0]| + 2, Some(lines[0]))
    ensures buffer[|lines[0]| + 2..] == buffer'
  {
    var stream := buffer + rest;
    assert stream[..|buffer|] == buffer;
    var l := lines[0];
    var i := IndexOf(buffer, LF);
    assert stream == l + [CR, LF] + Frame(lines[1..]);
    assert stream[i] == LF && Clean(l);
    assert forall j :: 0 <= j <= |l| ==> stream[j] == (l + [CR])[j] && stream[j] != LF;
    assert |l| + 1 <= i;
    buffer' := buffer[|l| + 2..];
    assert buffer == buffer[..|l| + 2] + buffer' && buffer[..|l| + 2] == stream[..|l| + 2] == l + [CR, LF];
    assert buffer' + rest == stream[|l| + 2..] == Frame(lines[1..]);
    FirstToken(l, buffer');
  }

  lemma FirstToken(l: Bytes, buffer': Bytes)
    requires Clean(l)
    ensures ScanLines(l + [CR, LF] + buffer', false) == (|l| + 2, Some(l))
  {
    var buffer := l + [CR, LF] + buffer';
    assert buffer == (l + [CR]) + [LF] + buffer';
    IndexIs(l + [CR], LF, buffer');
    assert buffer[..|l| + 1] == l + [CR];
  }

  /** Without a line feed the buffer is a beginning of the first line and its CR. */
  lemma PartOfLine(lines: seq<Bytes>, buffer: Bytes, rest: Bytes)
    requires buffer + rest == Frame(lines) && AllClean(lines) && LF !in buffer
    ensures lines == [] ==> buffer == []
    ensures lines != [] ==> buffer <= lines[0] + [CR]
  {
    if lines != [] {
      var stream := buffer + rest;
      assert stream == lines[0] + [CR, LF] + Frame(lines[1..]);
      assert stream[|lines[0]| + 1] == LF;
      assert forall j :: 0 <= j < |buffer| ==> stream[j] == buffer[j] && stream[j] != LF;
      assert buffer == stream[..|buffer|] == (lines[0] + [CR])[..|buffer|];
    }
  }

  lemma NoTokenYet(lines: seq<Bytes>, buffer: Bytes, rest: Bytes)
    requires buffer + rest == Frame(lines) && AllClean(lines) && LF !in buffer
    requires !Torn(buffer)
    ensures ScanLines(buffer, false) == (0, None)
  {
    PartOfLine(lines, buffer, rest);
    if CR in buffer {
      var l := lines[0];
      assert l in lines;
      assert forall j :: 0 <= j < |buffer| ==> buffer[j] == (l + [CR])[j];
      assert |buffer| == |l| + 1 && buffer[|l|] == CR;
    }
  }

  lemma NeverTornBehind(line: Bytes, seen: Bytes, chunks: seq<Bytes>)
    ensures NeverTorn(line + [CR, LF] + seen, chunks) <==> NeverTorn(seen, chunks)
    decreases |chunks|
  {
    if chunks != [] {
      var before := line + [CR, LF];
      assert before + seen + chunks[0] == before + (seen + chunks[0]);
      NeverTornBehind(line, seen + chunks[0], chunks[1..]);
    }
  }

  lemma {:induction false} FrameEnds(lines: seq<Bytes>)
    ensures lines != [] ==> Frame(lines) != [] && Frame(lines)[|Frame(lines)| - 1] == LF
  {
    if lines != [] {
      FrameEnds(lines[1..]);
    }
  }

  /** The first line of a buffer that holds it is the next token. */
  lemma LineStep(lines: seq<Bytes>, buffer: Bytes, chunks: seq<Bytes>) returns (buffer': Bytes)
    requires buffer + Flatten(chunks) == Frame(lines) && AllClean(lines) && LF in buffer
    ensures lines != [] && buffer' + Flatten(chunks) == Frame(lines[1..]) && |buffer'| < |buffer|
    ensures Tokens(buffer, chunks, false) == [lines[0]] + Tokens(buffer', chunks, false)
    ensures Torn(buffer) == Torn(buffer')
    ensures NeverTorn(buffer, chunks) <==> NeverTorn(buffer', chunks)
  {
    buffer' := FirstLine(lines, buffer, Flatten(chunks));
    NeverTornBehind(lines[0], buffer', chunks);
    TokenStep(buffer, chunks);
  }

  /** In a CRLF-framed stream the tokens are the lines, however the stream is cut
      into reads, if no cut tears a line from its line feed. */
  lemma {:induction false} UntornTokens(lines: seq<Bytes>, buffer: Bytes, chunks: seq<Bytes>)
    requires buffer + Flatten(chunks) == Frame(lines) && AllClean(lines)
    requires !Torn(buffer) && NeverTorn(buffer, chunks)
    ensures Tokens(buffer, chunks, false) == lines
    decreases |chunks|, |buffer|
  {
    if LF in buffer {
      var buffer' := LineStep(lines, buffer, chunks);
      UntornTokens(lines[1..], buffer', chunks);
    } else {
      NoTokenYet(lines, buffer, Flatten(chunks));
      if chunks == [] {
        assert buffer + [] == buffer;
        FrameEnds(lines);
        EndStep(buffer);
      } else {
        ReadStep(buffer, chunks);
        FlattenStep(buffer, chunks);
        UntornTokens(lines, buffer + chunks[0], chunks[1..]);
      }
    }
  }

  /** A line feed in front of everything stalls the scanner until the end, and then
      all the rest is one token. */
  lemma {:induction false} Stalled(buffer: Bytes, chunks: seq<Bytes>)
    requires buffer + Flatten(chunks) != [] && (buffer + Flatten(chunks))[0] == LF
    ensures Tokens(buffer, chunks, false) == [DropCR(buffer + Flatten(chunks))]
    decreases |chunks|
  {
    assert buffer != [] ==> buffer[0] == LF;
    if chunks == [] {
      assert buffer + Flatten(chunks) == buffer;
      EndStep(buffer);
    } else {
      ReadStep(buffer, chunks);
      FlattenStep(buffer, chunks);
      Stalled(buffer + chunks[0], chunks[1..]);
    }
  }

  /** The torn line itself is a token, but the rest of the stream is only one more. */
  lemma TornLine(l: Bytes, rest: Bytes, chunks: seq<Bytes>)
    requires l != [] && Clean(l) && Flatten(chunks) == [LF] + rest
    ensures Tokens(l + [CR], chunks, false) == [l, DropCR([LF] + rest)]
  {
    var buffer := l + [CR];
    assert buffer == l + [CR] + [];
    IndexIs(l, CR, []);
    assert buffer[..|l|] == l && buffer[|l| + 1..] == [];
    assert DropCR(l) == l by { assert l[|l| - 1] in l; }
    assert [] + Flatten(chunks) == [LF] + rest;
    TokenStep(buffer, chunks);
    Stalled([], chunks);
  }

  /** The lines up to a torn one are tokens; all that follows is one token. */
  predicate CutShort(tokens: seq<Bytes>, lines: seq<Bytes>, k: nat)
  {
    && k < |lines| && lines[k] != []
    && tokens == lines[..k + 1] + [DropCR([LF] + Frame(lines[k + 1..]))]
  }

  lemma CutShortBehind(tokens: seq<Bytes>, lines: seq<Bytes>, k: nat)
    requires lines != [] && CutShort(tokens, lines[1..], k)
    ensures CutShort([lines[0]] + tokens, lines, k + 1)
  {
    assert lines[1..][..k + 1] == lines[1..k + 2] && lines[1..][k + 1..] == lines[k + 2..];
    assert lines[..k + 2] == [lines[0]] + lines[1..k + 2];
  }

  lemma {:induction false} TornTokens(lines: seq<Bytes>, buffer: Bytes, chunks: seq<Bytes>) returns (k: nat)
    requires buffer + Flatten(chunks) == Frame(lines) && AllClean(lines)
    requires Torn(buffer)
    ensures CutShort(Tokens(buffer, chunks, false), lines, k)
    decreases |buffer|
  {
    if LF in buffer {
      var buffer' := LineStep(lines, buffer, chunks);
      k := TornTokens(lines[1..], buffer', chunks);
      CutShortBehind(Tokens(buffer', chunks, false), lines, k);
      k := k + 1;
    } else {
      PartOfLine(lines, buffer, Flatten(chunks));
      var l, rest := lines[0], Frame(lines[1..]);
      assert forall j :: 0 <= j < |buffer| ==> buffer[j] == (l + [CR])[j];
      assert |buffer| == |l| + 1 && buffer == l + [CR];
      assert Flatten(chunks) == Frame(lines)[|l| + 1..] == [LF] + rest;
      TornLine(l, rest, chunks);
      k := 0;
    }
  }

  lemma {:induction false} SomeReadTears(lines: seq<Bytes>, buffer: Bytes, chunks: seq<Bytes>) returns (k: nat)
    requires buffer + Flatten(chunks) == Frame(lines) && AllClean(lines)
    requires !Torn(buffer) && !NeverTorn(buffer, chunks)
    ensures CutShort(Tokens(buffer, chunks, false), lines, k)
    decreases |chunks|, |buffer|
  {
    if LF in buffer {
      var buffer' := LineStep(lines, buffer, chunks);
      k := SomeReadTears(lines[1..], buffer', chunks);
      CutShortBehind(Tokens(buffer', chunks, false), lines, k);
      k := k + 1;
    } else {
      NoTokenYet(lines, buffer, Flatten(chunks));
      ReadStep(buffer, chunks);
      FlattenStep(buffer, chunks);
      if Torn(buffer + chunks[0]) {
        k := TornTokens(lines, buffer + chunks[0], chunks[1..]);
      } else {
        k := SomeReadTears(lines, buffer + chunks[0], chunks[1..]);
      }
    }
  }

  /** The token that swallows the rest is no line of the stream. */
  lemma CutShortDiffers(tokens: seq<Bytes>, lines: seq<Bytes>, k: nat)
    requires CutShort(tokens, lines, k) && AllClean(lines)
    ensures tokens != lines && tokens[k + 1] != [] && tokens[k + 1][0] == LF
    ensures k + 1 < |lines| ==> |tokens[k + 1]| > 1
  {
    var rest := [LF] + Frame(lines[k + 1..]);
    FrameEnds(lines[k + 1..]);
    assert tokens[k + 1] == DropCR(rest) && rest[0] == LF && rest[|rest| - 1] == LF;
    assert k + 1 < |lines| ==> Clean(lines[k + 1]);
  }

  /** Chunking independence holds exactly when no read stops between the CR and
      the LF of a line with text. */
  lemma ChunkingIndependence(lines: seq<Bytes>, chunks: seq<Bytes>)
    requires Flatten(chunks) == Frame(lines) && AllClean(lines)
    ensures Tokens([], chunks, false) == lines <==> NeverTorn([], chunks)
  {
    assert [] + Flatten(chunks) == Frame(lines);
    if NeverTorn([], chunks) {
      UntornTokens(lines, [], chunks);
    } else {
      var k := SomeReadTears(lines, [], chunks);
      CutShortDiffers(Tokens([], chunks, false), lines, k);
    }
  }

  // ---- bare framing ---------------------------------------------------------

  /** Lines that each end in a lone LF, or each in a lone CR. */
  function BareFrame(end: byte, lines: seq<Bytes>): Bytes
  {
    if lines == [] then [] else lines[0] + [end] + BareFrame(end, lines[1..])
  }

  function OtherEnd(end: byte): byte { if end == LF then CR else LF }

  lemma {:induction false} BareFrameHasOneEnd(end: byte, lines: seq<Bytes>)
    requires end in {LF, CR} && AllClean(lines)
    ensures OtherEnd(end) !in BareFrame(end, lines)
    ensures lines != [] ==> BareFrame(end, lines) != [] && BareFrame(end, lines)[|BareFrame(end, lines)| - 1] == end
  {
    if lines != [] {
      assert lines[0] in lines && Clean(lines[0]);
      BareFrameHasOneEnd(end, lines[1..]);
    }
  }

  lemma LineInFront(end: byte, l: Bytes, tail: Bytes, buffer: Bytes, rest: Bytes)
    requires buffer + rest == l + [end] + tail && end !in l && end in buffer
    ensures l + [end] <= buffer && buffer[|l| + 1..] + rest == tail
  {
    var stream := buffer + rest;
    assert forall j :: 0 <= j < |l| ==> stream[j] == l[j] && l[j] in l;
    var i :| 0 <= i < |buffer| && buffer[i] == end;
    assert stream[i] == end;
    assert i >= |l|;
    assert buffer[..|l| + 1] == stream[..|l| + 1] == l + [end];
    assert stream[|l| + 1..] == tail;
  }

  /** A buffer with the terminator holds the whole first line. */
  lemma BareLine(end: byte, lines: seq<Bytes>, buffer: Bytes, rest: Bytes) returns (buffer': Bytes)
    requires end in {LF, CR} && buffer + rest == BareFrame(end, lines) && AllClean(lines) && end in buffer
    ensures lines != [] && buffer == lines[0] + [end] + buffer' && buffer' + rest == BareFrame(end, lines[1..])
    ensures OtherEnd(end) !in buffer
  {
    BareFrameHasOneEnd(end, lines);
    assert forall b :: b in buffer ==> b in buffer + rest;
    assert Clean(lines[0]);
    LineInFront(end, lines[0], BareFrame(end, lines[1..]), buffer, rest);
    buffer' := buffer[|lines[0]| + 1..];
  }

  lemma BareToken(end: byte, l: Bytes, buffer': Bytes)
    requires end in {LF, CR} && l != [] && Clean(l) && OtherEnd(end) !in l + [end] + buffer'
    ensures ScanLines(l + [end] + buffer', false) == (|l| + 1, Some(l))
  {
    IndexIs(l, end, buffer');
    assert (l + [end] + buffer')[..|l|] == l;
    assert l[|l| - 1] in l;
  }

  lemma NoBareToken(end: byte, buffer: Bytes)
    requires end in {LF, CR} && OtherEnd(end) !in buffer && (end !in buffer || buffer[0] == end)
    ensures ScanLines(buffer, false) == (0, None)
  {
  }

  /** A terminator in front of everything stalls the scanner until the end. */
  lemma {:induction false} BareStall(end: byte, buffer: Bytes, chunks: seq<Bytes>)
    requires end in {LF, CR}
    requires var stream := buffer + Flatten(chunks); stream != [] && stream[0] == end && OtherEnd(end) !in stream
    ensures Tokens(buffer, chunks, false) == [DropCR(buffer + Flatten(chunks))]
    decreases |chunks|
  {
    assert buffer != [] ==> buffer[0] == end;
    NoBareToken(end, buffer);
    if chunks == [] {
      assert buffer + Flatten(chunks) == buffer;
      EndStep(buffer);
    } else {
      ReadStep(buffer, chunks);
      FlattenStep(buffer, chunks);
      BareStall(end, buffer + chunks[0], chunks[1..]);
    }
  }

  /** How many lines come before the first empty one. */
  function BeforeEmpty(lines: seq<Bytes>): (n: nat)
    ensures n <= |lines| && [] !in lines[..n] && (n < |lines| ==> lines[n] == [])
  {
    if lines == [] || lines[0] == [] then 0
    else
      assert forall n :: 0 <= n < |lines| ==> lines[..n + 1] == [lines[0]] + lines[1..][..n];
      1 + BeforeEmpty(lines[1..])
  }

  /** The lines up to the first empty one are tokens, and all the rest is one more. */
  function BareTokens(end: byte, lines: seq<Bytes>): seq<Bytes>
  {
    var n := BeforeEmpty(lines);
    if n == |lines| then lines else lines[..n] + [DropCR(BareFrame(end, lines[n..]))]
  }

  lemma BareTokensStep(end: byte, lines: seq<Bytes>)
    requires lines != [] && lines[0] != []
    ensures BareTokens(end, lines) == [lines[0]] + BareTokens(end, lines[1..])
  {
    var n := BeforeEmpty(lines[1..]);
    assert BeforeEmpty(lines) == n + 1 && lines == [lines[0]] + lines[1..];
    assert lines[..n + 1] == [lines[0]] + lines[1..][..n] && lines[n + 1..] == lines[1..][n..];
  }

  /** How a stream with bare terminators is scanned, however it is cut into reads. */
  lemma {:induction false} BareScan(end: byte, lines: seq<Bytes>, buffer: Bytes, chunks: seq<Bytes>)
    requires end in {LF, CR} && buffer + Flatten(chunks) == BareFrame(end, lines) && AllClean(lines)
    ensures Tokens(buffer, chunks, false) == BareTokens(end, lines)
    decreases |chunks|, |buffer|
  {
    BareFrameHasOneEnd(end, lines);
    if lines != [] && lines[0] == [] {
      BareStall(end, buffer, chunks);
      assert lines[..0] == [] && lines[0..] == lines;
    } else if end in buffer {
      var buffer' := BareLine(end, lines, buffer, Flatten(chunks));
      BareToken(end, lines[0], buffer');
      TokenStep(buffer, chunks);
      assert buffer[|lines[0]| + 1..] == buffer';
      BareScan(end, lines[1..], buffer', chunks);
      BareTokensStep(end, lines);
    } else {
      assert OtherEnd(end) !in buffer by {
        assert forall b :: b in buffer ==> b in buffer + Flatten(chunks);
      }
      NoBareToken(end, buffer);
      if chunks == [] {
        assert buffer + [] == buffer;
        EndStep(buffer);
      } else {
        ReadStep(buffer, chunks);
        FlattenStep(buffer, chunks);
        BareScan(end, lines, buffer + chunks[0], chunks[1..]);
      }
    }
  }

  /** The token that swallows the rest is empty only for a lone CR at the very end. */
  lemma RestToken(end: byte, lines: seq<Bytes>, n: nat)
    requires end in {LF, CR} && AllClean(lines) && n < |lines| && lines[n] == []
    ensures var t := DropCR(BareFrame(end, lines[n..]));
            && (t != [] ==> t[0] == end)
            && (n == |lines| - 1 ==> t == if end == CR then [] else [LF])
            && (n < |lines| - 1 ==> t != [] && t != [LF])
  {
    var more := lines[n + 1..];
    assert lines[n..][0] == [] && lines[n..][1..] == more;
    var rest := BareFrame(end, lines[n..]);
    assert rest == [] + [end] + BareFrame(end, more);
    BareFrameHasOneEnd(end, more);
  }

  /** Lines with bare terminators are scanned as they are exactly when none is empty;
      behind a lone CR the very last one may be. */
  lemma BareFramingIff(end: byte, lines: seq<Bytes>, chunks: seq<Bytes>)
    requires end in {LF, CR} && Flatten(chunks) == BareFrame(end, lines) && AllClean(lines)
    ensures Tokens([], chunks, false) == lines <==>
            BeforeEmpty(lines) == |lines| || (end == CR && BeforeEmpty(lines) == |lines| - 1)
  {
    assert [] + Flatten(chunks) == BareFrame(end, lines);
    BareScan(end, lines, [], chunks);
    var n := BeforeEmpty(lines);
    if n < |lines| {
      RestToken(end, lines, n);
      assert BareTokens(end, lines)[n] == DropCR(BareFrame(end, lines[n..]));
      if n == |lines| - 1 {
        assert lines == lines[..n] + [[]];
      }
    }
  }

  /** Lines that end in a lone LF: exactly when none is empty. */
  lemma LineFeedsAlone(lines: seq<Bytes>, chunks: seq<Bytes>)
    requires Flatten(chunks) == BareFrame(LF, lines) && AllClean(lines)
    ensures Tokens([], chunks, false) == lines <==> [] !in lines
  {
    BareFramingIff(LF, lines, chunks);
    assert lines[..|lines|] == lines;
  }

  /** Lines that end in a lone CR: exactly when none but the last is empty. */
  lemma CarriageReturnsAlone(lines: seq<Bytes>, chunks: seq<Bytes>)
    requires Flatten(chunks) == BareFrame(CR, lines) && AllClean(lines) && lines != []
    ensures Tokens([], chunks, false) == lines <==> [] !in lines[..|lines| - 1]
  {
    BareFramingIff(CR, lines, chunks);
    var n := BeforeEmpty(lines);
    if n < |lines| - 1 {
      assert lines[..|lines| - 1][n] == [];
    } else {
      assert lines[..|lines| - 1] == lines[..n][..|lines| - 1];
    }
  }
}
