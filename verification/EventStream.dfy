/** Server-sent events: the parser of lines, the reader of whole events, and the
    handler that queues them. */
module EventStream {
  import opened Text
  import opened LineScanner

  const COLON: byte := 58
  const SPACE: byte := 32
  /** "event", "data", "id" and "retry". */
  const EVENT: Bytes := [101, 118, 101, 110, 116]
  const DATA: Bytes := [100, 97, 116, 97]
  const ID: Bytes := [105, 100]
  const RETRY: Bytes := [114, 101, 116, 114, 121]

  /** The body is nil in Go exactly when it is empty here: only non-empty values
      are ever appended to it. */
  datatype Event = Event(typ: Bytes, body: Bytes, id: Bytes, delay: Bytes)

  const EMPTY := Event([], [], [], [])

  predicate IsEmpty(e: Event) { e.typ == [] && e.body == [] && e.id == [] }

  /** Field name and value of a line that is neither blank nor a comment. */
  function FieldOf(line: Bytes): (Bytes, Bytes)
  {
    var i := IndexOf(line, COLON);
    if i < 0 then (line, [])
    else
      var value := line[i + 1..];
      (line[..i], if value != [] && value[0] == SPACE then value[1..] else value)
  }

  function Assign(e: Event, field: Bytes, value: Bytes): Event
  {
    if field == EVENT then e.(typ := value)
    else if field == DATA then (if value == [] then e else e.(body := e.body + value + [LF]))
    else if field == ID then e.(id := value)
    else if field == RETRY then e.(delay := value)
    else e
  }

  predicate IsBlank(line: Bytes) { line == [] || line == [LF] }

  /** The event after a line, and whether the line dispatches it. */
  function AfterLine(e: Event, line: Bytes): (Event, bool)
  {
    if IsBlank(line) then (e, !IsEmpty(e))
    else if line[0] == COLON then (e, false)
    else
      var (field, value) := FieldOf(line);
      (Assign(e, field, value), false)
  }

  // ---- the effect of a line, byte by byte ------------------------------------

  /** The line is cut at its first colon. */
  predicate CutAtColon(line: Bytes, field: Bytes, value: Bytes) { line == field + [58] + value && 58 !in field }

  /** A field takes its value: "event" [101, 118, 101, 110, 116] the type, "data" [100, 97, 116, 97] one
      more line of the body unless it is empty, "id" [105, 100] and "retry" [114, 101, 116, 114, 121]. */
  predicate FieldEffect(e: Event, field: Bytes, value: Bytes, e': Event)
  {
    && e'.typ == (if field == [101, 118, 101, 110, 116] then value else e.typ)
    && e'.body == (if field == [100, 97, 116, 97] && value != [] then e.body + value + [10] else e.body)
    && e'.id == (if field == [105, 100] then value else e.id)
    && e'.delay == (if field == [114, 101, 116, 114, 121] then value else e.delay)
  }

  predicate HasContent(e: Event) { e.typ != [] || e.body != [] || e.id != [] }

  /** What a line does to an event: an empty line, or a line feed alone, dispatches it if it
      has content; a line with a colon in front is ignored; one without a colon is a field
      without value; and otherwise one space behind the colon is not part of the value. */
  ghost predicate LineEffect(e: Event, line: Bytes, e': Event, dispatch: bool)
  {
    if line == [] || line == [10] then e' == e && (dispatch <==> HasContent(e))
    else
      && !dispatch
      && (line[0] == 58 ==> e' == e)
      && (58 !in line ==> FieldEffect(e, line, [], e'))
      && forall field, value :: CutAtColon(line, field, value) && field != [] ==>
           FieldEffect(e, field, if value != [] && value[0] == 32 then value[1..] else value, e')
  }

  lemma AssignIsWrittenOut(e: Event, field: Bytes, value: Bytes)
    ensures FieldEffect(e, field, value, Assign(e, field, value))
  {
  }

  lemma LineIsWrittenOut(e: Event, line: Bytes)
    ensures LineEffect(e, line, AfterLine(e, line).0, AfterLine(e, line).1)
  {
    var e' := AfterLine(e, line).0;
    if !IsBlank(line) && line[0] != 58 {
      AssignIsWrittenOut(e, FieldOf(line).0, FieldOf(line).1);
      forall field, value | CutAtColon(line, field, value) && field != []
        ensures FieldEffect(e, field, if value != [] && value[0] == 32 then value[1..] else value, e')
      {
        IndexIs(field, COLON, value);
        assert line[..|field|] == field && line[|field| + 1..] == value;
      }
    }
  }

  class SseEvent {
    var typ: Bytes
    var body: Bytes
    var id: Bytes
    var delay: Bytes

    constructor ()
      ensures Value() == EMPTY
    {
      typ, body, id, delay := [], [], [], [];
    }

    function Value(): Event
      reads this
    {
      Event(typ, body, id, delay)
    }

    /** `parseLine`. */
    method ParseLine(line: Bytes) returns (dispatch: bool)
      modifies this
      ensures (Value(), dispatch) == AfterLine(old(Value()), line)
      ensures LineEffect(old(Value()), line, Value(), dispatch)
    {
      LineIsWrittenOut(Value(), line);
      if |line| == 0 || line == [LF] {
        return !IsEmpty(Value());
      }
      if line[0] == COLON {
        return false;
      }
      var field, value := line, [];
      var i := IndexOf(line, COLON);
      if i >= 0 {
        field, value := line[..i], line[i + 1..];
        if value != [] && value[0] == SPACE {
          value := value[1..];
        }
      }
      if field == EVENT {
        typ := value;
      } else if field == DATA {
        if |value| != 0 {
          body := body + value;
          body := body + [LF];
        }
      } else if field == ID {
        id := value;
      } else if field == RETRY {
        delay := value;
      }
      return false;
    }
  }

  /** One event from a list of lines: the event, the lines behind it, and whether
      the lines ran out before it was dispatched. */
  function NextEvent(e: Event, lines: seq<Bytes>): (r: (Event, seq<Bytes>, bool))
    ensures |r.1| <= |lines| && (!r.2 ==> |r.1| < |lines|)
    decreases |lines|
  {
    if lines == [] then (e, [], true)
    else
      var (e', dispatch) := AfterLine(e, lines[0]);
      if dispatch then (e', lines[1..], false) else NextEvent(e', lines[1..])
  }

  /** An event is read line by line, from one state to the next: up to the line that
      dispatches it, or to the end of the lines. */
  ghost predicate ReadThrough(start: Event, lines: seq<Bytes>, states: seq<Event>, e: Event, rest: seq<Bytes>,
                              eof: bool)
  {
    && 1 <= |states| <= |lines| + 1 && states[0] == start
    && (forall i :: 0 <= i < |states| - 1 ==> LineEffect(states[i], lines[i], states[i + 1], false))
    && var n := |states| - 1;
       if eof then n == |lines| && e == states[n] && rest == []
       else n < |lines| && LineEffect(states[n], lines[n], e, true) && rest == lines[n + 1..]
  }

  lemma {:induction false} NextEventReadsThrough(start: Event, lines: seq<Bytes>) returns (states: seq<Event>)
    ensures var (e, rest, eof) := NextEvent(start, lines); ReadThrough(start, lines, states, e, rest, eof)
    decreases |lines|
  {
    states := [start];
    if lines != [] {
      LineIsWrittenOut(start, lines[0]);
      var (next, dispatch) := AfterLine(start, lines[0]);
      if !dispatch {
        var more := NextEventReadsThrough(next, lines[1..]);
        states := [start] + more;
        assert forall i :: 0 <= i < |more| - 1 ==> lines[1..][i] == lines[i + 1];
      }
    }
  }

  /** `ParseSSEEvent`. */
  method ParseSseEvent(scanner: Scanner) returns (e: Event, eof: bool)
    modifies scanner
    ensures (e, scanner.Pending(), eof) == NextEvent(EMPTY, old(scanner.Pending()))
    ensures exists states ::
              ReadThrough(Event([], [], [], []), old(scanner.Pending()), states, e, scanner.Pending(), eof)
  {
    ghost var states := NextEventReadsThrough(EMPTY, scanner.Pending());
    var event := new SseEvent();
    var dispatch := false;
    while !dispatch
      invariant fresh(event)
      invariant !dispatch ==> NextEvent(event.Value(), scanner.Pending()) == NextEvent(EMPTY, old(scanner.Pending()))
      invariant dispatch ==> (event.Value(), scanner.Pending(), false) == NextEvent(EMPTY, old(scanner.Pending()))
      decreases |scanner.Pending()|, !dispatch
    {
      ghost var before := scanner.Pending();
      var line := scanner.Scan();
      if line.None? {
        return event.Value(), true;
      }
      assert before[1..] == scanner.Pending();
      dispatch := event.ParseLine(line.value);
    }
    return event.Value(), false;
  }

  /** All dispatched events, and the partial event at the end of the stream. */
  function ReadAll(lines: seq<Bytes>): (seq<Event>, Event)
    decreases |lines|
  {
    var (e, rest, eof) := NextEvent(EMPTY, lines);
    if eof then ([], e)
    else
      var (es, last) := ReadAll(rest);
      ([e] + es, last)
  }

  // ---- printing -------------------------------------------------------------

  function FieldLine(field: Bytes, value: Bytes): Bytes { field + [COLON, SPACE] + value }

  function OptionalLine(field: Bytes, value: Bytes): seq<Bytes>
  {
    if value == [] then [] else [FieldLine(field, value)]
  }

  /** The body is a concatenation of non-empty lines, each closed by a line feed. */
  predicate WellFormedBody(body: Bytes)
    decreases |body|
  {
    body == [] ||
    (CR !in body && var i := IndexOf(body, LF); i > 0 && WellFormedBody(body[i + 1..]))
  }

  function DataLines(body: Bytes): seq<Bytes>
    requires WellFormedBody(body)
    decreases |body|
  {
    if body == [] then []
    else
      var i := IndexOf(body, LF);
      [FieldLine(DATA, body[..i])] + DataLines(body[i + 1..])
  }

  predicate WellFormed(e: Event)
  {
    HasContent(e) && Clean(e.typ) && Clean(e.id) && Clean(e.delay) && WellFormedBody(e.body)
  }

  predicate AllWellFormed(es: seq<Event>) { forall i :: 0 <= i < |es| ==> WellFormed(es[i]) }

  function Fields(e: Event): seq<Bytes>
    requires WellFormed(e)
  {
    OptionalLine(EVENT, e.typ) + OptionalLine(ID, e.id) + OptionalLine(RETRY, e.delay) + DataLines(e.body)
  }

  function Print(e: Event): seq<Bytes>
    requires WellFormed(e)
  {
    Fields(e) + [[]]
  }

  function PrintAll(es: seq<Event>): seq<Bytes>
    requires AllWellFormed(es)
  {
    if es == [] then [] else Print(es[0]) + PrintAll(es[1..])
  }

  // ---- round trip -----------------------------------------------------------

  predicate IsField(f: Bytes) { f == EVENT || f == DATA || f == ID || f == RETRY }

  lemma FieldIsRead(e: Event, field: Bytes, value: Bytes)
    requires IsField(field)
    ensures AfterLine(e, FieldLine(field, value)) == (Assign(e, field, value), false)
  {
    var line := FieldLine(field, value);
    assert line == field + [COLON] + ([SPACE] + value);
    IndexIs(field, COLON, [SPACE] + value);
    assert line[0] == field[0] && |line| >= 4;
    assert line[..|field|] == field && line[|field| + 1..] == [SPACE] + value;
    assert ([SPACE] + value)[1..] == value;
  }

  lemma FieldStep(e: Event, field: Bytes, value: Bytes, rest: seq<Bytes>)
    requires IsField(field)
    ensures NextEvent(e, [FieldLine(field, value)] + rest) == NextEvent(Assign(e, field, value), rest)
  {
    FieldIsRead(e, field, value);
    assert ([FieldLine(field, value)] + rest)[1..] == rest;
  }

  lemma OptionalIsRead(e: Event, field: Bytes, value: Bytes, rest: seq<Bytes>)
    requires IsField(field) && field != DATA
    ensures NextEvent(e, OptionalLine(field, value) + rest) ==
            NextEvent(if value == [] then e else Assign(e, field, value), rest)
  {
    if value == [] {
      assert OptionalLine(field, value) + rest == rest;
    } else {
      FieldStep(e, field, value, rest);
    }
  }

  lemma DataStep(e: Event, value: Bytes, rest: seq<Bytes>)
    requires value != []
    ensures NextEvent(e, [FieldLine(DATA, value)] + rest) == NextEvent(e.(body := e.body + value + [LF]), rest)
  {
    FieldStep(e, DATA, value, rest);
    assert Assign(e, DATA, value) == e.(body := e.body + value + [LF]);
  }

  lemma {:induction false} BodyIsRead(e: Event, body: Bytes, rest: seq<Bytes>)
    requires WellFormedBody(body)
    ensures NextEvent(e, DataLines(body) + rest) == NextEvent(e.(body := e.body + body), rest)
    decreases |body|
  {
    if body == [] {
      assert DataLines(body) + rest == rest && e.body + body == e.body;
    } else {
      var i := IndexOf(body, LF);
      var first, more := body[..i], body[i + 1..];
      var lines := DataLines(more);
      assert DataLines(body) == [FieldLine(DATA, first)] + lines;
      assert DataLines(body) + rest == [FieldLine(DATA, first)] + (lines + rest);
      DataStep(e, first, lines + rest);
      BodyIsRead(e.(body := e.body + first + [LF]), more, rest);
      Reassociate(e.body, first, more, body);
    }
  }

  lemma Reassociate(done: Bytes, first: Bytes, more: Bytes, body: Bytes)
    requires |first| < |body| && first == body[..|first|] && body[|first|] == LF && more == body[|first| + 1..]
    ensures done + first + [LF] + more == done + body
  {
    assert body == first + [LF] + more;
  }

  lemma FieldsAreRead(e: Event, rest: seq<Bytes>)
    requires WellFormed(e)
    ensures NextEvent(EMPTY, Fields(e) + rest) == NextEvent(e, rest)
  {
    var body := DataLines(e.body) + rest;
    var delay := OptionalLine(RETRY, e.delay) + body;
    var id := OptionalLine(ID, e.id) + delay;
    assert Fields(e) + rest == OptionalLine(EVENT, e.typ) + id;
    var e1 := EMPTY.(typ := e.typ);
    var e2 := e1.(id := e.id);
    var e3 := e2.(delay := e.delay);
    OptionalIsRead(EMPTY, EVENT, e.typ, id);
    OptionalIsRead(e1, ID, e.id, delay);
    OptionalIsRead(e2, RETRY, e.delay, body);
    BodyIsRead(e3, e.body, rest);
    assert e3.body + e.body == e.body && e3.(body := e.body) == e;
  }

  lemma EventIsRead(e: Event, rest: seq<Bytes>)
    requires WellFormed(e)
    ensures NextEvent(EMPTY, Print(e) + rest) == (e, rest, false)
  {
    assert Print(e) + rest == Fields(e) + ([[]] + rest);
    FieldsAreRead(e, [[]] + rest);
    assert ([[]] + rest)[1..] == rest;
  }

  /** What was printed is what is read, and nothing is left over. */
  lemma {:induction false} PrintedEventsAreRead(es: seq<Event>)
    requires AllWellFormed(es)
    ensures ReadAll(PrintAll(es)) == (es, EMPTY)
  {
    if es != [] {
      EventIsRead(es[0], PrintAll(es[1..]));
      PrintedEventsAreRead(es[1..]);
      assert es == [es[0]] + es[1..];
    }
  }

  /** Lines that ask for nothing: blank ones, and comments. */
  predicate IsNoise(line: Bytes) { line == [] || line == [10] || line[0] == 58 }

  predicate OnlyNoise(lines: seq<Bytes>) { forall i :: 0 <= i < |lines| ==> IsNoise(lines[i]) }

  /** A comment changes nothing, wherever it stands. */
  lemma CommentIsIgnored(e: Event, line: Bytes, lines: seq<Bytes>)
    requires line != [] && line[0] == 58
    ensures NextEvent(e, [line] + lines) == NextEvent(e, lines)
  {
    assert ([line] + lines)[1..] == lines;
  }

  /** A blank line dispatches an event with content, and is skipped before there is any. */
  lemma BlankLine(e: Event, line: Bytes, lines: seq<Bytes>)
    requires line == [] || line == [10]
    ensures NextEvent(e, [line] + lines) ==
            if e.typ != [] || e.body != [] || e.id != [] then (e, lines, false) else NextEvent(e, lines)
  {
    assert ([line] + lines)[1..] == lines;
  }

  /** Keep-alive lines before an event are skipped. */
  lemma {:induction false} NoiseIsSkipped(noise: seq<Bytes>, lines: seq<Bytes>)
    requires OnlyNoise(noise)
    ensures NextEvent(EMPTY, noise + lines) == NextEvent(EMPTY, lines)
  {
    if noise == [] {
      assert noise + lines == lines;
    } else {
      var rest := noise[1..] + lines;
      assert noise + lines == [noise[0]] + rest;
      NoiseIsSkipped(noise[1..], lines);
      if noise[0] == [] || noise[0] == [10] {
        BlankLine(EMPTY, noise[0], rest);
      } else {
        CommentIsIgnored(EMPTY, noise[0], rest);
      }
    }
  }

  predicate AllNoise(pads: seq<seq<Bytes>>) { forall i :: 0 <= i < |pads| ==> OnlyNoise(pads[i]) }

  /** The events with noise before the first, between them, and behind the last. */
  function PrintPadded(es: seq<Event>, pads: seq<seq<Bytes>>): seq<Bytes>
    requires AllWellFormed(es) && |pads| == |es| + 1
  {
    pads[0] + if es == [] then [] else Print(es[0]) + PrintPadded(es[1..], pads[1..])
  }

  /** Any number of blank lines and comments between the events makes no difference. */
  lemma {:induction false} PaddedEventsAreRead(es: seq<Event>, pads: seq<seq<Bytes>>)
    requires AllWellFormed(es) && |pads| == |es| + 1 && AllNoise(pads)
    ensures ReadAll(PrintPadded(es, pads)) == (es, EMPTY)
  {
    if es == [] {
      NoiseIsSkipped(pads[0], []);
    } else {
      var rest := PrintPadded(es[1..], pads[1..]);
      NoiseIsSkipped(pads[0], Print(es[0]) + rest);
      EventIsRead(es[0], rest);
      PaddedEventsAreRead(es[1..], pads[1..]);
      assert es == [es[0]] + es[1..];
    }
  }

  lemma FieldLineIsClean(field: Bytes, value: Bytes)
    requires IsField(field) && Clean(value)
    ensures Clean(FieldLine(field, value))
  {
    assert Clean(field);
  }

  lemma {:induction false} DataLinesAreClean(body: Bytes)
    requires WellFormedBody(body)
    ensures AllClean(DataLines(body))
    decreases |body|
  {
    if body != [] {
      var i := IndexOf(body, LF);
      DataLinesAreClean(body[i + 1..]);
      assert Clean(body[..i]);
      FieldLineIsClean(DATA, body[..i]);
    }
  }

  lemma OneEventIsClean(e: Event)
    requires WellFormed(e)
    ensures AllClean(Print(e))
  {
    DataLinesAreClean(e.body);
    FieldLineIsClean(EVENT, e.typ);
    FieldLineIsClean(ID, e.id);
    FieldLineIsClean(RETRY, e.delay);
  }

  lemma {:induction false} PrintIsClean(es: seq<Event>)
    requires AllWellFormed(es)
    ensures AllClean(PrintAll(es))
  {
    if es != [] {
      OneEventIsClean(es[0]);
      PrintIsClean(es[1..]);
    }
  }

  function Blanks(lines: seq<Bytes>): nat
  {
    if lines == [] then 0 else (if IsBlank(lines[0]) then 1 else 0) + Blanks(lines[1..])
  }

  lemma {:induction false} BlanksAdd(a: seq<Bytes>, b: seq<Bytes>)
    ensures Blanks(a + b) == Blanks(a) + Blanks(b)
  {
    if a == [] {
      assert a + b == b;
    } else {
      BlanksAdd(a[1..], b);
      assert (a + b)[1..] == a[1..] + b;
    }
  }

  lemma {:induction false} BlankDispatches(e: Event, lines: seq<Bytes>)
    ensures var (_, rest, eof) := NextEvent(e, lines); !eof ==> Blanks(lines) >= 1 + Blanks(rest)
    decreases |lines|
  {
    if lines != [] {
      BlankDispatches(AfterLine(e, lines[0]).0, lines[1..]);
    }
  }

  lemma {:induction false} EventsNeedBlanks(lines: seq<Bytes>)
    ensures |ReadAll(lines).0| <= Blanks(lines)
    decreases |lines|
  {
    BlankDispatches(EMPTY, lines);
    var (_, rest, eof) := NextEvent(EMPTY, lines);
    if !eof {
      EventsNeedBlanks(rest);
    }
  }

  lemma {:induction false} DataLinesAreNotBlank(body: Bytes)
    requires WellFormedBody(body)
    ensures Blanks(DataLines(body)) == 0
    decreases |body|
  {
    if body != [] {
      DataLinesAreNotBlank(body[IndexOf(body, LF) + 1..]);
    }
  }

  lemma OptionalIsNotBlank(field: Bytes, value: Bytes)
    requires IsField(field)
    ensures Blanks(OptionalLine(field, value)) == 0
  {
    assert |FieldLine(field, value)| >= 4;
    assert [FieldLine(field, value)][1..] == [];
  }

  lemma NoBlankInFields(e: Event)
    requires WellFormed(e)
    ensures Blanks(Fields(e)) == 0
  {
    DataLinesAreNotBlank(e.body);
    var typ, id, delay := OptionalLine(EVENT, e.typ), OptionalLine(ID, e.id), OptionalLine(RETRY, e.delay);
    OptionalIsNotBlank(EVENT, e.typ);
    OptionalIsNotBlank(ID, e.id);
    OptionalIsNotBlank(RETRY, e.delay);
    BlanksAdd(typ, id);
    BlanksAdd(typ + id, delay);
    BlanksAdd(typ + id + delay, DataLines(e.body));
  }

  lemma OneBlankAnEvent(e: Event)
    requires WellFormed(e)
    ensures Blanks(Print(e)) == 1
  {
    NoBlankInFields(e);
    assert Blanks([[]]) == 1;
    BlanksAdd(Fields(e), [[]]);
  }

  lemma {:induction false} BlanksOfPrint(es: seq<Event>)
    requires AllWellFormed(es)
    ensures Blanks(PrintAll(es)) == |es|
    ensures es != [] ==> PrintAll(es) != [] && PrintAll(es)[|PrintAll(es)| - 1] == []
  {
    if es != [] {
      OneBlankAnEvent(es[0]);
      BlanksAdd(Print(es[0]), PrintAll(es[1..]));
      BlanksOfPrint(es[1..]);
    }
  }

  lemma TornStreamHasFewerBlanks(lines: seq<Bytes>, tokens: seq<Bytes>, k: nat)
    requires AllClean(lines) && CutShort(tokens, lines, k) && lines[|lines| - 1] == []
    ensures Blanks(tokens) < Blanks(lines)
  {
    CutShortDiffers(tokens, lines, k);
    LastBlankCounts(lines, k + 1);
    BlanksAdd(lines[..k + 1], [tokens[k + 1]]);
    assert tokens == lines[..k + 1] + [tokens[k + 1]];
    assert Blanks([tokens[k + 1]]) == 0;
  }

  /** A torn stream loses the event it was torn in, and all later ones. */
  lemma TornStreamLosesEvents(es: seq<Event>, tokens: seq<Bytes>, k: nat)
    requires AllWellFormed(es) && CutShort(tokens, PrintAll(es), k)
    ensures |ReadAll(tokens).0| < |es|
  {
    PrintIsClean(es);
    BlanksOfPrint(es);
    TornStreamHasFewerBlanks(PrintAll(es), tokens, k);
    EventsNeedBlanks(tokens);
  }

  lemma LastBlankCounts(lines: seq<Bytes>, n: nat)
    requires n < |lines| && lines[|lines| - 1] == []
    ensures Blanks(lines[..n]) < Blanks(lines)
  {
    var m := |lines| - 1;
    assert lines == lines[..m] + [[]] && lines[..m] == lines[..n] + lines[n..m];
    BlanksAdd(lines[..m], [[]]);
    BlanksAdd(lines[..n], lines[n..m]);
    assert Blanks([[]]) == 1;
  }

  /** Events printed with CRLF framing come out as they went in, with nothing left
      over, exactly when the connection tears no line from its line feed. */
  lemma StreamRoundTrip(es: seq<Event>, chunks: seq<Bytes>)
    requires AllWellFormed(es) && Flatten(chunks) == Frame(PrintAll(es))
    ensures ReadAll(Tokens([], chunks, false)) == (es, EMPTY) <==> NeverTorn([], chunks)
  {
    PrintIsClean(es);
    ChunkingIndependence(PrintAll(es), chunks);
    PrintedEventsAreRead(es);
    if !NeverTorn([], chunks) {
      assert [] + Flatten(chunks) == Frame(PrintAll(es));
      var k := SomeReadTears(PrintAll(es), [], chunks);
      TornStreamLosesEvents(es, Tokens([], chunks, false), k);
    }
  }

  lemma {:induction false} PaddedIsClean(es: seq<Event>, pads: seq<seq<Bytes>>)
    requires AllWellFormed(es) && |pads| == |es| + 1 && forall i :: 0 <= i < |pads| ==> AllClean(pads[i])
    ensures AllClean(PrintPadded(es, pads))
  {
    if es != [] {
      OneEventIsClean(es[0]);
      PaddedIsClean(es[1..], pads[1..]);
    }
  }

  /** The same with keep-alive lines and comments in the stream: untorn, it is read as the
      events alone. */
  lemma PaddedStreamIsRead(es: seq<Event>, pads: seq<seq<Bytes>>, chunks: seq<Bytes>)
    requires AllWellFormed(es) && |pads| == |es| + 1 && AllNoise(pads)
    requires forall i :: 0 <= i < |pads| ==> AllClean(pads[i])
    requires Flatten(chunks) == Frame(PrintPadded(es, pads)) && NeverTorn([], chunks)
    ensures ReadAll(Tokens([], chunks, false)) == (es, EMPTY)
  {
    PaddedIsClean(es, pads);
    ChunkingIndependence(PrintPadded(es, pads), chunks);
    PaddedEventsAreRead(es, pads);
  }

  // ---- streams with bare line ends ------------------------------------------

  lemma {:induction false} BlanksOfTextLines(lines: seq<Bytes>)
    requires AllClean(lines) && [] !in lines
    ensures Blanks(lines) == 0
  {
    if lines != [] {
      assert lines[0] in lines && Clean(lines[0]);
      assert forall l :: l in lines[1..] ==> l in lines;
      BlanksOfTextLines(lines[1..]);
    }
  }

  lemma {:induction false} FirstEmptyIs(a: seq<Bytes>, b: seq<Bytes>)
    requires Blanks(a) == 0
    ensures BeforeEmpty(a + [[]] + b) == |a|
  {
    if a != [] {
      assert (a + [[]] + b)[0] == a[0] && (a + [[]] + b)[1..] == a[1..] + [[]] + b;
      FirstEmptyIs(a[1..], b);
    }
  }

  /** The first empty line of a printed stream closes its first event. */
  lemma FirstEventEnds(es: seq<Event>)
    requires AllWellFormed(es) && es != []
    ensures BeforeEmpty(PrintAll(es)) == |Fields(es[0])|
    ensures PrintAll(es) == Fields(es[0]) + [[]] + PrintAll(es[1..])
  {
    NoBlankInFields(es[0]);
    FirstEmptyIs(Fields(es[0]), PrintAll(es[1..]));
  }

  /** The fields of the first event are tokens, and the rest is one more: blank only if
      there is no other event. */
  lemma FirstBareEvent(end: byte, es: seq<Event>) returns (last: Bytes)
    requires AllWellFormed(es) && es != [] && end in {LF, CR}
    ensures BareTokens(end, PrintAll(es)) == Fields(es[0]) + [last]
    ensures IsBlank(last) <==> |es| == 1
  {
    var lines, n := PrintAll(es), |Fields(es[0])|;
    PrintIsClean(es);
    FirstEventEnds(es);
    BlanksOfPrint(es[1..]);
    assert lines[n] == [] && lines[..n] == Fields(es[0]);
    RestToken(end, lines, n);
    last := DropCR(BareFrame(end, lines[n..]));
  }

  lemma OneBareEvent(e: Event, last: Bytes)
    requires WellFormed(e) && IsBlank(last)
    ensures ReadAll(Fields(e) + [last]) == ([e], EMPTY)
  {
    FieldsAreRead(e, [last]);
    assert [last][1..] == [];
    assert NextEvent(EMPTY, Fields(e) + [last]) == (e, [], false);
    assert ReadAll([]) == ([], EMPTY) && [e] + [] == [e];
  }

  lemma NoBareEvent(e: Event, last: Bytes)
    requires WellFormed(e) && !IsBlank(last)
    ensures ReadAll(Fields(e) + [last]).0 == []
  {
    NoBlankInFields(e);
    BlanksAdd(Fields(e), [last]);
    assert Blanks([last]) == 0;
    EventsNeedBlanks(Fields(e) + [last]);
  }

  /** A stream of events with lone LFs, or with lone CRs, is read back exactly when it
      holds at most one event; from two events on, nothing is dispatched at all. */
  lemma BareStreamIff(end: byte, es: seq<Event>, chunks: seq<Bytes>)
    requires end in {LF, CR} && AllWellFormed(es) && Flatten(chunks) == BareFrame(end, PrintAll(es))
    ensures ReadAll(Tokens([], chunks, false)) == (es, EMPTY) <==> |es| <= 1
    ensures |es| >= 2 ==> ReadAll(Tokens([], chunks, false)).0 == []
  {
    PrintIsClean(es);
    assert [] + Flatten(chunks) == BareFrame(end, PrintAll(es));
    BareScan(end, PrintAll(es), [], chunks);
    if es != [] {
      var last := FirstBareEvent(end, es);
      if |es| == 1 {
        OneBareEvent(es[0], last);
        assert es == [es[0]];
      } else {
        NoBareEvent(es[0], last);
      }
    }
  }

  // ---- the handler ----------------------------------------------------------

  predicate Supported(e: Event, types: set<Bytes>) { e.typ in types }

  /** What `handle` tries to queue: at the end of the stream the partial event,
      and then, end of stream or not, the event if its type is supported. */
  function Attempts(e: Event, eof: bool, types: set<Bytes>): seq<Event>
  {
    (if eof then [e] else []) + (if Supported(e, types) then [e] else [])
  }

  /** The event was tried so often, and queued as often as there was room. */
  predicate Queued(before: seq<Event>, after: seq<Event>, e: Event, tries: nat, capacity: nat)
  {
    && |after| == (if |before| + tries <= capacity then |before| + tries
                   else if |before| <= capacity then capacity else |before|)
    && before <= after && forall i :: |before| <= i < |after| ==> after[i] == e
  }

  lemma AttemptsAreQueued(queue: seq<Event>, e: Event, eof: bool, types: set<Bytes>, capacity: nat)
    ensures Queued(queue, Pushed(queue, Attempts(e, eof, types), capacity), e,
                   (if eof then 1 else 0) + if e.typ in types then 1 else 0, capacity)
  {
  }

  class Handler {
    const capacity: nat
    const types: set<Bytes>
    var queue: seq<Event>

    constructor (capacity: nat, types: set<Bytes>)
      ensures queue == [] && this.capacity == capacity && this.types == types
    {
      this.capacity, this.types, queue := capacity, types, [];
    }

    /** A full queue drops the event. */
    method EnqueueEvent(e: Event)
      modifies this
      ensures queue == Pushed(old(queue), [e], capacity)
      ensures queue == if |old(queue)| < capacity then old(queue) + [e] else old(queue)
    {
      if |queue| < capacity {
        queue := queue + [e];
      }
    }

    method Handle(scanner: Scanner) returns (eof: bool)
      requires |queue| <= capacity
      modifies this, scanner
      ensures |queue| <= capacity
      ensures var (e, rest, end) := NextEvent(EMPTY, old(scanner.Pending()));
              && eof == end && scanner.Pending() == rest
              && queue == Pushed(old(queue), Attempts(e, end, types), capacity)
              && Queued(old(queue), queue, e, (if end then 1 else 0) + if e.typ in types then 1 else 0, capacity)
    {
      var e: Event;
      e, eof := ParseSseEvent(scanner);
      AttemptsAreQueued(queue, e, eof, types, capacity);
      if eof {
        EnqueueEvent(e);
      }
      if Supported(e, types) {
        EnqueueEvent(e);
      }
    }

    /** What the workers take from the front of the queue. */
    method Take(n: nat) returns (es: seq<Event>)
      modifies this
      ensures es == old(queue)[..Least(n, |old(queue)|)] && queue == old(queue)[Least(n, |old(queue)|)..]
    {
      var m := Least(n, |queue|);
      es, queue := queue[..m], queue[m..];
    }

    /** The read loop, up to the end of the first connection, while workers take events:
        so many before each turn, and none when the list is used up. */
    method HandleStream(scanner: Scanner, takes: seq<nat>) returns (taken: seq<Event>)
      requires |queue| <= capacity
      modifies this, scanner
      ensures (taken, queue) == Deliver([], old(queue), old(scanner.Pending()), capacity, types, takes)
    {
      taken := [];
      var eof, left := false, takes;
      while !eof
        invariant |queue| <= capacity
        invariant (if eof then (taken, queue) else Deliver(taken, queue, scanner.Pending(), capacity, types, left)) ==
                  Deliver([], old(queue), old(scanner.Pending()), capacity, types, takes)
        decreases !eof, |scanner.Pending()|
      {
        var es := Take(First(left));
        taken, left := taken + es, Rest(left);
        eof := Handle(scanner);
      }
    }
  }

  function Least(m: nat, n: nat): nat { if m < n then m else n }

  function First(takes: seq<nat>): nat { if takes == [] then 0 else takes[0] }

  function Rest(takes: seq<nat>): seq<nat> { if takes == [] then [] else takes[1..] }

  /** What the workers have taken and what is still queued at the end of the connection. */
  function Deliver(taken: seq<Event>, queue: seq<Event>, lines: seq<Bytes>, capacity: nat, types: set<Bytes>,
                   takes: seq<nat>)
    : (seq<Event>, seq<Event>)
    decreases |lines|
  {
    var n := Least(First(takes), |queue|);
    var (e, rest, eof) := NextEvent(EMPTY, lines);
    var taken', queue' := taken + queue[..n], Pushed(queue[n..], Attempts(e, eof, types), capacity);
    if eof then (taken', queue') else Deliver(taken', queue', rest, capacity, types, Rest(takes))
  }

  /** Everything that the handler tries to queue, in order. */
  function AllAttempts(lines: seq<Bytes>, types: set<Bytes>): seq<Event>
    decreases |lines|
  {
    var (e, rest, eof) := NextEvent(EMPTY, lines);
    Attempts(e, eof, types) + if eof then [] else AllAttempts(rest, types)
  }

  /** Some of the elements, in order. */
  predicate Subsequence<T(==)>(a: seq<T>, b: seq<T>)
  {
    a == [] || (b != [] && ((a[0] == b[0] && Subsequence(a[1..], b[1..])) || Subsequence(a, b[1..])))
  }

  lemma {:induction false} SubsequencesAppend<T>(a: seq<T>, b: seq<T>, c: seq<T>, d: seq<T>)
    requires Subsequence(a, b) && Subsequence(c, d)
    ensures Subsequence(a + c, b + d)
    decreases |b|
  {
    if b == [] {
      assert a + c == c && b + d == d;
    } else {
      assert (b + d)[0] == b[0] && (b + d)[1..] == b[1..] + d;
      if a != [] && a[0] == b[0] && Subsequence(a[1..], b[1..]) {
        assert (a + c)[0] == a[0] && (a + c)[1..] == a[1..] + c;
        SubsequencesAppend(a[1..], b[1..], c, d);
      } else {
        SubsequencesAppend(a, b[1..], c, d);
      }
    }
  }

  lemma {:induction false} PrefixIsSubsequence<T>(b: seq<T>, k: nat)
    requires k <= |b|
    ensures Subsequence(b[..k], b)
  {
    if k > 0 {
      assert b[..k][1..] == b[1..][..k - 1];
      PrefixIsSubsequence(b[1..], k - 1);
    }
  }

  lemma PushedKeeps(queue: seq<Event>, es: seq<Event>, capacity: nat) returns (kept: seq<Event>)
    ensures Pushed(queue, es, capacity) == queue + kept && Subsequence(kept, es)
    ensures |queue| + |es| <= capacity ==> kept == es
  {
    if |queue| + |es| <= capacity {
      kept := es;
      PrefixIsSubsequence(es, |es|);
      assert es[..|es|] == es;
    } else if |queue| <= capacity {
      kept := es[..capacity - |queue|];
      PrefixIsSubsequence(es, capacity - |queue|);
    } else {
      kept := [];
      assert queue + kept == queue;
    }
  }

  /** From taken and queued events to later ones: these were added behind, some of all
      that were tried, and all of them if there was room. */
  predicate Added(taken: seq<Event>, queue: seq<Event>, after: (seq<Event>, seq<Event>), kept: seq<Event>,
                  all: seq<Event>, capacity: nat)
  {
    && after.0 + after.1 == taken + queue + kept
    && |after.1| <= |queue| + |kept|
    && Subsequence(kept, all)
    && (|queue| + |all| <= capacity ==> kept == all)
  }

  lemma OneTurn(taken: seq<Event>, queue: seq<Event>, n: nat, es: seq<Event>, capacity: nat) returns (now: seq<Event>)
    requires n <= |queue|
    ensures Added(taken, queue, (taken + queue[..n], Pushed(queue[n..], es, capacity)), now, es, capacity)
  {
    now := PushedKeeps(queue[n..], es, capacity);
    assert queue == queue[..n] + queue[n..];
    assert taken + queue[..n] + (queue[n..] + now) == taken + (queue[..n] + queue[n..]) + now;
  }

  lemma AddedTwice(taken: seq<Event>, queue: seq<Event>, mid: (seq<Event>, seq<Event>), end: (seq<Event>, seq<Event>),
                   now: seq<Event>, later: seq<Event>, es: seq<Event>, rest: seq<Event>, capacity: nat)
    requires Added(taken, queue, mid, now, es, capacity) && Added(mid.0, mid.1, end, later, rest, capacity)
    ensures Added(taken, queue, end, now + later, es + rest, capacity)
  {
    SubsequencesAppend(now, es, later, rest);
    assert taken + queue + now + later == taken + queue + (now + later);
  }

  /** However fast the workers are, they get events in the order of the stream, none twice
      and none that was not there; and all of them, if the queue can hold all. */
  lemma {:induction false} DeliveredInOrder(taken: seq<Event>, queue: seq<Event>, lines: seq<Bytes>, capacity: nat,
                                            types: set<Bytes>, takes: seq<nat>) returns (kept: seq<Event>)
    ensures var after := Deliver(taken, queue, lines, capacity, types, takes);
            Added(taken, queue, after, kept, AllAttempts(lines, types), capacity)
    decreases |lines|
  {
    var n := Least(First(takes), |queue|);
    var (e, rest, eof) := NextEvent(EMPTY, lines);
    var es := Attempts(e, eof, types);
    var mid := (taken + queue[..n], Pushed(queue[n..], es, capacity));
    kept := OneTurn(taken, queue, n, es, capacity);
    if eof {
      assert es + [] == es;
    } else {
      var later := DeliveredInOrder(mid.0, mid.1, rest, capacity, types, Rest(takes));
      AddedTwice(taken, queue, mid, Deliver(mid.0, mid.1, rest, capacity, types, Rest(takes)), kept, later,
                 es, AllAttempts(rest, types), capacity);
      kept := kept + later;
    }
  }

  lemma SupportedOneMore(e: Event, es: seq<Event>, types: set<Bytes>)
    ensures SupportedOnly([e] + es, types) ==
            if Supported(e, types) then [e] + SupportedOnly(es, types) else SupportedOnly(es, types)
  {
    assert ([e] + es)[1..] == es;
    assert [] + SupportedOnly(es, types) == SupportedOnly(es, types);
  }

  lemma AttemptsInFront(e: Event, types: set<Bytes>, some: seq<Event>, more: seq<Event>)
    ensures Attempts(e, false, types) + (some + more) == (if Supported(e, types) then [e] + some else some) + more
  {
  }

  lemma Regroup<T>(a: seq<T>, b: seq<T>, c: seq<T>)
    ensures a + b + c == a + (b + c)
  {
  }

  lemma OneFastTurn(taken: seq<Event>, queue: seq<Event>, n: nat, es: seq<Event>, capacity: nat)
    requires |queue| <= capacity <= n && |es| <= capacity
    ensures var m := Least(n, |queue|);
            taken + queue[..m] == taken + queue && Pushed(queue[m..], es, capacity) == es
  {
    assert Least(n, |queue|) == |queue|;
    assert queue[..|queue|] == queue && queue[|queue|..] == [] && [] + es == es;
  }

  /** Workers that empty the queue before every turn lose nothing, however long the stream
      is, as long as the queue holds two events. */
  lemma {:induction false} FastReadersLoseNothing(taken: seq<Event>, queue: seq<Event>, lines: seq<Bytes>,
                                                  capacity: nat, types: set<Bytes>, takes: seq<nat>)
    requires |queue| <= capacity && capacity >= 2
    requires |takes| > |lines| && forall n :: n in takes ==> n >= capacity
    ensures var after := Deliver(taken, queue, lines, capacity, types, takes);
            after.0 + after.1 == taken + queue + AllAttempts(lines, types)
    decreases |lines|
  {
    var (e, rest, eof) := NextEvent(EMPTY, lines);
    var es := Attempts(e, eof, types);
    assert takes[0] in takes;
    OneFastTurn(taken, queue, takes[0], es, capacity);
    if eof {
      assert es + [] == es;
    } else {
      assert forall n :: n in takes[1..] ==> n in takes;
      FastReadersLoseNothing(taken + queue, es, rest, capacity, types, takes[1..]);
      Regroup(taken + queue, es, AllAttempts(rest, types));
    }
  }

  /** What the handler tries to queue: the supported events, then the partial event, twice
      if its type is supported. */
  lemma {:induction false} AllAttemptsAre(lines: seq<Bytes>, types: set<Bytes>)
    ensures var (es, last) := ReadAll(lines);
            AllAttempts(lines, types) ==
            SupportedOnly(es, types) + if Supported(last, types) then [last, last] else [last]
    decreases |lines|
  {
    var (e, rest, eof) := NextEvent(EMPTY, lines);
    if !eof {
      var (es, last) := ReadAll(rest);
      AllAttemptsAre(rest, types);
      SupportedOneMore(e, es, types);
      AttemptsInFront(e, types, SupportedOnly(es, types), if Supported(last, types) then [last, last] else [last]);
    } else {
      assert Attempts(e, eof, types) + [] == Attempts(e, eof, types);
    }
  }

  /** A bounded queue after trying to push some events with nobody reading. */
  function Pushed(queue: seq<Event>, es: seq<Event>, capacity: nat): seq<Event>
  {
    if |queue| + |es| <= capacity then queue + es
    else if |queue| <= capacity then queue + es[..capacity - |queue|]
    else queue
  }

  lemma PushedTwice(queue: seq<Event>, es: seq<Event>, es': seq<Event>, capacity: nat)
    ensures Pushed(Pushed(queue, es, capacity), es', capacity) == Pushed(queue, es + es', capacity)
  {
  }

  function SupportedOnly(es: seq<Event>, types: set<Bytes>): seq<Event>
  {
    if es == [] then []
    else (if Supported(es[0], types) then [es[0]] else []) + SupportedOnly(es[1..], types)
  }

  /** The supported events come in the order of the stream. */
  lemma {:induction false} SupportedInOrder(es: seq<Event>, types: set<Bytes>)
    ensures Subsequence(SupportedOnly(es, types), es)
  {
    if es != [] {
      SupportedInOrder(es[1..], types);
      assert es == [es[0]] + es[1..];
      SupportedOneMore(es[0], es[1..], types);
      var rest := SupportedOnly(es[1..], types);
      assert ([es[0]] + rest)[1..] == rest;
    }
  }

  /** The events of the supported types are there as often as they came, and no others. */
  lemma {:induction false} SupportedAsOften(es: seq<Event>, types: set<Bytes>, e: Event)
    ensures multiset(SupportedOnly(es, types))[e] == if e.typ in types then multiset(es)[e] else 0
  {
    if es != [] {
      SupportedAsOften(es[1..], types, e);
      assert es == [es[0]] + es[1..];
      SupportedOneMore(es[0], es[1..], types);
    }
  }

  /** If nobody reads, the queue is filled in order up to its capacity. */
  lemma {:induction false} NobodyReads(queue: seq<Event>, lines: seq<Bytes>, capacity: nat, types: set<Bytes>)
    ensures Deliver([], queue, lines, capacity, types, []) == ([], Pushed(queue, AllAttempts(lines, types), capacity))
    decreases |lines|
  {
    var (e, rest, eof) := NextEvent(EMPTY, lines);
    var es := Attempts(e, eof, types);
    assert queue[0..] == queue && [] + queue[..0] == [];
    if eof {
      assert es + [] == es;
    } else {
      NobodyReads(Pushed(queue, es, capacity), rest, capacity, types);
      PushedTwice(queue, es, AllAttempts(rest, types), capacity);
    }
  }

  /** A well-formed stream fills the queue with its supported events, and one empty
      event behind them. */
  lemma StreamIsQueued(es: seq<Event>, chunks: seq<Bytes>, capacity: nat, types: set<Bytes>)
    requires AllWellFormed(es) && [] !in types
    requires Flatten(chunks) == Frame(PrintAll(es)) && NeverTorn([], chunks)
    ensures AllAttempts(Tokens([], chunks, false), types) == SupportedOnly(es, types) + [EMPTY]
    ensures Deliver([], [], Tokens([], chunks, false), capacity, types, []) ==
            ([], Pushed([], SupportedOnly(es, types) + [EMPTY], capacity))
  {
    StreamRoundTrip(es, chunks);
    AllAttemptsAre(Tokens([], chunks, false), types);
    NobodyReads([], Tokens([], chunks, false), capacity, types);
  }
}
