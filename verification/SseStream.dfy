/** Server-sent events: the printer of src/services/rag/stream.py and the hand-written parser of
    frontend/src/services/api.ts.  The frames are a subset of the event stream format of the WHATWG
    HTML Standard, sections 9.2.5 and 9.2.6. */
module SseStream {
  import opened Options
  import opened Texts

  datatype ServerEvent = ServerEvent(kind: string, data: string)

  /** `format_sse_event`; `data` is the printed JSON object. */
  function FormatEvent(e: ServerEvent): string {
    "event: " + e.kind + "\ndata: " + e.data + "\n\n"
  }

  function FormatAll(events: seq<ServerEvent>): string {
    if events == [] then "" else FormatEvent(events[0]) + FormatAll(events[1..])
  }

  /** White space in the sense of the browser's `trim`. */
  predicate IsSpace(c: char) {
    || c == ' ' || c == '\n' || c == '\r' || c == '\t'
    || c == '\U{000B}' || c == '\U{000C}' || c == '\U{00A0}' || c == '\U{1680}'
    || '\U{2000}' <= c <= '\U{200A}'
    || c == '\U{2028}' || c == '\U{2029}' || c == '\U{202F}' || c == '\U{205F}'
    || c == '\U{3000}' || c == '\U{FEFF}'
  }

  /** One by one: tab to carriage return, the space, the blanks of Unicode and the byte order mark. */
  lemma SpacesAre(c: char)
    ensures IsSpace(c) <==>
      c as int in {
        9, 10, 11, 12, 13, 32, 0xA0, 0x1680, 0x2000, 0x2001, 0x2002, 0x2003, 0x2004, 0x2005, 0x2006, 0x2007, 0x2008,
        0x2009, 0x200A, 0x2028, 0x2029, 0x202F, 0x205F, 0x3000, 0xFEFF}
  {
  }

  function BrowserTrim(text: string): string {
    Trim(text, IsSpace)
  }

  /** Non-empty, on one line, and not padded. */
  predicate OneLine(text: string) {
    && text != ""
    && !IsSpace(text[0]) && !IsSpace(text[|text| - 1])
    && forall i | 0 <= i < |text| :: text[i] != '\n'
  }

  /** What the server sends: a plain event name, and a JSON object.  RFC 8259, section 7, escapes every
      control character inside a JSON string, so the printed object holds no raw newline. */
  predicate Printable(e: ServerEvent) {
    OneLine(e.kind) && OneLine(e.data)
  }

  lemma TrimOneLine(text: string)
    requires OneLine(text)
    ensures BrowserTrim(text) == text
  {
    TrimmedStays(text, IsSpace);
  }

  // ---------------------------------------------------------------- the parser as functions

  predicate StartsWith(text: string, prefix: string) {
    |prefix| <= |text| && text[..|prefix|] == prefix
  }

  /** `text.replace(marker, '')`: removes the first occurrence. */
  function RemoveFirst(text: string, marker: string): string
    requires marker != ""
  {
    var found := Find(text, marker);
    if found.None? then text else text[..found.value] + text[found.value + |marker|..]
  }

  /** The effect of one line on the two variables of the frame loop. */
  function ReadLine(current: ServerEvent, line: string): ServerEvent {
    if StartsWith(line, "event: ") then current.(kind := BrowserTrim(RemoveFirst(line, "event: ")))
    else if StartsWith(line, "data: ") then current.(data := BrowserTrim(RemoveFirst(line, "data: ")))
    else current
  }

  function ReadLines(current: ServerEvent, lines: seq<string>): ServerEvent
    decreases |lines|
  {
    if lines == [] then current else ReadLines(ReadLine(current, lines[0]), lines[1..])
  }

  /** The callbacks one frame fires: at most one. */
  function ParseFrame(frame: string): seq<ServerEvent> {
    if BrowserTrim(frame) == "" then []
    else
      var e := ReadLines(ServerEvent("", ""), Split(frame, "\n"));
      if e.kind != "" && e.data != "" then [e] else []
  }

  function ParseFrames(frames: seq<string>): seq<ServerEvent> {
    if frames == [] then [] else ParseFrame(frames[0]) + ParseFrames(frames[1..])
  }

  datatype Parsed = Parsed(fired: seq<ServerEvent>, buffer: string)

  /** One read: complete frames are parsed, the rest waits in the buffer. */
  function Feed(buffer: string, chunk: string): Parsed {
    var parts := Split(buffer + chunk, "\n\n");
    Parsed(ParseFrames(parts[..|parts| - 1]), parts[|parts| - 1])
  }

  function FeedAll(chunks: seq<string>, buffer: string): Parsed {
    if chunks == [] then Parsed([], buffer)
    else
      var first := Feed(buffer, chunks[0]);
      var rest := FeedAll(chunks[1..], first.buffer);
      Parsed(first.fired + rest.fired, rest.buffer)
  }

  // ---------------------------------------------------------------- cutting the stream

  lemma {:induction false} ParseFramesAppend(first: seq<string>, second: seq<string>)
    ensures ParseFrames(first + second) == ParseFrames(first) + ParseFrames(second)
  {
    hide ParseFrame;
    if first == [] {
      assert first + second == second;
    } else {
      assert (first + second)[1..] == first[1..] + second;
      ParseFramesAppend(first[1..], second);
    }
  }

  /** Splitting a longer text splits off the same parts and goes on in the last one. */
  lemma {:induction false} SplitAppend(text: string, more: string, separator: string)
    requires separator != ""
    ensures var parts := Split(text, separator);
            Split(text + more, separator)
              == parts[..|parts| - 1] + Split(parts[|parts| - 1] + more, separator)
    decreases |text|
  {
    hide Find;
    var found := Find(text, separator);
    if found.Some? {
      var tail := text[found.value + |separator|..];
      var parts := Split(tail, separator);
      FindIgnoresWhatFollows(text, more, separator);
      SplitAppend(tail, more, separator);
      assert (text + more)[found.value + |separator|..] == tail + more;
      assert (text + more)[..found.value] == text[..found.value];
      assert ([text[..found.value]] + parts)[..|parts|] == [text[..found.value]] + parts[..|parts| - 1];
    }
  }

  lemma FeedInTwo(buffer: string, chunk: string, more: string)
    ensures var first := Feed(buffer, chunk);
            var second := Feed(first.buffer, more);
            Feed(buffer, chunk + more) == Parsed(first.fired + second.fired, second.buffer)
  {
    hide Split, ParseFrames;
    var parts := Split(buffer + chunk, "\n\n");
    var last := parts[|parts| - 1];
    var rest := Split(last + more, "\n\n");
    SplitAppend(buffer + chunk, more, "\n\n");
    assert buffer + (chunk + more) == (buffer + chunk) + more;
    var all := parts[..|parts| - 1] + rest;
    assert all[..|all| - 1] == parts[..|parts| - 1] + rest[..|rest| - 1];
    ParseFramesAppend(parts[..|parts| - 1], rest[..|rest| - 1]);
  }

  /** Cut independence, for any text whatever: reading it in pieces fires the same callbacks and leaves
      the same buffer as reading it at once. */
  lemma {:induction false} CutIndependence(chunks: seq<string>, buffer: string)
    requires Find(buffer, "\n\n").None?
    ensures FeedAll(chunks, buffer) == Feed(buffer, Concat(chunks))
  {
    hide Feed, Find;
    if chunks == [] {
      FeedNothing(buffer);
    } else {
      var first := Feed(buffer, chunks[0]);
      BufferIsClean(buffer, chunks[0]);
      CutIndependence(chunks[1..], first.buffer);
      FeedInTwo(buffer, chunks[0], Concat(chunks[1..]));
    }
  }

  lemma FeedNothing(buffer: string)
    requires Find(buffer, "\n\n").None?
    ensures Feed(buffer, "") == Parsed([], buffer)
  {
    hide Find;
    assert buffer + "" == buffer;
    assert Split(buffer, "\n\n") == [buffer];
    assert [buffer][..0] == [];
  }

  lemma BufferIsClean(buffer: string, chunk: string)
    ensures Find(Feed(buffer, chunk).buffer, "\n\n").None?
  {
    hide Split, ParseFrames, Find;
    SplitPartsAreClean(buffer + chunk, "\n\n");
  }

  // ---------------------------------------------------------------- printing and parsing

  function Body(e: ServerEvent): string {
    "event: " + e.kind + "\ndata: " + e.data
  }

  lemma BodyLines(e: ServerEvent)
    requires Printable(e)
    ensures Split(Body(e), "\n") == ["event: " + e.kind, "data: " + e.data]
  {
    var first := "event: " + e.kind;
    var second := "data: " + e.data;
    assert Body(e) == first + "\n" + second;
    NewlineFound(first, second);
    assert Body(e)[..|first|] == first;
    assert Body(e)[|first| + 1..] == second;
    NoNewline(second);
  }

  lemma NewlineFound(first: string, second: string)
    requires forall i | 0 <= i < |first| :: first[i] != '\n'
    ensures Find(first + "\n" + second, "\n") == Some(|first|)
  {
    var text := first + "\n" + second;
    assert text[|first|] == '\n';
    assert OccursAt(text, "\n", |first|);
    forall j: nat | j < |first|
      ensures !OccursAt(text, "\n", j)
    {
      assert text[j] == first[j];
      if OccursAt(text, "\n", j) {
        OccurrenceChar(text, "\n", j, 0);
        assert false;
      }
    }
    FindIs(text, "\n", |first|);
  }

  lemma NoNewline(text: string)
    requires forall i | 0 <= i < |text| :: text[i] != '\n'
    ensures Split(text, "\n") == [text]
  {
    if Find(text, "\n").Some? {
      var i := Find(text, "\n").value;
      OccurrenceChar(text, "\n", i, 0);
      assert false;
    }
  }

  lemma PrefixRemoved(prefix: string, text: string)
    requires prefix != ""
    ensures StartsWith(prefix + text, prefix) && RemoveFirst(prefix + text, prefix) == text
  {
    var whole := prefix + text;
    assert whole[..|prefix|] == prefix;
    assert OccursAt(whole, prefix, 0);
    FindIs(whole, prefix, 0);
    assert whole[..0] + whole[|prefix|..] == text;
  }

  lemma ParseBody(e: ServerEvent)
    requires Printable(e)
    ensures ParseFrame(Body(e)) == [e]
  {
    hide Split, Find, RemoveFirst, OneLine, BrowserTrim;
    BodyLines(e);
    BodyNotBlank(e);
    PrefixRemoved("event: ", e.kind);
    PrefixRemoved("data: ", e.data);
    TrimOneLine(e.kind);
    TrimOneLine(e.data);
    DataLineIsNotEventLine(e.data);
    NotEmpty(e);
    var lines := ["event: " + e.kind, "data: " + e.data];
    var start := ServerEvent("", "");
    ReadTwoLines(start, "event: " + e.kind, "data: " + e.data);
    assert ReadLine(start, "event: " + e.kind) == start.(kind := e.kind);
    assert ReadLine(start.(kind := e.kind), "data: " + e.data) == e;
  }

  lemma ReadTwoLines(start: ServerEvent, first: string, second: string)
    ensures ReadLines(start, [first, second]) == ReadLine(ReadLine(start, first), second)
  {
    hide ReadLine;
    var lines := [first, second];
    var next := ReadLine(start, first);
    assert lines[1..] == [second] && [second][1..] == [];
    assert ReadLines(next, [second]) == ReadLines(ReadLine(next, second), []);
    assert ReadLines(start, lines) == ReadLines(next, [second]);
  }

  lemma NotEmpty(e: ServerEvent)
    requires Printable(e)
    ensures e.kind != "" && e.data != ""
  {
  }

  lemma DataLineIsNotEventLine(data: string)
    ensures !StartsWith("data: " + data, "event: ")
  {
    assert ("data: " + data)[0] == 'd';
    assert "event: "[0] == 'e';
  }

  lemma BodyNotBlank(e: ServerEvent)
    requires Printable(e)
    ensures BrowserTrim(Body(e)) != ""
  {
    assert Body(e)[0] == 'e';
    assert TrimStart(Body(e), IsSpace) == Body(e);
    assert Body(e)[|Body(e)| - 1] == e.data[|e.data| - 1];
  }

  /** The blank line after the body is the first one. */
  lemma FrameEnd(e: ServerEvent, rest: string)
    requires Printable(e)
    ensures Find(FormatEvent(e) + rest, "\n\n") == Some(|Body(e)|)
  {
    var frame := Body(e) + "\n\n";
    assert FormatEvent(e) == frame;
    assert OccursAt(frame, "\n\n", |Body(e)|);
    forall j: nat | j < |Body(e)|
      ensures !OccursAt(frame, "\n\n", j)
    {
      NoBlankLineInBody(e, j);
    }
    FindIs(frame, "\n\n", |Body(e)|);
    FindIgnoresWhatFollows(frame, rest, "\n\n");
  }

  /** The only newline of a body is the one before `data: `. */
  lemma BodyNewline(e: ServerEvent, j: nat)
    requires Printable(e) && j < |Body(e)|
    ensures Body(e)[j] == '\n' ==>
      j == |"event: " + e.kind| && j + 1 < |Body(e)| && Body(e)[j + 1] == 'd'
  {
    var first := "event: " + e.kind;
    var second := "data: " + e.data;
    assert Body(e) == first + "\n" + second;
    if j < |first| {
      assert Body(e)[j] == first[j];
      assert first[j] == if j < 7 then "event: "[j] else e.kind[j - 7];
    } else if j > |first| {
      assert Body(e)[j] == second[j - |first| - 1];
      assert second[j - |first| - 1] == if j - |first| < 7 then "data: "[j - |first| - 1] else e.data[j - |first| - 7];
    } else {
      assert Body(e)[j + 1] == second[0];
    }
  }

  lemma NoBlankLineInBody(e: ServerEvent, j: nat)
    requires Printable(e) && j < |Body(e)|
    ensures !OccursAt(Body(e) + "\n\n", "\n\n", j)
  {
    var frame := Body(e) + "\n\n";
    if OccursAt(frame, "\n\n", j) {
      OccurrenceChar(frame, "\n\n", j, 0);
      OccurrenceChar(frame, "\n\n", j, 1);
      assert frame[j] == Body(e)[j];
      assert j + 1 < |Body(e)| ==> frame[j + 1] == Body(e)[j + 1];
      BodyNewline(e, j);
      assert false;
    }
  }

  lemma FeedFrame(e: ServerEvent, rest: string)
    requires Printable(e)
    ensures var later := Feed("", rest);
            Feed("", FormatEvent(e) + rest) == Parsed([e] + later.fired, later.buffer)
  {
    hide Find, ParseFrame;
    var text := FormatEvent(e) + rest;
    FrameEnd(e, rest);
    ParseBody(e);
    assert FormatEvent(e) == Body(e) + "\n\n";
    assert text[..|Body(e)|] == Body(e) && text[|Body(e)| + 2..] == rest;
    assert "" + text == text && "" + rest == rest;
    var parts := Split(rest, "\n\n");
    assert Split(text, "\n\n") == [Body(e)] + parts;
    assert ([Body(e)] + parts)[..|parts|] == [Body(e)] + parts[..|parts| - 1];
    ParseFramesAppend([Body(e)], parts[..|parts| - 1]);
    assert ParseFrames([Body(e)]) == [e];
  }

  lemma {:induction false} FeedAllFrames(events: seq<ServerEvent>)
    requires forall e :: e in events ==> Printable(e)
    ensures Feed("", FormatAll(events)) == Parsed(events, "")
  {
    hide Feed, Printable;
    if events == [] {
      assert Find("", "\n\n").None?;
      FeedNothing("");
    } else {
      FeedFrame(events[0], FormatAll(events[1..]));
      FeedAllFrames(events[1..]);
      assert events == [events[0]] + events[1..];
    }
  }

  /** The format of a frame, literally: such a text is exactly one event to the browser. */
  lemma FrameLaw(kind: string, data: string)
    requires OneLine(kind) && OneLine(data)
    ensures Feed("", "event: " + kind + "\ndata: " + data + "\n\n") == Parsed([ServerEvent(kind, data)], "")
  {
    hide Feed;
    var e := ServerEvent(kind, data);
    FeedFrame(e, "");
    assert FormatEvent(e) + "" == FormatEvent(e);
    FeedAllFrames([]);
  }

  /** Round trip: however the concatenated frames are cut, the browser fires exactly the events that
      were printed, in order, and ends with an empty buffer. */
  lemma RoundTrip(events: seq<ServerEvent>, chunks: seq<string>)
    requires forall e :: e in events ==> Printable(e)
    requires Concat(chunks) == FormatAll(events)
    ensures FeedAll(chunks, "") == Parsed(events, "")
  {
    hide Feed, FeedAll, Printable;
    CutIndependence(chunks, "");
    FeedAllFrames(events);
  }

  // ---------------------------------------------------------------- any frame

  /** The last line with this prefix has this value; no such line, no value. */
  ghost predicate Says(lines: seq<string>, prefix: string, value: string) {
    || (value == "" && forall k | 0 <= k < |lines| :: !StartsWith(lines[k], prefix))
    || exists i :: LastWith(lines, prefix, i) && value == BrowserTrim(lines[i][|prefix|..])
  }

  ghost predicate LastWith(lines: seq<string>, prefix: string, i: int) {
    0 <= i < |lines| && StartsWith(lines[i], prefix) && forall k | i < k < |lines| :: !StartsWith(lines[k], prefix)
  }

  lemma PrefixIsFirst(line: string, prefix: string)
    requires prefix != "" && StartsWith(line, prefix)
    ensures RemoveFirst(line, prefix) == line[|prefix|..]
  {
    assert line == prefix + line[|prefix|..];
    PrefixRemoved(prefix, line[|prefix|..]);
  }

  lemma ReadLineIs(current: ServerEvent, line: string)
    ensures StartsWith(line, "event: ") ==> ReadLine(current, line) == current.(kind := BrowserTrim(line[7..]))
    ensures StartsWith(line, "data: ") ==> ReadLine(current, line) == current.(data := BrowserTrim(line[6..]))
    ensures !StartsWith(line, "event: ") && !StartsWith(line, "data: ") ==> ReadLine(current, line) == current
  {
    hide RemoveFirst, BrowserTrim;
    if StartsWith(line, "event: ") {
      PrefixIsFirst(line, "event: ");
      assert line[0] == "event: "[0];
    }
    if StartsWith(line, "data: ") {
      PrefixIsFirst(line, "data: ");
      assert line[0] == "data: "[0];
    }
  }

  lemma {:induction false} ReadLinesAppend(current: ServerEvent, lines: seq<string>, line: string)
    ensures ReadLines(current, lines + [line]) == ReadLine(ReadLines(current, lines), line)
    decreases |lines|
  {
    hide ReadLine;
    if lines == [] {
      assert [line][1..] == [];
    } else {
      assert (lines + [line])[1..] == lines[1..] + [line];
      ReadLinesAppend(ReadLine(current, lines[0]), lines[1..], line);
    }
  }

  lemma {:induction false} LinesSay(lines: seq<string>)
    ensures var e := ReadLines(ServerEvent("", ""), lines); Says(lines, "event: ", e.kind) && Says(lines, "data: ", e.data)
    decreases |lines|
  {
    hide ReadLine, BrowserTrim;
    if lines != [] {
      var n := |lines| - 1;
      var init, last := lines[..n], lines[n];
      assert lines == init + [last];
      LinesSay(init);
      var before := ReadLines(ServerEvent("", ""), init);
      ReadLinesAppend(ServerEvent("", ""), init, last);
      ReadLineIs(before, last);
      SaysMore(init, last, "event: ", before.kind);
      SaysMore(init, last, "data: ", before.data);
      if StartsWith(last, "event: ") {
        assert last[0] == "event: "[0];
      }
      if StartsWith(last, "data: ") {
        assert last[0] == "data: "[0];
      }
    }
  }

  lemma SaysMore(init: seq<string>, last: string, prefix: string, value: string)
    requires Says(init, prefix, value)
    ensures Says(init + [last], prefix, if StartsWith(last, prefix) then BrowserTrim(last[|prefix|..]) else value)
  {
    var lines := init + [last];
    if StartsWith(last, prefix) {
      assert LastWith(lines, prefix, |init|);
    } else if i :| LastWith(init, prefix, i) && value == BrowserTrim(init[i][|prefix|..]) {
      assert LastWith(lines, prefix, i);
    }
  }

  lemma SaysOnce(lines: seq<string>, prefix: string, a: string, b: string)
    requires Says(lines, prefix, a) && Says(lines, prefix, b)
    ensures a == b
  {
  }

  /** What any frame fires, whoever printed it: nothing if it is blank; otherwise one event with what its last
      `event: ` line and its last `data: ` line say, provided that both say something. */
  lemma FrameFires(frame: string, kind: string, data: string)
    requires Says(Split(frame, "\n"), "event: ", kind) && Says(Split(frame, "\n"), "data: ", data)
    ensures ParseFrame(frame) ==
              if BrowserTrim(frame) == "" || kind == "" || data == "" then [] else [ServerEvent(kind, data)]
  {
    hide Says, ReadLines, BrowserTrim, Split;
    var lines := Split(frame, "\n");
    var e := ReadLines(ServerEvent("", ""), lines);
    LinesSay(lines);
    SaysOnce(lines, "event: ", kind, e.kind);
    SaysOnce(lines, "data: ", data, e.data);
  }

  // ---------------------------------------------------------------- the code

  class Reader {
    var buffer: string
    var fired: seq<ServerEvent>

    constructor ()
      ensures buffer == "" && fired == []
    {
      buffer, fired := "", [];
    }

    /** One iteration of the read loop of `streamQueryRAG`. */
    method OnRead(chunk: string)
      modifies this
      ensures Parsed(fired, buffer)
           == Parsed(old(fired) + Feed(old(buffer), chunk).fired, Feed(old(buffer), chunk).buffer)
    {
      hide Split, ParseFrame;
      buffer := buffer + chunk;
      var events := Split(buffer, "\n\n");
      buffer := events[|events| - 1];
      events := events[..|events| - 1];
      for k := 0 to |events|
        invariant fired == old(fired) + ParseFrames(events[..k])
        invariant buffer == Feed(old(buffer), chunk).buffer
      {
        var fires := OnFrame(events[k]);
        ParseFramesAppend(events[..k], [events[k]]);
        assert events[..k] + [events[k]] == events[..k + 1];
        assert ParseFrames([events[k]]) == ParseFrame(events[k]) + [];
        fired := fired + fires;
      }
      assert events[..|events|] == events;
    }

    /** The body of the frame loop. */
    static method OnFrame(evt: string) returns (fires: seq<ServerEvent>)
      ensures fires == ParseFrame(evt)
    {
      hide Split, BrowserTrim, ReadLine;
      if BrowserTrim(evt) == "" {
        return [];
      }
      var lines := Split(evt, "\n");
      var current := ServerEvent("", "");
      for k := 0 to |lines|
        invariant ReadLines(ServerEvent("", ""), lines) == ReadLines(current, lines[k..])
      {
        assert lines[k..][0] == lines[k] && lines[k..][1..] == lines[k + 1..];
        current := ReadOneLine(current, lines[k]);
      }
      fires := if current.kind != "" && current.data != "" then [current] else [];
    }

    static method ReadOneLine(current: ServerEvent, line: string) returns (next: ServerEvent)
      ensures next == ReadLine(current, line)
    {
      hide BrowserTrim, RemoveFirst;
      var eventType, dataStr := current.kind, current.data;
      if StartsWith(line, "event: ") {
        eventType := BrowserTrim(RemoveFirst(line, "event: "));
      } else if StartsWith(line, "data: ") {
        dataStr := BrowserTrim(RemoveFirst(line, "data: "));
      }
      next := ServerEvent(eventType, dataStr);
    }
  }

  lemma FeedAllNext(chunks: seq<string>, k: nat, buffer: string)
    requires k < |chunks|
    ensures var first := Feed(buffer, chunks[k]);
            var rest := FeedAll(chunks[k + 1..], first.buffer);
            FeedAll(chunks[k..], buffer) == Parsed(first.fired + rest.fired, rest.buffer)
  {
    hide Feed;
    assert chunks[k..][0] == chunks[k] && chunks[k..][1..] == chunks[k + 1..];
  }

  lemma FeedAllNone(buffer: string)
    ensures FeedAll([], buffer) == Parsed([], buffer)
  {
  }

  /** Server and browser end to end, for every way the network cuts the stream. */
  method Transmit(events: seq<ServerEvent>, chunks: seq<string>) returns (fired: seq<ServerEvent>, rest: string)
    requires forall e :: e in events ==> Printable(e)
    requires Concat(chunks) == FormatAll(events)
    ensures fired == events && rest == ""
  {
    hide Feed, FeedAll, Printable;
    var reader := new Reader();
    assert chunks[0..] == chunks;
    for k := 0 to |chunks|
      invariant FeedAll(chunks, "").fired == reader.fired + FeedAll(chunks[k..], reader.buffer).fired
      invariant FeedAll(chunks, "").buffer == FeedAll(chunks[k..], reader.buffer).buffer
    {
      FeedAllNext(chunks, k, reader.buffer);
      reader.OnRead(chunks[k]);
    }
    assert chunks[|chunks|..] == [];
    FeedAllNone(reader.buffer);
    RoundTrip(events, chunks);
    fired, rest := reader.fired, reader.buffer;
  }
}
