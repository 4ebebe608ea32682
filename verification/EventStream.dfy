/** Server-sent events: the frame printer on the server and the incremental reader in the
    browser. Only line feeds end lines here, and only the `event:` and `data:` fields
    are read. Payload text is opaque: `parse` turns it into a payload or refuses it. */
module EventStream {
  import opened Domain

  datatype Event<T> = Event(name: string, data: T)

  const NL := '\n'

  // ------------------------------------------------------ cutting the stream

  predicate BlankAt(s: string, i: int) {
    0 <= i && i + 1 < |s| && s[i] == NL && s[i + 1] == NL
  }

  /** The leftmost blank line at or after `from`, or -1. */
  function FindBlank(s: string, from: nat): (r: int)
    requires from <= |s|
    ensures r == -1 || (from <= r && BlankAt(s, r))
    ensures forall i :: from <= i && (r == -1 || i < r) ==> !BlankAt(s, i)
    decreases |s| - from
  {
    if from + 1 >= |s| then -1 else if BlankAt(s, from) then from else FindBlank(s, from + 1)
  }

  lemma FindBlankIs(s: string, r: int)
    requires BlankAt(s, r) && forall i :: 0 <= i < r ==> !BlankAt(s, i)
    ensures FindBlank(s, 0) == r
  {
  }

  /** The whole frames of a text, and the unfinished rest. */
  function Frames(s: string): (r: (seq<string>, string))
    decreases |s|
  {
    var split := FindBlank(s, 0);
    if split == -1 then ([], s)
    else
      var (frames, rest) := Frames(s[split + 2..]);
      ([s[..split]] + frames, rest)
  }

  /** Frames already complete are not disturbed by what arrives later. */
  lemma {:induction false} FramesOfMore(s: string, more: string)
    ensures var (frames, rest) := Frames(s);
      Frames(s + more) == (frames + Frames(rest + more).0, Frames(rest + more).1)
    decreases |s|
  {
    var split := FindBlank(s, 0);
    if split == -1 {
      assert [] + Frames(s + more).0 == Frames(s + more).0;
    } else {
      forall i | 0 <= i < split
        ensures !BlankAt(s + more, i)
      {
        assert !BlankAt(s, i);
      }
      FindBlankIs(s + more, split);
      assert (s + more)[..split] == s[..split];
      assert (s + more)[split + 2..] == s[split + 2..] + more;
      FramesOfMore(s[split + 2..], more);
      var (frames, rest) := Frames(s[split + 2..]);
      assert [s[..split]] + (frames + Frames(rest + more).0) == [s[..split]] + frames + Frames(rest + more).0;
    }
  }

  /** The frames with their blank lines put back. */
  function Rejoined(frames: seq<string>): string {
    if frames == [] then "" else frames[0] + [NL, NL] + Rejoined(frames[1..])
  }

  ghost predicate NoBlankLine(s: string) { forall i :: !BlankAt(s, i) }

  lemma FirstFrameIsCutOff(s: string)
    requires FindBlank(s, 0) != -1
    ensures var split := FindBlank(s, 0);
      NoBlankLine(s[..split]) && s == s[..split] + [NL, NL] + s[split + 2..]
  {
    var split := FindBlank(s, 0);
    forall i ensures !BlankAt(s[..split], i) {
      assert BlankAt(s[..split], i) ==> BlankAt(s, i);
    }
  }

  lemma RejoinedMore(first: string, frames: seq<string>, rest: string)
    ensures Rejoined([first] + frames) + rest == first + [NL, NL] + (Rejoined(frames) + rest)
  {
    assert ([first] + frames)[1..] == frames;
  }

  /** Cutting loses nothing and leaves nothing uncut: the frames and the rest make up the text,
      and none of them holds a blank line. */
  lemma {:induction false} FramesRejoin(s: string)
    ensures Rejoined(Frames(s).0) + Frames(s).1 == s
    ensures NoBlankLine(Frames(s).1) && forall frame :: frame in Frames(s).0 ==> NoBlankLine(frame)
    decreases |s|
  {
    var split := FindBlank(s, 0);
    if split == -1 {
      assert Rejoined([]) + s == s;
    } else {
      var first, later := s[..split], s[split + 2..];
      FramesRejoin(later);
      FirstFrameIsCutOff(s);
      RejoinedMore(first, Frames(later).0, Frames(later).1);
      assert Frames(s).0 == [first] + Frames(later).0;
    }
  }

  // --------------------------------------------------------- one frame

  /** White space and line terminators as the browser's trim sees them. */
  predicate IsSpace(c: char) {
    var u := c as int;
    || 9 <= u <= 13 || u == 32 || u == 0xA0 || u == 0x1680 || 0x2000 <= u <= 0x200A
    || u == 0x2028 || u == 0x2029 || u == 0x202F || u == 0x205F || u == 0x3000 || u == 0xFEFF
  }

  function Trim(s: string): string {
    if s == "" then ""
    else if IsSpace(s[0]) then Trim(s[1..])
    else if IsSpace(s[|s| - 1]) then Trim(s[..|s| - 1])
    else s
  }

  predicate Trimmed(s: string) {
    s == "" || (!IsSpace(s[0]) && !IsSpace(s[|s| - 1]))
  }

  predicate OneLine(s: string) { NL !in s }

  function FindNewline(s: string, from: nat): (r: nat)
    requires from <= |s|
    ensures from <= r <= |s| && (r < |s| ==> s[r] == NL)
    ensures forall i :: from <= i < r ==> s[i] != NL
    decreases |s| - from
  {
    if from == |s| || s[from] == NL then from else FindNewline(s, from + 1)
  }

  function Lines(s: string): (r: seq<string>)
    ensures r != []
    decreases |s|
  {
    var end := FindNewline(s, 0);
    if end == |s| then [s] else [s[..end]] + Lines(s[end + 1..])
  }

  /** What one line adds to the event name and the data lines read so far. */
  function Field(sofar: (string, seq<string>), line: string): (string, seq<string>) {
    if "event:" <= line then (Trim(line[6..]), sofar.1)
    else if "data:" <= line then (sofar.0, sofar.1 + [Trim(line[5..])])
    else sofar
  }

  function Fields(lines: seq<string>): (string, seq<string>) {
    if lines == [] then ("message", []) else Field(Fields(lines[..|lines| - 1]), lines[|lines| - 1])
  }

  lemma OneMoreField(lines: seq<string>, line: string)
    ensures Fields(lines + [line]) == Field(Fields(lines), line)
  {
    assert (lines + [line])[..|lines|] == lines;
  }

  function JoinLines(lines: seq<string>): string {
    if lines == [] then ""
    else if |lines| == 1 then lines[0]
    else lines[0] + [NL] + JoinLines(lines[1..])
  }

  function Parsed<T>(frame: string, parse: string -> Option<T>): Option<Event<T>> {
    var (name, data) := Fields(Lines(frame));
    if data == [] then None
    else
      var payload := parse(JoinLines(data));
      if payload.None? then None else Some(Event(name, payload.value))
  }

  function Yield<T>(e: Option<Event<T>>): seq<Event<T>> { if e.Some? then [e.value] else [] }

  /** The events of a list of frames; a frame without a readable payload is skipped. */
  function Collect<T>(frames: seq<string>, parse: string -> Option<T>): seq<Event<T>> {
    if frames == [] then [] else Yield(Parsed(frames[0], parse)) + Collect(frames[1..], parse)
  }

  lemma {:induction false} CollectConcat<T>(xs: seq<string>, ys: seq<string>, parse: string -> Option<T>)
    ensures Collect(xs + ys, parse) == Collect(xs, parse) + Collect(ys, parse)
  {
    if xs == [] {
      assert xs + ys == ys;
    } else {
      assert (xs + ys)[1..] == xs[1..] + ys;
      CollectConcat(xs[1..], ys, parse);
    }
  }

  // ------------------------------------------------- what a frame says

  /** The characters cut off at both ends of a field: the blanks and line ends of ECMAScript. */
  predicate Blanks(s: string) {
    forall i :: 0 <= i < |s| ==>
      s[i] as int in {9, 10, 11, 12, 13, 32, 0xA0, 0x1680, 0x2000, 0x2001, 0x2002, 0x2003, 0x2004, 0x2005, 0x2006, 0x2007,
                      0x2008, 0x2009, 0x200A, 0x2028, 0x2029, 0x202F, 0x205F, 0x3000, 0xFEFF}
  }

  /** Exactly the blanks around a value are cut off. */
  lemma {:induction false} TrimCutsTheBlanks(before: string, value: string, after: string)
    requires Blanks(before) && Blanks(after)
    requires value != "" ==> !Blanks(value[..1]) && !Blanks(value[|value| - 1..])
    ensures Trim(before + value + after) == value
    decreases |before|, |after|
  {
    var s := before + value + after;
    if before != "" {
      assert before[0] as int in {9, 10, 11, 12, 13, 32} || before[0] as int > 32;
      assert s[1..] == before[1..] + value + after;
      TrimCutsTheBlanks(before[1..], value, after);
    } else if value == "" && after != "" {
      assert after[0] as int in {9, 10, 11, 12, 13, 32} || after[0] as int > 32;
      assert s[1..] == before + value + after[1..];
      TrimCutsTheBlanks(before, value, after[1..]);
    } else if after != "" {
      assert s[0] == value[0] && s[|s| - 1] == after[|after| - 1];
      assert s[..|s| - 1] == before + value + after[..|after| - 1];
      TrimCutsTheBlanks(before, value, after[..|after| - 1]);
    } else {
      assert s == value;
    }
  }

  /** The values of the data lines, from the first on. */
  function DataOf(lines: seq<string>): seq<string> {
    if lines == [] then []
    else (if "data:" <= lines[0] then [Trim(lines[0][5..])] else []) + DataOf(lines[1..])
  }

  lemma {:induction false} DataOfOneMore(lines: seq<string>, line: string)
    ensures DataOf(lines + [line]) == DataOf(lines) + if "data:" <= line then [Trim(line[5..])] else []
  {
    if lines == [] {
      assert [line][1..] == [];
    } else {
      assert (lines + [line])[1..] == lines[1..] + [line];
      DataOfOneMore(lines[1..], line);
    }
  }

  predicate NamesEvent(line: string) { "event:" <= line }

  lemma EventLineIsNoData(line: string)
    requires NamesEvent(line)
    ensures !("data:" <= line)
  {
    assert line[0] == "event:"[0];
  }

  /** A frame is named by its last event line, or is a message when it has none; and its data
      are its data lines, in their order. */
  lemma {:induction false} WhatAFrameSays(lines: seq<string>, k: nat)
    requires k <= |lines| && forall j :: k < j < |lines| ==> !NamesEvent(lines[j])
    requires if k == |lines| then forall j :: 0 <= j < k ==> !NamesEvent(lines[j]) else NamesEvent(lines[k])
    ensures Fields(lines) == (if k == |lines| then "message" else Trim(lines[k][6..]), DataOf(lines))
  {
    if lines != [] {
      var n := |lines| - 1;
      var front, last := lines[..n], lines[n];
      assert lines == front + [last];
      DataOfOneMore(front, last);
      assert DataOf(front) + [] == DataOf(front);
      if k == n {
        var m := LastNamed(front);
        WhatAFrameSays(front, m);
        EventLineIsNoData(last);
      } else {
        WhatAFrameSays(front, if k > n then n else k);
      }
    }
  }

  lemma {:induction false} LastNamed(lines: seq<string>) returns (k: nat)
    ensures k <= |lines| && forall j :: k < j < |lines| ==> !NamesEvent(lines[j])
    ensures if k == |lines| then forall j :: 0 <= j < k ==> !NamesEvent(lines[j]) else NamesEvent(lines[k])
  {
    if lines == [] {
      k := 0;
    } else {
      var n := |lines| - 1;
      k := LastNamed(lines[..n]);
      if NamesEvent(lines[n]) {
        k := n;
      } else if k == n {
        k := n + 1;
      }
    }
  }

  /** A frame yields an event exactly when it has a data line and its data can be read. */
  lemma FrameYieldsExactlyWhen<T>(frame: string, parse: string -> Option<T>)
    ensures var lines := Lines(frame);
      Parsed(frame, parse).Some?
      <==> (exists k :: 0 <= k < |lines| && "data:" <= lines[k]) && parse(JoinLines(DataOf(lines))).Some?
    ensures Parsed(frame, parse).Some? ==> Some(Parsed(frame, parse).value.data) == parse(JoinLines(DataOf(Lines(frame))))
  {
    var lines := Lines(frame);
    var k := LastNamed(lines);
    WhatAFrameSays(lines, k);
    DataComesFromDataLines(lines);
  }

  lemma {:induction false} DataComesFromDataLines(lines: seq<string>)
    ensures DataOf(lines) != [] <==> exists k :: 0 <= k < |lines| && "data:" <= lines[k]
  {
    if lines != [] {
      DataComesFromDataLines(lines[1..]);
      if k :| 0 <= k < |lines| && "data:" <= lines[k] {
        assert k > 0 ==> lines[1..][k - 1] == lines[k];
      }
    }
  }

  /** The joined data is cut back into the same lines. */
  lemma {:induction false} LinesUndoJoin(lines: seq<string>)
    requires lines != [] && forall k :: 0 <= k < |lines| ==> OneLine(lines[k])
    ensures Lines(JoinLines(lines)) == lines
  {
    var first := lines[0];
    if |lines| == 1 {
      assert FindNewline(first, 0) == |first|;
    } else {
      var rest := JoinLines(lines[1..]);
      var s := first + [NL] + rest;
      assert s[|first|] == NL && forall i :: 0 <= i < |first| ==> s[i] == first[i];
      assert FindNewline(s, 0) == |first|;
      assert s[..|first|] == first && s[|first| + 1..] == rest;
      LinesUndoJoin(lines[1..]);
      assert lines == [first] + lines[1..];
    }
  }

  // --------------------------------------------------------- the reader

  function Flatten(chunks: seq<string>): string {
    if chunks == [] then "" else Flatten(chunks[..|chunks| - 1]) + chunks[|chunks| - 1]
  }

  method ParseFrame<T>(frame: string, parse: string -> Option<T>) returns (e: Option<Event<T>>)
    ensures e == Parsed(frame, parse)
  {
    var name, dataLines, lines := "message", [], Lines(frame);
    var k := 0;
    while k < |lines|
      invariant 0 <= k <= |lines| && (name, dataLines) == Fields(lines[..k])
    {
      OneMoreField(lines[..k], lines[k]);
      assert lines[..k + 1] == lines[..k] + [lines[k]];
      if "event:" <= lines[k] {
        name := Trim(lines[k][6..]);
      } else if "data:" <= lines[k] {
        dataLines := dataLines + [Trim(lines[k][5..])];
      }
      k := k + 1;
    }
    assert lines[..k] == lines;
    if dataLines == [] {
      return None;
    }
    var payload := parse(JoinLines(dataLines));
    return if payload.None? then None else Some(Event(name, payload.value));
  }

  /** What was already yielded and what the buffer still gives are what the text gives. */
  ghost predicate Reads<T>(events: seq<Event<T>>, buffer: string, text: string, parse: string -> Option<T>) {
    && events + Collect(Frames(buffer).0, parse) == Collect(Frames(text).0, parse)
    && Frames(buffer).1 == Frames(text).1
  }

  lemma OneFrameOn<T>(events: seq<Event<T>>, buffer: string, text: string, parse: string -> Option<T>)
    requires FindBlank(buffer, 0) != -1 && Reads(events, buffer, text, parse)
    ensures var split := FindBlank(buffer, 0);
      Reads(events + Yield(Parsed(buffer[..split], parse)), buffer[split + 2..], text, parse)
  {
    var split := FindBlank(buffer, 0);
    var frame, later := buffer[..split], Frames(buffer[split + 2..]).0;
    assert ([frame] + later)[1..] == later;
    ConcatAssociates(events, Yield(Parsed(frame, parse)), Collect(later, parse));
  }

  lemma ConcatAssociates<T>(a: seq<T>, b: seq<T>, c: seq<T>)
    ensures a + (b + c) == a + b + c
  {
  }

  lemma NothingLeft<T>(events: seq<Event<T>>, buffer: string, text: string, parse: string -> Option<T>)
    requires FindBlank(buffer, 0) == -1 && Reads(events, buffer, text, parse)
    ensures events == Collect(Frames(text).0, parse) && buffer == Frames(text).1
  {
    assert events + [] == events;
  }

  /** Take the whole frames off the front of the buffer. */
  method TakeFrames<T>(text: string, parse: string -> Option<T>) returns (events: seq<Event<T>>, buffer: string)
    ensures events == Collect(Frames(text).0, parse) && buffer == Frames(text).1
  {
    events, buffer := [], text;
    assert [] + Collect(Frames(text).0, parse) == Collect(Frames(text).0, parse);
    var split := FindBlank(buffer, 0);
    while split != -1
      invariant split == FindBlank(buffer, 0) && Reads(events, buffer, text, parse)
      decreases |buffer|
    {
      OneFrameOn(events, buffer, text, parse);
      var frame := buffer[..split];
      buffer := buffer[split + 2..];
      var parsed := ParseFrame(frame, parse);
      events := events + Yield(parsed);
      split := FindBlank(buffer, 0);
    }
    NothingLeft(events, buffer, text, parse);
  }

  /** Read a stream as it comes. However it was cut into chunks, the events are those of
      the whole text split once at its leftmost blank lines. */
  method StreamSimulation<T>(chunks: seq<string>, parse: string -> Option<T>) returns (events: seq<Event<T>>)
    ensures events == Collect(Frames(Flatten(chunks)).0, parse)
  {
    events := [];
    var buffer := "";
    var k := 0;
    while k < |chunks|
      invariant 0 <= k <= |chunks|
      invariant events == Collect(Frames(Flatten(chunks[..k])).0, parse)
      invariant buffer == Frames(Flatten(chunks[..k])).1
    {
      ghost var sofar := Flatten(chunks[..k]);
      assert chunks[..k + 1][..k] == chunks[..k];
      FramesOfMore(sofar, chunks[k]);
      CollectConcat(Frames(sofar).0, Frames(buffer + chunks[k]).0, parse);
      var more;
      more, buffer := TakeFrames(buffer + chunks[k], parse);
      events := events + more;
      k := k + 1;
    }
    assert chunks[..k] == chunks;
  }

  // --------------------------------------------------------- the printer

  function Body(name: string, text: string): string { "event: " + name + "\ndata: " + text }

  /** The server's frame for one event whose payload was dumped to `text`. */
  function Sse(name: string, text: string): string { Body(name, text) + "\n\n" }

  function PrintAll<T>(events: seq<Event<T>>, dump: T -> string): string {
    if events == [] then ""
    else Sse(events[0].name, dump(events[0].data)) + PrintAll(events[1..], dump)
  }

  /** What the server guarantees of an event: a one-line trimmed name, and a payload
      dumped to one trimmed line that parses back. */
  ghost predicate Printable<T>(e: Event<T>, dump: T -> string, parse: string -> Option<T>) {
    && OneLine(e.name) && Trimmed(e.name)
    && OneLine(dump(e.data)) && Trimmed(dump(e.data))
    && parse(dump(e.data)) == Some(e.data)
  }

  lemma TrimAfterSpace(s: string)
    requires Trimmed(s)
    ensures Trim(" " + s) == s
  {
    assert (" " + s)[1..] == s;
  }

  lemma LinesOfTwo(a: string, b: string)
    requires OneLine(a) && OneLine(b)
    ensures Lines(a + [NL] + b) == [a, b]
  {
    var s := a + [NL] + b;
    assert s[|a|] == NL && forall i :: 0 <= i < |a| ==> s[i] == a[i];
    assert FindNewline(s, 0) == |a|;
    assert s[..|a|] == a && s[|a| + 1..] == b;
    assert FindNewline(b, 0) == |b|;
  }

  lemma EventLine(name: string)
    requires Trimmed(name)
    ensures Field(("message", []), "event: " + name) == (name, [])
  {
    var line := "event: " + name;
    assert line[6..] == " " + name && line[..6] == "event:";
    TrimAfterSpace(name);
  }

  lemma DataLine(name: string, text: string)
    requires Trimmed(text)
    ensures Field((name, []), "data: " + text) == (name, [text])
  {
    var line := "data: " + text;
    assert line[5..] == " " + text && line[..5] == "data:";
    assert line[0] == 'd' && "event:"[0] == 'e';
    TrimAfterSpace(text);
    var none: seq<string> := [];
    assert none + [text] == [text];
  }

  lemma FieldsOfBody(name: string, text: string)
    requires OneLine(name) && Trimmed(name) && OneLine(text) && Trimmed(text)
    ensures Fields(Lines(Body(name, text))) == (name, [text])
  {
    var first, second := "event: " + name, "data: " + text;
    assert Body(name, text) == first + [NL] + second;
    LinesOfTwo(first, second);
    EventLine(name);
    DataLine(name, text);
    OneMoreField([], first);
    OneMoreField([first], second);
    assert [] + [first] == [first] && [first] + [second] == [first, second];
  }

  lemma BodyParses<T>(e: Event<T>, dump: T -> string, parse: string -> Option<T>)
    requires Printable(e, dump, parse)
    ensures Parsed(Body(e.name, dump(e.data)), parse) == Some(e)
  {
    FieldsOfBody(e.name, dump(e.data));
  }

  /** A printed frame is cut off at its own end. */
  lemma FirstFrame(name: string, text: string, later: string)
    requires OneLine(name) && OneLine(text)
    ensures Frames(Sse(name, text) + later) == ([Body(name, text)] + Frames(later).0, Frames(later).1)
  {
    var body := Body(name, text);
    var s := Sse(name, text) + later;
    var a, b := "event: " + name, "data: " + text;
    assert body == a + [NL] + b;
    forall i | 0 <= i < |body|
      ensures !BlankAt(s, i)
    {
      assert s[i] == body[i];
      if i < |a| {
        assert s[i] == a[i] && a[i] in a;
      } else if i == |a| {
        assert s[i + 1] == b[0] == 'd';
      } else {
        assert s[i] == b[i - |a| - 1] && b[i - |a| - 1] in b;
      }
    }
    assert BlankAt(s, |body|);
    FindBlankIs(s, |body|);
    assert s[..|body|] == body && s[|body| + 2..] == later;
  }

  lemma {:induction false} PrintedEventsCollect<T>(events: seq<Event<T>>, dump: T -> string, parse: string -> Option<T>)
    requires forall k :: 0 <= k < |events| ==> Printable(events[k], dump, parse)
    ensures Collect(Frames(PrintAll(events, dump)).0, parse) == events
  {
    if events != [] {
      var e, later := events[0], PrintAll(events[1..], dump);
      FirstFrame(e.name, dump(e.data), later);
      BodyParses(e, dump, parse);
      PrintedEventsCollect(events[1..], dump, parse);
      var frames := Frames(later).0;
      assert ([Body(e.name, dump(e.data))] + frames)[1..] == frames;
      assert events == [e] + events[1..];
    }
  }

  /** Round trip: cut the printed events into chunks anywhere, and the reader returns
      exactly those events in order. */
  lemma RoundTrip<T>(events: seq<Event<T>>, chunks: seq<string>, dump: T -> string, parse: string -> Option<T>)
    requires forall k :: 0 <= k < |events| ==> Printable(events[k], dump, parse)
    requires Flatten(chunks) == PrintAll(events, dump)
    ensures Collect(Frames(Flatten(chunks)).0, parse) == events
  {
    PrintedEventsCollect(events, dump, parse);
  }

  /** A stream that breaks off anywhere yields a prefix of the events, never a wrong one. */
  lemma BrokenStreamYieldsAPrefix<T>(events: seq<Event<T>>, chunks: seq<string>, lost: string, dump: T -> string,
                                     parse: string -> Option<T>)
    requires forall k :: 0 <= k < |events| ==> Printable(events[k], dump, parse)
    requires Flatten(chunks) + lost == PrintAll(events, dump)
    ensures Collect(Frames(Flatten(chunks)).0, parse) <= events
  {
    PrintedEventsCollect(events, dump, parse);
    FramesOfMore(Flatten(chunks), lost);
    var (frames, rest) := Frames(Flatten(chunks));
    CollectConcat(frames, Frames(rest + lost).0, parse);
  }
}
