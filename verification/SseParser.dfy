/** The client's reader of a server-sent-event body. The transport is the subset of section 9.2.6 of the
    WHATWG HTML Living Standard the producers use: LF line ends and one `data: ` line per event. */
module SseParser {
  import opened Wrappers
  import opened Sequences

  const DATA := "data: "
  const PING := ": ping"

  function Concat(chunks: seq<string>): string {
    if chunks == [] then "" else Concat(chunks[..|chunks| - 1]) + chunks[|chunks| - 1]
  }

  /** The lines of a text that a newline has closed, and what follows the last newline. */
  function Lines(text: string): seq<string> {
    if text == "" then []
    else
      var n := |text| - 1;
      if text[n] == '\n' then Lines(text[..n]) + [Rest(text[..n])] else Lines(text[..n])
  }

  function Rest(text: string): string {
    if text == "" then ""
    else
      var n := |text| - 1;
      if text[n] == '\n' then "" else Rest(text[..n]) + [text[n]]
  }

  /** The events a list of lines carries: data lines that parse, in order. */
  function LineEvents<T>(parse: string -> Option<T>, lines: seq<string>): seq<T> {
    if lines == [] then []
    else
      var n := |lines| - 1;
      LineEvents(parse, lines[..n]) + LineEvent(parse, lines[n])
  }

  function LineEvent<T>(parse: string -> Option<T>, line: string): seq<T> {
    if DATA <= line && parse(line[|DATA|..]).Some? then [parse(line[|DATA|..]).value] else []
  }

  /** The events of a whole body, however it arrives. A line never closed is never an event. */
  function EventsOf<T>(parse: string -> Option<T>, text: string): seq<T> {
    LineEvents(parse, Lines(text))
  }

  method SplitLines(buffer: string) returns (lines: seq<string>, rest: string)
    ensures lines == Lines(buffer) && rest == Rest(buffer)
  {
    lines, rest := [], "";
    for i := 0 to |buffer|
      invariant lines == Lines(buffer[..i]) && rest == Rest(buffer[..i])
    {
      assert buffer[..i + 1][..i] == buffer[..i];
      if buffer[i] == '\n' {
        lines, rest := lines + [rest], "";
      } else {
        rest := rest + [buffer[i]];
      }
    }
    assert buffer[..|buffer|] == buffer;
  }

  /** Reading on from the unfinished line is reading the whole text. */
  lemma {:induction false} LinesAppend(a: string, b: string)
    ensures Lines(a + b) == Lines(a) + Lines(Rest(a) + b)
    ensures Rest(a + b) == Rest(Rest(a) + b)
  {
    if b == "" {
      assert a + b == a && Rest(a) + b == Rest(a);
      RestHasNoLines(a);
    } else {
      var n := |b| - 1;
      LinesAppend(a, b[..n]);
      AppendLast(a, b);
      AppendLast(Rest(a), b);
      AppendAssociates(Lines(a), Lines(Rest(a) + b[..n]), [Rest(Rest(a) + b[..n])]);
    }
  }

  lemma {:induction false} RestHasNoLines(a: string)
    ensures Lines(Rest(a)) == [] && Rest(Rest(a)) == Rest(a)
  {
    if a != "" {
      var n := |a| - 1;
      RestHasNoLines(a[..n]);
      if a[n] != '\n' {
        assert Rest(a)[..|Rest(a)| - 1] == Rest(a[..n]);
      }
    }
  }

  lemma {:induction false} LineEventsAppend<T>(parse: string -> Option<T>, a: seq<string>, b: seq<string>)
    ensures LineEvents(parse, a + b) == LineEvents(parse, a) + LineEvents(parse, b)
  {
    if b == [] {
      assert a + b == a;
    } else {
      var n := |b| - 1;
      LineEventsAppend(parse, a, b[..n]);
      AppendLast(a, b);
      AppendAssociates(LineEvents(parse, a), LineEvents(parse, b[..n]), LineEvent(parse, b[n]));
    }
  }

  /** The inner loop: yield the events of complete lines, skipping lines that are not data or do not parse. */
  method ReadLines<T>(parse: string -> Option<T>, lines: seq<string>) returns (events: seq<T>)
    ensures events == LineEvents(parse, lines)
  {
    events := [];
    for i := 0 to |lines|
      invariant events == LineEvents(parse, lines[..i])
    {
      assert lines[..i + 1][..i] == lines[..i];
      var line := lines[i];
      if !(DATA <= line) {
        continue;
      }
      var parsed := parse(line[|DATA|..]);
      if parsed.Some? {
        events := events + [parsed.value];
      }
    }
    assert lines[..|lines|] == lines;
  }

  /** What the reader yields depends on the text sent and not on how it was cut into chunks. */
  method ParseSseStream<T>(parse: string -> Option<T>, chunks: seq<string>) returns (events: seq<T>)
    ensures events == EventsOf(parse, Concat(chunks))
  {
    events := [];
    var buffer := "";
    for i := 0 to |chunks|
      invariant events == EventsOf(parse, Concat(chunks[..i]))
      invariant buffer == Rest(Concat(chunks[..i]))
    {
      assert chunks[..i + 1][..i] == chunks[..i];
      var lines, rest := SplitLines(buffer + chunks[i]);
      LinesAppend(Concat(chunks[..i]), chunks[i]);
      LineEventsAppend(parse, Lines(Concat(chunks[..i])), lines);
      var read := ReadLines(parse, lines);
      events := events + read;
      buffer := rest;
    }
    assert chunks[..|chunks|] == chunks;
  }

  // ---------------------------------------------------------------------------------------------
  // Against what the producers write.

  datatype Item<T> = Event(event: T) | Keepalive

  /** The line sent for an item; a blank line follows it. */
  function LineOf<T>(encode: T -> string, item: Item<T>): string {
    if item.Event? then DATA + encode(item.event) else PING
  }

  function EventOf<T>(item: Item<T>): seq<T> {
    if item.Event? then [item.event] else []
  }

  function Wire<T>(encode: T -> string, items: seq<Item<T>>): string {
    if items == [] then ""
    else
      var n := |items| - 1;
      Wire(encode, items[..n]) + (LineOf(encode, items[n]) + "\n\n")
  }

  /** The bytes of one event, and of a keepalive. */
  lemma WireFormat<T>(encode: T -> string, e: T)
    ensures Wire(encode, [Event(e)]) == "data: " + encode(e) + "\n\n"
    ensures Wire(encode, [Keepalive]) == ": ping\n\n"
  {
    assert [Event(e)][..0] == [] && [Item<T>.Keepalive][..0] == [];
    assert Wire(encode, [Event(e)]) == "data: " + encode(e) + "\n\n";
    assert ": ping" + "\n\n" == ": ping\n\n";
  }

  function Sent<T>(items: seq<Item<T>>): seq<T> {
    if items == [] then []
    else
      var n := |items| - 1;
      Sent(items[..n]) + EventOf(items[n])
  }

  /** The assumption on JSON: text without newlines that parses back to the value it encodes. */
  ghost predicate Encodes<T>(encode: T -> string, parse: string -> Option<T>, e: T) {
    '\n' !in encode(e) && parse(encode(e)) == Some(e)
  }

  lemma {:induction false} LinesOfPlain(text: string)
    requires '\n' !in text
    ensures Lines(text) == [] && Rest(text) == text
  {
    if text != "" {
      LinesOfPlain(text[..|text| - 1]);
    }
  }

  /** A line and a blank line after it, on top of text that ends a line. */
  lemma LinesOfFrame(before: string, line: string)
    requires Rest(before) == "" && '\n' !in line
    ensures Lines(before + (line + "\n\n")) == Lines(before) + [line, ""]
    ensures Rest(before + (line + "\n\n")) == ""
  {
    var frame := line + "\n\n";
    LinesAppend(before, frame);
    assert "" + frame == frame;
    LinesOfClosed(line);
  }

  lemma LinesOfClosed(line: string)
    requires '\n' !in line
    ensures Lines(line + "\n\n") == [line, ""] && Rest(line + "\n\n") == ""
  {
    LinesOfPlain(line);
    LineCloses(line, line);
    LineCloses(line + "\n", "");
    AppendAssociates(line, "\n", "\n");
    assert "\n" + "\n" == "\n\n";
  }

  /** A newline closes the line under way. */
  lemma LineCloses(text: string, rest: string)
    requires Rest(text) == rest
    ensures Lines(text + "\n") == Lines(text) + [rest] && Rest(text + "\n") == ""
  {
    assert (text + "\n")[..|text|] == text;
  }

  lemma FrameEvents<T>(parse: string -> Option<T>, line: string)
    ensures LineEvents(parse, [line, ""]) == LineEvent(parse, line)
  {
    assert [line, ""][..1] == [line];
    assert [line][..0] == [];
    assert |DATA| == 6 && [line, ""][1] == "";
    assert LineEvents(parse, [line, ""]) == LineEvents(parse, [line]);
  }

  lemma LineCarriesItem<T>(encode: T -> string, parse: string -> Option<T>, item: Item<T>)
    requires item.Event? ==> Encodes(encode, parse, item.event)
    ensures '\n' !in LineOf(encode, item)
    ensures LineEvent(parse, LineOf(encode, item)) == EventOf(item)
  {
    var line := LineOf(encode, item);
    if item.Event? {
      assert line[|DATA|..] == encode(item.event);
    } else {
      assert line[0] == ':';
    }
  }

  /** One more item on the wire is one more event read. */
  lemma ItemIsRead<T>(encode: T -> string, parse: string -> Option<T>, text: string, item: Item<T>)
    requires Rest(text) == "" && (item.Event? ==> Encodes(encode, parse, item.event))
    ensures EventsOf(parse, text + (LineOf(encode, item) + "\n\n")) == EventsOf(parse, text) + EventOf(item)
    ensures Rest(text + (LineOf(encode, item) + "\n\n")) == ""
  {
    var line := LineOf(encode, item);
    LineCarriesItem(encode, parse, item);
    LinesOfFrame(text, line);
    LineEventsAppend(parse, Lines(text), [line, ""]);
    FrameEvents(parse, line);
  }

  /** The reader yields exactly the events sent, in order, whatever keepalives came between. */
  lemma {:induction false} WireCarriesEvents<T>(encode: T -> string, parse: string -> Option<T>, items: seq<Item<T>>)
    requires forall i :: 0 <= i < |items| && items[i].Event? ==> Encodes(encode, parse, items[i].event)
    ensures EventsOf(parse, Wire(encode, items)) == Sent(items) && Rest(Wire(encode, items)) == ""
  {
    if items != [] {
      var n := |items| - 1;
      WireCarriesEvents(encode, parse, items[..n]);
      ItemIsRead(encode, parse, Wire(encode, items[..n]), items[n]);
    }
  }

  /** A body cut off anywhere yields a prefix of the events, never a wrong or partial one. */
  lemma TruncationYieldsPrefix<T>(parse: string -> Option<T>, received: string, missing: string)
    ensures EventsOf(parse, received) <= EventsOf(parse, received + missing)
  {
    LinesAppend(received, missing);
    LineEventsAppend(parse, Lines(received), Lines(Rest(received) + missing));
  }

  /** The body of any sequence of frames and keepalives, cut into chunks anywhere and possibly cut short:
      a complete body yields the events sent, a truncated one a prefix of them. */
  lemma ChunkingDoesNotMatter<T>(encode: T -> string, parse: string -> Option<T>, items: seq<Item<T>>,
                                 chunks: seq<string>, missing: string)
    requires forall i :: 0 <= i < |items| && items[i].Event? ==> Encodes(encode, parse, items[i].event)
    requires Concat(chunks) + missing == Wire(encode, items)
    ensures EventsOf(parse, Concat(chunks)) <= Sent(items)
    ensures missing == "" ==> EventsOf(parse, Concat(chunks)) == Sent(items)
  {
    WireCarriesEvents(encode, parse, items);
    TruncationYieldsPrefix(parse, Concat(chunks), missing);
    if missing == "" {
      assert Concat(chunks) + missing == Concat(chunks);
    }
  }
}

/** From the broker's buffer to a remote reader. */
module EndToEnd {
  import opened Wrappers
  import opened AgentEvents
  import opened RunStream
  import opened RunBroker
  import opened SseParser

  /** A client that did not come late and stayed attached to a run, detached or producer-driven, reads, over
      any chunking and with keepalives anywhere, the projection of the run's buffer: the same frames whenever
      it attached. */
  lemma ReaderSeesWholeRun(b: Broker, s: nat, encode: Frame -> string, parse: string -> Option<Frame>,
                           items: seq<Item<Frame>>, chunks: seq<string>)
    requires b.Valid() && s < |b.streams| && b.streams[s].run.Some? && !b.streams[s].left && !b.streams[s].late
    requires forall i :: 0 <= i < |items| && items[i].Event? ==> Encodes(encode, parse, items[i].event)
    requires Sent(items) == b.streams[s].state.frames && Concat(chunks) == Wire(encode, items)
    ensures b.streams[s].run.value < |b.runs|
    ensures EventsOf(parse, Concat(chunks)) ==
            Projection(b.streams[s].state.conversationId, b.runs[b.streams[s].run.value].buffer)
  {
    assert Shows(b.streams[s], s, b.runs[b.streams[s].run.value]);
    assert Concat(chunks) + "" == Wire(encode, items);
    ChunkingDoesNotMatter(encode, parse, items, chunks, "");
  }
}
