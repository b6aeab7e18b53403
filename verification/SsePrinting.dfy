/** Printing frames as event and data lines, and getting the same frames back. */
module SsePrinting {
  import opened Wrappers
  import opened LineFeeding
  import opened Sse

  // ----- lines of data -----

  function Split(data: string): (lines: seq<string>)
    ensures lines != []
    decreases |data|
  {
    var newline := IndexOf(data, '\n');
    if newline == |data| then [data] else [data[..newline]] + Split(data[newline + 1..])
  }

  lemma {:induction false} JoinSplit(data: string)
    ensures Join(Split(data)) == data
    decreases |data|
  {
    var newline := IndexOf(data, '\n');
    if newline < |data| {
      var first, rest := data[..newline], data[newline + 1..];
      JoinSplit(rest);
      JoinCons(first, Split(rest));
      CutAt(data, newline);
    }
  }

  lemma CutAt(data: string, newline: nat)
    requires newline < |data| && data[newline] == '\n'
    ensures data == data[..newline] + "\n" + data[newline + 1..]
  {
  }

  lemma JoinCons(line: string, rest: seq<string>)
    requires rest != []
    ensures Join([line] + rest) == line + "\n" + Join(rest)
  {
    assert ([line] + rest)[1..] == rest;
  }

  lemma {:induction false} JoinSnoc(lines: seq<string>, line: string)
    ensures Join(lines + [line]) == if lines == [] then line else Join(lines) + "\n" + line
  {
    if lines != [] {
      assert (lines + [line])[1..] == lines[1..] + [line];
      JoinSnoc(lines[1..], line);
      if |lines| > 1 {
        assert lines[0] + "\n" + (Join(lines[1..]) + "\n" + line) == lines[0] + "\n" + Join(lines[1..]) + "\n" + line;
      }
    }
  }

  lemma JoinedBytes(lines: seq<string>, line: string)
    ensures ByteLength(Join(lines + [line])) ==
            ByteLength(Join(lines)) + ByteLength(line) + if lines == [] then 0 else 1
  {
    JoinSnoc(lines, line);
    if lines != [] {
      ByteLengthAdds(Join(lines) + "\n", line);
      ByteLengthAdds(Join(lines), "\n");
      assert ByteLength("\n") == 1;
    }
  }

  lemma {:induction false} JoinGrows(lines: seq<string>, more: seq<string>)
    ensures ByteLength(Join(lines)) <= ByteLength(Join(lines + more))
    decreases |more|
  {
    if more == [] {
      assert lines + more == lines;
    } else {
      JoinedBytes(lines, more[0]);
      JoinGrows(lines + [more[0]], more[1..]);
      assert lines + [more[0]] + more[1..] == lines + more;
    }
  }

  // ----- printing -----

  /** Lines may end in a line feed alone or in a carriage return and a line feed. */
  datatype Ending = LF | CRLF {
    function Mark(): string {
      if LF? then "" else "\r"
    }
  }

  function PrintField(end: Ending, field: string, value: string): string {
    field + ": " + value + end.Mark()
  }

  function PrintLine(end: Ending, line: string): string {
    PrintField(end, "data", line) + "\n"
  }

  function PrintData(end: Ending, lines: seq<string>): string {
    PrintEach(line => PrintLine(end, line), lines)
  }

  function PrintEvent(end: Ending, event: Option<string>): string {
    if event.None? then "" else PrintField(end, "event", event.value) + "\n"
  }

  function PrintFrame(end: Ending, frame: Frame): string {
    PrintEvent(end, frame.event) + PrintData(end, Split(frame.data)) + (end.Mark() + "\n")
  }

  function PrintAll(end: Ending, frames: seq<Frame>): string {
    PrintEach(frame => PrintFrame(end, frame), frames)
  }

  // ----- what can be printed -----

  /** Text that survives as the value of a line. */
  predicate OneLine(end: Ending, field: string, value: string) {
    && IndexOf(value, '\n') == |value|
    && (end.LF? && value != "" ==> value[|value| - 1] != '\r')
    && ByteLength(PrintField(end, field, value)) <= MAX_LINE_BYTES
  }

  predicate Printable(end: Ending, frame: Frame) {
    && (frame.event.Some? ==>
          OneLine(end, "event", frame.event.value) && ByteLength(frame.event.value) <= MAX_EVENT_NAME_BYTES)
    && (forall line :: line in Split(frame.data) ==> OneLine(end, "data", line))
    && |Split(frame.data)| <= MAX_DATA_LINES
    && ByteLength(frame.data) <= MAX_FRAME_DATA_BYTES
  }

  // ----- reading a printed line -----

  lemma FieldOfPrinted(field: string, value: string)
    requires ':' !in field
    ensures FieldOf(field + ": " + value) == (field, value)
  {
    var line := field + ": " + value;
    assert line == field + (": " + value);
    IndexOfPrefix(field, ": " + value, ':');
    assert IndexOf(": " + value, ':') == 0;
    assert line[..|field|] == field && line[|field| + 1..] == " " + value;
    assert (" " + value)[1..] == value;
  }

  lemma StripPrinted(end: Ending, field: string, value: string)
    requires end.LF? && value != "" ==> value[|value| - 1] != '\r'
    ensures StripCarriageReturn(PrintField(end, field, value)) == field + ": " + value
  {
    var line := field + ": " + value;
    if end.CRLF? {
      assert (line + "\r")[..|line|] == line;
    } else {
      assert line + "" == line;
      assert line[|line| - 1] == if value == "" then ' ' else value[|value| - 1];
    }
  }

  lemma PrintedIsOneLine(end: Ending, field: string, value: string)
    requires '\n' !in field && IndexOf(value, '\n') == |value|
    ensures IndexOf(PrintField(end, field, value), '\n') == |PrintField(end, field, value)|
  {
    assert forall c :: c in value ==> c != '\n';
  }

  lemma PrintedLine(end: Ending, p: Pending, field: string, value: string)
    requires field == "event" || field == "data"
    requires OneLine(end, field, value)
    ensures ProcessLine(p, PrintField(end, field, value)) == ProcessField(p, field, value)
    ensures IndexOf(PrintField(end, field, value), '\n') == |PrintField(end, field, value)|
  {
    FieldOfPrinted(field, value);
    StripPrinted(end, field, value);
    PrintedIsOneLine(end, field, value);
    assert (field + ": " + value)[0] == field[0];
  }

  lemma FeedPrinted(end: Ending, p: Pending, field: string, value: string, q: Pending, rest: string)
    requires field == "event" || field == "data"
    requires OneLine(end, field, value) && ProcessField(p, field, value) == Next(q, [])
    ensures Feed(ProcessLine, p, PrintField(end, field, value) + "\n" + rest) == Feed(ProcessLine, q, rest)
  {
    PrintedLine(end, p, field, value);
    FeedLine(ProcessLine, p, PrintField(end, field, value), rest);
    OntoNothing(Feed(ProcessLine, q, rest));
  }

  /** A frame that has collected these data lines. */
  function Collected(event: Option<string>, lines: seq<string>): Pending {
    Pending(event, lines, ByteLength(Join(lines)))
  }

  lemma FeedDataLine(end: Ending, event: Option<string>, before: seq<string>, line: string, rest: string)
    requires OneLine(end, "data", line)
    requires |before| < MAX_DATA_LINES && ByteLength(Join(before + [line])) <= MAX_FRAME_DATA_BYTES
    ensures Feed(ProcessLine, Collected(event, before), PrintLine(end, line) + rest) ==
            Feed(ProcessLine, Collected(event, before + [line]), rest)
  {
    JoinedBytes(before, line);
    FeedPrinted(end, Collected(event, before), "data", line, Collected(event, before + [line]), rest);
  }

  /** The data lines of a frame are collected one after the other. */
  lemma FeedData(end: Ending, event: Option<string>, lines: seq<string>, rest: string)
    requires forall line <- lines :: OneLine(end, "data", line)
    requires |lines| <= MAX_DATA_LINES && ByteLength(Join(lines)) <= MAX_FRAME_DATA_BYTES
    ensures Feed(ProcessLine, Collected(event, []), PrintData(end, lines) + rest) ==
            Feed(ProcessLine, Collected(event, lines), rest)
  {
    var feed := (before: seq<string>, text: string) => Feed(ProcessLine, Collected(event, before), text);
    var render := (line: string) => PrintLine(end, line);
    forall k, rest: string | 0 <= k < |lines|
      ensures feed([] + lines[..k], render(lines[k]) + rest) == feed([] + lines[..k] + [lines[k]], rest)
    {
      assert lines[..k] + [lines[k]] + lines[k + 1..] == lines && [] + lines[..k] == lines[..k];
      JoinGrows(lines[..k] + [lines[k]], lines[k + 1..]);
      FeedDataLine(end, event, lines[..k], lines[k], rest);
    }
    CollectEach(feed, render, [], lines, rest);
    assert [] + lines == lines;
  }

  /** The blank line after a frame emits it. */
  lemma FeedBlank(end: Ending, p: Pending, rest: string)
    requires p.data != []
    ensures Feed(ProcessLine, p, end.Mark() + "\n" + rest) ==
            Onto([Frame(p.event, Join(p.data))], Feed(ProcessLine, NOTHING, rest))
  {
    assert ByteLength(end.Mark()) <= 1;
    assert StripCarriageReturn(end.Mark()) == "";
    FeedLine(ProcessLine, p, end.Mark(), rest);
  }

  /** The text of a frame: an optional event line, its data lines, a blank line. */
  lemma FeedNamed(end: Ending, event: Option<string>, body: string)
    requires event.Some? ==> OneLine(end, "event", event.value) && ByteLength(event.value) <= MAX_EVENT_NAME_BYTES
    ensures Feed(ProcessLine, NOTHING, PrintEvent(end, event) + body) == Feed(ProcessLine, Pending(event, [], 0), body)
  {
    if event.None? {
      assert "" + body == body;
    } else {
      FeedPrinted(end, NOTHING, "event", event.value, Pending(event, [], 0), body);
    }
  }

  lemma FeedFrame(end: Ending, frame: Frame, rest: string)
    requires Printable(end, frame)
    ensures Feed(ProcessLine, NOTHING, PrintFrame(end, frame) + rest) ==
            Onto([frame], Feed(ProcessLine, NOTHING, rest))
  {
    var lines := Split(frame.data);
    var event, data, blank := PrintEvent(end, frame.event), PrintData(end, lines), end.Mark() + "\n";
    FourParts(event, data, blank, rest);
    JoinSplit(frame.data);
    FeedNamed(end, frame.event, data + (blank + rest));
    FeedData(end, frame.event, lines, blank + rest);
    FeedBlank(end, Collected(frame.event, lines), rest);
  }

  lemma FourParts(a: string, b: string, c: string, d: string)
    ensures a + b + c + d == a + (b + (c + d))
  {
  }

  /** Decoding what was printed returns the same frames. */
  lemma RoundTrip(end: Ending, frames: seq<Frame>)
    requires forall frame :: frame in frames ==> Printable(end, frame)
    ensures Whole(PrintAll(end, frames)) == Decoded(frames, false)
  {
    var feed := (text: string) => Feed(ProcessLine, NOTHING, text);
    var render := (frame: Frame) => PrintFrame(end, frame);
    forall frame <- frames, rest: string
      ensures feed(render(frame) + rest) == Onto([frame], feed(rest))
    {
      FeedFrame(end, frame, rest);
    }
    YieldEach(feed, render, frames, "\n\n");
    FeedBlankLines();
    assert frames + [] == frames;
  }

  lemma FeedBlankLines()
    ensures Feed(ProcessLine, NOTHING, "\n\n") == Fed([], NOTHING, "", false)
  {
    FeedLine(ProcessLine, NOTHING, "", "\n");
    FeedLine(ProcessLine, NOTHING, "", "");
    assert "" + "\n" + "\n" == "\n\n" && "" + "\n" + "" == "\n";
  }
}
