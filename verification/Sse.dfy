/** Server-sent events: what one line does, what a whole text decodes to, and how frames print. */
module Sse {
  import opened Wrappers
  import opened LineFeeding

  const MAX_TOTAL_BYTES := 16 * 1024 * 1024
  const MAX_LINE_BYTES := 1024 * 1024
  const MAX_EVENT_NAME_BYTES := 256
  const MAX_DATA_LINES := 1024
  const MAX_FRAME_DATA_BYTES := 4 * 1024 * 1024

  /** A decoded event: its name, if a line gave it one, and its lines of data put together. */
  datatype Frame = Frame(event: Option<string>, data: string)

  // ----- text -----

  function CharBytes(c: char): nat {
    if c < '\U{80}' then 1 else if c < '\U{800}' then 2 else if c < '\U{10000}' then 3 else 4
  }

  /** The length of the UTF-8 encoding. */
  function ByteLength(s: string): nat {
    if s == "" then 0 else CharBytes(s[0]) + ByteLength(s[1..])
  }

  function Join(lines: seq<string>): string {
    if lines == [] then ""
    else if |lines| == 1 then lines[0]
    else lines[0] + "\n" + Join(lines[1..])
  }

  function StripCarriageReturn(line: string): string {
    if line != "" && line[|line| - 1] == '\r' then line[..|line| - 1] else line
  }

  // ----- lines -----

  /** The frame under construction. */
  datatype Pending = Pending(event: Option<string>, data: seq<string>, dataBytes: nat)

  const NOTHING := Pending(None, [], 0)

  /** The field name and value of a line that is neither blank nor a comment. */
  function FieldOf(line: string): (string, string) {
    var colon := IndexOf(line, ':');
    if colon == |line| then (line, "")
    else
      var value := line[colon + 1..];
      (line[..colon], if value != "" && value[0] == ' ' then value[1..] else value)
  }

  function ProcessField(p: Pending, field: string, value: string): Processed<Pending, Frame> {
    if field == "event" then
      if ByteLength(value) > MAX_EVENT_NAME_BYTES then TooLong
      else Next(p.(event := Some(value)), [])
    else if field == "data" then
      var dataBytes := p.dataBytes + ByteLength(value) + if p.data == [] then 0 else 1;
      if |p.data| >= MAX_DATA_LINES || dataBytes > MAX_FRAME_DATA_BYTES then TooLong
      else Next(p.(data := p.data + [value], dataBytes := dataBytes), [])
    else Next(p, [])
  }

  /** One line, given without its line feed. */
  function ProcessLine(p: Pending, raw: string): Processed<Pending, Frame> {
    if ByteLength(raw) > MAX_LINE_BYTES then TooLong
    else
      var line := StripCarriageReturn(raw);
      if line == "" then
        Next(NOTHING, if p.data == [] then [] else [Frame(p.event, Join(p.data))])
      else if line[0] == ':' then Next(p, [])
      else
        var (field, value) := FieldOf(line);
        ProcessField(p, field, value)
  }

  datatype Decoded = Decoded(frames: seq<Frame>, failed: bool)

  /** The reference: the end of the source terminates the last line and flushes the last frame. */
  function Whole(text: string): Decoded {
    var fed := Feed(ProcessLine, NOTHING, text + "\n\n");
    Decoded(fed.frames, fed.failed)
  }

  lemma {:induction false} ByteLengthAdds(a: string, b: string)
    ensures ByteLength(a + b) == ByteLength(a) + ByteLength(b)
  {
    if a == "" {
      assert a + b == b;
    } else {
      assert (a + b)[1..] == a[1..] + b;
      ByteLengthAdds(a[1..], b);
    }
  }

  /** A partial line already over the limit fails now or later: its line can only get longer. */
  lemma LongLineFails(p: Pending, buffer: string, more: string)
    requires IndexOf(buffer, '\n') == |buffer| && ByteLength(buffer) > MAX_LINE_BYTES
    requires IndexOf(more, '\n') < |more|
    ensures Feed(ProcessLine, p, buffer + more).failed && Feed(ProcessLine, p, buffer + more).frames == []
  {
    var end := more[..IndexOf(more, '\n')];
    ByteLengthAdds(buffer, end);
    assert ProcessLine(p, buffer + end) == TooLong;
    RefusedLine(ProcessLine, p, buffer, more);
  }
}
