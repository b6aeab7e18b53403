/**
 * The decoder of server-sent events as it runs: a text buffer and the frame under
 * construction, updated line by line and chunk by chunk.
 */
module SseDecoder {
  import opened Wrappers
  import opened LineFeeding
  import opened Sse
  import Framing

  type Byte = bv8

  /**
   * A streaming text decoder: the text certain after some bytes, and what flushing adds
   * to it at the end of the input.
   */
  datatype Charset = Charset(decode: seq<Byte> -> string, flush: seq<Byte> -> string) {
    ghost predicate Lawful() {
      decode([]) == "" && forall a: seq<Byte>, b: seq<Byte> :: decode(a) <= decode(a + b)
    }

    function All(bytes: seq<Byte>): string {
      decode(bytes) + flush(bytes)
    }
  }

  // ----- the specification of a chunked body -----

  /** What all text so far yields before any end of input. */
  function Lines(text: string): Fed<Pending, Frame> {
    Feed(ProcessLine, NOTHING, text)
  }

  /**
   * A body within the total limit decodes like its whole text; otherwise the lines of the
   * chunks before the limit count, and the decoding fails.
   */
  function Expected(charset: Charset, seen: seq<Byte>, chunks: seq<seq<Byte>>): Decoded
    decreases |chunks|
  {
    if chunks == [] then Whole(charset.All(seen))
    else if |seen| + |chunks[0]| > MAX_TOTAL_BYTES then
      Decoded(Lines(charset.decode(seen)).frames, true)
    else Expected(charset, seen + chunks[0], chunks[1..])
  }

  lemma {:induction false} ExpectedIsWhole(charset: Charset, seen: seq<Byte>, chunks: seq<seq<Byte>>)
    requires |seen| + |Framing.Concat(chunks)| <= MAX_TOTAL_BYTES
    ensures Expected(charset, seen, chunks) == Whole(charset.All(seen + Framing.Concat(chunks)))
    decreases |chunks|
  {
    if chunks == [] {
      assert seen + Framing.Concat(chunks) == seen;
    } else {
      assert (seen + chunks[0]) + Framing.Concat(chunks[1..]) == seen + Framing.Concat(chunks);
      ExpectedIsWhole(charset, seen + chunks[0], chunks[1..]);
    }
  }

  /** Where the input is cut into chunks does not matter. */
  lemma ChunkingIndependent(charset: Charset, a: seq<seq<Byte>>, b: seq<seq<Byte>>)
    requires Framing.Concat(a) == Framing.Concat(b) && |Framing.Concat(a)| <= MAX_TOTAL_BYTES
    ensures Expected(charset, [], a) == Expected(charset, [], b) == Whole(charset.All(Framing.Concat(a)))
  {
    ExpectedIsWhole(charset, [], a);
    ExpectedIsWhole(charset, [], b);
    assert [] + Framing.Concat(a) == Framing.Concat(a);
  }

  // ----- failing early -----

  /** Text that fails now, or whose last line is already too long. */
  predicate Doomed(text: string) {
    Lines(text).failed || ByteLength(Lines(text).rest) > MAX_LINE_BYTES
  }

  lemma {:induction false} RestIsPartial(p: Pending, text: string)
    ensures !Feed(ProcessLine, p, text).failed ==>
              IndexOf(Feed(ProcessLine, p, text).rest, '\n') == |Feed(ProcessLine, p, text).rest|
    decreases |text|
  {
    var newline := IndexOf(text, '\n');
    if newline < |text| && ProcessLine(p, text[..newline]).Next? {
      RestIsPartial(ProcessLine(p, text[..newline]).state, text[newline + 1..]);
    }
  }

  /** Doomed text stays doomed, yields nothing more, and fails once its last line ends. */
  lemma DoomedGrows(text: string, more: string)
    requires Doomed(text)
    ensures Doomed(text + more) && Lines(text + more).frames == Lines(text).frames
    ensures IndexOf(more, '\n') < |more| ==> Lines(text + more).failed
  {
    var first := Lines(text);
    FeedInSteps(ProcessLine, NOTHING, text, more);
    if !first.failed {
      RestIsPartial(NOTHING, text);
      if IndexOf(more, '\n') < |more| {
        LongLineFails(first.state, first.rest, more);
      } else {
        IndexOfPrefix(first.rest, more, '\n');
        ByteLengthAdds(first.rest, more);
      }
      assert first.frames + [] == first.frames;
    }
  }

  /** Failing as soon as the text is doomed yields what the whole input would have yielded. */
  lemma {:induction false} FailingEarly(charset: Charset, seen: seq<Byte>, chunks: seq<seq<Byte>>)
    requires charset.Lawful() && Doomed(charset.decode(seen))
    ensures Expected(charset, seen, chunks) == Decoded(Lines(charset.decode(seen)).frames, true)
    decreases |chunks|
  {
    var text := charset.decode(seen);
    if chunks == [] {
      var more := charset.flush(seen) + "\n\n";
      assert text + more == charset.All(seen) + "\n\n";
      assert more[|more| - 1] == '\n';
      DoomedGrows(text, more);
    } else if |seen| + |chunks[0]| <= MAX_TOTAL_BYTES {
      var later := charset.decode(seen + chunks[0]);
      assert text <= later;
      assert later == text + later[|text|..];
      DoomedGrows(text, later[|text|..]);
      FailingEarly(charset, seen + chunks[0], chunks[1..]);
    }
  }

  // ----- the decoder -----

  class Decoder {
    var buffer: string
    var eventName: Option<string>
    var data: seq<string>
    var dataBytes: nat
    var totalBytes: nat

    constructor ()
      ensures Frame() == NOTHING && buffer == "" && totalBytes == 0
    {
      buffer, eventName, data, dataBytes, totalBytes := "", None, [], 0, 0;
    }

    /** The frame under construction. */
    ghost function Frame(): Pending
      reads this
    {
      Pending(eventName, data, dataBytes)
    }

    /** One field of the frame; false if it passes a limit. */
    method AddField(field: string, value: string) returns (ok: bool)
      modifies this`eventName, this`data, this`dataBytes
      ensures ok == ProcessField(old(Frame()), field, value).Next?
      ensures ok ==> ProcessField(old(Frame()), field, value) == Next(Frame(), [])
    {
      if field == "event" {
        if ByteLength(value) > MAX_EVENT_NAME_BYTES {
          return false;
        }
        eventName := Some(value);
      } else if field == "data" {
        if |data| >= MAX_DATA_LINES {
          return false;
        }
        dataBytes := dataBytes + ByteLength(value) + if |data| == 0 then 0 else 1;
        if dataBytes > MAX_FRAME_DATA_BYTES {
          return false;
        }
        data := data + [value];
      }
      return true;
    }

    /** One line, given without its line feed; false if it passes a limit. */
    method TakeLine(raw: string) returns (ok: bool, emitted: seq<Sse.Frame>)
      modifies this`eventName, this`data, this`dataBytes
      ensures ok == ProcessLine(old(Frame()), raw).Next?
      ensures ok ==> ProcessLine(old(Frame()), raw) == Next(Frame(), emitted)
    {
      emitted := [];
      if ByteLength(raw) > MAX_LINE_BYTES {
        return false, [];
      }
      var line := StripCarriageReturn(raw);
      if line == "" {
        if |data| > 0 {
          emitted := [Sse.Frame(eventName, Join(data))];
        }
        eventName, data, dataBytes := None, [], 0;
        return true, emitted;
      }
      ok := true;
      if line[0] != ':' {
        var (field, value) := FieldOf(line);
        ok := AddField(field, value);
      }
    }

    /** Processes and removes every complete line of the buffer. */
    method DrainLines() returns (frames: seq<Sse.Frame>, ok: bool)
      modifies this`buffer, this`eventName, this`data, this`dataBytes
      ensures var fed := Feed(ProcessLine, old(Frame()), old(buffer));
              frames == fed.frames && ok == !fed.failed &&
              (ok ==> Frame() == fed.state && buffer == fed.rest)
    {
      frames, ok := [], true;
      ghost var goal := Feed(ProcessLine, Frame(), buffer);
      OntoNothing(goal);
      var newline := IndexOf(buffer, '\n');
      while newline != |buffer|
        invariant ok && newline == IndexOf(buffer, '\n')
        invariant goal == Onto(frames, Feed(ProcessLine, Frame(), buffer))
        decreases |buffer|
      {
        FeedTurn(ProcessLine, Frame(), buffer, frames);
        var line, emitted := buffer[..newline], [];
        buffer := buffer[newline + 1..];
        ok, emitted := TakeLine(line);
        if !ok {
          return;
        }
        frames := frames + emitted;
        newline := IndexOf(buffer, '\n');
      }
    }

    /** Having taken all of `text`, with these frames. */
    ghost predicate HasTaken(text: string, frames: seq<Sse.Frame>)
      reads this
    {
      Lines(text) == Fed(frames, Frame(), buffer, false)
    }

    /**
     * A chunk of `size` bytes that decodes to `text`. It fails at once when it passes the
     * total limit; otherwise it fails only on text that cannot succeed any more.
     */
    method Receive(size: nat, text: string, ghost before: string, ghost yielded: seq<Sse.Frame>)
      returns (frames: seq<Sse.Frame>, ok: bool)
      requires HasTaken(before, yielded)
      modifies this
      ensures totalBytes == old(totalBytes) + size
      ensures totalBytes > MAX_TOTAL_BYTES ==> !ok && frames == []
      ensures ok ==> HasTaken(before + text, yielded + frames)
      ensures totalBytes <= MAX_TOTAL_BYTES && !ok ==>
                Doomed(before + text) && Lines(before + text).frames == yielded + frames
    {
      totalBytes := totalBytes + size;
      if totalBytes > MAX_TOTAL_BYTES {
        return [], false;
      }
      FeedInSteps(ProcessLine, NOTHING, before, text);
      buffer := buffer + text;
      if IndexOf(buffer, '\n') == |buffer| && ByteLength(buffer) > MAX_LINE_BYTES {
        return [], false;
      }
      frames, ok := DrainLines();
    }

    /** The end of the source terminates the last line and flushes the last frame. */
    method Finish(flushed: string, ghost before: string, ghost yielded: seq<Sse.Frame>)
      returns (frames: seq<Sse.Frame>, ok: bool)
      requires HasTaken(before, yielded)
      modifies this
      ensures Decoded(yielded + frames, !ok) == Whole(before + flushed)
    {
      FeedInSteps(ProcessLine, NOTHING, before, flushed + "\n\n");
      assert before + (flushed + "\n\n") == (before + flushed) + "\n\n";
      assert buffer + flushed + "\n\n" == buffer + (flushed + "\n\n");
      buffer := buffer + flushed + "\n\n";
      frames, ok := DrainLines();
    }
  }

  /**
   * Decodes a body of chunks as specified; within the total limit this is the decoding of
   * the whole text, although a line that is too long fails before it is complete.
   */
  method DecodeSseStream(charset: Charset, source: seq<seq<Byte>>)
    returns (frames: seq<Sse.Frame>, failed: bool)
    requires charset.Lawful()
    ensures Decoded(frames, failed) == Expected(charset, [], source)
    ensures |Framing.Concat(source)| <= MAX_TOTAL_BYTES ==>
              Decoded(frames, failed) == Whole(charset.All(Framing.Concat(source)))
  {
    if |Framing.Concat(source)| <= MAX_TOTAL_BYTES {
      ChunkingIndependent(charset, source, source);
    }
    var decoder := new Decoder();
    var seen: seq<Byte>, more, ok := [], [], true;
    frames := [];
    for i := 0 to |source|
      invariant fresh(decoder) && decoder.totalBytes == |seen|
      invariant decoder.HasTaken(charset.decode(seen), frames)
      invariant Expected(charset, [], source) == Expected(charset, seen, source[i..])
    {
      var before, after := charset.decode(seen), charset.decode(seen + source[i]);
      assert before <= after && after == before + after[|before|..];
      assert source[i..][0] == source[i] && source[i..][1..] == source[i + 1..];
      more, ok := decoder.Receive(|source[i]|, after[|before|..], before, frames);
      frames := frames + more;
      if !ok {
        if |seen| + |source[i]| <= MAX_TOTAL_BYTES {
          FailingEarly(charset, seen + source[i], source[i + 1..]);
        }
        return frames, true;
      }
      seen := seen + source[i];
    }
    more, ok := decoder.Finish(charset.flush(seen), charset.decode(seen), frames);
    frames, failed := frames + more, !ok;
  }
}
