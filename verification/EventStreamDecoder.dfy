/** The decoder as it runs: the reading of one message, and the buffered decoding of a body. */
module EventStreamDecoder {
  import opened Wrappers
  import opened Basics
  import opened Crc32
  import opened Framing
  import opened EventStream
  import opened FramingBuffer

  /** Reads the front message of the pending bytes, with all its checks. */
  method ReadFront<P>(codec: Codec<P>, view: seq<Byte>) returns (front: Front<Event<P>>)
    ensures front == FrontOf(codec, view)
  {
    if |view| < 16 {
      return Incomplete;
    }
    var total, headersLength := Length(view, 0), Length(view, 4);
    if total < 16 || total > MAX_FRAME || headersLength > total - 16 {
      return Malformed;
    }
    if |view| < total {
      return Incomplete;
    }
    front := ReadMessage(codec, view[..total], headersLength);
  }

  method ReadMessage<P>(codec: Codec<P>, message: seq<Byte>, headersLength: nat) returns (front: Front<Event<P>>)
    requires |message| >= 16 && headersLength <= |message| - 16
    ensures front == match Message(codec, message, headersLength)
                     case None => Malformed
                     case Some(event) => Frame(event, |message|)
  {
    var prelude := ComputeChecksum(message[..8]);
    if prelude != Word(message, 8) {
      return Malformed;
    }
    var whole := ComputeChecksum(message[..|message| - 4]);
    if whole != Word(message, |message| - 4) {
      return Malformed;
    }
    var name := EventType(codec.text, message[12..12 + headersLength]);
    if name.None? {
      return Malformed;
    }
    var payload := Payload(codec, message[12 + headersLength..|message| - 4]);
    if payload.None? {
      return Malformed;
    }
    front := Frame(Event(name.value, payload.value), |message|);
  }

  /** The specification that the loops are proved against reads messages like the codec. */
  ghost predicate IsParser<P(!new)>(codec: Codec<P>, parse: seq<Byte> -> Front<Event<P>>) {
    forall b: seq<Byte> :: parse(b) == FrontOf(codec, b)
  }

  /** The inner loop: yields every complete frame and advances past it. */
  method DrainBuffer<P(!new)>(
    codec: Codec<P>, ghost parse: seq<Byte> -> Front<Event<P>>,
    ghost drain: seq<Byte> -> Drained<Byte, Event<P>>, yielded: seq<Event<P>>,
    storage: array<Byte>, start: nat, end: nat)
    returns (events: seq<Event<P>>, start': nat, end': nat, failed: bool)
    requires start <= end <= storage.Length
    requires IsParser(codec, parse) && Drains(parse, drain)
    ensures start' <= end' <= end
    ensures var d := Onto(yielded, drain(storage[start..end]));
            events == d.events && failed == d.failed && (!failed ==> storage[start'..end'] == d.rest)
  {
    events, start', end', failed := yielded, start, end, false;
    ghost var goal := Onto(yielded, drain(storage[start..end]));
    while true
      invariant start' <= end' <= end
      invariant goal == Onto(events, drain(storage[start'..end']))
      decreases end' - start'
    {
      var view := storage[start'..end'];
      assert DrainsAt(parse, drain, events, view);
      var front := ReadFront(codec, view);
      match front {
        case Incomplete => return;
        case Malformed =>
          failed := true;
          return;
        case Frame(event, size) =>
          assert view[size..] == storage[start' + size..end'];
          events := events + [event];
          start' := start' + size;
          if start' == end' {
            assert storage[start'..end'] == storage[0..0];
            start', end' := 0, 0;
          }
      }
    }
  }

  /** One turn of the outer loop for a chunk within the limits. */
  method ReceiveChunk<P(!new)>(
    codec: Codec<P>, ghost parse: seq<Byte> -> Front<Event<P>>,
    ghost drain: seq<Byte> -> Drained<Byte, Event<P>>, yielded: seq<Event<P>>,
    storage: array<Byte>, start: nat, end: nat, chunk: seq<Byte>)
    returns (events: seq<Event<P>>, storage': array<Byte>, start': nat, end': nat, failed: bool)
    requires start <= end <= storage.Length
    requires IsParser(codec, parse) && Drains(parse, drain)
    modifies storage
    ensures storage' == storage || fresh(storage')
    ensures start' <= end' <= storage'.Length && end' <= end + |chunk|
    ensures storage'.Length <= Max(storage.Length, 2 * (end + |chunk|))
    ensures var d := Onto(yielded, drain(old(storage[start..end]) + chunk));
            events == d.events && failed == d.failed && (!failed ==> storage'[start'..end'] == d.rest)
  {
    storage', start', end' := Append(storage, start, end, chunk);
    events, start', end', failed := DrainBuffer(codec, parse, drain, yielded, storage', start', end');
  }

  /** The outer loop over the chunks of a body, with both limits. */
  method DecodeChunks<P(!new)>(
    codec: Codec<P>, ghost parse: seq<Byte> -> Front<Event<P>>,
    ghost drain: seq<Byte> -> Drained<Byte, Event<P>>,
    ghost consume: (seq<seq<Byte>>, seq<Byte>, nat) -> Decoded<Event<P>>,
    limits: Limits, initialCapacity: nat, body: seq<seq<Byte>>)
    returns (events: seq<Event<P>>, failed: bool, received: nat, capacity: nat)
    requires IsParser(codec, parse) && Drains(parse, drain) && Consumes(limits, drain, consume)
    ensures Decoded(events, failed) == Ahead([], consume(body, [], 0))
    ensures capacity <= Max(initialCapacity, 2 * received)
  {
    ghost var goal, chunks, buffer: seq<Byte> := Ahead([], consume(body, [], 0)), body, [];
    var storage := new Byte[initialCapacity];
    var start: nat, end: nat := 0, 0;
    received, capacity := 0, initialCapacity;
    events := [];
    for i := 0 to |body|
      invariant fresh(storage) && start <= end <= storage.Length && end <= received
      invariant storage[start..end] == buffer && chunks == body[i..]
      invariant capacity == storage.Length <= Max(initialCapacity, 2 * received)
      invariant goal == Ahead(events, consume(chunks, buffer, received))
    {
      assert chunks[0] == body[i] && chunks[1..] == body[i + 1..];
      assert ConsumesAt(limits, drain, consume, events, chunks, buffer, received);
      received := received + |body[i]|;
      if received > limits.total || end - start + |body[i]| > limits.pending {
        return events, true, received, capacity;
      }
      ghost var d := drain(buffer + body[i]);
      events, storage, start, end, failed :=
        ReceiveChunk(codec, parse, drain, events, storage, start, end, body[i]);
      capacity := storage.Length;
      if failed {
        return;
      }
      chunks, buffer := chunks[1..], d.rest;
    }
    assert ConsumesAt(limits, drain, consume, events, chunks, buffer, received);
    failed := end != start;
  }

  /** The equations of the loops hold for the specification. */
  lemma Equations<P(!new)>(codec: Codec<P>)
    ensures Drains(Parser(codec), (x: seq<Byte>) => Drain(Parser(codec), x))
    ensures Consumes(LIMITS, (x: seq<Byte>) => Drain(Parser(codec), x),
                     (c: seq<seq<Byte>>, x: seq<Byte>, n: nat) => Consume(Parser(codec), LIMITS, c, x, n))
  {
    var parse := Parser(codec);
    var drain := (x: seq<Byte>) => Drain(parse, x);
    var consume := (c: seq<seq<Byte>>, x: seq<Byte>, n: nat) => Consume(parse, LIMITS, c, x, n);
    forall yielded: seq<Event<P>>, b: seq<Byte>
      ensures DrainsAt(parse, drain, yielded, b)
    {
      DrainEquation(parse, yielded, b);
    }
    forall yielded: seq<Event<P>>, chunks: seq<seq<Byte>>, b: seq<Byte>, n: nat
      ensures ConsumesAt(LIMITS, drain, consume, yielded, chunks, b, n)
    {
      ConsumeEquation(parse, LIMITS, yielded, chunks, b, n);
    }
  }

  /**
   * Decodes a body like the specification, for every chunking; the storage never outgrows
   * twice the bytes received.
   */
  method DecodeAwsEventStream<P(!new)>(codec: Codec<P>, body: seq<seq<Byte>>)
    returns (events: seq<Event<P>>, failed: bool, received: nat, capacity: nat)
    ensures Decoded(events, failed) == Consume(Parser(codec), LIMITS, body, [], 0)
    ensures WithinLimits(Parser(codec), LIMITS, body, [], 0) ==>
              Decoded(events, failed) == Whole(Parser(codec), Concat(body))
    ensures capacity <= Max(INITIAL_CAPACITY, 2 * received)
  {
    if WithinLimits(Parser(codec), LIMITS, body, [], 0) {
      ChunkingIndependent(codec, body);
    }
    ghost var drain := (x: seq<Byte>) => Drain(Parser(codec), x);
    ghost var consume := (c: seq<seq<Byte>>, x: seq<Byte>, n: nat) => Consume(Parser(codec), LIMITS, c, x, n);
    Equations(codec);
    events, failed, received, capacity := DecodeChunks(codec, Parser(codec), drain, consume, LIMITS, INITIAL_CAPACITY, body);
    assert [] + consume(body, [], 0).events == consume(body, [], 0).events;
  }
}
