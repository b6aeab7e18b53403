/**
 * Incremental framing over any front parser: a buffer of unconsumed elements, the frames
 * drained from it, and why cutting the input differently decodes the same frames.
 */
module Framing {

  /** What the front of a buffer holds. */
  datatype Front<E> = Incomplete | Malformed | Frame(event: E, size: nat)

  /** More input never changes a verdict. */
  ghost predicate StableAt<T(!new), E(!new)>(front: seq<T> -> Front<E>, b: seq<T>, more: seq<T>) {
    front(b).Incomplete? || front(b + more) == front(b)
  }

  /** Frames take something and nothing that is not there, and verdicts are stable. */
  ghost predicate Lawful<T(!new), E(!new)>(front: seq<T> -> Front<E>) {
    && front([]).Incomplete?
    && (forall b: seq<T> :: front(b).Frame? ==> 0 < front(b).size <= |b|)
    && (forall b: seq<T>, more: seq<T> :: StableAt(front, b, more))
  }

  /** The complete frames at the front, what follows them, and whether that is malformed. */
  datatype Drained<T, E> = Drained(events: seq<E>, rest: seq<T>, failed: bool)

  datatype Decoded<E> = Decoded(events: seq<E>, failed: bool)

  datatype Limits = Limits(pending: nat, total: nat)

  ghost function Drain<T(!new), E(!new)>(front: seq<T> -> Front<E>, buffer: seq<T>): Drained<T, E>
    requires Lawful(front)
    decreases |buffer|
  {
    match front(buffer)
    case Incomplete => Drained([], buffer, false)
    case Malformed => Drained([], buffer, true)
    case Frame(event, size) =>
      var d := Drain(front, buffer[size..]);
      Drained([event] + d.events, d.rest, d.failed)
  }

  /** The reference: parse the whole input, fail on malformed or left-over elements. */
  ghost function Whole<T(!new), E(!new)>(front: seq<T> -> Front<E>, input: seq<T>): Decoded<E>
    requires Lawful(front)
  {
    var d := Drain(front, input);
    Decoded(d.events, d.failed || d.rest != [])
  }

  function Concat<T>(chunks: seq<seq<T>>): seq<T> {
    if chunks == [] then [] else chunks[0] + Concat(chunks[1..])
  }

  predicate TooMuch<T>(limits: Limits, chunk: seq<T>, pending: nat, received: nat) {
    received + |chunk| > limits.total || pending + |chunk| > limits.pending
  }

  /** Chunk by chunk, with both limits, on a buffer of unconsumed elements. */
  ghost function Consume<T(!new), E(!new)>(
    front: seq<T> -> Front<E>, limits: Limits, chunks: seq<seq<T>>, buffer: seq<T>, received: nat
  ): Decoded<E>
    requires Lawful(front)
    decreases |chunks|
  {
    if chunks == [] then Decoded([], buffer != [])
    else if TooMuch(limits, chunks[0], |buffer|, received) then Decoded([], true)
    else
      var d := Drain(front, buffer + chunks[0]);
      if d.failed then Decoded(d.events, true)
      else
        var later := Consume(front, limits, chunks[1..], d.rest, received + |chunks[0]|);
        Decoded(d.events + later.events, later.failed)
  }

  /** Neither limit is reached before the first malformed frame. */
  ghost predicate WithinLimits<T(!new), E(!new)>(
    front: seq<T> -> Front<E>, limits: Limits, chunks: seq<seq<T>>, buffer: seq<T>, received: nat)
    requires Lawful(front)
    decreases |chunks|
  {
    chunks == [] ||
    (&& !TooMuch(limits, chunks[0], |buffer|, received)
     && var d := Drain(front, buffer + chunks[0]);
        d.failed || WithinLimits(front, limits, chunks[1..], d.rest, received + |chunks[0]|))
  }

  /** Draining in two steps drains the same. */
  lemma {:induction false} DrainInSteps<T(!new), E(!new)>(front: seq<T> -> Front<E>, buffer: seq<T>, more: seq<T>)
    requires Lawful(front)
    ensures var d := Drain(front, buffer);
            Drain(front, buffer + more) ==
            if d.failed then Drained(d.events, d.rest + more, true)
            else
              var later := Drain(front, d.rest + more);
              Drained(d.events + later.events, later.rest, later.failed)
    decreases |buffer|
  {
    assert StableAt(front, buffer, more);
    match front(buffer) {
      case Incomplete =>
        assert [] + Drain(front, buffer + more).events == Drain(front, buffer + more).events;
      case Malformed =>
      case Frame(event, size) =>
        assert (buffer + more)[size..] == buffer[size..] + more;
        DrainInSteps(front, buffer[size..], more);
        var d := Drain(front, buffer[size..]);
        if !d.failed {
          EventAssociates(event, d.events, Drain(front, d.rest + more).events);
        }
    }
  }

  lemma EventAssociates<E>(event: E, a: seq<E>, b: seq<E>)
    ensures [event] + (a + b) == ([event] + a) + b
  {
  }

  lemma {:induction false} DrainEndsThere<T(!new), E(!new)>(front: seq<T> -> Front<E>, buffer: seq<T>)
    requires Lawful(front)
    ensures var d := Drain(front, buffer);
            front(d.rest) == if d.failed then Malformed else Incomplete
    decreases |buffer|
  {
    match front(buffer) {
      case Frame(_, size) => DrainEndsThere(front, buffer[size..]);
      case _ =>
    }
  }

  lemma WholeInSteps<T(!new), E(!new)>(front: seq<T> -> Front<E>, now: seq<T>, more: seq<T>)
    requires Lawful(front)
    ensures var d := Drain(front, now);
            Whole(front, now + more) ==
            if d.failed then Decoded(d.events, true)
            else
              var later := Whole(front, d.rest + more);
              Decoded(d.events + later.events, later.failed)
  {
    DrainInSteps(front, now, more);
  }

  /** Within the limits the buffered decoder is the reference on what it has and will get. */
  lemma {:induction false} ConsumeIsWhole<T(!new), E(!new)>(
    front: seq<T> -> Front<E>, limits: Limits, chunks: seq<seq<T>>, buffer: seq<T>, received: nat)
    requires Lawful(front) && front(buffer).Incomplete?
    requires WithinLimits(front, limits, chunks, buffer, received)
    ensures Consume(front, limits, chunks, buffer, received) == Whole(front, buffer + Concat(chunks))
    decreases |chunks|
  {
    if chunks == [] {
      assert buffer + [] == buffer;
    } else {
      var now := buffer + chunks[0];
      assert buffer + Concat(chunks) == now + Concat(chunks[1..]);
      WholeInSteps(front, now, Concat(chunks[1..]));
      DrainEndsThere(front, now);
      if !Drain(front, now).failed {
        ConsumeIsWhole(front, limits, chunks[1..], Drain(front, now).rest, received + |chunks[0]|);
      }
    }
  }

  // ----- an input spoiled at one frame -----

  /** Whatever follows, no frame is found at the front once `bad` has begun to arrive. */
  ghost predicate NeverFrames<T(!new), E(!new)>(front: seq<T> -> Front<E>, bad: seq<T>) {
    forall b: seq<T> :: b <= bad || bad <= b ==> !front(b).Frame?
  }

  /** Two chunkings of equally long chunks. */
  ghost predicate SameCuts<T(!new)>(a: seq<seq<T>>, b: seq<seq<T>>) {
    |a| == |b| && forall i :: 0 <= i < |a| ==> |a[i]| == |b[i]|
  }

  /** No prefix of an input that drains without failure fails. */
  lemma PrefixDrains<T(!new), E(!new)>(front: seq<T> -> Front<E>, prefix: seq<T>, whole: seq<T>)
    requires Lawful(front) && prefix <= whole && !Drain(front, whole).failed
    ensures !Drain(front, prefix).failed
  {
    DrainInSteps(front, prefix, whole[|prefix|..]);
    assert prefix + whole[|prefix|..] == whole;
  }

  /** Past the good part only the good events come out, and the rest never drains away. */
  lemma DrainSpoiled<T(!new), E(!new)>(front: seq<T> -> Front<E>, good: seq<T>, bad: seq<T>, arrived: seq<T>)
    requires Lawful(front) && NeverFrames(front, bad)
    requires !Drain(front, good).failed && Drain(front, good).rest == []
    requires arrived <= bad || bad <= arrived
    ensures Drain(front, good + arrived).events == Drain(front, good).events
    ensures Drain(front, good + arrived).rest == arrived
  {
    DrainInSteps(front, good, arrived);
    assert [] + arrived == arrived;
    assert Drain(front, good).events + [] == Drain(front, good).events;
  }

  /** The spoiled input: intact frames, then a part that never frames, then anything. */
  ghost predicate Spoiled<T(!new), E(!new)>(front: seq<T> -> Front<E>, good: seq<T>, bad: seq<T>) {
    && Lawful(front)
    && !Drain(front, good).failed && Drain(front, good).rest == []
    && bad != [] && NeverFrames(front, bad)
  }

  /** What lies past the good part agrees with the bad one as far as both go. */
  lemma PastPrefix<T(!new)>(good: seq<T>, bad: seq<T>, tail: seq<T>, prefix: seq<T>)
    requires prefix <= good + bad + tail && |good| <= |prefix|
    ensures prefix == good + prefix[|good|..]
    ensures prefix[|good|..] <= bad || bad <= prefix[|good|..]
  {
    var all, arrived := good + bad + tail, prefix[|good|..];
    forall i | 0 <= i < |arrived|
      ensures arrived[i] == all[|good| + i]
    {
    }
    assert forall i :: 0 <= i < |bad| ==> all[|good| + i] == bad[i];
  }

  /** What has come out of a prefix of the spoiled input that reaches past the good part. */
  lemma PastGood<T(!new), E(!new)>(
    front: seq<T> -> Front<E>, good: seq<T>, bad: seq<T>, tail: seq<T>, prefix: seq<T>)
    requires Spoiled(front, good, bad) && prefix <= good + bad + tail && |good| <= |prefix|
    ensures Drain(front, prefix).events == Drain(front, good).events
    ensures |Drain(front, prefix).rest| == |prefix| - |good|
  {
    PastPrefix(good, bad, tail, prefix);
    DrainSpoiled(front, good, bad, prefix[|good|..]);
  }

  lemma Regroup<T(!new)>(a: seq<T>, b: seq<T>, c: seq<T>)
    ensures (a + b) + c == a + (b + c) && a + b <= (a + b) + c
  {
  }

  lemma LongerPrefix<T(!new)>(prefix: seq<T>, chunks: seq<seq<T>>)
    requires chunks != []
    ensures (prefix + chunks[0]) + Concat(chunks[1..]) == prefix + Concat(chunks)
    ensures prefix + chunks[0] <= prefix + Concat(chunks)
  {
    Regroup(prefix, chunks[0], Concat(chunks[1..]));
  }

  /** One chunk of an input that drains without failure and stays within the limits. */
  lemma IntactStep<T(!new), E(!new)>(
    front: seq<T> -> Front<E>, limits: Limits, before: seq<T>, chunks: seq<seq<T>>)
    requires Lawful(front) && chunks != [] && !Drain(front, before + Concat(chunks)).failed
    requires WithinLimits(front, limits, chunks, Drain(front, before).rest, |before|)
    ensures !TooMuch(limits, chunks[0], |Drain(front, before).rest|, |before|)
    ensures var now := before + chunks[0];
            !Drain(front, now).failed && WithinLimits(front, limits, chunks[1..], Drain(front, now).rest, |now|)
  {
    LongerPrefix(before, chunks);
    PrefixDrains(front, before, before + Concat(chunks));
    PrefixDrains(front, before + chunks[0], before + Concat(chunks));
    DrainInSteps(front, before, chunks[0]);
  }

  /** Before the good part is through, both inputs have the same pending rest. */
  lemma SamePending<T(!new), E(!new)>(
    front: seq<T> -> Front<E>, good: seq<T>, bad: seq<T>, tail: seq<T>, before: seq<T>, more: seq<T>, before': seq<T>)
    requires Spoiled(front, good, bad) && |before| == |before'|
    requires before' <= good + bad + tail && good <= before + more
    ensures if |before| < |good| then before == before' && before <= good
            else Drain(front, before').events == Drain(front, good).events
  {
    if |before'| < |good| {
      assert before == good[..|before|] && before' == good[..|before|];
    } else {
      PastGood(front, good, bad, tail, before');
    }
  }

  /** If a prefix of the spoiled input fails, all the good frames are out. */
  lemma FailedPrefix<T(!new), E(!new)>(
    front: seq<T> -> Front<E>, good: seq<T>, bad: seq<T>, tail: seq<T>, prefix: seq<T>)
    requires Spoiled(front, good, bad) && prefix <= good + bad + tail && Drain(front, prefix).failed
    ensures Drain(front, prefix).events == Drain(front, good).events
  {
    if |prefix| < |good| {
      assert prefix == good[..|prefix|];
      PrefixDrains(front, prefix, good);
    } else {
      PastGood(front, good, bad, tail, prefix);
    }
  }

  lemma EventsAssociate<E>(a: seq<E>, b: seq<E>, c: seq<E>)
    ensures (a + b) + c == a + (b + c)
  {
  }

  /** What a run yields in all, from a prefix that has been drained already. */
  ghost predicate YieldsAndFails<T(!new), E(!new)>(
    front: seq<T> -> Front<E>, limits: Limits, before: seq<T>, chunks: seq<seq<T>>, events: seq<E>)
    requires Lawful(front)
  {
    var r := Consume(front, limits, chunks, Drain(front, before).rest, |before|);
    r.failed && Drain(front, before).events + r.events == events
  }

  lemma YieldsOnward<T(!new), E(!new)>(
    front: seq<T> -> Front<E>, limits: Limits, before: seq<T>, chunks: seq<seq<T>>, events: seq<E>)
    requires Lawful(front) && chunks != [] && !Drain(front, before).failed
    requires !TooMuch(limits, chunks[0], |Drain(front, before).rest|, |before|)
    requires !Drain(front, before + chunks[0]).failed
    requires YieldsAndFails(front, limits, before + chunks[0], chunks[1..], events)
    ensures YieldsAndFails(front, limits, before, chunks, events)
  {
    var rest := Drain(front, before).rest;
    var d := Drain(front, rest + chunks[0]);
    DrainInSteps(front, before, chunks[0]);
    var later := Consume(front, limits, chunks[1..], d.rest, |before| + |chunks[0]|);
    EventsAssociate(Drain(front, before).events, d.events, later.events);
  }

  lemma YieldsNow<T(!new), E(!new)>(
    front: seq<T> -> Front<E>, limits: Limits, before: seq<T>, chunks: seq<seq<T>>)
    requires Lawful(front) && chunks != [] && !Drain(front, before).failed
    ensures TooMuch(limits, chunks[0], |Drain(front, before).rest|, |before|) ==>
              YieldsAndFails(front, limits, before, chunks, Drain(front, before).events)
    ensures !TooMuch(limits, chunks[0], |Drain(front, before).rest|, |before|) &&
            Drain(front, before + chunks[0]).failed ==>
              YieldsAndFails(front, limits, before, chunks, Drain(front, before + chunks[0]).events)
  {
    DrainInSteps(front, before, chunks[0]);
    assert Drain(front, before).events + [] == Drain(front, before).events;
  }

  /**
   * An intact input and a spoiled one cut alike: if the intact one stays within the limits,
   * the spoiled one yields exactly the good frames and then fails.
   */
  lemma {:induction false} SpoiledRun<T(!new), E(!new)>(
    front: seq<T> -> Front<E>, limits: Limits, good: seq<T>, bad: seq<T>, tail: seq<T>,
    before: seq<T>, chunks: seq<seq<T>>, before': seq<T>, chunks': seq<seq<T>>)
    requires Spoiled(front, good, bad)
    requires |before| == |before'| && SameCuts(chunks, chunks')
    requires before' + Concat(chunks') == good + bad + tail && good <= before + Concat(chunks)
    requires !Drain(front, before + Concat(chunks)).failed
    requires !Drain(front, before').failed
    requires WithinLimits(front, limits, chunks, Drain(front, before).rest, |before|)
    ensures YieldsAndFails(front, limits, before', chunks', Drain(front, good).events)
    decreases |chunks|
  {
    if chunks == [] {
      assert before' == good + bad + tail;
      PastGood(front, good, bad, tail, before');
      assert Drain(front, before').events + [] == Drain(front, before').events;
    } else {
      LongerPrefix(before, chunks);
      LongerPrefix(before', chunks');
      IntactStep(front, limits, before, chunks);
      SamePending(front, good, bad, tail, before, Concat(chunks), before');
      YieldsNow(front, limits, before', chunks');
      var now' := before' + chunks'[0];
      if TooMuch(limits, chunks'[0], |Drain(front, before').rest|, |before'|) {
      } else if Drain(front, now').failed {
        FailedPrefix(front, good, bad, tail, now');
      } else {
        SpoiledRun(front, limits, good, bad, tail, before + chunks[0], chunks[1..], now', chunks'[1..]);
        YieldsOnward(front, limits, before', chunks', Drain(front, good).events);
      }
    }
  }

  // ----- a stream of frames with one of them spoiled -----

  /** A piece of input that is exactly one frame. */
  ghost predicate IsFrame<T(!new), E(!new)>(front: seq<T> -> Front<E>, frame: seq<T>) {
    front(frame).Frame? && front(frame).size == |frame|
  }

  ghost predicate AllFrames<T(!new), E(!new)>(front: seq<T> -> Front<E>, frames: seq<seq<T>>) {
    forall i :: 0 <= i < |frames| ==> IsFrame(front, frames[i])
  }

  ghost function EventsOf<T(!new), E(!new)>(front: seq<T> -> Front<E>, frames: seq<seq<T>>): (events: seq<E>)
    requires AllFrames(front, frames)
    ensures |events| == |frames|
  {
    if frames == [] then [] else [front(frames[0]).event] + EventsOf(front, frames[1..])
  }

  /** A valid stream drains to the events of its frames and nothing is left. */
  lemma {:induction false} FramesDrain<T(!new), E(!new)>(front: seq<T> -> Front<E>, frames: seq<seq<T>>)
    requires Lawful(front) && AllFrames(front, frames)
    ensures Drain(front, Concat(frames)) == Drained(EventsOf(front, frames), [], false)
    decreases |frames|
  {
    if frames != [] {
      var f, more := frames[0], Concat(frames[1..]);
      assert IsFrame(front, f) && StableAt(front, f, more);
      assert (f + more)[|f|..] == more;
      FramesDrain(front, frames[1..]);
    }
  }

  lemma {:induction false} ConcatSplits<T>(a: seq<seq<T>>, b: seq<seq<T>>)
    ensures Concat(a + b) == Concat(a) + Concat(b)
    decreases |a|
  {
    if a == [] {
      assert a + b == b;
    } else {
      assert (a + b)[1..] == a[1..] + b;
      ConcatSplits(a[1..], b);
    }
  }

  lemma FrameInStream<T>(frames: seq<seq<T>>, j: nat)
    requires j < |frames|
    ensures Concat(frames) == Concat(frames[..j]) + frames[j] + Concat(frames[j + 1..])
  {
    assert frames == frames[..j] + frames[j..] && frames[j..][1..] == frames[j + 1..];
    ConcatSplits(frames[..j], frames[j..]);
  }

  /** The spoiled run from its beginning. */
  lemma SpoiledFromStart<T(!new), E(!new)>(
    front: seq<T> -> Front<E>, limits: Limits, good: seq<T>, bad: seq<T>, tail: seq<T>,
    chunks: seq<seq<T>>, chunks': seq<seq<T>>)
    requires Spoiled(front, good, bad) && SameCuts(chunks, chunks')
    requires Concat(chunks') == good + bad + tail && good <= Concat(chunks)
    requires !Drain(front, Concat(chunks)).failed
    requires WithinLimits(front, limits, chunks, [], 0)
    ensures Consume(front, limits, chunks', [], 0) == Decoded(Drain(front, good).events, true)
  {
    assert [] + Concat(chunks) == Concat(chunks) && [] + Concat(chunks') == Concat(chunks');
    SpoiledRun(front, limits, good, bad, tail, [], chunks, [], chunks');
    var r := Consume(front, limits, chunks', [], 0);
    assert [] + r.events == r.events;
  }

  /** With one frame replaced by something that never frames, only the earlier frames come out. */
  lemma CorruptedFrame<T(!new), E(!new)>(
    front: seq<T> -> Front<E>, limits: Limits, frames: seq<seq<T>>, j: nat, bad: seq<T>,
    chunks: seq<seq<T>>, chunks': seq<seq<T>>)
    requires Lawful(front) && AllFrames(front, frames) && j < |frames|
    requires bad != [] && NeverFrames(front, bad)
    requires Concat(chunks) == Concat(frames) && Concat(chunks') == Concat(frames[j := bad])
    requires SameCuts(chunks, chunks') && WithinLimits(front, limits, chunks, [], 0)
    ensures AllFrames(front, frames[..j])
    ensures Consume(front, limits, chunks', [], 0) == Decoded(EventsOf(front, frames[..j]), true)
  {
    var good, tail := Concat(frames[..j]), Concat(frames[j + 1..]);
    FrameInStream(frames, j);
    FrameInStream(frames[j := bad], j);
    assert frames[j := bad][..j] == frames[..j] && frames[j := bad][j + 1..] == frames[j + 1..];
    FramesDrain(front, frames);
    FramesDrain(front, frames[..j]);
    SpoiledFromStart(front, limits, good, bad, tail, chunks, chunks');
  }
}
