/**
 * The buffer of an incremental decoder: two cursors into storage that is grown and
 * compacted in place; and what its loops use of `drain` and `consume`, ghost function values
 * that stand for the specification, one equation at a time.
 */
module FramingBuffer {
  import opened Basics
  import opened Framing

  function Onto<T, E>(yielded: seq<E>, d: Drained<T, E>): Drained<T, E> {
    d.(events := yielded + d.events)
  }

  function Ahead<E>(yielded: seq<E>, r: Decoded<E>): Decoded<E> {
    r.(events := yielded + r.events)
  }

  /** The equation of `drain` at one buffer, in the form the inner loop uses. */
  ghost predicate DrainsAt<T(!new), E(!new)>(
    parse: seq<T> -> Front<E>, drain: seq<T> -> Drained<T, E>, yielded: seq<E>, b: seq<T>)
  {
    match parse(b)
    case Incomplete => Onto(yielded, drain(b)) == Drained(yielded, b, false)
    case Malformed => Onto(yielded, drain(b)) == Drained(yielded, b, true)
    case Frame(event, size) =>
      0 < size <= |b| && Onto(yielded, drain(b)) == Onto(yielded + [event], drain(b[size..]))
  }

  ghost predicate Drains<T(!new), E(!new)>(parse: seq<T> -> Front<E>, drain: seq<T> -> Drained<T, E>) {
    forall yielded: seq<E>, b: seq<T> :: DrainsAt(parse, drain, yielded, b)
  }

  /** The equation of `consume` at one point, in the form the outer loop uses. */
  ghost predicate ConsumesAt<T(!new), E(!new)>(
    limits: Limits, drain: seq<T> -> Drained<T, E>, consume: (seq<seq<T>>, seq<T>, nat) -> Decoded<E>,
    yielded: seq<E>, chunks: seq<seq<T>>, b: seq<T>, received: nat)
  {
    Ahead(yielded, consume(chunks, b, received)) ==
    if chunks == [] then Decoded(yielded, b != [])
    else if TooMuch(limits, chunks[0], |b|, received) then Decoded(yielded, true)
    else
      var d := drain(b + chunks[0]);
      if d.failed then Decoded(yielded + d.events, true)
      else Ahead(yielded + d.events, consume(chunks[1..], d.rest, received + |chunks[0]|))
  }

  ghost predicate Consumes<T(!new), E(!new)>(
    limits: Limits, drain: seq<T> -> Drained<T, E>, consume: (seq<seq<T>>, seq<T>, nat) -> Decoded<E>)
  {
    forall yielded: seq<E>, chunks: seq<seq<T>>, b: seq<T>, received: nat ::
      ConsumesAt(limits, drain, consume, yielded, chunks, b, received)
  }

  /** Moves the unconsumed elements to the start of a larger buffer. */
  method Compact<T(0)>(storage: array<T>, start: nat, end: nat, capacity: nat) returns (storage': array<T>)
    requires start <= end <= storage.Length && end - start <= capacity
    ensures fresh(storage') && storage'.Length == capacity
    ensures storage'[0..end - start] == storage[start..end]
  {
    storage' := new T[capacity];
    forall i | 0 <= i < end - start {
      storage'[i] := storage[start + i];
    }
  }

  /** Copies a chunk in after what the buffer holds. */
  method Copy<T>(storage: array<T>, start: nat, end: nat, chunk: seq<T>)
    requires start <= end <= end + |chunk| <= storage.Length
    modifies storage
    ensures storage[start..end + |chunk|] == old(storage[start..end]) + chunk
  {
    forall i | 0 <= i < |chunk| {
      storage[end + i] := chunk[i];
    }
  }

  /** Makes room for a chunk, compacting into a larger buffer if needed, and copies it in. */
  method Append<T(0)>(storage: array<T>, start: nat, end: nat, chunk: seq<T>)
    returns (storage': array<T>, start': nat, end': nat)
    requires start <= end <= storage.Length
    modifies storage
    ensures storage' == storage || fresh(storage')
    ensures start' <= end' <= storage'.Length
    ensures storage'[start'..end'] == old(storage[start..end]) + chunk
    ensures end' <= end + |chunk|
    ensures storage'.Length <= Max(storage.Length, 2 * (end + |chunk|))
  {
    storage', start', end' := storage, start, end;
    if storage.Length - end < |chunk| {
      var pending := end - start;
      storage' := Compact(storage, start, end, Max(storage.Length * 2, pending + |chunk|));
      start', end' := 0, pending;
    }
    Copy(storage', start', end', chunk);
    end' := end' + |chunk|;
  }

  // ----- the equations hold for the specification -----

  lemma DrainEquation<T(!new), E(!new)>(parse: seq<T> -> Front<E>, yielded: seq<E>, b: seq<T>)
    requires Lawful(parse)
    ensures DrainsAt(parse, (x: seq<T>) => Drain(parse, x), yielded, b)
  {
    var d := Drain(parse, b);
    match parse(b) {
      case Frame(event, size) =>
        assert yielded + ([event] + Drain(parse, b[size..]).events) ==
               (yielded + [event]) + Drain(parse, b[size..]).events;
      case _ =>
        assert yielded + [] == yielded;
    }
  }

  lemma ConsumeEquation<T(!new), E(!new)>(
    parse: seq<T> -> Front<E>, limits: Limits, yielded: seq<E>, chunks: seq<seq<T>>, b: seq<T>, received: nat)
    requires Lawful(parse)
    ensures ConsumesAt(limits, (x: seq<T>) => Drain(parse, x),
                       (c: seq<seq<T>>, x: seq<T>, n: nat) => Consume(parse, limits, c, x, n),
                       yielded, chunks, b, received)
  {
    assert yielded + [] == yielded;
    if chunks != [] && !TooMuch(limits, chunks[0], |b|, received) {
      var d := Drain(parse, b + chunks[0]);
      if !d.failed {
        var later := Consume(parse, limits, chunks[1..], d.rest, received + |chunks[0]|);
        assert yielded + (d.events + later.events) == (yielded + d.events) + later.events;
      }
    }
  }
}
