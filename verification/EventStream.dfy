/**
 * The AWS event-stream decoder: what one message means, the growing and compacting buffer
 * that decodes chunk by chunk, and what checksums detect.
 */
module EventStream {
  import opened Wrappers
  import opened Crc32
  import opened Framing

  const MAX_FRAME := 16 * 1024 * 1024
  const MAX_TOTAL := 64 * 1024 * 1024
  const INITIAL_CAPACITY := 64 * 1024
  const LIMITS := Limits(MAX_FRAME, MAX_TOTAL)

  /**
   * Text decoding and JSON parsing, which stay abstract: `json` yields nothing for text that
   * does not parse to an object, `empty` is the payload of an empty text.
   */
  datatype Codec<!P> = Codec(text: seq<Byte> -> string, json: string -> Option<P>, empty: P)

  datatype Event<P> = Event(name: string, payload: P)

  // ----- one message -----

  function Word(b: seq<Byte>, i: nat): bv32
    requires i + 4 <= |b|
  {
    ((b[i] as bv32) << 24) | ((b[i + 1] as bv32) << 16) | ((b[i + 2] as bv32) << 8) | (b[i + 3] as bv32)
  }

  function Length(b: seq<Byte>, i: nat): nat
    requires i + 4 <= |b|
  {
    Word(b, i) as nat
  }

  function Half(b: seq<Byte>, i: nat): nat
    requires i + 2 <= |b|
  {
    (((b[i] as bv16) << 8) | (b[i + 1] as bv16)) as nat
  }

  /** One header at `offset`: where it ends, its name and its value; nothing if it is malformed. */
  datatype Header = Header(name: seq<Byte>, value: seq<Byte>, end: nat)

  function HeaderAt(headers: seq<Byte>, offset: nat): (header: Option<Header>)
    requires offset < |headers|
    ensures header.Some? ==> offset < header.value.end <= |headers|
  {
    var nameLength := headers[offset] as nat;
    var value := offset + 2 + nameLength;
    if value > |headers| || headers[value - 1] != 7 || value + 2 > |headers| then None
    else
      var end := value + 2 + Half(headers, value);
      if end > |headers| then None
      else Some(Header(headers[offset + 1..value - 1], headers[value + 2..end], end))
  }

  predicate NamesEvent(name: string) {
    name == ":event-type" || name == ":exception-type"
  }

  /** The first event or exception type from `offset` on; nothing if the headers are malformed. */
  function HeaderType(text: seq<Byte> -> string, headers: seq<Byte>, offset: nat): Option<string>
    decreases |headers| - offset
  {
    if offset >= |headers| then None
    else
      match HeaderAt(headers, offset)
      case None => None
      case Some(header) =>
        if NamesEvent(text(header.name)) then Some(text(header.value))
        else HeaderType(text, headers, header.end)
  }

  /** The scanning loop over the headers. */
  method EventType(text: seq<Byte> -> string, headers: seq<Byte>) returns (name: Option<string>)
    ensures name == HeaderType(text, headers, 0)
  {
    var offset := 0;
    while offset < |headers|
      invariant HeaderType(text, headers, 0) == HeaderType(text, headers, offset)
      decreases |headers| - offset
    {
      var header := HeaderAt(headers, offset);
      if header.None? {
        return None;
      }
      if NamesEvent(text(header.value.name)) {
        return Some(text(header.value.value));
      }
      offset := header.value.end;
    }
    name := None;
  }

  /** The payload of a message: an empty text stands for the empty object. */
  function Payload<P>(codec: Codec<P>, bytes: seq<Byte>): Option<P> {
    var text := codec.text(bytes);
    if text == "" then Some(codec.empty) else codec.json(text)
  }

  predicate LengthsOk(total: nat, headersLength: nat) {
    16 <= total <= MAX_FRAME && headersLength <= total - 16
  }

  predicate ChecksumsOk(message: seq<Byte>)
    requires |message| >= 16
  {
    && Checksum(message[..8]) == Word(message, 8)
    && Checksum(message[..|message| - 4]) == Word(message, |message| - 4)
  }

  function Message<P>(codec: Codec<P>, message: seq<Byte>, headersLength: nat): Option<Event<P>>
    requires |message| >= 16 && headersLength <= |message| - 16
  {
    if !ChecksumsOk(message) then None
    else
      match HeaderType(codec.text, message[12..12 + headersLength], 0)
      case None => None
      case Some(name) =>
        match Payload(codec, message[12 + headersLength..|message| - 4])
        case None => None
        case Some(payload) => Some(Event(name, payload))
  }

  /** What the front of a buffer holds. */
  function FrontOf<P>(codec: Codec<P>, buffer: seq<Byte>): Front<Event<P>> {
    if |buffer| < 16 then Incomplete
    else
      var total, headersLength := Length(buffer, 0), Length(buffer, 4);
      if !LengthsOk(total, headersLength) then Malformed
      else if |buffer| < total then Incomplete
      else
        match Message(codec, buffer[..total], headersLength)
        case None => Malformed
        case Some(event) => Frame(event, total)
  }

  lemma FrontStable<P>(codec: Codec<P>, b: seq<Byte>, more: seq<Byte>)
    ensures FrontOf(codec, b).Incomplete? || FrontOf(codec, b + more) == FrontOf(codec, b)
  {
    if |b| >= 16 {
      var total := Length(b, 0);
      assert Length(b + more, 0) == total && Length(b + more, 4) == Length(b, 4);
      if total <= |b| {
        assert (b + more)[..total] == b[..total];
      }
    }
  }

  /** The parser of a codec as a function value. */
  function Parser<P(!new)>(codec: Codec<P>): (parser: seq<Byte> -> Front<Event<P>>)
    ensures Lawful(parser)
  {
    var parser := (b: seq<Byte>) => FrontOf(codec, b);
    assert Lawful(parser) by {
      forall b: seq<Byte>, more: seq<Byte>
        ensures StableAt(parser, b, more)
      {
        FrontStable(codec, b, more);
      }
    }
    parser
  }

  // ----- chunking does not matter -----

  /** Every chunking within the limits decodes like the whole input. */
  lemma ChunkingIndependent<P(!new)>(codec: Codec<P>, chunks: seq<seq<Byte>>)
    requires WithinLimits(Parser(codec), LIMITS, chunks, [], 0)
    ensures Consume(Parser(codec), LIMITS, chunks, [], 0) == Whole(Parser(codec), Concat(chunks))
  {
    ConsumeIsWhole(Parser(codec), LIMITS, chunks, [], 0);
    assert [] + Concat(chunks) == Concat(chunks);
  }

  // ----- what the checksums detect -----

  lemma WordInjective(a: seq<Byte>, b: seq<Byte>, i: nat)
    requires i + 4 <= |a| && i + 4 <= |b| && Word(a, i) == Word(b, i)
    ensures a[i] == b[i] && a[i + 1] == b[i + 1] && a[i + 2] == b[i + 2] && a[i + 3] == b[i + 3]
  {
    BytesOfWord(a[i], a[i + 1], a[i + 2], a[i + 3], b[i], b[i + 1], b[i + 2], b[i + 3]);
  }

  lemma BytesOfWord(a: Byte, b: Byte, c: Byte, d: Byte, e: Byte, f: Byte, g: Byte, h: Byte)
    requires ((a as bv32) << 24) | ((b as bv32) << 16) | ((c as bv32) << 8) | (d as bv32) ==
             ((e as bv32) << 24) | ((f as bv32) << 16) | ((g as bv32) << 8) | (h as bv32)
    ensures a == e && b == f && c == g && d == h
  {
  }

  /** A change in a checked part or in its checksum is noticed. */
  lemma ChecksumNotices(a: seq<Byte>, b: seq<Byte>, p: nat, n: nat)
    requires n + 4 <= |a| && n + 4 <= |b| && p < n + 4
    requires a[p] != b[p] && forall i :: 0 <= i < n + 4 && i != p ==> a[i] == b[i]
    requires Checksum(a[..n]) == Word(a, n)
    ensures Checksum(b[..n]) != Word(b, n)
  {
    if p < n {
      assert DifferAt(a[..n], b[..n], p);
      OneByteChangesChecksum(a[..n], b[..n], p);
      assert Word(a, n) == Word(b, n);
    } else {
      assert a[..n] == b[..n];
      if Word(a, n) == Word(b, n) {
        WordInjective(a, b, n);
      }
    }
  }

  lemma MessageChecksums<P>(codec: Codec<P>, b: seq<Byte>)
    requires FrontOf(codec, b).Frame?
    ensures var n := FrontOf(codec, b).size;
            16 <= n <= |b| && n == Length(b, 0) && ChecksumsOk(b[..n])
  {
  }

  /** Checksums of a message, read in the buffer that holds it. */
  lemma ChecksumsInBuffer(b: seq<Byte>, n: nat)
    requires 16 <= n <= |b| && ChecksumsOk(b[..n])
    ensures Checksum(b[..8]) == Word(b, 8) && Checksum(b[..n - 4]) == Word(b, n - 4)
  {
    assert b[..n][..8] == b[..8] && b[..n][..n - 4] == b[..n - 4];
  }

  /** A buffer that starts with the changed message, or is a part of it, differs there only. */
  lemma DiffersInBuffer(frame: seq<Byte>, bad: seq<Byte>, p: nat, b: seq<Byte>)
    requires DifferAt(frame, bad, p) && (b <= bad || bad <= b)
    ensures forall i :: 0 <= i < |frame| && i < |b| && i != p ==> frame[i] == b[i]
    ensures p < |b| ==> p < |frame| && frame[p] != b[p]
  {
    assert forall i :: 0 <= i < |bad| && i < |b| ==> b[i] == bad[i];
  }

  lemma SameLength(a: seq<Byte>, b: seq<Byte>)
    requires |a| >= 4 && |b| >= 4 && forall i :: 0 <= i < 4 ==> a[i] == b[i]
    ensures Length(a, 0) == Length(b, 0)
  {
  }

  /** One of the two checksums of a message does not fit after a change to one byte. */
  lemma ChangeIsNoticed(frame: seq<Byte>, b: seq<Byte>, p: nat, n: nat)
    requires |frame| >= 16 && 16 <= n <= |b| && (p >= 12 ==> n == |frame|)
    requires p < |frame| && (p < |b| ==> frame[p] != b[p])
    requires forall i :: 0 <= i < |frame| && i < |b| && i != p ==> frame[i] == b[i]
    requires Checksum(frame[..8]) == Word(frame, 8) && Checksum(frame[..|frame| - 4]) == Word(frame, |frame| - 4)
    ensures Checksum(b[..8]) != Word(b, 8) || Checksum(b[..n - 4]) != Word(b, n - 4)
  {
    if p < 12 {
      ChecksumNotices(frame, b, p, 8);
    } else {
      ChecksumNotices(frame, b, p, |frame| - 4);
    }
  }

  /** A message with one changed byte is never taken for a message, whatever follows it. */
  lemma ChangedNeverFrames<P(!new)>(codec: Codec<P>, frame: seq<Byte>, bad: seq<Byte>, p: nat, b: seq<Byte>)
    requires IsFrame(Parser(codec), frame) && DifferAt(frame, bad, p)
    requires b <= bad || bad <= b
    ensures !FrontOf(codec, b).Frame?
  {
    MessageChecksums(codec, frame);
    ChecksumsInBuffer(frame, |frame|);
    DiffersInBuffer(frame, bad, p, b);
    if FrontOf(codec, b).Frame? {
      MessageChecksums(codec, b);
      var n := FrontOf(codec, b).size;
      ChecksumsInBuffer(b, n);
      if p >= 12 {
        SameLength(frame, b);
      }
      ChangeIsNoticed(frame, b, p, n);
    }
  }

  /**
   * Changing any one byte of one message of a valid stream, be it in a length field, a
   * checksum or anywhere else, makes the decoder yield exactly the earlier messages and then
   * fail, for every chunking under which the intact stream stays within the limits.
   */
  lemma CorruptionDetected<P(!new)>(
    codec: Codec<P>, frames: seq<seq<Byte>>, j: nat, bad: seq<Byte>, p: nat,
    chunks: seq<seq<Byte>>, chunks': seq<seq<Byte>>)
    requires AllFrames(Parser(codec), frames)
    requires j < |frames| && DifferAt(frames[j], bad, p)
    requires Concat(chunks) == Concat(frames) && Concat(chunks') == Concat(frames[j := bad])
    requires SameCuts(chunks, chunks') && WithinLimits(Parser(codec), LIMITS, chunks, [], 0)
    ensures AllFrames(Parser(codec), frames[..j])
    ensures Consume(Parser(codec), LIMITS, chunks', [], 0) ==
            Decoded(EventsOf(Parser(codec), frames[..j]), true)
  {
    ChangedNeverFramesAtAll(codec, frames[j], bad, p);
    CorruptedFrame(Parser(codec), LIMITS, frames, j, bad, chunks, chunks');
  }

  lemma ChangedNeverFramesAtAll<P(!new)>(codec: Codec<P>, frame: seq<Byte>, bad: seq<Byte>, p: nat)
    requires IsFrame(Parser(codec), frame) && DifferAt(frame, bad, p)
    ensures NeverFrames(Parser(codec), bad) && bad != []
  {
    forall b: seq<Byte> | b <= bad || bad <= b
      ensures !Parser(codec)(b).Frame?
    {
      ChangedNeverFrames(codec, frame, bad, p, b);
    }
  }
}
