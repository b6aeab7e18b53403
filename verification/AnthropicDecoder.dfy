/** The Anthropic decoder as it runs, over a map of open blocks and a few counters. */
module AnthropicDecoder {
  import opened Wrappers
  import opened JsonValues
  import opened StreamEvents
  import opened StreamRuns
  import opened AnthropicStream
  import opened AnthropicTheorems
  import StreamNormalizer

  class Decoder {
    const options: Options
    var blocks: map<nat, Block>
    var nextContentIndex: nat
    var stopReason: Option<string>
    var emittedContent: bool

    constructor (options: Options)
      ensures Now() == INITIAL && this.options == options
    {
      this.options := options;
      blocks, nextContentIndex, stopReason, emittedContent := map[], 0, None, false;
    }

    ghost function Now(): State
      reads this
    {
      State(blocks, nextContentIndex, stopReason, emittedContent)
    }

    method StartOfBlock(index: nat, content: BlockContent) returns (outcome: Outcome, events: seq<Event>)
      requires index !in blocks
      modifies this
      ensures Did(StartBlock(options, old(Now()), index, content), outcome, events, Now())
    {
      outcome, events := GoesOn, [];
      if content.BadContent? {
        return Throws, [];
      }
      var contentIndex := nextContentIndex;
      nextContentIndex := nextContentIndex + 1;
      match content {
        case TextContent(text) =>
          blocks := blocks[index := TextBlock(contentIndex)];
          if text != "" {
            emittedContent := true;
            events := [TextDelta(contentIndex, text)];
          }
        case ThinkingContent(text, signature) =>
          blocks := blocks[index := ThinkingBlock(contentIndex, false, signature)];
          if text != "" {
            emittedContent := true;
            events := [ThinkingDelta(contentIndex, text)];
          }
        case RedactedContent(data) =>
          if data == "" {
            return Throws, [];
          }
          blocks := blocks[index := ThinkingBlock(contentIndex, true, data)];
          emittedContent := true;
          events := [ThinkingDelta(contentIndex, "[Reasoning redacted]")];
        case ToolUseContent(id, name, input) =>
          if id == "" || name == "" || input.BadInput? {
            return Throws, [];
          }
          blocks := blocks[index := ToolBlock(contentIndex, id, name, input.text)];
          emittedContent := true;
          events := [ToolCallStart(contentIndex, id, options.toolName(name))];
        case _ =>
      }
    }

    method PieceOfBlock(index: nat, piece: Piece) returns (outcome: Outcome, events: seq<Event>)
      requires index in blocks
      modifies this
      ensures Did(ExtendBlock(old(Now()), index, piece), outcome, events, Now())
    {
      outcome, events := GoesOn, [];
      var block := blocks[index];
      match piece {
        case BadPiece => outcome := Throws;
        case TextPiece(text) =>
          if !block.TextBlock? || text.None? {
            return Throws, [];
          }
          if text.value != "" {
            emittedContent := true;
            events := [TextDelta(block.contentIndex, text.value)];
          }
        case ThinkingPiece(text) =>
          if !block.ThinkingBlock? || text.None? {
            return Throws, [];
          }
          if text.value != "" {
            emittedContent := true;
            events := [ThinkingDelta(block.contentIndex, text.value)];
          }
        case SignaturePiece(signature) =>
          if !block.ThinkingBlock? || signature.None? {
            return Throws, [];
          }
          blocks := blocks[index := block.(signature := block.signature + signature.value)];
        case JsonPiece(partial) =>
          if !block.ToolBlock? || partial.None? {
            return Throws, [];
          }
          blocks := blocks[index := block.(argumentsText := block.argumentsText + partial.value)];
          if partial.value != "" {
            events := [ToolCallDelta(block.contentIndex, block.callId, partial.value)];
          }
        case OtherPiece =>
      }
    }

    method StopOfBlock(index: nat) returns (outcome: Outcome, events: seq<Event>)
      requires index in blocks
      modifies this
      ensures Did(StopBlock(options, old(Now()), index), outcome, events, Now())
    {
      outcome, events := GoesOn, [];
      var block := blocks[index];
      blocks := blocks - {index};
      if block.ThinkingBlock? && block.signature != "" {
        events := [ReplayMetadata(block.contentIndex, block.signature, block.redacted)];
      } else if block.ToolBlock? {
        var input := ReadArguments(options.parse, block.argumentsText);
        if input.None? {
          return Throws, [];
        }
        events := [ToolCall(block.contentIndex, block.callId, options.toolName(block.wireName), input.value)];
      }
    }

    method StopOfMessage() returns (outcome: Outcome, events: seq<Event>)
      ensures Did(StopMessage(Now()), outcome, events, Now())
    {
      outcome, events := Returns, [];
      if |blocks| > 0 || stopReason.None? {
        return Throws, [];
      }
      var reason := stopReason.value;
      if reason == "end_turn" || reason == "stop_sequence" || reason == "pause_turn" {
        events := [Completed(Stop, false)];
      } else if reason == "max_tokens" {
        events := [Completed(Length, true)];
      } else if reason == "tool_use" {
        events := [Completed(ToolUse, false)];
      } else if reason == "refusal" || reason == "sensitive" {
        events := [Failed(reason, emittedContent)];
      } else {
        outcome := Throws;
      }
    }

    method Take(arrival: Arrival) returns (outcome: Outcome, events: seq<Event>)
      modifies this
      ensures Did(Step(options, old(Now()), arrival), outcome, events, Now())
    {
      outcome, events := GoesOn, [];
      if arrival.aborted {
        return Returns, [Aborted(emittedContent)];
      }
      match arrival.frame {
        case Ignored =>
        case Undecodable => outcome := Throws;
        case ProviderError(code) => outcome, events := Returns, [Failed(code, emittedContent)];
        case MessageStart(wellFormed) => outcome := if wellFormed then GoesOn else Throws;
        case BlockStart(index, content) =>
          if index.None? || index.value in blocks {
            return Throws, [];
          }
          outcome, events := StartOfBlock(index.value, content);
        case BlockDelta(index, piece) =>
          if index.None? || index.value !in blocks {
            return Throws, [];
          }
          outcome, events := PieceOfBlock(index.value, piece);
        case BlockStop(index) =>
          if index.None? || index.value !in blocks {
            return Throws, [];
          }
          outcome, events := StopOfBlock(index.value);
        case MessageDelta(wellFormed, reason) =>
          if !wellFormed {
            return Throws, [];
          }
          if reason.Some? {
            stopReason := reason;
          }
        case MessageStop =>
          outcome, events := StopOfMessage();
      }
    }
  }

  /** Decodes all frames as specified; the run is well-formed, and exact just when no finished call had a start input. */
  method DecodeAnthropicMessagesStream(options: Options, frames: seq<Arrival>, abortedAtEnd: bool)
    returns (outcome: Outcome, events: seq<Event>)
    ensures Did(Decode(options, INITIAL, frames, abortedAtEnd), outcome, events, INITIAL) && outcome != GoesOn
    ensures Legal(SeededFits(options.parse, SeedAt(frames)), QUIET, events)
    ensures LawfulStarts(options.parse, frames) ==>
              (Legal(ExactFits(options.parse), QUIET, events) <==> NoStartInputs(frames, events))
  {
    RunsAreLegal(options, frames, abortedAtEnd);
    if LawfulStarts(options.parse, frames) {
      ExactIff(options, frames, abortedAtEnd);
    }
    ghost var step := (s: State, f: Arrival) => Step(options, s, f);
    ghost var goal := Fold(step, INITIAL, frames);
    var decoder := new Decoder(options);
    events := [];
    PrecededByNothing(goal);
    assert frames[0..] == frames;
    for i := 0 to |frames|
      invariant fresh(decoder) && decoder.options == options
      invariant goal == Preceded(events, Fold(step, decoder.Now(), frames[i..]))
    {
      assert frames[i..][0] == frames[i] && frames[i..][1..] == frames[i + 1..];
      FoldTurn(step, decoder.Now(), frames[i..], events);
      var more;
      outcome, more := decoder.Take(frames[i]);
      events := events + more;
      if outcome != GoesOn {
        return;
      }
    }
    assert events + [] == events;
    outcome := Returns;
    if abortedAtEnd {
      events := events + [Aborted(decoder.emittedContent)];
    }
  }

  /**
   * The decoder closed by the normalizer: a well-formed run with exactly one terminal event,
   * in last place, however the frames end; and exact just when no finished call had an
   * input at the start of its block.
   */
  method StreamAnthropicMessages(options: Options, frames: seq<Arrival>, abortedAtEnd: bool, abortedOnClose: bool)
    returns (events: seq<Event>)
    ensures Legal(SeededFits(options.parse, SeedAt(frames)), QUIET, events)
    ensures LawfulStarts(options.parse, frames) ==>
              (Legal(ExactFits(options.parse), QUIET, events) <==> NoStartInputs(frames, events))
    ensures events != [] && Terminal(events[|events| - 1])
    ensures forall i :: 0 <= i < |events| - 1 ==> !Terminal(events[i])
    ensures Decode(options, INITIAL, frames, abortedAtEnd).events <= events
  {
    var outcome, decoded := DecodeAnthropicMessagesStream(options, frames, abortedAtEnd);
    var ending := if outcome == Throws then StreamNormalizer.Throws else StreamNormalizer.Ends;
    StreamNormalizer.ClosingKeeps(
      SeededFits(options.parse, SeedAt(frames)), QUIET, decoded, ending, abortedOnClose, false);
    events := StreamNormalizer.NormalizeModelStream(StreamNormalizer.Emitted(decoded), ending, abortedOnClose);
    if LawfulStarts(options.parse, frames) {
      SeededIsExactIff(options, frames, events);
    }
  }
}
