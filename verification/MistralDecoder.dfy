/** The Mistral decoder as it runs, over a map of tool call accumulators. */
module MistralDecoder {
  import opened Wrappers
  import opened JsonValues
  import opened StreamEvents
  import opened StreamRuns
  import opened IndexOrder
  import opened ToolCallIds
  import opened MistralStream
  import StreamNormalizer

  class Decoder {
    const options: Options
    var tools: map<nat, Accumulator>
    var nextContentIndex: nat
    var currentContent: Option<Current>
    var finishReason: Option<string>
    var emittedContent: bool

    constructor (options: Options)
      ensures Now() == INITIAL && this.options == options
    {
      this.options := options;
      tools, nextContentIndex, currentContent, finishReason, emittedContent := map[], 0, None, None, false;
    }

    ghost function Now(): State
      reads this
    {
      State(tools, nextContentIndex, currentContent, finishReason, emittedContent)
    }

    method ContentItem(item: Item) returns (outcome: Outcome, events: seq<Event>)
      modifies this
      ensures Did(TakeItem(old(Now()), item), outcome, events, Now())
    {
      outcome, events := GoesOn, [];
      if item.BadItem? {
        return Throws, [];
      }
      if item.text == "" {
        return;
      }
      if currentContent.None? || currentContent.value.thinking != item.ThinkingItem? {
        currentContent := Some(Current(item.ThinkingItem?, nextContentIndex));
        nextContentIndex := nextContentIndex + 1;
      }
      emittedContent := true;
      events := [ContentDelta(currentContent.value, item.text)];
    }

    /** Adds a piece to a call; the first id and the first name stay. */
    method Accumulate(acc: Accumulator, piece: ToolPiece) returns (grown: Option<Accumulator>)
      requires piece.ToolPiece?
      ensures grown == Add(options, acc, piece)
    {
      var id, name := acc.id, acc.name;
      if piece.id != "" && piece.id != "null" && id == "" {
        id := piece.id;
      }
      if piece.call.None? {
        return None;
      }
      if name == "" {
        name := piece.call.value.name;
      }
      if piece.call.value.arguments.None? {
        return None;
      }
      if id == "" {
        id := FallbackId(options, piece.index);
      }
      grown := Some(acc.(id := id, name := name,
        argumentsText := acc.argumentsText + piece.call.value.arguments.value));
    }

    /** Emits the start of a call once its name is known, and what is new of its arguments. */
    method Progress(acc: Accumulator) returns (acc': Accumulator, events: seq<Event>)
      ensures (acc', events) == Emit(options, acc)
    {
      acc', events := acc, [];
      if !acc.started && acc.name != "" {
        acc' := acc'.(started := true);
        events := [ToolCallStart(acc.contentIndex, acc.id, options.toolName(acc.name))];
      }
      if acc'.started && |acc.argumentsText| > acc.emittedArguments {
        events := events + [ToolCallDelta(acc.contentIndex, acc.id, acc.argumentsText[acc.emittedArguments..])];
        acc' := acc'.(emittedArguments := |acc.argumentsText|);
      }
      assert events == Emit(options, acc).1;
    }

    method PieceOfCall(piece: ToolPiece) returns (outcome: Outcome, events: seq<Event>)
      modifies this
      ensures Did(TakeTool(options, old(Now()), piece), outcome, events, Now())
    {
      outcome, events := GoesOn, [];
      if piece.BadIndex? {
        return Throws, [];
      }
      var index := piece.index;
      if index !in tools {
        tools := tools[index := Accumulator(nextContentIndex, "", "", "", 0, false)];
        nextContentIndex := nextContentIndex + 1;
      }
      var grown := Accumulate(tools[index], piece);
      if grown.None? {
        return Throws, [];
      }
      var acc;
      acc, events := Progress(grown.value);
      if acc.started && !grown.value.started {
        emittedContent := true;
      }
      tools := tools[index := acc];
    }

    method ContentItems(items: seq<Item>) returns (outcome: Outcome, events: seq<Event>)
      modifies this
      ensures Did(Fold(TakeItem, old(Now()), items), outcome, events, Now())
    {
      ghost var goal := Fold(TakeItem, Now(), items);
      outcome, events := GoesOn, [];
      PrecededByNothing(goal);
      assert items[0..] == items;
      for i := 0 to |items|
        invariant outcome == GoesOn && goal == Preceded(events, Fold(TakeItem, Now(), items[i..]))
      {
        assert items[i..][0] == items[i] && items[i..][1..] == items[i + 1..];
        FoldTurn(TakeItem, Now(), items[i..], events);
        var more;
        outcome, more := ContentItem(items[i]);
        events := events + more;
        if outcome != GoesOn {
          return;
        }
      }
      assert events + [] == events;
    }

    method PiecesOfCalls(pieces: seq<ToolPiece>) returns (outcome: Outcome, events: seq<Event>)
      modifies this
      ensures Did(TakeTools(options, old(Now()), Tools(pieces)), outcome, events, Now())
    {
      ghost var step := (s: State, piece: ToolPiece) => TakeTool(options, s, piece);
      ghost var goal := TakeTools(options, Now(), Tools(pieces));
      currentContent := None;
      outcome, events := GoesOn, [];
      PrecededByNothing(goal);
      assert pieces[0..] == pieces;
      for i := 0 to |pieces|
        invariant outcome == GoesOn && goal == Preceded(events, Fold(step, Now(), pieces[i..]))
      {
        assert pieces[i..][0] == pieces[i] && pieces[i..][1..] == pieces[i + 1..];
        FoldTurn(step, Now(), pieces[i..], events);
        var more;
        outcome, more := PieceOfCall(pieces[i]);
        events := events + more;
        if outcome != GoesOn {
          return;
        }
      }
      assert events + [] == events;
    }

    method ChunkOfChoice(chunk: Frame) returns (outcome: Outcome, events: seq<Event>)
      requires chunk.Chunk?
      modifies this
      ensures Did(TakeChunk(options, old(Now()), chunk), outcome, events, Now())
    {
      if chunk.finishReason.Some? {
        finishReason := chunk.finishReason;
      }
      if chunk.content.None? {
        return Throws, [];
      }
      outcome, events := ContentItems(chunk.content.value);
      if outcome != GoesOn || chunk.tools.NoTools? {
        assert events + [] == events;
        return;
      }
      if chunk.tools.BadTools? {
        assert events + [] == events;
        return Throws, events;
      }
      var more;
      outcome, more := PiecesOfCalls(chunk.tools.pieces);
      events := events + more;
    }

    /** Finishes the calls that are left, lowest index first. */
    method FinishCalls() returns (outcome: Outcome, events: seq<Event>)
      modifies this
      ensures Did(FinishTools(options, old(Now()), Ascending(old(tools).Keys)), outcome, events, Now())
      ensures finishReason == old(finishReason) && emittedContent == old(emittedContent)
    {
      ghost var step := (s: State, index: nat) => FinishTool(options, s, index);
      ghost var goal := FinishTools(options, Now(), Ascending(tools.Keys));
      outcome, events := GoesOn, [];
      PrecededByNothing(goal);
      while |tools| > 0
        invariant outcome == GoesOn && goal == Preceded(events, Fold(step, Now(), Ascending(tools.Keys)))
        invariant finishReason == old(finishReason) && emittedContent == old(emittedContent)
        decreases |tools|
      {
        var index := Least(tools.Keys);
        var acc := tools[index];
        FoldTurn(step, Now(), Ascending(tools.Keys), events);
        if !acc.started {
          assert events + [] == events;
          return Throws, events;
        }
        var input := ReadArguments(options.parse, acc.argumentsText);
        if input.None? {
          assert events + [] == events;
          return Throws, events;
        }
        events := events + [ToolCall(acc.contentIndex, acc.id, options.toolName(acc.name), input.value)];
        ghost var before := tools;
        tools := tools - {index};
        assert tools.Keys == before.Keys - {index};
      }
      assert events + [] == events;
    }

    method EndOfSource(aborted: bool) returns (outcome: Outcome, events: seq<Event>)
      modifies this
      ensures Did(Finish(options, old(Now()), aborted), outcome, events, Now())
    {
      if aborted {
        return Returns, [Aborted(emittedContent)];
      }
      if finishReason.None? {
        return Returns, [];
      }
      var terminal := TerminalFor(State(tools, nextContentIndex, currentContent, finishReason, emittedContent), |tools| > 0);
      outcome, events := FinishCalls();
      if outcome == GoesOn {
        outcome, events := Returns, events + [terminal];
      }
    }

    method TakeFrame(arrival: Arrival, abortedAtEnd: bool) returns (outcome: Outcome, events: seq<Event>)
      modifies this
      ensures Did(Step(options, abortedAtEnd, old(Now()), arrival), outcome, events, Now())
    {
      outcome, events := GoesOn, [];
      if arrival.aborted {
        return Returns, [Aborted(emittedContent)];
      }
      match arrival.frame {
        case Done => outcome, events := EndOfSource(abortedAtEnd);
        case Malformed => outcome := Throws;
        case ProviderError(code) => outcome, events := Returns, [Failed(code, emittedContent)];
        case NoChoice =>
        case Chunk(_, _, _) => outcome, events := ChunkOfChoice(arrival.frame);
      }
    }
  }

  /** Decodes all frames as specified; the run is well-formed. */
  method DecodeMistralConversationsStream(options: Options, frames: seq<Arrival>, abortedAtEnd: bool)
    returns (outcome: Outcome, events: seq<Event>)
    requires LawfulDigest(options.digest)
    ensures Did(Decode(options, INITIAL, frames, abortedAtEnd), outcome, events, INITIAL) && outcome != GoesOn
    ensures Legal(ExactFits(options.parse), QUIET, events)
  {
    RunsAreLegal(options, frames, abortedAtEnd);
    ghost var step := (s: State, f: Arrival) => Step(options, abortedAtEnd, s, f);
    ghost var goal := Fold(step, INITIAL, frames);
    var decoder := new Decoder(options);
    var more: seq<Event>;
    events := [];
    PrecededByNothing(goal);
    assert frames[0..] == frames;
    for i := 0 to |frames|
      invariant fresh(decoder) && decoder.options == options
      invariant goal == Preceded(events, Fold(step, decoder.Now(), frames[i..]))
    {
      assert frames[i..][0] == frames[i] && frames[i..][1..] == frames[i + 1..];
      FoldTurn(step, decoder.Now(), frames[i..], events);
      outcome, more := decoder.TakeFrame(frames[i], abortedAtEnd);
      events := events + more;
      if outcome != GoesOn {
        return;
      }
    }
    assert events + [] == events;
    outcome, more := decoder.EndOfSource(abortedAtEnd);
    events := events + more;
  }

  /** The decoder closed by the normalizer: exactly one terminal event, in last place. */
  method StreamMistralConversations(options: Options, frames: seq<Arrival>, abortedAtEnd: bool, abortedOnClose: bool)
    returns (events: seq<Event>)
    requires LawfulDigest(options.digest)
    ensures Legal(ExactFits(options.parse), QUIET, events)
    ensures events != [] && Terminal(events[|events| - 1])
    ensures forall i :: 0 <= i < |events| - 1 ==> !Terminal(events[i])
    ensures Decode(options, INITIAL, frames, abortedAtEnd).events <= events
  {
    var outcome, decoded := DecodeMistralConversationsStream(options, frames, abortedAtEnd);
    var ending := if outcome == Throws then StreamNormalizer.Throws else StreamNormalizer.Ends;
    StreamNormalizer.ClosingKeeps(ExactFits(options.parse), QUIET, decoded, ending, abortedOnClose, false);
    events := StreamNormalizer.NormalizeModelStream(StreamNormalizer.Emitted(decoded), ending, abortedOnClose);
  }
}
