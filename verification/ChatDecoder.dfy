/** The OpenAI Chat decoder as it runs, over a map of tool call accumulators. */
module ChatDecoder {
  import opened Wrappers
  import opened JsonValues
  import opened StreamEvents
  import opened StreamRuns
  import opened IndexOrder
  import opened ChatStream
  import opened ChatTheorems
  import opened ChatExactness
  import StreamNormalizer

  class Decoder {
    const options: Options
    var tools: map<nat, Accumulator>
    var nextContentIndex: nat
    var textContentIndex: Option<nat>
    var thinkingContentIndex: Option<nat>
    var finishReason: Option<string>
    var emittedContent: bool

    constructor (options: Options)
      ensures Now() == INITIAL && this.options == options
    {
      this.options := options;
      tools, nextContentIndex, textContentIndex, thinkingContentIndex := map[], 0, None, None;
      finishReason, emittedContent := None, false;
    }

    ghost function Now(): State
      reads this
    {
      State(tools, nextContentIndex, textContentIndex, thinkingContentIndex, finishReason, emittedContent)
    }

    method TextOfDelta(text: string) returns (events: seq<Event>)
      modifies this
      ensures Did(TakeText(old(Now()), text), GoesOn, events, Now())
    {
      events := [];
      if text != "" {
        if textContentIndex.None? {
          textContentIndex := Some(nextContentIndex);
          nextContentIndex := nextContentIndex + 1;
        }
        emittedContent := true;
        events := [TextDelta(textContentIndex.value, text)];
      }
    }

    method ReasoningOfDelta(text: string) returns (events: seq<Event>)
      modifies this
      ensures Did(TakeReasoning(old(Now()), text), GoesOn, events, Now())
    {
      events := [];
      if text != "" {
        if thinkingContentIndex.None? {
          thinkingContentIndex := Some(nextContentIndex);
          nextContentIndex := nextContentIndex + 1;
        }
        emittedContent := true;
        events := [ThinkingDelta(thinkingContentIndex.value, text)];
      }
    }

    /** Adds a piece to a call; the first id and the first name stay. */
    method Accumulate(acc: Accumulator, piece: ToolPiece) returns (grown: Accumulator)
      requires piece.ToolPiece?
      ensures grown == Add(acc, piece)
    {
      grown := acc;
      if grown.id == "" {
        grown := grown.(id := piece.id);
      }
      if grown.name == "" {
        grown := grown.(name := piece.functionName);
      }
      grown := grown.(arguments := grown.arguments + piece.arguments);
      if grown.name == "" {
        grown := grown.(name := piece.customName);
      }
      if piece.customInput.Some? {
        grown := grown.(custom := true, customInput := grown.customInput + piece.customInput.value);
      } else {
        assert grown.customInput + "" == grown.customInput;
      }
    }

    /** Emits the start of a call once its id and name are known, and what is new of its text. */
    method Progress(acc: Accumulator) returns (acc': Accumulator, events: seq<Event>)
      ensures (acc', events) == Emit(options, acc)
    {
      acc', events := acc, [];
      if !acc.started && acc.id != "" && acc.name != "" {
        acc' := acc'.(started := true);
        events := [ToolCallStart(acc.contentIndex, acc.id, options.toolName(acc.name))];
      }
      var text := if acc.custom then acc.customInput else acc.arguments;
      if acc'.started && |text| > acc.emittedArguments {
        events := events + [ToolCallDelta(acc.contentIndex, acc.id, text[acc.emittedArguments..])];
        acc' := acc'.(emittedArguments := |text|);
      }
      assert events == Emit(options, acc).1;
    }

    method PieceOfCall(piece: ToolPiece) returns (outcome: Outcome, events: seq<Event>)
      modifies this
      ensures Did(TakeTool(options, old(Now()), piece), outcome, events, Now())
    {
      outcome, events := GoesOn, [];
      if piece.BadIndex? {
        return Throws, [];
      }
      var index := piece.index;
      if index !in tools {
        tools := tools[index := Accumulator(nextContentIndex, "", "", "", "", false, false, 0)];
        nextContentIndex := nextContentIndex + 1;
      }
      var grown := Accumulate(tools[index], piece);
      var acc;
      acc, events := Progress(grown);
      if acc.started && !grown.started {
        emittedContent := true;
      }
      tools := tools[index := acc];
    }

    method PiecesOfCalls(pieces: seq<ToolPiece>) returns (outcome: Outcome, events: seq<Event>)
      modifies this
      ensures Did(TakeTools(options, old(Now()), Tools(pieces)), outcome, events, Now())
    {
      ghost var step := (s: State, piece: ToolPiece) => TakeTool(options, s, piece);
      ghost var goal := TakeTools(options, Now(), Tools(pieces));
      outcome, events := GoesOn, [];
      PrecededByNothing(goal);
      assert pieces[0..] == pieces;
      for i := 0 to |pieces|
        invariant outcome == GoesOn && goal == Preceded(events, Fold(step, Now(), pieces[i..]))
      {
        assert pieces[i..][0] == pieces[i] && pieces[i..][1..] == pieces[i + 1..];
        FoldTurn(step, Now(), pieces[i..], events);
        var more;
        outcome, more := PieceOfCall(pieces[i]);
        events := events + more;
        if outcome != GoesOn {
          return;
        }
      }
      assert events + [] == events;
    }

    method DeltaOfChoice(delta: Delta) returns (outcome: Outcome, events: seq<Event>)
      modifies this
      ensures Did(TakeDelta(options, old(Now()), delta), outcome, events, Now())
    {
      outcome := GoesOn;
      events := TextOfDelta(delta.text);
      if delta.replayMetadata {
        return Throws, events;
      }
      var more := ReasoningOfDelta(delta.reasoning);
      events := events + more;
      assert events + [] == events;
      if delta.tools.BadTools? {
        return Throws, events;
      }
      if delta.tools.Tools? {
        outcome, more := PiecesOfCalls(delta.tools.pieces);
        events := events + more;
      }
    }

    /** Finishes the calls that are left, lowest index first. */
    method FinishCalls() returns (outcome: Outcome, events: seq<Event>)
      modifies this
      ensures Did(FinishTools(options, old(Now()), Ascending(old(tools).Keys)), outcome, events, Now())
    {
      ghost var step := (s: State, index: nat) => FinishTool(options, s, index);
      ghost var goal := FinishTools(options, Now(), Ascending(tools.Keys));
      outcome, events := GoesOn, [];
      PrecededByNothing(goal);
      while |tools| > 0
        invariant outcome == GoesOn && goal == Preceded(events, Fold(step, Now(), Ascending(tools.Keys)))
        decreases |tools|
      {
        var index := Least(tools.Keys);
        var acc := tools[index];
        FoldTurn(step, Now(), Ascending(tools.Keys), events);
        assert events + [] == events;
        if !acc.started {
          return Throws, events;
        }
        var input := InputOf(options, acc);
        if input.None? {
          return Throws, events;
        }
        events := events + [ToolCall(acc.contentIndex, acc.id, options.toolName(acc.name), input.value)];
        ghost var before := tools;
        tools := tools - {index};
        assert tools.Keys == before.Keys - {index};
      }
      assert events + [] == events;
    }

    method EndOfSource(aborted: bool) returns (outcome: Outcome, events: seq<Event>)
      modifies this
      ensures Did(Finish(options, old(Now()), aborted), outcome, events, Now())
    {
      if aborted {
        return Returns, [Aborted(emittedContent)];
      }
      if finishReason.None? {
        return Returns, [];
      }
      var terminal := TerminalFor(
        State(tools, nextContentIndex, textContentIndex, thinkingContentIndex, finishReason, emittedContent), |tools| > 0);
      outcome, events := FinishCalls();
      if outcome == GoesOn {
        outcome, events := Returns, events + [terminal];
      }
    }

    method TakeFrame(arrival: Arrival, abortedAtEnd: bool) returns (outcome: Outcome, events: seq<Event>)
      modifies this
      ensures Did(Step(options, abortedAtEnd, old(Now()), arrival), outcome, events, Now())
    {
      outcome, events := GoesOn, [];
      if arrival.aborted {
        return Returns, [Aborted(emittedContent)];
      }
      match arrival.frame {
        case Done => outcome, events := EndOfSource(abortedAtEnd);
        case Malformed => outcome := Throws;
        case ProviderError(code) => outcome, events := Returns, [Failed(code, emittedContent)];
        case NoChoice =>
        case Chunk(reason, delta) =>
          if reason.Some? {
            finishReason := reason;
          }
          if delta.Some? {
            outcome, events := DeltaOfChoice(delta.value);
          }
      }
    }
  }

  /** The loop over the frames, and the end of the source unless a frame ends the run. */
  method TakeFrames(options: Options, frames: seq<Arrival>, abortedAtEnd: bool) returns (outcome: Outcome, events: seq<Event>)
    ensures Did(Decode(options, INITIAL, frames, abortedAtEnd), outcome, events, INITIAL) && outcome != GoesOn
  {
    ghost var step := (s: State, f: Arrival) => Step(options, abortedAtEnd, s, f);
    ghost var goal := Fold(step, INITIAL, frames);
    var decoder := new Decoder(options);
    var more: seq<Event>;
    events := [];
    PrecededByNothing(goal);
    assert frames[0..] == frames;
    for i := 0 to |frames|
      invariant fresh(decoder) && decoder.options == options
      invariant goal == Preceded(events, Fold(step, decoder.Now(), frames[i..]))
    {
      assert frames[i..][0] == frames[i] && frames[i..][1..] == frames[i + 1..];
      FoldTurn(step, decoder.Now(), frames[i..], events);
      outcome, more := decoder.TakeFrame(frames[i], abortedAtEnd);
      events := events + more;
      if outcome != GoesOn {
        return;
      }
    }
    assert events + [] == events;
    outcome, more := decoder.EndOfSource(abortedAtEnd);
    events := events + more;
  }

  /** Decodes all frames as specified; the run is well-formed, and exact just when each finished call is coherent. */
  method DecodeOpenAiChatStream(options: Options, frames: seq<Arrival>, abortedAtEnd: bool)
    returns (outcome: Outcome, events: seq<Event>)
    ensures Did(Decode(options, INITIAL, frames, abortedAtEnd), outcome, events, INITIAL) && outcome != GoesOn
    ensures Legal(AnyFits(), QUIET, events)
    ensures Legal(ExactCallFits(options, abortedAtEnd, frames), QUIET, events) <==> AllCoherent(options, abortedAtEnd, frames)
  {
    outcome, events := TakeFrames(options, frames, abortedAtEnd);
    RunsAreShaped(options, frames, abortedAtEnd);
    ExactIff(options, frames, abortedAtEnd);
  }

  /**
   * The decoder closed by the normalizer: exactly one terminal event, in last place; and the
   * inputs of calls are what their deltas spell just when each finished call is coherent.
   */
  method StreamOpenAiChat(options: Options, frames: seq<Arrival>, abortedAtEnd: bool, abortedOnClose: bool)
    returns (events: seq<Event>)
    ensures Legal(AnyFits(), QUIET, events)
    ensures Legal(ExactCallFits(options, abortedAtEnd, frames), QUIET, events) <==> AllCoherent(options, abortedAtEnd, frames)
    ensures events != [] && Terminal(events[|events| - 1])
    ensures forall i :: 0 <= i < |events| - 1 ==> !Terminal(events[i])
    ensures Decode(options, INITIAL, frames, abortedAtEnd).events <= events
  {
    var outcome, decoded := DecodeOpenAiChatStream(options, frames, abortedAtEnd);
    var ending := if outcome == Throws then StreamNormalizer.Throws else StreamNormalizer.Ends;
    StreamNormalizer.ClosingKeeps(AnyFits(), QUIET, decoded, ending, abortedOnClose, false);
    StreamNormalizer.ClosingKeepsFit(ExactCallFits(options, abortedAtEnd, frames), decoded, ending, abortedOnClose);
    events := StreamNormalizer.NormalizeModelStream(StreamNormalizer.Emitted(decoded), ending, abortedOnClose);
  }
}
