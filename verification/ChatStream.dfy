/**
 * Decoding OpenAI Chat frames: tool calls in function form, whose arguments are JSON text,
 * and in custom form, whose input is raw text.
 */
module ChatStream {
  import opened Wrappers
  import opened Basics
  import opened JsonValues
  import opened StreamEvents
  import opened IndexOrder

  // ----- frames, as far as the decoder tells them apart -----

  /** A piece of a tool call; texts that are missing are empty, a custom input may be absent. */
  datatype ToolPiece =
    | BadIndex
    | ToolPiece(index: nat, id: string, functionName: string, arguments: string,
                customName: string, customInput: Option<string>)

  datatype ToolPieces = NoTools | BadTools | Tools(pieces: seq<ToolPiece>)

  datatype Delta = Delta(text: string, replayMetadata: bool, reasoning: string, tools: ToolPieces)

  datatype Frame =
    | Done
    | Malformed
    | ProviderError(code: string)
    | NoChoice
    | Chunk(finishReason: Option<string>, delta: Option<Delta>)

  datatype Arrival = Arrival(frame: Frame, aborted: bool)

  // ----- the state -----

  datatype Accumulator = Accumulator(
    contentIndex: nat, id: string, name: string, arguments: string, customInput: string,
    custom: bool, started: bool, emittedArguments: nat)

  datatype State = State(
    tools: map<nat, Accumulator>, nextContentIndex: nat, textContentIndex: Option<nat>,
    thinkingContentIndex: Option<nat>, finishReason: Option<string>, emittedContent: bool)

  const INITIAL := State(map[], 0, None, None, None, false)

  /** `grammar` is the input property of a tool declared with a grammar. */
  datatype Options = Options(parse: Parse, toolName: string -> string, grammar: string -> Option<string>)

  // ----- content -----

  function TakeText(s: State, text: string): Turn<State> {
    if text == "" then Continue(s, [])
    else
      var i := if s.textContentIndex.Some? then s.textContentIndex.value else s.nextContentIndex;
      Continue(s.(textContentIndex := Some(i), emittedContent := true,
                  nextContentIndex := s.nextContentIndex + if s.textContentIndex.Some? then 0 else 1),
               [TextDelta(i, text)])
  }

  function TakeReasoning(s: State, text: string): Turn<State> {
    if text == "" then Continue(s, [])
    else
      var i := if s.thinkingContentIndex.Some? then s.thinkingContentIndex.value else s.nextContentIndex;
      Continue(s.(thinkingContentIndex := Some(i), emittedContent := true,
                  nextContentIndex := s.nextContentIndex + if s.thinkingContentIndex.Some? then 0 else 1),
               [ThinkingDelta(i, text)])
  }

  // ----- tool calls -----

  /** What a piece adds to a call; the first id and the first name stay. */
  function Add(acc: Accumulator, piece: ToolPiece): Accumulator
    requires piece.ToolPiece?
  {
    acc.(id := Or(acc.id, piece.id),
         name := Or(Or(acc.name, piece.functionName), piece.customName),
         arguments := acc.arguments + piece.arguments,
         customInput := acc.customInput + if piece.customInput.Some? then piece.customInput.value else "",
         custom := acc.custom || piece.customInput.Some?)
  }

  /** The text of a call: its raw input once it is custom, its arguments otherwise. */
  function TextOf(acc: Accumulator): string {
    if acc.custom then acc.customInput else acc.arguments
  }

  /** What of the text has not been emitted. */
  function Unsent(acc: Accumulator): string {
    if |TextOf(acc)| > acc.emittedArguments then TextOf(acc)[acc.emittedArguments..] else ""
  }

  /** A call starts when its id and name are known; then what is new of its text is emitted. */
  function Emit(o: Options, acc: Accumulator): (Accumulator, seq<Event>) {
    var started := acc.started || (acc.id != "" && acc.name != "");
    var start := if started && !acc.started then [ToolCallStart(acc.contentIndex, acc.id, o.toolName(acc.name))] else [];
    var delta := if started && Unsent(acc) != "" then [ToolCallDelta(acc.contentIndex, acc.id, Unsent(acc))] else [];
    (acc.(started := started, emittedArguments := acc.emittedArguments + if started then |Unsent(acc)| else 0),
     start + delta)
  }

  function NewCall(contentIndex: nat): Accumulator {
    Accumulator(contentIndex, "", "", "", "", false, false, 0)
  }

  function AccumulatorAt(s: State, index: nat): Accumulator {
    if index in s.tools then s.tools[index] else NewCall(s.nextContentIndex)
  }

  function TakeTool(o: Options, s: State, piece: ToolPiece): Turn<State> {
    if piece.BadIndex? then Throw([])
    else
      var acc := Add(AccumulatorAt(s, piece.index), piece);
      var (acc', events) := Emit(o, acc);
      Continue(s.(tools := s.tools[piece.index := acc'],
                  nextContentIndex := s.nextContentIndex + if piece.index in s.tools then 0 else 1,
                  emittedContent := s.emittedContent || (acc'.started && !acc.started)),
               events)
  }

  function TakeTools(o: Options, s: State, tools: ToolPieces): Turn<State> {
    match tools
    case NoTools => Continue(s, [])
    case BadTools => Throw([])
    case Tools(pieces) => Fold((s: State, piece: ToolPiece) => TakeTool(o, s, piece), s, pieces)
  }

  // ----- the end -----

  /** The input of a call: its parsed arguments, or its raw text as the one property. */
  function InputOf(o: Options, acc: Accumulator): Option<Json> {
    if acc.custom then
      match o.grammar(acc.name)
      case None => None
      case Some(property) => Some(Object(map[property := Plain(String(acc.customInput))]))
    else ReadArguments(o.parse, acc.arguments)
  }

  function FinishTool(o: Options, s: State, index: nat): Turn<State> {
    if index !in s.tools then Continue(s, [])
    else
      var acc := s.tools[index];
      if !acc.started || InputOf(o, acc).None? then Throw([])
      else
        Continue(s.(tools := s.tools - {index}),
                 [ToolCall(acc.contentIndex, acc.id, o.toolName(acc.name), InputOf(o, acc).value)])
  }

  function FinishTools(o: Options, s: State, indexes: seq<nat>): Turn<State> {
    Fold((s: State, index: nat) => FinishTool(o, s, index), s, indexes)
  }

  function TerminalFor(s: State, calledTools: bool): Event
    requires s.finishReason.Some?
  {
    var reason := s.finishReason.value;
    if reason == "stop" then Completed(if calledTools then ToolUse else Stop, false)
    else if reason == "end" then Completed(Stop, false)
    else if reason == "length" then Completed(Length, true)
    else if reason == "tool_calls" || reason == "function_call" then Completed(ToolUse, false)
    else Failed("provider_finish_reason", s.emittedContent)
  }

  /** Finishes the calls in the order of their indexes, then ends the run. */
  function Finish(o: Options, s: State, aborted: bool): Turn<State> {
    if aborted then Return([Aborted(s.emittedContent)])
    else if s.finishReason.None? then Return([])
    else
      var calls := FinishTools(o, s, Ascending(s.tools.Keys));
      if !calls.Continue? then calls else Preceded(calls.events, Return([TerminalFor(s, s.tools != map[])]))
  }

  // ----- one frame -----

  /** Replay metadata is refused, after the text of the same delta. */
  function TakeDelta(o: Options, s: State, delta: Delta): Turn<State> {
    var text := TakeText(s, delta.text);
    if delta.replayMetadata then Throw(text.events)
    else Then(Then(text, s' => TakeReasoning(s', delta.reasoning)), s' => TakeTools(o, s', delta.tools))
  }

  function TakeChunk(o: Options, s: State, chunk: Frame): Turn<State>
    requires chunk.Chunk?
  {
    var s' := if chunk.finishReason.Some? then s.(finishReason := chunk.finishReason) else s;
    if chunk.delta.None? then Continue(s', []) else TakeDelta(o, s', chunk.delta.value)
  }

  function Step(o: Options, abortedAtEnd: bool, s: State, arrival: Arrival): Turn<State> {
    if arrival.aborted then Return([Aborted(s.emittedContent)])
    else
      match arrival.frame
      case Done => Finish(o, s, abortedAtEnd)
      case Malformed => Throw([])
      case ProviderError(code) => Return([Failed(code, s.emittedContent)])
      case NoChoice => Continue(s, [])
      case Chunk(_, _) => TakeChunk(o, s, arrival.frame)
  }

  /** The whole decoder: all frames, then the end of the source. */
  function Decode(o: Options, s: State, frames: seq<Arrival>, abortedAtEnd: bool): Turn<State> {
    Then(Fold((s: State, f: Arrival) => Step(o, abortedAtEnd, s, f), s, frames), s => Finish(o, s, abortedAtEnd))
  }
}
