/** Decoding Anthropic Messages frames: content blocks that open, grow and close. */
module AnthropicStream {
  import opened Wrappers
  import opened JsonValues
  import opened StreamEvents

  // ----- frames, as far as the decoder tells them apart -----

  datatype ToolInput = BadInput | InputText(text: string)

  datatype BlockContent =
    | BadContent
    | TextContent(text: string)
    | ThinkingContent(text: string, signature: string)
    | RedactedContent(data: string)
    | ToolUseContent(id: string, name: string, input: ToolInput)
    | OtherContent

  /** A piece of a block; its value is missing when it is not a string. */
  datatype Piece =
    | BadPiece
    | TextPiece(text: Option<string>)
    | ThinkingPiece(text: Option<string>)
    | SignaturePiece(signature: Option<string>)
    | JsonPiece(partial: Option<string>)
    | OtherPiece

  /** An index is missing when it is not a non-negative integer. */
  datatype Frame =
    | Ignored
    | Undecodable
    | ProviderError(code: string)
    | MessageStart(wellFormed: bool)
    | BlockStart(index: Option<nat>, content: BlockContent)
    | BlockDelta(index: Option<nat>, piece: Piece)
    | BlockStop(index: Option<nat>)
    | MessageDelta(wellFormed: bool, stopReason: Option<string>)
    | MessageStop

  /** A frame, and whether the request has been aborted when it is taken. */
  datatype Arrival = Arrival(frame: Frame, aborted: bool)

  // ----- the state -----

  datatype Block =
    | TextBlock(contentIndex: nat)
    | ThinkingBlock(contentIndex: nat, redacted: bool, signature: string)
    | ToolBlock(contentIndex: nat, callId: string, wireName: string, argumentsText: string)

  datatype State = State(blocks: map<nat, Block>, nextContentIndex: nat, stopReason: Option<string>, emittedContent: bool)

  const INITIAL := State(map[], 0, None, false)

  datatype Options = Options(parse: Parse, toolName: string -> string)

  // ----- one frame -----

  /** Opens a block under the next content index. */
  function Open(s: State, index: nat, block: Block, events: seq<Event>): Turn<State> {
    Continue(s.(blocks := s.blocks[index := block], nextContentIndex := s.nextContentIndex + 1,
               emittedContent := s.emittedContent || events != []), events)
  }

  function StartBlock(o: Options, s: State, index: nat, content: BlockContent): Turn<State> {
    var i := s.nextContentIndex;
    match content
    case BadContent => Throw([])
    case TextContent(text) =>
      Open(s, index, TextBlock(i), if text == "" then [] else [TextDelta(i, text)])
    case ThinkingContent(text, signature) =>
      Open(s, index, ThinkingBlock(i, false, signature), if text == "" then [] else [ThinkingDelta(i, text)])
    case RedactedContent(data) =>
      if data == "" then Throw([])
      else Open(s, index, ThinkingBlock(i, true, data), [ThinkingDelta(i, "[Reasoning redacted]")])
    case ToolUseContent(id, name, input) =>
      if id == "" || name == "" || input.BadInput? then Throw([])
      else Open(s, index, ToolBlock(i, id, name, input.text), [ToolCallStart(i, id, o.toolName(name))])
    case OtherContent =>
      Continue(s.(nextContentIndex := i + 1), [])
  }

  function ExtendBlock(s: State, index: nat, piece: Piece): Turn<State>
    requires index in s.blocks
  {
    var block := s.blocks[index];
    match piece
    case BadPiece => Throw([])
    case TextPiece(text) =>
      if !block.TextBlock? || text.None? then Throw([])
      else if text.value == "" then Continue(s, [])
      else Continue(s.(emittedContent := true), [TextDelta(block.contentIndex, text.value)])
    case ThinkingPiece(text) =>
      if !block.ThinkingBlock? || text.None? then Throw([])
      else if text.value == "" then Continue(s, [])
      else Continue(s.(emittedContent := true), [ThinkingDelta(block.contentIndex, text.value)])
    case SignaturePiece(signature) =>
      if !block.ThinkingBlock? || signature.None? then Throw([])
      else Continue(s.(blocks := s.blocks[index := block.(signature := block.signature + signature.value)]), [])
    case JsonPiece(partial) =>
      if !block.ToolBlock? || partial.None? then Throw([])
      else
        Continue(s.(blocks := s.blocks[index := block.(argumentsText := block.argumentsText + partial.value)]),
                 if partial.value == "" then []
                 else [ToolCallDelta(block.contentIndex, block.callId, partial.value)])
    case OtherPiece => Continue(s, [])
  }

  function StopBlock(o: Options, s: State, index: nat): Turn<State>
    requires index in s.blocks
  {
    var block, s' := s.blocks[index], s.(blocks := s.blocks - {index});
    match block
    case TextBlock(_) => Continue(s', [])
    case ThinkingBlock(i, redacted, signature) =>
      Continue(s', if signature == "" then [] else [ReplayMetadata(i, signature, redacted)])
    case ToolBlock(i, callId, wireName, argumentsText) =>
      match ReadArguments(o.parse, argumentsText)
      case None => Throw([])
      case Some(input) => Continue(s', [ToolCall(i, callId, o.toolName(wireName), input)])
  }

  function StopMessage(s: State): Turn<State> {
    if s.blocks != map[] || s.stopReason.None? then Throw([])
    else
      var reason := s.stopReason.value;
      if reason == "end_turn" || reason == "stop_sequence" || reason == "pause_turn" then
        Return([Completed(Stop, false)])
      else if reason == "max_tokens" then Return([Completed(Length, true)])
      else if reason == "tool_use" then Return([Completed(ToolUse, false)])
      else if reason == "refusal" || reason == "sensitive" then Return([Failed(reason, s.emittedContent)])
      else Throw([])
  }

  function Step(o: Options, s: State, arrival: Arrival): Turn<State> {
    if arrival.aborted then Return([Aborted(s.emittedContent)])
    else
      match arrival.frame
      case Ignored => Continue(s, [])
      case Undecodable => Throw([])
      case ProviderError(code) => Return([Failed(code, s.emittedContent)])
      case MessageStart(wellFormed) => if wellFormed then Continue(s, []) else Throw([])
      case BlockStart(index, content) =>
        if index.None? || index.value in s.blocks then Throw([]) else StartBlock(o, s, index.value, content)
      case BlockDelta(index, piece) =>
        if index.None? || index.value !in s.blocks then Throw([]) else ExtendBlock(s, index.value, piece)
      case BlockStop(index) =>
        if index.None? || index.value !in s.blocks then Throw([]) else StopBlock(o, s, index.value)
      case MessageDelta(wellFormed, stopReason) =>
        if !wellFormed then Throw([])
        else Continue(if stopReason.Some? then s.(stopReason := stopReason) else s, [])
      case MessageStop => StopMessage(s)
  }

  function Finish(s: State, aborted: bool): Turn<State> {
    Return(if aborted then [Aborted(s.emittedContent)] else [])
  }

  /** The whole decoder: all frames, then the end of the source. */
  function Decode(o: Options, s: State, frames: seq<Arrival>, abortedAtEnd: bool): Turn<State> {
    Then(Fold((s: State, f: Arrival) => Step(o, s, f), s, frames), s => Finish(s, abortedAtEnd))
  }
}
