/** Decoding Mistral frames: tool calls whose id, name and arguments arrive in pieces. */
module MistralStream {
  import opened Wrappers
  import opened Basics
  import opened JsonValues
  import opened StreamEvents
  import opened StreamRuns
  import opened IndexOrder
  import opened ToolCallIds

  // ----- frames, as far as the decoder tells them apart -----

  datatype Item = BadItem | TextItem(text: string) | ThinkingItem(text: string)

  /** Items of content; missing when they are malformed. */
  type Content = Option<seq<Item>>

  /** A piece of a tool call; its function or arguments are missing when malformed. */
  datatype ToolPiece =
    | BadIndex
    | ToolPiece(index: nat, id: string, call: Option<FunctionPiece>)

  datatype FunctionPiece = FunctionPiece(name: string, arguments: Option<string>)

  datatype ToolPieces = NoTools | BadTools | Tools(pieces: seq<ToolPiece>)

  datatype Frame =
    | Done
    | Malformed
    | ProviderError(code: string)
    | NoChoice
    | Chunk(finishReason: Option<string>, content: Content, tools: ToolPieces)

  datatype Arrival = Arrival(frame: Frame, aborted: bool)

  // ----- the state -----

  datatype Accumulator = Accumulator(
    contentIndex: nat, id: string, name: string, argumentsText: string, emittedArguments: nat, started: bool)

  datatype Current = Current(thinking: bool, index: nat)

  datatype State = State(
    tools: map<nat, Accumulator>, nextContentIndex: nat, currentContent: Option<Current>,
    finishReason: Option<string>, emittedContent: bool)

  const INITIAL := State(map[], 0, None, None, false)

  datatype Options = Options(parse: Parse, toolName: string -> string, digest: Digest)

  function FallbackId(o: Options, index: nat): string {
    Take(o.digest("mistral-tool:" + Decimal(index)), 9)
  }

  // ----- content -----

  function ContentDelta(current: Current, text: string): Event {
    if current.thinking then ThinkingDelta(current.index, text) else TextDelta(current.index, text)
  }

  /** Text goes on under the current index, unless the kind of content changed. */
  function TakeItem(s: State, item: Item): Turn<State> {
    if item.BadItem? then Throw([])
    else if item.text == "" then Continue(s, [])
    else
      var changed := s.currentContent.None? || s.currentContent.value.thinking != item.ThinkingItem?;
      var current := if changed then Current(item.ThinkingItem?, s.nextContentIndex) else s.currentContent.value;
      Continue(s.(currentContent := Some(current), emittedContent := true,
                  nextContentIndex := s.nextContentIndex + if changed then 1 else 0),
               [ContentDelta(current, item.text)])
  }

  // ----- tool calls -----

  /** What a piece adds to a call; the first id and the first name stay. */
  function Add(o: Options, acc: Accumulator, piece: ToolPiece): Option<Accumulator>
    requires piece.ToolPiece?
  {
    if piece.call.None? || piece.call.value.arguments.None? then None
    else
      var id := if piece.id == "null" then "" else piece.id;
      Some(acc.(id := Or(Or(acc.id, id), FallbackId(o, piece.index)),
                name := Or(acc.name, piece.call.value.name),
                argumentsText := acc.argumentsText + piece.call.value.arguments.value))
  }

  /** A call starts when its name is known; then what is new of its arguments is emitted. */
  function Emit(o: Options, acc: Accumulator): (Accumulator, seq<Event>) {
    var started := acc.started || acc.name != "";
    var grows := started && |acc.argumentsText| > acc.emittedArguments;
    var start := if started && !acc.started then [ToolCallStart(acc.contentIndex, acc.id, o.toolName(acc.name))] else [];
    var delta :=
      if grows then [ToolCallDelta(acc.contentIndex, acc.id, acc.argumentsText[acc.emittedArguments..])] else [];
    (acc.(started := started, emittedArguments := if grows then |acc.argumentsText| else acc.emittedArguments),
     start + delta)
  }

  function AccumulatorAt(s: State, index: nat): Accumulator {
    if index in s.tools then s.tools[index] else Accumulator(s.nextContentIndex, "", "", "", 0, false)
  }

  function TakeTool(o: Options, s: State, piece: ToolPiece): Turn<State> {
    if piece.BadIndex? then Throw([])
    else
      match Add(o, AccumulatorAt(s, piece.index), piece)
      case None => Throw([])
      case Some(acc) =>
        var (acc', events) := Emit(o, acc);
        Continue(s.(tools := s.tools[piece.index := acc'],
                    nextContentIndex := s.nextContentIndex + if piece.index in s.tools then 0 else 1,
                    emittedContent := s.emittedContent || (acc'.started && !acc.started)),
                 events)
  }

  function TakeTools(o: Options, s: State, tools: ToolPieces): Turn<State> {
    match tools
    case NoTools => Continue(s, [])
    case BadTools => Throw([])
    case Tools(pieces) =>
      Fold((s: State, piece: ToolPiece) => TakeTool(o, s, piece), s.(currentContent := None), pieces)
  }

  // ----- the end -----

  function FinishTool(o: Options, s: State, index: nat): Turn<State> {
    if index !in s.tools then Continue(s, [])
    else
      var acc := s.tools[index];
      if !acc.started then Throw([])
      else
        match ReadArguments(o.parse, acc.argumentsText)
        case None => Throw([])
        case Some(input) =>
          Continue(s.(tools := s.tools - {index}), [ToolCall(acc.contentIndex, acc.id, o.toolName(acc.name), input)])
  }

  function FinishTools(o: Options, s: State, indexes: seq<nat>): Turn<State> {
    Fold((s: State, index: nat) => FinishTool(o, s, index), s, indexes)
  }

  function TerminalFor(s: State, calledTools: bool): Event
    requires s.finishReason.Some?
  {
    var reason := s.finishReason.value;
    if reason == "stop" then Completed(if calledTools then ToolUse else Stop, false)
    else if reason == "length" || reason == "model_length" then Completed(if calledTools then ToolUse else Length, true)
    else if reason == "tool_calls" then Completed(ToolUse, false)
    else Failed(reason, s.emittedContent)
  }

  /** Finishes the calls in the order of their indexes, then ends the run. */
  function Finish(o: Options, s: State, aborted: bool): Turn<State> {
    if aborted then Return([Aborted(s.emittedContent)])
    else if s.finishReason.None? then Return([])
    else
      var calls := FinishTools(o, s, Ascending(s.tools.Keys));
      if !calls.Continue? then calls else Preceded(calls.events, Return([TerminalFor(s, s.tools != map[])]))
  }

  // ----- one frame -----

  function TakeChunk(o: Options, s: State, chunk: Frame): Turn<State>
    requires chunk.Chunk?
  {
    var s' := if chunk.finishReason.Some? then s.(finishReason := chunk.finishReason) else s;
    if chunk.content.None? then Throw([])
    else Then(Fold(TakeItem, s', chunk.content.value), s'' => TakeTools(o, s'', chunk.tools))
  }

  function Step(o: Options, abortedAtEnd: bool, s: State, arrival: Arrival): Turn<State> {
    if arrival.aborted then Return([Aborted(s.emittedContent)])
    else
      match arrival.frame
      case Done => Finish(o, s, abortedAtEnd)
      case Malformed => Throw([])
      case ProviderError(code) => Return([Failed(code, s.emittedContent)])
      case NoChoice => Continue(s, [])
      case Chunk(_, _, _) => TakeChunk(o, s, arrival.frame)
  }

  /** The whole decoder: all frames, then the end of the source. */
  function Decode(o: Options, s: State, frames: seq<Arrival>, abortedAtEnd: bool): Turn<State> {
    Then(Fold((s: State, f: Arrival) => Step(o, abortedAtEnd, s, f), s, frames), s => Finish(o, s, abortedAtEnd))
  }

  // ----- its runs are well-formed -----

  /** What the monitor knows of a call: all of its arguments once it has started, else nothing. */
  ghost predicate Agrees(o: Options, acc: Accumulator, m: Monitor) {
    && acc.emittedArguments == (if acc.started then |acc.argumentsText| else 0)
    && (acc.started ==> acc.id != "" && acc.name != "")
    && (if acc.started then acc.contentIndex in m.slots && m.slots[acc.contentIndex] == OpenCall(acc.id, o.toolName(acc.name), acc.argumentsText)
        else acc.contentIndex !in m.slots)
  }

  ghost predicate Tracks(o: Options, s: State, m: Monitor) {
    && !m.over
    && (forall i :: i in m.slots ==> i < s.nextContentIndex)
    && (forall k :: k in s.tools ==> s.tools[k].contentIndex < s.nextContentIndex && Agrees(o, s.tools[k], m))
    && (forall k, l :: k in s.tools && l in s.tools && k != l ==> s.tools[k].contentIndex != s.tools[l].contentIndex)
    && (forall i :: i in m.slots && m.slots[i].OpenCall? ==>
          exists k :: k in s.tools && s.tools[k].contentIndex == i)
    && (s.currentContent.Some? ==>
          var current := s.currentContent.value;
          current.index in m.slots && m.slots[current.index] == if current.thinking then ThinkingSlot else TextSlot)
  }

  ghost predicate TurnKeeps(o: Options, m: Monitor, turn: Turn<State>) {
    Keeps(ExactFits(o.parse), (s, m) => Tracks(o, s, m), m, turn)
  }

  /** Nothing but the call at `index`, and its slot, changes. */
  ghost predicate Touches(s: State, s': State, m: Monitor, m': Monitor, index: nat, c: nat) {
    && !m'.over
    && (forall i :: i != c ==> (i in m'.slots <==> i in m.slots))
    && (forall i :: i != c && i in m.slots ==> m'.slots[i] == m.slots[i])
    && (forall k :: k != index ==> (k in s'.tools <==> k in s.tools))
    && (forall k :: k != index && k in s.tools ==> s'.tools[k] == s.tools[k])
    && c == AccumulatorAt(s, index).contentIndex
    && s.nextContentIndex <= s'.nextContentIndex && c < s'.nextContentIndex
    && s'.currentContent == s.currentContent
  }

  lemma TracksTouched(o: Options, s: State, s': State, m: Monitor, m': Monitor, index: nat, c: nat)
    requires Tracks(o, s, m) && Touches(s, s', m, m', index, c)
    requires index in s'.tools ==> s'.tools[index].contentIndex == c && Agrees(o, s'.tools[index], m')
    requires c in m'.slots && m'.slots[c].OpenCall? ==> index in s'.tools
    requires c in m.slots ==> m.slots[c].OpenCall?
    ensures Tracks(o, s', m')
  {
    forall k | k in s'.tools && k != index
      ensures Agrees(o, s'.tools[k], m')
    {
      assert Agrees(o, s.tools[k], m);
    }
    forall i | i in m'.slots && m'.slots[i].OpenCall?
      ensures exists k :: k in s'.tools && s'.tools[k].contentIndex == i
    {
      if i == c {
        assert index in s'.tools;
      } else {
        var k :| k in s.tools && s.tools[k].contentIndex == i;
        assert k in s'.tools;
      }
    }
  }

  /** A call that agrees with the monitor, and then takes a piece. */
  ghost predicate Grown(acc: Accumulator, acc': Accumulator) {
    && acc'.contentIndex == acc.contentIndex && acc'.started == acc.started
    && acc'.emittedArguments == acc.emittedArguments && acc.argumentsText <= acc'.argumentsText
    && acc'.id != "" && (acc.started ==> acc'.id == acc.id && acc'.name == acc.name)
  }

  lemma AddGrows(o: Options, acc: Accumulator, m: Monitor, piece: ToolPiece)
    requires LawfulDigest(o.digest) && Agrees(o, acc, m) && piece.ToolPiece? && Add(o, acc, piece).Some?
    ensures Grown(acc, Add(o, acc, piece).value)
  {
    assert |FallbackId(o, piece.index)| == 9;
  }

  /** Emitting brings the monitor up to date with the call and touches no other slot. */
  lemma EmitAgrees(o: Options, fits: Fits, acc: Accumulator, grown: Accumulator, m: Monitor)
    requires !m.over && Agrees(o, acc, m) && Grown(acc, grown)
    ensures var (acc', events) := Emit(o, grown);
            && Legal(fits, m, events)
            && var m' := After(fits, m, events);
               && !m'.over && Agrees(o, acc', m') && acc'.contentIndex == acc.contentIndex
               && (forall i :: i != acc.contentIndex ==> (i in m'.slots <==> i in m.slots))
               && (forall i :: i != acc.contentIndex && i in m.slots ==> m'.slots[i] == m.slots[i])
               && (acc.contentIndex in m'.slots ==> m'.slots[acc.contentIndex].OpenCall?)
  {
    var (acc', events) := Emit(o, grown);
    var c, id, text := acc.contentIndex, grown.id, grown.argumentsText;
    var start := if acc'.started && !acc.started then [ToolCallStart(c, id, o.toolName(grown.name))] else [];
    FewEvents(fits, m);
    var m1 := After(fits, m, start);
    FewEvents(fits, m1);
    var delta := if acc'.started && |text| > acc.emittedArguments
                 then [ToolCallDelta(c, id, text[acc.emittedArguments..])] else [];
    assert events == start + delta;
    LegalConcat(fits, m, start, delta);
    assert acc'.started ==> m1.slots[c] == OpenCall(id, o.toolName(grown.name), text[..acc.emittedArguments]);
    assert text[..acc.emittedArguments] + text[acc.emittedArguments..] == text;
  }

  lemma TakeToolKeeps(o: Options, s: State, m: Monitor, piece: ToolPiece)
    requires LawfulDigest(o.digest) && Tracks(o, s, m)
    ensures TurnKeeps(o, m, TakeTool(o, s, piece))
  {
    var fits, turn := ExactFits(o.parse), TakeTool(o, s, piece);
    FewEvents(fits, m);
    if turn.Continue? {
      var acc := AccumulatorAt(s, piece.index);
      var grown := Add(o, acc, piece).value;
      assert Agrees(o, acc, m);
      AddGrows(o, acc, m, piece);
      EmitAgrees(o, fits, acc, grown, m);
      TracksTouched(o, s, turn.state, m, After(fits, m, turn.events), piece.index, acc.contentIndex);
    }
  }

  lemma TakeItemKeeps(o: Options, s: State, m: Monitor, item: Item)
    requires Tracks(o, s, m)
    ensures TurnKeeps(o, m, TakeItem(s, item))
  {
    var fits, turn := ExactFits(o.parse), TakeItem(s, item);
    FewEvents(fits, m);
    if turn.Continue? && turn.events != [] {
      var m' := After(fits, m, turn.events);
      forall k | k in s.tools
        ensures Agrees(o, s.tools[k], m')
      {
        assert Agrees(o, s.tools[k], m);
      }
    }
  }

  lemma FinishToolKeeps(o: Options, s: State, m: Monitor, index: nat)
    requires Tracks(o, s, m)
    ensures TurnKeeps(o, m, FinishTool(o, s, index))
    ensures FinishTool(o, s, index).Continue? ==> FinishTool(o, s, index).state.tools.Keys == s.tools.Keys - {index}
  {
    var fits, turn := ExactFits(o.parse), FinishTool(o, s, index);
    FewEvents(fits, m);
    if turn.Continue? && index in s.tools {
      var acc := s.tools[index];
      assert Agrees(o, acc, m);
      assert Allowed(fits, m, turn.events[0]);
      TracksTouched(o, s, turn.state, m, After(fits, m, turn.events), index, acc.contentIndex);
    }
  }

  /** Once all calls are finished none is open. */
  lemma {:induction false} FinishToolsKeeps(o: Options, s: State, m: Monitor, keys: set<nat>)
    requires Tracks(o, s, m) && s.tools.Keys == keys
    ensures var turn := FinishTools(o, s, Ascending(keys));
            && TurnKeeps(o, m, turn)
            && (turn.Continue? ==> turn.state.tools == map[])
    decreases |keys|
  {
    var fits := ExactFits(o.parse);
    FewEvents(fits, m);
    if keys != {} {
      var least := Least(keys);
      FinishToolKeeps(o, s, m, least);
      var first := FinishTool(o, s, least);
      assert Ascending(keys)[0] == least && Ascending(keys)[1..] == Ascending(keys - {least});
      if first.Continue? {
        var m' := After(fits, m, first.events);
        FinishToolsKeeps(o, first.state, m', keys - {least});
        KeepsAfter(fits, (s, m) => Tracks(o, s, m), m, first.events,
          FinishTools(o, first.state, Ascending(keys - {least})));
      }
    } else {
      assert s.tools == map[];
    }
  }

  /** With no call open any terminal event may come. */
  lemma EndKeeps(o: Options, m: Monitor, calls: Turn<State>, terminal: Event)
    requires TurnKeeps(o, m, calls) && calls.Continue? && calls.state.tools == map[] && Terminal(terminal)
    ensures TurnKeeps(o, m, Preceded(calls.events, Return([terminal])))
  {
    var fits := ExactFits(o.parse);
    var m' := After(fits, m, calls.events);
    FewEvents(fits, m');
    assert Allowed(fits, m', terminal);
    var end: Turn<State> := Return([terminal]);
    KeepsAfter(fits, (s, m) => Tracks(o, s, m), m, calls.events, end);
  }

  lemma FinishKeeps(o: Options, s: State, m: Monitor, aborted: bool)
    requires Tracks(o, s, m)
    ensures TurnKeeps(o, m, Finish(o, s, aborted))
  {
    if aborted || s.finishReason.None? {
      FewEvents(ExactFits(o.parse), m);
    } else {
      FinishToolsKeeps(o, s, m, s.tools.Keys);
      var calls := FinishTools(o, s, Ascending(s.tools.Keys));
      if calls.Continue? {
        EndKeeps(o, m, calls, TerminalFor(s, s.tools != map[]));
      }
    }
  }

  lemma TakeToolsKeeps(o: Options, s: State, m: Monitor, tools: ToolPieces)
    requires LawfulDigest(o.digest) && Tracks(o, s, m)
    ensures TurnKeeps(o, m, TakeTools(o, s, tools))
  {
    var fits, inv := ExactFits(o.parse), (s, m) => Tracks(o, s, m);
    FewEvents(fits, m);
    if tools.Tools? {
      var step := (s: State, piece: ToolPiece) => TakeTool(o, s, piece);
      forall s, m, piece | inv(s, m)
        ensures Keeps(fits, inv, m, step(s, piece))
      {
        TakeToolKeeps(o, s, m, piece);
      }
      FoldKeeps(fits, inv, step, s.(currentContent := None), m, tools.pieces);
    }
  }

  lemma TakeChunkKeeps(o: Options, s: State, m: Monitor, chunk: Frame)
    requires LawfulDigest(o.digest) && Tracks(o, s, m) && chunk.Chunk?
    ensures TurnKeeps(o, m, TakeChunk(o, s, chunk))
  {
    var fits, inv := ExactFits(o.parse), (s, m) => Tracks(o, s, m);
    FewEvents(fits, m);
    if chunk.content.Some? {
      var s' := if chunk.finishReason.Some? then s.(finishReason := chunk.finishReason) else s;
      assert Tracks(o, s', m);
      var next := (s: State) => TakeTools(o, s, chunk.tools);
      forall s, m, item | inv(s, m)
        ensures Keeps(fits, inv, m, TakeItem(s, item))
      {
        TakeItemKeeps(o, s, m, item);
      }
      FoldKeeps(fits, inv, TakeItem, s', m, chunk.content.value);
      forall s, m | inv(s, m)
        ensures Keeps(fits, inv, m, next(s))
      {
        TakeToolsKeeps(o, s, m, chunk.tools);
      }
      ThenKeeps(fits, inv, m, Fold(TakeItem, s', chunk.content.value), next);
    }
  }

  lemma StepKeeps(o: Options, abortedAtEnd: bool, s: State, m: Monitor, arrival: Arrival)
    requires LawfulDigest(o.digest) && Tracks(o, s, m)
    ensures TurnKeeps(o, m, Step(o, abortedAtEnd, s, arrival))
  {
    FewEvents(ExactFits(o.parse), m);
    if !arrival.aborted {
      match arrival.frame {
        case Done => FinishKeeps(o, s, m, abortedAtEnd);
        case Chunk(_, _, _) => TakeChunkKeeps(o, s, m, arrival.frame);
        case _ =>
      }
    }
  }

  lemma FramesKeep(o: Options, abortedAtEnd: bool, frames: seq<Arrival>)
    requires LawfulDigest(o.digest)
    ensures TurnKeeps(o, QUIET, Fold((s: State, f: Arrival) => Step(o, abortedAtEnd, s, f), INITIAL, frames))
  {
    var fits, inv := ExactFits(o.parse), (s, m) => Tracks(o, s, m);
    var step := (s: State, f: Arrival) => Step(o, abortedAtEnd, s, f);
    forall s, m, f | inv(s, m)
      ensures Keeps(fits, inv, m, step(s, f))
    {
      StepKeeps(o, abortedAtEnd, s, m, f);
    }
    FoldKeeps(fits, inv, step, INITIAL, QUIET, frames);
  }

  /**
   * Every run of the decoder is well-formed, however ids, names and arguments are split
   * over frames; each finished call has the input its deltas spell.
   */
  lemma RunsAreLegal(o: Options, frames: seq<Arrival>, abortedAtEnd: bool)
    requires LawfulDigest(o.digest)
    ensures Legal(ExactFits(o.parse), QUIET, Decode(o, INITIAL, frames, abortedAtEnd).events)
  {
    var fits, inv := ExactFits(o.parse), (s, m) => Tracks(o, s, m);
    var step, finish := (s: State, f: Arrival) => Step(o, abortedAtEnd, s, f), (s: State) => Finish(o, s, abortedAtEnd);
    FramesKeep(o, abortedAtEnd, frames);
    forall s, m | inv(s, m)
      ensures Keeps(fits, inv, m, finish(s))
    {
      FinishKeeps(o, s, m, abortedAtEnd);
    }
    ThenKeeps(fits, inv, QUIET, Fold(step, INITIAL, frames), finish);
  }
}
