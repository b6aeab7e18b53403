/** The runs of the Anthropic decoder are well-formed, and exact up to the inputs blocks start with. */
module AnthropicTheorems {
  import opened Wrappers
  import opened JsonValues
  import opened StreamEvents
  import opened StreamRuns
  import opened AnthropicStream

  // ----- what fits -----

  /** The contents of the blocks that start, in order: the `i`th is given content index `i`. */
  function BlockStarts(frames: seq<Arrival>): seq<BlockContent> {
    if frames == [] then []
    else (if frames[0].frame.BlockStart? then [frames[0].frame.content] else []) + BlockStarts(frames[1..])
  }

  /** The argument text a block starts with: the input given with the start of a tool call. */
  function SeedOf(content: BlockContent): string {
    if content.ToolUseContent? && content.input.InputText? then content.input.text else ""
  }

  /** The text the block at each content index starts with. */
  function SeedAt(frames: seq<Arrival>): nat -> string {
    (i: nat) => if i < |BlockStarts(frames)| then SeedOf(BlockStarts(frames)[i]) else ""
  }

  /** The input of a call is what its deltas spell, after the text its own block started with. */
  function SeededFits(parse: Parse, seedAt: nat -> string): Fits {
    (i: nat, name: string, text: string, input: Json) => ReadArguments(parse, seedAt(i) + text) == Some(input)
  }

  // ----- the invariant -----

  /** What the monitor knows of the index of an open block. */
  ghost predicate Agrees(o: Options, seedAt: nat -> string, block: Block, m: Monitor) {
    match block
    case TextBlock(i) => Free(m, i, TextSlot)
    case ThinkingBlock(i, _, _) => Free(m, i, ThinkingSlot)
    case ToolBlock(i, callId, wireName, argumentsText) =>
      && IsOpen(m, i, callId) && m.slots[i].name == o.toolName(wireName)
      && argumentsText == seedAt(i) + m.slots[i].text
  }

  ghost predicate Tracks(o: Options, seedAt: nat -> string, s: State, m: Monitor) {
    && !m.over
    && (forall i :: i in m.slots ==> i < s.nextContentIndex)
    && (forall k :: k in s.blocks ==> s.blocks[k].contentIndex < s.nextContentIndex && Agrees(o, seedAt, s.blocks[k], m))
    && (forall k, l :: k in s.blocks && l in s.blocks && k != l ==> s.blocks[k].contentIndex != s.blocks[l].contentIndex)
    && (forall i :: i in m.slots && m.slots[i].OpenCall? ==>
          exists k :: k in s.blocks && s.blocks[k].ToolBlock? && s.blocks[k].contentIndex == i)
  }

  ghost predicate TurnKeeps(o: Options, fits: Fits, seedAt: nat -> string, m: Monitor, turn: Turn<State>) {
    Keeps(fits, (s, m) => Tracks(o, seedAt, s, m), m, turn)
  }

  /** A step that touches only the block at `index` and the slot `c` that belongs to it. */
  ghost predicate Touches(s: State, s': State, m: Monitor, m': Monitor, index: nat, c: nat) {
    && !m'.over
    && (forall i :: i != c ==> (i in m'.slots <==> i in m.slots))
    && (forall i :: i != c && i in m.slots ==> m'.slots[i] == m.slots[i])
    && (forall k :: k != index ==> (k in s'.blocks <==> k in s.blocks))
    && (forall k :: k != index && k in s.blocks ==> s'.blocks[k] == s.blocks[k])
    && c == (if index in s.blocks then s.blocks[index].contentIndex else s.nextContentIndex)
    && s.nextContentIndex <= s'.nextContentIndex && c < s'.nextContentIndex
  }

  lemma TracksTouched(o: Options, seedAt: nat -> string, s: State, s': State, m: Monitor, m': Monitor, index: nat, c: nat)
    requires Tracks(o, seedAt, s, m) && Touches(s, s', m, m', index, c)
    requires index in s'.blocks ==> s'.blocks[index].contentIndex == c && Agrees(o, seedAt, s'.blocks[index], m')
    requires c in m'.slots && m'.slots[c].OpenCall? ==> index in s'.blocks && s'.blocks[index].ToolBlock?
    ensures Tracks(o, seedAt, s', m')
  {
    forall k | k in s'.blocks && k != index
      ensures Agrees(o, seedAt, s'.blocks[k], m')
    {
      assert Agrees(o, seedAt, s.blocks[k], m);
    }
    forall i | i in m'.slots && m'.slots[i].OpenCall?
      ensures exists k :: k in s'.blocks && s'.blocks[k].ToolBlock? && s'.blocks[k].contentIndex == i
    {
      if i == c {
        assert index in s'.blocks;
      } else {
        var k :| k in s.blocks && s.blocks[k].ToolBlock? && s.blocks[k].contentIndex == i;
        assert k in s'.blocks;
      }
    }
  }

  lemma OpenKeeps(o: Options, fits: Fits, seedAt: nat -> string, s: State, m: Monitor, index: nat, block: Block, events: seq<Event>)
    requires Tracks(o, seedAt, s, m) && index !in s.blocks && block.contentIndex == s.nextContentIndex
    requires Legal(fits, m, events) &&
             var m' := After(fits, m, events);
             Touches(s, Open(s, index, block, events).state, m, m', index, block.contentIndex)
             && Agrees(o, seedAt, block, m')
             && (block.contentIndex in m'.slots && m'.slots[block.contentIndex].OpenCall? ==> block.ToolBlock?)
    ensures TurnKeeps(o, fits, seedAt, m, Open(s, index, block, events))
  {
    var m' := After(fits, m, events);
    TracksTouched(o, seedAt, s, Open(s, index, block, events).state, m, m', index, block.contentIndex);
  }

  lemma StartKeeps(o: Options, fits: Fits, seedAt: nat -> string, s: State, m: Monitor, index: nat, content: BlockContent)
    requires Tracks(o, seedAt, s, m) && index !in s.blocks && seedAt(s.nextContentIndex) == SeedOf(content)
    ensures TurnKeeps(o, fits, seedAt, m, StartBlock(o, s, index, content))
  {
    var turn, i := StartBlock(o, s, index, content), s.nextContentIndex;
    FewEvents(fits, m);
    assert i !in m.slots;
    if turn.Continue? && !content.OtherContent? {
      if content.ToolUseContent? {
        assert content.input.text == content.input.text + "";
      }
      OpenKeeps(o, fits, seedAt, s, m, index, turn.state.blocks[index], turn.events);
    }
  }

  /** A tool block and its slot grow by the same text. */
  lemma AgreesLonger(o: Options, seedAt: nat -> string, block: Block, m: Monitor, m': Monitor, more: string)
    requires block.ToolBlock? && Agrees(o, seedAt, block, m)
    requires var i := block.contentIndex;
             i in m'.slots && m'.slots[i] == m.slots[i].(text := m.slots[i].text + more)
    ensures Agrees(o, seedAt, block.(argumentsText := block.argumentsText + more), m')
  {
    var seed, text := seedAt(block.contentIndex), m.slots[block.contentIndex].text;
    assert (seed + text) + more == seed + (text + more);
  }

  lemma ExtendToolKeeps(o: Options, fits: Fits, seedAt: nat -> string, s: State, m: Monitor, index: nat, more: string)
    requires Tracks(o, seedAt, s, m) && index in s.blocks && s.blocks[index].ToolBlock?
    ensures TurnKeeps(o, fits, seedAt, m, ExtendBlock(s, index, JsonPiece(Some(more))))
  {
    var turn := ExtendBlock(s, index, JsonPiece(Some(more)));
    FewEvents(fits, m);
    var block := s.blocks[index];
    assert Agrees(o, seedAt, block, m);
    var m' := After(fits, m, turn.events);
    assert m.slots[block.contentIndex].text + "" == m.slots[block.contentIndex].text;
    AgreesLonger(o, seedAt, block, m, m', more);
    TracksTouched(o, seedAt, s, turn.state, m, m', index, block.contentIndex);
  }

  lemma ExtendKeeps(o: Options, fits: Fits, seedAt: nat -> string, s: State, m: Monitor, index: nat, piece: Piece)
    requires Tracks(o, seedAt, s, m) && index in s.blocks
    ensures TurnKeeps(o, fits, seedAt, m, ExtendBlock(s, index, piece))
  {
    var turn := ExtendBlock(s, index, piece);
    FewEvents(fits, m);
    if turn.Continue? {
      if piece.JsonPiece? {
        ExtendToolKeeps(o, fits, seedAt, s, m, index, piece.partial.value);
      } else {
        var block := s.blocks[index];
        assert Agrees(o, seedAt, block, m);
        TracksTouched(o, seedAt, s, turn.state, m, After(fits, m, turn.events), index, block.contentIndex);
      }
    }
  }

  lemma StopKeeps(o: Options, seedAt: nat -> string, s: State, m: Monitor, index: nat)
    requires Tracks(o, seedAt, s, m) && index in s.blocks
    ensures TurnKeeps(o, SeededFits(o.parse, seedAt), seedAt, m, StopBlock(o, s, index))
  {
    var fits, turn := SeededFits(o.parse, seedAt), StopBlock(o, s, index);
    FewEvents(fits, m);
    if turn.Continue? {
      var block := s.blocks[index];
      assert Agrees(o, seedAt, block, m);
      assert block.ToolBlock? ==>
          Allowed(fits, m, ToolCall(block.contentIndex, block.callId, o.toolName(block.wireName),
                                    ReadArguments(o.parse, block.argumentsText).value));
      TracksTouched(o, seedAt, s, turn.state, m, After(fits, m, turn.events), index, block.contentIndex);
    }
  }

  predicate AboutBlock(f: Frame) {
    f.BlockStart? || f.BlockDelta? || f.BlockStop?
  }

  lemma OtherKeeps(o: Options, fits: Fits, seedAt: nat -> string, s: State, m: Monitor, arrival: Arrival)
    requires Tracks(o, seedAt, s, m) && (arrival.aborted || !AboutBlock(arrival.frame))
    ensures TurnKeeps(o, fits, seedAt, m, Step(o, s, arrival))
  {
    FewEvents(fits, m);
    var turn := Step(o, s, arrival);
    if turn.Continue? {
      assert turn.events == [] && turn.state.blocks == s.blocks && turn.state.nextContentIndex == s.nextContentIndex;
      assert Tracks(o, seedAt, turn.state, m);
    }
  }

  /** A step opens at most one block, and then takes the next content index for it. */
  lemma StepCounts(o: Options, s: State, arrival: Arrival)
    requires Step(o, s, arrival).Continue?
    ensures Step(o, s, arrival).state.nextContentIndex ==
            s.nextContentIndex + if arrival.frame.BlockStart? then 1 else 0
  {
  }

  lemma StepKeeps(o: Options, seedAt: nat -> string, s: State, m: Monitor, arrival: Arrival)
    requires Tracks(o, seedAt, s, m)
    requires arrival.frame.BlockStart? ==> seedAt(s.nextContentIndex) == SeedOf(arrival.frame.content)
    ensures TurnKeeps(o, SeededFits(o.parse, seedAt), seedAt, m, Step(o, s, arrival))
  {
    var fits := SeededFits(o.parse, seedAt);
    if arrival.aborted || !AboutBlock(arrival.frame) {
      OtherKeeps(o, fits, seedAt, s, m, arrival);
    } else {
      var index := arrival.frame.index;
      if index.None? || (index.value in s.blocks <==> arrival.frame.BlockStart?) {
        FewEvents(fits, m);
      } else {
        match arrival.frame {
          case BlockStart(_, content) => StartKeeps(o, fits, seedAt, s, m, index.value, content);
          case BlockDelta(_, piece) => ExtendKeeps(o, fits, seedAt, s, m, index.value, piece);
          case BlockStop(_) => StopKeeps(o, seedAt, s, m, index.value);
        }
      }
    }
  }

  // ----- whole runs -----

  lemma {:induction false} BlockStartsOf(a: seq<Arrival>, b: seq<Arrival>)
    ensures BlockStarts(a + b) == BlockStarts(a) + BlockStarts(b)
  {
    if a == [] {
      assert a + b == b;
    } else {
      assert (a + b)[0] == a[0] && (a + b)[1..] == a[1..] + b;
      BlockStartsOf(a[1..], b);
    }
  }

  /** The invariant after some frames: as many indexes are given as blocks have started. */
  ghost predicate TracksAfter(o: Options, seedAt: nat -> string, taken: seq<Arrival>, s: State, m: Monitor) {
    Tracks(o, seedAt, s, m) && s.nextContentIndex == |BlockStarts(taken)|
  }

  lemma StepKeepsOnward(o: Options, frames: seq<Arrival>, taken: seq<Arrival>, s: State, m: Monitor, f: Arrival)
    requires taken + [f] <= frames && TracksAfter(o, SeedAt(frames), taken, s, m)
    ensures KeepsOnward(SeededFits(o.parse, SeedAt(frames)), (t, s, m) => TracksAfter(o, SeedAt(frames), t, s, m),
                        taken + [f], m, Step(o, s, f))
  {
    var rest := frames[|taken| + 1..];
    assert frames == (taken + [f]) + rest;
    BlockStartsOf(taken, [f]);
    BlockStartsOf(taken + [f], rest);
    assert BlockStarts([f]) == if f.frame.BlockStart? then [f.frame.content] else [] by {
      assert [f][1..] == [];
    }
    StepKeeps(o, SeedAt(frames), s, m, f);
    if Step(o, s, f).Continue? {
      StepCounts(o, s, f);
    }
  }

  /**
   * Every run of the decoder is well-formed, whatever frames arrive: tool deltas and calls
   * belong to a start that is still open, no index is opened twice, each input is what its
   * deltas spell after the text its own block started with, and completion comes only when
   * every start has its call.
   */
  lemma RunsAreLegal(o: Options, frames: seq<Arrival>, abortedAtEnd: bool)
    ensures Legal(SeededFits(o.parse, SeedAt(frames)), QUIET, Decode(o, INITIAL, frames, abortedAtEnd).events)
  {
    var seedAt := SeedAt(frames);
    var fits, inv := SeededFits(o.parse, seedAt), (t, s, m) => TracksAfter(o, seedAt, t, s, m);
    var step := (s: State, f: Arrival) => Step(o, s, f);
    forall t, s, m, f | t + [f] <= frames && inv(t, s, m)
      ensures KeepsOnward(fits, inv, t + [f], m, step(s, f))
    {
      StepKeepsOnward(o, frames, t, s, m, f);
    }
    FoldKeepsOnward(fits, inv, step, frames, [], INITIAL, QUIET, frames);
    var body := Fold(step, INITIAL, frames);
    if body.Continue? {
      var end := Finish(body.state, abortedAtEnd).events;
      FewEvents(fits, After(fits, QUIET, body.events));
      LegalConcat(fits, QUIET, body.events, end);
    }
  }

  // ----- when inputs are exactly what the deltas spell -----

  /**
   * What the text of a start input is: none, or a JSON text of an object with fields. No
   * second JSON text can follow it in one text that is JSON.
   */
  ghost predicate LawfulSeed(parse: Parse, seed: string) {
    seed != "" ==>
      && parse(seed).Some? && parse(seed).value.Object? && parse(seed).value.fields != map[]
      && forall more :: more != "" && parse(seed + more).Some? ==> parse(more).None?
  }

  ghost predicate LawfulStarts(parse: Parse, frames: seq<Arrival>) {
    forall content <- BlockStarts(frames) :: LawfulSeed(parse, SeedOf(content))
  }

  /** No call that is finished had an input at the start of its block. */
  predicate NoStartInputs(frames: seq<Arrival>, events: seq<Event>) {
    forall e <- events :: e.ToolCall? ==> SeedAt(frames)(e.contentIndex) == ""
  }

  /** An input read after a lawful seed is what follows the seed just when there is no seed. */
  lemma ReadWithoutSeed(parse: Parse, seed: string, text: string, input: Json)
    requires LawfulSeed(parse, seed) && ReadArguments(parse, seed + text) == Some(input)
    ensures ReadArguments(parse, text) == Some(input) <==> seed == ""
  {
    if seed == "" {
      assert seed + text == text;
    } else if text == "" {
      assert seed + text == seed;
    }
  }

  /** A run that is exact up to the start inputs is exact if and only if no finished call had one. */
  lemma SeededIsExactIff(o: Options, frames: seq<Arrival>, events: seq<Event>)
    requires LawfulStarts(o.parse, frames) && Legal(SeededFits(o.parse, SeedAt(frames)), QUIET, events)
    ensures Legal(ExactFits(o.parse), QUIET, events) <==> NoStartInputs(frames, events)
  {
    var seeded, exact, seedAt := SeededFits(o.parse, SeedAt(frames)), ExactFits(o.parse), SeedAt(frames);
    LegalLoosened(seeded, AnyFits(), QUIET, events);
    LegalIffFits(seeded, events);
    LegalIffFits(exact, events);
    forall k | 0 <= k < |events| && events[k].ToolCall?
      ensures FitsAt(exact, events, k) <==> seedAt(events[k].contentIndex) == ""
    {
      var e := events[k];
      assert FitsAt(seeded, events, k);
      ReadWithoutSeed(o.parse, seedAt(e.contentIndex), Spelled(events[..k], e.contentIndex), e.input);
    }
  }

  /**
   * The inputs of a run are exactly what its deltas spell if and only if no call that it
   * finishes had an input at the start of its block.
   */
  lemma ExactIff(o: Options, frames: seq<Arrival>, abortedAtEnd: bool)
    requires LawfulStarts(o.parse, frames)
    ensures var events := Decode(o, INITIAL, frames, abortedAtEnd).events;
            Legal(ExactFits(o.parse), QUIET, events) <==> NoStartInputs(frames, events)
  {
    RunsAreLegal(o, frames, abortedAtEnd);
    SeededIsExactIff(o, frames, Decode(o, INITIAL, frames, abortedAtEnd).events);
  }

  /** When no block starts with an input, each input is exactly what the deltas spell. */
  lemma EmptyStartsAreExact(o: Options, frames: seq<Arrival>, abortedAtEnd: bool)
    requires forall content <- BlockStarts(frames) :: SeedOf(content) == ""
    ensures Legal(ExactFits(o.parse), QUIET, Decode(o, INITIAL, frames, abortedAtEnd).events)
  {
    ExactIff(o, frames, abortedAtEnd);
  }

  /** A call whose block starts with a non-empty input: its deltas alone do not spell that input. */
  lemma StartInputIsNotSpelled(o: Options, seed: string, input: Json)
    requires seed != "" && o.parse(seed) == Some(input) && input.Object? && input.fields != map[]
    ensures var content := ToolUseContent("call", "tool", InputText(seed));
            var frames := [Arrival(BlockStart(Some(0), content), false), Arrival(BlockStop(Some(0)), false)];
            var call := ToolCall(0, "call", o.toolName("tool"), input);
            && Decode(o, INITIAL, frames, false).events == [ToolCallStart(0, "call", o.toolName("tool")), call]
            && !Legal(ExactFits(o.parse), QUIET, Decode(o, INITIAL, frames, false).events)
  {
    var content := ToolUseContent("call", "tool", InputText(seed));
    var frames := [Arrival(BlockStart(Some(0), content), false), Arrival(BlockStop(Some(0)), false)];
    var step := (s: State, f: Arrival) => Step(o, s, f);
    var first := step(INITIAL, frames[0]);
    var second := step(first.state, frames[1]);
    assert frames[1..][0] == frames[1] && frames[1..][1..] == [];
    assert Fold(step, first.state, frames[1..]) == Continue(second.state, second.events + []);
    var events := first.events + (second.events + []) + [];
    assert events == [ToolCallStart(0, "call", o.toolName("tool")), ToolCall(0, "call", o.toolName("tool"), input)];
    assert events[1..][0] == events[1];
  }
}
