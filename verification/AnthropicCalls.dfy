/**
 * What the calls of an Anthropic run are, read off its frames: id and name as their block
 * starts, and the texts of the pieces sent to the block while it is open.
 */
module AnthropicCalls {
  import opened Wrappers
  import opened JsonValues
  import opened StreamEvents
  import opened StreamRuns
  import opened CallRuns
  import opened AnthropicStream
  import opened AnthropicTheorems

  // ----- reading frames -----

  /** The content index of the block that is open under a provider's index. */
  function OwnerOf(frames: seq<Arrival>, w: nat): Option<nat> {
    if frames == [] then None
    else
      var init, last := frames[..|frames| - 1], frames[|frames| - 1].frame;
      if last.BlockStart? && last.index == Some(w) && !last.content.OtherContent? then Some(|BlockStarts(init)|)
      else if last.BlockStop? && last.index == Some(w) then None
      else OwnerOf(init, w)
  }

  /** The provider's index and the text of a piece of arguments. */
  function PartialOf(f: Frame): Option<(nat, string)> {
    if f.BlockDelta? && f.index.Some? && f.piece.JsonPiece? && f.piece.partial.Some?
    then Some((f.index.value, f.piece.partial.value)) else None
  }

  /** What a frame adds to the arguments at a content index, after the frames before it. */
  function Added(before: seq<Arrival>, f: Frame, i: nat): string {
    if PartialOf(f).Some? && OwnerOf(before, PartialOf(f).value.0) == Some(i) then PartialOf(f).value.1 else ""
  }

  /** The pieces of arguments sent to the block at a content index, put together. */
  function PartialsOf(frames: seq<Arrival>, i: nat): string {
    if frames == [] then ""
    else PartialsOf(frames[..|frames| - 1], i) + Added(frames[..|frames| - 1], frames[|frames| - 1].frame, i)
  }

  /** The block at a content index is one of a tool call. */
  predicate StartsCall(frames: seq<Arrival>, i: nat) {
    i < |BlockStarts(frames)| && BlockStarts(frames)[i].ToolUseContent?
  }

  ghost predicate IsClosed(frames: seq<Arrival>, i: nat) {
    i < |BlockStarts(frames)| && forall w: nat :: OwnerOf(frames, w) != Some(i)
  }

  lemma ReadingOneMore(frames: seq<Arrival>, f: Arrival)
    ensures BlockStarts(frames + [f]) == BlockStarts(frames) + if f.frame.BlockStart? then [f.frame.content] else []
    ensures forall i: nat :: PartialsOf(frames + [f], i) == PartialsOf(frames, i) + Added(frames, f.frame, i)
    ensures forall w: nat :: OwnerOf(frames + [f], w) ==
              if f.frame.BlockStart? && f.frame.index == Some(w) && !f.frame.content.OtherContent?
              then Some(|BlockStarts(frames)|)
              else if f.frame.BlockStop? && f.frame.index == Some(w) then None else OwnerOf(frames, w)
  {
    BlockStartsOf(frames, [f]);
    assert [f][1..] == [];
    assert (frames + [f])[..|frames|] == frames;
  }

  /** Blocks that are open have content indexes of their own, of blocks that have started. */
  lemma {:induction false} OwnersDiffer(frames: seq<Arrival>, v: nat, w: nat)
    requires OwnerOf(frames, v).Some?
    ensures OwnerOf(frames, v).value < |BlockStarts(frames)|
    ensures OwnerOf(frames, w) == OwnerOf(frames, v) ==> v == w
  {
    var init, f := frames[..|frames| - 1], frames[|frames| - 1];
    assert frames == init + [f];
    ReadingOneMore(init, f);
    if OwnerOf(init, v).Some? {
      OwnersDiffer(init, v, w);
    }
    if OwnerOf(init, w).Some? {
      OwnersDiffer(init, w, v);
    }
  }

  /** A block that is closed stays so, and gets no more pieces. */
  lemma {:induction false} ClosedForGood(frames: seq<Arrival>, more: seq<Arrival>, i: nat)
    requires IsClosed(frames, i)
    ensures IsClosed(frames + more, i) && PartialsOf(frames + more, i) == PartialsOf(frames, i)
    ensures BlockStarts(frames + more)[i] == BlockStarts(frames)[i]
  {
    if more == [] {
      assert frames + more == frames;
    } else {
      var init, f := more[..|more| - 1], more[|more| - 1];
      ClosedForGood(frames, init, i);
      assert frames + more == (frames + init) + [f];
      ReadingOneMore(frames + init, f);
      assert PartialsOf(frames, i) + "" == PartialsOf(frames, i);
    }
  }

  // ----- what a call is -----

  /** A call has the id and name its block started with, and the input that its pieces complete. */
  ghost predicate ReadOff(o: Options, frames: seq<Arrival>, e: Event)
    requires e.ToolCall?
  {
    var i := e.contentIndex;
    && StartsCall(frames, i) && IsClosed(frames, i)
    && var start := BlockStarts(frames)[i];
       && e.callId == start.id && e.name == o.toolName(start.name) && start.input.InputText?
       && ReadArguments(o.parse, start.input.text + PartialsOf(frames, i)) == Some(e.input)
  }

  /** An open block is the one its start and its pieces describe. */
  ghost predicate BlockIs(frames: seq<Arrival>, block: Block) {
    var i := block.contentIndex;
    && i < |BlockStarts(frames)|
    && (block.ToolBlock? ==>
          BlockStarts(frames)[i] == ToolUseContent(block.callId, block.wireName, InputText(SeedOf(BlockStarts(frames)[i])))
          && block.argumentsText == SeedOf(BlockStarts(frames)[i]) + PartialsOf(frames, i))
  }

  ghost predicate BlocksAre(frames: seq<Arrival>, s: State) {
    && s.nextContentIndex == |BlockStarts(frames)|
    && forall w: nat :: BlockAt(frames, s, w)
  }

  ghost predicate BlockAt(frames: seq<Arrival>, s: State, w: nat) {
    if w in s.blocks then OwnerOf(frames, w) == Some(s.blocks[w].contentIndex) && BlockIs(frames, s.blocks[w])
    else OwnerOf(frames, w) == None
  }

  /** All that has been received of calls has been yielded: their starts, and every piece of them. */
  ghost predicate Yielded(frames: seq<Arrival>, events: seq<Event>) {
    && (forall i: nat :: Spelled(events, i) == PartialsOf(frames, i))
    && (forall i: nat :: Starts(events, i) == if StartsCall(frames, i) then 1 else 0)
  }

  ghost predicate CallsAre(o: Options, frames: seq<Arrival>, events: seq<Event>) {
    forall e <- events :: e.ToolCall? ==> ReadOff(o, frames, e)
  }

  // ----- one frame -----

  /** What one frame yields, counted. */
  lemma StepYields(o: Options, frames: seq<Arrival>, s: State, f: Arrival)
    requires BlocksAre(frames, s) && Step(o, s, f).Continue?
    ensures var events := Step(o, s, f).events;
            && (forall i: nat :: Spelled(events, i) == Added(frames, f.frame, i))
            && (forall i: nat :: Starts(events, i) ==
                  if f.frame.BlockStart? && f.frame.content.ToolUseContent? && i == s.nextContentIndex then 1 else 0)
  {
    var events := Step(o, s, f).events;
    forall i: nat
      ensures Spelled(events, i) == Added(frames, f.frame, i)
      ensures Starts(events, i) ==
              if f.frame.BlockStart? && f.frame.content.ToolUseContent? && i == s.nextContentIndex then 1 else 0
    {
      if PartialOf(f.frame).Some? {
        assert BlockAt(frames, s, PartialOf(f.frame).value.0);
      }
      if events != [] {
        assert events == [events[0]];
        CountsOfOne(events[0], i);
      }
    }
  }

  lemma YieldedOneMore(o: Options, frames: seq<Arrival>, s: State, before: seq<Event>, f: Arrival)
    requires BlocksAre(frames, s) && Yielded(frames, before) && Step(o, s, f).Continue?
    ensures Yielded(frames + [f], before + Step(o, s, f).events)
  {
    var events := Step(o, s, f).events;
    StepYields(o, frames, s, f);
    ReadingOneMore(frames, f);
    forall i: nat
      ensures Spelled(before + events, i) == PartialsOf(frames + [f], i)
      ensures Starts(before + events, i) == if StartsCall(frames + [f], i) then 1 else 0
    {
      SpelledInParts(before, events, i);
      StartsInParts(before, events, i);
    }
  }

  /** A block that has not started has got no pieces. */
  lemma {:induction false} NoPartialsYet(frames: seq<Arrival>, i: nat)
    requires i >= |BlockStarts(frames)|
    ensures PartialsOf(frames, i) == ""
  {
    if frames != [] {
      var init, f := frames[..|frames| - 1], frames[|frames| - 1];
      assert frames == init + [f];
      ReadingOneMore(init, f);
      NoPartialsYet(init, i);
      if PartialOf(f.frame).Some? && OwnerOf(init, PartialOf(f.frame).value.0).Some? {
        OwnersDiffer(init, PartialOf(f.frame).value.0, 0);
      }
    }
  }

  /** A block as it is started. */
  ghost predicate StartedBy(f: Frame, contentIndex: nat, block: Block) {
    && f.BlockStart? && block.contentIndex == contentIndex
    && (block.ToolBlock? ==> f.content == ToolUseContent(block.callId, block.wireName, InputText(block.argumentsText)))
  }

  /** A block that gets a piece of arguments; it may be empty. */
  ghost predicate GrownBy(block: Block, block': Block, more: string) {
    && block'.contentIndex == block.contentIndex && (block'.ToolBlock? <==> block.ToolBlock?)
    && (block.ToolBlock? ==> block' == block.(argumentsText := block.argumentsText + more))
  }

  lemma StartedBlockIs(frames: seq<Arrival>, f: Arrival, block: Block)
    requires StartedBy(f.frame, |BlockStarts(frames)|, block)
    ensures BlockIs(frames + [f], block)
  {
    ReadingOneMore(frames, f);
    NoPartialsYet(frames, |BlockStarts(frames)|);
    if block.ToolBlock? {
      assert block.argumentsText + ("" + "") == block.argumentsText;
    }
  }

  lemma GrownBlockIs(frames: seq<Arrival>, f: Arrival, block: Block, block': Block)
    requires BlockIs(frames, block) && GrownBy(block, block', Added(frames, f.frame, block.contentIndex))
    ensures BlockIs(frames + [f], block')
  {
    var i := block.contentIndex;
    ReadingOneMore(frames, f);
    var seed, text, more := SeedOf(BlockStarts(frames)[i]), PartialsOf(frames, i), Added(frames, f.frame, i);
    assert (seed + text) + more == seed + (text + more);
  }

  /** What a piece of arguments adds to the block at `w`. */
  function Sent(f: Frame, w: nat): string {
    if PartialOf(f).Some? && PartialOf(f).value.0 == w then PartialOf(f).value.1 else ""
  }

  /** What a frame does to the block at `w`. */
  lemma StepBlock(o: Options, s: State, f: Arrival, w: nat)
    requires Step(o, s, f).Continue?
    ensures var s' := Step(o, s, f).state;
            if f.frame.BlockStart? && f.frame.index == Some(w) && !f.frame.content.OtherContent? then
              w !in s.blocks && w in s'.blocks && StartedBy(f.frame, s.nextContentIndex, s'.blocks[w])
            else if f.frame.BlockStop? && f.frame.index == Some(w) then w in s.blocks && w !in s'.blocks
            else (w in s'.blocks <==> w in s.blocks) && (w in s.blocks ==> GrownBy(s.blocks[w], s'.blocks[w], Sent(f.frame, w)))
  {
    if w in s.blocks && s.blocks[w].ToolBlock? {
      assert s.blocks[w].argumentsText + "" == s.blocks[w].argumentsText;
    }
  }

  /** A piece for the block at `w` is one for its content index. */
  lemma SentIsAdded(frames: seq<Arrival>, f: Frame, w: nat)
    requires OwnerOf(frames, w).Some?
    ensures Sent(f, w) == Added(frames, f, OwnerOf(frames, w).value)
  {
    if PartialOf(f).Some? {
      OwnersDiffer(frames, w, PartialOf(f).value.0);
    }
  }

  lemma BlocksOneMore(o: Options, frames: seq<Arrival>, s: State, f: Arrival)
    requires BlocksAre(frames, s) && Step(o, s, f).Continue?
    ensures BlocksAre(frames + [f], Step(o, s, f).state)
  {
    var s' := Step(o, s, f).state;
    ReadingOneMore(frames, f);
    StepCounts(o, s, f);
    forall w: nat
      ensures BlockAt(frames + [f], s', w)
    {
      assert BlockAt(frames, s, w);
      StepBlock(o, s, f, w);
      if w in s.blocks && w in s'.blocks {
        SentIsAdded(frames, f.frame, w);
        GrownBlockIs(frames, f, s.blocks[w], s'.blocks[w]);
      } else if w in s'.blocks {
        StartedBlockIs(frames, f, s'.blocks[w]);
      }
    }
  }

  /** Calls that have been finished stay what they are. */
  lemma CallStays(o: Options, frames: seq<Arrival>, more: seq<Arrival>, e: Event)
    requires e.ToolCall? && ReadOff(o, frames, e)
    ensures ReadOff(o, frames + more, e) && PartialsOf(frames + more, e.contentIndex) == PartialsOf(frames, e.contentIndex)
  {
    ClosedForGood(frames, more, e.contentIndex);
  }

  lemma StopCloses(frames: seq<Arrival>, f: Arrival, w: nat)
    requires f.frame.BlockStop? && f.frame.index == Some(w) && OwnerOf(frames, w).Some?
    ensures IsClosed(frames + [f], OwnerOf(frames, w).value)
    ensures PartialsOf(frames + [f], OwnerOf(frames, w).value) == PartialsOf(frames, OwnerOf(frames, w).value)
    ensures BlockStarts(frames + [f]) == BlockStarts(frames)
  {
    var i := OwnerOf(frames, w).value;
    ReadingOneMore(frames, f);
    OwnersDiffer(frames, w, w);
    forall v: nat
      ensures OwnerOf(frames + [f], v) != Some(i)
    {
      OwnersDiffer(frames, w, v);
    }
    assert PartialsOf(frames, i) + "" == PartialsOf(frames, i);
  }

  /** The step that yields a call stops its block. */
  lemma StepCalls(o: Options, s: State, f: Arrival, e: Event)
    requires Step(o, s, f).Continue? && e in Step(o, s, f).events && e.ToolCall?
    ensures f.frame.BlockStop? && f.frame.index.Some? && f.frame.index.value in s.blocks
    ensures var block := s.blocks[f.frame.index.value];
            && block.ToolBlock? && e.contentIndex == block.contentIndex
            && e.callId == block.callId && e.name == o.toolName(block.wireName)
            && ReadArguments(o.parse, block.argumentsText) == Some(e.input)
  {
  }

  /** A block that stops is closed, and its call is what its frames say. */
  lemma StopReadOff(o: Options, frames: seq<Arrival>, s: State, f: Arrival)
    requires BlocksAre(frames, s) && Step(o, s, f).Continue?
    ensures CallsAre(o, frames + [f], Step(o, s, f).events)
  {
    forall e | e in Step(o, s, f).events && e.ToolCall?
      ensures ReadOff(o, frames + [f], e)
    {
      StepCalls(o, s, f, e);
      assert BlockAt(frames, s, f.frame.index.value);
      StopCloses(frames, f, f.frame.index.value);
    }
  }

  // ----- whole runs -----

  ghost predicate History(o: Options, frames: seq<Arrival>, s: State, events: seq<Event>) {
    && BlocksAre(frames, s) && Yielded(frames, events) && CallsAre(o, frames, events)
    && (forall e <- events :: !Terminal(e)) && (forall f <- frames :: !f.frame.MessageStop?)
  }

  lemma CallsOneMore(o: Options, frames: seq<Arrival>, before: seq<Event>, f: Arrival, events: seq<Event>)
    requires CallsAre(o, frames, before) && CallsAre(o, frames + [f], events)
    ensures CallsAre(o, frames + [f], before + events)
  {
    forall e | e in before && e.ToolCall?
      ensures ReadOff(o, frames + [f], e)
    {
      CallStays(o, frames, [f], e);
    }
  }

  lemma NoEndYet(o: Options, s: State, f: Arrival)
    ensures Step(o, s, f).Continue? ==> !f.frame.MessageStop? && forall e <- Step(o, s, f).events :: !Terminal(e)
    ensures !Step(o, s, f).Continue? ==> forall e <- Step(o, s, f).events :: Terminal(e) && (e.Completed? ==> f.frame.MessageStop?)
  {
  }

  lemma HistoryOneMore(o: Options, frames: seq<Arrival>, s: State, before: seq<Event>, f: Arrival)
    requires History(o, frames, s, before) && Step(o, s, f).Continue?
    ensures History(o, frames + [f], Step(o, s, f).state, before + Step(o, s, f).events)
  {
    BlocksOneMore(o, frames, s, f);
    YieldedOneMore(o, frames, s, before, f);
    StopReadOff(o, frames, s, f);
    CallsOneMore(o, frames, before, f, Step(o, s, f).events);
    NoEndYet(o, s, f);
  }

  lemma EmptyHistory(o: Options)
    ensures History(o, [], INITIAL, [])
  {
  }

  /** The frames taken before the one that ends the run, and what is yielded for them. */
  lemma FramesHistory(o: Options, frames: seq<Arrival>) returns (taken: seq<Arrival>, s: State, before: seq<Event>)
    ensures taken <= frames && History(o, taken, s, before)
    ensures var body := Fold((s: State, f: Arrival) => Step(o, s, f), INITIAL, frames);
            if body.Continue? then taken == frames && body.events == before && body.state == s
            else |taken| < |frames| && !Step(o, s, frames[|taken|]).Continue?
                 && body.events == before + Step(o, s, frames[|taken|]).events
  {
    var inv := (t: seq<Arrival>, s: State, b: seq<Event>) => History(o, t, s, b);
    var step := (s: State, f: Arrival) => Step(o, s, f);
    forall t, s, b, f | t + [f] <= frames && inv(t, s, b) && step(s, f).Continue?
      ensures inv(t + [f], step(s, f).state, b + step(s, f).events)
    {
      HistoryOneMore(o, t, s, b, f);
    }
    EmptyHistory(o);
    taken, s, before := FoldHistory(inv, step, frames, [], INITIAL, [], frames);
    var events := Fold(step, INITIAL, frames).events;
    assert [] + events == events;
  }

  /** The run up to the frame that ends it, or to the end of the source. */
  lemma RunHistory(o: Options, frames: seq<Arrival>, abortedAtEnd: bool)
    returns (taken: seq<Arrival>, s: State, before: seq<Event>, end: seq<Event>)
    ensures taken <= frames && History(o, taken, s, before)
    ensures Decode(o, INITIAL, frames, abortedAtEnd).events == before + end
    ensures forall e <- end :: Terminal(e)
    ensures forall e <- end :: e.Completed? ==> |taken| < |frames| && frames[|taken|].frame.MessageStop?
  {
    taken, s, before := FramesHistory(o, frames);
    var body := Fold((s: State, f: Arrival) => Step(o, s, f), INITIAL, frames);
    if body.Continue? {
      end := Finish(body.state, abortedAtEnd).events;
    } else {
      NoEndYet(o, s, frames[|taken|]);
      end := Step(o, s, frames[|taken|]).events;
    }
  }

  /**
   * A decoder that waits for the next frame holds nothing back: it has yielded the start of
   * each call that has started, and all pieces of arguments received for it.
   */
  lemma NothingIsHeldBack(o: Options, frames: seq<Arrival>)
    requires Fold((s: State, f: Arrival) => Step(o, s, f), INITIAL, frames).Continue?
    ensures Yielded(frames, Fold((s: State, f: Arrival) => Step(o, s, f), INITIAL, frames).events)
  {
    var taken, s, before := FramesHistory(o, frames);
  }

  /**
   * Each finished call of a run has the id and the name its block started with, its deltas
   * spell the pieces of arguments sent to that block, and its input is the object they parse
   * to after the text the block started with.
   */
  lemma CallsReadOff(o: Options, frames: seq<Arrival>, abortedAtEnd: bool)
    ensures var events := Decode(o, INITIAL, frames, abortedAtEnd).events;
            forall e <- events :: e.ToolCall? ==>
              ReadOff(o, frames, e) && Spelled(events, e.contentIndex) == PartialsOf(frames, e.contentIndex)
  {
    var taken, s, before, end := RunHistory(o, frames, abortedAtEnd);
    var events := before + end;
    forall e: Event | e in events && e.ToolCall?
      ensures ReadOff(o, frames, e) && Spelled(events, e.contentIndex) == PartialsOf(frames, e.contentIndex)
    {
      assert e in before;
      assert frames == taken + frames[|taken|..];
      CallStays(o, taken, frames[|taken|..], e);
      SpelledConcat(before, end, e.contentIndex);
    }
  }

  lemma {:induction false} NoStarts(events: seq<Event>, i: nat)
    requires forall e <- events :: Terminal(e)
    ensures Starts(events, i) == 0
  {
    if events != [] {
      assert events[0] in events;
      NoStarts(events[1..], i);
    }
  }

  /** The frames before the one that ends a message. */
  function BeforeStop(frames: seq<Arrival>): seq<Arrival> {
    Before((f: Arrival) => f.frame.MessageStop?, frames)
  }

  /** A run that is completed has exactly the calls whose blocks start before the message ends. */
  lemma CompletedHasAllCalls(o: Options, frames: seq<Arrival>, abortedAtEnd: bool, i: nat)
    requires var events := Decode(o, INITIAL, frames, abortedAtEnd).events;
             events != [] && events[|events| - 1].Completed?
    ensures Calls(Decode(o, INITIAL, frames, abortedAtEnd).events, i) == if StartsCall(BeforeStop(frames), i) then 1 else 0
  {
    var taken, s, before, end := RunHistory(o, frames, abortedAtEnd);
    var events := before + end;
    RunsAreLegal(o, frames, abortedAtEnd);
    StartsMatchCalls(SeededFits(o.parse, SeedAt(frames)), events, i);
    StartsInParts(before, end, i);
    NoStarts(end, i);
    assert events[|events| - 1] in before || events[|events| - 1] in end;
    BeforeIs((f: Arrival) => f.frame.MessageStop?, frames, taken);
  }
}
