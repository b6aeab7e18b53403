/**
 * The runs of the OpenAI Chat decoder are well-formed in their shape, and each call is at any
 * time what the pieces received for it make of it.
 */
module ChatTheorems {
  import opened Wrappers
  import opened JsonValues
  import opened StreamEvents
  import opened StreamRuns
  import opened IndexOrder
  import opened ChatStream
  import opened ChatCalls

  // ----- the pieces of a run -----

  /** The frames before the one that ends the run. */
  function BeforeDone(frames: seq<Arrival>): seq<Arrival> {
    Before((f: Arrival) => f.frame.Done? && !f.aborted, frames)
  }

  function PiecesIn(f: Arrival): seq<ToolPiece> {
    if f.frame.Chunk? && f.frame.delta.Some? && f.frame.delta.value.tools.Tools? then f.frame.delta.value.tools.pieces
    else []
  }

  function AllPieces(frames: seq<Arrival>): seq<ToolPiece> {
    if frames == [] then [] else AllPieces(frames[..|frames| - 1]) + PiecesIn(frames[|frames| - 1])
  }

  /** The pieces of one call in the frames that count. */
  function PiecesOf(frames: seq<Arrival>, index: nat): (own: seq<ToolPiece>)
    ensures AreOf(own)
  {
    PiecesAt(AllPieces(BeforeDone(frames)), index)
  }

  // ----- the invariant -----

  /** The monitor has heard the start of a call, if it has started, and what its deltas spell. */
  ghost predicate Heard(o: Options, acc: Accumulator, spelled: string, m: Monitor) {
    && |spelled| == acc.emittedArguments
    && (if acc.started then
          && acc.id != "" && acc.name != "" && acc.contentIndex in m.slots
          && m.slots[acc.contentIndex] == OpenCall(acc.id, o.toolName(acc.name), spelled)
        else spelled == "" && acc.contentIndex !in m.slots)
  }

  /** A call is what its pieces make of it, and the monitor has heard it. */
  ghost predicate Agrees(o: Options, own: seq<ToolPiece>, acc: Accumulator, m: Monitor)
    requires AreOf(own)
  {
    var grown := Grow(o, acc.contentIndex, own);
    own != [] && acc == grown.0 && Heard(o, acc, grown.1, m)
  }

  type CallCheck = (nat, Accumulator, Monitor) -> bool

  ghost function AgreesAt(o: Options, pieces: seq<ToolPiece>): CallCheck {
    (index: nat, acc: Accumulator, m: Monitor) => Agrees(o, PiecesAt(pieces, index), acc, m)
  }

  /** Calls have indexes of their own and pass the check; open slots belong to calls. */
  ghost predicate InShape(check: CallCheck, s: State, m: Monitor) {
    && !m.over
    && (forall i :: i in m.slots ==> i < s.nextContentIndex)
    && (forall k :: k in s.tools ==> s.tools[k].contentIndex < s.nextContentIndex && check(k, s.tools[k], m))
    && (forall k, l :: k in s.tools && l in s.tools && k != l ==> s.tools[k].contentIndex != s.tools[l].contentIndex)
    && (forall i :: i in m.slots && m.slots[i].OpenCall? ==>
          exists k :: k in s.tools && s.tools[k].contentIndex == i)
    && (s.textContentIndex.Some? ==>
          s.textContentIndex.value in m.slots && m.slots[s.textContentIndex.value] == TextSlot)
    && (s.thinkingContentIndex.Some? ==>
          s.thinkingContentIndex.value in m.slots && m.slots[s.thinkingContentIndex.value] == ThinkingSlot)
  }

  /** The state after some pieces. */
  ghost predicate Tracks(o: Options, pieces: seq<ToolPiece>, s: State, m: Monitor) {
    InShape(AgreesAt(o, pieces), s, m) && forall k: nat :: PiecesAt(pieces, k) != [] ==> k in s.tools
  }

  ghost predicate TurnKeeps(o: Options, pieces: seq<ToolPiece>, m: Monitor, turn: Turn<State>) {
    Keeps(AnyFits(), (s, m) => Tracks(o, pieces, s, m), m, turn)
  }

  // ----- one piece of a call -----

  lemma PiecesAtSnoc(pieces: seq<ToolPiece>, piece: ToolPiece, index: nat)
    ensures PiecesAt(pieces + [piece], index) ==
            PiecesAt(pieces, index) + if piece.ToolPiece? && piece.index == index then [piece] else []
  {
    assert (pieces + [piece])[..|pieces|] == pieces;
  }

  /** Nothing but the slot `c` changes. */
  ghost predicate OnlySlot(m: Monitor, m': Monitor, c: nat) {
    && !m'.over
    && (forall i :: i != c ==> (i in m'.slots <==> i in m.slots))
    && (forall i :: i != c && i in m.slots ==> m'.slots[i] == m.slots[i])
  }

  /** Emitting after one more piece lets the monitor hear the rest. */
  lemma EmitIsHeard(o: Options, acc: Accumulator, spelled: string, piece: ToolPiece, m: Monitor)
    requires piece.ToolPiece? && !m.over && Heard(o, acc, spelled, m)
    ensures var events := Emit(o, Add(acc, piece)).1;
            var (acc', spelled') := Onward(o, acc, spelled, piece);
            && Legal(AnyFits(), m, events)
            && var m' := After(AnyFits(), m, events);
               && OnlySlot(m, m', acc.contentIndex) && Heard(o, acc', spelled', m')
               && acc'.contentIndex == acc.contentIndex
               && (acc.contentIndex in m'.slots ==> m'.slots[acc.contentIndex].OpenCall?)
  {
    var c, grown, fits := acc.contentIndex, Add(acc, piece), AnyFits();
    var (acc', events) := Emit(o, grown);
    var more := Unsent(grown);
    var start := if acc'.started && !acc.started then [ToolCallStart(c, grown.id, o.toolName(grown.name))] else [];
    var delta := if acc'.started && more != "" then [ToolCallDelta(c, grown.id, more)] else [];
    assert events == start + delta;
    FewEvents(fits, m);
    var m1 := After(fits, m, start);
    FewEvents(fits, m1);
    LegalConcat(fits, m, start, delta);
    assert spelled + "" == spelled;
    assert acc'.started ==> m1.slots[c] == OpenCall(acc'.id, o.toolName(acc'.name), spelled);
  }

  /** The call at `index` is changed or added; all others are as they were. */
  lemma ShapeTouched(check: CallCheck, check': CallCheck, index: nat, s: State, s': State, m: Monitor, m': Monitor)
    requires InShape(check, s, m) && index in s'.tools
    requires s'.tools == s.tools[index := s'.tools[index]]
    requires s'.tools[index].contentIndex == AccumulatorAt(s, index).contentIndex
    requires s'.nextContentIndex == s.nextContentIndex + (if index in s.tools then 0 else 1)
    requires s'.textContentIndex == s.textContentIndex && s'.thinkingContentIndex == s.thinkingContentIndex
    requires var c := s'.tools[index].contentIndex;
             && OnlySlot(m, m', c)
             && (c in m'.slots ==> m'.slots[c].OpenCall?) && (c in m.slots ==> m.slots[c].OpenCall?)
    requires check'(index, s'.tools[index], m')
    requires forall k :: k != index && k in s.tools ==> check'(k, s.tools[k], m')
    ensures InShape(check', s', m')
  {
    forall i | i in m'.slots && m'.slots[i].OpenCall?
      ensures exists k :: k in s'.tools && s'.tools[k].contentIndex == i
    {
      if i == s'.tools[index].contentIndex {
        assert index in s'.tools;
      } else {
        var k :| k in s.tools && s.tools[k].contentIndex == i;
        assert k in s'.tools;
      }
    }
  }

  /** A call none of whose slots changed is still heard. */
  lemma StillAgrees(o: Options, own: seq<ToolPiece>, acc: Accumulator, m: Monitor, m': Monitor, c: nat)
    requires AreOf(own) && Agrees(o, own, acc, m) && OnlySlot(m, m', c) && acc.contentIndex != c
    ensures Agrees(o, own, acc, m')
  {
  }

  lemma OthersAgree(o: Options, pieces: seq<ToolPiece>, piece: ToolPiece, s: State, m: Monitor, m': Monitor)
    requires Tracks(o, pieces, s, m) && piece.ToolPiece?
    requires OnlySlot(m, m', AccumulatorAt(s, piece.index).contentIndex)
    ensures forall k :: k != piece.index && k in s.tools ==> AgreesAt(o, pieces + [piece])(k, s.tools[k], m')
  {
    forall k | k != piece.index && k in s.tools
      ensures AgreesAt(o, pieces + [piece])(k, s.tools[k], m')
    {
      assert AgreesAt(o, pieces)(k, s.tools[k], m);
      PiecesAtSnoc(pieces, piece, k);
      assert PiecesAt(pieces, k) + [] == PiecesAt(pieces, k);
      StillAgrees(o, PiecesAt(pieces, k), s.tools[k], m, m', AccumulatorAt(s, piece.index).contentIndex);
    }
  }

  /** A call before its first piece has not been heard of. */
  lemma CallBefore(o: Options, pieces: seq<ToolPiece>, s: State, m: Monitor, index: nat)
    requires Tracks(o, pieces, s, m)
    ensures var own, acc := PiecesAt(pieces, index), AccumulatorAt(s, index);
            var (made, spelled) := Grow(o, acc.contentIndex, own);
            made == acc && Heard(o, acc, spelled, m) && (acc.contentIndex in m.slots ==> m.slots[acc.contentIndex].OpenCall?)
  {
    if index in s.tools {
      assert AgreesAt(o, pieces)(index, s.tools[index], m);
    } else {
      assert PiecesAt(pieces, index) == [];
    }
  }

  lemma TakeToolKeeps(o: Options, pieces: seq<ToolPiece>, s: State, m: Monitor, piece: ToolPiece)
    requires Tracks(o, pieces, s, m)
    ensures TurnKeeps(o, pieces + [piece], m, TakeTool(o, s, piece))
  {
    FewEvents(AnyFits(), m);
    if piece.ToolPiece? {
      TakePieceKeeps(o, pieces, s, m, piece);
    }
  }

  /** What the monitor hears of a call with one more piece, and that the call agrees with it. */
  lemma PieceAgrees(o: Options, pieces: seq<ToolPiece>, s: State, m: Monitor, piece: ToolPiece)
    requires Tracks(o, pieces, s, m) && piece.ToolPiece?
    ensures var acc := AccumulatorAt(s, piece.index);
            var (acc', events) := Emit(o, Add(acc, piece));
            && Legal(AnyFits(), m, events)
            && var m' := After(AnyFits(), m, events);
               && OnlySlot(m, m', acc.contentIndex) && acc'.contentIndex == acc.contentIndex
               && AgreesAt(o, pieces + [piece])(piece.index, acc', m')
               && (acc.contentIndex in m.slots ==> m.slots[acc.contentIndex].OpenCall?)
               && (acc.contentIndex in m'.slots ==> m'.slots[acc.contentIndex].OpenCall?)
  {
    var own, acc := PiecesAt(pieces, piece.index), AccumulatorAt(s, piece.index);
    CallBefore(o, pieces, s, m, piece.index);
    EmitIsHeard(o, acc, Grow(o, acc.contentIndex, own).1, piece, m);
    GrowSnoc(o, acc.contentIndex, own, piece);
    PiecesAtSnoc(pieces, piece, piece.index);
  }

  lemma KnownCalls(o: Options, pieces: seq<ToolPiece>, piece: ToolPiece, s: State, tools: map<nat, Accumulator>)
    requires (forall k: nat :: PiecesAt(pieces, k) != [] ==> k in s.tools) && piece.ToolPiece?
    requires tools.Keys == s.tools.Keys + {piece.index}
    ensures forall k: nat :: PiecesAt(pieces + [piece], k) != [] ==> k in tools
  {
    forall k: nat | PiecesAt(pieces + [piece], k) != []
      ensures k in tools
    {
      PiecesAtSnoc(pieces, piece, k);
    }
  }

  /** The state in which one call has one more piece, and the monitor has heard it. */
  lemma TracksTouched(
    o: Options, pieces: seq<ToolPiece>, piece: ToolPiece, s: State, acc: Accumulator, emitted: bool, m: Monitor, m': Monitor)
    requires Tracks(o, pieces, s, m) && piece.ToolPiece?
    requires var c := AccumulatorAt(s, piece.index).contentIndex;
             && acc.contentIndex == c && OnlySlot(m, m', c)
             && (c in m.slots ==> m.slots[c].OpenCall?) && (c in m'.slots ==> m'.slots[c].OpenCall?)
    requires AgreesAt(o, pieces + [piece])(piece.index, acc, m')
    ensures Tracks(o, pieces + [piece], Touched(s, piece.index, acc, emitted), m')
  {
    var s' := Touched(s, piece.index, acc, emitted);
    OthersAgree(o, pieces, piece, s, m, m');
    ShapeTouched(AgreesAt(o, pieces), AgreesAt(o, pieces + [piece]), piece.index, s, s', m, m');
    KnownCalls(o, pieces, piece, s, s'.tools);
  }

  function Touched(s: State, index: nat, acc: Accumulator, emitted: bool): State {
    s.(tools := s.tools[index := acc],
       nextContentIndex := s.nextContentIndex + if index in s.tools then 0 else 1, emittedContent := emitted)
  }

  lemma TakeToolTouches(o: Options, s: State, piece: ToolPiece) returns (emitted: bool)
    requires piece.ToolPiece?
    ensures var (acc, events) := Emit(o, Add(AccumulatorAt(s, piece.index), piece));
            TakeTool(o, s, piece) == Continue(Touched(s, piece.index, acc, emitted), events)
  {
    var acc := Add(AccumulatorAt(s, piece.index), piece);
    emitted := s.emittedContent || (Emit(o, acc).0.started && !acc.started);
  }

  lemma PieceTracks(o: Options, pieces: seq<ToolPiece>, s: State, m: Monitor, piece: ToolPiece, emitted: bool)
    requires Tracks(o, pieces, s, m) && piece.ToolPiece?
    ensures var (acc, events) := Emit(o, Add(AccumulatorAt(s, piece.index), piece));
            TurnKeeps(o, pieces + [piece], m, Continue(Touched(s, piece.index, acc, emitted), events))
  {
    var (acc, events) := Emit(o, Add(AccumulatorAt(s, piece.index), piece));
    PieceAgrees(o, pieces, s, m, piece);
    TracksTouched(o, pieces, piece, s, acc, emitted, m, After(AnyFits(), m, events));
  }

  lemma TakePieceKeeps(o: Options, pieces: seq<ToolPiece>, s: State, m: Monitor, piece: ToolPiece)
    requires Tracks(o, pieces, s, m) && piece.ToolPiece?
    ensures TurnKeeps(o, pieces + [piece], m, TakeTool(o, s, piece))
  {
    var emitted := TakeToolTouches(o, s, piece);
    PieceTracks(o, pieces, s, m, piece, emitted);
  }

  // ----- text, reasoning and whole frames -----

  /** An event about content leaves all calls as they were. */
  lemma ContentHeard(o: Options, pieces: seq<ToolPiece>, s: State, m: Monitor, m': Monitor, c: nat)
    requires InShape(AgreesAt(o, pieces), s, m) && OnlySlot(m, m', c)
    requires forall k :: k in s.tools ==> s.tools[k].contentIndex != c
    ensures forall k :: k in s.tools ==> AgreesAt(o, pieces)(k, s.tools[k], m')
  {
    forall k | k in s.tools
      ensures AgreesAt(o, pieces)(k, s.tools[k], m')
    {
      assert AgreesAt(o, pieces)(k, s.tools[k], m);
      StillAgrees(o, PiecesAt(pieces, k), s.tools[k], m, m', c);
    }
  }

  /** A slot of text or reasoning belongs to no call. */
  lemma NoCallThere(o: Options, pieces: seq<ToolPiece>, s: State, m: Monitor, c: nat)
    requires InShape(AgreesAt(o, pieces), s, m)
    requires c >= s.nextContentIndex || (c in m.slots && !m.slots[c].OpenCall?)
    ensures forall k :: k in s.tools ==> s.tools[k].contentIndex != c
  {
    forall k | k in s.tools
      ensures s.tools[k].contentIndex != c
    {
      assert AgreesAt(o, pieces)(k, s.tools[k], m);
    }
  }

  lemma ShapeWithContent(check: CallCheck, s: State, m: Monitor, s': State, e: Event)
    requires InShape(check, s, m) && Allowed(AnyFits(), m, e) && (e.TextDelta? || e.ThinkingDelta?)
    requires s'.tools == s.tools && s.nextContentIndex <= s'.nextContentIndex && e.contentIndex < s'.nextContentIndex
    requires s'.textContentIndex == if e.TextDelta? then Some(e.contentIndex) else s.textContentIndex
    requires s'.thinkingContentIndex == if e.ThinkingDelta? then Some(e.contentIndex) else s.thinkingContentIndex
    requires forall k :: k in s.tools ==> check(k, s.tools[k], Observe(AnyFits(), m, e))
    ensures InShape(check, s', Observe(AnyFits(), m, e))
  {
  }

  lemma ContentKeeps(o: Options, pieces: seq<ToolPiece>, s: State, m: Monitor, turn: Turn<State>, e: Event)
    requires Tracks(o, pieces, s, m) && turn.Continue? && turn.events == [e]
    requires Allowed(AnyFits(), m, e) && (e.TextDelta? || e.ThinkingDelta?)
    requires e.contentIndex == s.nextContentIndex || e.contentIndex in m.slots
    requires turn.state.tools == s.tools && s.nextContentIndex <= turn.state.nextContentIndex
    requires e.contentIndex < turn.state.nextContentIndex
    requires turn.state.textContentIndex == if e.TextDelta? then Some(e.contentIndex) else s.textContentIndex
    requires turn.state.thinkingContentIndex == if e.ThinkingDelta? then Some(e.contentIndex) else s.thinkingContentIndex
    ensures TurnKeeps(o, pieces, m, turn)
  {
    FewEvents(AnyFits(), m);
    var m' := Observe(AnyFits(), m, e);
    NoCallThere(o, pieces, s, m, e.contentIndex);
    ContentHeard(o, pieces, s, m, m', e.contentIndex);
    ShapeWithContent(AgreesAt(o, pieces), s, m, turn.state, e);
  }

  lemma TextKeeps(o: Options, pieces: seq<ToolPiece>, s: State, m: Monitor, text: string)
    requires Tracks(o, pieces, s, m)
    ensures TurnKeeps(o, pieces, m, TakeText(s, text)) && TurnKeeps(o, pieces, m, TakeReasoning(s, text))
  {
    if text == "" {
      FewEvents(AnyFits(), m);
    } else {
      ContentKeeps(o, pieces, s, m, TakeText(s, text), TakeText(s, text).events[0]);
      ContentKeeps(o, pieces, s, m, TakeReasoning(s, text), TakeReasoning(s, text).events[0]);
    }
  }

  lemma TakeToolsKeeps(o: Options, pieces: seq<ToolPiece>, s: State, m: Monitor, added: seq<ToolPiece>)
    requires Tracks(o, pieces, s, m)
    ensures TurnKeeps(o, pieces + added, m, TakeTools(o, s, Tools(added)))
  {
    var step := (s: State, piece: ToolPiece) => TakeTool(o, s, piece);
    var inv := (taken: seq<ToolPiece>, s: State, m: Monitor) => Tracks(o, pieces + taken, s, m);
    forall t, s, m, piece | t + [piece] <= added && inv(t, s, m)
      ensures KeepsOnward(AnyFits(), inv, t + [piece], m, step(s, piece))
    {
      TakeToolKeeps(o, pieces + t, s, m, piece);
      assert pieces + t + [piece] == pieces + (t + [piece]);
    }
    assert pieces + [] == pieces;
    FoldKeepsOnward(AnyFits(), inv, step, added, [], s, m, added);
  }

  lemma TakeDeltaKeeps(o: Options, pieces: seq<ToolPiece>, s: State, m: Monitor, delta: Delta)
    requires Tracks(o, pieces, s, m)
    ensures TurnKeeps(o, pieces + if delta.tools.Tools? then delta.tools.pieces else [], m, TakeDelta(o, s, delta))
  {
    var fits, inv := AnyFits(), (s, m) => Tracks(o, pieces, s, m);
    var text := TakeText(s, delta.text);
    TextKeeps(o, pieces, s, m, delta.text);
    if !delta.replayMetadata {
      var reasoning := (s: State) => TakeReasoning(s, delta.reasoning);
      forall s, m | inv(s, m)
        ensures Keeps(fits, inv, m, reasoning(s))
      {
        TextKeeps(o, pieces, s, m, delta.reasoning);
      }
      ThenKeeps(fits, inv, m, text, reasoning);
      var before := Then(text, reasoning);
      if before.Continue? {
        var m' := After(fits, m, before.events);
        ToolsOfDelta(o, pieces, before.state, m', delta.tools);
        var added := if delta.tools.Tools? then delta.tools.pieces else [];
        KeepsAfter(fits, (s, m) => Tracks(o, pieces + added, s, m), m, before.events, TakeTools(o, before.state, delta.tools));
      }
    }
  }

  lemma ToolsOfDelta(o: Options, pieces: seq<ToolPiece>, s: State, m: Monitor, tools: ToolPieces)
    requires Tracks(o, pieces, s, m)
    ensures TurnKeeps(o, pieces + if tools.Tools? then tools.pieces else [], m, TakeTools(o, s, tools))
  {
    FewEvents(AnyFits(), m);
    if tools.Tools? {
      TakeToolsKeeps(o, pieces, s, m, tools.pieces);
    } else {
      assert pieces + [] == pieces;
    }
  }

  /** A frame other than the last one. */
  lemma StepKeeps(o: Options, abortedAtEnd: bool, pieces: seq<ToolPiece>, s: State, m: Monitor, f: Arrival)
    requires Tracks(o, pieces, s, m) && (f.frame.Done? ==> f.aborted)
    ensures TurnKeeps(o, pieces + PiecesIn(f), m, Step(o, abortedAtEnd, s, f))
  {
    FewEvents(AnyFits(), m);
    assert pieces + [] == pieces;
    if !f.aborted && f.frame.Chunk? {
      var s' := if f.frame.finishReason.Some? then s.(finishReason := f.frame.finishReason) else s;
      assert Tracks(o, pieces, s', m);
      if f.frame.delta.Some? {
        TakeDeltaKeeps(o, pieces, s', m, f.frame.delta.value);
      }
    }
  }

  /** All frames before the end. */
  function Body(o: Options, abortedAtEnd: bool, frames: seq<Arrival>): Turn<State> {
    Fold((s: State, f: Arrival) => Step(o, abortedAtEnd, s, f), INITIAL, BeforeDone(frames))
  }

  lemma AllPiecesSnoc(taken: seq<Arrival>, f: Arrival)
    ensures AllPieces(taken + [f]) == AllPieces(taken) + PiecesIn(f)
  {
    assert (taken + [f])[..|taken|] == taken;
  }

  lemma StepKeepsOnward(
    o: Options, abortedAtEnd: bool, all: seq<Arrival>, taken: seq<Arrival>, s: State, m: Monitor, f: Arrival)
    requires taken + [f] <= all && forall g <- all :: g.frame.Done? ==> g.aborted
    requires Tracks(o, AllPieces(taken), s, m)
    ensures TurnKeeps(o, AllPieces(taken + [f]), m, Step(o, abortedAtEnd, s, f))
  {
    assert all[|taken|] == (taken + [f])[|taken|] == f;
    AllPiecesSnoc(taken, f);
    StepKeeps(o, abortedAtEnd, AllPieces(taken), s, m, f);
  }

  lemma BeforeDoneGoesOn(frames: seq<Arrival>)
    ensures forall f <- BeforeDone(frames) :: f.frame.Done? ==> f.aborted
  {
    var done := (f: Arrival) => f.frame.Done? && !f.aborted;
    forall f | f in BeforeDone(frames)
      ensures f.frame.Done? ==> f.aborted
    {
      assert !done(f);
    }
  }

  lemma BodyKeeps(o: Options, abortedAtEnd: bool, frames: seq<Arrival>)
    ensures TurnKeeps(o, AllPieces(BeforeDone(frames)), QUIET, Body(o, abortedAtEnd, frames))
  {
    var all := BeforeDone(frames);
    BeforeDoneGoesOn(frames);
    var step := (s: State, f: Arrival) => Step(o, abortedAtEnd, s, f);
    var inv := (taken: seq<Arrival>, s: State, m: Monitor) => Tracks(o, AllPieces(taken), s, m);
    forall t, s, m, f | t + [f] <= all && inv(t, s, m)
      ensures KeepsOnward(AnyFits(), inv, t + [f], m, step(s, f))
    {
      StepKeepsOnward(o, abortedAtEnd, all, t, s, m, f);
    }
    FoldKeepsOnward(AnyFits(), inv, step, all, [], INITIAL, QUIET, all);
  }

  // ----- the end of a run -----

  ghost predicate ShapeKept(o: Options, pieces: seq<ToolPiece>, m: Monitor, turn: Turn<State>) {
    Keeps(AnyFits(), (s, m) => InShape(AgreesAt(o, pieces), s, m), m, turn)
  }

  lemma ShapeClosed(check: CallCheck, s: State, m: Monitor, index: nat, m': Monitor)
    requires InShape(check, s, m) && index in s.tools
    requires OnlySlot(m, m', s.tools[index].contentIndex)
    requires s.tools[index].contentIndex in m'.slots && m'.slots[s.tools[index].contentIndex] == ClosedCall
    requires IsOpen(m, s.tools[index].contentIndex, s.tools[index].id)
    requires forall k :: k in s.tools && k != index ==> check(k, s.tools[k], m')
    ensures InShape(check, s.(tools := s.tools - {index}), m')
  {
    var rest := s.tools - {index};
    forall i | i in m'.slots && m'.slots[i].OpenCall?
      ensures exists k :: k in rest && rest[k].contentIndex == i
    {
      var k :| k in s.tools && s.tools[k].contentIndex == i;
      assert k in rest;
    }
  }

  /** A finished call is forgotten, and its slot closed. */
  lemma CloseCall(o: Options, pieces: seq<ToolPiece>, s: State, m: Monitor, index: nat, m': Monitor)
    requires InShape(AgreesAt(o, pieces), s, m) && index in s.tools
    requires OnlySlot(m, m', s.tools[index].contentIndex)
    requires s.tools[index].contentIndex in m'.slots && m'.slots[s.tools[index].contentIndex] == ClosedCall
    requires IsOpen(m, s.tools[index].contentIndex, s.tools[index].id)
    ensures InShape(AgreesAt(o, pieces), s.(tools := s.tools - {index}), m')
  {
    forall k | k in s.tools && k != index
      ensures AgreesAt(o, pieces)(k, s.tools[k], m')
    {
      assert AgreesAt(o, pieces)(k, s.tools[k], m);
      StillAgrees(o, PiecesAt(pieces, k), s.tools[k], m, m', s.tools[index].contentIndex);
    }
    ShapeClosed(AgreesAt(o, pieces), s, m, index, m');
  }

  lemma FinishToolKeeps(o: Options, pieces: seq<ToolPiece>, s: State, m: Monitor, index: nat)
    requires InShape(AgreesAt(o, pieces), s, m)
    ensures ShapeKept(o, pieces, m, FinishTool(o, s, index))
    ensures FinishTool(o, s, index).Continue? ==> FinishTool(o, s, index).state.tools.Keys == s.tools.Keys - {index}
  {
    var turn := FinishTool(o, s, index);
    FewEvents(AnyFits(), m);
    if turn.Continue? && index in s.tools {
      assert AgreesAt(o, pieces)(index, s.tools[index], m);
      assert Allowed(AnyFits(), m, turn.events[0]);
      CloseCall(o, pieces, s, m, index, After(AnyFits(), m, turn.events));
    }
  }

  lemma FinishToolsTurn(o: Options, s: State, keys: set<nat>)
    requires keys != {}
    ensures var first, rest := FinishTool(o, s, Least(keys)), keys - {Least(keys)};
            FinishTools(o, s, Ascending(keys)) ==
            if first.Continue? then Preceded(first.events, FinishTools(o, first.state, Ascending(rest))) else first
  {
    var least := Least(keys);
    assert Ascending(keys)[0] == least && Ascending(keys)[1..] == Ascending(keys - {least});
  }

  lemma {:induction false} FinishingKeeps(
    o: Options, inv: (State, Monitor) -> bool, s: State, m: Monitor, keys: set<nat>)
    requires inv(s, m) && s.tools.Keys == keys
    requires forall s, m, k :: inv(s, m) && k in s.tools ==> Keeps(AnyFits(), inv, m, FinishTool(o, s, k))
    ensures var turn := FinishTools(o, s, Ascending(keys));
            Keeps(AnyFits(), inv, m, turn) && (turn.Continue? ==> turn.state.tools == map[])
    decreases |keys|
  {
    FewEvents(AnyFits(), m);
    if keys != {} {
      var least := Least(keys);
      var first, rest := FinishTool(o, s, least), keys - {least};
      FinishToolsTurn(o, s, keys);
      if first.Continue? {
        FinishingKeeps(o, inv, first.state, After(AnyFits(), m, first.events), rest);
        KeepsAfter(AnyFits(), inv, m, first.events, FinishTools(o, first.state, Ascending(rest)));
      }
    } else {
      assert s.tools == map[];
    }
  }

  lemma FinishToolsKeeps(o: Options, pieces: seq<ToolPiece>, s: State, m: Monitor, keys: set<nat>)
    requires InShape(AgreesAt(o, pieces), s, m) && s.tools.Keys == keys
    ensures var turn := FinishTools(o, s, Ascending(keys));
            && ShapeKept(o, pieces, m, turn)
            && (turn.Continue? ==> turn.state.tools == map[])
  {
    var inv := (s, m) => InShape(AgreesAt(o, pieces), s, m);
    forall s, m, k | inv(s, m) && k in s.tools
      ensures Keeps(AnyFits(), inv, m, FinishTool(o, s, k))
    {
      FinishToolKeeps(o, pieces, s, m, k);
    }
    FinishingKeeps(o, inv, s, m, keys);
  }

  /** With no call open any terminal event may come. */
  lemma EndKeeps(o: Options, pieces: seq<ToolPiece>, m: Monitor, calls: Turn<State>, terminal: Event)
    requires ShapeKept(o, pieces, m, calls) && calls.Continue? && calls.state.tools == map[] && Terminal(terminal)
    ensures Legal(AnyFits(), m, calls.events + [terminal])
  {
    LegalSnoc(AnyFits(), m, calls.events, terminal);
  }

  lemma CallsAndEndKeep(o: Options, pieces: seq<ToolPiece>, s: State, m: Monitor, terminal: Event)
    requires InShape(AgreesAt(o, pieces), s, m) && Terminal(terminal)
    ensures var calls := FinishTools(o, s, Ascending(s.tools.Keys));
            Legal(AnyFits(), m, calls.events) && (calls.Continue? ==> Legal(AnyFits(), m, calls.events + [terminal]))
  {
    FinishToolsKeeps(o, pieces, s, m, s.tools.Keys);
    var calls := FinishTools(o, s, Ascending(s.tools.Keys));
    if calls.Continue? {
      EndKeeps(o, pieces, m, calls, terminal);
    }
  }

  lemma FinishKeeps(o: Options, pieces: seq<ToolPiece>, s: State, m: Monitor, aborted: bool)
    requires InShape(AgreesAt(o, pieces), s, m)
    ensures Legal(AnyFits(), m, Finish(o, s, aborted).events)
  {
    if aborted || s.finishReason.None? {
      FewEvents(AnyFits(), m);
    } else {
      CallsAndEndKeep(o, pieces, s, m, TerminalFor(s, s.tools != map[]));
    }
  }

  /** The end of a run returns or throws. */
  lemma FinishEnds(o: Options, s: State, aborted: bool)
    ensures !Finish(o, s, aborted).Continue?
  {
  }

  /** The whole decoder takes the frames before the end, and finishes there. */
  lemma DecodeIsBody(o: Options, abortedAtEnd: bool, s: State, frames: seq<Arrival>)
    ensures var step := (s: State, f: Arrival) => Step(o, abortedAtEnd, s, f);
            Decode(o, s, frames, abortedAtEnd) ==
            Then(Fold(step, s, BeforeDone(frames)), s => Finish(o, s, abortedAtEnd))
  {
    forall s: State
      ensures !Finish(o, s, abortedAtEnd).Continue?
    {
      FinishEnds(o, s, abortedAtEnd);
    }
    FoldUntil((s: State, f: Arrival) => Step(o, abortedAtEnd, s, f), (s: State) => Finish(o, s, abortedAtEnd),
      (f: Arrival) => f.frame.Done? && !f.aborted, s, frames);
  }

  /** Every run is well-formed in its shape, whatever frames arrive. */
  lemma RunsAreShaped(o: Options, frames: seq<Arrival>, abortedAtEnd: bool)
    ensures Legal(AnyFits(), QUIET, Decode(o, INITIAL, frames, abortedAtEnd).events)
  {
    var body := Body(o, abortedAtEnd, frames);
    BodyKeeps(o, abortedAtEnd, frames);
    DecodeIsBody(o, abortedAtEnd, INITIAL, frames);
    if body.Continue? {
      FinishKeeps(o, AllPieces(BeforeDone(frames)), body.state, After(AnyFits(), QUIET, body.events), abortedAtEnd);
      LegalConcat(AnyFits(), QUIET, body.events, Finish(o, body.state, abortedAtEnd).events);
    }
  }
}
