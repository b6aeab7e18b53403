/**
 * When the inputs of an OpenAI Chat run are what its deltas spell: exactly when every call
 * it finishes is coherent. The calls come out in the order of their indexes.
 */
module ChatExactness {
  import opened Wrappers
  import opened JsonValues
  import opened StreamEvents
  import opened StreamRuns
  import opened CallRuns
  import opened IndexOrder
  import opened ChatStream
  import opened ChatCalls
  import opened ChatTheorems

  // ----- the calls a run finishes -----

  predicate Finishable(o: Options, acc: Accumulator) {
    acc.started && InputOf(o, acc).Some?
  }

  function CallEvent(o: Options, acc: Accumulator): Event
    requires Finishable(o, acc)
  {
    ToolCall(acc.contentIndex, acc.id, o.toolName(acc.name), InputOf(o, acc).value)
  }

  /** The calls before the first that cannot be finished. */
  function FinishedOf(o: Options, accs: seq<Accumulator>): (finished: seq<Accumulator>)
    ensures finished <= accs && forall acc <- finished :: Finishable(o, acc)
  {
    if accs == [] || !Finishable(o, accs[0]) then [] else [accs[0]] + FinishedOf(o, accs[1..])
  }

  function CallEvents(o: Options, accs: seq<Accumulator>): seq<Event>
    requires forall acc <- accs :: Finishable(o, acc)
  {
    seq(|accs|, i requires 0 <= i < |accs| => CallEvent(o, accs[i]))
  }

  function CallsAt(tools: map<nat, Accumulator>, order: seq<nat>): seq<Accumulator>
    requires forall k <- order :: k in tools
  {
    seq(|order|, i requires 0 <= i < |order| => tools[order[i]])
  }

  lemma CallEventsOf(o: Options, first: Accumulator, rest: seq<Accumulator>)
    requires Finishable(o, first) && forall acc <- rest :: Finishable(o, acc)
    ensures CallEvents(o, [first] + rest) == [CallEvent(o, first)] + CallEvents(o, rest)
  {
  }

  /** A call that is finished leaves the calls after it as they were. */
  lemma FinishOne(o: Options, s: State, order: seq<nat>)
    requires order != [] && forall k <- order :: k in s.tools
    requires forall i, j :: 0 <= i < j < |order| ==> order[i] != order[j]
    ensures var first := FinishTool(o, s, order[0]);
            && (first.Continue? <==> Finishable(o, s.tools[order[0]])) && !first.Return?
            && (first.Throw? ==> first.events == [])
            && (first.Continue? ==>
                  && first.events == [CallEvent(o, s.tools[order[0]])]
                  && (forall k <- order[1..] :: k in first.state.tools)
                  && CallsAt(first.state.tools, order[1..]) == CallsAt(s.tools, order)[1..])
  {
  }

  lemma {:induction false} FinishToolsYield(o: Options, s: State, order: seq<nat>)
    requires (forall k <- order :: k in s.tools) && forall i, j :: 0 <= i < j < |order| ==> order[i] != order[j]
    ensures FinishTools(o, s, order).events == CallEvents(o, FinishedOf(o, CallsAt(s.tools, order)))
    ensures FinishTools(o, s, order).Continue? <==> FinishedOf(o, CallsAt(s.tools, order)) == CallsAt(s.tools, order)
    ensures !FinishTools(o, s, order).Return?
    decreases |order|
  {
    if order != [] {
      var first, accs := FinishTool(o, s, order[0]), CallsAt(s.tools, order);
      FinishOne(o, s, order);
      if first.Continue? {
        FinishToolsYield(o, first.state, order[1..]);
        CallEventsOf(o, accs[0], FinishedOf(o, accs[1..]));
        assert accs == [accs[0]] + accs[1..];
      }
    }
  }

  /** The calls of a run as they are when it ends; none if it ends before. */
  function ToolsAt(o: Options, abortedAtEnd: bool, frames: seq<Arrival>): map<nat, Accumulator> {
    var body := Body(o, abortedAtEnd, frames);
    if body.Continue? then body.state.tools else map[]
  }

  function InOrder(tools: map<nat, Accumulator>): seq<Accumulator> {
    AscendingIn(tools.Keys);
    CallsAt(tools, Ascending(tools.Keys))
  }

  /** The calls a run finishes: in order, up to the first that cannot be. */
  function RunCalls(o: Options, abortedAtEnd: bool, frames: seq<Arrival>): (calls: seq<Accumulator>)
    ensures forall acc <- calls :: Finishable(o, acc)
    ensures calls <= InOrder(ToolsAt(o, abortedAtEnd, frames))
  {
    var body := Body(o, abortedAtEnd, frames);
    if body.Continue? && !abortedAtEnd && body.state.finishReason.Some? then
      FinishedOf(o, InOrder(ToolsAt(o, abortedAtEnd, frames)))
    else []
  }

  /** What follows the calls: at most one event, which is no call. */
  lemma FinishCalls(o: Options, s: State)
    requires s.finishReason.Some?
    ensures var calls := CallEvents(o, FinishedOf(o, InOrder(s.tools)));
            Finish(o, s, false).events == calls ||
            (Finish(o, s, false).events == calls + [TerminalFor(s, s.tools != map[])]
             && FinishedOf(o, InOrder(s.tools)) == InOrder(s.tools))
  {
    AscendingIn(s.tools.Keys);
    FinishToolsYield(o, s, Ascending(s.tools.Keys));
  }

  /** The events at the end of a run: its calls, and at most one event after them that is none. */
  lemma FinishYields(o: Options, abortedAtEnd: bool, frames: seq<Arrival>) returns (end: seq<Event>)
    requires Body(o, abortedAtEnd, frames).Continue?
    ensures Finish(o, Body(o, abortedAtEnd, frames).state, abortedAtEnd).events ==
            CallEvents(o, RunCalls(o, abortedAtEnd, frames)) + end
    ensures forall e <- end :: !IsCall(e)
    ensures (exists e <- end :: e.Completed?) ==> RunCalls(o, abortedAtEnd, frames) == InOrder(ToolsAt(o, abortedAtEnd, frames))
  {
    var s := Body(o, abortedAtEnd, frames).state;
    var finish, calls := Finish(o, s, abortedAtEnd).events, CallEvents(o, RunCalls(o, abortedAtEnd, frames));
    if abortedAtEnd || s.finishReason.None? {
      end := finish;
      assert calls + end == end;
    } else {
      FinishCalls(o, s);
      end := if finish == calls then [] else [TerminalFor(s, s.tools != map[])];
      assert calls + [] == calls;
    }
  }

  // ----- nothing is finished before the end -----

  lemma StepYieldsNoCall(o: Options, abortedAtEnd: bool, s: State, f: Arrival)
    requires f.frame.Done? ==> f.aborted
    ensures forall e <- Step(o, abortedAtEnd, s, f).events :: Early(e)
  {
    if !f.aborted && f.frame.Chunk? && f.frame.delta.Some? {
      var s' := if f.frame.finishReason.Some? then s.(finishReason := f.frame.finishReason) else s;
      DeltaYieldsNoCall(o, s', f.frame.delta.value);
    }
  }

  lemma ToolsYieldNoCall(o: Options, s: State, tools: ToolPieces)
    ensures AllEarly(TakeTools(o, s, tools).events)
  {
    if tools.Tools? {
      FoldYields(e => Early(e), (s: State, piece: ToolPiece) => TakeTool(o, s, piece), s, tools.pieces);
    }
  }

  lemma TextYieldsNoCall(s: State, text: string)
    ensures AllEarly(TakeText(s, text).events) && AllEarly(TakeReasoning(s, text).events)
  {
  }

  lemma ThenYieldsNoCall(turn: Turn<State>, next: State -> Turn<State>)
    requires AllEarly(turn.events) && (turn.Continue? ==> AllEarly(next(turn.state).events))
    ensures AllEarly(Then(turn, next).events)
  {
  }

  lemma DeltaYieldsNoCall(o: Options, s: State, delta: Delta)
    ensures AllEarly(TakeDelta(o, s, delta).events)
  {
    var text, reasoning := TakeText(s, delta.text), (s: State) => TakeReasoning(s, delta.reasoning);
    TextYieldsNoCall(s, delta.text);
    if !delta.replayMetadata {
      if text.Continue? {
        TextYieldsNoCall(text.state, delta.reasoning);
      }
      ThenYieldsNoCall(text, reasoning);
      var before := Then(text, reasoning);
      if before.Continue? {
        ToolsYieldNoCall(o, before.state, delta.tools);
      }
      ThenYieldsNoCall(before, (s: State) => TakeTools(o, s, delta.tools));
    }
  }

  lemma BodyYieldsNoCall(o: Options, abortedAtEnd: bool, frames: seq<Arrival>)
    ensures forall e <- Body(o, abortedAtEnd, frames).events :: Early(e)
  {
    var step := (s: State, f: Arrival) => Step(o, abortedAtEnd, s, f);
    BeforeDoneGoesOn(frames);
    forall s, f, e | f in BeforeDone(frames) && e in step(s, f).events
      ensures Early(e)
    {
      StepYieldsNoCall(o, abortedAtEnd, s, f);
    }
    FoldYields(e => Early(e), step, INITIAL, BeforeDone(frames));
  }

  // ----- the order of calls -----

  /** The shape of a run: what comes before, the calls, what comes after. */
  lemma RunSplits(o: Options, frames: seq<Arrival>, abortedAtEnd: bool) returns (end: seq<Event>)
    ensures Decode(o, INITIAL, frames, abortedAtEnd).events ==
            Body(o, abortedAtEnd, frames).events + CallEvents(o, RunCalls(o, abortedAtEnd, frames)) + end
    ensures forall e <- Body(o, abortedAtEnd, frames).events :: Early(e)
    ensures forall e <- end :: !IsCall(e)
    ensures (exists e <- end :: e.Completed?) ==> RunCalls(o, abortedAtEnd, frames) == InOrder(ToolsAt(o, abortedAtEnd, frames))
  {
    var body := Body(o, abortedAtEnd, frames);
    DecodeIsBody(o, abortedAtEnd, INITIAL, frames);
    BodyYieldsNoCall(o, abortedAtEnd, frames);
    if body.Continue? {
      end := FinishYields(o, abortedAtEnd, frames);
      assert body.events + (CallEvents(o, RunCalls(o, abortedAtEnd, frames)) + end) ==
             body.events + CallEvents(o, RunCalls(o, abortedAtEnd, frames)) + end;
    } else {
      end := [];
      assert body.events + CallEvents(o, []) + end == body.events;
    }
  }

  lemma CallsOfRun(o: Options, frames: seq<Arrival>, abortedAtEnd: bool)
    ensures CallsIn(Decode(o, INITIAL, frames, abortedAtEnd).events) == CallEvents(o, RunCalls(o, abortedAtEnd, frames))
  {
    var end := RunSplits(o, frames, abortedAtEnd);
    OnlyCallsBetween(Body(o, abortedAtEnd, frames).events, CallEvents(o, RunCalls(o, abortedAtEnd, frames)), end);
  }

  /** A run that is completed has finished all its calls. */
  lemma CompletedFinishesAll(o: Options, frames: seq<Arrival>, abortedAtEnd: bool)
    requires var events := Decode(o, INITIAL, frames, abortedAtEnd).events;
             events != [] && events[|events| - 1].Completed?
    ensures RunCalls(o, abortedAtEnd, frames) == InOrder(ToolsAt(o, abortedAtEnd, frames))
  {
    var end := RunSplits(o, frames, abortedAtEnd);
    LastIsIn(Body(o, abortedAtEnd, frames).events, CallEvents(o, RunCalls(o, abortedAtEnd, frames)), end);
  }

  /** A call that got a piece is known when the frames are over. */
  lemma PiecesAreKnown(o: Options, frames: seq<Arrival>, abortedAtEnd: bool)
    requires Body(o, abortedAtEnd, frames).Continue?
    ensures forall k: nat :: PiecesOf(frames, k) != [] ==> k in ToolsAt(o, abortedAtEnd, frames)
  {
    BodyKeeps(o, abortedAtEnd, frames);
  }

  lemma AllInOrder(o: Options, frames: seq<Arrival>, abortedAtEnd: bool, order: seq<nat>)
    requires var keys := ToolsAt(o, abortedAtEnd, frames).Keys;
             |RunCalls(o, abortedAtEnd, frames)| == |order| && order <= Ascending(keys)
    ensures var events := Decode(o, INITIAL, frames, abortedAtEnd).events;
            events != [] && events[|events| - 1].Completed? ==> forall k: nat :: PiecesOf(frames, k) != [] ==> k in order
  {
    var events, keys := Decode(o, INITIAL, frames, abortedAtEnd).events, ToolsAt(o, abortedAtEnd, frames).Keys;
    if events != [] && events[|events| - 1].Completed? {
      CompletedFinishesAll(o, frames, abortedAtEnd);
      CompletedGoesOn(o, frames, abortedAtEnd);
      PiecesAreKnown(o, frames, abortedAtEnd);
      AscendingOrder(keys);
      assert order == Ascending(keys);
    }
  }

  lemma CompletedGoesOn(o: Options, frames: seq<Arrival>, abortedAtEnd: bool)
    requires var events := Decode(o, INITIAL, frames, abortedAtEnd).events;
             events != [] && events[|events| - 1].Completed?
    ensures Body(o, abortedAtEnd, frames).Continue?
  {
    DecodeIsBody(o, abortedAtEnd, INITIAL, frames);
    BodyYieldsNoCall(o, abortedAtEnd, frames);
    var before := Body(o, abortedAtEnd, frames).events;
    assert before != [] ==> before[|before| - 1] in before;
  }

  /**
   * The calls of a run are finished in increasing order of their indexes, each once: the
   * events that finish calls are those of a first part of all its calls in that order. A run
   * that is completed finishes every call it got a piece for.
   */
  lemma CallsComeInOrder(o: Options, frames: seq<Arrival>, abortedAtEnd: bool) returns (order: seq<nat>)
    ensures var tools := ToolsAt(o, abortedAtEnd, frames);
            && (forall i, j :: 0 <= i < j < |order| ==> order[i] < order[j])
            && (forall k <- order :: k in tools && Finishable(o, tools[k]))
            && (forall k, j :: k in tools && j in order && k < j ==> k in order)
            && var events := Decode(o, INITIAL, frames, abortedAtEnd).events;
               && CallsIn(events) == CallEvents(o, CallsAt(tools, order))
               && (events != [] && events[|events| - 1].Completed? ==>
                     forall k: nat :: PiecesOf(frames, k) != [] ==> k in order)
  {
    var tools, calls := ToolsAt(o, abortedAtEnd, frames), RunCalls(o, abortedAtEnd, frames);
    FirstPart(tools.Keys, |calls|);
    CallsOfRun(o, frames, abortedAtEnd);
    order := Ascending(tools.Keys)[..|calls|];
    assert CallsAt(tools, order) == calls;
    forall k <- order
      ensures Finishable(o, tools[k])
    {
      var i :| 0 <= i < |order| && order[i] == k;
      assert calls[i] == tools[k];
    }
    AllInOrder(o, frames, abortedAtEnd, order);
  }

  // ----- exact inputs -----

  /**
   * The input of a call, read off its pieces: under the name they give it, the object its
   * deltas parse to, or, when they give it raw input, the object whose only property is the
   * one its tool's grammar names, with the text its deltas spell.
   */
  ghost predicate FormFits(o: Options, own: seq<ToolPiece>, name: string, text: string, input: Json)
    requires AreOf(own)
  {
    && name == o.toolName(NameOf(own))
    && if IsCustom(own) then
         && o.grammar(NameOf(own)).Some?
         && input == Object(map[o.grammar(NameOf(own)).value := Plain(String(text))])
       else ReadArguments(o.parse, text) == Some(input)
  }

  /** The content index belongs to the call at `index`. */
  ghost predicate Owns(o: Options, abortedAtEnd: bool, frames: seq<Arrival>, index: nat, contentIndex: nat) {
    var tools := ToolsAt(o, abortedAtEnd, frames);
    index in tools && tools[index].contentIndex == contentIndex
  }

  /** The input of a call is what its deltas spell, in the form its pieces give it. */
  ghost function ExactCallFits(o: Options, abortedAtEnd: bool, frames: seq<Arrival>): Fits {
    (i: nat, name: string, text: string, input: Json) =>
      exists index: nat ::
        Owns(o, abortedAtEnd, frames, index, i) && FormFits(o, PiecesOf(frames, index), name, text, input)
  }

  /** The run finishes the call at a content index. */
  ghost predicate Finishes(events: seq<Event>, contentIndex: nat) {
    exists e <- events :: e.ToolCall? && e.contentIndex == contentIndex
  }

  /** Every call that the run finishes is coherent. */
  ghost predicate AllCoherent(o: Options, abortedAtEnd: bool, frames: seq<Arrival>) {
    var tools, events := ToolsAt(o, abortedAtEnd, frames), Decode(o, INITIAL, frames, abortedAtEnd).events;
    forall k: nat :: k in tools && Finishes(events, tools[k].contentIndex) ==> Coherent(PiecesOf(frames, k))
  }

  /** A finished call fits its form if and only if its pieces are coherent. */
  lemma FormFitsIff(o: Options, contentIndex: nat, own: seq<ToolPiece>)
    requires AreOf(own) && Finishable(o, Grow(o, contentIndex, own).0)
    ensures var (acc, spelled) := Grow(o, contentIndex, own);
            FormFits(o, own, o.toolName(acc.name), spelled, InputOf(o, acc).value) <==> Coherent(own)
  {
    var (acc, spelled) := Grow(o, contentIndex, own);
    FieldsReadOff(o, contentIndex, own);
    SpellsTextIff(o, contentIndex, own);
    if IsCustom(own) {
      var property := o.grammar(acc.name).value;
      var a, b := map[property := Plain(String(spelled))], map[property := Plain(String(acc.customInput))];
      assert InputOf(o, acc) == Some(Object(b));
      assert a == b ==> a[property] == b[property];
    }
  }

  /** What a call of the run is, and what has been spelled of it when the frames are over. */
  lemma CallAtEnd(o: Options, abortedAtEnd: bool, frames: seq<Arrival>, index: nat)
    requires index in ToolsAt(o, abortedAtEnd, frames) && ToolsAt(o, abortedAtEnd, frames)[index].started
    ensures var acc := ToolsAt(o, abortedAtEnd, frames)[index];
            Grow(o, acc.contentIndex, PiecesOf(frames, index)) ==
            (acc, Spelled(Body(o, abortedAtEnd, frames).events, acc.contentIndex))
    ensures forall k: nat :: Owns(o, abortedAtEnd, frames, k, ToolsAt(o, abortedAtEnd, frames)[index].contentIndex) ==> k == index
  {
    var body, pieces := Body(o, abortedAtEnd, frames), AllPieces(BeforeDone(frames));
    BodyKeeps(o, abortedAtEnd, frames);
    var m, acc := After(AnyFits(), QUIET, body.events), body.state.tools[index];
    assert InShape(AgreesAt(o, pieces), body.state, m);
    assert AgreesAt(o, pieces)(index, acc, m);
    TextIsSpelled(AnyFits(), QUIET, body.events, acc.contentIndex);
    assert "" + Spelled(body.events, acc.contentIndex) == Spelled(body.events, acc.contentIndex);
  }

  lemma IndexOfCall(tools: map<nat, Accumulator>, calls: seq<Accumulator>, p: nat) returns (index: nat)
    requires calls <= InOrder(tools) && p < |calls|
    ensures index in tools && tools[index] == calls[p]
  {
    AscendingIn(tools.Keys);
    index := Ascending(tools.Keys)[p];
    assert InOrder(tools)[p] == calls[p];
  }

  /** The `p`th call of a run: its event, and what is spelled before it. */
  lemma CallInRun(o: Options, abortedAtEnd: bool, frames: seq<Arrival>, p: nat) returns (index: nat)
    requires p < |RunCalls(o, abortedAtEnd, frames)|
    ensures var tools, acc := ToolsAt(o, abortedAtEnd, frames), RunCalls(o, abortedAtEnd, frames)[p];
            var events, before := Decode(o, INITIAL, frames, abortedAtEnd).events, Body(o, abortedAtEnd, frames).events;
            && index in tools && tools[index] == acc && Finishable(o, acc)
            && |before| + p < |events| && events[|before| + p] == CallEvent(o, acc)
            && Spelled(events[..|before| + p], acc.contentIndex) == Spelled(before, acc.contentIndex)
  {
    var calls := RunCalls(o, abortedAtEnd, frames);
    var before, yielded := Body(o, abortedAtEnd, frames).events, CallEvents(o, calls);
    index := IndexOfCall(ToolsAt(o, abortedAtEnd, frames), calls, p);
    var end := RunSplits(o, frames, abortedAtEnd);
    assert calls[p] in calls;
    NoCallIsADelta(before, yielded, end, p, calls[p].contentIndex);
  }

  /** If the call at `index` can be finished, it fits what is spelled of it exactly when that is coherent. */
  ghost predicate FitsOwn(
    o: Options, fits: Fits, before: seq<Event>, tools: map<nat, Accumulator>, coherent: nat -> bool, index: nat)
  {
    index in tools && Finishable(o, tools[index]) ==>
      var acc := tools[index];
      fits(acc.contentIndex, o.toolName(acc.name), Spelled(before, acc.contentIndex), InputOf(o, acc).value) <==>
      coherent(index)
  }

  ghost predicate AllFitOwn(o: Options, abortedAtEnd: bool, frames: seq<Arrival>, fits: Fits, coherent: nat -> bool) {
    var before, tools := Body(o, abortedAtEnd, frames).events, ToolsAt(o, abortedAtEnd, frames);
    forall k: nat :: FitsOwn(o, fits, before, tools, coherent, k)
  }

  ghost function CoherentAt(frames: seq<Arrival>): nat -> bool {
    (k: nat) => Coherent(PiecesOf(frames, k))
  }

  lemma ExactFitsOwn(o: Options, abortedAtEnd: bool, frames: seq<Arrival>, index: nat)
    ensures FitsOwn(o, ExactCallFits(o, abortedAtEnd, frames), Body(o, abortedAtEnd, frames).events,
                    ToolsAt(o, abortedAtEnd, frames), CoherentAt(frames), index)
  {
    var tools := ToolsAt(o, abortedAtEnd, frames);
    if index in tools && Finishable(o, tools[index]) {
      var acc := tools[index];
      CallAtEnd(o, abortedAtEnd, frames, index);
      FormFitsIff(o, acc.contentIndex, PiecesOf(frames, index));
      assert Owns(o, abortedAtEnd, frames, index, acc.contentIndex);
    }
  }

  lemma ExactFitsAllOwn(o: Options, abortedAtEnd: bool, frames: seq<Arrival>)
    ensures AllFitOwn(o, abortedAtEnd, frames, ExactCallFits(o, abortedAtEnd, frames), CoherentAt(frames))
  {
    forall k: nat
      ensures FitsOwn(o, ExactCallFits(o, abortedAtEnd, frames), Body(o, abortedAtEnd, frames).events,
                      ToolsAt(o, abortedAtEnd, frames), CoherentAt(frames), k)
    {
      ExactFitsOwn(o, abortedAtEnd, frames, k);
    }
  }

  /** A call of the run, with the index it belongs to, fits if and only if that is coherent. */
  ghost predicate FitsIff(
    fits: Fits, events: seq<Event>, tools: map<nat, Accumulator>, coherent: nat -> bool, j: nat, k: nat)
    requires j < |events|
  {
    && events[j].ToolCall? && k in tools && tools[k].contentIndex == events[j].contentIndex
    && (FitsAt(fits, events, j) <==> coherent(k))
  }

  lemma OwnFitsAt(
    o: Options, fits: Fits, before: seq<Event>, events: seq<Event>, tools: map<nat, Accumulator>, coherent: nat -> bool,
    j: nat, k: nat)
    requires k in tools && Finishable(o, tools[k]) && FitsOwn(o, fits, before, tools, coherent, k)
    requires j < |events| && events[j] == CallEvent(o, tools[k])
    requires Spelled(events[..j], tools[k].contentIndex) == Spelled(before, tools[k].contentIndex)
    ensures FitsIff(fits, events, tools, coherent, j, k)
  {
  }

  lemma CallFitsIff(o: Options, abortedAtEnd: bool, frames: seq<Arrival>, j: nat, fits: Fits, coherent: nat -> bool)
    returns (k: nat)
    requires var events := Decode(o, INITIAL, frames, abortedAtEnd).events; j < |events| && IsCall(events[j])
    requires AllFitOwn(o, abortedAtEnd, frames, fits, coherent)
    ensures FitsIff(fits, Decode(o, INITIAL, frames, abortedAtEnd).events, ToolsAt(o, abortedAtEnd, frames), coherent, j, k)
  {
    var before := Body(o, abortedAtEnd, frames).events;
    var end := RunSplits(o, frames, abortedAtEnd);
    CallIsAmong(before, CallEvents(o, RunCalls(o, abortedAtEnd, frames)), end, j);
    k := CallInRun(o, abortedAtEnd, frames, j - |before|);
    assert FitsOwn(o, fits, before, ToolsAt(o, abortedAtEnd, frames), coherent, k);
    OwnFitsAt(o, fits, before, Decode(o, INITIAL, frames, abortedAtEnd).events, ToolsAt(o, abortedAtEnd, frames), coherent, j, k);
  }

  lemma AllFitIff(fits: Fits, events: seq<Event>, tools: map<nat, Accumulator>, coherent: nat -> bool)
    requires forall a, b :: a in tools && b in tools && tools[a].contentIndex == tools[b].contentIndex ==> a == b
    requires forall j :: 0 <= j < |events| && events[j].ToolCall? ==>
               exists k: nat :: FitsIff(fits, events, tools, coherent, j, k)
    ensures (forall j :: 0 <= j < |events| ==> FitsAt(fits, events, j)) <==>
            (forall k: nat :: k in tools && Finishes(events, tools[k].contentIndex) ==> coherent(k))
  {
    if forall j :: 0 <= j < |events| ==> FitsAt(fits, events, j) {
      forall k: nat | k in tools && Finishes(events, tools[k].contentIndex)
        ensures coherent(k)
      {
        var e :| e in events && e.ToolCall? && e.contentIndex == tools[k].contentIndex;
        var j :| 0 <= j < |events| && events[j] == e;
        var owner: nat :| FitsIff(fits, events, tools, coherent, j, owner);
        assert FitsAt(fits, events, j);
      }
    }
    if forall k: nat :: k in tools && Finishes(events, tools[k].contentIndex) ==> coherent(k) {
      forall j | 0 <= j < |events|
        ensures FitsAt(fits, events, j)
      {
        if events[j].ToolCall? {
          var owner: nat :| FitsIff(fits, events, tools, coherent, j, owner);
          assert events[j] in events;
        }
      }
    }
  }

  lemma OneOwner(o: Options, abortedAtEnd: bool, frames: seq<Arrival>)
    ensures var tools := ToolsAt(o, abortedAtEnd, frames);
            forall a, b :: a in tools && b in tools && tools[a].contentIndex == tools[b].contentIndex ==> a == b
  {
    BodyKeeps(o, abortedAtEnd, frames);
  }

  lemma LegalIffCoherent(o: Options, frames: seq<Arrival>, abortedAtEnd: bool, fits: Fits, coherent: nat -> bool)
    requires AllFitOwn(o, abortedAtEnd, frames, fits, coherent)
    ensures var tools, events := ToolsAt(o, abortedAtEnd, frames), Decode(o, INITIAL, frames, abortedAtEnd).events;
            Legal(fits, QUIET, events) <==>
            forall k: nat :: k in tools && Finishes(events, tools[k].contentIndex) ==> coherent(k)
  {
    var tools, events := ToolsAt(o, abortedAtEnd, frames), Decode(o, INITIAL, frames, abortedAtEnd).events;
    RunsAreShaped(o, frames, abortedAtEnd);
    LegalIffFits(fits, events);
    OneOwner(o, abortedAtEnd, frames);
    forall j | 0 <= j < |events| && IsCall(events[j])
      ensures exists k: nat :: FitsIff(fits, events, tools, coherent, j, k)
    {
      var k := CallFitsIff(o, abortedAtEnd, frames, j, fits, coherent);
    }
    AllFitIff(fits, events, tools, coherent);
  }

  /**
   * The inputs of a run are what its deltas spell, in the form of each call and under the
   * property its grammar names, if and only if every call it finishes is coherent: the
   * arguments emitted before its first raw input, if it gets any, are a start of that input.
   */
  lemma ExactIff(o: Options, frames: seq<Arrival>, abortedAtEnd: bool)
    ensures Legal(ExactCallFits(o, abortedAtEnd, frames), QUIET, Decode(o, INITIAL, frames, abortedAtEnd).events) <==>
            AllCoherent(o, abortedAtEnd, frames)
  {
    ExactFitsAllOwn(o, abortedAtEnd, frames);
    LegalIffCoherent(o, frames, abortedAtEnd, ExactCallFits(o, abortedAtEnd, frames), CoherentAt(frames));
  }

  // ----- a run that is not exact -----

  function OnePiece(reason: Option<string>, piece: ToolPiece): Arrival {
    Arrival(Chunk(reason, Some(Delta("", false, "", Tools([piece])))), false)
  }

  /** Arguments first, raw input later. */
  const TURNED := [ToolPiece(0, "a", "b", "{}", "", None), ToolPiece(0, "", "", "", "", Some("x"))]

  const TURNED_FRAMES := [OnePiece(None, TURNED[0]), OnePiece(Some("tool_calls"), TURNED[1])]

  lemma FoldOne<S, F>(step: (S, F) -> Turn<S>, s: S, item: F)
    ensures Fold(step, s, [item]) == step(s, item)
  {
    var first := step(s, item);
    assert [item][1..] == [];
    assert first.events + [] == first.events;
  }

  lemma OnePieceStep(o: Options, s: State, reason: Option<string>, piece: ToolPiece)
    ensures Step(o, false, s, OnePiece(reason, piece)) ==
            TakeTool(o, if reason.Some? then s.(finishReason := reason) else s, piece)
  {
    var s' := if reason.Some? then s.(finishReason := reason) else s;
    FoldOne((s: State, piece: ToolPiece) => TakeTool(o, s, piece), s', piece);
    PrecededByNothing(Then(TakeText(s', ""), (s: State) => TakeReasoning(s, "")));
    PrecededByNothing(TakeTool(o, s', piece));
  }

  const FIRST := Accumulator(0, "a", "b", "{}", "", false, true, 2)
  const SECOND := FIRST.(customInput := "x", custom := true)

  /** The call is started by its first piece, and turned custom by its second. */
  lemma TurnedPieces(o: Options)
    ensures TakeTool(o, INITIAL, TURNED[0]) ==
            Continue(INITIAL.(tools := map[0 := FIRST], nextContentIndex := 1, emittedContent := true),
                     [ToolCallStart(0, "a", o.toolName("b")), ToolCallDelta(0, "a", "{}")])
    ensures forall s: State :: s.tools == map[0 := FIRST] ==>
              TakeTool(o, s, TURNED[1]) == Continue(s.(tools := map[0 := SECOND]), [])
  {
    var acc := Add(NewCall(0), TURNED[0]);
    assert acc.arguments == "{}" && acc.customInput == "";
    assert Unsent(acc) == "{}";
    assert [ToolCallStart(0, "a", o.toolName("b"))] + [ToolCallDelta(0, "a", "{}")] ==
           [ToolCallStart(0, "a", o.toolName("b")), ToolCallDelta(0, "a", "{}")];
    assert Emit(o, acc) == (FIRST, [ToolCallStart(0, "a", o.toolName("b")), ToolCallDelta(0, "a", "{}")]);
    var acc' := Add(FIRST, TURNED[1]);
    assert acc'.arguments == "{}" && acc'.customInput == "x";
    assert Emit(o, acc') == (SECOND, []);
    forall s: State | s.tools == map[0 := FIRST]
      ensures TakeTool(o, s, TURNED[1]) == Continue(s.(tools := map[0 := SECOND]), [])
    {
      assert s.tools[0 := SECOND] == map[0 := SECOND];
    }
  }

  lemma TwoFrames(step: (State, Arrival) -> Turn<State>, s: State, f: Arrival, g: Arrival)
    requires step(s, f).Continue? && !f.frame.Done? && !g.frame.Done?
    ensures Fold(step, s, BeforeDone([f, g])) == Preceded(step(s, f).events, step(step(s, f).state, g))
  {
    FoldOne(step, step(s, f).state, g);
    assert [f, g][1..] == [g] && [g][1..] == [];
    assert BeforeDone([g]) == [g];
    assert BeforeDone([f, g]) == [f] + [g] == [f, g];
  }

  lemma TurnedSteps(o: Options)
    ensures var s := State(map[0 := FIRST], 1, None, None, None, true);
            && Step(o, false, INITIAL, TURNED_FRAMES[0]) ==
               Continue(s, [ToolCallStart(0, "a", o.toolName("b")), ToolCallDelta(0, "a", "{}")])
            && Step(o, false, s, TURNED_FRAMES[1]) ==
               Continue(State(map[0 := SECOND], 1, None, None, Some("tool_calls"), true), [])
  {
    TurnedPieces(o);
    OnePieceStep(o, INITIAL, None, TURNED[0]);
    OnePieceStep(o, State(map[0 := FIRST], 1, None, None, None, true), Some("tool_calls"), TURNED[1]);
  }

  lemma TurnedBody(o: Options)
    ensures Body(o, false, TURNED_FRAMES) ==
            Continue(State(map[0 := SECOND], 1, None, None, Some("tool_calls"), true),
                     [ToolCallStart(0, "a", o.toolName("b")), ToolCallDelta(0, "a", "{}")])
  {
    TurnedSteps(o);
    TwoFrames((s: State, f: Arrival) => Step(o, false, s, f), INITIAL, TURNED_FRAMES[0], TURNED_FRAMES[1]);
  }

  lemma SpelledByTwo(e: Event, f: Event, i: nat)
    requires !e.ToolCallDelta? && f.ToolCallDelta? && f.contentIndex == i
    ensures Spelled([e, f], i) == f.argumentsDelta
  {
    assert [e, f][1..] == [f] && [f][1..] == [];
    assert Spelled([f], i) == f.argumentsDelta + "";
    assert Spelled([e, f], i) == "" + Spelled([f], i);
  }

  lemma TurnedIsNotCoherent(o: Options)
    ensures !Coherent(PiecesOf(TURNED_FRAMES, 0))
  {
    TurnedBody(o);
    CallAtEnd(o, false, TURNED_FRAMES, 0);
    SpelledByTwo(ToolCallStart(0, "a", o.toolName("b")), ToolCallDelta(0, "a", "{}"), 0);
    TwoTextsDiffer(o, PiecesOf(TURNED_FRAMES, 0));
  }

  lemma TwoTextsDiffer(o: Options, own: seq<ToolPiece>)
    requires AreOf(own) && Grow(o, 0, own) == (SECOND, "{}")
    ensures !Coherent(own)
  {
    FieldsReadOff(o, 0, own);
    SpellsTextIff(o, 0, own);
    assert "{}"[0] != "x"[0];
  }

  lemma NotExact(o: Options, abortedAtEnd: bool, frames: seq<Arrival>, k: nat)
    requires var tools := ToolsAt(o, abortedAtEnd, frames);
             k in tools && Finishes(Decode(o, INITIAL, frames, abortedAtEnd).events, tools[k].contentIndex)
    requires !Coherent(PiecesOf(frames, k))
    ensures !Legal(ExactCallFits(o, abortedAtEnd, frames), QUIET, Decode(o, INITIAL, frames, abortedAtEnd).events)
  {
    ExactIff(o, frames, abortedAtEnd);
  }

  lemma TurnedFinish(o: Options, s: State)
    requires o.grammar("b").Some? && s.finishReason == Some("tool_calls") && s.tools == map[0 := SECOND]
    ensures Finish(o, s, false).events ==
            [ToolCall(0, "a", o.toolName("b"), Object(map[o.grammar("b").value := Plain(String("x"))])),
             Completed(ToolUse, false)]
  {
    assert s.tools.Keys == {0};
    assert {0} - {0} == {};
    assert Ascending({0}) == [0];
    FoldOne((s: State, index: nat) => FinishTool(o, s, index), s, 0);
  }

  lemma TurnedEvents(o: Options)
    requires o.grammar("b").Some?
    ensures Decode(o, INITIAL, TURNED_FRAMES, false).events ==
            [ToolCallStart(0, "a", o.toolName("b")), ToolCallDelta(0, "a", "{}"),
             ToolCall(0, "a", o.toolName("b"), Object(map[o.grammar("b").value := Plain(String("x"))])),
             Completed(ToolUse, false)]
  {
    TurnedBody(o);
    DecodeIsBody(o, false, INITIAL, TURNED_FRAMES);
    TurnedFinish(o, Body(o, false, TURNED_FRAMES).state);
  }

  /**
   * A call that gets arguments and then raw input: its deltas spell the arguments, its
   * input is the raw text, and the run is not exact.
   */
  lemma MixedCallExample(o: Options)
    requires o.grammar("b").Some?
    ensures var events := Decode(o, INITIAL, TURNED_FRAMES, false).events;
            && events == [ToolCallStart(0, "a", o.toolName("b")), ToolCallDelta(0, "a", "{}"),
                          ToolCall(0, "a", o.toolName("b"), Object(map[o.grammar("b").value := Plain(String("x"))])),
                          Completed(ToolUse, false)]
            && !Legal(ExactCallFits(o, false, TURNED_FRAMES), QUIET, events)
  {
    TurnedEvents(o);
    TurnedBody(o);
    var events := Decode(o, INITIAL, TURNED_FRAMES, false).events;
    assert events[2] in events && events[2].ToolCall?;
    TurnedIsNotCoherent(o);
    NotExact(o, false, TURNED_FRAMES, 0);
  }
}
