/**
 * What the calls of a Mistral run are, read off the pieces in its frames, however ids, names
 * and arguments are split over them.
 */
module MistralCalls {
  import opened Wrappers
  import opened Basics
  import opened JsonValues
  import opened StreamEvents
  import opened StreamRuns
  import opened CallRuns
  import opened IndexOrder
  import opened ToolCallIds
  import opened MistralStream

  // ----- reading frames -----

  /** The frames before the one that ends the run. */
  function BeforeDone(frames: seq<Arrival>): seq<Arrival> {
    Before((f: Arrival) => f.frame.Done? && !f.aborted, frames)
  }

  function PiecesIn(f: Arrival): seq<ToolPiece> {
    if f.frame.Chunk? && f.frame.tools.Tools? then f.frame.tools.pieces else []
  }

  function AllPieces(frames: seq<Arrival>): seq<ToolPiece> {
    if frames == [] then [] else AllPieces(frames[..|frames| - 1]) + PiecesIn(frames[|frames| - 1])
  }

  /** The pieces of the call at `index`, in order. */
  function PiecesAt(pieces: seq<ToolPiece>, index: nat): (own: seq<ToolPiece>)
    ensures forall piece <- own :: piece.ToolPiece?
  {
    if pieces == [] then []
    else
      var last := pieces[|pieces| - 1];
      PiecesAt(pieces[..|pieces| - 1], index) + if last.ToolPiece? && last.index == index then [last] else []
  }

  function PiecesOf(frames: seq<Arrival>, index: nat): (own: seq<ToolPiece>)
    ensures forall piece <- own :: piece.ToolPiece?
  {
    PiecesAt(AllPieces(BeforeDone(frames)), index)
  }

  /** The id of a call: that of its first piece, or one made of its index. */
  function IdOf(o: Options, index: nat, own: seq<ToolPiece>): string
    requires own != [] && own[0].ToolPiece?
  {
    if own[0].id == "" || own[0].id == "null" then FallbackId(o, index) else own[0].id
  }

  function NameIn(piece: ToolPiece): string {
    if piece.ToolPiece? && piece.call.Some? then piece.call.value.name else ""
  }

  function ArgumentsIn(piece: ToolPiece): string {
    if piece.ToolPiece? && piece.call.Some? && piece.call.value.arguments.Some? then piece.call.value.arguments.value else ""
  }

  /** The first name that is not empty. */
  function NameOf(own: seq<ToolPiece>): string {
    if own == [] then "" else Or(NameOf(own[..|own| - 1]), NameIn(own[|own| - 1]))
  }

  /** All arguments, put together. */
  function ArgumentsOf(own: seq<ToolPiece>): string {
    if own == [] then "" else ArgumentsOf(own[..|own| - 1]) + ArgumentsIn(own[|own| - 1])
  }

  // ----- accumulators are what their pieces say -----

  ghost predicate ReadOff(o: Options, index: nat, own: seq<ToolPiece>, acc: Accumulator) {
    && own != [] && own[0].ToolPiece? && acc.id == IdOf(o, index, own) && acc.id != ""
    && acc.name == NameOf(own) && acc.argumentsText == ArgumentsOf(own)
  }

  ghost predicate CallAt(o: Options, pieces: seq<ToolPiece>, tools: map<nat, Accumulator>, index: nat) {
    if index in tools then ReadOff(o, index, PiecesAt(pieces, index), tools[index]) else PiecesAt(pieces, index) == []
  }

  ghost predicate CallsAre(o: Options, pieces: seq<ToolPiece>, tools: map<nat, Accumulator>) {
    forall index: nat :: CallAt(o, pieces, tools, index)
  }

  lemma PiecesAtSnoc(pieces: seq<ToolPiece>, piece: ToolPiece, index: nat)
    ensures PiecesAt(pieces + [piece], index) ==
            PiecesAt(pieces, index) + if piece.ToolPiece? && piece.index == index then [piece] else []
  {
    assert (pieces + [piece])[..|pieces|] == pieces;
  }

  /** What one more piece adds to name and arguments. */
  lemma WordsSnoc(own: seq<ToolPiece>, piece: ToolPiece)
    ensures NameOf(own + [piece]) == Or(NameOf(own), NameIn(piece))
    ensures ArgumentsOf(own + [piece]) == ArgumentsOf(own) + ArgumentsIn(piece)
  {
    assert (own + [piece])[..|own|] == own;
  }

  /** The first piece decides the id. */
  lemma IdSnoc(o: Options, index: nat, own: seq<ToolPiece>, piece: ToolPiece)
    requires LawfulDigest(o.digest) && piece.ToolPiece? && (own != [] ==> own[0].ToolPiece?)
    ensures (own + [piece])[0] == if own == [] then piece else own[0]
    ensures own != [] ==> IdOf(o, index, own + [piece]) == IdOf(o, index, own)
    ensures own == [] ==>
              IdOf(o, index, own + [piece]) == Or(if piece.id == "null" then "" else piece.id, FallbackId(o, index))
    ensures FallbackId(o, index) != ""
  {
    assert |FallbackId(o, index)| == 9;
  }

  /** A call with one more piece. */
  lemma AddReadsOff(o: Options, own: seq<ToolPiece>, acc: Accumulator, piece: ToolPiece)
    requires LawfulDigest(o.digest) && piece.ToolPiece? && Add(o, acc, piece).Some?
    requires if own == [] then acc.id == "" && acc.name == "" && acc.argumentsText == ""
             else ReadOff(o, piece.index, own, acc)
    ensures ReadOff(o, piece.index, own + [piece], Add(o, acc, piece).value)
  {
    WordsSnoc(own, piece);
    IdSnoc(o, piece.index, own, piece);
  }

  /** What a piece changes: the call at its index, and of that only what the piece adds to. */
  lemma TakenPiece(o: Options, s: State, piece: ToolPiece)
    requires TakeTool(o, s, piece).Continue?
    ensures piece.ToolPiece? && Add(o, AccumulatorAt(s, piece.index), piece).Some?
    ensures var acc, tools := Add(o, AccumulatorAt(s, piece.index), piece).value, TakeTool(o, s, piece).state.tools;
            && piece.index in tools && SameWords(tools[piece.index], acc)
            && forall k :: k != piece.index ==> (k in tools <==> k in s.tools) && (k in tools ==> tools[k] == s.tools[k])
  {
  }

  ghost predicate SameWords(a: Accumulator, b: Accumulator) {
    a.id == b.id && a.name == b.name && a.argumentsText == b.argumentsText
  }

  lemma TakeToolReadsOff(o: Options, pieces: seq<ToolPiece>, s: State, piece: ToolPiece)
    requires LawfulDigest(o.digest) && CallsAre(o, pieces, s.tools) && TakeTool(o, s, piece).Continue?
    ensures CallsAre(o, pieces + [piece], TakeTool(o, s, piece).state.tools)
  {
    TakenPiece(o, s, piece);
    CallsOneMore(o, pieces, s, piece, TakeTool(o, s, piece).state.tools);
  }

  lemma CallsOneMore(o: Options, pieces: seq<ToolPiece>, s: State, piece: ToolPiece, tools: map<nat, Accumulator>)
    requires LawfulDigest(o.digest) && CallsAre(o, pieces, s.tools)
    requires piece.ToolPiece? && Add(o, AccumulatorAt(s, piece.index), piece).Some?
    requires piece.index in tools && SameWords(tools[piece.index], Add(o, AccumulatorAt(s, piece.index), piece).value)
    requires forall k :: k != piece.index ==> (k in tools <==> k in s.tools) && (k in tools ==> tools[k] == s.tools[k])
    ensures CallsAre(o, pieces + [piece], tools)
  {
    forall index: nat
      ensures CallAt(o, pieces + [piece], tools, index)
    {
      assert CallAt(o, pieces, s.tools, index);
      PiecesAtSnoc(pieces, piece, index);
      if index == piece.index {
        AddReadsOff(o, PiecesAt(pieces, index), AccumulatorAt(s, index), piece);
      } else {
        assert PiecesAt(pieces, index) + [] == PiecesAt(pieces, index);
      }
    }
  }

  lemma TakeToolsReadsOff(o: Options, pieces: seq<ToolPiece>, s: State, added: seq<ToolPiece>)
    requires LawfulDigest(o.digest) && CallsAre(o, pieces, s.tools)
    ensures var turn := TakeTools(o, s, Tools(added)); turn.Continue? ==> CallsAre(o, pieces + added, turn.state.tools)
  {
    var inv := (taken: seq<ToolPiece>, s: State, before: seq<Event>) => CallsAre(o, pieces + taken, s.tools);
    var step := (s: State, piece: ToolPiece) => TakeTool(o, s, piece);
    forall t, s, b, piece | t + [piece] <= added && inv(t, s, b) && step(s, piece).Continue?
      ensures inv(t + [piece], step(s, piece).state, b + step(s, piece).events)
    {
      TakeToolReadsOff(o, pieces + t, s, piece);
      assert pieces + t + [piece] == pieces + (t + [piece]);
    }
    assert pieces + [] == pieces;
    var t, last, b := FoldHistory(inv, step, added, [], s.(currentContent := None), [], added);
  }

  lemma {:induction false} ContentKeepsTools(s: State, items: seq<Item>)
    ensures var turn := Fold(TakeItem, s, items); turn.Continue? ==> turn.state.tools == s.tools
    decreases |items|
  {
    if items != [] && TakeItem(s, items[0]).Continue? {
      ContentKeepsTools(TakeItem(s, items[0]).state, items[1..]);
    }
  }

  lemma StepReadsOff(o: Options, abortedAtEnd: bool, pieces: seq<ToolPiece>, s: State, f: Arrival)
    requires LawfulDigest(o.digest) && CallsAre(o, pieces, s.tools)
    requires Step(o, abortedAtEnd, s, f).Continue? && (f.frame.Done? ==> f.aborted)
    ensures CallsAre(o, pieces + PiecesIn(f), Step(o, abortedAtEnd, s, f).state.tools)
  {
    assert pieces + [] == pieces;
    if f.frame.Chunk? {
      var s' := if f.frame.finishReason.Some? then s.(finishReason := f.frame.finishReason) else s;
      var content := Fold(TakeItem, s', f.frame.content.value);
      ContentKeepsTools(s', f.frame.content.value);
      if f.frame.tools.Tools? {
        TakeToolsReadsOff(o, pieces, content.state, f.frame.tools.pieces);
      }
    }
  }

  // ----- whole runs -----

  /** All frames before the end. */
  function Body(o: Options, abortedAtEnd: bool, frames: seq<Arrival>): Turn<State> {
    Fold((s: State, f: Arrival) => Step(o, abortedAtEnd, s, f), INITIAL, BeforeDone(frames))
  }

  lemma BodyReadsOff(o: Options, abortedAtEnd: bool, frames: seq<Arrival>)
    requires LawfulDigest(o.digest) && Body(o, abortedAtEnd, frames).Continue?
    ensures CallsAre(o, AllPieces(BeforeDone(frames)), Body(o, abortedAtEnd, frames).state.tools)
  {
    var all := BeforeDone(frames);
    var inv := (taken: seq<Arrival>, s: State, before: seq<Event>) => CallsAre(o, AllPieces(taken), s.tools);
    var step := (s: State, f: Arrival) => Step(o, abortedAtEnd, s, f);
    forall t, s, b, f | t + [f] <= all && inv(t, s, b) && step(s, f).Continue?
      ensures inv(t + [f], step(s, f).state, b + step(s, f).events)
    {
      assert all[|t|] == (t + [f])[|t|] == f && f in all;
      StepReadsOff(o, abortedAtEnd, AllPieces(t), s, f);
      assert (t + [f])[..|t|] == t;
    }
    var t, last, b := FoldHistory(inv, step, all, [], INITIAL, [], all);
  }

  lemma DecodeIsBody(o: Options, abortedAtEnd: bool, frames: seq<Arrival>)
    ensures Decode(o, INITIAL, frames, abortedAtEnd) ==
            Then(Body(o, abortedAtEnd, frames), s => Finish(o, s, abortedAtEnd))
  {
    forall s: State
      ensures !Finish(o, s, abortedAtEnd).Continue?
    {
      FinishEnds(o, s, abortedAtEnd);
    }
    FoldUntil((s: State, f: Arrival) => Step(o, abortedAtEnd, s, f), (s: State) => Finish(o, s, abortedAtEnd),
      (f: Arrival) => f.frame.Done? && !f.aborted, INITIAL, frames);
  }

  lemma FinishEnds(o: Options, s: State, aborted: bool)
    ensures !Finish(o, s, aborted).Continue?
  {
  }

  // ----- nothing is finished before the end -----

  lemma ToolYieldsNoCall(o: Options, s: State, piece: ToolPiece)
    ensures forall e <- TakeTool(o, s, piece).events :: Early(e)
  {
  }

  lemma ChunkYieldsNoCall(o: Options, s: State, chunk: Frame)
    requires chunk.Chunk?
    ensures forall e <- TakeChunk(o, s, chunk).events :: Early(e)
  {
    var s' := if chunk.finishReason.Some? then s.(finishReason := chunk.finishReason) else s;
    if chunk.content.Some? {
      var content := Fold(TakeItem, s', chunk.content.value);
      FoldYields(e => Early(e), TakeItem, s', chunk.content.value);
      if content.Continue? && chunk.tools.Tools? {
        var step := (s: State, piece: ToolPiece) => TakeTool(o, s, piece);
        forall s, piece, e | piece in chunk.tools.pieces && e in step(s, piece).events
          ensures Early(e)
        {
          ToolYieldsNoCall(o, s, piece);
        }
        FoldYields(e => Early(e), step, content.state.(currentContent := None), chunk.tools.pieces);
      }
    }
  }

  lemma BodyYieldsNoCall(o: Options, abortedAtEnd: bool, frames: seq<Arrival>)
    ensures forall e <- Body(o, abortedAtEnd, frames).events :: Early(e)
  {
    var step := (s: State, f: Arrival) => Step(o, abortedAtEnd, s, f);
    forall s, f, e | f in BeforeDone(frames) && e in step(s, f).events
      ensures Early(e)
    {
      if !f.aborted && f.frame.Chunk? {
        ChunkYieldsNoCall(o, s, f.frame);
      }
    }
    FoldYields(e => Early(e), step, INITIAL, BeforeDone(frames));
  }

  // ----- finishing -----

  predicate Finishable(o: Options, acc: Accumulator) {
    acc.started && ReadArguments(o.parse, acc.argumentsText).Some?
  }

  function CallEvent(o: Options, acc: Accumulator): Event
    requires Finishable(o, acc)
  {
    ToolCall(acc.contentIndex, acc.id, o.toolName(acc.name), ReadArguments(o.parse, acc.argumentsText).value)
  }

  /** The events that finish the calls at these indexes, in this order. */
  ghost predicate AreCalls(o: Options, tools: map<nat, Accumulator>, order: seq<nat>, events: seq<Event>) {
    && |events| == |order|
    && forall p :: 0 <= p < |order| ==>
         order[p] in tools && Finishable(o, tools[order[p]]) && events[p] == CallEvent(o, tools[order[p]])
  }

  /** The calls at these indexes have been finished, and the others are left. */
  ghost predicate FinishedAre(o: Options, tools: map<nat, Accumulator>, order: seq<nat>, s: State, events: seq<Event>) {
    && AreCalls(o, tools, order, events)
    && (forall k :: k in tools && k !in order ==> k in s.tools && s.tools[k] == tools[k])
  }

  lemma FinishOneMore(
    o: Options, tools: map<nat, Accumulator>, order: seq<nat>, s: State, events: seq<Event>, k: nat)
    requires FinishedAre(o, tools, order, s, events) && k in tools && k !in order
    requires FinishTool(o, s, k).Continue?
    ensures FinishedAre(o, tools, order + [k], FinishTool(o, s, k).state, events + FinishTool(o, s, k).events)
  {
  }

  /** All calls are finished, or those before the first that cannot be. */
  lemma FinishToolsYield(o: Options, s: State, all: seq<nat>) returns (order: seq<nat>)
    requires (forall k <- all :: k in s.tools) && forall i, j :: 0 <= i < j < |all| ==> all[i] < all[j]
    ensures order <= all && AreCalls(o, s.tools, order, FinishTools(o, s, all).events)
    ensures FinishTools(o, s, all).Continue? ==> order == all
  {
    var inv := (taken: seq<nat>, t: State, before: seq<Event>) => FinishedAre(o, s.tools, taken, t, before);
    var step := (t: State, k: nat) => FinishTool(o, t, k);
    var last, b;
    FinishingKeeps(o, s, all, inv, step);
    order, last, b := FoldHistory(inv, step, all, [], s, [], all);
    NothingThrown(o, last, all, order);
    assert [] + FinishTools(o, s, all).events == FinishTools(o, s, all).events && b + [] == b;
  }

  lemma FinishingKeeps(
    o: Options, s: State, all: seq<nat>, inv: (seq<nat>, State, seq<Event>) -> bool, step: (State, nat) -> Turn<State>)
    requires (forall k <- all :: k in s.tools) && forall i, j :: 0 <= i < j < |all| ==> all[i] < all[j]
    requires forall t, u, b :: inv(t, u, b) <==> FinishedAre(o, s.tools, t, u, b)
    requires forall u, k :: step(u, k) == FinishTool(o, u, k)
    ensures forall t, u, b, k :: t + [k] <= all && inv(t, u, b) && step(u, k).Continue? ==>
              inv(t + [k], step(u, k).state, b + step(u, k).events)
  {
    forall t, u, b, k | t + [k] <= all && inv(t, u, b) && step(u, k).Continue?
      ensures inv(t + [k], step(u, k).state, b + step(u, k).events)
    {
      NextIsNew(all, t, k);
      FinishOneMore(o, s.tools, t, u, b, k);
    }
  }

  lemma NextIsNew(all: seq<nat>, taken: seq<nat>, k: nat)
    requires taken + [k] <= all && forall i, j :: 0 <= i < j < |all| ==> all[i] < all[j]
    ensures k in all && k !in taken
  {
    assert all[|taken|] == (taken + [k])[|taken|] == k;
    assert forall p :: 0 <= p < |taken| ==> taken[p] == all[p];
  }

  lemma NothingThrown(o: Options, s: State, all: seq<nat>, taken: seq<nat>)
    ensures |taken| < |all| && !FinishTool(o, s, all[|taken|]).Continue? ==> FinishTool(o, s, all[|taken|]).events == []
  {
  }

  lemma TerminalIsTerminal(s: State, calledTools: bool)
    requires s.finishReason.Some?
    ensures Terminal(TerminalFor(s, calledTools))
  {
  }

  /** The calls and what comes after them; completion comes only if all calls are finished. */
  lemma FinishSplits(o: Options, s: State, aborted: bool, turn: Turn<State>) returns (calls: seq<Event>, end: seq<Event>)
    requires turn == FinishTools(o, s, Ascending(s.tools.Keys))
    ensures Finish(o, s, aborted).events == calls + end && (calls == [] || calls == turn.events)
    ensures forall e <- end :: Terminal(e) && (e.Completed? ==> turn.Continue? && calls == turn.events)
  {
    if aborted || s.finishReason.None? {
      calls, end := [], Finish(o, s, aborted).events;
    } else {
      TerminalIsTerminal(s, s.tools != map[]);
      calls, end := turn.events, if turn.Continue? then [TerminalFor(s, s.tools != map[])] else [];
      assert turn.events + [] == turn.events;
    }
  }

  /** The end of a run: calls in increasing order, and at most one event after them. */
  lemma FinishYields(o: Options, s: State, aborted: bool) returns (order: seq<nat>, calls: seq<Event>, end: seq<Event>)
    ensures order <= Ascending(s.tools.Keys) && Finish(o, s, aborted).events == calls + end
    ensures AreCalls(o, s.tools, order, calls)
    ensures forall e <- end :: Terminal(e)
    ensures (exists e <- end :: e.Completed?) ==> order == Ascending(s.tools.Keys)
  {
    var all := Ascending(s.tools.Keys);
    var turn := FinishTools(o, s, all);
    AscendingIn(s.tools.Keys);
    order := FinishToolsYield(o, s, all);
    calls, end := FinishSplits(o, s, aborted, turn);
    if calls != turn.events {
      order := [];
    }
  }

  ghost predicate OwnIndexes(tools: map<nat, Accumulator>) {
    forall j, k :: j in tools && k in tools && tools[j].contentIndex == tools[k].contentIndex ==> j == k
  }

  /** What has been spelled of a call that has started when the frames are over. */
  lemma SpelledAtEnd(o: Options, abortedAtEnd: bool, frames: seq<Arrival>)
    requires LawfulDigest(o.digest) && Body(o, abortedAtEnd, frames).Continue?
    ensures var body := Body(o, abortedAtEnd, frames);
            && (forall k :: k in body.state.tools && body.state.tools[k].started ==>
                  Spelled(body.events, body.state.tools[k].contentIndex) == body.state.tools[k].argumentsText)
            && OwnIndexes(body.state.tools)
  {
    var body, fits := Body(o, abortedAtEnd, frames), ExactFits(o.parse);
    FramesKeep(o, abortedAtEnd, BeforeDone(frames));
    var m := After(fits, QUIET, body.events);
    assert Tracks(o, body.state, m);
    forall k | k in body.state.tools && body.state.tools[k].started
      ensures Spelled(body.events, body.state.tools[k].contentIndex) == body.state.tools[k].argumentsText
    {
      var acc := body.state.tools[k];
      assert Agrees(o, acc, m);
      TextIsSpelled(fits, QUIET, body.events, acc.contentIndex);
      assert "" + Spelled(body.events, acc.contentIndex) == Spelled(body.events, acc.contentIndex);
    }
  }

  /** A finished call, in the terms of the pieces with its index. */
  ghost predicate CallReadOff(o: Options, own: seq<ToolPiece>, index: nat, contentIndex: nat, e: Event, spelled: string) {
    && own != [] && own[0].ToolPiece? && e.ToolCall? && e.contentIndex == contentIndex
    && e.callId == IdOf(o, index, own) && e.name == o.toolName(NameOf(own))
    && ReadArguments(o.parse, ArgumentsOf(own)) == Some(e.input) && spelled == ArgumentsOf(own)
  }

  /** The calls of a run, in this order and under these content indexes, are what its pieces say. */
  ghost predicate RunReadOff(
    o: Options, frames: seq<Arrival>, events: seq<Event>, order: seq<nat>, contentIndexes: map<nat, nat>)
  {
    && |CallsIn(events)| == |order|
    && (forall k <- order :: k in contentIndexes)
    && (forall p :: 0 <= p < |order| ==>
          var k, i := order[p], contentIndexes[order[p]];
          CallReadOff(o, PiecesOf(frames, k), k, i, CallsIn(events)[p], Spelled(events, i)))
  }

  lemma EventsReadOff(
    o: Options, frames: seq<Arrival>, tools: map<nat, Accumulator>, order: seq<nat>, before: seq<Event>,
    calls: seq<Event>, end: seq<Event>)
    requires CallsAre(o, AllPieces(BeforeDone(frames)), tools)
    requires (forall e <- before :: Early(e)) && (forall e <- end :: Terminal(e)) && AreCalls(o, tools, order, calls)
    requires forall k :: k in tools && tools[k].started ==> Spelled(before, tools[k].contentIndex) == tools[k].argumentsText
    ensures RunReadOff(o, frames, before + calls + end, order, map k | k in tools :: tools[k].contentIndex)
  {
    var contentIndexes := map k | k in tools :: tools[k].contentIndex;
    OnlyCallsBetween(before, calls, end);
    forall p | 0 <= p < |order|
      ensures var k, i := order[p], contentIndexes[order[p]];
              CallReadOff(o, PiecesOf(frames, k), k, i, calls[p], Spelled(before + calls + end, i))
    {
      OneCallReadOff(o, frames, tools, order[p]);
      SpelledBefore(before, calls, end, tools[order[p]].contentIndex);
    }
  }

  lemma OneCallReadOff(o: Options, frames: seq<Arrival>, tools: map<nat, Accumulator>, k: nat)
    requires CallsAre(o, AllPieces(BeforeDone(frames)), tools) && k in tools && Finishable(o, tools[k])
    ensures CallReadOff(o, PiecesOf(frames, k), k, tools[k].contentIndex, CallEvent(o, tools[k]), tools[k].argumentsText)
  {
    assert CallAt(o, AllPieces(BeforeDone(frames)), tools, k);
  }

  lemma SpelledBefore(before: seq<Event>, calls: seq<Event>, end: seq<Event>, i: nat)
    requires (forall e <- calls :: IsCall(e)) && forall e <- end :: Terminal(e)
    ensures Spelled(before + calls + end, i) == Spelled(before, i)
  {
    SpelledConcat(before + calls, end, i);
    SpelledConcat(before, calls, i);
  }

  /** What is claimed of the order of calls and of their content indexes. */
  ghost predicate Ordered(frames: seq<Arrival>, events: seq<Event>, order: seq<nat>, contentIndexes: map<nat, nat>) {
    && (forall i, j :: 0 <= i < j < |order| ==> order[i] < order[j])
    && (forall k: nat, j: nat :: PiecesOf(frames, k) != [] && j in order && k < j ==> k in order)
    && (forall j, k :: j in contentIndexes && k in contentIndexes && contentIndexes[j] == contentIndexes[k] ==> j == k)
    && (events != [] && events[|events| - 1].Completed? ==> forall k: nat :: PiecesOf(frames, k) != [] ==> k in order)
  }

  lemma EventsOrdered(
    frames: seq<Arrival>, tools: map<nat, Accumulator>, order: seq<nat>, before: seq<Event>, calls: seq<Event>,
    end: seq<Event>)
    requires OwnIndexes(tools) && order <= Ascending(tools.Keys)
    requires forall k: nat :: PiecesOf(frames, k) != [] ==> k in tools
    requires (forall e <- before :: Early(e)) && (forall e <- calls :: IsCall(e))
    requires (exists e <- end :: e.Completed?) ==> order == Ascending(tools.Keys)
    ensures Ordered(frames, before + calls + end, order, map k | k in tools :: tools[k].contentIndex)
  {
    var events := before + calls + end;
    InOrder(tools.Keys, order);
    if events != [] && events[|events| - 1].Completed? {
      LastIsIn(before, calls, end);
      assert order == Ascending(tools.Keys);
    }
  }

  lemma ContinuedReadOff(o: Options, frames: seq<Arrival>, abortedAtEnd: bool)
    returns (order: seq<nat>, contentIndexes: map<nat, nat>)
    requires LawfulDigest(o.digest) && Body(o, abortedAtEnd, frames).Continue?
    ensures var events := Decode(o, INITIAL, frames, abortedAtEnd).events;
            Ordered(frames, events, order, contentIndexes) && RunReadOff(o, frames, events, order, contentIndexes)
  {
    var body := Body(o, abortedAtEnd, frames);
    var tools := body.state.tools;
    var calls, end;
    DecodeIsBody(o, abortedAtEnd, frames);
    BodyYieldsNoCall(o, abortedAtEnd, frames);
    BodyReadsOff(o, abortedAtEnd, frames);
    SpelledAtEnd(o, abortedAtEnd, frames);
    order, calls, end := FinishYields(o, body.state, abortedAtEnd);
    contentIndexes := map k | k in tools :: tools[k].contentIndex;
    EventsReadOff(o, frames, tools, order, body.events, calls, end);
    PiecesAreKnown(o, frames, tools);
    EventsOrdered(frames, tools, order, body.events, calls, end);
    assert body.events + (calls + end) == body.events + calls + end;
  }

  lemma InOrder(keys: set<nat>, order: seq<nat>)
    requires order <= Ascending(keys)
    ensures forall i, j :: 0 <= i < j < |order| ==> order[i] < order[j]
    ensures forall k, j :: k in keys && j in order && k < j ==> k in order
    ensures order == Ascending(keys) ==> forall k <- keys :: k in order
  {
    FirstPart(keys, |order|);
    AscendingOrder(keys);
    assert order == Ascending(keys)[..|order|];
  }

  lemma PiecesAreKnown(o: Options, frames: seq<Arrival>, tools: map<nat, Accumulator>)
    requires CallsAre(o, AllPieces(BeforeDone(frames)), tools)
    ensures forall k: nat :: PiecesOf(frames, k) != [] ==> k in tools
  {
    forall k: nat | PiecesOf(frames, k) != []
      ensures k in tools
    {
      assert CallAt(o, AllPieces(BeforeDone(frames)), tools, k);
    }
  }

  /**
   * The calls a run finishes, read off its pieces: they come in strictly increasing order of
   * their indexes with none of a lower index left out; each has the id, the name and the
   * input that the pieces with its index give, and its deltas spell their arguments; and a
   * run that is completed has a call for every index it got a piece for.
   */
  lemma CallsReadOff(o: Options, frames: seq<Arrival>, abortedAtEnd: bool)
    returns (order: seq<nat>, contentIndexes: map<nat, nat>)
    requires LawfulDigest(o.digest)
    ensures var events := Decode(o, INITIAL, frames, abortedAtEnd).events;
            Ordered(frames, events, order, contentIndexes) && RunReadOff(o, frames, events, order, contentIndexes)
  {
    var body := Body(o, abortedAtEnd, frames);
    DecodeIsBody(o, abortedAtEnd, frames);
    BodyYieldsNoCall(o, abortedAtEnd, frames);
    if body.Continue? {
      order, contentIndexes := ContinuedReadOff(o, frames, abortedAtEnd);
    } else {
      order, contentIndexes := [], map[];
      CallsInOf(body.events);
      assert body.events != [] ==> body.events[|body.events| - 1] in body.events;
    }
  }
}
