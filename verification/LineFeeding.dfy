/**
 * Line-by-line processing of text that arrives in pieces, over any function that processes
 * one line: what complete lines yield, and why feeding in pieces yields the same.
 */
module LineFeeding {

  /** The index of the first occurrence, or the length if there is none. */
  function IndexOf(s: string, c: char): (i: nat)
    ensures i <= |s| && (i < |s| ==> s[i] == c)
    ensures forall j :: 0 <= j < i ==> s[j] != c
  {
    if s == "" || s[0] == c then 0 else 1 + IndexOf(s[1..], c)
  }

  /** What one line does to the state: it is refused, or it may emit frames. */
  datatype Processed<S, F> = TooLong | Next(state: S, emitted: seq<F>)

  /** What complete lines yield, the state they leave, and the partial line after them. */
  datatype Fed<S, F> = Fed(frames: seq<F>, state: S, rest: string, failed: bool)

  function Onto<S, F>(frames: seq<F>, fed: Fed<S, F>): Fed<S, F> {
    fed.(frames := frames + fed.frames)
  }

  function Feed<S, F>(process: (S, string) -> Processed<S, F>, state: S, text: string): Fed<S, F>
    decreases |text|
  {
    var newline := IndexOf(text, '\n');
    if newline == |text| then Fed([], state, text, false)
    else
      match process(state, text[..newline])
      case TooLong => Fed([], state, text, true)
      case Next(after, emitted) => Onto(emitted, Feed(process, after, text[newline + 1..]))
  }

  lemma IndexOfPrefix(a: string, b: string, c: char)
    ensures IndexOf(a + b, c) == if IndexOf(a, c) < |a| then IndexOf(a, c) else |a| + IndexOf(b, c)
  {
    var i, j := IndexOf(a + b, c), IndexOf(a, c);
    assert forall k :: 0 <= k < |a| ==> (a + b)[k] == a[k];
    assert forall k :: 0 <= k < |b| ==> (a + b)[|a| + k] == b[k];
    if j < |a| {
      assert (a + b)[j] == c;
    } else {
      var k := IndexOf(b, c);
      assert i >= |a|;
      if k < |b| {
        assert (a + b)[|a| + k] == c;
      }
    }
  }

  /** A line that is complete is processed, whatever follows it. */
  lemma FeedLine<S, F>(process: (S, string) -> Processed<S, F>, state: S, line: string, rest: string)
    requires IndexOf(line, '\n') == |line|
    ensures process(state, line).TooLong? ==>
              Feed(process, state, line + "\n" + rest) == Fed([], state, line + "\n" + rest, true)
    ensures process(state, line).Next? ==>
              Feed(process, state, line + "\n" + rest) ==
              Onto(process(state, line).emitted, Feed(process, process(state, line).state, rest))
  {
    var text := line + "\n" + rest;
    assert text == line + ("\n" + rest);
    IndexOfPrefix(line, "\n" + rest, '\n');
    assert IndexOf("\n" + rest, '\n') == 0;
    assert text[..|line|] == line && text[|line| + 1..] == rest;
  }

  /** Feeding two pieces one after the other feeds their concatenation. */
  lemma {:induction false} FeedInSteps<S, F>(process: (S, string) -> Processed<S, F>, state: S, a: string, b: string)
    ensures var first := Feed(process, state, a);
            first.failed ==>
              Feed(process, state, a + b).failed && Feed(process, state, a + b).frames == first.frames
    ensures var first := Feed(process, state, a);
            !first.failed ==>
              Feed(process, state, a + b) == Onto(first.frames, Feed(process, first.state, first.rest + b))
    decreases |a|
  {
    var newline := IndexOf(a, '\n');
    if newline == |a| {
      assert [] + Feed(process, state, a + b).frames == Feed(process, state, a + b).frames;
    } else {
      var line, tail := a[..newline], a[newline + 1..];
      assert a == line + "\n" + tail && a + b == line + "\n" + (tail + b);
      FeedLine(process, state, line, tail);
      FeedLine(process, state, line, tail + b);
      if process(state, line).Next? {
        var after, emitted := process(state, line).state, process(state, line).emitted;
        FeedInSteps(process, after, tail, b);
        var first := Feed(process, after, tail);
        OntoAssociates(emitted, first.frames, Feed(process, first.state, first.rest + b));
      }
    }
  }

  lemma OntoAssociates<S, F>(a: seq<F>, b: seq<F>, fed: Fed<S, F>)
    ensures Onto(a, Onto(b, fed)) == Onto(a + b, fed)
  {
    assert a + (b + fed.frames) == (a + b) + fed.frames;
  }

  lemma OntoNothing<S, F>(fed: Fed<S, F>)
    ensures Onto([], fed) == fed
  {
    assert [] + fed.frames == fed.frames;
  }

  /** The first line of a text that has one. */
  function FirstLine(text: string): string {
    text[..IndexOf(text, '\n')]
  }

  function AfterFirstLine(text: string): string
    requires IndexOf(text, '\n') < |text|
  {
    text[IndexOf(text, '\n') + 1..]
  }

  /** One turn of a loop that has yielded `frames` and takes the first line of `text`. */
  lemma FeedTurn<S, F>(process: (S, string) -> Processed<S, F>, state: S, text: string, frames: seq<F>)
    requires IndexOf(text, '\n') < |text|
    ensures process(state, FirstLine(text)).TooLong? ==>
              Onto(frames, Feed(process, state, text)) == Fed(frames, state, text, true)
    ensures process(state, FirstLine(text)).Next? ==>
              var turn := process(state, FirstLine(text));
              Onto(frames, Feed(process, state, text)) ==
              Onto(frames + turn.emitted, Feed(process, turn.state, AfterFirstLine(text)))
  {
    var turn, all := process(state, FirstLine(text)), Feed(process, state, text);
    if turn.Next? {
      var later := Feed(process, turn.state, AfterFirstLine(text));
      assert all == Onto(turn.emitted, later);
      OntoAssociates(frames, turn.emitted, later);
    } else {
      assert all == Fed([], state, text, true);
      assert frames + [] == frames;
    }
  }

  /** A line refused once it is complete: whatever was pending, nothing more is yielded. */
  lemma RefusedLine<S, F>(process: (S, string) -> Processed<S, F>, state: S, buffer: string, more: string)
    requires IndexOf(buffer, '\n') == |buffer| && IndexOf(more, '\n') < |more|
    requires process(state, buffer + more[..IndexOf(more, '\n')]) == TooLong
    ensures Feed(process, state, buffer + more) == Fed([], state, buffer + more, true)
  {
    var i := IndexOf(more, '\n');
    IndexOfPrefix(buffer, more, '\n');
    assert (buffer + more)[..|buffer| + i] == buffer + more[..i];
  }

  // ----- printing -----

  function PrintEach<T>(render: T -> string, items: seq<T>): string {
    if items == [] then "" else render(items[0]) + PrintEach(render, items[1..])
  }

  /** If feeding the print of each frame yields that frame, all of them are yielded in order. */
  lemma {:induction false} YieldEach<S, F>(
    feed: string -> Fed<S, F>, render: F -> string, frames: seq<F>, rest: string)
    requires forall frame <- frames, rest: string :: feed(render(frame) + rest) == Onto([frame], feed(rest))
    ensures feed(PrintEach(render, frames) + rest) == Onto(frames, feed(rest))
    decreases |frames|
  {
    if frames == [] {
      assert PrintEach(render, frames) + rest == rest;
      OntoNothing(feed(rest));
    } else {
      YieldEach(feed, render, frames[1..], rest);
      assert PrintEach(render, frames) + rest == render(frames[0]) + (PrintEach(render, frames[1..]) + rest);
      OntoAssociates([frames[0]], frames[1..], feed(rest));
      assert [frames[0]] + frames[1..] == frames;
    }
  }

  /** If feeding the print of each item collects it, all of them are collected in order. */
  lemma {:induction false} CollectEach<T, X>(
    feed: (seq<T>, string) -> X, render: T -> string, before: seq<T>, items: seq<T>, rest: string)
    requires forall k, rest: string | 0 <= k < |items| ::
               feed(before + items[..k], render(items[k]) + rest) == feed(before + items[..k] + [items[k]], rest)
    ensures feed(before, PrintEach(render, items) + rest) == feed(before + items, rest)
    decreases |items|
  {
    if items == [] {
      assert before + items == before && PrintEach(render, items) + rest == rest;
    } else {
      var first, others := items[0], items[1..];
      forall k, rest: string | 0 <= k < |others|
        ensures feed(before + [first] + others[..k], render(others[k]) + rest) ==
                feed(before + [first] + others[..k] + [others[k]], rest)
      {
        assert before + [first] + others[..k] == before + items[..k + 1];
      }
      CollectEach(feed, render, before + [first], others, rest);
      assert before + [first] + others == before + items;
      assert before + items[..0] == before;
      assert PrintEach(render, items) + rest == render(first) + (PrintEach(render, others) + rest);
    }
  }
}
