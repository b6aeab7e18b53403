/**
 * Encoding a prepared history for OpenAI Chat. Images of tool results cannot stand in a tool
 * message: they are deferred until the run of results is over, so that the tool messages
 * still follow their calls directly.
 */
module ChatEncoding {
  import opened Wrappers
  import opened Basics
  import opened ToolCallIds
  import opened ToolHistory
  import opened ToolHistoryTheorems
  import Sse

  /** Messages as sent; `WireImages` and `WireNote` are the two the encoder adds itself. */
  datatype Wire =
    | WireUser(content: seq<Content>)
    | WireAssistant(content: seq<Content>, callIds: seq<string>)
    | WireTool(callId: string, text: string)
    | WireImages(images: seq<string>)
    | WireNote

  /**
   * What encoding depends on: the images that are loaded, the assistant messages that can be
   * rendered, and whether an assistant message must stand between results and a user.
   */
  datatype Options = Options(images: set<string>, renders: Prepared -> bool, noteAfterResults: bool)

  // ----- contents -----

  predicate Encodable(o: Options, content: seq<Content>) {
    forall c <- content :: c.Text? || (c.Blob? && c.sha256 in o.images)
  }

  function TextsOf(content: seq<Content>): seq<string> {
    if content == [] then []
    else (if content[0].Text? then [content[0].text] else []) + TextsOf(content[1..])
  }

  function ImagesOf(content: seq<Content>): seq<string> {
    if content == [] then []
    else (if content[0].Blob? then [content[0].sha256] else []) + ImagesOf(content[1..])
  }

  function ToolText(content: seq<Content>): string {
    var text := Sse.Join(TextsOf(content));
    if text != "" then text
    else if ImagesOf(content) != [] then "(see attached image)"
    else "(no tool output)"
  }

  // ----- messages -----

  /** What follows a tool message, given the images deferred so far and the next message. */
  function AfterResult(o: Options, pending: seq<string>, rest: seq<Prepared>): seq<Wire> {
    if (rest == [] || !rest[0].PreparedTool?) && pending != [] then [WireImages(pending)]
    else if rest != [] && rest[0].PreparedUser? && o.noteAfterResults then [WireNote]
    else []
  }

  /** The images still deferred after a tool message. */
  function StillPending(pending: seq<string>, rest: seq<Prepared>): seq<string> {
    if rest == [] || !rest[0].PreparedTool? then [] else pending
  }

  datatype Encoded = Encoded(wires: seq<Wire>, pending: seq<string>)

  /** One message, given the images deferred so far and the messages after it. */
  function EncodeOne(o: Options, pending: seq<string>, m: Prepared, rest: seq<Prepared>): Option<Encoded> {
    match m
    case PreparedUser(content) =>
      if !Encodable(o, content) then None else Some(Encoded([WireUser(content)], pending))
    case PreparedAssistant(content, calls) =>
      if !o.renders(m) then None else Some(Encoded([WireAssistant(content, PreparedIds(calls))], pending))
    case PreparedTool(callId, _, _, _, content, _) =>
      if !Encodable(o, content) then None
      else
        var images := pending + ImagesOf(content);
        Some(Encoded([WireTool(callId, ToolText(content))] + AfterResult(o, images, rest), StillPending(images, rest)))
  }

  function EncodeFrom(o: Options, pending: seq<string>, messages: seq<Prepared>): Option<seq<Wire>>
    decreases |messages|
  {
    if messages == [] then Some([])
    else
      match EncodeOne(o, pending, messages[0], messages[1..])
      case None => None
      case Some(first) => Prefixed(first.wires, EncodeFrom(o, first.pending, messages[1..]))
  }

  /** Encodes the message at `i`; images stay deferred while results follow. */
  method EncodeMessage(o: Options, messages: seq<Prepared>, i: nat, pending: seq<string>)
    returns (done: Option<Encoded>)
    requires i < |messages|
    ensures done == EncodeOne(o, pending, messages[i], messages[i + 1..])
  {
    var message := messages[i];
    if message.PreparedAssistant? {
      if !o.renders(message) {
        return None;
      }
      return Some(Encoded([WireAssistant(message.content, PreparedIds(message.toolCalls))], pending));
    }
    if !Encodable(o, message.content) {
      return None;
    }
    if message.PreparedUser? {
      return Some(Encoded([WireUser(message.content)], pending));
    }
    var output, images := [WireTool(message.callId, ToolText(message.content))], pending + ImagesOf(message.content);
    if (i + 1 == |messages| || !messages[i + 1].PreparedTool?) && |images| > 0 {
      output := output + [WireImages(images)];
      images := [];
    } else if i + 1 < |messages| && messages[i + 1].PreparedUser? && o.noteAfterResults {
      output := output + [WireNote];
    }
    ghost var rest := messages[i + 1..];
    assert rest != [] ==> rest[0] == messages[i + 1];
    assert output == [output[0]] + AfterResult(o, pending + ImagesOf(message.content), rest);
    done := Some(Encoded(output, images));
  }

  /** The encoder as it runs. */
  method EncodeMessages(o: Options, messages: seq<Prepared>) returns (wires: Option<seq<Wire>>)
    ensures wires == EncodeFrom(o, [], messages)
    ensures Paired({}, messages) && wires.Some? ==> WirePaired({}, wires.value)
    ensures wires.Some? ==> SentImages(wires.value) == ToolImages(messages)
  {
    ghost var goal := EncodeFrom(o, [], messages);
    if goal.Some? {
      ImagesKept(o, [], messages);
      assert [] + ToolImages(messages) == ToolImages(messages);
      if Paired({}, messages) {
        ResultsFollowCalls(o, {}, [], messages);
      }
    }
    var output: seq<Wire>, pendingToolImages: seq<string> := [], [];
    assert messages[0..] == messages;
    PrefixedTwice([], [], goal);
    for i := 0 to |messages|
      invariant goal == Prefixed(output, EncodeFrom(o, pendingToolImages, messages[i..]))
    {
      assert messages[i..][0] == messages[i] && messages[i..][1..] == messages[i + 1..];
      var done := EncodeMessage(o, messages, i, pendingToolImages);
      if done.None? {
        return None;
      }
      PrefixedTwice(output, done.value.wires, EncodeFrom(o, done.value.pending, messages[i + 1..]));
      output, pendingToolImages := output + done.value.wires, done.value.pending;
    }
    assert output + [] == output;
    wires := Some(output);
  }

  // ----- results directly follow their calls -----

  /**
   * Tool messages answer the calls of the assistant message before them, each once, and no
   * other message stands between; `owed` are the calls still to be answered.
   */
  predicate WirePaired(owed: set<string>, wires: seq<Wire>)
    decreases |wires|
  {
    if wires == [] then owed == {}
    else
      match wires[0]
      case WireTool(callId, _) => callId in owed && WirePaired(owed - {callId}, wires[1..])
      case WireAssistant(_, callIds) => owed == {} && Distinct(callIds) && WirePaired(Elements(callIds), wires[1..])
      case _ => owed == {} && WirePaired({}, wires[1..])
  }

  /** The calls owed after one message. */
  function OwedAfter(owed: set<string>, m: Prepared): set<string> {
    match m
    case PreparedUser(_) => {}
    case PreparedAssistant(_, calls) => Elements(PreparedIds(calls))
    case PreparedTool(callId, _, _, _, _, _) => owed - {callId}
  }

  /** What one message adds keeps the pairing, if the rest does. */
  lemma OneIsPaired(o: Options, owed: set<string>, pending: seq<string>, messages: seq<Prepared>, later: seq<Wire>)
    requires messages != [] && Paired(owed, messages)
    requires EncodeOne(o, pending, messages[0], messages[1..]).Some?
    requires WirePaired(OwedAfter(owed, messages[0]), later)
    ensures WirePaired(owed, EncodeOne(o, pending, messages[0], messages[1..]).value.wires + later)
  {
    var m, rest := messages[0], messages[1..];
    var wires := EncodeOne(o, pending, m, rest).value.wires;
    assert (wires + later)[0] == wires[0] && (wires + later)[1..] == wires[1..] + later;
    if m.PreparedTool? {
      var added := AfterResult(o, pending + ImagesOf(m.content), rest);
      assert wires[1..] == added;
      if added == [] {
        assert added + later == later;
      } else {
        assert (added + later)[0] == added[0] && (added + later)[1..] == later;
      }
    } else {
      assert wires[1..] + later == later;
    }
  }

  lemma {:induction false} ResultsFollowCalls(o: Options, owed: set<string>, pending: seq<string>, messages: seq<Prepared>)
    requires Paired(owed, messages) && EncodeFrom(o, pending, messages).Some?
    ensures WirePaired(owed, EncodeFrom(o, pending, messages).value)
    decreases |messages|
  {
    if messages != [] {
      var first := EncodeOne(o, pending, messages[0], messages[1..]).value;
      ResultsFollowCalls(o, OwedAfter(owed, messages[0]), first.pending, messages[1..]);
      OneIsPaired(o, owed, pending, messages, EncodeFrom(o, first.pending, messages[1..]).value);
    }
  }

  // ----- no image is lost -----

  function SentImages(wires: seq<Wire>): seq<string> {
    if wires == [] then []
    else (if wires[0].WireImages? then wires[0].images else []) + SentImages(wires[1..])
  }

  function ToolImages(messages: seq<Prepared>): seq<string> {
    if messages == [] then []
    else (if messages[0].PreparedTool? then ImagesOf(messages[0].content) else []) + ToolImages(messages[1..])
  }

  lemma {:induction false} SentOf(a: seq<Wire>, b: seq<Wire>)
    ensures SentImages(a + b) == SentImages(a) + SentImages(b)
  {
    if a == [] {
      assert a + b == b;
    } else {
      assert (a + b)[1..] == a[1..] + b;
      SentOf(a[1..], b);
    }
  }

  /** One message sends the images that do not stay deferred. */
  lemma OneKeepsImages(o: Options, pending: seq<string>, m: Prepared, rest: seq<Prepared>)
    requires EncodeOne(o, pending, m, rest).Some? && (m.PreparedTool? || pending == [])
    ensures var first := EncodeOne(o, pending, m, rest).value;
            && SentImages(first.wires) + first.pending == pending + (if m.PreparedTool? then ImagesOf(m.content) else [])
            && (first.pending != [] ==> rest != [] && rest[0].PreparedTool?)
  {
    if m.PreparedTool? {
      var added := AfterResult(o, pending + ImagesOf(m.content), rest);
      SentOf([WireTool(m.callId, ToolText(m.content))], added);
      assert added != [] ==> added == [added[0]] && added[1..] == [];
    }
  }

  lemma SentThenLater(sent: seq<string>, still: seq<string>, before: seq<string>, images: seq<string>, later: seq<string>)
    requires sent + still == before + images
    ensures sent + (still + later) == before + (images + later)
  {
    assert sent + (still + later) == (sent + still) + later;
    assert before + (images + later) == (before + images) + later;
  }

  /** Every image of a result is sent once, in order, after the run it belongs to. */
  lemma {:induction false} ImagesKept(o: Options, pending: seq<string>, messages: seq<Prepared>)
    requires EncodeFrom(o, pending, messages).Some?
    requires pending != [] ==> messages != [] && messages[0].PreparedTool?
    ensures SentImages(EncodeFrom(o, pending, messages).value) == pending + ToolImages(messages)
    decreases |messages|
  {
    if messages != [] {
      var m, rest := messages[0], messages[1..];
      var first := EncodeOne(o, pending, m, rest).value;
      OneKeepsImages(o, pending, m, rest);
      ImagesKept(o, first.pending, rest);
      SentOf(first.wires, EncodeFrom(o, first.pending, rest).value);
      SentThenLater(SentImages(first.wires), first.pending, pending,
        if m.PreparedTool? then ImagesOf(m.content) else [], ToolImages(rest));
    }
  }
}
