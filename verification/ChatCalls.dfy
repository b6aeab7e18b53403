/**
 * What becomes of one tool call, read off its pieces: its id, name and form, its text, and
 * what is emitted of that text while the pieces arrive.
 */
module ChatCalls {
  import opened Wrappers
  import opened Basics
  import opened JsonValues
  import opened StreamEvents
  import opened ChatStream

  /** The pieces of the call at `index`, in order. */
  function PiecesAt(pieces: seq<ToolPiece>, index: nat): (own: seq<ToolPiece>)
    ensures forall piece <- own :: piece.ToolPiece?
  {
    if pieces == [] then []
    else
      var last := pieces[|pieces| - 1];
      PiecesAt(pieces[..|pieces| - 1], index) + if last.ToolPiece? && last.index == index then [last] else []
  }

  ghost predicate AreOf(own: seq<ToolPiece>) {
    forall piece <- own :: piece.ToolPiece?
  }

  // ----- what pieces say -----

  function IdOf(own: seq<ToolPiece>): string
    requires AreOf(own)
  {
    if own == [] then "" else Or(IdOf(own[..|own| - 1]), own[|own| - 1].id)
  }

  function NameOf(own: seq<ToolPiece>): string
    requires AreOf(own)
  {
    if own == [] then ""
    else Or(Or(NameOf(own[..|own| - 1]), own[|own| - 1].functionName), own[|own| - 1].customName)
  }

  function ArgumentsOf(own: seq<ToolPiece>): string
    requires AreOf(own)
  {
    if own == [] then "" else ArgumentsOf(own[..|own| - 1]) + own[|own| - 1].arguments
  }

  function RawInputOf(own: seq<ToolPiece>): string
    requires AreOf(own)
  {
    if own == [] then ""
    else
      var input := own[|own| - 1].customInput;
      RawInputOf(own[..|own| - 1]) + if input.Some? then input.value else ""
  }

  predicate IsCustom(own: seq<ToolPiece>)
    requires AreOf(own)
  {
    exists piece <- own :: piece.customInput.Some?
  }

  predicate IsNamed(own: seq<ToolPiece>)
    requires AreOf(own)
  {
    IdOf(own) != "" && NameOf(own) != ""
  }

  /** The arguments that are out when the first raw input comes: none before id and name are known. */
  function BeforeCustom(own: seq<ToolPiece>): string
    requires AreOf(own)
  {
    if !IsCustom(own) then (if IsNamed(own) then ArgumentsOf(own) else "")
    else BeforeCustom(own[..|own| - 1])
  }

  /** Nothing was emitted that the raw input of the call does not start with. */
  predicate Coherent(own: seq<ToolPiece>)
    requires AreOf(own)
  {
    IsCustom(own) ==> BeforeCustom(own) <= RawInputOf(own)
  }

  // ----- what a call becomes -----

  /** A call after its pieces, and what its deltas have spelled. */
  function Grow(o: Options, contentIndex: nat, own: seq<ToolPiece>): (Accumulator, string)
    requires AreOf(own)
  {
    if own == [] then (NewCall(contentIndex), "")
    else
      var (acc, spelled) := Grow(o, contentIndex, own[..|own| - 1]);
      Onward(o, acc, spelled, own[|own| - 1])
  }

  function Onward(o: Options, acc: Accumulator, spelled: string, piece: ToolPiece): (Accumulator, string)
    requires piece.ToolPiece?
  {
    var grown := Add(acc, piece);
    var next := Emit(o, grown).0;
    (next, spelled + if next.started then Unsent(grown) else "")
  }

  lemma GrowSnoc(o: Options, contentIndex: nat, own: seq<ToolPiece>, piece: ToolPiece)
    requires AreOf(own) && piece.ToolPiece?
    ensures var (acc, spelled) := Grow(o, contentIndex, own);
            Grow(o, contentIndex, own + [piece]) == Onward(o, acc, spelled, piece)
  {
    assert (own + [piece])[..|own|] == own;
  }

  lemma IsCustomSnoc(own: seq<ToolPiece>, piece: ToolPiece)
    requires AreOf(own) && piece.ToolPiece?
    ensures IsCustom(own + [piece]) <==> IsCustom(own) || piece.customInput.Some?
    ensures IsNamed(own) ==> IsNamed(own + [piece])
    ensures IsCustom(own + [piece]) ==> BeforeCustom(own + [piece]) == BeforeCustom(own)
  {
    assert (own + [piece])[..|own|] == own;
    if piece0 :| piece0 in own && piece0.customInput.Some? {
      assert piece0 in own + [piece];
    }
    if piece.customInput.Some? {
      assert piece in own + [piece];
    }
  }

  ghost predicate FieldsAre(acc: Accumulator, contentIndex: nat, own: seq<ToolPiece>)
    requires AreOf(own)
  {
    && acc.contentIndex == contentIndex && acc.id == IdOf(own) && acc.name == NameOf(own)
    && acc.arguments == ArgumentsOf(own) && acc.customInput == RawInputOf(own)
    && (acc.custom <==> IsCustom(own)) && (acc.started <==> IsNamed(own))
    && (!IsCustom(own) ==> RawInputOf(own) == "")
  }

  lemma FieldsOneMore(o: Options, contentIndex: nat, own: seq<ToolPiece>, piece: ToolPiece)
    requires AreOf(own) && piece.ToolPiece? && FieldsAre(Grow(o, contentIndex, own).0, contentIndex, own)
    ensures FieldsAre(Grow(o, contentIndex, own + [piece]).0, contentIndex, own + [piece])
  {
    GrowSnoc(o, contentIndex, own, piece);
    IsCustomSnoc(own, piece);
    assert (own + [piece])[..|own|] == own;
  }

  /** The fields of a call are what its pieces say. */
  lemma {:induction false} FieldsReadOff(o: Options, contentIndex: nat, own: seq<ToolPiece>)
    requires AreOf(own)
    ensures FieldsAre(Grow(o, contentIndex, own).0, contentIndex, own)
  {
    if own != [] {
      var init, last := own[..|own| - 1], own[|own| - 1];
      assert own == init + [last];
      FieldsReadOff(o, contentIndex, init);
      FieldsOneMore(o, contentIndex, init, last);
    }
  }

  // ----- what its deltas spell -----

  /** What has been emitted once `before` was out and the text turned out to be `text`. */
  function Overtaken(before: string, text: string): string {
    if |text| <= |before| then before else before + text[|before|..]
  }

  function Rest(text: string, sent: nat): string {
    if |text| > sent then text[sent..] else ""
  }

  lemma OvertakenGrows(before: string, text: string, more: string)
    ensures Overtaken(before, text) + Rest(text + more, |Overtaken(before, text)|) == Overtaken(before, text + more)
  {
    var sent, all := Overtaken(before, text), text + more;
    if |all| <= |before| {
      assert sent + "" == sent;
    } else if |text| <= |before| {
    } else {
      assert all[|before|..] == text[|before|..] + more;
      assert all[|sent|..] == more;
      assert more == "" ==> sent + "" == sent;
    }
  }

  lemma OvertakenIsText(before: string, text: string)
    ensures Overtaken(before, text) == text <==> before <= text
  {
    if before <= text {
      assert before + text[|before|..] == text;
    } else {
      assert before <= Overtaken(before, text);
    }
  }

  /** What is spelled of a call: nothing before it has a name, then its text past what was out. */
  function SpelledOf(own: seq<ToolPiece>): string
    requires AreOf(own)
  {
    if !IsNamed(own) then ""
    else if IsCustom(own) then Overtaken(BeforeCustom(own), RawInputOf(own))
    else ArgumentsOf(own)
  }

  lemma {:induction false} SpellsItsText(o: Options, contentIndex: nat, own: seq<ToolPiece>)
    requires AreOf(own)
    ensures var (acc, spelled) := Grow(o, contentIndex, own);
            spelled == SpelledOf(own) && acc.emittedArguments == |spelled|
    ensures !IsNamed(own) ==> BeforeCustom(own) == ""
  {
    if own != [] {
      var init, last := own[..|own| - 1], own[|own| - 1];
      assert own == init + [last];
      SpellsItsText(o, contentIndex, init);
      SpellsOneMore(o, contentIndex, init, last);
    }
  }

  lemma SpellsOneMore(o: Options, contentIndex: nat, own: seq<ToolPiece>, piece: ToolPiece)
    requires AreOf(own) && piece.ToolPiece?
    requires var (acc, spelled) := Grow(o, contentIndex, own);
             spelled == SpelledOf(own) && acc.emittedArguments == |spelled|
    requires !IsNamed(own) ==> BeforeCustom(own) == ""
    ensures var (acc, spelled) := Grow(o, contentIndex, own + [piece]);
            spelled == SpelledOf(own + [piece]) && acc.emittedArguments == |spelled|
    ensures !IsNamed(own + [piece]) ==> BeforeCustom(own + [piece]) == ""
  {
    var all := own + [piece];
    var (acc, spelled) := Grow(o, contentIndex, own);
    var grown := Add(acc, piece);
    FieldsReadOff(o, contentIndex, own);
    FieldsReadOff(o, contentIndex, all);
    GrowSnoc(o, contentIndex, own, piece);
    IsCustomSnoc(own, piece);
    var next := Grow(o, contentIndex, all).0;
    assert Unsent(grown) == Rest(TextOf(grown), |spelled|);
    if IsNamed(all) {
      if IsCustom(all) {
        var more := if piece.customInput.Some? then piece.customInput.value else "";
        if IsNamed(own) && IsCustom(own) {
          OvertakenGrows(BeforeCustom(own), RawInputOf(own), more);
        } else {
          assert BeforeCustom(own) == spelled;
          OvertakenGrows(spelled, "", RawInputOf(all));
          assert "" + RawInputOf(all) == RawInputOf(all);
        }
      } else {
        OvertakenGrows(spelled, spelled, ArgumentsOf(all)[|spelled|..]);
        assert spelled <= ArgumentsOf(all);
      }
    } else {
      assert spelled + "" == spelled;
    }
  }

  /** The deltas of a call spell its text if and only if what was out before is a start of it. */
  lemma SpellsTextIff(o: Options, contentIndex: nat, own: seq<ToolPiece>)
    requires AreOf(own) && IsNamed(own)
    ensures var (acc, spelled) := Grow(o, contentIndex, own);
            spelled == TextOf(acc) <==> Coherent(own)
  {
    FieldsReadOff(o, contentIndex, own);
    SpellsItsText(o, contentIndex, own);
    if IsCustom(own) {
      OvertakenIsText(BeforeCustom(own), RawInputOf(own));
    }
  }
}
