/** The opening table used when the corpus file cannot be loaded
    (openings_db.py:12-23, repeated at openings_db.py:98-109), and the proof
    that it is consistent with the parser's normalisation. */
module FallbackTable {
  import opened Chars
  import opened Strings
  import opened Spacing
  import opened Openings

  /** The ten entries used when the corpus file cannot be loaded. */
  const Fallback: seq<Entry> := [
    Entry("e4 e5 Nf3 Nc6 Bc4", "Italian Game", "1.e4 e5 2.Nf3 Nc6 3.Bc4"),
    Entry("e4 e5 Nf3 Nc6 Bc4 Bc5", "Italian Game, Giuoco Piano", "1.e4 e5 2.Nf3 Nc6 3.Bc4 Bc5"),
    Entry("e4 e5 Nf3 Nc6 Bb5", "Ruy Lopez", "1.e4 e5 2.Nf3 Nc6 3.Bb5"),
    Entry("e4 c5", "Sicilian Defense", "1.e4 c5"),
    Entry("e4 e6", "French Defense", "1.e4 e6"),
    Entry("e4 c6", "Caro-Kann Defense", "1.e4 c6"),
    Entry("d4 d5 c4", "Queen's Gambit", "1.d4 d5 2.c4"),
    Entry("c4", "English Opening", "1.c4"),
    Entry("Nf3", "Reti Opening", "1.Nf3"),
    Entry("g3", "King's Fianchetto Opening", "1.g3")
  ]

  /** The first two entries and the key lengths of the table. */
  lemma FallbackEntries()
    ensures |Fallback| == 10
    ensures Fallback[0].moves == "e4 e5 Nf3 Nc6 Bc4"
    ensures Fallback[1] == Entry("e4 e5 Nf3 Nc6 Bc4 Bc5", "Italian Game, Giuoco Piano", "1.e4 e5 2.Nf3 Nc6 3.Bc4 Bc5")
    ensures forall k :: 0 <= k < |Fallback| ==> |Fallback[k].moves| <= 21
  {
  }

  /** Every fallback entry is what the parser would have stored for its own
      move text: its key is the normalised move text. */
  lemma FallbackWellFormed()
    ensures forall k :: 0 <= k < |Fallback| ==> WellFormed(Fallback[k])
  {
    forall k | 0 <= k < |Fallback| ensures WellFormed(Fallback[k]) {
      if k == 0 { FallbackEntry0(Fallback[k]); }
      else if k == 1 { FallbackEntry1(Fallback[k]); }
      else if k == 2 { FallbackEntry2(Fallback[k]); }
      else if k == 3 { FallbackEntry3(Fallback[k]); }
      else if k == 4 { FallbackEntry4(Fallback[k]); }
      else if k == 5 { FallbackEntry5(Fallback[k]); }
      else if k == 6 { FallbackEntry6(Fallback[k]); }
      else if k == 7 { FallbackEntry7(Fallback[k]); }
      else if k == 8 { FallbackEntry8(Fallback[k]); }
      else { FallbackEntry9(Fallback[k]); }
    }
  }

  /** One token of move text as the table writes it: an optional move
      number and the move. */
  datatype Token = Token(number: string, move: string)

  /** A token the normalisation treats simply: a one-digit move number or
      none, and a move with no whitespace and no dot. */
  predicate PlainToken(t: Token) {
    NumberPrefix(t.number) && IsWord(t.move) && '.' !in t.move
  }

  /** The move text spelled from its tokens, separated by single spaces. */
  function Spell(ts: seq<Token>): string {
    if |ts| == 0 then ""
    else if |ts| == 1 then ts[0].number + ts[0].move
    else ts[0].number + ts[0].move + " " + Spell(ts[1..])
  }

  /** The moves of the tokens, separated by single spaces. */
  function Key(ts: seq<Token>): string {
    if |ts| == 0 then ""
    else if |ts| == 1 then ts[0].move
    else ts[0].move + " " + Key(ts[1..])
  }

  /** Normalising move text made of plain tokens drops the move numbers and
      keeps the moves, one space apart. */
  lemma {:induction false} NormalizeSpell(ts: seq<Token>)
    requires |ts| > 0 && forall k :: 0 <= k < |ts| ==> PlainToken(ts[k])
    ensures Normalize(Spell(ts)) == Key(ts) != ""
  {
    if |ts| == 1 {
      NormalizeLastToken(ts[0].number, ts[0].move);
    } else {
      NormalizeSpell(ts[1..]);
      NormalizeToken(ts[0].number, ts[0].move, Spell(ts[1..]));
    }
  }

  lemma FallbackEntry0(e: Entry)
    requires e == Entry("e4 e5 Nf3 Nc6 Bc4", "Italian Game", "1.e4 e5 2.Nf3 Nc6 3.Bc4")
    ensures WellFormed(e)
  {
    FallbackKey0();
    FallbackLine0();
  }

  lemma FallbackEntry1(e: Entry)
    requires e == Entry("e4 e5 Nf3 Nc6 Bc4 Bc5", "Italian Game, Giuoco Piano", "1.e4 e5 2.Nf3 Nc6 3.Bc4 Bc5")
    ensures WellFormed(e)
  {
    FallbackKey1();
    FallbackLine1();
  }

  lemma FallbackEntry2(e: Entry)
    requires e == Entry("e4 e5 Nf3 Nc6 Bb5", "Ruy Lopez", "1.e4 e5 2.Nf3 Nc6 3.Bb5")
    ensures WellFormed(e)
  {
    FallbackKey2();
    FallbackLine2();
  }

  lemma FallbackEntry3(e: Entry)
    requires e == Entry("e4 c5", "Sicilian Defense", "1.e4 c5")
    ensures WellFormed(e)
  {
    FallbackKey3();
    FallbackLine3();
  }

  lemma FallbackEntry4(e: Entry)
    requires e == Entry("e4 e6", "French Defense", "1.e4 e6")
    ensures WellFormed(e)
  {
    FallbackKey4();
    FallbackLine4();
  }

  lemma FallbackEntry5(e: Entry)
    requires e == Entry("e4 c6", "Caro-Kann Defense", "1.e4 c6")
    ensures WellFormed(e)
  {
    FallbackKey5();
    FallbackLine5();
  }

  lemma FallbackEntry6(e: Entry)
    requires e == Entry("d4 d5 c4", "Queen's Gambit", "1.d4 d5 2.c4")
    ensures WellFormed(e)
  {
    FallbackKey6();
    FallbackLine6();
  }

  lemma FallbackEntry7(e: Entry)
    requires e == Entry("c4", "English Opening", "1.c4")
    ensures WellFormed(e)
  {
    FallbackKey7();
    FallbackLine7();
  }

  lemma FallbackEntry8(e: Entry)
    requires e == Entry("Nf3", "Reti Opening", "1.Nf3")
    ensures WellFormed(e)
  {
    FallbackKey8();
    FallbackLine8();
  }

  lemma FallbackEntry9(e: Entry)
    requires e == Entry("g3", "King's Fianchetto Opening", "1.g3")
    ensures WellFormed(e)
  {
    FallbackKey9();
    FallbackLine9();
  }

  // The move texts of the table, token by token. Each fact about a
  // literal is its own small lemma, so the solver never has to evaluate the
  // normalisation of a literal.

  const Tokens0 := [Token("1.", "e4"), Token("", "e5"), Token("2.", "Nf3"), Token("", "Nc6"), Token("3.", "Bc4")]

  lemma Tokens0Plain()
    ensures |Tokens0| > 0 && forall k :: 0 <= k < |Tokens0| ==> PlainToken(Tokens0[k])
  {
  }

  lemma Tokens0Spell()
    ensures Spell(Tokens0) == "1.e4 e5 2.Nf3 Nc6 3.Bc4"
  {
  }

  lemma Tokens0Key()
    ensures Key(Tokens0) == "e4 e5 Nf3 Nc6 Bc4"
  {
  }

  lemma FallbackKey0()
    ensures Normalize("1.e4 e5 2.Nf3 Nc6 3.Bc4") == "e4 e5 Nf3 Nc6 Bc4"
  {
    Tokens0Plain();
    NormalizeSpell(Tokens0);
    Tokens0Spell();
    Tokens0Key();
  }

  lemma FallbackLine0()
    ensures MoveText("1.e4 e5 2.Nf3 Nc6 3.Bc4")
  {
    MoveTextAppend("1.e4 e5 2.Nf3 ", "Nc6 3.Bc4");
    assert "1.e4 e5 2.Nf3 " + "Nc6 3.Bc4" == "1.e4 e5 2.Nf3 Nc6 3.Bc4";
  }

  const Tokens1 := [Token("1.", "e4"), Token("", "e5"), Token("2.", "Nf3"), Token("", "Nc6"), Token("3.", "Bc4"), Token("", "Bc5")]

  lemma Tokens1Plain()
    ensures |Tokens1| > 0 && forall k :: 0 <= k < |Tokens1| ==> PlainToken(Tokens1[k])
  {
  }

  lemma Tokens1Spell()
    ensures Spell(Tokens1) == "1.e4 e5 2.Nf3 Nc6 3.Bc4 Bc5"
  {
  }

  lemma Tokens1Key()
    ensures Key(Tokens1) == "e4 e5 Nf3 Nc6 Bc4 Bc5"
  {
  }

  lemma FallbackKey1()
    ensures Normalize("1.e4 e5 2.Nf3 Nc6 3.Bc4 Bc5") == "e4 e5 Nf3 Nc6 Bc4 Bc5"
  {
    Tokens1Plain();
    NormalizeSpell(Tokens1);
    Tokens1Spell();
    Tokens1Key();
  }

  lemma FallbackLine1()
    ensures MoveText("1.e4 e5 2.Nf3 Nc6 3.Bc4 Bc5")
  {
    MoveTextAppend("1.e4 e5 2.Nf3 ", "Nc6 3.Bc4 Bc5");
    assert "1.e4 e5 2.Nf3 " + "Nc6 3.Bc4 Bc5" == "1.e4 e5 2.Nf3 Nc6 3.Bc4 Bc5";
  }

  const Tokens2 := [Token("1.", "e4"), Token("", "e5"), Token("2.", "Nf3"), Token("", "Nc6"), Token("3.", "Bb5")]

  lemma Tokens2Plain()
    ensures |Tokens2| > 0 && forall k :: 0 <= k < |Tokens2| ==> PlainToken(Tokens2[k])
  {
  }

  lemma Tokens2Spell()
    ensures Spell(Tokens2) == "1.e4 e5 2.Nf3 Nc6 3.Bb5"
  {
  }

  lemma Tokens2Key()
    ensures Key(Tokens2) == "e4 e5 Nf3 Nc6 Bb5"
  {
  }

  lemma FallbackKey2()
    ensures Normalize("1.e4 e5 2.Nf3 Nc6 3.Bb5") == "e4 e5 Nf3 Nc6 Bb5"
  {
    Tokens2Plain();
    NormalizeSpell(Tokens2);
    Tokens2Spell();
    Tokens2Key();
  }

  lemma FallbackLine2()
    ensures MoveText("1.e4 e5 2.Nf3 Nc6 3.Bb5")
  {
    MoveTextAppend("1.e4 e5 2.Nf3 ", "Nc6 3.Bb5");
    assert "1.e4 e5 2.Nf3 " + "Nc6 3.Bb5" == "1.e4 e5 2.Nf3 Nc6 3.Bb5";
  }

  const Tokens3 := [Token("1.", "e4"), Token("", "c5")]

  lemma Tokens3Plain()
    ensures |Tokens3| > 0 && forall k :: 0 <= k < |Tokens3| ==> PlainToken(Tokens3[k])
  {
  }

  lemma Tokens3Spell()
    ensures Spell(Tokens3) == "1.e4 c5"
  {
  }

  lemma Tokens3Key()
    ensures Key(Tokens3) == "e4 c5"
  {
  }

  lemma FallbackKey3()
    ensures Normalize("1.e4 c5") == "e4 c5"
  {
    Tokens3Plain();
    NormalizeSpell(Tokens3);
    Tokens3Spell();
    Tokens3Key();
  }

  lemma FallbackLine3()
    ensures MoveText("1.e4 c5")
  {
  }

  const Tokens4 := [Token("1.", "e4"), Token("", "e6")]

  lemma Tokens4Plain()
    ensures |Tokens4| > 0 && forall k :: 0 <= k < |Tokens4| ==> PlainToken(Tokens4[k])
  {
  }

  lemma Tokens4Spell()
    ensures Spell(Tokens4) == "1.e4 e6"
  {
  }

  lemma Tokens4Key()
    ensures Key(Tokens4) == "e4 e6"
  {
  }

  lemma FallbackKey4()
    ensures Normalize("1.e4 e6") == "e4 e6"
  {
    Tokens4Plain();
    NormalizeSpell(Tokens4);
    Tokens4Spell();
    Tokens4Key();
  }

  lemma FallbackLine4()
    ensures MoveText("1.e4 e6")
  {
  }

  const Tokens5 := [Token("1.", "e4"), Token("", "c6")]

  lemma Tokens5Plain()
    ensures |Tokens5| > 0 && forall k :: 0 <= k < |Tokens5| ==> PlainToken(Tokens5[k])
  {
  }

  lemma Tokens5Spell()
    ensures Spell(Tokens5) == "1.e4 c6"
  {
  }

  lemma Tokens5Key()
    ensures Key(Tokens5) == "e4 c6"
  {
  }

  lemma FallbackKey5()
    ensures Normalize("1.e4 c6") == "e4 c6"
  {
    Tokens5Plain();
    NormalizeSpell(Tokens5);
    Tokens5Spell();
    Tokens5Key();
  }

  lemma FallbackLine5()
    ensures MoveText("1.e4 c6")
  {
  }

  const Tokens6 := [Token("1.", "d4"), Token("", "d5"), Token("2.", "c4")]

  lemma Tokens6Plain()
    ensures |Tokens6| > 0 && forall k :: 0 <= k < |Tokens6| ==> PlainToken(Tokens6[k])
  {
  }

  lemma Tokens6Spell()
    ensures Spell(Tokens6) == "1.d4 d5 2.c4"
  {
  }

  lemma Tokens6Key()
    ensures Key(Tokens6) == "d4 d5 c4"
  {
  }

  lemma FallbackKey6()
    ensures Normalize("1.d4 d5 2.c4") == "d4 d5 c4"
  {
    Tokens6Plain();
    NormalizeSpell(Tokens6);
    Tokens6Spell();
    Tokens6Key();
  }

  lemma FallbackLine6()
    ensures MoveText("1.d4 d5 2.c4")
  {
  }

  lemma FallbackKey7()
    ensures Normalize("1.c4") == "c4"
  {
    NormalizeLastToken("1.", "c4");
    assert "1." + "c4" == "1.c4";
  }

  lemma FallbackLine7()
    ensures MoveText("1.c4")
  {
  }

  lemma FallbackKey8()
    ensures Normalize("1.Nf3") == "Nf3"
  {
    NormalizeLastToken("1.", "Nf3");
    assert "1." + "Nf3" == "1.Nf3";
  }

  lemma FallbackLine8()
    ensures MoveText("1.Nf3")
  {
  }

  lemma FallbackKey9()
    ensures Normalize("1.g3") == "g3"
  {
    NormalizeLastToken("1.", "g3");
    assert "1." + "g3" == "1.g3";
  }

  lemma FallbackLine9()
    ensures MoveText("1.g3")
  {
  }
}
