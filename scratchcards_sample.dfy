/**
 * The unit tests of day 4, proved on the model. Each test line is written as
 * its numbers in two-character columns glued together by spaces after
 * `Card <n>:`, grouped the way the rendering of `CardRender` builds it, so the
 * round trip of `parse_input` reads it back; the scores, `sum_of_points` and
 * `sum_of_cards` follow card by card.
 */
module ScratchcardsSample {
  import opened Text
  import opened Scratchcards
  import opened CardRender


  lemma Field1(v0: nat)
    ensures Field([v0]) == Pad(v0)
  {
  }

  lemma Field2(v0: nat, v1: nat)
    ensures Field([v0, v1]) == Pad(v0) + " " + Pad(v1)
  {
    assert [v0, v1][1..] == [v1];
    Field1(v1);
  }

  lemma Field3(v0: nat, v1: nat, v2: nat)
    ensures Field([v0, v1, v2]) == Pad(v0) + " " + (Pad(v1) + " " + Pad(v2))
  {
    assert [v0, v1, v2][1..] == [v1, v2];
    Field2(v1, v2);
  }

  lemma Field4(v0: nat, v1: nat, v2: nat, v3: nat)
    ensures Field([v0, v1, v2, v3]) == Pad(v0) + " " + (Pad(v1) + " " + (Pad(v2) + " " + Pad(v3)))
  {
    assert [v0, v1, v2, v3][1..] == [v1, v2, v3];
    Field3(v1, v2, v3);
  }

  lemma Field5(v0: nat, v1: nat, v2: nat, v3: nat, v4: nat)
    ensures Field([v0, v1, v2, v3, v4]) == Pad(v0) + " " + (Pad(v1) + " " + (Pad(v2) + " " + (Pad(v3) + " " + Pad(v4))))
  {
    assert [v0, v1, v2, v3, v4][1..] == [v1, v2, v3, v4];
    Field4(v1, v2, v3, v4);
  }

  lemma Field6(v0: nat, v1: nat, v2: nat, v3: nat, v4: nat, v5: nat)
    ensures Field([v0, v1, v2, v3, v4, v5]) == Pad(v0) + " " + (Pad(v1) + " " + (Pad(v2) + " " + (Pad(v3) + " " + (Pad(v4) + " " + Pad(v5)))))
  {
    assert [v0, v1, v2, v3, v4, v5][1..] == [v1, v2, v3, v4, v5];
    Field5(v1, v2, v3, v4, v5);
  }

  lemma Field7(v0: nat, v1: nat, v2: nat, v3: nat, v4: nat, v5: nat, v6: nat)
    ensures Field([v0, v1, v2, v3, v4, v5, v6]) == Pad(v0) + " " + (Pad(v1) + " " + (Pad(v2) + " " + (Pad(v3) + " " + (Pad(v4) + " " + (Pad(v5) + " " + Pad(v6))))))
  {
    assert [v0, v1, v2, v3, v4, v5, v6][1..] == [v1, v2, v3, v4, v5, v6];
    Field6(v1, v2, v3, v4, v5, v6);
  }

  lemma Field8(v0: nat, v1: nat, v2: nat, v3: nat, v4: nat, v5: nat, v6: nat, v7: nat)
    ensures Field([v0, v1, v2, v3, v4, v5, v6, v7]) == Pad(v0) + " " + (Pad(v1) + " " + (Pad(v2) + " " + (Pad(v3) + " " + (Pad(v4) + " " + (Pad(v5) + " " + (Pad(v6) + " " + Pad(v7)))))))
  {
    assert [v0, v1, v2, v3, v4, v5, v6, v7][1..] == [v1, v2, v3, v4, v5, v6, v7];
    Field7(v1, v2, v3, v4, v5, v6, v7);
  }

  lemma Pad1()
    ensures Pad(1) == " 1"
  {
  }

  lemma Pad5()
    ensures Pad(5) == " 5"
  {
  }

  lemma Pad6()
    ensures Pad(6) == " 6"
  {
  }

  lemma Pad9()
    ensures Pad(9) == " 9"
  {
  }

  lemma Pad10()
    ensures Pad(10) == "10"
  {
  }

  lemma Pad11()
    ensures Pad(11) == "11"
  {
  }

  lemma Pad12()
    ensures Pad(12) == "12"
  {
  }

  lemma Pad13()
    ensures Pad(13) == "13"
  {
  }

  lemma Pad14()
    ensures Pad(14) == "14"
  {
  }

  lemma Pad16()
    ensures Pad(16) == "16"
  {
  }

  lemma Pad17()
    ensures Pad(17) == "17"
  {
  }

  lemma Pad18()
    ensures Pad(18) == "18"
  {
  }

  lemma Pad19()
    ensures Pad(19) == "19"
  {
  }

  lemma Pad20()
    ensures Pad(20) == "20"
  {
  }

  lemma Pad21()
    ensures Pad(21) == "21"
  {
  }

  lemma Pad22()
    ensures Pad(22) == "22"
  {
  }

  lemma Pad23()
    ensures Pad(23) == "23"
  {
  }

  lemma Pad24()
    ensures Pad(24) == "24"
  {
  }

  lemma Pad26()
    ensures Pad(26) == "26"
  {
  }

  lemma Pad28()
    ensures Pad(28) == "28"
  {
  }

  lemma Pad30()
    ensures Pad(30) == "30"
  {
  }

  lemma Pad31()
    ensures Pad(31) == "31"
  {
  }

  lemma Pad32()
    ensures Pad(32) == "32"
  {
  }

  lemma Pad35()
    ensures Pad(35) == "35"
  {
  }

  lemma Pad36()
    ensures Pad(36) == "36"
  {
  }

  lemma Pad41()
    ensures Pad(41) == "41"
  {
  }

  lemma Pad44()
    ensures Pad(44) == "44"
  {
  }

  lemma Pad48()
    ensures Pad(48) == "48"
  {
  }

  lemma Pad51()
    ensures Pad(51) == "51"
  {
  }

  lemma Pad53()
    ensures Pad(53) == "53"
  {
  }

  lemma Pad54()
    ensures Pad(54) == "54"
  {
  }

  lemma Pad56()
    ensures Pad(56) == "56"
  {
  }

  lemma Pad58()
    ensures Pad(58) == "58"
  {
  }

  lemma Pad59()
    ensures Pad(59) == "59"
  {
  }

  lemma Pad61()
    ensures Pad(61) == "61"
  {
  }

  lemma Pad63()
    ensures Pad(63) == "63"
  {
  }

  lemma Pad67()
    ensures Pad(67) == "67"
  {
  }

  lemma Pad68()
    ensures Pad(68) == "68"
  {
  }

  lemma Pad69()
    ensures Pad(69) == "69"
  {
  }

  lemma Pad70()
    ensures Pad(70) == "70"
  {
  }

  lemma Pad72()
    ensures Pad(72) == "72"
  {
  }

  lemma Pad73()
    ensures Pad(73) == "73"
  {
  }

  lemma Pad74()
    ensures Pad(74) == "74"
  {
  }

  lemma Pad76()
    ensures Pad(76) == "76"
  {
  }

  lemma Pad77()
    ensures Pad(77) == "77"
  {
  }

  lemma Pad82()
    ensures Pad(82) == "82"
  {
  }

  lemma Pad83()
    ensures Pad(83) == "83"
  {
  }

  lemma Pad84()
    ensures Pad(84) == "84"
  {
  }

  lemma Pad86()
    ensures Pad(86) == "86"
  {
  }

  lemma Pad87()
    ensures Pad(87) == "87"
  {
  }

  lemma Pad88()
    ensures Pad(88) == "88"
  {
  }

  lemma Pad92()
    ensures Pad(92) == "92"
  {
  }

  lemma Pad93()
    ensures Pad(93) == "93"
  {
  }

  lemma Head1()
    ensures "Card " + NatString(1) + ":" == "Card 1:"
  {
  }

  lemma Head2()
    ensures "Card " + NatString(2) + ":" == "Card 2:"
  {
  }

  lemma Head3()
    ensures "Card " + NatString(3) + ":" == "Card 3:"
  {
  }

  lemma Head4()
    ensures "Card " + NatString(4) + ":" == "Card 4:"
  {
  }

  lemma Head5()
    ensures "Card " + NatString(5) + ":" == "Card 5:"
  {
  }

  lemma Head6()
    ensures "Card " + NatString(6) + ":" == "Card 6:"
  {
  }

  /** One more line read. */
  lemma CardsSnoc(lines: seq<string>, line: string)
    ensures Cards(lines + [line]) == Cards(lines) + [CardOf(line)]
  {
    assert (lines + [line])[..|lines|] == lines;
  }

  /** One more well-formed line. */
  lemma LinesOkSnoc(lines: seq<string>, line: string)
    requires LinesOk(lines) && LineOk(line)
    ensures LinesOk(lines + [line])
  {
    forall i | 0 <= i < |lines| + 1 ensures LineOk((lines + [line])[i]) {
      if i < |lines| {
        assert (lines + [line])[i] == lines[i];
      }
    }
  }

  /** `Card 1: 41 48 83 86 17 | 83 86  6 31 17  9 48 53` is the rendering of card 1. */
  lemma Card1Text()
    ensures CardText(Card(1, [41, 48, 83, 86, 17], [83, 86, 6, 31, 17, 9, 48, 53])) ==
            "Card 1:" + " " + ("41" + " " + ("48" + " " + ("83" + " " + ("86" + " " + "17")))) + " | " + ("83" + " " + ("86" + " " + (" 6" + " " + ("31" + " " + ("17" + " " + (" 9" + " " + ("48" + " " + "53")))))))
  {
    Head1();
    Field5(41, 48, 83, 86, 17);
    Field8(83, 86, 6, 31, 17, 9, 48, 53);
    Pad6();
    Pad9();
    Pad17();
    Pad31();
    Pad41();
    Pad48();
    Pad53();
    Pad83();
    Pad86();
  }

  /** `parse_input` reads `Card 1: 41 48 83 86 17 | 83 86  6 31 17  9 48 53`. */
  lemma Card1(line: string)
    requires line == "Card 1:" + " " + ("41" + " " + ("48" + " " + ("83" + " " + ("86" + " " + "17")))) + " | " + ("83" + " " + ("86" + " " + (" 6" + " " + ("31" + " " + ("17" + " " + (" 9" + " " + ("48" + " " + "53")))))))
    ensures LineOk(line) && CardOf(line) == Card(1, [41, 48, 83, 86, 17], [83, 86, 6, 31, 17, 9, 48, 53])
  {
    Card1Text();
    CardRoundTrip(Card(1, [41, 48, 83, 86, 17], [83, 86, 6, 31, 17, 9, 48, 53]));
  }

  /** Numbers like those of card 1 have 4 matches and score 8. */
  lemma Card1Counts(c: Card)
    requires c.winning == [41, 48, 83, 86, 17] && c.playing == [83, 86, 6, 31, 17, 9, 48, 53]
    ensures c.Matches() == 4 && c.Score() == 8
  {
    assert c.winning[..1][..0] == [];
    assert CountIn(c.winning[..1], c.playing) == 0;
    assert c.winning[..2][..1] == c.winning[..1];
    assert c.winning[1] == c.playing[6];
    assert CountIn(c.winning[..2], c.playing) == 1;
    assert c.winning[..3][..2] == c.winning[..2];
    assert c.winning[2] == c.playing[0];
    assert CountIn(c.winning[..3], c.playing) == 2;
    assert c.winning[..4][..3] == c.winning[..3];
    assert c.winning[3] == c.playing[1];
    assert CountIn(c.winning[..4], c.playing) == 3;
    assert c.winning[..5][..4] == c.winning[..4];
    assert c.winning[4] == c.playing[4];
    assert CountIn(c.winning[..5], c.playing) == 4;
    assert c.winning[..5] == c.winning;
  }

  /** `Card 2: 13 32 20 16 61 | 61 30 68 82 17 32 24 19` is the rendering of card 2. */
  lemma Card2Text()
    ensures CardText(Card(2, [13, 32, 20, 16, 61], [61, 30, 68, 82, 17, 32, 24, 19])) ==
            "Card 2:" + " " + ("13" + " " + ("32" + " " + ("20" + " " + ("16" + " " + "61")))) + " | " + ("61" + " " + ("30" + " " + ("68" + " " + ("82" + " " + ("17" + " " + ("32" + " " + ("24" + " " + "19")))))))
  {
    Head2();
    Field5(13, 32, 20, 16, 61);
    Field8(61, 30, 68, 82, 17, 32, 24, 19);
    Pad13();
    Pad16();
    Pad17();
    Pad19();
    Pad20();
    Pad24();
    Pad30();
    Pad32();
    Pad61();
    Pad68();
    Pad82();
  }

  /** `parse_input` reads `Card 2: 13 32 20 16 61 | 61 30 68 82 17 32 24 19`. */
  lemma Card2(line: string)
    requires line == "Card 2:" + " " + ("13" + " " + ("32" + " " + ("20" + " " + ("16" + " " + "61")))) + " | " + ("61" + " " + ("30" + " " + ("68" + " " + ("82" + " " + ("17" + " " + ("32" + " " + ("24" + " " + "19")))))))
    ensures LineOk(line) && CardOf(line) == Card(2, [13, 32, 20, 16, 61], [61, 30, 68, 82, 17, 32, 24, 19])
  {
    Card2Text();
    CardRoundTrip(Card(2, [13, 32, 20, 16, 61], [61, 30, 68, 82, 17, 32, 24, 19]));
  }

  /** Numbers like those of card 2 have 2 matches and score 2. */
  lemma Card2Counts(c: Card)
    requires c.winning == [13, 32, 20, 16, 61] && c.playing == [61, 30, 68, 82, 17, 32, 24, 19]
    ensures c.Matches() == 2 && c.Score() == 2
  {
    assert c.winning[..1][..0] == [];
    assert CountIn(c.winning[..1], c.playing) == 0;
    assert c.winning[..2][..1] == c.winning[..1];
    assert c.winning[1] == c.playing[5];
    assert CountIn(c.winning[..2], c.playing) == 1;
    assert c.winning[..3][..2] == c.winning[..2];
    assert CountIn(c.winning[..3], c.playing) == 1;
    assert c.winning[..4][..3] == c.winning[..3];
    assert CountIn(c.winning[..4], c.playing) == 1;
    assert c.winning[..5][..4] == c.winning[..4];
    assert c.winning[4] == c.playing[0];
    assert CountIn(c.winning[..5], c.playing) == 2;
    assert c.winning[..5] == c.winning;
  }

  /** `Card 3:  1 21 53 59 44 | 69 82 63 72 16 21 14  1` is the rendering of card 3. */
  lemma Card3Text()
    ensures CardText(Card(3, [1, 21, 53, 59, 44], [69, 82, 63, 72, 16, 21, 14, 1])) ==
            "Card 3:" + " " + (" 1" + " " + ("21" + " " + ("53" + " " + ("59" + " " + "44")))) + " | " + ("69" + " " + ("82" + " " + ("63" + " " + ("72" + " " + ("16" + " " + ("21" + " " + ("14" + " " + " 1")))))))
  {
    Head3();
    Field5(1, 21, 53, 59, 44);
    Field8(69, 82, 63, 72, 16, 21, 14, 1);
    Pad1();
    Pad14();
    Pad16();
    Pad21();
    Pad44();
    Pad53();
    Pad59();
    Pad63();
    Pad69();
    Pad72();
    Pad82();
  }

  /** `parse_input` reads `Card 3:  1 21 53 59 44 | 69 82 63 72 16 21 14  1`. */
  lemma Card3(line: string)
    requires line == "Card 3:" + " " + (" 1" + " " + ("21" + " " + ("53" + " " + ("59" + " " + "44")))) + " | " + ("69" + " " + ("82" + " " + ("63" + " " + ("72" + " " + ("16" + " " + ("21" + " " + ("14" + " " + " 1")))))))
    ensures LineOk(line) && CardOf(line) == Card(3, [1, 21, 53, 59, 44], [69, 82, 63, 72, 16, 21, 14, 1])
  {
    Card3Text();
    CardRoundTrip(Card(3, [1, 21, 53, 59, 44], [69, 82, 63, 72, 16, 21, 14, 1]));
  }

  /** Numbers like those of card 3 have 2 matches and score 2. */
  lemma Card3Counts(c: Card)
    requires c.winning == [1, 21, 53, 59, 44] && c.playing == [69, 82, 63, 72, 16, 21, 14, 1]
    ensures c.Matches() == 2 && c.Score() == 2
  {
    assert c.winning[..1][..0] == [];
    assert c.winning[0] == c.playing[7];
    assert CountIn(c.winning[..1], c.playing) == 1;
    assert c.winning[..2][..1] == c.winning[..1];
    assert c.winning[1] == c.playing[5];
    assert CountIn(c.winning[..2], c.playing) == 2;
    assert c.winning[..3][..2] == c.winning[..2];
    assert CountIn(c.winning[..3], c.playing) == 2;
    assert c.winning[..4][..3] == c.winning[..3];
    assert CountIn(c.winning[..4], c.playing) == 2;
    assert c.winning[..5][..4] == c.winning[..4];
    assert CountIn(c.winning[..5], c.playing) == 2;
    assert c.winning[..5] == c.winning;
  }

  /** `Card 4: 41 92 73 84 69 | 59 84 76 51 58  5 54 83` is the rendering of card 4. */
  lemma Card4Text()
    ensures CardText(Card(4, [41, 92, 73, 84, 69], [59, 84, 76, 51, 58, 5, 54, 83])) ==
            "Card 4:" + " " + ("41" + " " + ("92" + " " + ("73" + " " + ("84" + " " + "69")))) + " | " + ("59" + " " + ("84" + " " + ("76" + " " + ("51" + " " + ("58" + " " + (" 5" + " " + ("54" + " " + "83")))))))
  {
    Head4();
    Field5(41, 92, 73, 84, 69);
    Field8(59, 84, 76, 51, 58, 5, 54, 83);
    Pad5();
    Pad41();
    Pad51();
    Pad54();
    Pad58();
    Pad59();
    Pad69();
    Pad73();
    Pad76();
    Pad83();
    Pad84();
    Pad92();
  }

  /** `parse_input` reads `Card 4: 41 92 73 84 69 | 59 84 76 51 58  5 54 83`. */
  lemma Card4(line: string)
    requires line == "Card 4:" + " " + ("41" + " " + ("92" + " " + ("73" + " " + ("84" + " " + "69")))) + " | " + ("59" + " " + ("84" + " " + ("76" + " " + ("51" + " " + ("58" + " " + (" 5" + " " + ("54" + " " + "83")))))))
    ensures LineOk(line) && CardOf(line) == Card(4, [41, 92, 73, 84, 69], [59, 84, 76, 51, 58, 5, 54, 83])
  {
    Card4Text();
    CardRoundTrip(Card(4, [41, 92, 73, 84, 69], [59, 84, 76, 51, 58, 5, 54, 83]));
  }

  /** Numbers like those of card 4 have 1 matches and score 1. */
  lemma Card4Counts(c: Card)
    requires c.winning == [41, 92, 73, 84, 69] && c.playing == [59, 84, 76, 51, 58, 5, 54, 83]
    ensures c.Matches() == 1 && c.Score() == 1
  {
    assert c.winning[..1][..0] == [];
    assert CountIn(c.winning[..1], c.playing) == 0;
    assert c.winning[..2][..1] == c.winning[..1];
    assert CountIn(c.winning[..2], c.playing) == 0;
    assert c.winning[..3][..2] == c.winning[..2];
    assert CountIn(c.winning[..3], c.playing) == 0;
    assert c.winning[..4][..3] == c.winning[..3];
    assert c.winning[3] == c.playing[1];
    assert CountIn(c.winning[..4], c.playing) == 1;
    assert c.winning[..5][..4] == c.winning[..4];
    assert CountIn(c.winning[..5], c.playing) == 1;
    assert c.winning[..5] == c.winning;
  }

  /** `Card 5: 87 83 26 28 32 | 88 30 70 12 93 22 82 36` is the rendering of card 5. */
  lemma Card5Text()
    ensures CardText(Card(5, [87, 83, 26, 28, 32], [88, 30, 70, 12, 93, 22, 82, 36])) ==
            "Card 5:" + " " + ("87" + " " + ("83" + " " + ("26" + " " + ("28" + " " + "32")))) + " | " + ("88" + " " + ("30" + " " + ("70" + " " + ("12" + " " + ("93" + " " + ("22" + " " + ("82" + " " + "36")))))))
  {
    Head5();
    Field5(87, 83, 26, 28, 32);
    Field8(88, 30, 70, 12, 93, 22, 82, 36);
    Pad12();
    Pad22();
    Pad26();
    Pad28();
    Pad30();
    Pad32();
    Pad36();
    Pad70();
    Pad82();
    Pad83();
    Pad87();
    Pad88();
    Pad93();
  }

  /** `parse_input` reads `Card 5: 87 83 26 28 32 | 88 30 70 12 93 22 82 36`. */
  lemma Card5(line: string)
    requires line == "Card 5:" + " " + ("87" + " " + ("83" + " " + ("26" + " " + ("28" + " " + "32")))) + " | " + ("88" + " " + ("30" + " " + ("70" + " " + ("12" + " " + ("93" + " " + ("22" + " " + ("82" + " " + "36")))))))
    ensures LineOk(line) && CardOf(line) == Card(5, [87, 83, 26, 28, 32], [88, 30, 70, 12, 93, 22, 82, 36])
  {
    Card5Text();
    CardRoundTrip(Card(5, [87, 83, 26, 28, 32], [88, 30, 70, 12, 93, 22, 82, 36]));
  }

  /** Numbers like those of card 5 have 0 matches and score 0. */
  lemma Card5Counts(c: Card)
    requires c.winning == [87, 83, 26, 28, 32] && c.playing == [88, 30, 70, 12, 93, 22, 82, 36]
    ensures c.Matches() == 0 && c.Score() == 0
  {
    assert c.winning[..1][..0] == [];
    assert CountIn(c.winning[..1], c.playing) == 0;
    assert c.winning[..2][..1] == c.winning[..1];
    assert CountIn(c.winning[..2], c.playing) == 0;
    assert c.winning[..3][..2] == c.winning[..2];
    assert CountIn(c.winning[..3], c.playing) == 0;
    assert c.winning[..4][..3] == c.winning[..3];
    assert CountIn(c.winning[..4], c.playing) == 0;
    assert c.winning[..5][..4] == c.winning[..4];
    assert CountIn(c.winning[..5], c.playing) == 0;
    assert c.winning[..5] == c.winning;
  }

  /** `Card 6: 31 18 13 56 72 | 74 77 10 23 35 67 36 11` is the rendering of card 6. */
  lemma Card6Text()
    ensures CardText(Card(6, [31, 18, 13, 56, 72], [74, 77, 10, 23, 35, 67, 36, 11])) ==
            "Card 6:" + " " + ("31" + " " + ("18" + " " + ("13" + " " + ("56" + " " + "72")))) + " | " + ("74" + " " + ("77" + " " + ("10" + " " + ("23" + " " + ("35" + " " + ("67" + " " + ("36" + " " + "11")))))))
  {
    Head6();
    Field5(31, 18, 13, 56, 72);
    Field8(74, 77, 10, 23, 35, 67, 36, 11);
    Pad10();
    Pad11();
    Pad13();
    Pad18();
    Pad23();
    Pad31();
    Pad35();
    Pad36();
    Pad56();
    Pad67();
    Pad72();
    Pad74();
    Pad77();
  }

  /** `parse_input` reads `Card 6: 31 18 13 56 72 | 74 77 10 23 35 67 36 11`. */
  lemma Card6(line: string)
    requires line == "Card 6:" + " " + ("31" + " " + ("18" + " " + ("13" + " " + ("56" + " " + "72")))) + " | " + ("74" + " " + ("77" + " " + ("10" + " " + ("23" + " " + ("35" + " " + ("67" + " " + ("36" + " " + "11")))))))
    ensures LineOk(line) && CardOf(line) == Card(6, [31, 18, 13, 56, 72], [74, 77, 10, 23, 35, 67, 36, 11])
  {
    Card6Text();
    CardRoundTrip(Card(6, [31, 18, 13, 56, 72], [74, 77, 10, 23, 35, 67, 36, 11]));
  }

  /** Numbers like those of card 6 have 0 matches and score 0. */
  lemma Card6Counts(c: Card)
    requires c.winning == [31, 18, 13, 56, 72] && c.playing == [74, 77, 10, 23, 35, 67, 36, 11]
    ensures c.Matches() == 0 && c.Score() == 0
  {
    assert c.winning[..1][..0] == [];
    assert CountIn(c.winning[..1], c.playing) == 0;
    assert c.winning[..2][..1] == c.winning[..1];
    assert CountIn(c.winning[..2], c.playing) == 0;
    assert c.winning[..3][..2] == c.winning[..2];
    assert CountIn(c.winning[..3], c.playing) == 0;
    assert c.winning[..4][..3] == c.winning[..3];
    assert CountIn(c.winning[..4], c.playing) == 0;
    assert c.winning[..5][..4] == c.winning[..4];
    assert CountIn(c.winning[..5], c.playing) == 0;
    assert c.winning[..5] == c.winning;
  }

  /** Well-formed lines read as the cards they hold, one by one. */
  lemma ReadLines(input: seq<string>, cs: seq<Card>)
    requires |input| == |cs|
    requires forall i :: 0 <= i < |input| ==> LineOk(input[i]) && CardOf(input[i]) == cs[i]
    ensures LinesOk(input) && Cards(input) == cs
  {
    forall i | 0 <= i < |input| ensures Cards(input)[i] == cs[i] {
      CardsAt(input, i);
    }
  }

  /** Six well-formed lines read as the six cards they hold. */
  lemma ReadSix(input: seq<string>, c0: Card, c1: Card, c2: Card, c3: Card, c4: Card, c5: Card)
    requires |input| == 6
    requires LineOk(input[0]) && CardOf(input[0]) == c0
    requires LineOk(input[1]) && CardOf(input[1]) == c1
    requires LineOk(input[2]) && CardOf(input[2]) == c2
    requires LineOk(input[3]) && CardOf(input[3]) == c3
    requires LineOk(input[4]) && CardOf(input[4]) == c4
    requires LineOk(input[5]) && CardOf(input[5]) == c5
    ensures LinesOk(input) && Cards(input) == [c0, c1, c2, c3, c4, c5]
  {
    var cs := [c0, c1, c2, c3, c4, c5];
    forall i | 0 <= i < 6 ensures LineOk(input[i]) && CardOf(input[i]) == cs[i] {
      if i == 0 {
      } else if i == 1 {
      } else if i == 2 {
      } else if i == 3 {
      } else if i == 4 {
      } else {
        assert i == 5;
      }
    }
    ReadLines(input, cs);
  }

  /** The points of six cards add up. */
  lemma SixPoints(cards: seq<Card>)
    requires |cards| == 6
    ensures Points(cards) == cards[0].Score() + cards[1].Score() + cards[2].Score()
                           + cards[3].Score() + cards[4].Score() + cards[5].Score()
  {
    assert Points(cards[..1]) == cards[0].Score() by {
      assert cards[..1][..0] == [];
    }
    assert Points(cards[..2]) == Points(cards[..1]) + cards[1].Score() by {
      assert cards[..2][..1] == cards[..1];
    }
    assert Points(cards[..3]) == Points(cards[..2]) + cards[2].Score() by {
      assert cards[..3][..2] == cards[..2];
    }
    assert Points(cards[..4]) == Points(cards[..3]) + cards[3].Score() by {
      assert cards[..4][..3] == cards[..3];
    }
    assert Points(cards[..5]) == Points(cards[..4]) + cards[4].Score() by {
      assert cards[..5][..4] == cards[..4];
    }
    assert Points(cards) == Points(cards[..5]) + cards[5].Score() by {
      assert cards[..6][..5] == cards[..5];
      assert cards[..6] == cards;
    }
  }

  lemma SampleCards(cards: seq<Card>)
    requires cards == [Card(1, [41, 48, 83, 86, 17], [83, 86, 6, 31, 17, 9, 48, 53]),
                      Card(2, [13, 32, 20, 16, 61], [61, 30, 68, 82, 17, 32, 24, 19]),
                      Card(3, [1, 21, 53, 59, 44], [69, 82, 63, 72, 16, 21, 14, 1]),
                      Card(4, [41, 92, 73, 84, 69], [59, 84, 76, 51, 58, 5, 54, 83]),
                      Card(5, [87, 83, 26, 28, 32], [88, 30, 70, 12, 93, 22, 82, 36]),
                      Card(6, [31, 18, 13, 56, 72], [74, 77, 10, 23, 35, 67, 36, 11])]
    ensures Points(cards) == 13
    ensures Wins(cards) == [4, 2, 2, 1, 0, 0]
  {
    SixPoints(cards);
    Card1Counts(cards[0]);
    Card2Counts(cards[1]);
    Card3Counts(cards[2]);
    Card4Counts(cards[3]);
    Card5Counts(cards[4]);
    Card6Counts(cards[5]);
  }

  /** With the sample's matches the cards end up as 1, 2, 4, 8, 14, 1 copies. */
  lemma SampleCascade(wins: seq<nat>)
    requires wins == [4, 2, 2, 1, 0, 0]
    ensures WinsFit(wins) && TotalCards(wins) == 30
  {
    assert Copies(wins, 0) == 1;
    assert Won(wins, 1, 1) == 1;
    assert Copies(wins, 1) == 2;
    assert Won(wins, 2, 1) == 1;
    assert Won(wins, 2, 2) == 3;
    assert Copies(wins, 2) == 4;
    assert Won(wins, 3, 1) == 1;
    assert Won(wins, 3, 2) == 3;
    assert Won(wins, 3, 3) == 7;
    assert Copies(wins, 3) == 8;
    assert Won(wins, 4, 1) == 1;
    assert Won(wins, 4, 2) == 1;
    assert Won(wins, 4, 3) == 5;
    assert Won(wins, 4, 4) == 13;
    assert Copies(wins, 4) == 14;
    assert Won(wins, 5, 1) == 0;
    assert Won(wins, 5, 2) == 0;
    assert Won(wins, 5, 3) == 0;
    assert Won(wins, 5, 4) == 0;
    assert Won(wins, 5, 5) == 0;
    assert Copies(wins, 5) == 1;
    assert SumCopies(wins, 1) == 1;
    assert SumCopies(wins, 2) == 3;
    assert SumCopies(wins, 3) == 7;
    assert SumCopies(wins, 4) == 15;
    assert SumCopies(wins, 5) == 29;
    assert SumCopies(wins, 6) == 30;
  }

  /** The sample, read line by line. */
  lemma SampleInput(input: seq<string>)
    requires |input| == 6
    requires input[0] == "Card 1:" + " " + ("41" + " " + ("48" + " " + ("83" + " " + ("86" + " " + "17")))) + " | " + ("83" + " " + ("86" + " " + (" 6" + " " + ("31" + " " + ("17" + " " + (" 9" + " " + ("48" + " " + "53")))))))
    requires input[1] == "Card 2:" + " " + ("13" + " " + ("32" + " " + ("20" + " " + ("16" + " " + "61")))) + " | " + ("61" + " " + ("30" + " " + ("68" + " " + ("82" + " " + ("17" + " " + ("32" + " " + ("24" + " " + "19")))))))
    requires input[2] == "Card 3:" + " " + (" 1" + " " + ("21" + " " + ("53" + " " + ("59" + " " + "44")))) + " | " + ("69" + " " + ("82" + " " + ("63" + " " + ("72" + " " + ("16" + " " + ("21" + " " + ("14" + " " + " 1")))))))
    requires input[3] == "Card 4:" + " " + ("41" + " " + ("92" + " " + ("73" + " " + ("84" + " " + "69")))) + " | " + ("59" + " " + ("84" + " " + ("76" + " " + ("51" + " " + ("58" + " " + (" 5" + " " + ("54" + " " + "83")))))))
    requires input[4] == "Card 5:" + " " + ("87" + " " + ("83" + " " + ("26" + " " + ("28" + " " + "32")))) + " | " + ("88" + " " + ("30" + " " + ("70" + " " + ("12" + " " + ("93" + " " + ("22" + " " + ("82" + " " + "36")))))))
    requires input[5] == "Card 6:" + " " + ("31" + " " + ("18" + " " + ("13" + " " + ("56" + " " + "72")))) + " | " + ("74" + " " + ("77" + " " + ("10" + " " + ("23" + " " + ("35" + " " + ("67" + " " + ("36" + " " + "11")))))))
    ensures LinesOk(input) && Cards(input) == [Card(1, [41, 48, 83, 86, 17], [83, 86, 6, 31, 17, 9, 48, 53]),
                                        Card(2, [13, 32, 20, 16, 61], [61, 30, 68, 82, 17, 32, 24, 19]),
                                        Card(3, [1, 21, 53, 59, 44], [69, 82, 63, 72, 16, 21, 14, 1]),
                                        Card(4, [41, 92, 73, 84, 69], [59, 84, 76, 51, 58, 5, 54, 83]),
                                        Card(5, [87, 83, 26, 28, 32], [88, 30, 70, 12, 93, 22, 82, 36]),
                                        Card(6, [31, 18, 13, 56, 72], [74, 77, 10, 23, 35, 67, 36, 11])]
  {
    Card1(input[0]);
    Card2(input[1]);
    Card3(input[2]);
    Card4(input[3]);
    Card5(input[4]);
    Card6(input[5]);
    ReadSix(input, Card(1, [41, 48, 83, 86, 17], [83, 86, 6, 31, 17, 9, 48, 53]),
            Card(2, [13, 32, 20, 16, 61], [61, 30, 68, 82, 17, 32, 24, 19]),
            Card(3, [1, 21, 53, 59, 44], [69, 82, 63, 72, 16, 21, 14, 1]),
            Card(4, [41, 92, 73, 84, 69], [59, 84, 76, 51, 58, 5, 54, 83]),
            Card(5, [87, 83, 26, 28, 32], [88, 30, 70, 12, 93, 22, 82, 36]),
            Card(6, [31, 18, 13, 56, 72], [74, 77, 10, 23, 35, 67, 36, 11]));
  }

  /** The Part 1 test `sample`: the scores 8, 2, 2, 1, 0 and 0 add up to 13. */
  lemma Part1Sample(input: seq<string>)
    requires |input| == 6
    requires input[0] == "Card 1:" + " " + ("41" + " " + ("48" + " " + ("83" + " " + ("86" + " " + "17")))) + " | " + ("83" + " " + ("86" + " " + (" 6" + " " + ("31" + " " + ("17" + " " + (" 9" + " " + ("48" + " " + "53")))))))
    requires input[1] == "Card 2:" + " " + ("13" + " " + ("32" + " " + ("20" + " " + ("16" + " " + "61")))) + " | " + ("61" + " " + ("30" + " " + ("68" + " " + ("82" + " " + ("17" + " " + ("32" + " " + ("24" + " " + "19")))))))
    requires input[2] == "Card 3:" + " " + (" 1" + " " + ("21" + " " + ("53" + " " + ("59" + " " + "44")))) + " | " + ("69" + " " + ("82" + " " + ("63" + " " + ("72" + " " + ("16" + " " + ("21" + " " + ("14" + " " + " 1")))))))
    requires input[3] == "Card 4:" + " " + ("41" + " " + ("92" + " " + ("73" + " " + ("84" + " " + "69")))) + " | " + ("59" + " " + ("84" + " " + ("76" + " " + ("51" + " " + ("58" + " " + (" 5" + " " + ("54" + " " + "83")))))))
    requires input[4] == "Card 5:" + " " + ("87" + " " + ("83" + " " + ("26" + " " + ("28" + " " + "32")))) + " | " + ("88" + " " + ("30" + " " + ("70" + " " + ("12" + " " + ("93" + " " + ("22" + " " + ("82" + " " + "36")))))))
    requires input[5] == "Card 6:" + " " + ("31" + " " + ("18" + " " + ("13" + " " + ("56" + " " + "72")))) + " | " + ("74" + " " + ("77" + " " + ("10" + " " + ("23" + " " + ("35" + " " + ("67" + " " + ("36" + " " + "11")))))))
    ensures LinesOk(input) && SumOfPoints(input) == 13
  {
    SampleInput(input);
    SampleCards(Cards(input));
  }

  /** The Part 2 test `sample`: `sum_of_cards` may run on it and gives 30. */
  lemma Part2Sample(input: seq<string>)
    requires |input| == 6
    requires input[0] == "Card 1:" + " " + ("41" + " " + ("48" + " " + ("83" + " " + ("86" + " " + "17")))) + " | " + ("83" + " " + ("86" + " " + (" 6" + " " + ("31" + " " + ("17" + " " + (" 9" + " " + ("48" + " " + "53")))))))
    requires input[1] == "Card 2:" + " " + ("13" + " " + ("32" + " " + ("20" + " " + ("16" + " " + "61")))) + " | " + ("61" + " " + ("30" + " " + ("68" + " " + ("82" + " " + ("17" + " " + ("32" + " " + ("24" + " " + "19")))))))
    requires input[2] == "Card 3:" + " " + (" 1" + " " + ("21" + " " + ("53" + " " + ("59" + " " + "44")))) + " | " + ("69" + " " + ("82" + " " + ("63" + " " + ("72" + " " + ("16" + " " + ("21" + " " + ("14" + " " + " 1")))))))
    requires input[3] == "Card 4:" + " " + ("41" + " " + ("92" + " " + ("73" + " " + ("84" + " " + "69")))) + " | " + ("59" + " " + ("84" + " " + ("76" + " " + ("51" + " " + ("58" + " " + (" 5" + " " + ("54" + " " + "83")))))))
    requires input[4] == "Card 5:" + " " + ("87" + " " + ("83" + " " + ("26" + " " + ("28" + " " + "32")))) + " | " + ("88" + " " + ("30" + " " + ("70" + " " + ("12" + " " + ("93" + " " + ("22" + " " + ("82" + " " + "36")))))))
    requires input[5] == "Card 6:" + " " + ("31" + " " + ("18" + " " + ("13" + " " + ("56" + " " + "72")))) + " | " + ("74" + " " + ("77" + " " + ("10" + " " + ("23" + " " + ("35" + " " + ("67" + " " + ("36" + " " + "11")))))))
    ensures LinesOk(input) && WinsFit(Wins(Cards(input)))
    ensures TotalCards(Wins(Cards(input))) == 30
  {
    SampleInput(input);
    SampleCards(Cards(input));
    SampleCascade(Wins(Cards(input)));
  }

  /** The Part 1 test `parse_input_test`: one line, one card. */
  lemma ParseInputTest(input: seq<string>)
    requires |input| == 1 && input[0] == "Card 1:" + " " + ("41" + " " + ("48" + " " + ("83" + " " + ("86" + " " + "17")))) + " | " + ("83" + " " + ("86" + " " + (" 6" + " " + ("31" + " " + ("17" + " " + (" 9" + " " + ("48" + " " + "53")))))))
    ensures LinesOk(input) && |Cards(input)| == 1
    ensures Cards(input)[0].number == 1
    ensures Cards(input)[0].winning == [41, 48, 83, 86, 17]
    ensures Cards(input)[0].playing == [83, 86, 6, 31, 17, 9, 48, 53]
  {
    Card1(input[0]);
    assert input == [] + [input[0]];
    CardsSnoc([], input[0]);
    LinesOkSnoc([], input[0]);
  }

  /** The Part 1 test `zero_points`. */
  lemma ZeroPoints()
    ensures Card(1, [31, 18, 13, 56, 72], [74, 77, 10, 23, 35, 67, 36, 11]).Score() == 0
  {
    Card6Counts(Card(1, [31, 18, 13, 56, 72], [74, 77, 10, 23, 35, 67, 36, 11]));
  }

  /** The Part 1 test `one_point`. */
  lemma OnePoint()
    ensures Card(4, [41, 92, 73, 84, 69], [59, 84, 76, 51, 58, 5, 54, 83]).Score() == 1
  {
    Card4Counts(Card(4, [41, 92, 73, 84, 69], [59, 84, 76, 51, 58, 5, 54, 83]));
  }

  /** The Part 1 test `two_points`. */
  lemma TwoPoints()
    ensures Card(2, [13, 32, 20, 16, 61], [61, 30, 68, 82, 17, 32, 24, 19]).Score() == 2
  {
    Card2Counts(Card(2, [13, 32, 20, 16, 61], [61, 30, 68, 82, 17, 32, 24, 19]));
  }
}
