/**
 * The unit tests of day 2, proved on the model. Each test line is written as
 * its entries glued together by ',' and ';' after `Game <id>:`, grouped the
 * way the rendering of `CubeRender` builds it, so the round trip of
 * `build_game` reads it back; `check_game` and the sums of Part 1 (with a bag
 * of 12 red, 13 green and 14 blue cubes) and Part 2 follow line by line.
 */
module CubeGameSample {
  import opened Text
  import opened CubeGame
  import opened CubeRender

  lemma Join2(a: string, b: string, sep: string)
    ensures Join([a, b], sep) == a + sep + b
  {
    assert [a, b][1..] == [b];
  }

  lemma Join3(a: string, b: string, c: string, sep: string)
    ensures Join([a, b, c], sep) == a + sep + (b + sep + c)
  {
    assert [a, b, c][1..] == [b, c];
    Join2(b, c, sep);
  }

  lemma RoundOfEntries1(e0: Entry)
    ensures RoundOfEntries([e0]) == Set(Round(0, 0, 0), e0.colour, e0.count)
  {
    assert [e0][..0] == [];
  }

  lemma RoundOfEntries2(e0: Entry, e1: Entry)
    ensures RoundOfEntries([e0, e1]) == Set(Set(Round(0, 0, 0), e0.colour, e0.count), e1.colour, e1.count)
  {
    assert [e0, e1][..1] == [e0];
    RoundOfEntries1(e0);
  }

  lemma RoundOfEntries3(e0: Entry, e1: Entry, e2: Entry)
    ensures RoundOfEntries([e0, e1, e2]) ==
            Set(Set(Set(Round(0, 0, 0), e0.colour, e0.count), e1.colour, e1.count), e2.colour, e2.count)
  {
    assert [e0, e1, e2][..2] == [e0, e1];
    RoundOfEntries2(e0, e1);
  }

  /** One more line of `input` in the games both sums map the lines to. */
  lemma GamesSnoc(input: seq<string>, k: nat, before: seq<Game>, g: Game)
    requires k < |input| && LinesOk(input[..k]) && Games(input[..k]) == before
    requires GameOk(input[k]) && GameOf(input[k]) == Some(g)
    ensures LinesOk(input[..k + 1]) && Games(input[..k + 1]) == before + [g]
  {
    var head := input[..k + 1];
    forall i | 0 <= i < k + 1 ensures GameOk(head[i]) {
      if i < k {
        assert head[i] == input[..k][i];
      } else {
        assert head[i] == input[k];
      }
    }
    assert head[..k] == input[..k];
    assert GameOrEmpty(input[k]) == g;
  }

  /** The bag of the Part 1 tests. */
  function Bag(): Round {
    Round(12, 13, 14)
  }

  lemma Text1Blue()
    ensures EntryText(Entry(1, Blue)) == " 1 blue"
  {
  }

  lemma Text1Green()
    ensures EntryText(Entry(1, Green)) == " 1 green"
  {
  }

  lemma Text1Red()
    ensures EntryText(Entry(1, Red)) == " 1 red"
  {
  }

  lemma Text2Blue()
    ensures EntryText(Entry(2, Blue)) == " 2 blue"
  {
  }

  lemma Text2Green()
    ensures EntryText(Entry(2, Green)) == " 2 green"
  {
  }

  lemma Text3Blue()
    ensures EntryText(Entry(3, Blue)) == " 3 blue"
  {
  }

  lemma Text3Green()
    ensures EntryText(Entry(3, Green)) == " 3 green"
  {
  }

  lemma Text3Red()
    ensures EntryText(Entry(3, Red)) == " 3 red"
  {
  }

  lemma Text4Blue()
    ensures EntryText(Entry(4, Blue)) == " 4 blue"
  {
  }

  lemma Text4Red()
    ensures EntryText(Entry(4, Red)) == " 4 red"
  {
  }

  lemma Text5Blue()
    ensures EntryText(Entry(5, Blue)) == " 5 blue"
  {
  }

  lemma Text5Green()
    ensures EntryText(Entry(5, Green)) == " 5 green"
  {
  }

  lemma Text6Blue()
    ensures EntryText(Entry(6, Blue)) == " 6 blue"
  {
  }

  lemma Text6Red()
    ensures EntryText(Entry(6, Red)) == " 6 red"
  {
  }

  lemma Text8Green()
    ensures EntryText(Entry(8, Green)) == " 8 green"
  {
  }

  lemma Text13Green()
    ensures EntryText(Entry(13, Green)) == " 13 green"
  {
  }

  lemma Text14Red()
    ensures EntryText(Entry(14, Red)) == " 14 red"
  {
  }

  lemma Text15Blue()
    ensures EntryText(Entry(15, Blue)) == " 15 blue"
  {
  }

  lemma Text20Red()
    ensures EntryText(Entry(20, Red)) == " 20 red"
  {
  }

  lemma Head1()
    ensures "Game " + NatString(1) + ":" == "Game 1:"
  {
  }

  lemma Head2()
    ensures "Game " + NatString(2) + ":" == "Game 2:"
  {
  }

  lemma Head3()
    ensures "Game " + NatString(3) + ":" == "Game 3:"
  {
  }

  lemma Head4()
    ensures "Game " + NatString(4) + ":" == "Game 4:"
  {
  }

  lemma Head5()
    ensures "Game " + NatString(5) + ":" == "Game 5:"
  {
  }

  /** `Game 1: 3 blue, 4 red; 1 red, 2 green, 6 blue; 2 green` is the rendering of its entries. */
  lemma Game1Text()
    ensures GameText(1, [[Entry(3, Blue), Entry(4, Red)], [Entry(1, Red), Entry(2, Green), Entry(6, Blue)], [Entry(2, Green)]]) ==
            "Game 1:" + ((" 3 blue" + "," + " 4 red") + ";" + ((" 1 red" + "," + (" 2 green" + "," + " 6 blue")) + ";" + " 2 green"))
  {
    var rs := [[Entry(3, Blue), Entry(4, Red)], [Entry(1, Red), Entry(2, Green), Entry(6, Blue)], [Entry(2, Green)]];
    Text1Red();
    Text2Green();
    Text3Blue();
    Text4Red();
    Text6Blue();
    Head1();
    assert EntryTexts(rs[0]) == [EntryText(Entry(3, Blue)), EntryText(Entry(4, Red))];
    Join2(EntryText(Entry(3, Blue)), EntryText(Entry(4, Red)), ",");
    assert EntryTexts(rs[1]) == [EntryText(Entry(1, Red)), EntryText(Entry(2, Green)), EntryText(Entry(6, Blue))];
    Join3(EntryText(Entry(1, Red)), EntryText(Entry(2, Green)), EntryText(Entry(6, Blue)), ",");
    assert EntryTexts(rs[2]) == [EntryText(Entry(2, Green))];
    assert RoundTexts(rs) == [RoundText(rs[0]), RoundText(rs[1]), RoundText(rs[2])];
    Join3(RoundText(rs[0]), RoundText(rs[1]), RoundText(rs[2]), ";");
  }

  lemma Game1Rounds()
    ensures RoundsOfEntries([[Entry(3, Blue), Entry(4, Red)], [Entry(1, Red), Entry(2, Green), Entry(6, Blue)], [Entry(2, Green)]]) ==
            [Round(4, 0, 3), Round(1, 2, 6), Round(0, 2, 0)]
  {
    RoundOfEntries2(Entry(3, Blue), Entry(4, Red));
    RoundOfEntries3(Entry(1, Red), Entry(2, Green), Entry(6, Blue));
    RoundOfEntries1(Entry(2, Green));
  }

  lemma Game1Parsed(line: string)
    requires line == GameText(1, [[Entry(3, Blue), Entry(4, Red)], [Entry(1, Red), Entry(2, Green), Entry(6, Blue)], [Entry(2, Green)]])
    ensures GameOk(line) && GameOf(line) == Some(Game(1, [Round(4, 0, 3), Round(1, 2, 6), Round(0, 2, 0)]))
  {
    GameRoundTrip(1, [[Entry(3, Blue), Entry(4, Red)], [Entry(1, Red), Entry(2, Green), Entry(6, Blue)], [Entry(2, Green)]]);
    Game1Rounds();
  }

  /** `build_game` reads `Game 1: 3 blue, 4 red; 1 red, 2 green, 6 blue; 2 green`. */
  lemma Game1(line: string)
    requires line == "Game 1:" + ((" 3 blue" + "," + " 4 red") + ";" + ((" 1 red" + "," + (" 2 green" + "," + " 6 blue")) + ";" + " 2 green"))
    ensures GameOk(line) && GameOf(line) == Some(Game(1, [Round(4, 0, 3), Round(1, 2, 6), Round(0, 2, 0)]))
  {
    Game1Text();
    Game1Parsed(line);
  }

  /** `Game 2: 1 blue, 2 green; 3 green, 4 blue, 1 red; 1 green, 1 blue` is the rendering of its entries. */
  lemma Game2Text()
    ensures GameText(2, [[Entry(1, Blue), Entry(2, Green)], [Entry(3, Green), Entry(4, Blue), Entry(1, Red)], [Entry(1, Green), Entry(1, Blue)]]) ==
            "Game 2:" + ((" 1 blue" + "," + " 2 green") + ";" + ((" 3 green" + "," + (" 4 blue" + "," + " 1 red")) + ";" + (" 1 green" + "," + " 1 blue")))
  {
    var rs := [[Entry(1, Blue), Entry(2, Green)], [Entry(3, Green), Entry(4, Blue), Entry(1, Red)], [Entry(1, Green), Entry(1, Blue)]];
    Text1Blue();
    Text1Green();
    Text1Red();
    Text2Green();
    Text3Green();
    Text4Blue();
    Head2();
    assert EntryTexts(rs[0]) == [EntryText(Entry(1, Blue)), EntryText(Entry(2, Green))];
    Join2(EntryText(Entry(1, Blue)), EntryText(Entry(2, Green)), ",");
    assert EntryTexts(rs[1]) == [EntryText(Entry(3, Green)), EntryText(Entry(4, Blue)), EntryText(Entry(1, Red))];
    Join3(EntryText(Entry(3, Green)), EntryText(Entry(4, Blue)), EntryText(Entry(1, Red)), ",");
    assert EntryTexts(rs[2]) == [EntryText(Entry(1, Green)), EntryText(Entry(1, Blue))];
    Join2(EntryText(Entry(1, Green)), EntryText(Entry(1, Blue)), ",");
    assert RoundTexts(rs) == [RoundText(rs[0]), RoundText(rs[1]), RoundText(rs[2])];
    Join3(RoundText(rs[0]), RoundText(rs[1]), RoundText(rs[2]), ";");
  }

  lemma Game2Rounds()
    ensures RoundsOfEntries([[Entry(1, Blue), Entry(2, Green)], [Entry(3, Green), Entry(4, Blue), Entry(1, Red)], [Entry(1, Green), Entry(1, Blue)]]) ==
            [Round(0, 2, 1), Round(1, 3, 4), Round(0, 1, 1)]
  {
    RoundOfEntries2(Entry(1, Blue), Entry(2, Green));
    RoundOfEntries3(Entry(3, Green), Entry(4, Blue), Entry(1, Red));
    RoundOfEntries2(Entry(1, Green), Entry(1, Blue));
  }

  lemma Game2Parsed(line: string)
    requires line == GameText(2, [[Entry(1, Blue), Entry(2, Green)], [Entry(3, Green), Entry(4, Blue), Entry(1, Red)], [Entry(1, Green), Entry(1, Blue)]])
    ensures GameOk(line) && GameOf(line) == Some(Game(2, [Round(0, 2, 1), Round(1, 3, 4), Round(0, 1, 1)]))
  {
    GameRoundTrip(2, [[Entry(1, Blue), Entry(2, Green)], [Entry(3, Green), Entry(4, Blue), Entry(1, Red)], [Entry(1, Green), Entry(1, Blue)]]);
    Game2Rounds();
  }

  /** `build_game` reads `Game 2: 1 blue, 2 green; 3 green, 4 blue, 1 red; 1 green, 1 blue`. */
  lemma Game2(line: string)
    requires line == "Game 2:" + ((" 1 blue" + "," + " 2 green") + ";" + ((" 3 green" + "," + (" 4 blue" + "," + " 1 red")) + ";" + (" 1 green" + "," + " 1 blue")))
    ensures GameOk(line) && GameOf(line) == Some(Game(2, [Round(0, 2, 1), Round(1, 3, 4), Round(0, 1, 1)]))
  {
    Game2Text();
    Game2Parsed(line);
  }

  /** `Game 3: 8 green, 6 blue, 20 red; 5 blue, 4 red, 13 green; 5 green, 1 red` is the rendering of its entries. */
  lemma Game3Text()
    ensures GameText(3, [[Entry(8, Green), Entry(6, Blue), Entry(20, Red)], [Entry(5, Blue), Entry(4, Red), Entry(13, Green)], [Entry(5, Green), Entry(1, Red)]]) ==
            "Game 3:" + ((" 8 green" + "," + (" 6 blue" + "," + " 20 red")) + ";" + ((" 5 blue" + "," + (" 4 red" + "," + " 13 green")) + ";" + (" 5 green" + "," + " 1 red")))
  {
    var rs := [[Entry(8, Green), Entry(6, Blue), Entry(20, Red)], [Entry(5, Blue), Entry(4, Red), Entry(13, Green)], [Entry(5, Green), Entry(1, Red)]];
    Text1Red();
    Text4Red();
    Text5Blue();
    Text5Green();
    Text6Blue();
    Text8Green();
    Text13Green();
    Text20Red();
    Head3();
    assert EntryTexts(rs[0]) == [EntryText(Entry(8, Green)), EntryText(Entry(6, Blue)), EntryText(Entry(20, Red))];
    Join3(EntryText(Entry(8, Green)), EntryText(Entry(6, Blue)), EntryText(Entry(20, Red)), ",");
    assert EntryTexts(rs[1]) == [EntryText(Entry(5, Blue)), EntryText(Entry(4, Red)), EntryText(Entry(13, Green))];
    Join3(EntryText(Entry(5, Blue)), EntryText(Entry(4, Red)), EntryText(Entry(13, Green)), ",");
    assert EntryTexts(rs[2]) == [EntryText(Entry(5, Green)), EntryText(Entry(1, Red))];
    Join2(EntryText(Entry(5, Green)), EntryText(Entry(1, Red)), ",");
    assert RoundTexts(rs) == [RoundText(rs[0]), RoundText(rs[1]), RoundText(rs[2])];
    Join3(RoundText(rs[0]), RoundText(rs[1]), RoundText(rs[2]), ";");
  }

  lemma Game3Rounds()
    ensures RoundsOfEntries([[Entry(8, Green), Entry(6, Blue), Entry(20, Red)], [Entry(5, Blue), Entry(4, Red), Entry(13, Green)], [Entry(5, Green), Entry(1, Red)]]) ==
            [Round(20, 8, 6), Round(4, 13, 5), Round(1, 5, 0)]
  {
    RoundOfEntries3(Entry(8, Green), Entry(6, Blue), Entry(20, Red));
    RoundOfEntries3(Entry(5, Blue), Entry(4, Red), Entry(13, Green));
    RoundOfEntries2(Entry(5, Green), Entry(1, Red));
  }

  lemma Game3Parsed(line: string)
    requires line == GameText(3, [[Entry(8, Green), Entry(6, Blue), Entry(20, Red)], [Entry(5, Blue), Entry(4, Red), Entry(13, Green)], [Entry(5, Green), Entry(1, Red)]])
    ensures GameOk(line) && GameOf(line) == Some(Game(3, [Round(20, 8, 6), Round(4, 13, 5), Round(1, 5, 0)]))
  {
    GameRoundTrip(3, [[Entry(8, Green), Entry(6, Blue), Entry(20, Red)], [Entry(5, Blue), Entry(4, Red), Entry(13, Green)], [Entry(5, Green), Entry(1, Red)]]);
    Game3Rounds();
  }

  /** `build_game` reads `Game 3: 8 green, 6 blue, 20 red; 5 blue, 4 red, 13 green; 5 green, 1 red`. */
  lemma Game3(line: string)
    requires line == "Game 3:" + ((" 8 green" + "," + (" 6 blue" + "," + " 20 red")) + ";" + ((" 5 blue" + "," + (" 4 red" + "," + " 13 green")) + ";" + (" 5 green" + "," + " 1 red")))
    ensures GameOk(line) && GameOf(line) == Some(Game(3, [Round(20, 8, 6), Round(4, 13, 5), Round(1, 5, 0)]))
  {
    Game3Text();
    Game3Parsed(line);
  }

  /** `Game 4: 1 green, 3 red, 6 blue; 3 green, 6 red; 3 green, 15 blue, 14 red` is the rendering of its entries. */
  lemma Game4Text()
    ensures GameText(4, [[Entry(1, Green), Entry(3, Red), Entry(6, Blue)], [Entry(3, Green), Entry(6, Red)], [Entry(3, Green), Entry(15, Blue), Entry(14, Red)]]) ==
            "Game 4:" + ((" 1 green" + "," + (" 3 red" + "," + " 6 blue")) + ";" + ((" 3 green" + "," + " 6 red") + ";" + (" 3 green" + "," + (" 15 blue" + "," + " 14 red"))))
  {
    var rs := [[Entry(1, Green), Entry(3, Red), Entry(6, Blue)], [Entry(3, Green), Entry(6, Red)], [Entry(3, Green), Entry(15, Blue), Entry(14, Red)]];
    Text1Green();
    Text3Green();
    Text3Red();
    Text6Blue();
    Text6Red();
    Text14Red();
    Text15Blue();
    Head4();
    assert EntryTexts(rs[0]) == [EntryText(Entry(1, Green)), EntryText(Entry(3, Red)), EntryText(Entry(6, Blue))];
    Join3(EntryText(Entry(1, Green)), EntryText(Entry(3, Red)), EntryText(Entry(6, Blue)), ",");
    assert EntryTexts(rs[1]) == [EntryText(Entry(3, Green)), EntryText(Entry(6, Red))];
    Join2(EntryText(Entry(3, Green)), EntryText(Entry(6, Red)), ",");
    assert EntryTexts(rs[2]) == [EntryText(Entry(3, Green)), EntryText(Entry(15, Blue)), EntryText(Entry(14, Red))];
    Join3(EntryText(Entry(3, Green)), EntryText(Entry(15, Blue)), EntryText(Entry(14, Red)), ",");
    assert RoundTexts(rs) == [RoundText(rs[0]), RoundText(rs[1]), RoundText(rs[2])];
    Join3(RoundText(rs[0]), RoundText(rs[1]), RoundText(rs[2]), ";");
  }

  lemma Game4Rounds()
    ensures RoundsOfEntries([[Entry(1, Green), Entry(3, Red), Entry(6, Blue)], [Entry(3, Green), Entry(6, Red)], [Entry(3, Green), Entry(15, Blue), Entry(14, Red)]]) ==
            [Round(3, 1, 6), Round(6, 3, 0), Round(14, 3, 15)]
  {
    RoundOfEntries3(Entry(1, Green), Entry(3, Red), Entry(6, Blue));
    RoundOfEntries2(Entry(3, Green), Entry(6, Red));
    RoundOfEntries3(Entry(3, Green), Entry(15, Blue), Entry(14, Red));
  }

  lemma Game4Parsed(line: string)
    requires line == GameText(4, [[Entry(1, Green), Entry(3, Red), Entry(6, Blue)], [Entry(3, Green), Entry(6, Red)], [Entry(3, Green), Entry(15, Blue), Entry(14, Red)]])
    ensures GameOk(line) && GameOf(line) == Some(Game(4, [Round(3, 1, 6), Round(6, 3, 0), Round(14, 3, 15)]))
  {
    GameRoundTrip(4, [[Entry(1, Green), Entry(3, Red), Entry(6, Blue)], [Entry(3, Green), Entry(6, Red)], [Entry(3, Green), Entry(15, Blue), Entry(14, Red)]]);
    Game4Rounds();
  }

  /** `build_game` reads `Game 4: 1 green, 3 red, 6 blue; 3 green, 6 red; 3 green, 15 blue, 14 red`. */
  lemma Game4(line: string)
    requires line == "Game 4:" + ((" 1 green" + "," + (" 3 red" + "," + " 6 blue")) + ";" + ((" 3 green" + "," + " 6 red") + ";" + (" 3 green" + "," + (" 15 blue" + "," + " 14 red"))))
    ensures GameOk(line) && GameOf(line) == Some(Game(4, [Round(3, 1, 6), Round(6, 3, 0), Round(14, 3, 15)]))
  {
    Game4Text();
    Game4Parsed(line);
  }

  /** `Game 5: 6 red, 1 blue, 3 green; 2 blue, 1 red, 2 green` is the rendering of its entries. */
  lemma Game5Text()
    ensures GameText(5, [[Entry(6, Red), Entry(1, Blue), Entry(3, Green)], [Entry(2, Blue), Entry(1, Red), Entry(2, Green)]]) ==
            "Game 5:" + ((" 6 red" + "," + (" 1 blue" + "," + " 3 green")) + ";" + (" 2 blue" + "," + (" 1 red" + "," + " 2 green")))
  {
    var rs := [[Entry(6, Red), Entry(1, Blue), Entry(3, Green)], [Entry(2, Blue), Entry(1, Red), Entry(2, Green)]];
    Text1Blue();
    Text1Red();
    Text2Blue();
    Text2Green();
    Text3Green();
    Text6Red();
    Head5();
    assert EntryTexts(rs[0]) == [EntryText(Entry(6, Red)), EntryText(Entry(1, Blue)), EntryText(Entry(3, Green))];
    Join3(EntryText(Entry(6, Red)), EntryText(Entry(1, Blue)), EntryText(Entry(3, Green)), ",");
    assert EntryTexts(rs[1]) == [EntryText(Entry(2, Blue)), EntryText(Entry(1, Red)), EntryText(Entry(2, Green))];
    Join3(EntryText(Entry(2, Blue)), EntryText(Entry(1, Red)), EntryText(Entry(2, Green)), ",");
    assert RoundTexts(rs) == [RoundText(rs[0]), RoundText(rs[1])];
    Join2(RoundText(rs[0]), RoundText(rs[1]), ";");
  }

  lemma Game5Rounds()
    ensures RoundsOfEntries([[Entry(6, Red), Entry(1, Blue), Entry(3, Green)], [Entry(2, Blue), Entry(1, Red), Entry(2, Green)]]) ==
            [Round(6, 3, 1), Round(1, 2, 2)]
  {
    RoundOfEntries3(Entry(6, Red), Entry(1, Blue), Entry(3, Green));
    RoundOfEntries3(Entry(2, Blue), Entry(1, Red), Entry(2, Green));
  }

  lemma Game5Parsed(line: string)
    requires line == GameText(5, [[Entry(6, Red), Entry(1, Blue), Entry(3, Green)], [Entry(2, Blue), Entry(1, Red), Entry(2, Green)]])
    ensures GameOk(line) && GameOf(line) == Some(Game(5, [Round(6, 3, 1), Round(1, 2, 2)]))
  {
    GameRoundTrip(5, [[Entry(6, Red), Entry(1, Blue), Entry(3, Green)], [Entry(2, Blue), Entry(1, Red), Entry(2, Green)]]);
    Game5Rounds();
  }

  /** `build_game` reads `Game 5: 6 red, 1 blue, 3 green; 2 blue, 1 red, 2 green`. */
  lemma Game5(line: string)
    requires line == "Game 5:" + ((" 6 red" + "," + (" 1 blue" + "," + " 3 green")) + ";" + (" 2 blue" + "," + (" 1 red" + "," + " 2 green")))
    ensures GameOk(line) && GameOf(line) == Some(Game(5, [Round(6, 3, 1), Round(1, 2, 2)]))
  {
    Game5Text();
    Game5Parsed(line);
  }

  /** `Game 1: 3 blue, 20 red; 1 red, 2 green, 6 blue; 2 green` is the rendering of its entries. */
  lemma InvalidGameText()
    ensures GameText(1, [[Entry(3, Blue), Entry(20, Red)], [Entry(1, Red), Entry(2, Green), Entry(6, Blue)], [Entry(2, Green)]]) ==
            "Game 1:" + ((" 3 blue" + "," + " 20 red") + ";" + ((" 1 red" + "," + (" 2 green" + "," + " 6 blue")) + ";" + " 2 green"))
  {
    var rs := [[Entry(3, Blue), Entry(20, Red)], [Entry(1, Red), Entry(2, Green), Entry(6, Blue)], [Entry(2, Green)]];
    Text1Red();
    Text2Green();
    Text3Blue();
    Text6Blue();
    Text20Red();
    Head1();
    assert EntryTexts(rs[0]) == [EntryText(Entry(3, Blue)), EntryText(Entry(20, Red))];
    Join2(EntryText(Entry(3, Blue)), EntryText(Entry(20, Red)), ",");
    assert EntryTexts(rs[1]) == [EntryText(Entry(1, Red)), EntryText(Entry(2, Green)), EntryText(Entry(6, Blue))];
    Join3(EntryText(Entry(1, Red)), EntryText(Entry(2, Green)), EntryText(Entry(6, Blue)), ",");
    assert EntryTexts(rs[2]) == [EntryText(Entry(2, Green))];
    assert RoundTexts(rs) == [RoundText(rs[0]), RoundText(rs[1]), RoundText(rs[2])];
    Join3(RoundText(rs[0]), RoundText(rs[1]), RoundText(rs[2]), ";");
  }

  lemma InvalidGameRounds()
    ensures RoundsOfEntries([[Entry(3, Blue), Entry(20, Red)], [Entry(1, Red), Entry(2, Green), Entry(6, Blue)], [Entry(2, Green)]]) ==
            [Round(20, 0, 3), Round(1, 2, 6), Round(0, 2, 0)]
  {
    RoundOfEntries2(Entry(3, Blue), Entry(20, Red));
    RoundOfEntries3(Entry(1, Red), Entry(2, Green), Entry(6, Blue));
    RoundOfEntries1(Entry(2, Green));
  }

  lemma InvalidGameParsed(line: string)
    requires line == GameText(1, [[Entry(3, Blue), Entry(20, Red)], [Entry(1, Red), Entry(2, Green), Entry(6, Blue)], [Entry(2, Green)]])
    ensures GameOk(line) && GameOf(line) == Some(Game(1, [Round(20, 0, 3), Round(1, 2, 6), Round(0, 2, 0)]))
  {
    GameRoundTrip(1, [[Entry(3, Blue), Entry(20, Red)], [Entry(1, Red), Entry(2, Green), Entry(6, Blue)], [Entry(2, Green)]]);
    InvalidGameRounds();
  }

  /** `build_game` reads `Game 1: 3 blue, 20 red; 1 red, 2 green, 6 blue; 2 green`. */
  lemma InvalidGame(line: string)
    requires line == "Game 1:" + ((" 3 blue" + "," + " 20 red") + ";" + ((" 1 red" + "," + (" 2 green" + "," + " 6 blue")) + ";" + " 2 green"))
    ensures GameOk(line) && GameOf(line) == Some(Game(1, [Round(20, 0, 3), Round(1, 2, 6), Round(0, 2, 0)]))
  {
    InvalidGameText();
    InvalidGameParsed(line);
  }

  /** The Part 1 test `valid_game`: `check_game` accepts game 1 of the sample. */
  lemma ValidGame(line: string)
    requires line == "Game 1:" + ((" 3 blue" + "," + " 4 red") + ";" + ((" 1 red" + "," + (" 2 green" + "," + " 6 blue")) + ";" + " 2 green"))
    ensures GameOk(line) && GameOf(line).Some? && GameOf(line).value.Possible(Bag())
  {
    Game1(line);
    ValidGameFits(Game(1, [Round(4, 0, 3), Round(1, 2, 6), Round(0, 2, 0)]));
  }

  lemma ValidGameFits(g: Game)
    requires g == Game(1, [Round(4, 0, 3), Round(1, 2, 6), Round(0, 2, 0)])
    ensures g.Possible(Bag())
  {
  }

  /** The Part 1 test `invalid_game`: 20 red cubes do not fit the bag. */
  lemma InvalidGameRejected(line: string)
    requires line == "Game 1:" + ((" 3 blue" + "," + " 20 red") + ";" + ((" 1 red" + "," + (" 2 green" + "," + " 6 blue")) + ";" + " 2 green"))
    ensures GameOk(line) && GameOf(line).Some? && !GameOf(line).value.Possible(Bag())
  {
    InvalidGame(line);
    assert !GameOf(line).value.rounds[0].FitsIn(Bag());
  }

  /** Game 1 adds 1 to Part 1 and its power 48 to Part 2. */
  lemma Game1Counts()
    ensures Game(1, [Round(4, 0, 3), Round(1, 2, 6), Round(0, 2, 0)]).Possible(Bag()) == true
    ensures FindMinimumCubes(Game(1, [Round(4, 0, 3), Round(1, 2, 6), Round(0, 2, 0)]).rounds) == Round(4, 2, 6)
    ensures Power(FindMinimumCubes(Game(1, [Round(4, 0, 3), Round(1, 2, 6), Round(0, 2, 0)]).rounds)) == 48
  {
    var rs := [Round(4, 0, 3), Round(1, 2, 6), Round(0, 2, 0)];
    assert rs[..1][..0] == [];
    assert FindMinimumCubes(rs[..1]) == Round(4, 0, 3);
    assert rs[..2][..1] == rs[..1];
    assert FindMinimumCubes(rs[..2]) == Round(4, 2, 6);
    assert rs[..3][..2] == rs[..2];
    assert FindMinimumCubes(rs[..3]) == Round(4, 2, 6);
    assert rs[..3] == rs;
  }

  /** Game 2 adds 2 to Part 1 and its power 12 to Part 2. */
  lemma Game2Counts()
    ensures Game(2, [Round(0, 2, 1), Round(1, 3, 4), Round(0, 1, 1)]).Possible(Bag()) == true
    ensures FindMinimumCubes(Game(2, [Round(0, 2, 1), Round(1, 3, 4), Round(0, 1, 1)]).rounds) == Round(1, 3, 4)
    ensures Power(FindMinimumCubes(Game(2, [Round(0, 2, 1), Round(1, 3, 4), Round(0, 1, 1)]).rounds)) == 12
  {
    var rs := [Round(0, 2, 1), Round(1, 3, 4), Round(0, 1, 1)];
    assert rs[..1][..0] == [];
    assert FindMinimumCubes(rs[..1]) == Round(0, 2, 1);
    assert rs[..2][..1] == rs[..1];
    assert FindMinimumCubes(rs[..2]) == Round(1, 3, 4);
    assert rs[..3][..2] == rs[..2];
    assert FindMinimumCubes(rs[..3]) == Round(1, 3, 4);
    assert rs[..3] == rs;
  }

  /** Game 3 adds 0 to Part 1 and its power 1560 to Part 2. */
  lemma Game3Counts()
    ensures Game(3, [Round(20, 8, 6), Round(4, 13, 5), Round(1, 5, 0)]).Possible(Bag()) == false
    ensures FindMinimumCubes(Game(3, [Round(20, 8, 6), Round(4, 13, 5), Round(1, 5, 0)]).rounds) == Round(20, 13, 6)
    ensures Power(FindMinimumCubes(Game(3, [Round(20, 8, 6), Round(4, 13, 5), Round(1, 5, 0)]).rounds)) == 1560
  {
    var rs := [Round(20, 8, 6), Round(4, 13, 5), Round(1, 5, 0)];
    assert rs[..1][..0] == [];
    assert FindMinimumCubes(rs[..1]) == Round(20, 8, 6);
    assert rs[..2][..1] == rs[..1];
    assert FindMinimumCubes(rs[..2]) == Round(20, 13, 6);
    assert rs[..3][..2] == rs[..2];
    assert FindMinimumCubes(rs[..3]) == Round(20, 13, 6);
    assert rs[..3] == rs;
    assert !rs[0].FitsIn(Bag());
  }

  /** Game 4 adds 0 to Part 1 and its power 630 to Part 2. */
  lemma Game4Counts()
    ensures Game(4, [Round(3, 1, 6), Round(6, 3, 0), Round(14, 3, 15)]).Possible(Bag()) == false
    ensures FindMinimumCubes(Game(4, [Round(3, 1, 6), Round(6, 3, 0), Round(14, 3, 15)]).rounds) == Round(14, 3, 15)
    ensures Power(FindMinimumCubes(Game(4, [Round(3, 1, 6), Round(6, 3, 0), Round(14, 3, 15)]).rounds)) == 630
  {
    var rs := [Round(3, 1, 6), Round(6, 3, 0), Round(14, 3, 15)];
    assert rs[..1][..0] == [];
    assert FindMinimumCubes(rs[..1]) == Round(3, 1, 6);
    assert rs[..2][..1] == rs[..1];
    assert FindMinimumCubes(rs[..2]) == Round(6, 3, 6);
    assert rs[..3][..2] == rs[..2];
    assert FindMinimumCubes(rs[..3]) == Round(14, 3, 15);
    assert rs[..3] == rs;
    assert !rs[2].FitsIn(Bag());
  }

  /** Game 5 adds 5 to Part 1 and its power 36 to Part 2. */
  lemma Game5Counts()
    ensures Game(5, [Round(6, 3, 1), Round(1, 2, 2)]).Possible(Bag()) == true
    ensures FindMinimumCubes(Game(5, [Round(6, 3, 1), Round(1, 2, 2)]).rounds) == Round(6, 3, 2)
    ensures Power(FindMinimumCubes(Game(5, [Round(6, 3, 1), Round(1, 2, 2)]).rounds)) == 36
  {
    var rs := [Round(6, 3, 1), Round(1, 2, 2)];
    assert rs[..1][..0] == [];
    assert FindMinimumCubes(rs[..1]) == Round(6, 3, 1);
    assert rs[..2][..1] == rs[..1];
    assert FindMinimumCubes(rs[..2]) == Round(6, 3, 2);
    assert rs[..2] == rs;
  }

  /** The first line of the sample builds into game 1. */
  lemma SamplePrefix1(input: seq<string>)
    requires 0 < |input| && LinesOk(input[..0]) && Games(input[..0]) == []
    requires input[0] == "Game 1:" + ((" 3 blue" + "," + " 4 red") + ";" + ((" 1 red" + "," + (" 2 green" + "," + " 6 blue")) + ";" + " 2 green"))
    ensures LinesOk(input[..1]) && Games(input[..1]) == [Game(1, [Round(4, 0, 3), Round(1, 2, 6), Round(0, 2, 0)])]
  {
    Game1(input[0]);
    GamesSnoc(input, 0, [], Game(1, [Round(4, 0, 3), Round(1, 2, 6), Round(0, 2, 0)]));
  }

  /** The first 2 lines of the sample build into games 1 to 2. */
  lemma SamplePrefix2(input: seq<string>)
    requires 1 < |input| && LinesOk(input[..1]) && Games(input[..1]) == [Game(1, [Round(4, 0, 3), Round(1, 2, 6), Round(0, 2, 0)])]
    requires input[1] == "Game 2:" + ((" 1 blue" + "," + " 2 green") + ";" + ((" 3 green" + "," + (" 4 blue" + "," + " 1 red")) + ";" + (" 1 green" + "," + " 1 blue")))
    ensures LinesOk(input[..2]) && Games(input[..2]) == [Game(1, [Round(4, 0, 3), Round(1, 2, 6), Round(0, 2, 0)]),
                                                      Game(2, [Round(0, 2, 1), Round(1, 3, 4), Round(0, 1, 1)])]
  {
    Game2(input[1]);
    GamesSnoc(input, 1, [Game(1, [Round(4, 0, 3), Round(1, 2, 6), Round(0, 2, 0)])], Game(2, [Round(0, 2, 1), Round(1, 3, 4), Round(0, 1, 1)]));
  }

  /** The first 3 lines of the sample build into games 1 to 3. */
  lemma SamplePrefix3(input: seq<string>)
    requires 2 < |input| && LinesOk(input[..2]) && Games(input[..2]) == [Game(1, [Round(4, 0, 3), Round(1, 2, 6), Round(0, 2, 0)]), Game(2, [Round(0, 2, 1), Round(1, 3, 4), Round(0, 1, 1)])]
    requires input[2] == "Game 3:" + ((" 8 green" + "," + (" 6 blue" + "," + " 20 red")) + ";" + ((" 5 blue" + "," + (" 4 red" + "," + " 13 green")) + ";" + (" 5 green" + "," + " 1 red")))
    ensures LinesOk(input[..3]) && Games(input[..3]) == [Game(1, [Round(4, 0, 3), Round(1, 2, 6), Round(0, 2, 0)]),
                                                      Game(2, [Round(0, 2, 1), Round(1, 3, 4), Round(0, 1, 1)]),
                                                      Game(3, [Round(20, 8, 6), Round(4, 13, 5), Round(1, 5, 0)])]
  {
    Game3(input[2]);
    GamesSnoc(input, 2, [Game(1, [Round(4, 0, 3), Round(1, 2, 6), Round(0, 2, 0)]), Game(2, [Round(0, 2, 1), Round(1, 3, 4), Round(0, 1, 1)])], Game(3, [Round(20, 8, 6), Round(4, 13, 5), Round(1, 5, 0)]));
  }

  /** The first 4 lines of the sample build into games 1 to 4. */
  lemma SamplePrefix4(input: seq<string>)
    requires 3 < |input| && LinesOk(input[..3]) && Games(input[..3]) == [Game(1, [Round(4, 0, 3), Round(1, 2, 6), Round(0, 2, 0)]), Game(2, [Round(0, 2, 1), Round(1, 3, 4), Round(0, 1, 1)]), Game(3, [Round(20, 8, 6), Round(4, 13, 5), Round(1, 5, 0)])]
    requires input[3] == "Game 4:" + ((" 1 green" + "," + (" 3 red" + "," + " 6 blue")) + ";" + ((" 3 green" + "," + " 6 red") + ";" + (" 3 green" + "," + (" 15 blue" + "," + " 14 red"))))
    ensures LinesOk(input[..4]) && Games(input[..4]) == [Game(1, [Round(4, 0, 3), Round(1, 2, 6), Round(0, 2, 0)]),
                                                      Game(2, [Round(0, 2, 1), Round(1, 3, 4), Round(0, 1, 1)]),
                                                      Game(3, [Round(20, 8, 6), Round(4, 13, 5), Round(1, 5, 0)]),
                                                      Game(4, [Round(3, 1, 6), Round(6, 3, 0), Round(14, 3, 15)])]
  {
    Game4(input[3]);
    GamesSnoc(input, 3, [Game(1, [Round(4, 0, 3), Round(1, 2, 6), Round(0, 2, 0)]), Game(2, [Round(0, 2, 1), Round(1, 3, 4), Round(0, 1, 1)]), Game(3, [Round(20, 8, 6), Round(4, 13, 5), Round(1, 5, 0)])], Game(4, [Round(3, 1, 6), Round(6, 3, 0), Round(14, 3, 15)]));
  }

  /** The first 5 lines of the sample build into games 1 to 5. */
  lemma SamplePrefix5(input: seq<string>)
    requires 4 < |input| && LinesOk(input[..4]) && Games(input[..4]) == [Game(1, [Round(4, 0, 3), Round(1, 2, 6), Round(0, 2, 0)]), Game(2, [Round(0, 2, 1), Round(1, 3, 4), Round(0, 1, 1)]), Game(3, [Round(20, 8, 6), Round(4, 13, 5), Round(1, 5, 0)]), Game(4, [Round(3, 1, 6), Round(6, 3, 0), Round(14, 3, 15)])]
    requires input[4] == "Game 5:" + ((" 6 red" + "," + (" 1 blue" + "," + " 3 green")) + ";" + (" 2 blue" + "," + (" 1 red" + "," + " 2 green")))
    ensures LinesOk(input[..5]) && Games(input[..5]) == [Game(1, [Round(4, 0, 3), Round(1, 2, 6), Round(0, 2, 0)]),
                                                      Game(2, [Round(0, 2, 1), Round(1, 3, 4), Round(0, 1, 1)]),
                                                      Game(3, [Round(20, 8, 6), Round(4, 13, 5), Round(1, 5, 0)]),
                                                      Game(4, [Round(3, 1, 6), Round(6, 3, 0), Round(14, 3, 15)]),
                                                      Game(5, [Round(6, 3, 1), Round(1, 2, 2)])]
  {
    Game5(input[4]);
    GamesSnoc(input, 4, [Game(1, [Round(4, 0, 3), Round(1, 2, 6), Round(0, 2, 0)]), Game(2, [Round(0, 2, 1), Round(1, 3, 4), Round(0, 1, 1)]), Game(3, [Round(20, 8, 6), Round(4, 13, 5), Round(1, 5, 0)]), Game(4, [Round(3, 1, 6), Round(6, 3, 0), Round(14, 3, 15)])], Game(5, [Round(6, 3, 1), Round(1, 2, 2)]));
  }

  lemma Part1Games(games: seq<Game>)
    requires games == [Game(1, [Round(4, 0, 3), Round(1, 2, 6), Round(0, 2, 0)]),
                      Game(2, [Round(0, 2, 1), Round(1, 3, 4), Round(0, 1, 1)]),
                      Game(3, [Round(20, 8, 6), Round(4, 13, 5), Round(1, 5, 0)]),
                      Game(4, [Round(3, 1, 6), Round(6, 3, 0), Round(14, 3, 15)]),
                      Game(5, [Round(6, 3, 1), Round(1, 2, 2)])]
    ensures PossibleIds(games, Bag()) == 8
  {
    assert games[..1][..0] == [];
    Game1Counts();
    assert PossibleIds(games[..1], Bag()) == 1;
    assert games[..2][..1] == games[..1];
    Game2Counts();
    assert PossibleIds(games[..2], Bag()) == 3;
    assert games[..3][..2] == games[..2];
    Game3Counts();
    assert PossibleIds(games[..3], Bag()) == 3;
    assert games[..4][..3] == games[..3];
    Game4Counts();
    assert PossibleIds(games[..4], Bag()) == 3;
    assert games[..5][..4] == games[..4];
    Game5Counts();
    assert PossibleIds(games[..5], Bag()) == 8;
    assert games[..5] == games;
  }

  /** The Part 1 test `sample`: games 1, 2 and 5 are possible, 1 + 2 + 5 = 8. */
  lemma Part1Sample(input: seq<string>)
    requires |input| == 5
    requires input[0] == "Game 1:" + ((" 3 blue" + "," + " 4 red") + ";" + ((" 1 red" + "," + (" 2 green" + "," + " 6 blue")) + ";" + " 2 green"))
    requires input[1] == "Game 2:" + ((" 1 blue" + "," + " 2 green") + ";" + ((" 3 green" + "," + (" 4 blue" + "," + " 1 red")) + ";" + (" 1 green" + "," + " 1 blue")))
    requires input[2] == "Game 3:" + ((" 8 green" + "," + (" 6 blue" + "," + " 20 red")) + ";" + ((" 5 blue" + "," + (" 4 red" + "," + " 13 green")) + ";" + (" 5 green" + "," + " 1 red")))
    requires input[3] == "Game 4:" + ((" 1 green" + "," + (" 3 red" + "," + " 6 blue")) + ";" + ((" 3 green" + "," + " 6 red") + ";" + (" 3 green" + "," + (" 15 blue" + "," + " 14 red"))))
    requires input[4] == "Game 5:" + ((" 6 red" + "," + (" 1 blue" + "," + " 3 green")) + ";" + (" 2 blue" + "," + (" 1 red" + "," + " 2 green")))
    ensures LinesOk(input) && SumOfInvalidGames(input, Bag()) == 8
  {
    assert input[..0] == [];
    SamplePrefix1(input);
    SamplePrefix2(input);
    SamplePrefix3(input);
    SamplePrefix4(input);
    SamplePrefix5(input);
    assert input[..5] == input;
    Part1Games(Games(input));
  }

  lemma Part2Games(games: seq<Game>)
    requires games == [Game(1, [Round(4, 0, 3), Round(1, 2, 6), Round(0, 2, 0)]),
                      Game(2, [Round(0, 2, 1), Round(1, 3, 4), Round(0, 1, 1)]),
                      Game(3, [Round(20, 8, 6), Round(4, 13, 5), Round(1, 5, 0)]),
                      Game(4, [Round(3, 1, 6), Round(6, 3, 0), Round(14, 3, 15)]),
                      Game(5, [Round(6, 3, 1), Round(1, 2, 2)])]
    ensures Powers(games) == 2286
  {
    assert games[..1][..0] == [];
    Game1Counts();
    assert Powers(games[..1]) == 48;
    assert games[..2][..1] == games[..1];
    Game2Counts();
    assert Powers(games[..2]) == 60;
    assert games[..3][..2] == games[..2];
    Game3Counts();
    assert Powers(games[..3]) == 1620;
    assert games[..4][..3] == games[..3];
    Game4Counts();
    assert Powers(games[..4]) == 2250;
    assert games[..5][..4] == games[..4];
    Game5Counts();
    assert Powers(games[..5]) == 2286;
    assert games[..5] == games;
  }

  /** The Part 2 test `sample`: the powers add up to 2286. */
  lemma Part2Sample(input: seq<string>)
    requires |input| == 5
    requires input[0] == "Game 1:" + ((" 3 blue" + "," + " 4 red") + ";" + ((" 1 red" + "," + (" 2 green" + "," + " 6 blue")) + ";" + " 2 green"))
    requires input[1] == "Game 2:" + ((" 1 blue" + "," + " 2 green") + ";" + ((" 3 green" + "," + (" 4 blue" + "," + " 1 red")) + ";" + (" 1 green" + "," + " 1 blue")))
    requires input[2] == "Game 3:" + ((" 8 green" + "," + (" 6 blue" + "," + " 20 red")) + ";" + ((" 5 blue" + "," + (" 4 red" + "," + " 13 green")) + ";" + (" 5 green" + "," + " 1 red")))
    requires input[3] == "Game 4:" + ((" 1 green" + "," + (" 3 red" + "," + " 6 blue")) + ";" + ((" 3 green" + "," + " 6 red") + ";" + (" 3 green" + "," + (" 15 blue" + "," + " 14 red"))))
    requires input[4] == "Game 5:" + ((" 6 red" + "," + (" 1 blue" + "," + " 3 green")) + ";" + (" 2 blue" + "," + (" 1 red" + "," + " 2 green")))
    ensures LinesOk(input) && SumOfPower(input) == 2286
  {
    assert input[..0] == [];
    SamplePrefix1(input);
    SamplePrefix2(input);
    SamplePrefix3(input);
    SamplePrefix4(input);
    SamplePrefix5(input);
    assert input[..5] == input;
    Part2Games(Games(input));
  }
}
