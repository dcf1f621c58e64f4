/**
 * Day 2: the cube game. A game line reads `Game <id>: <round>; <round>; ...`,
 * and a round is a comma-separated list of entries such as `3 blue`. Part 1
 * adds the ids of the games that are possible with a given bag; Part 2 adds
 * the powers (red * green * blue) of the smallest bag each game needs.
 */
module CubeGame {
  import opened Text

  /** The cubes shown in one round, and also the contents of a bag. */
  datatype Round = Round(red: nat, green: nat, blue: nat) {
    /** Each colour is at most the same colour of `total`. */
    predicate FitsIn(total: Round) {
      red <= total.red && green <= total.green && blue <= total.blue
    }
  }

  datatype Game = Game(id: nat, rounds: seq<Round>) {
    /** Every round could have been drawn from a bag holding `total`. */
    predicate Possible(total: Round) {
      forall i :: 0 <= i < |rounds| ==> rounds[i].FitsIn(total)
    }

    /** `Game::check_game`: walks the rounds and gives up at the first round
        that shows more of some colour than `total` holds. */
    method CheckGame(total: Round) returns (ok: bool)
      ensures ok <==> Possible(total)
      ensures rounds == [] ==> ok
    {
      for i := 0 to |rounds|
        invariant forall k :: 0 <= k < i ==> rounds[k].FitsIn(total)
      {
        var round := rounds[i];
        if round.red > total.red || round.green > total.green || round.blue > total.blue {
          return false;
        }
      }
      return true;
    }
  }

  datatype Colour = Red | Green | Blue

  /** The word that names a colour in an entry. */
  function Name(c: Colour): string {
    match c
    case Red => "red"
    case Green => "green"
    case Blue => "blue"
  }

  function Get(r: Round, c: Colour): nat {
    match c
    case Red => r.red
    case Green => r.green
    case Blue => r.blue
  }

  function Set(r: Round, c: Colour, n: nat): (s: Round)
    ensures Get(s, c) == n
    ensures forall d :: d != c ==> Get(s, d) == Get(r, d)
  {
    match c
    case Red => r.(red := n)
    case Green => r.(green := n)
    case Blue => r.(blue := n)
  }

  /** The colour an entry names once trimmed: "red", "green" and "blue" are
      looked for anywhere in it, in that order. */
  function KindOf(entry: string): Option<Colour> {
    var e := Trim(entry);
    if Contains(e, "red") then Some(Red)
    else if Contains(e, "green") then Some(Green)
    else if Contains(e, "blue") then Some(Blue)
    else None
  }

  /** The colour found is named in the trimmed entry, and there is none
      exactly when no colour's name occurs in it. */
  lemma KindOfNamed(entry: string)
    ensures KindOf(entry).Some? ==> Contains(Trim(entry), Name(KindOf(entry).value))
    ensures KindOf(entry).None? <==> forall c :: !Contains(Trim(entry), Name(c))
  {
    var e := Trim(entry);
    if !Contains(e, "red") && !Contains(e, "green") && !Contains(e, "blue") {
      forall c ensures !Contains(e, Name(c)) {
        match c
        case Red =>
        case Green =>
        case Blue =>
      }
    } else {
      assert Name(Red) == "red" && Name(Green) == "green" && Name(Blue) == "blue";
    }
  }

  /** An entry that names a colour starts with a number (otherwise the source
      panics in `unwrap`). */
  predicate EntryOk(entry: string) {
    KindOf(entry).None? || ParseUsize(Split(Trim(entry), " ")[0]).Some?
  }

  /** The number in front of an entry that names a colour. */
  function Count(entry: string): nat
    requires EntryOk(entry) && KindOf(entry).Some?
  {
    ParseUsize(Split(Trim(entry), " ")[0]).value
  }

  /** The effect of one entry on the round read so far. */
  function Apply(r: Round, entry: string): Round
    requires EntryOk(entry)
  {
    match KindOf(entry)
    case None => r
    case Some(c) => Set(r, c, Count(entry))
  }

  predicate EntriesOk(entries: seq<string>) {
    forall i :: 0 <= i < |entries| ==> EntryOk(entries[i])
  }

  /** The round the entries describe, each colour starting at 0. */
  function RoundFrom(entries: seq<string>): Round
    requires EntriesOk(entries)
  {
    if entries == [] then Round(0, 0, 0)
    else Apply(RoundFrom(entries[..|entries| - 1]), entries[|entries| - 1])
  }

  /** A colour no entry names stays 0. */
  lemma {:induction false} RoundAbsent(entries: seq<string>, c: Colour)
    requires EntriesOk(entries)
    requires forall i :: 0 <= i < |entries| ==> KindOf(entries[i]) != Some(c)
    ensures Get(RoundFrom(entries), c) == 0
  {
    if entries != [] {
      RoundAbsent(entries[..|entries| - 1], c);
    }
  }

  /** A colour named more than once keeps the number of its last entry. */
  lemma {:induction false} RoundLastWins(entries: seq<string>, c: Colour, i: nat)
    requires EntriesOk(entries)
    requires i < |entries| && KindOf(entries[i]) == Some(c)
    requires forall j :: i < j < |entries| ==> KindOf(entries[j]) != Some(c)
    ensures Get(RoundFrom(entries), c) == Count(entries[i])
  {
    var n := |entries| - 1;
    var front := entries[..n];
    RoundFromLast(entries, c);
    if i < n {
      assert KindOf(entries[n]) != Some(c);
      UnnamedPrefix(entries, c, i, n);
      RoundLastWins(front, c, i);
      assert front[i] == entries[i];
    }
  }

  /** The last entry decides a colour it names; otherwise the entries before it do. */
  lemma RoundFromLast(entries: seq<string>, c: Colour)
    requires EntriesOk(entries) && entries != []
    ensures EntriesOk(entries[..|entries| - 1])
    ensures Get(RoundFrom(entries), c) ==
              if KindOf(entries[|entries| - 1]) == Some(c) then Count(entries[|entries| - 1])
              else Get(RoundFrom(entries[..|entries| - 1]), c)
  {
    var n := |entries| - 1;
    EntriesOkPrefix(entries, n);
    ApplyGet(RoundFrom(entries[..n]), entries[n], c);
  }

  lemma UnnamedPrefix(entries: seq<string>, c: Colour, i: nat, n: nat)
    requires i < n <= |entries| && KindOf(entries[i]) == Some(c)
    requires forall j :: i < j < |entries| ==> KindOf(entries[j]) != Some(c)
    ensures KindOf(entries[..n][i]) == Some(c)
    ensures forall j :: i < j < n ==> KindOf(entries[..n][j]) != Some(c)
  {
    assert forall j :: 0 <= j < n ==> entries[..n][j] == entries[j];
  }

  /** One entry sets the colour it names and keeps the others. */
  lemma ApplyGet(r: Round, entry: string, c: Colour)
    requires EntryOk(entry)
    ensures Get(Apply(r, entry), c) == if KindOf(entry) == Some(c) then Count(entry) else Get(r, c)
  {
  }

  /** Every prefix of well-formed entries is well-formed. */
  lemma EntriesOkPrefix(entries: seq<string>, k: nat)
    requires EntriesOk(entries) && k <= |entries|
    ensures EntriesOk(entries[..k])
  {
    var head := entries[..k];
    forall j | 0 <= j < k ensures EntryOk(head[j]) {
      assert head[j] == entries[j];
    }
  }

  /** Reading one more entry of a well-formed list applies it to the round so far. */
  lemma RoundFromStep(entries: seq<string>, i: nat)
    requires EntriesOk(entries) && i < |entries|
    ensures EntriesOk(entries[..i]) && EntriesOk(entries[..i + 1])
    ensures RoundFrom(entries[..i + 1]) == Apply(RoundFrom(entries[..i]), entries[i])
  {
    EntriesOkPrefix(entries, i);
    EntriesOkPrefix(entries, i + 1);
    var head := entries[..i + 1];
    assert head[..i] == entries[..i];
    assert head[i] == entries[i];
  }

  /** The closure of `build_game` that reads one round: it keeps three counters
      and overwrites one of them per entry. */
  method ParseRound(round: string) returns (r: Round)
    requires EntriesOk(Split(round, ","))
    ensures r == RoundFrom(Split(round, ","))
  {
    var colours := Split(round, ",");
    var red, green, blue := 0, 0, 0;
    for i := 0 to |colours|
      invariant EntriesOk(colours[..i])
      invariant Round(red, green, blue) == RoundFrom(colours[..i])
    {
      RoundFromStep(colours, i);
      var colour := Trim(colours[i]);
      if Contains(colour, "red") {
        red := ParseUsize(Split(colour, " ")[0]).value;
      } else if Contains(colour, "green") {
        green := ParseUsize(Split(colour, " ")[0]).value;
      } else if Contains(colour, "blue") {
        blue := ParseUsize(Split(colour, " ")[0]).value;
      }
    }
    assert colours[..|colours|] == colours;
    r := Round(red, green, blue);
  }

  predicate RoundsOk(rounds: seq<string>) {
    forall i :: 0 <= i < |rounds| ==> EntriesOk(Split(rounds[i], ","))
  }

  /** The rounds the `;`-separated texts describe, one for one. */
  function RoundsFrom(rounds: seq<string>): (rs: seq<Round>)
    requires RoundsOk(rounds)
    ensures |rs| == |rounds|
    ensures forall i :: 0 <= i < |rounds| ==> rs[i] == RoundFrom(Split(rounds[i], ","))
  {
    if rounds == [] then []
    else RoundsFrom(rounds[..|rounds| - 1]) + [RoundFrom(Split(rounds[|rounds| - 1], ","))]
  }

  /** The text in front of the first ':'. */
  function IdField(game: string): string {
    Split(game, ":")[0]
  }

  /** The text between the first and the second ':'. */
  function RoundsField(game: string): string
    requires |Split(game, ":")| >= 2
  {
    Split(game, ":")[1]
  }

  /** What `build_game` needs not to panic: a line whose id field has a second
      word has a ':' and well-formed entries. */
  predicate GameOk(game: string) {
    |Split(IdField(game), " ")| < 2 ||
    (|Split(game, ":")| >= 2 && RoundsOk(Split(RoundsField(game), ";")))
  }

  /** `build_game`: `None` when the id field has no second word; otherwise
      that word as the id (0 when it is not a number) and one round for each
      ';'-separated piece after the ':'. */
  function GameOf(game: string): (g: Option<Game>)
    requires GameOk(game)
    ensures g.Some? ==> |Split(game, ":")| >= 2 && |g.value.rounds| == |Split(RoundsField(game), ";")|
  {
    var words := Split(IdField(game), " ");
    if |words| < 2 then None
    else
      var id := match ParseUsize(words[1]) case Some(n) => n case None => 0;
      Some(Game(id, RoundsFrom(Split(RoundsField(game), ";"))))
  }

  /** `build_game` gives `None` exactly when the text before the first ':'
      holds no space. */
  lemma GameOfNone(game: string)
    requires GameOk(game)
    ensures GameOf(game).None? <==> forall i :: 0 <= i < |IdField(game)| ==> IdField(game)[i] != ' '
  {
    SplitPieces(IdField(game), ' ');
  }

  /** The id is the number after the first space when that word is all digits
      and 0 when it is not a number at all. */
  lemma GameOfId(game: string)
    requires GameOk(game) && GameOf(game).Some?
    ensures var w := Split(IdField(game), " ")[1];
            (|w| > 0 && AllDigits(w) ==> GameOf(game).value.id == DecimalValue(w)) &&
            (ParseUsize(w).None? ==> GameOf(game).value.id == 0)
  {
  }

  /** The imperative reading of `build_game`: the rounds are read one at a
      time with `ParseRound`. */
  method BuildGame(game: string) returns (g: Option<Game>)
    requires GameOk(game)
    ensures g == GameOf(game)
  {
    var words := Split(Split(game, ":")[0], " ");
    if |words| < 2 {
      return None;
    }
    var id := match ParseUsize(words[1]) case Some(n) => n case None => 0;
    var texts := Split(Split(game, ":")[1], ";");
    var rounds: seq<Round> := [];
    for i := 0 to |texts|
      invariant rounds == RoundsFrom(texts[..i])
    {
      assert texts[..i + 1][..i] == texts[..i];
      var round := ParseRound(texts[i]);
      rounds := rounds + [round];
    }
    assert texts[..|texts|] == texts;
    return Some(Game(id, rounds));
  }

  /** One step of the fold in `find_minimum_cubes`: the larger count of each colour. */
  function Widen(acc: Round, round: Round): Round {
    Round(if acc.red < round.red then round.red else acc.red,
          if acc.green < round.green then round.green else acc.green,
          if acc.blue < round.blue then round.blue else acc.blue)
  }

  /** `find_minimum_cubes`: the fold of `Widen` over the rounds from an empty bag. */
  function FindMinimumCubes(rounds: seq<Round>): (m: Round)
    ensures forall i :: 0 <= i < |rounds| ==> rounds[i].FitsIn(m)
  {
    if rounds == [] then Round(0, 0, 0)
    else Widen(FindMinimumCubes(rounds[..|rounds| - 1]), rounds[|rounds| - 1])
  }

  /** No smaller bag holds every round: any bag that does also holds the minimum. */
  lemma {:induction false} MinimumLeast(rounds: seq<Round>, total: Round)
    requires forall i :: 0 <= i < |rounds| ==> rounds[i].FitsIn(total)
    ensures FindMinimumCubes(rounds).FitsIn(total)
  {
    if rounds != [] {
      MinimumLeast(rounds[..|rounds| - 1], total);
    }
  }

  /** Each colour of the minimum is 0 or shown by some round; with no rounds
      the minimum is empty. */
  lemma {:induction false} MinimumAttained(rounds: seq<Round>, c: Colour)
    ensures Get(FindMinimumCubes(rounds), c) == 0 ||
            exists i :: 0 <= i < |rounds| && Get(rounds[i], c) == Get(FindMinimumCubes(rounds), c)
    ensures rounds == [] ==> FindMinimumCubes(rounds) == Round(0, 0, 0)
  {
    if rounds != [] {
      var init := rounds[..|rounds| - 1];
      MinimumAttained(init, c);
      if Get(FindMinimumCubes(rounds), c) != Get(rounds[|rounds| - 1], c) {
        assert Get(FindMinimumCubes(rounds), c) == Get(FindMinimumCubes(init), c);
        if Get(FindMinimumCubes(init), c) != 0 {
          var i :| 0 <= i < |init| && Get(init[i], c) == Get(FindMinimumCubes(init), c);
          assert rounds[i] == init[i];
        }
      }
    }
  }

  /** `check_game` accepts a bag exactly when the bag holds the minimum. */
  lemma PossibleIffMinimum(game: Game, total: Round)
    ensures game.Possible(total) <==> FindMinimumCubes(game.rounds).FitsIn(total)
  {
    if game.Possible(total) {
      MinimumLeast(game.rounds, total);
    }
  }

  /** A bigger bag accepts every game a smaller one does. */
  lemma PossibleMonotone(game: Game, small: Round, large: Round)
    requires small.FitsIn(large) && game.Possible(small)
    ensures game.Possible(large)
  {
    PossibleIffMinimum(game, small);
    PossibleIffMinimum(game, large);
  }

  predicate LinesOk(input: seq<string>) {
    forall i :: 0 <= i < |input| ==> GameOk(input[i])
  }

  /** Every prefix of well-formed lines is well-formed. */
  lemma LinesOkPrefix(input: seq<string>, k: nat)
    requires LinesOk(input) && k <= |input|
    ensures LinesOk(input[..k])
  {
    var head := input[..k];
    forall j | 0 <= j < k ensures GameOk(head[j]) {
      assert head[j] == input[j];
    }
  }

  /** A line that does not build counts as game 0 with no rounds. */
  function GameOrEmpty(line: string): Game
    requires GameOk(line)
  {
    match GameOf(line)
    case Some(g) => g
    case None => Game(0, [])
  }

  /** The `map` step both sums start with: every line built, a line that does
      not build standing for game 0 with no rounds. */
  function Games(input: seq<string>): (games: seq<Game>)
    requires LinesOk(input)
    ensures |games| == |input|
  {
    if input == [] then [] else Games(input[..|input| - 1]) + [GameOrEmpty(input[|input| - 1])]
  }

  /** The `filter` by `check_game`, the `map` to ids and the `sum`. */
  function PossibleIds(games: seq<Game>, total: Round): nat {
    if games == [] then 0
    else
      var g := games[|games| - 1];
      PossibleIds(games[..|games| - 1], total) + (if g.Possible(total) then g.id else 0)
  }

  /** `sum_of_invalid_games`: despite its name, the sum of the ids of the
      games that ARE possible with `total`. */
  function SumOfInvalidGames(input: seq<string>, total: Round): (sum: nat)
    requires LinesOk(input)
    ensures sum <= Ids(Games(input))
  {
    PossibleIdsBounds(Games(input), total, total);
    PossibleIds(Games(input), total)
  }

  /** The sum of every game's id, possible or not. */
  function Ids(games: seq<Game>): nat {
    if games == [] then 0 else Ids(games[..|games| - 1]) + games[|games| - 1].id
  }

  /** A bigger bag never lowers the sum of possible ids, which never exceeds
      the sum of all ids and reaches it once the bag holds every game's minimum. */
  lemma {:induction false} PossibleIdsBounds(games: seq<Game>, small: Round, large: Round)
    requires small.FitsIn(large)
    ensures PossibleIds(games, small) <= PossibleIds(games, large) <= Ids(games)
    ensures (forall i :: 0 <= i < |games| ==> FindMinimumCubes(games[i].rounds).FitsIn(large))
            ==> PossibleIds(games, large) == Ids(games)
  {
    if games != [] {
      var init := games[..|games| - 1];
      var g := games[|games| - 1];
      PossibleIdsBounds(init, small, large);
      if g.Possible(small) {
        PossibleMonotone(g, small, large);
      }
      PossibleIffMinimum(g, large);
      if forall i :: 0 <= i < |games| ==> FindMinimumCubes(games[i].rounds).FitsIn(large) {
        assert forall i :: 0 <= i < |init| ==> init[i] == games[i];
      }
    }
  }

  /** Part 1 on the lines: monotone in the bag, at most the sum of all ids,
      and equal to it once the bag holds every game's minimum. */
  lemma SumOfInvalidGamesBounds(input: seq<string>, small: Round, large: Round)
    requires LinesOk(input) && small.FitsIn(large)
    ensures SumOfInvalidGames(input, small) <= SumOfInvalidGames(input, large) <= Ids(Games(input))
    ensures (forall i :: 0 <= i < |input| ==> FindMinimumCubes(Games(input)[i].rounds).FitsIn(large))
            ==> SumOfInvalidGames(input, large) == Ids(Games(input))
  {
    PossibleIdsBounds(Games(input), small, large);
  }

  /** A line that does not build adds nothing to Part 1. */
  lemma SumOfInvalidGamesSkips(input: seq<string>, line: string, total: Round)
    requires LinesOk(input) && GameOk(line) && GameOf(line).None?
    ensures LinesOk(input + [line])
    ensures SumOfInvalidGames(input + [line], total) == SumOfInvalidGames(input, total)
  {
    assert (input + [line])[..|input|] == input;
  }

  /** The power of a bag: the product of its three counters, 0 exactly when
      one of them is. */
  function Power(r: Round): (p: nat)
    ensures p == 0 <==> r.red == 0 || r.green == 0 || r.blue == 0
  {
    ProductZero(r.red, r.green, r.blue);
    r.red * r.green * r.blue
  }

  /** No round shows colour `c`. */
  predicate Absent(rounds: seq<Round>, c: Colour) {
    forall i :: 0 <= i < |rounds| ==> Get(rounds[i], c) == 0
  }

  /** A colour of the minimum is 0 exactly when no round shows it. */
  lemma MinimumZero(rounds: seq<Round>, c: Colour)
    ensures Get(FindMinimumCubes(rounds), c) == 0 <==> Absent(rounds, c)
  {
    MinimumAttained(rounds, c);
    var m := FindMinimumCubes(rounds);
    assert forall i :: 0 <= i < |rounds| ==> Get(rounds[i], c) <= Get(m, c);
  }

  /** A game's power is 0 exactly when some colour is never shown. */
  lemma PowerZero(rounds: seq<Round>)
    ensures Power(FindMinimumCubes(rounds)) == 0 <==>
            Absent(rounds, Red) || Absent(rounds, Green) || Absent(rounds, Blue)
  {
    var m := FindMinimumCubes(rounds);
    MinimumZero(rounds, Red);
    MinimumZero(rounds, Green);
    MinimumZero(rounds, Blue);
    assert Get(m, Red) == m.red && Get(m, Green) == m.green && Get(m, Blue) == m.blue;
  }

  lemma ProductZero(x: nat, y: nat, z: nat)
    ensures x * y * z == 0 <==> x == 0 || y == 0 || z == 0
  {
    if x != 0 && y != 0 && z != 0 {
      assert x * y >= 1;
      assert x * y * z >= 1;
    }
  }

  /** The `map` to each game's power and the `sum`. */
  function Powers(games: seq<Game>): nat {
    if games == [] then 0
    else Powers(games[..|games| - 1]) + Power(FindMinimumCubes(games[|games| - 1].rounds))
  }

  /** Each game's power is part of the sum. */
  lemma {:induction false} PowersEach(games: seq<Game>)
    ensures forall i :: 0 <= i < |games| ==> Power(FindMinimumCubes(games[i].rounds)) <= Powers(games)
  {
    if games != [] {
      var n := |games| - 1;
      PowersEach(games[..n]);
      assert forall i :: 0 <= i < n ==> games[..n][i] == games[i];
    }
  }

  /** `sum_of_power`: the sum of the powers of each game's minimum bag, so at
      least the power of every game. */
  function SumOfPower(input: seq<string>): (sum: nat)
    requires LinesOk(input)
    ensures forall i :: 0 <= i < |input| ==> Power(FindMinimumCubes(Games(input)[i].rounds)) <= sum
  {
    PowersEach(Games(input));
    Powers(Games(input))
  }
}
