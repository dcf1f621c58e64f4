/**
 * Day 4: scratchcards. A card line reads `Card <n>: <winning numbers> | <numbers
 * you have>`. A card's matches are its winning numbers that also appear among
 * the numbers you have; Part 1 adds the cards' scores (0 without a match, then
 * 1, 2, 4, ... doubling with every further match), and Part 2 counts the cards
 * you end up with when each card wins one copy of each of the next `matches`
 * cards, for every copy of it you hold.
 */
module Scratchcards {
  import opened Text

  /** `Card::new` is this constructor. */
  datatype Card = Card(number: nat, winning: seq<nat>, playing: seq<nat>) {
    /** `Card::matches`: how many of the winning numbers (counted with their
        repetitions) are among the numbers you have, so at most the number
        of winning numbers. */
    function Matches(): (m: nat)
      ensures m <= |winning|
    {
      CountIn(winning, playing)
    }

    /** `Card::score`: 0 without a match, otherwise 2 to the power of one
        less than the number of matches. */
    function Score(): (s: nat)
      ensures s == 0 <==> Matches() == 0
    {
      var count := Matches();
      if count == 0 then 0 else Pow2(count - 1)
    }
  }

  /** The entries of `ws` that occur in `ps`, as `filter(contains).count()`. */
  function CountIn(ws: seq<nat>, ps: seq<nat>): (k: nat)
    ensures k <= |ws|
  {
    if ws == [] then 0
    else CountIn(ws[..|ws| - 1], ps) + (if ws[|ws| - 1] in ps then 1 else 0)
  }

  /** The positions of `ws` whose number occurs in `ps`. */
  function Hits(ws: seq<nat>, ps: seq<nat>): set<nat> {
    set i: nat | i < |ws| && ws[i] in ps
  }

  /** The count is the number of matching positions. */
  lemma {:induction false} CountInHits(ws: seq<nat>, ps: seq<nat>)
    ensures CountIn(ws, ps) == |Hits(ws, ps)|
  {
    if ws != [] {
      var n := |ws| - 1;
      var front := ws[..n];
      CountInHits(front, ps);
      assert Hits(ws, ps) == Hits(front, ps) + (if ws[n] in ps then {n} else {});
    }
  }

  /** No match exactly when no winning number is among the numbers you have. */
  lemma {:induction false} CountInNone(ws: seq<nat>, ps: seq<nat>)
    ensures CountIn(ws, ps) == 0 <==> forall i :: 0 <= i < |ws| ==> ws[i] !in ps
  {
    if ws != [] {
      var n := |ws| - 1;
      CountInNone(ws[..n], ps);
      assert forall i :: 0 <= i < n ==> ws[..n][i] == ws[i];
    }
  }

  /** Every winning number matches exactly when the count is the number of
      winning numbers. */
  lemma {:induction false} CountInAll(ws: seq<nat>, ps: seq<nat>)
    ensures CountIn(ws, ps) == |ws| <==> forall i :: 0 <= i < |ws| ==> ws[i] in ps
  {
    if ws != [] {
      var n := |ws| - 1;
      CountInAll(ws[..n], ps);
      assert forall i :: 0 <= i < n ==> ws[..n][i] == ws[i];
    }
  }

  function Pow2(n: nat): (p: nat)
    ensures p >= 1
  {
    if n == 0 then 1 else 2 * Pow2(n - 1)
  }

  lemma {:induction false} Pow2Monotone(m: nat, n: nat)
    requires m <= n
    ensures Pow2(m) <= Pow2(n)
    decreases n
  {
    if m < n {
      Pow2Monotone(m, n - 1);
    }
  }

  /** One more winning number: the score is unchanged if you do not have it,
      and otherwise goes from 0 to 1 or doubles. */
  lemma ScoreDoubles(c: Card, x: nat)
    ensures var d := Card(c.number, c.winning + [x], c.playing);
            d.Score() == if x !in c.playing then c.Score()
                         else if c.Score() == 0 then 1
                         else 2 * c.Score()
  {
    assert (c.winning + [x])[..|c.winning|] == c.winning;
  }

  /** A card scores at most 2 to the power of one less than its number of
      winning numbers. */
  lemma ScoreBound(c: Card)
    requires c.winning != []
    ensures c.Score() <= Pow2(|c.winning| - 1)
  {
    if c.Matches() > 0 {
      Pow2Monotone(c.Matches() - 1, |c.winning| - 1);
    }
  }

  /** `str::parse::<usize>` applied to every piece of a split. */
  function ParseAll(pieces: seq<string>): (rs: seq<Option<nat>>)
    ensures |rs| == |pieces| && forall i :: 0 <= i < |pieces| ==> rs[i] == ParseUsize(pieces[i])
  {
    seq(|pieces|, i requires 0 <= i < |pieces| => ParseUsize(pieces[i]))
  }

  /** The values that were read, in order, as `filter_map` keeps them. */
  function Somes(rs: seq<Option<nat>>): (ns: seq<nat>)
    ensures |ns| <= |rs|
  {
    if rs == [] then []
    else Somes(rs[..|rs| - 1]) + (match rs[|rs| - 1] case Some(n) => [n] case None => [])
  }

  /** The numbers `str::parse::<usize>` reads from the pieces of a split, in
      order, dropping every piece it cannot read (such as the empty piece
      between two spaces), as `filter_map(parse).collect()`. */
  function Numbers(pieces: seq<string>): seq<nat> {
    Somes(ParseAll(pieces))
  }

  lemma {:induction false} SomesAppend(a: seq<Option<nat>>, b: seq<Option<nat>>)
    ensures Somes(a + b) == Somes(a) + Somes(b)
    decreases |b|
  {
    if b == [] {
      assert a + b == a;
    } else {
      var n := |b| - 1;
      var last := match b[n] case Some(x) => [x] case None => [];
      var ab := a + b;
      assert ab[..|ab| - 1] == a + b[..n] && ab[|ab| - 1] == b[n];
      assert Somes(ab) == Somes(a + b[..n]) + last;
      assert Somes(b) == Somes(b[..n]) + last;
      SomesAppend(a, b[..n]);
    }
  }

  /** Reading two runs of pieces reads each in turn. */
  lemma NumbersAppend(a: seq<string>, b: seq<string>)
    ensures Numbers(a + b) == Numbers(a) + Numbers(b)
  {
    assert ParseAll(a + b) == ParseAll(a) + ParseAll(b);
    SomesAppend(ParseAll(a), ParseAll(b));
  }

  /** When every piece is a number, each one is read, in place. */
  lemma {:induction false} SomesInOrder(rs: seq<Option<nat>>)
    requires forall i :: 0 <= i < |rs| ==> rs[i].Some?
    ensures |Somes(rs)| == |rs|
    ensures forall i :: 0 <= i < |rs| ==> Somes(rs)[i] == rs[i].value
  {
    if rs != [] {
      SomesInOrder(rs[..|rs| - 1]);
    }
  }

  lemma NumbersInOrder(pieces: seq<string>)
    requires forall i :: 0 <= i < |pieces| ==> ParseUsize(pieces[i]).Some?
    ensures |Numbers(pieces)| == |pieces|
    ensures forall i :: 0 <= i < |pieces| ==> Numbers(pieces)[i] == ParseUsize(pieces[i]).value
  {
    SomesInOrder(ParseAll(pieces));
  }

  /** One half of a card: trimmed, split on single spaces, and read. */
  function NumbersOf(half: string): seq<nat> {
    Numbers(Split(Trim(half), " "))
  }

  /** The text before the first ':'. */
  function Header(line: string): string {
    Split(line, ":")[0]
  }

  /** The text between the first and the second ':', empty without a ':'. */
  function Body(line: string): string {
    var parts := Split(line, ":");
    if |parts| >= 2 then parts[1] else ""
  }

  /** The card number's text: the header without its first 4 characters
      (`split_at(4).1`), trimmed. */
  function NumberText(line: string): string {
    var header := Header(line);
    if |header| >= 4 then Trim(header[4..]) else ""
  }

  /** The trimmed body cut at every '|'. */
  function Halves(line: string): seq<string> {
    Split(Trim(Body(line)), "|")
  }

  /** A line the source reads without panicking: it has a ':', the header is at
      least 4 characters long and holds the card number after them, and the
      body has a '|'. */
  predicate LineOk(line: string) {
    |Split(line, ":")| >= 2 && |Header(line)| >= 4 && ParseUsize(NumberText(line)).Some? &&
    |Halves(line)| >= 2
  }

  /** The card one line of `parse_input` builds (on a line for which `LineOk`
      fails the source panics, and this is only a placeholder). Each half
      gives at most one number per space-separated piece. */
  function CardOf(line: string): (card: Card)
    ensures |card.winning| <= |Split(Trim(Halves(line)[0]), " ")|
    ensures |Halves(line)| >= 2 ==> |card.playing| <= |Split(Trim(Halves(line)[1]), " ")|
  {
    var halves := Halves(line);
    var number := match ParseUsize(NumberText(line)) case Some(n) => n case None => 0;
    Card(number, NumbersOf(halves[0]), if |halves| >= 2 then NumbersOf(halves[1]) else [])
  }

  predicate LinesOk(input: seq<string>) {
    forall i {:trigger LineOk(input[i])} :: 0 <= i < |input| ==> LineOk(input[i])
  }

  /** The cards of the lines, in order. */
  function Cards(input: seq<string>): (cards: seq<Card>)
    ensures |cards| == |input|
  {
    if input == [] then [] else Cards(input[..|input| - 1]) + [CardOf(input[|input| - 1])]
  }

  /** Card `i` is read from line `i`. */
  lemma {:induction false} CardsAt(input: seq<string>, i: nat)
    requires i < |input|
    ensures Cards(input)[i] == CardOf(input[i])
  {
    if i < |input| - 1 {
      CardsAt(input[..|input| - 1], i);
    }
  }

  /** `parse_input`: one card per line, in the order of the lines. */
  method ParseInput(input: seq<string>) returns (cards: seq<Card>)
    requires LinesOk(input)
    ensures cards == Cards(input)
  {
    cards := [];
    for i := 0 to |input|
      invariant cards == Cards(input[..i])
    {
      assert input[..i + 1][..i] == input[..i];
      cards := cards + [CardOf(input[i])];
    }
    assert input[..|input|] == input;
  }

  /** The scores of the cards, added up: 0 exactly when no card has a match. */
  function Points(cards: seq<Card>): (points: nat)
    ensures points == 0 <==> NoMatches(cards)
  {
    if cards == [] then 0
    else
      var n := |cards| - 1;
      assert forall i :: 0 <= i < n ==> cards[..n][i] == cards[i];
      Points(cards[..n]) + cards[n].Score()
  }

  /** `part_1::sum_of_points`. */
  function SumOfPoints(input: seq<string>): (sum: nat)
    requires LinesOk(input)
    ensures sum == 0 <==> NoMatches(Cards(input))
  {
    Points(Cards(input))
  }

  /** No card has a match. */
  predicate NoMatches(cards: seq<Card>) {
    forall i :: 0 <= i < |cards| ==> cards[i].Matches() == 0
  }

  /** The matches of every card, in order, as `card_winning_counts`. */
  function Wins(cards: seq<Card>): (wins: seq<nat>)
    ensures |wins| == |cards|
  {
    seq(|cards|, i requires 0 <= i < |cards| => cards[i].Matches())
  }

  /** The cards every card wins exist: `counts[i]` is in range. */
  predicate WinsFit(wins: seq<nat>) {
    forall i :: 0 <= i < |wins| ==> i + wins[i] < |wins|
  }

  /** How many copies of card `j` you end up with: the original, and one for
      every copy of an earlier card whose matches reach card `j`. */
  function Copies(wins: seq<nat>, j: nat): (c: nat)
    requires j < |wins|
    ensures c >= 1
    decreases j, 1
  {
    1 + Won(wins, j, j)
  }

  /** The copies of card `j` won by the cards before card `i`. */
  function Won(wins: seq<nat>, j: nat, i: nat): nat
    requires i <= j < |wins|
    decreases i, 0
  {
    if i == 0 then 0
    else Won(wins, j, i - 1) + (if j <= i - 1 + wins[i - 1] then Copies(wins, i - 1) else 0)
  }

  /** The copies of the first `k` cards. */
  function SumCopies(wins: seq<nat>, k: nat): (total: nat)
    requires k <= |wins|
    ensures total >= k
  {
    if k == 0 then 0 else SumCopies(wins, k - 1) + Copies(wins, k - 1)
  }

  /** The number of scratchcards Part 2 ends with: at least one per card, and
      exactly one per card when no card has a match. */
  function TotalCards(wins: seq<nat>): (total: nat)
    ensures total >= |wins|
    ensures (forall i :: 0 <= i < |wins| ==> wins[i] == 0) ==> total == |wins|
  {
    assert (forall i :: 0 <= i < |wins| ==> wins[i] == 0) ==> SumCopies(wins, |wins|) == |wins| by {
      if forall i :: 0 <= i < |wins| ==> wins[i] == 0 {
        NoWinsNoCopies(wins, |wins|);
      }
    }
    SumCopies(wins, |wins|)
  }

  /** `part_2::sum_of_cards`: the cards' matches, then the cascade of copies. */
  method SumOfCards(input: seq<string>) returns (total: nat)
    requires LinesOk(input) && WinsFit(Wins(Cards(input)))
    ensures total == TotalCards(Wins(Cards(input)))
    ensures total >= |input|
  {
    var cards := ParseInput(input);
    total := CountCards(Wins(cards));
  }

  /** The loops of `sum_of_cards`: every card starts with one copy; going
      through the cards in order, each adds its copies to each of the next
      `matches` cards; the copies are then added up. */
  method CountCards(wins: seq<nat>) returns (total: nat)
    requires WinsFit(wins)
    ensures total == TotalCards(wins)
  {
    var counts := new nat[|wins|](_ => 1);
    for index := 0 to |wins|
      invariant forall j :: 0 <= j < index ==> counts[j] == Copies(wins, j)
      invariant forall j :: index <= j < |wins| ==> counts[j] == 1 + Won(wins, j, index)
    {
      var score := wins[index];
      for i := index + 1 to score + index + 1
        invariant forall j :: 0 <= j <= index ==> counts[j] == Copies(wins, j)
        invariant forall j :: index < j < i ==> counts[j] == 1 + Won(wins, j, index + 1)
        invariant forall j :: i <= j < |wins| ==> counts[j] == 1 + Won(wins, j, index)
      {
        counts[i] := counts[i] + counts[index];
      }
    }
    total := 0;
    for j := 0 to counts.Length
      invariant total == SumCopies(wins, j)
    {
      total := total + counts[j];
    }
  }

  /** Only the cards before card `j` decide its copies. */
  lemma {:induction false} CopiesEarlier(wins: seq<nat>, other: seq<nat>, j: nat)
    requires j < |wins| && j < |other| && wins[..j] == other[..j]
    ensures Copies(wins, j) == Copies(other, j)
    decreases j, 1
  {
    WonEarlier(wins, other, j, j);
  }

  lemma {:induction false} WonEarlier(wins: seq<nat>, other: seq<nat>, j: nat, i: nat)
    requires i <= j < |wins| && j < |other| && wins[..j] == other[..j]
    ensures Won(wins, j, i) == Won(other, j, i)
    decreases i, 0
  {
    if i > 0 {
      WonEarlier(wins, other, j, i - 1);
      assert wins[i - 1] == wins[..j][i - 1] == other[..j][i - 1] == other[i - 1];
      assert wins[..i - 1] == wins[..j][..i - 1];
      assert other[..i - 1] == other[..j][..i - 1];
      CopiesEarlier(wins, other, i - 1);
    }
  }

  /** The copies of a card never go down as more cards are processed. */
  lemma {:induction false} WonMonotone(wins: seq<nat>, j: nat, i: nat, k: nat)
    requires i <= k <= j < |wins|
    ensures Won(wins, j, i) <= Won(wins, j, k)
    decreases k - i
  {
    if i < k {
      WonMonotone(wins, j, i, k - 1);
    }
  }

  /** Without a match anywhere, every card stays a single copy. */
  lemma {:induction false} NoWinsNoCopies(wins: seq<nat>, k: nat)
    requires k <= |wins| && forall i :: 0 <= i < |wins| ==> wins[i] == 0
    ensures SumCopies(wins, k) == k
  {
    if k > 0 {
      NoWinsNoCopies(wins, k - 1);
      NoWinsWon(wins, k - 1, k - 1);
    }
  }

  lemma {:induction false} NoWinsWon(wins: seq<nat>, j: nat, i: nat)
    requires i <= j < |wins| && forall i :: 0 <= i < |wins| ==> wins[i] == 0
    ensures Won(wins, j, i) == 0
  {
    if i > 0 {
      NoWinsWon(wins, j, i - 1);
    }
  }

  /** A hand worth no points wins no copies: Part 2 gives the number of cards. */
  lemma NoPointsNoCopies(input: seq<string>)
    requires LinesOk(input) && SumOfPoints(input) == 0
    ensures TotalCards(Wins(Cards(input))) == |input|
  {
    NoMatchesNoCopies(Cards(input));
  }

  /** Cards worth no points win no copies. */
  lemma NoMatchesNoCopies(cards: seq<Card>)
    requires Points(cards) == 0
    ensures TotalCards(Wins(cards)) == |cards|
  {
    var wins := Wins(cards);
    assert forall i :: 0 <= i < |wins| ==> wins[i] == 0;
    NoWinsNoCopies(wins, |cards|);
  }
}
