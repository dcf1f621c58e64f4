/**
 * Game lines written out the way the puzzle input writes them, and the proof
 * that `build_game` reads such a line back: the id, and every round with a
 * colour set by its last entry and 0 for a colour no entry names.
 */
module CubeRender {
  import opened Text
  import opened CubeGame

  /** One entry of a round, such as `3 blue`. */
  datatype Entry = Entry(count: nat, colour: Colour)

  /** The characters a rendered entry is made of. */
  predicate Plain(ch: char) {
    ch == ' ' || IsDigit(ch) || 'a' <= ch <= 'z'
  }

  /** An entry as it follows a ':', ';' or ',' in the input: a space, the count,
      a space and the colour. */
  function EntryText(e: Entry): string {
    " " + NatString(e.count) + " " + Name(e.colour)
  }

  lemma EntryPlain(e: Entry)
    ensures forall i :: 0 <= i < |EntryText(e)| ==> Plain(EntryText(e)[i])
  {
    NatStringValue(e.count);
  }

  function EntryTexts(es: seq<Entry>): (ts: seq<string>)
    ensures |ts| == |es| && forall i :: 0 <= i < |es| ==> ts[i] == EntryText(es[i])
  {
    seq(|es|, i requires 0 <= i < |es| => EntryText(es[i]))
  }

  /** A round: its entries joined by ','. */
  function RoundText(es: seq<Entry>): string
    requires |es| >= 1
  {
    Join(EntryTexts(es), ",")
  }

  predicate NonEmptyRounds(rounds: seq<seq<Entry>>) {
    forall i :: 0 <= i < |rounds| ==> |rounds[i]| >= 1
  }

  function RoundTexts(rounds: seq<seq<Entry>>): (ts: seq<string>)
    requires NonEmptyRounds(rounds)
    ensures |ts| == |rounds| && forall i :: 0 <= i < |rounds| ==> ts[i] == RoundText(rounds[i])
  {
    seq(|rounds|, i requires 0 <= i < |rounds| && NonEmptyRounds(rounds) => RoundText(rounds[i]))
  }

  /** A whole game line: `Game <id>:` and the rounds joined by ';'. */
  function GameText(id: nat, rounds: seq<seq<Entry>>): string
    requires |rounds| >= 1 && NonEmptyRounds(rounds)
  {
    "Game " + NatString(id) + ":" + Join(RoundTexts(rounds), ";")
  }

  /** The round a list of entries describes: each colour starts at 0 and each
      entry sets its own colour. */
  function RoundOfEntries(es: seq<Entry>): Round {
    if es == [] then Round(0, 0, 0)
    else Set(RoundOfEntries(es[..|es| - 1]), es[|es| - 1].colour, es[|es| - 1].count)
  }

  /** No character of `sep` or of any piece is `c`, so none of their join is. */
  lemma {:induction false} JoinAvoids(parts: seq<string>, sep: string, c: char)
    requires |parts| >= 1
    requires forall i :: 0 <= i < |sep| ==> sep[i] != c
    requires forall k, i :: 0 <= k < |parts| && 0 <= i < |parts[k]| ==> parts[k][i] != c
    ensures forall i :: 0 <= i < |Join(parts, sep)| ==> Join(parts, sep)[i] != c
    decreases |parts|
  {
    if |parts| > 1 {
      JoinAvoids(parts[1..], sep, c);
      assert forall i :: 0 <= i < |parts[0]| ==> parts[0][i] != c;
    }
  }

  /** Which colour words each colour word contains: "red" only itself, ... */
  lemma RedContains()
    ensures Contains("red", "red")
  {
    assert "red"[..3] == "red";
  }

  /** ... "green" contains "green" but not "red", ... */
  lemma GreenContains()
    ensures !Contains("green", "red") && Contains("green", "green")
  {
    assert "green"[..5] == "green";
    ShortNoContains("en", "red");
    assert "een"[1..] == "en";
    Differs("een", "red", 0);
    assert "reen"[1..] == "een";
    Differs("reen", "red", 2);
    assert "green"[1..] == "reen";
    Differs("green", "red", 0);
  }

  /** ... and "blue" contains "blue" but neither "red" nor "green". */
  lemma BlueContains()
    ensures !Contains("blue", "red") && !Contains("blue", "green") && Contains("blue", "blue")
  {
    assert "blue"[..4] == "blue";
    ShortNoContains("blue", "green");
    ShortNoContains("", "red");
    ContainsSkip("blue", "", "red");
    assert "blue" + "" == "blue";
  }

  /** Trimming a rendered entry drops its leading space only. */
  lemma EntryTrim(e: Entry)
    ensures Trim(EntryText(e)) == NatString(e.count) + " " + Name(e.colour)
  {
    var core := NatString(e.count) + " " + Name(e.colour);
    NatStringValue(e.count);
    assert EntryText(e)[1..] == core;
    assert TrimStart(core) == core;
  }

  /** A pattern starting with a letter is found after a count and a space
      exactly when it is found in the word that follows them. */
  lemma CoreContains(n: string, name: string, w: string)
    requires AllDigits(n) && |w| >= 1 && 'a' <= w[0] <= 'z'
    ensures Contains(n + " " + name, w) <==> Contains(name, w)
  {
    assert forall i :: 0 <= i < |n + " "| ==> (n + " ")[i] != w[0];
    ContainsSkip(n + " ", name, w);
  }

  /** The colour `build_game` finds in a rendered entry is the entry's own. */
  lemma EntryKind(e: Entry)
    ensures KindOf(EntryText(e)) == Some(e.colour)
  {
    var n := NatString(e.count);
    NatStringValue(e.count);
    EntryTrim(e);
    CoreContains(n, Name(e.colour), "red");
    match e.colour
    case Red =>
      RedContains();
    case Green =>
      CoreContains(n, "green", "green");
      GreenContains();
    case Blue =>
      CoreContains(n, "blue", "green");
      CoreContains(n, "blue", "blue");
      BlueContains();
  }

  /** `build_game` reads a rendered entry back: the colour it names and its count. */
  lemma EntryParses(e: Entry)
    ensures EntryOk(EntryText(e))
    ensures KindOf(EntryText(e)) == Some(e.colour) && Count(EntryText(e)) == e.count
  {
    var n := NatString(e.count);
    NatStringValue(e.count);
    EntryKind(e);
    EntryTrim(e);
    assert forall i :: 0 <= i < |n| ==> n[i] != ' ';
    SplitChar(n, ' ', Name(e.colour));
    assert Trim(EntryText(e)) == n + [' '] + Name(e.colour);
    assert Split(Trim(EntryText(e)), " ")[0] == n;
  }

  /** A rendered round is read back as the round its entries describe. */
  lemma {:induction false} RoundParses(es: seq<Entry>)
    requires |es| >= 1
    ensures Split(RoundText(es), ",") == EntryTexts(es)
    ensures EntriesOk(EntryTexts(es)) && RoundFrom(EntryTexts(es)) == RoundOfEntries(es)
  {
    forall j | 0 <= j < |es| {
      EntryPlain(es[j]);
    }
    SplitJoin(EntryTexts(es), ',');
    EntriesRead(es);
  }

  lemma {:induction false} EntriesRead(es: seq<Entry>)
    ensures EntriesOk(EntryTexts(es)) && RoundFrom(EntryTexts(es)) == RoundOfEntries(es)
  {
    forall i | 0 <= i < |es| ensures EntryOk(EntryTexts(es)[i]) {
      EntryParses(es[i]);
    }
    if es != [] {
      var n := |es| - 1;
      EntriesRead(es[..n]);
      assert EntryTexts(es)[..n] == EntryTexts(es[..n]);
      EntryParses(es[n]);
    }
  }

  /** The rounds the entry lists describe. */
  function RoundsOfEntries(rounds: seq<seq<Entry>>): (rs: seq<Round>)
    ensures |rs| == |rounds| && forall i :: 0 <= i < |rounds| ==> rs[i] == RoundOfEntries(rounds[i])
  {
    seq(|rounds|, i requires 0 <= i < |rounds| => RoundOfEntries(rounds[i]))
  }

  /** A rendered line has its first ':' right after the id. */
  lemma GameFields(id: nat, rounds: seq<seq<Entry>>)
    requires |rounds| >= 1 && NonEmptyRounds(rounds)
    ensures |Split(GameText(id, rounds), ":")| >= 2
    ensures IdField(GameText(id, rounds)) == "Game " + NatString(id)
    ensures RoundsField(GameText(id, rounds)) == Join(RoundTexts(rounds), ";")
    ensures forall k, i :: 0 <= k < |rounds| && 0 <= i < |RoundTexts(rounds)[k]| ==> RoundTexts(rounds)[k][i] != ';'
  {
    var texts := RoundTexts(rounds);
    var body := Join(texts, ";");
    forall k | 0 <= k < |texts|
      ensures forall i :: 0 <= i < |texts[k]| ==> texts[k][i] != ';' && texts[k][i] != ':'
    {
      forall j | 0 <= j < |rounds[k]| {
        EntryPlain(rounds[k][j]);
      }
      JoinAvoids(EntryTexts(rounds[k]), ",", ';');
      JoinAvoids(EntryTexts(rounds[k]), ",", ':');
    }
    JoinAvoids(texts, ";", ':');
    var idField := "Game " + NatString(id);
    NatStringValue(id);
    assert forall i :: 0 <= i < |idField| ==> idField[i] != ':';
    assert GameText(id, rounds) == idField + [':'] + body;
    SplitChar(idField, ':', body);
    SplitAbsent(body, ':');
  }

  /** The id field of a rendered line has two words, the second the id's digits. */
  lemma IdWords(id: nat)
    ensures Split("Game " + NatString(id), " ") == ["Game", NatString(id)]
  {
    var n := NatString(id);
    NatStringValue(id);
    assert "Game " + n == "Game" + [' '] + n;
    assert forall i :: 0 <= i < |n| ==> n[i] != ' ';
    SplitChar("Game", ' ', n);
    SplitAbsent(n, ' ');
  }

  /** The rendered rounds are read back one by one. */
  lemma RoundsRead(rounds: seq<seq<Entry>>)
    requires NonEmptyRounds(rounds)
    ensures RoundsOk(RoundTexts(rounds)) && RoundsFrom(RoundTexts(rounds)) == RoundsOfEntries(rounds)
  {
    var texts := RoundTexts(rounds);
    forall k | 0 <= k < |texts|
      ensures EntriesOk(Split(texts[k], ",")) && RoundFrom(Split(texts[k], ",")) == RoundOfEntries(rounds[k])
    {
      RoundParses(rounds[k]);
    }
  }

  /** Round trip: `build_game` reads a rendered game line back as the game with
      that id whose rounds are the ones the entries describe. */
  lemma GameRoundTrip(id: nat, rounds: seq<seq<Entry>>)
    requires |rounds| >= 1 && NonEmptyRounds(rounds)
    ensures GameOk(GameText(id, rounds))
    ensures GameOf(GameText(id, rounds)) == Some(Game(id, RoundsOfEntries(rounds)))
  {
    GameFields(id, rounds);
    IdWords(id);
    NatStringValue(id);
    SplitJoin(RoundTexts(rounds), ';');
    RoundsRead(rounds);
  }

  /** A round with every colour written out once. */
  function Entries(r: Round): seq<Entry> {
    [Entry(r.red, Red), Entry(r.green, Green), Entry(r.blue, Blue)]
  }

  lemma EntriesRound(r: Round)
    ensures RoundOfEntries(Entries(r)) == r
  {
    var es := Entries(r);
    assert es[..1][..0] == [];
    assert RoundOfEntries(es[..1]) == Round(r.red, 0, 0);
    assert es[..2][..1] == es[..1];
    assert RoundOfEntries(es[..2]) == Round(r.red, r.green, 0);
    assert es[..3] == es;
  }

  /** Any game with at least one round survives rendering and `build_game`. */
  lemma BuildGameInvertsRendering(g: Game)
    requires |g.rounds| >= 1
    ensures var rounds := seq(|g.rounds|, i requires 0 <= i < |g.rounds| => Entries(g.rounds[i]));
            NonEmptyRounds(rounds) && GameOk(GameText(g.id, rounds)) && GameOf(GameText(g.id, rounds)) == Some(g)
  {
    var rounds := seq(|g.rounds|, i requires 0 <= i < |g.rounds| => Entries(g.rounds[i]));
    GameRoundTrip(g.id, rounds);
    forall i | 0 <= i < |g.rounds| ensures RoundOfEntries(rounds[i]) == g.rounds[i] {
      EntriesRound(g.rounds[i]);
    }
    assert RoundsOfEntries(rounds) == g.rounds;
  }
}
