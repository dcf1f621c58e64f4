/**
 * Card lines written out the way the puzzle input writes them, and the proof
 * that `parse_input` reads such a line back: the card number, and both lists
 * of numbers in order, with the empty pieces that the two-character columns
 * leave between single spaces dropped.
 */
module CardRender {
  import opened Text
  import opened Scratchcards

  /** A number in a column two characters wide. */
  function Pad(n: nat): string {
    if n < 10 then " " + NatString(n) else NatString(n)
  }

  /** Numbers in two-character columns, one space apart. */
  function Field(ns: seq<nat>): string
    requires |ns| >= 1
  {
    if |ns| == 1 then Pad(ns[0]) else Pad(ns[0]) + " " + Field(ns[1..])
  }

  /** `Card <number>: <winning> | <numbers you have>`. */
  function CardText(c: Card): string
    requires c.winning != [] && c.playing != []
  {
    "Card " + NatString(c.number) + ":" + " " + Field(c.winning) + " | " + Field(c.playing)
  }

  predicate DigitsAndSpaces(s: string) {
    forall i :: 0 <= i < |s| ==> IsDigit(s[i]) || s[i] == ' '
  }

  /** A rendered field holds digits and spaces only, and ends with a digit. */
  lemma {:induction false} FieldChars(ns: seq<nat>)
    requires |ns| >= 1
    ensures DigitsAndSpaces(Field(ns)) && |Field(ns)| >= 1 && IsDigit(Field(ns)[|Field(ns)| - 1])
    decreases |ns|
  {
    NatStringValue(ns[0]);
    if |ns| > 1 {
      FieldChars(ns[1..]);
    }
  }

  /** A space in front of the text only adds an empty piece, which is not read. */
  lemma LeadingSpace(s: string)
    ensures Numbers(Split(" " + s, " ")) == Numbers(Split(s, " "))
  {
    LeadSplit(s);
    NumbersAppend([[]], Split(s, " "));
  }

  /** A space after the text only adds an empty piece, which is not read. */
  lemma TrailingSpace(s: string)
    ensures Numbers(Split(s + " ", " ")) == Numbers(Split(s, " "))
  {
    SplitSnoc(s, ' ');
    NumbersAppend(Split(s, " "), [[]]);
  }

  /** Trimming the spaces off a text of digits and spaces reads the same numbers. */
  lemma {:induction false} NumbersTrimStart(s: string)
    requires DigitsAndSpaces(s)
    ensures Numbers(Split(TrimStart(s), " ")) == Numbers(Split(s, " "))
    decreases |s|
  {
    if s != [] && IsWhitespace(s[0]) {
      assert s == " " + s[1..];
      LeadingSpace(s[1..]);
      NumbersTrimStart(s[1..]);
    }
  }

  lemma {:induction false} NumbersTrimEnd(s: string)
    requires DigitsAndSpaces(s)
    ensures Numbers(Split(TrimEnd(s), " ")) == Numbers(Split(s, " "))
    decreases |s|
  {
    if s != [] && IsWhitespace(s[|s| - 1]) {
      var front := s[..|s| - 1];
      assert s == front + " ";
      TrailingSpace(front);
      NumbersTrimEnd(front);
    }
  }

  lemma NumbersTrim(s: string)
    requires DigitsAndSpaces(s)
    ensures Numbers(Split(Trim(s), " ")) == Numbers(Split(s, " "))
  {
    NumbersTrimStart(s);
    TrimmedDigits(s);
    NumbersTrimEnd(TrimStart(s));
  }

  /** A number's digits are read back as the number. */
  lemma DigitsRead(n: nat)
    ensures Numbers([NatString(n)]) == [n]
  {
    NatStringValue(n);
    assert ParseAll([NatString(n)]) == [Some(n)];
    assert [Some(n)][..0] == [];
  }

  /** A padded number is read back. */
  lemma PadRead(n: nat)
    ensures Numbers(Split(Pad(n), " ")) == [n]
  {
    var d := NatString(n);
    NatStringValue(n);
    SplitAbsent(d, ' ');
    DigitsRead(n);
    if n < 10 {
      LeadingSpace(d);
    }
  }

  /** A padded number splits into an empty piece, when it is a single digit,
      and its digits. */
  lemma PadPieces(n: nat)
    ensures Split(Pad(n), " ") == (if n < 10 then [[]] else []) + [NatString(n)]
  {
    var d := NatString(n);
    NatStringValue(n);
    SplitAbsent(d, ' ');
    if n < 10 {
      LeadSplit(d);
    }
  }

  /** Splitting after a padded number cuts at the space that follows it. */
  lemma PadSplit(n: nat, rest: string)
    ensures Split(Pad(n) + " " + rest, " ") == Split(Pad(n), " ") + Split(rest, " ")
  {
    var d := NatString(n);
    NatStringValue(n);
    assert forall i :: 0 <= i < |d| ==> d[i] != ' ';
    if n < 10 {
      SpacedSplit(d, rest);
    } else {
      WordSplit(d, rest);
    }
  }

  /** A word without spaces, then a space: the word is the first piece. */
  lemma WordSplit(d: string, rest: string)
    requires forall i :: 0 <= i < |d| ==> d[i] != ' '
    ensures Split(d + " " + rest, " ") == Split(d, " ") + Split(rest, " ")
  {
    assert d + " " + rest == d + [' '] + rest;
    SplitChar(d, ' ', rest);
    SplitAbsent(d, ' ');
  }

  /** The same after a leading space, which makes an empty first piece. */
  lemma SpacedSplit(d: string, rest: string)
    requires forall i :: 0 <= i < |d| ==> d[i] != ' '
    ensures Split(" " + d + " " + rest, " ") == Split(" " + d, " ") + Split(rest, " ")
  {
    var tail := d + " " + rest;
    calc {
      Split(" " + d + " " + rest, " ");
      { Regroup(" ", d, " ", rest); }
      Split(" " + tail, " ");
      { LeadSplit(tail); }
      [[]] + Split(tail, " ");
      { WordSplit(d, rest); }
      [[]] + (Split(d, " ") + Split(rest, " "));
      ([[]] + Split(d, " ")) + Split(rest, " ");
      { LeadSplit(d); }
      Split(" " + d, " ") + Split(rest, " ");
    }
  }

  lemma Regroup(a: string, b: string, c: string, d: string)
    ensures a + b + c + d == a + (b + c + d)
  {
  }

  /** A leading space makes an empty first piece. */
  lemma LeadSplit(s: string)
    ensures Split(" " + s, " ") == [[]] + Split(s, " ")
  {
    assert " " + s == [] + [' '] + s;
    SplitChar([], ' ', s);
  }

  /** A rendered field reads back as its numbers. */
  lemma {:induction false} NumbersField(ns: seq<nat>)
    requires |ns| >= 1
    ensures Numbers(Split(Field(ns), " ")) == ns
    decreases |ns|
  {
    if |ns| == 1 {
      PadRead(ns[0]);
    } else {
      var p, rest := Pad(ns[0]), Field(ns[1..]);
      calc {
        Numbers(Split(Field(ns), " "));
        { assert Field(ns) == p + " " + rest; }
        Numbers(Split(p + " " + rest, " "));
        { PadSplit(ns[0], rest); }
        Numbers(Split(p, " ") + Split(rest, " "));
        { NumbersAppend(Split(p, " "), Split(rest, " ")); }
        Numbers(Split(p, " ")) + Numbers(Split(rest, " "));
        { PadRead(ns[0]); NumbersField(ns[1..]); }
        [ns[0]] + ns[1..];
        ns;
      }
    }
  }

  /** A space in front of a rendered field keeps it digits and spaces. */
  lemma SpacedField(ns: seq<nat>, h: string)
    requires |ns| >= 1 && h == " " + Field(ns)
    ensures DigitsAndSpaces(h)
  {
    var f := Field(ns);
    FieldChars(ns);
    forall i | 0 <= i < |h| ensures IsDigit(h[i]) || h[i] == ' ' {
      if i > 0 {
        assert h[i] == f[i - 1];
      }
    }
  }

  /** The second half of a line, after the '|', reads back as its numbers. */
  lemma SecondHalf(ns: seq<nat>, h: string)
    requires |ns| >= 1 && h == " " + Field(ns)
    ensures NumbersOf(h) == ns
  {
    var f := Field(ns);
    SpacedField(ns, h);
    calc {
      NumbersOf(h);
      Numbers(Split(Trim(h), " "));
      { NumbersTrim(h); }
      Numbers(Split(h, " "));
      { LeadingSpace(f); }
      Numbers(Split(f, " "));
      { NumbersField(ns); }
      ns;
    }
  }

  /** The first half of a line, once the body is trimmed, reads back as its
      numbers. */
  lemma FirstHalf(ns: seq<nat>, h: string)
    requires |ns| >= 1 && h == " " + Field(ns)
    ensures NumbersOf(TrimStart(h) + " ") == ns
  {
    var f := Field(ns);
    var x := TrimStart(h);
    SpacedField(ns, h);
    TrimmedDigits(h);
    assert DigitsAndSpaces(x + " ") by {
      forall i | 0 <= i < |x + " "| ensures IsDigit((x + " ")[i]) || (x + " ")[i] == ' ' {
        if i < |x| {
          assert (x + " ")[i] == x[i];
        }
      }
    }
    calc {
      NumbersOf(x + " ");
      Numbers(Split(Trim(x + " "), " "));
      { NumbersTrim(x + " "); }
      Numbers(Split(x + " ", " "));
      { TrailingSpace(x); }
      Numbers(Split(x, " "));
      { NumbersTrimStart(h); }
      Numbers(Split(h, " "));
      { LeadingSpace(f); }
      Numbers(Split(f, " "));
      { NumbersField(ns); }
      ns;
    }
  }

  /** Trimming keeps a text of digits and spaces one. */
  lemma TrimmedDigits(s: string)
    requires DigitsAndSpaces(s)
    ensures DigitsAndSpaces(TrimStart(s))
  {
    TrimStartSuffix(s);
    var x := TrimStart(s);
    forall i | 0 <= i < |x| ensures IsDigit(x[i]) || x[i] == ' ' {
      assert x[i] == s[|s| - |x| + i];
    }
  }

  /** The line cuts at its ':' into the header and the body. */
  lemma HeaderSplit(d: string, body: string)
    requires forall i :: 0 <= i < |d| ==> d[i] != ':'
    requires forall i :: 0 <= i < |body| ==> body[i] != ':'
    ensures Split("Card " + d + ":" + body, ":") == ["Card " + d, body]
  {
    HeaderNoColon(d);
    ColonSplit("Card " + d, body);
  }

  lemma HeaderNoColon(d: string)
    requires forall i :: 0 <= i < |d| ==> d[i] != ':'
    ensures forall i :: 0 <= i < |"Card " + d| ==> ("Card " + d)[i] != ':'
  {
    var header := "Card " + d;
    forall i | 0 <= i < |header| ensures header[i] != ':' {
      if i >= 5 {
        assert header[i] == d[i - 5];
      }
    }
  }

  lemma ColonSplit(header: string, body: string)
    requires forall i :: 0 <= i < |header| ==> header[i] != ':'
    requires forall i :: 0 <= i < |body| ==> body[i] != ':'
    ensures Split(header + ":" + body, ":") == [header, body]
  {
    assert header + ":" + body == header + [':'] + body;
    CutOnce(header, ':', body);
  }

  /** The header names the card number after its first 4 characters. */
  lemma HeaderNumber(number: nat, header: string)
    requires header == "Card " + NatString(number)
    ensures |header| >= 4 && ParseUsize(Trim(header[4..])) == Some(number)
  {
    var d := NatString(number);
    NatStringValue(number);
    var t := header[4..];
    assert t == " " + d && t[1..] == d;
    calc {
      Trim(t);
      TrimEnd(TrimStart(t));
      TrimEnd(TrimStart(d));
      { TrimStartKeeps(d); }
      TrimEnd(d);
      { TrimEndKeeps(d); }
      d;
    }
  }

  lemma TrimStartKeeps(t: string)
    requires |t| >= 1 && !IsWhitespace(t[0])
    ensures TrimStart(t) == t
  {
  }

  /** Trimming the text after the ':' trims the front of the first half only. */
  lemma TrimBody(a: string, b: string, f1: string, f2: string)
    requires a == " " + f1 && b == " | " + f2
    requires |f1| >= 1 && IsDigit(f1[|f1| - 1]) && |f2| >= 1 && IsDigit(f2[|f2| - 1])
    ensures Trim(a + b) == TrimStart(a) + b
  {
    assert !IsWhitespace(a[|a| - 1]) by { assert a[|a| - 1] == f1[|f1| - 1]; }
    assert !IsWhitespace(b[|b| - 1]) by { assert b[|b| - 1] == f2[|f2| - 1]; }
    TrimAround(a, b);
  }

  /** Trimming a text whose two parts each end in a non-space only trims the
      start of the first part. */
  lemma TrimAround(a: string, b: string)
    requires |a| >= 1 && !IsWhitespace(a[|a| - 1]) && |b| >= 1 && !IsWhitespace(b[|b| - 1])
    ensures Trim(a + b) == TrimStart(a) + b
  {
    var t := TrimStart(a) + b;
    calc {
      Trim(a + b);
      TrimEnd(TrimStart(a + b));
      { TrimStartAppend(a, b); }
      TrimEnd(t);
      { assert t[|t| - 1] == b[|b| - 1]; TrimEndKeeps(t); }
      t;
    }
  }

  lemma TrimEndKeeps(t: string)
    requires |t| >= 1 && !IsWhitespace(t[|t| - 1])
    ensures TrimEnd(t) == t
  {
  }

  /** The trimmed text after the ':' cuts at the '|' into the two halves. */
  lemma CutHalves(x: string, f: string)
    requires DigitsAndSpaces(x) && DigitsAndSpaces(f)
    ensures Split(x + " | " + f, "|") == [x + " ", " " + f]
  {
    assert x + " | " + f == (x + " ") + ['|'] + (" " + f);
    forall i | 0 <= i < |x + " "| ensures (x + " ")[i] != '|' {
      if i < |x| {
        assert (x + " ")[i] == x[i];
      }
    }
    forall i | 0 <= i < |" " + f| ensures (" " + f)[i] != '|' {
      if i > 0 {
        assert (" " + f)[i] == f[i - 1];
      }
    }
    SplitChar(x + " ", '|', " " + f);
    SplitAbsent(" " + f, '|');
  }

  /** The body of a rendered line holds no ':'. */
  lemma BodyNoColon(body: string, f1: string, f2: string)
    requires body == (" " + f1) + (" | " + f2)
    requires DigitsAndSpaces(f1) && DigitsAndSpaces(f2)
    ensures forall i :: 0 <= i < |body| ==> body[i] != ':'
  {
    forall i | 0 <= i < |body| ensures body[i] != ':' {
      if 1 <= i < 1 + |f1| {
        assert body[i] == f1[i - 1];
      } else if 1 + |f1| + 3 <= i {
        assert body[i] == f2[i - |f1| - 4];
      }
    }
  }

  /** The body of a rendered line, trimmed, cuts at its '|' into the trimmed
      first half with its trailing space, and the second half. */
  lemma BodyHalves(body: string, a: string, b: string, f1: string, f2: string)
    requires a == " " + f1 && b == " | " + f2 && body == a + b
    requires DigitsAndSpaces(f1) && DigitsAndSpaces(f2)
    requires |f1| >= 1 && IsDigit(f1[|f1| - 1]) && |f2| >= 1 && IsDigit(f2[|f2| - 1])
    ensures Split(Trim(body), "|") == [TrimStart(a) + " ", " " + f2]
  {
    TrimBody(a, b, f1, f2);
    var x := TrimStart(a);
    assert DigitsAndSpaces(a) by {
      forall i | 0 <= i < |a| ensures IsDigit(a[i]) || a[i] == ' ' {
        if i > 0 {
          assert a[i] == f1[i - 1];
        }
      }
    }
    TrimmedDigits(a);
    assert x + b == x + " | " + f2;
    CutHalves(x, f2);
  }

  /** A line that cuts at its ':' into a header and a body, whose number
      parses and whose trimmed body cuts at its '|' into two halves, is read
      as the card of that number and the numbers of the halves. */
  lemma CardOfParts(line: string, header: string, body: string, number: nat, h0: string, h1: string)
    requires Split(line, ":") == [header, body]
    requires |header| >= 4 && ParseUsize(Trim(header[4..])) == Some(number)
    requires Split(Trim(body), "|") == [h0, h1]
    ensures LineOk(line) && CardOf(line) == Card(number, NumbersOf(h0), NumbersOf(h1))
  {
  }

  /** A line `<header>:<a><b>` laid out as a rendered card is read as the card. */
  lemma CardLine(c: Card, d: string, f1: string, f2: string, a: string, b: string, header: string, line: string)
    requires c.winning != [] && c.playing != []
    requires d == NatString(c.number) && f1 == Field(c.winning) && f2 == Field(c.playing)
    requires a == " " + f1 && b == " | " + f2 && header == "Card " + d
    requires line == header + ":" + (a + b)
    ensures LineOk(line) && CardOf(line) == c
  {
    var body := a + b;
    var h0, h1 := TrimStart(a) + " ", " " + f2;
    assert Split(line, ":") == [header, body] by {
      FieldChars(c.winning);
      FieldChars(c.playing);
      BodyNoColon(body, f1, f2);
      NatStringValue(c.number);
      assert forall i :: 0 <= i < |d| ==> d[i] != ':';
      HeaderSplit(d, body);
    }
    assert |header| >= 4 && ParseUsize(Trim(header[4..])) == Some(c.number) by {
      HeaderNumber(c.number, header);
    }
    assert Split(Trim(body), "|") == [h0, h1] by {
      FieldChars(c.winning);
      FieldChars(c.playing);
      BodyHalves(body, a, b, f1, f2);
    }
    assert NumbersOf(h0) == c.winning by {
      FirstHalf(c.winning, a);
    }
    assert NumbersOf(h1) == c.playing by {
      SecondHalf(c.playing, h1);
    }
    CardOfParts(line, header, body, c.number, h0, h1);
  }

  /** `parse_input` reads a rendered card line back as the card. */
  lemma CardRoundTrip(c: Card)
    requires c.winning != [] && c.playing != []
    ensures LineOk(CardText(c)) && CardOf(CardText(c)) == c
  {
    var d, f1, f2 := NatString(c.number), Field(c.winning), Field(c.playing);
    var a, b := " " + f1, " | " + f2;
    assert CardText(c) == ("Card " + d) + ":" + (a + b);
    CardLine(c, d, f1, f2, a, b, "Card " + d, CardText(c));
  }
}
