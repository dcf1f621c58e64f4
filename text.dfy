/**
 * String helpers shared by the puzzle models. Each one models the behaviour of
 * the Rust standard-library operation the puzzles call (`str::split`,
 * `str::trim`, `str::starts_with`, `str::contains`, `str::parse::<usize>`,
 * `char::to_digit(10)`), restricted to ASCII.
 */
module Text {

  datatype Option<T> = None | Some(value: T)

  /** `char::is_digit(10)` on ASCII. */
  predicate IsDigit(c: char) {
    '0' <= c <= '9'
  }

  /** The decimal digits are exactly the ten characters `0` to `9`. */
  lemma DigitCharacters(c: char)
    ensures IsDigit(c) <==> c in "0123456789"
  {
    if IsDigit(c) {
      var d := c as int - '0' as int;
      assert "0123456789"[d] == c;
    }
  }

  /** `char::to_digit(10)`: the value of a decimal digit. */
  function DigitValue(c: char): (d: nat)
    requires IsDigit(c)
    ensures d <= 9
  {
    c as int - '0' as int
  }

  predicate AllDigits(s: string) {
    forall i :: 0 <= i < |s| ==> IsDigit(s[i])
  }

  /** The number a string of decimal digits denotes, most significant first. */
  function DecimalValue(s: string): nat
    requires AllDigits(s)
  {
    if s == [] then 0 else DecimalValue(s[..|s| - 1]) * 10 + DigitValue(s[|s| - 1])
  }

  /** `str::parse::<usize>`: an optional `+` followed by at least one digit. */
  function ParseUsize(s: string): (r: Option<nat>)
    ensures r.Some? <==>
              (|s| > 0 && AllDigits(s)) || (|s| > 1 && s[0] == '+' && AllDigits(s[1..]))
    ensures r.Some? && s[0] != '+' ==> r.value == DecimalValue(s)
    ensures r.Some? && s[0] == '+' ==> r.value == DecimalValue(s[1..])
  {
    var digits := if |s| > 0 && s[0] == '+' then s[1..] else s;
    if |digits| > 0 && AllDigits(digits) then Some(DecimalValue(digits)) else None
  }

  /** `usize::to_string`: the decimal digits of `n`, most significant first,
      without leading zeros. */
  function NatString(n: nat): string {
    if n < 10 then [('0' as int + n) as char]
    else NatString(n / 10) + [('0' as int + n % 10) as char]
  }

  /** `NatString` writes digits only, and `str::parse` reads them back as `n`. */
  lemma {:induction false} NatStringValue(n: nat)
    ensures |NatString(n)| >= 1 && AllDigits(NatString(n)) && DecimalValue(NatString(n)) == n
  {
    if n >= 10 {
      NatStringValue(n / 10);
      var s := NatString(n);
      assert s[..|s| - 1] == NatString(n / 10);
    }
  }

  /** `char::is_whitespace` restricted to ASCII. */
  predicate IsWhitespace(c: char) {
    c == ' ' || c == '\t' || c == '\n' || c == '\r' || c as int == 0x0B || c as int == 0x0C
  }

  function TrimStart(s: string): (r: string)
    ensures r == [] || !IsWhitespace(r[0])
  {
    if s != [] && IsWhitespace(s[0]) then TrimStart(s[1..]) else s
  }

  function TrimEnd(s: string): (r: string)
    ensures r == [] || !IsWhitespace(r[|r| - 1])
  {
    if s != [] && IsWhitespace(s[|s| - 1]) then TrimEnd(s[..|s| - 1]) else s
  }

  /** `TrimStart` drops a prefix of whitespace and nothing else. */
  lemma {:induction false} TrimStartSuffix(s: string)
    ensures |TrimStart(s)| <= |s| && TrimStart(s) == s[|s| - |TrimStart(s)|..]
    ensures forall i :: 0 <= i < |s| - |TrimStart(s)| ==> IsWhitespace(s[i])
  {
    if s != [] && IsWhitespace(s[0]) {
      TrimStartSuffix(s[1..]);
    }
  }

  /** `TrimEnd` drops a suffix of whitespace and nothing else. */
  lemma {:induction false} TrimEndPrefix(s: string)
    ensures |TrimEnd(s)| <= |s| && TrimEnd(s) == s[..|TrimEnd(s)|]
    ensures forall i :: |TrimEnd(s)| <= i < |s| ==> IsWhitespace(s[i])
  {
    if s != [] && IsWhitespace(s[|s| - 1]) {
      TrimEndPrefix(s[..|s| - 1]);
    }
  }

  /** `str::trim`. */
  function Trim(s: string): string
  {
    TrimEnd(TrimStart(s))
  }

  /** What `str::trim` leaves is no longer than the text, and is empty or
      begins and ends with a character that is not whitespace. */
  lemma TrimEnds(s: string)
    ensures |Trim(s)| <= |s|
    ensures Trim(s) == [] || (!IsWhitespace(Trim(s)[0]) && !IsWhitespace(Trim(s)[|Trim(s)| - 1]))
  {
    TrimStartShorter(s);
    TrimEndKeepsFirst(TrimStart(s));
  }

  lemma {:induction false} TrimStartShorter(s: string)
    ensures |TrimStart(s)| <= |s|
  {
    if s != [] && IsWhitespace(s[0]) {
      TrimStartShorter(s[1..]);
    }
  }

  lemma {:induction false} TrimEndKeepsFirst(s: string)
    ensures |TrimEnd(s)| <= |s|
    ensures TrimEnd(s) != [] ==> TrimEnd(s)[0] == s[0]
  {
    if s != [] && IsWhitespace(s[|s| - 1]) {
      TrimEndKeepsFirst(s[..|s| - 1]);
    }
  }

  /** `str::starts_with`. */
  predicate StartsWith(s: string, prefix: string) {
    |prefix| <= |s| && s[..|prefix|] == prefix
  }

  /** `s` starts with `prefix` exactly when it agrees with `prefix` at every
      position of `prefix`. */
  lemma StartsWithAt(s: string, prefix: string)
    ensures StartsWith(s, prefix) <==> |prefix| <= |s| && forall i :: 0 <= i < |prefix| ==> s[i] == prefix[i]
  {
    if |prefix| <= |s| {
      assert forall i :: 0 <= i < |prefix| ==> s[..|prefix|][i] == s[i];
    }
  }

  /** A string that differs from `p` at a position both share does not start with `p`. */
  lemma Differs(s: string, p: string, i: nat)
    requires i < |p| && i < |s| && s[i] != p[i]
    ensures !StartsWith(s, p)
  {
    if |p| <= |s| {
      assert s[..|p|][i] == s[i];
    }
  }

  /** `str::contains` for a string pattern. */
  predicate Contains(s: string, pattern: string)
    decreases |s|
  {
    StartsWith(s, pattern) || (s != [] && Contains(s[1..], pattern))
  }

  /** `s` contains `pattern` exactly when the pattern starts at some position
      of `s`. */
  lemma {:induction false} ContainsAt(s: string, pattern: string)
    ensures Contains(s, pattern) <==> exists i :: 0 <= i <= |s| && StartsWith(s[i..], pattern)
    decreases |s|
  {
    assert s[0..] == s;
    if s != [] {
      ContainsAt(s[1..], pattern);
      assert forall i :: 1 <= i <= |s| ==> s[i..] == s[1..][i - 1..];
    }
  }

  /** A string shorter than the pattern does not contain it. */
  lemma {:induction false} ShortNoContains(s: string, p: string)
    requires |s| < |p|
    ensures !Contains(s, p)
    decreases |s|
  {
    if s != [] {
      ShortNoContains(s[1..], p);
    }
  }

  /** `str::contains` skips a prefix in which the pattern cannot start. */
  lemma {:induction false} ContainsSkip(a: string, b: string, p: string)
    requires |p| >= 1
    requires forall i :: 0 <= i < |a| ==> a[i] != p[0]
    ensures Contains(a + b, p) <==> Contains(b, p)
    decreases |a|
  {
    if a != [] {
      assert (a + b)[1..] == a[1..] + b;
      ContainsSkip(a[1..], b, p);
      Differs(a + b, p, 0);
    } else {
      assert a + b == b;
    }
  }

  /** The position of the first occurrence of `sep` in `s`, as `str::find`;
      `FindIsFirst` shows that no earlier position matches. */
  function Find(s: string, sep: string): (r: Option<nat>)
    requires |sep| > 0
    ensures r.Some? ==> r.value + |sep| <= |s| && s[r.value..r.value + |sep|] == sep
    decreases |s|
  {
    if StartsWith(s, sep) then Some(0)
    else if s == [] then None
    else match Find(s[1..], sep)
      case None => None
      case Some(i) => Some(i + 1)
  }

  lemma {:induction false} FindIsFirst(s: string, sep: string)
    requires |sep| > 0
    ensures Find(s, sep).Some? ==> forall i :: 0 <= i < Find(s, sep).value ==> !StartsWith(s[i..], sep)
    ensures Find(s, sep).None? <==> forall i :: 0 <= i <= |s| ==> !StartsWith(s[i..], sep)
    decreases |s|
  {
    if StartsWith(s, sep) {
      assert s[0..] == s;
    } else if s == [] {
      assert forall i :: 0 <= i <= |s| ==> s[i..] == s;
    } else {
      var t := s[1..];
      FindIsFirst(t, sep);
      assert Find(s, sep) == (match Find(t, sep) case None => None case Some(i) => Some(i + 1));
      forall i | 1 <= i <= |s|
        ensures s[i..] == t[i - 1..]
      {
      }
      assert s[0..] == s;
    }
  }

  /** `str::split` with a non-empty pattern: the pieces between the
      non-overlapping occurrences of `sep`, scanning left to right. */
  function Split(s: string, sep: string): (parts: seq<string>)
    requires |sep| > 0
    ensures |parts| >= 1
    decreases |s|
  {
    match Find(s, sep)
    case None => [s]
    case Some(i) => [s[..i]] + Split(s[i + |sep|..], sep)
  }

  /** The inverse of `Split`: the pieces glued back together with `sep`. */
  function Join(parts: seq<string>, sep: string): string
    requires |parts| >= 1
  {
    if |parts| == 1 then parts[0] else parts[0] + sep + Join(parts[1..], sep)
  }

  lemma {:induction false} JoinSplit(s: string, sep: string)
    requires |sep| > 0
    ensures Join(Split(s, sep), sep) == s
    decreases |s|
  {
    match Find(s, sep)
    case None =>
    case Some(i) =>
      var rest := s[i + |sep|..];
      var parts := Split(s, sep);
      assert parts == [s[..i]] + Split(rest, sep);
      assert parts[1..] == Split(rest, sep);
      JoinSplit(rest, sep);
      calc {
        Join(parts, sep);
        parts[0] + sep + Join(parts[1..], sep);
        s[..i] + sep + rest;
        { assert s[i..i + |sep|] == sep; }
        s;
      }
  }

  /** Splitting on a character that does not occur gives the whole string back. */
  lemma SplitAbsent(s: string, c: char)
    requires forall i :: 0 <= i < |s| ==> s[i] != c
    ensures Split(s, [c]) == [s]
  {
    FindAbsent(s, c);
  }

  /** `str::find` finds no character that does not occur. */
  lemma {:induction false} FindAbsent(s: string, c: char)
    requires forall i :: 0 <= i < |s| ==> s[i] != c
    ensures Find(s, [c]) == None
    decreases |s|
  {
    if s != [] {
      Differs(s, [c], 0);
      FindAbsent(s[1..], c);
    }
  }

  /** A character-separated string splits into more than one piece exactly
      when the character occurs in it. */
  lemma SplitPieces(s: string, c: char)
    ensures |Split(s, [c])| >= 2 <==> exists i :: 0 <= i < |s| && s[i] == c
  {
    if i :| 0 <= i < |s| && s[i] == c {
      FindIsFirst(s, [c]);
      assert StartsWith(s[i..], [c]) by { assert s[i..][..1] == [c]; }
    } else {
      SplitAbsent(s, c);
    }
  }

  /** The first occurrence of a character is found after a prefix without it. */
  lemma {:induction false} FindChar(a: string, c: char, b: string)
    requires forall i :: 0 <= i < |a| ==> a[i] != c
    ensures Find(a + [c] + b, [c]) == Some(|a|)
    decreases |a|
  {
    var s := a + [c] + b;
    if a == [] {
      assert s[..1] == [c];
    } else {
      assert s[..1][0] == a[0];
      assert s[1..] == a[1..] + [c] + b;
      FindChar(a[1..], c, b);
    }
  }

  /** Splitting on a character cuts at its first occurrence. */
  lemma SplitChar(a: string, c: char, b: string)
    requires forall i :: 0 <= i < |a| ==> a[i] != c
    ensures Split(a + [c] + b, [c]) == [a] + Split(b, [c])
  {
    FindChar(a, c, b);
    var s := a + [c] + b;
    assert s[..|a|] == a;
    assert s[|a| + 1..] == b;
  }

  /** A string with one occurrence of a character splits into the two sides. */
  lemma CutOnce(a: string, c: char, b: string)
    requires forall i :: 0 <= i < |a| ==> a[i] != c
    requires forall i :: 0 <= i < |b| ==> b[i] != c
    ensures Split(a + [c] + b, [c]) == [a, b]
  {
    SplitChar(a, c, b);
    SplitAbsent(b, c);
  }

  /** The other half of `JoinSplit`: pieces without the separator character
      come back from splitting their join. */
  lemma {:induction false} SplitJoin(parts: seq<string>, c: char)
    requires |parts| >= 1
    requires forall k, i :: 0 <= k < |parts| && 0 <= i < |parts[k]| ==> parts[k][i] != c
    ensures Split(Join(parts, [c]), [c]) == parts
    decreases |parts|
  {
    if |parts| == 1 {
      SplitAbsent(parts[0], c);
    } else {
      SplitJoin(parts[1..], c);
      assert forall i :: 0 <= i < |parts[0]| ==> parts[0][i] != c;
      SplitChar(parts[0], c, Join(parts[1..], [c]));
    }
  }

  /** The first occurrence of a character that occurs: no earlier position holds it. */
  lemma {:induction false} FindCharFirst(a: string, c: char, i: nat)
    requires i < |a| && a[i] == c
    ensures Find(a, [c]).Some? && Find(a, [c]).value <= i
    ensures a[Find(a, [c]).value] == c
    ensures forall k :: 0 <= k < Find(a, [c]).value ==> a[k] != c
    decreases i
  {
    if a[0] == c {
      assert StartsWith(a, [c]) by { assert a[..1] == [c]; }
    } else {
      assert !StartsWith(a, [c]) by { assert a[..1][0] == a[0]; }
      FindCharFirst(a[1..], c, i - 1);
      var j := Find(a[1..], [c]).value;
      assert Find(a, [c]) == Some(j + 1);
      assert a[j + 1] == a[1..][j];
      forall k | 0 <= k < j + 1 ensures a[k] != c {
        if k > 0 {
          assert a[k] == a[1..][k - 1];
        }
      }
    }
  }

  /** A string that ends with the separator character splits into one more,
      empty, piece. */
  lemma {:induction false} SplitSnoc(a: string, c: char)
    ensures Split(a + [c], [c]) == Split(a, [c]) + [[]]
    decreases |a|
  {
    if i :| 0 <= i < |a| && a[i] == c {
      FindCharFirst(a, c, i);
      var j := Find(a, [c]).value;
      var rest := a[j + 1..];
      SplitSnocCut(a, c, j);
      SplitSnoc(rest, c);
    } else {
      SplitSnocAbsent(a, c);
    }
  }

  lemma SplitSnocCut(a: string, c: char, j: nat)
    requires j < |a| && a[j] == c
    requires forall k :: 0 <= k < j ==> a[k] != c
    ensures Split(a, [c]) == [a[..j]] + Split(a[j + 1..], [c])
    ensures Split(a + [c], [c]) == [a[..j]] + Split(a[j + 1..] + [c], [c])
  {
    assert a == a[..j] + [c] + a[j + 1..];
    SplitSnocAt(a, c, a[..j], a[j + 1..]);
  }

  lemma SplitSnocAbsent(a: string, c: char)
    requires forall i :: 0 <= i < |a| ==> a[i] != c
    ensures Split(a + [c], [c]) == Split(a, [c]) + [[]]
  {
    SplitAbsent(a, c);
    SplitChar(a, c, []);
    assert a + [c] + [] == a + [c];
    SplitAbsent([], c);
  }

  lemma SplitSnocAt(a: string, c: char, head: string, rest: string)
    requires a == head + [c] + rest
    requires forall k :: 0 <= k < |head| ==> head[k] != c
    ensures Split(a, [c]) == [head] + Split(rest, [c])
    ensures Split(a + [c], [c]) == [head] + Split(rest + [c], [c])
  {
    SplitChar(head, c, rest);
    assert a + [c] == head + [c] + (rest + [c]);
    SplitChar(head, c, rest + [c]);
  }

  /** `TrimStart` only looks at the text up to the first character that is not
      whitespace. */
  lemma {:induction false} TrimStartAppend(a: string, b: string)
    requires exists i :: 0 <= i < |a| && !IsWhitespace(a[i])
    ensures TrimStart(a + b) == TrimStart(a) + b
    decreases |a|
  {
    var i :| 0 <= i < |a| && !IsWhitespace(a[i]);
    if IsWhitespace(a[0]) {
      assert a[1..][i - 1] == a[i];
      assert (a + b)[1..] == a[1..] + b;
      TrimStartAppend(a[1..], b);
    }
  }

  /** `Iterator::nth` on the pieces of a split. */
  function Nth(parts: seq<string>, n: nat): Option<string> {
    if n < |parts| then Some(parts[n]) else None
  }
}
