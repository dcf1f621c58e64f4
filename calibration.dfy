/**
 * Day 1: calibration values. Part 1 reads the first and the last decimal
 * digit of every line as a two-digit number and sums them. Part 2 first
 * rewrites every line with `replace_didgets`, which emits a digit for each
 * position where a spelled-out digit word ("one" ... "nine") or a digit
 * starts; the words are tried at every position, so overlapping words
 * ("oneight") both count.
 */
module Calibration {
  import opened Text

  // ---------------------------------------------------------------------------
  // Part 1

  /** `line.chars().filter_map(|c| c.to_digit(10))`: the values of the digits
      of `line`, left to right. */
  function Digits(line: string): (ds: seq<nat>)
    ensures |ds| <= |line|
    ensures forall k :: 0 <= k < |ds| ==> ds[k] <= 9
  {
    if line == [] then []
    else
      var c := line[|line| - 1];
      Digits(line[..|line| - 1]) + if IsDigit(c) then [DigitValue(c)] else []
  }

  /** The digits of a concatenation are the digits of its halves. */
  lemma {:induction false} DigitsAppend(a: string, b: string)
    ensures Digits(a + b) == Digits(a) + Digits(b)
    decreases |b|
  {
    if b == [] {
      assert a + b == a;
    } else {
      var n := |b| - 1;
      assert (a + b)[..|a + b| - 1] == a + b[..n];
      DigitsAppend(a, b[..n]);
    }
  }

  /** A line has no digit values exactly when it has no digit characters. */
  lemma {:induction false} DigitsEmpty(line: string)
    ensures Digits(line) == [] <==> forall k :: 0 <= k < |line| ==> !IsDigit(line[k])
  {
    if line != [] {
      var n := |line| - 1;
      DigitsEmpty(line[..n]);
      assert forall k :: 0 <= k < n ==> line[..n][k] == line[k];
    }
  }

  /** `part_1::handel_line`: `first * 10 + last` over the digits of the line,
      0 when it has none. */
  function HandelLine(line: string): (v: nat)
    ensures v <= 99
  {
    var ds := Digits(line);
    if |ds| == 0 then 0 else ds[0] * 10 + ds[|ds| - 1]
  }

  /** A line without digits is worth 0 (the test `none`). */
  lemma HandelLineNoDigits(line: string)
    requires forall k :: 0 <= k < |line| ==> !IsDigit(line[k])
    ensures HandelLine(line) == 0
  {
    DigitsEmpty(line);
  }

  lemma DigitsSingle(c: char)
    ensures Digits([c]) == if IsDigit(c) then [DigitValue(c)] else []
  {
    assert [c][..0] == [];
  }

  /** A stretch that starts and ends with a digit has those digits first and last. */
  lemma DigitsBracket(middle: string)
    requires |middle| >= 1 && IsDigit(middle[0]) && IsDigit(middle[|middle| - 1])
    ensures var ds := Digits(middle);
            |ds| >= 1 && ds[0] == DigitValue(middle[0]) && ds[|ds| - 1] == DigitValue(middle[|middle| - 1])
  {
    var n := |middle| - 1;
    DigitsSingle(middle[0]);
    if n == 0 {
      assert middle == [middle[0]];
    } else {
      var inner := middle[1..n];
      assert middle == [middle[0]] + inner + [middle[n]];
      DigitsAppend([middle[0]] + inner, [middle[n]]);
      DigitsAppend([middle[0]], inner);
      DigitsSingle(middle[n]);
    }
  }

  /** Stretches without digits around `middle` add no digit values. */
  lemma DigitsSurround(before: string, middle: string, after: string)
    requires forall k :: 0 <= k < |before| ==> !IsDigit(before[k])
    requires forall k :: 0 <= k < |after| ==> !IsDigit(after[k])
    ensures Digits(before + middle + after) == Digits(middle)
  {
    DigitsAppend(before + middle, after);
    DigitsAppend(before, middle);
    DigitsEmpty(before);
    DigitsEmpty(after);
  }

  /** The value of a line is read off its first digit, at `i`, and its last
      digit, at `j`: ten times the first plus the last. */
  lemma HandelLineFirstLast(line: string, i: nat, j: nat)
    requires i <= j < |line| && IsDigit(line[i]) && IsDigit(line[j])
    requires forall k :: 0 <= k < i ==> !IsDigit(line[k])
    requires forall k :: j < k < |line| ==> !IsDigit(line[k])
    ensures HandelLine(line) == DigitValue(line[i]) * 10 + DigitValue(line[j])
  {
    var before, middle, after := line[..i], line[i..j + 1], line[j + 1..];
    assert line == before + middle + after;
    assert forall k :: 0 <= k < |after| ==> after[k] == line[j + 1 + k];
    DigitsSurround(before, middle, after);
    DigitsBracket(middle);
  }

  /** A line with a single digit d is worth 11 * d (the test `one`: 77). */
  lemma HandelLineSingle(line: string, i: nat)
    requires i < |line| && IsDigit(line[i])
    requires forall k :: 0 <= k < |line| && k != i ==> !IsDigit(line[k])
    ensures HandelLine(line) == 11 * DigitValue(line[i])
  {
    HandelLineFirstLast(line, i, i);
  }

  /** The sum of `handel_line` over the lines; every line adds at most 99. */
  function SumLines(input: seq<string>): (sum: nat)
    ensures sum <= 99 * |input|
  {
    if input == [] then 0 else SumLines(input[..|input| - 1]) + HandelLine(input[|input| - 1])
  }

  /** The sum over a concatenation of inputs is the sum of the two sums. */
  lemma {:induction false} SumLinesAppend(a: seq<string>, b: seq<string>)
    ensures SumLines(a + b) == SumLines(a) + SumLines(b)
    decreases |b|
  {
    if b == [] {
      assert a + b == a;
    } else {
      var n := |b| - 1;
      assert (a + b)[..|a + b| - 1] == a + b[..n];
      SumLinesAppend(a, b[..n]);
    }
  }

  /** `part_1::find_calibration_value`: `result += handel_line(line)` for
      every line. */
  method FindCalibrationValue(input: seq<string>) returns (result: nat)
    ensures result == SumLines(input)
  {
    result := 0;
    for i := 0 to |input|
      invariant result == SumLines(input[..i])
    {
      assert input[..i + 1][..i] == input[..i];
      result := result + HandelLine(input[i]);
    }
    assert input[..|input|] == input;
  }

  // ---------------------------------------------------------------------------
  // Part 2

  /** `part_2::slice_to_string`: the characters pushed one by one. */
  method SliceToString(input: seq<char>) returns (result: string)
    ensures result == input
  {
    result := "";
    for i := 0 to |input|
      invariant result == input[..i]
    {
      result := result + [input[i]];
    }
    assert input[..|input|] == input;
  }

  /** The digit words, in the order `replace_didgets` tries them; the word at
      index k spells the digit k + 1. */
  const WORDS: seq<string> := ["one", "two", "three", "four", "five", "six", "seven", "eight", "nine"]

  /** What `replace_didgets` emits for the position whose remaining text is
      `slice`: the digit of the first word of `WORDS` that `slice` starts
      with; otherwise the character itself when it is a digit; else nothing. */
  function Emitted(slice: string): string {
    if StartsWith(slice, "one") then "1"
    else if StartsWith(slice, "two") then "2"
    else if StartsWith(slice, "three") then "3"
    else if StartsWith(slice, "four") then "4"
    else if StartsWith(slice, "five") then "5"
    else if StartsWith(slice, "six") then "6"
    else if StartsWith(slice, "seven") then "7"
    else if StartsWith(slice, "eight") then "8"
    else if StartsWith(slice, "nine") then "9"
    else if slice != [] && IsDigit(slice[0]) then [slice[0]]
    else ""
  }

  /** At most one character is emitted per position, and it is a digit. */
  lemma EmittedDigits(slice: string)
    ensures |Emitted(slice)| <= 1 && AllDigits(Emitted(slice))
  {
  }

  /** The first word of `WORDS` that `slice` starts with, at index w, emits
      the digit w + 1. */
  lemma EmittedWord(slice: string, w: nat)
    requires w < |WORDS| && StartsWith(slice, WORDS[w])
    requires forall v :: 0 <= v < w ==> !StartsWith(slice, WORDS[v])
    ensures Emitted(slice) == [('1' as int + w) as char]
  {
    if w > 0 {
      assert !StartsWith(slice, WORDS[0]);
    }
    if w > 1 {
      assert !StartsWith(slice, WORDS[1]);
    }
    if w > 2 {
      assert !StartsWith(slice, WORDS[2]);
    }
    if w > 3 {
      assert !StartsWith(slice, WORDS[3]);
    }
    if w > 4 {
      assert !StartsWith(slice, WORDS[4]);
    }
    if w > 5 {
      assert !StartsWith(slice, WORDS[5]);
    }
    if w > 6 {
      assert !StartsWith(slice, WORDS[6]);
    }
    if w > 7 {
      assert !StartsWith(slice, WORDS[7]);
    }
  }

  /** Without a word, a position emits its own character if it is a digit. */
  lemma EmittedNoWord(slice: string)
    requires forall w :: 0 <= w < |WORDS| ==> !StartsWith(slice, WORDS[w])
    ensures Emitted(slice) == if slice != [] && IsDigit(slice[0]) then [slice[0]] else []
  {
    assert !StartsWith(slice, WORDS[0]) && !StartsWith(slice, WORDS[1]) && !StartsWith(slice, WORDS[2]);
    assert !StartsWith(slice, WORDS[3]) && !StartsWith(slice, WORDS[4]) && !StartsWith(slice, WORDS[5]);
    assert !StartsWith(slice, WORDS[6]) && !StartsWith(slice, WORDS[7]) && !StartsWith(slice, WORDS[8]);
  }

  /** A slice that starts with a digit cannot start with a word. */
  lemma EmittedDigit(slice: string)
    requires slice != [] && IsDigit(slice[0])
    ensures Emitted(slice) == [slice[0]]
  {
  }

  /** The output of `replace_didgets` for the first `n` positions of `line`. */
  function ReplacePrefix(line: string, n: nat): string
    requires n <= |line|
  {
    if n == 0 then "" else ReplacePrefix(line, n - 1) + Emitted(line[n - 1..])
  }

  /** The specification of `replace_didgets`: what every position emits, in
      order. The result is no longer than the line and holds only digits. */
  function ReplaceDigits(line: string): (r: string)
    ensures |r| <= |line| && AllDigits(r)
  {
    ReplacePrefixDigits(line, |line|);
    ReplacePrefix(line, |line|)
  }

  /** `replace_didgets`: a loop over the positions that copies the rest of the
      line with `slice_to_string` and tests it against the words. */
  method ReplaceDidgets(line: string) returns (result: string)
    ensures result == ReplaceDigits(line)
  {
    result := "";
    for i := 0 to |line|
      invariant result == ReplacePrefix(line, i)
    {
      var slice := SliceToString(line[i..]);
      if StartsWith(slice, "one") {
        result := result + "1";
      } else if StartsWith(slice, "two") {
        result := result + "2";
      } else if StartsWith(slice, "three") {
        result := result + "3";
      } else if StartsWith(slice, "four") {
        result := result + "4";
      } else if StartsWith(slice, "five") {
        result := result + "5";
      } else if StartsWith(slice, "six") {
        result := result + "6";
      } else if StartsWith(slice, "seven") {
        result := result + "7";
      } else if StartsWith(slice, "eight") {
        result := result + "8";
      } else if StartsWith(slice, "nine") {
        result := result + "9";
      } else if IsDigit(line[i]) {
        result := result + [line[i]];
      }
    }
  }

  /** No more characters come out than positions go in, and all of them are digits. */
  lemma {:induction false} ReplacePrefixDigits(line: string, n: nat)
    requires n <= |line|
    ensures |ReplacePrefix(line, n)| <= n && AllDigits(ReplacePrefix(line, n))
  {
    if n > 0 {
      ReplacePrefixDigits(line, n - 1);
      EmittedDigits(line[n - 1..]);
    }
  }

  /** On a line of digits only, every position emits its own digit. */
  lemma {:induction false} ReplacePrefixIdentity(line: string, n: nat)
    requires n <= |line| && AllDigits(line)
    ensures ReplacePrefix(line, n) == line[..n]
  {
    if n > 0 {
      ReplacePrefixIdentity(line, n - 1);
      EmittedDigit(line[n - 1..]);
      assert line[..n] == line[..n - 1] + [line[n - 1]];
    }
  }

  lemma ReplaceDigitsIdentity(line: string)
    requires AllDigits(line)
    ensures ReplaceDigits(line) == line
  {
    ReplacePrefixIdentity(line, |line|);
    assert line[..|line|] == line;
  }

  /** The sum of `handel_line` over the rewritten lines; every line adds at
      most 99 here too. */
  function SumReplaced(input: seq<string>): (sum: nat)
    ensures sum <= 99 * |input|
  {
    if input == [] then 0
    else SumReplaced(input[..|input| - 1]) + HandelLine(ReplaceDigits(input[|input| - 1]))
  }

  /** The sum over one more line adds that line's value. */
  lemma SumReplacedStep(input: seq<string>, i: nat)
    requires i < |input|
    ensures SumReplaced(input[..i + 1]) == SumReplaced(input[..i]) + HandelLine(ReplaceDigits(input[i]))
  {
    assert input[..i + 1][..i] == input[..i];
  }

  /** Part 2 agrees with Part 1 on lines of digits only. */
  lemma {:induction false} SumReplacedDigits(input: seq<string>)
    requires forall i :: 0 <= i < |input| ==> AllDigits(input[i])
    ensures SumReplaced(input) == SumLines(input)
  {
    if input != [] {
      var n := |input| - 1;
      assert forall i :: 0 <= i < n ==> input[..n][i] == input[i];
      SumReplacedDigits(input[..n]);
      ReplaceDigitsIdentity(input[n]);
    }
  }

  /** `part_2::find_calibration_value`: every line rewritten by
      `replace_didgets`, then `result += handel_line(line)` over the new lines. */
  method FindCalibrationValue2(input: seq<string>) returns (result: nat)
    ensures result == SumReplaced(input)
  {
    var replaced: seq<string> := [];
    for i := 0 to |input|
      invariant |replaced| == i
      invariant forall k :: 0 <= k < i ==> replaced[k] == ReplaceDigits(input[k])
    {
      var line := ReplaceDidgets(input[i]);
      replaced := replaced + [line];
    }
    result := 0;
    for i := 0 to |replaced|
      invariant result == SumReplaced(input[..i])
    {
      assert replaced[i] == ReplaceDigits(input[i]);
      SumReplacedStep(input, i);
      result := result + HandelLine(replaced[i]);
    }
    assert input[..|input|] == input;
  }
}
