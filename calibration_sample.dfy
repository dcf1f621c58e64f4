/**
 * The unit tests of day 1, proved on the model: `handel_line` on each test
 * line, `replace_didgets` on each Part 2 test line, and the sums both
 * `find_calibration_value` return for every test input. `replace_didgets` is
 * followed one position at a time, one lemma per position.
 */
module CalibrationSample {
  import opened Text
  import opened Calibration

  /** One more line of `input` in Part 1's sum. */
  lemma SumLinesAdvance(input: seq<string>, k: nat, before: nat, value: nat)
    requires k < |input| && SumLines(input[..k]) == before && HandelLine(input[k]) == value
    ensures SumLines(input[..k + 1]) == before + value
  {
    assert input[..k + 1][..k] == input[..k];
  }

  /** One more line of `input` in Part 2's sum. */
  lemma SumReplacedAdvance(input: seq<string>, k: nat, before: nat, value: nat)
    requires k < |input| && SumReplaced(input[..k]) == before && HandelLine(ReplaceDigits(input[k])) == value
    ensures SumReplaced(input[..k + 1]) == before + value
  {
    assert input[..k + 1][..k] == input[..k];
  }


  /** `handel_line("1abc2")` is 12. */
  lemma Line1Abc2(line: string)
    requires line == "1abc2"
    ensures HandelLine(line) == 12
  {
    HandelLineFirstLast(line, 0, 4);
  }

  /** `handel_line("pqr3stu8vwx")` is 38. */
  lemma LinePqr3Stu8Vwx(line: string)
    requires line == "pqr3stu8vwx"
    ensures HandelLine(line) == 38
  {
    HandelLineFirstLast(line, 3, 7);
  }

  /** `handel_line("a1b2c3d4e5f")` is 15. */
  lemma LineA1B2C3D4E5F(line: string)
    requires line == "a1b2c3d4e5f"
    ensures HandelLine(line) == 15
  {
    HandelLineFirstLast(line, 1, 9);
  }

  /** `handel_line("treb7uchet")` is 77. */
  lemma LineTreb7Uchet(line: string)
    requires line == "treb7uchet"
    ensures HandelLine(line) == 77
  {
    HandelLineFirstLast(line, 4, 4);
  }

  /** The Part 1 test `sample`: `find_calibration_value` gives 142. */
  lemma Part1Sample(input: seq<string>)
    requires |input| == 4 &&
             input[0] == "1abc2" &&
             input[1] == "pqr3stu8vwx" &&
             input[2] == "a1b2c3d4e5f" &&
             input[3] == "treb7uchet"
    ensures SumLines(input) == 142
  {
    assert input[..0] == [];
    Line1Abc2(input[0]);
    SumLinesAdvance(input, 0, 0, 12);
    LinePqr3Stu8Vwx(input[1]);
    SumLinesAdvance(input, 1, 12, 38);
    LineA1B2C3D4E5F(input[2]);
    SumLinesAdvance(input, 2, 50, 15);
    LineTreb7Uchet(input[3]);
    SumLinesAdvance(input, 3, 65, 77);
    assert input[..4] == input;
  }

  /** `handel_line("trebuchet")` is 0. */
  lemma LineTrebuchet(line: string)
    requires line == "trebuchet"
    ensures HandelLine(line) == 0
  {
    HandelLineNoDigits(line);
  }

  /** The Part 1 test `none`: `find_calibration_value` gives 0. */
  lemma Part1None(input: seq<string>)
    requires |input| == 1 &&
             input[0] == "trebuchet"
    ensures SumLines(input) == 0
  {
    assert input[..0] == [];
    LineTrebuchet(input[0]);
    SumLinesAdvance(input, 0, 0, 0);
    assert input[..1] == input;
  }

  /** The Part 1 test `one`: `find_calibration_value` gives 77. */
  lemma Part1One(input: seq<string>)
    requires |input| == 1 &&
             input[0] == "treb7uchet"
    ensures SumLines(input) == 77
  {
    assert input[..0] == [];
    LineTreb7Uchet(input[0]);
    SumLinesAdvance(input, 0, 0, 77);
    assert input[..1] == input;
  }

  /** The Part 1 test `two_single`: `find_calibration_value` gives 38. */
  lemma Part1TwoSingle(input: seq<string>)
    requires |input| == 1 &&
             input[0] == "pqr3stu8vwx"
    ensures SumLines(input) == 38
  {
    assert input[..0] == [];
    LinePqr3Stu8Vwx(input[0]);
    SumLinesAdvance(input, 0, 0, 38);
    assert input[..1] == input;
  }

  /** The Part 1 test `two_many`: `find_calibration_value` gives 50. */
  lemma Part1TwoMany(input: seq<string>)
    requires |input| == 2 &&
             input[0] == "1abc2" &&
             input[1] == "pqr3stu8vwx"
    ensures SumLines(input) == 50
  {
    assert input[..0] == [];
    Line1Abc2(input[0]);
    SumLinesAdvance(input, 0, 0, 12);
    LinePqr3Stu8Vwx(input[1]);
    SumLinesAdvance(input, 1, 12, 38);
    assert input[..2] == input;
  }

  /** `handel_line("a1b2c34e5f")` is 15. */
  lemma LineA1B2C34E5F(line: string)
    requires line == "a1b2c34e5f"
    ensures HandelLine(line) == 15
  {
    HandelLineFirstLast(line, 1, 8);
  }

  /** The Part 1 test `many_many`: `find_calibration_value` gives 30. */
  lemma Part1ManyMany(input: seq<string>)
    requires |input| == 2 &&
             input[0] == "a1b2c3d4e5f" &&
             input[1] == "a1b2c34e5f"
    ensures SumLines(input) == 30
  {
    assert input[..0] == [];
    LineA1B2C3D4E5F(input[0]);
    SumLinesAdvance(input, 0, 0, 15);
    LineA1B2C34E5F(input[1]);
    SumLinesAdvance(input, 1, 15, 15);
    assert input[..2] == input;
  }

  lemma ReplaceTwo1NineAt0(line: string)
    requires |line| == 8 && line[0] == 't' && line[1] == 'w' && line[2] == 'o' && line[3] == '1' && line[4] == 'n' && line[5] == 'i' && line[6] == 'n' && line[7] == 'e'
    requires ReplacePrefix(line, 0) == ""
    ensures ReplacePrefix(line, 1) == "2"
  {
    var slice := line[0..];
    Differs(slice, "one", 0);
    assert slice[..3] == "two";
  }

  lemma ReplaceTwo1NineAt1(line: string)
    requires |line| == 8 && line[0] == 't' && line[1] == 'w' && line[2] == 'o' && line[3] == '1' && line[4] == 'n' && line[5] == 'i' && line[6] == 'n' && line[7] == 'e'
    requires ReplacePrefix(line, 1) == "2"
    ensures ReplacePrefix(line, 2) == "2"
  {
    var slice := line[1..];
    Differs(slice, "one", 0);
    Differs(slice, "two", 0);
    Differs(slice, "three", 0);
    Differs(slice, "four", 0);
    Differs(slice, "five", 0);
    Differs(slice, "six", 0);
    Differs(slice, "seven", 0);
    Differs(slice, "eight", 0);
    Differs(slice, "nine", 0);
  }

  lemma ReplaceTwo1NineAt2(line: string)
    requires |line| == 8 && line[0] == 't' && line[1] == 'w' && line[2] == 'o' && line[3] == '1' && line[4] == 'n' && line[5] == 'i' && line[6] == 'n' && line[7] == 'e'
    requires ReplacePrefix(line, 2) == "2"
    ensures ReplacePrefix(line, 3) == "2"
  {
    var slice := line[2..];
    Differs(slice, "one", 1);
    Differs(slice, "two", 0);
    Differs(slice, "three", 0);
    Differs(slice, "four", 0);
    Differs(slice, "five", 0);
    Differs(slice, "six", 0);
    Differs(slice, "seven", 0);
    Differs(slice, "eight", 0);
    Differs(slice, "nine", 0);
  }

  lemma ReplaceTwo1NineAt3(line: string)
    requires |line| == 8 && line[0] == 't' && line[1] == 'w' && line[2] == 'o' && line[3] == '1' && line[4] == 'n' && line[5] == 'i' && line[6] == 'n' && line[7] == 'e'
    requires ReplacePrefix(line, 3) == "2"
    ensures ReplacePrefix(line, 4) == "21"
  {
    var slice := line[3..];
    Differs(slice, "one", 0);
    Differs(slice, "two", 0);
    Differs(slice, "three", 0);
    Differs(slice, "four", 0);
    Differs(slice, "five", 0);
    Differs(slice, "six", 0);
    Differs(slice, "seven", 0);
    Differs(slice, "eight", 0);
    Differs(slice, "nine", 0);
  }

  lemma ReplaceTwo1NineAt4(line: string)
    requires |line| == 8 && line[0] == 't' && line[1] == 'w' && line[2] == 'o' && line[3] == '1' && line[4] == 'n' && line[5] == 'i' && line[6] == 'n' && line[7] == 'e'
    requires ReplacePrefix(line, 4) == "21"
    ensures ReplacePrefix(line, 5) == "219"
  {
    var slice := line[4..];
    Differs(slice, "one", 0);
    Differs(slice, "two", 0);
    Differs(slice, "four", 0);
    Differs(slice, "five", 0);
    Differs(slice, "six", 0);
    assert slice[..4] == "nine";
  }

  lemma ReplaceTwo1NineAt5(line: string)
    requires |line| == 8 && line[0] == 't' && line[1] == 'w' && line[2] == 'o' && line[3] == '1' && line[4] == 'n' && line[5] == 'i' && line[6] == 'n' && line[7] == 'e'
    requires ReplacePrefix(line, 5) == "219"
    ensures ReplacePrefix(line, 6) == "219"
  {
    var slice := line[5..];
    Differs(slice, "one", 0);
    Differs(slice, "two", 0);
    Differs(slice, "six", 0);
  }

  lemma ReplaceTwo1NineAt6(line: string)
    requires |line| == 8 && line[0] == 't' && line[1] == 'w' && line[2] == 'o' && line[3] == '1' && line[4] == 'n' && line[5] == 'i' && line[6] == 'n' && line[7] == 'e'
    requires ReplacePrefix(line, 6) == "219"
    ensures ReplacePrefix(line, 7) == "219"
  {
    var slice := line[6..];
  }

  lemma ReplaceTwo1NineAt7(line: string)
    requires |line| == 8 && line[0] == 't' && line[1] == 'w' && line[2] == 'o' && line[3] == '1' && line[4] == 'n' && line[5] == 'i' && line[6] == 'n' && line[7] == 'e'
    requires ReplacePrefix(line, 7) == "219"
    ensures ReplacePrefix(line, 8) == "219"
  {
    var slice := line[7..];
  }

  /** `replace_didgets("two1nine")` is "219". */
  lemma ReplaceTwo1Nine(line: string)
    requires line == "two1nine"
    ensures ReplaceDigits(line) == "219"
  {
    ReplaceTwo1NineAt0(line);
    ReplaceTwo1NineAt1(line);
    ReplaceTwo1NineAt2(line);
    ReplaceTwo1NineAt3(line);
    ReplaceTwo1NineAt4(line);
    ReplaceTwo1NineAt5(line);
    ReplaceTwo1NineAt6(line);
    ReplaceTwo1NineAt7(line);
  }

  /** `handel_line("219")` is 29. */
  lemma Line219(line: string)
    requires line == "219"
    ensures HandelLine(line) == 29
  {
    HandelLineFirstLast(line, 0, 2);
  }

  /** Line "two1nine" is worth 29 in Part 2. */
  lemma ValueTwo1Nine(line: string)
    requires line == "two1nine"
    ensures HandelLine(ReplaceDigits(line)) == 29
  {
    ReplaceTwo1Nine(line);
    Line219(ReplaceDigits(line));
  }

  lemma ReplaceEightwothreeAt0(line: string)
    requires |line| == 12 && line[0] == 'e' && line[1] == 'i' && line[2] == 'g' && line[3] == 'h' && line[4] == 't' && line[5] == 'w' && line[6] == 'o' && line[7] == 't' && line[8] == 'h' && line[9] == 'r' && line[10] == 'e' && line[11] == 'e'
    requires ReplacePrefix(line, 0) == ""
    ensures ReplacePrefix(line, 1) == "8"
  {
    var slice := line[0..];
    Differs(slice, "one", 0);
    Differs(slice, "two", 0);
    Differs(slice, "three", 0);
    Differs(slice, "four", 0);
    Differs(slice, "five", 0);
    Differs(slice, "six", 0);
    Differs(slice, "seven", 0);
    assert slice[..5] == "eight";
  }

  lemma ReplaceEightwothreeAt1(line: string)
    requires |line| == 12 && line[0] == 'e' && line[1] == 'i' && line[2] == 'g' && line[3] == 'h' && line[4] == 't' && line[5] == 'w' && line[6] == 'o' && line[7] == 't' && line[8] == 'h' && line[9] == 'r' && line[10] == 'e' && line[11] == 'e'
    requires ReplacePrefix(line, 1) == "8"
    ensures ReplacePrefix(line, 2) == "8"
  {
    var slice := line[1..];
    Differs(slice, "one", 0);
    Differs(slice, "two", 0);
    Differs(slice, "three", 0);
    Differs(slice, "four", 0);
    Differs(slice, "five", 0);
    Differs(slice, "six", 0);
    Differs(slice, "seven", 0);
    Differs(slice, "eight", 0);
    Differs(slice, "nine", 0);
  }

  lemma ReplaceEightwothreeAt2(line: string)
    requires |line| == 12 && line[0] == 'e' && line[1] == 'i' && line[2] == 'g' && line[3] == 'h' && line[4] == 't' && line[5] == 'w' && line[6] == 'o' && line[7] == 't' && line[8] == 'h' && line[9] == 'r' && line[10] == 'e' && line[11] == 'e'
    requires ReplacePrefix(line, 2) == "8"
    ensures ReplacePrefix(line, 3) == "8"
  {
    var slice := line[2..];
    Differs(slice, "one", 0);
    Differs(slice, "two", 0);
    Differs(slice, "three", 0);
    Differs(slice, "four", 0);
    Differs(slice, "five", 0);
    Differs(slice, "six", 0);
    Differs(slice, "seven", 0);
    Differs(slice, "eight", 0);
    Differs(slice, "nine", 0);
  }

  lemma ReplaceEightwothreeAt3(line: string)
    requires |line| == 12 && line[0] == 'e' && line[1] == 'i' && line[2] == 'g' && line[3] == 'h' && line[4] == 't' && line[5] == 'w' && line[6] == 'o' && line[7] == 't' && line[8] == 'h' && line[9] == 'r' && line[10] == 'e' && line[11] == 'e'
    requires ReplacePrefix(line, 3) == "8"
    ensures ReplacePrefix(line, 4) == "8"
  {
    var slice := line[3..];
    Differs(slice, "one", 0);
    Differs(slice, "two", 0);
    Differs(slice, "three", 0);
    Differs(slice, "four", 0);
    Differs(slice, "five", 0);
    Differs(slice, "six", 0);
    Differs(slice, "seven", 0);
    Differs(slice, "eight", 0);
    Differs(slice, "nine", 0);
  }

  lemma ReplaceEightwothreeAt4(line: string)
    requires |line| == 12 && line[0] == 'e' && line[1] == 'i' && line[2] == 'g' && line[3] == 'h' && line[4] == 't' && line[5] == 'w' && line[6] == 'o' && line[7] == 't' && line[8] == 'h' && line[9] == 'r' && line[10] == 'e' && line[11] == 'e'
    requires ReplacePrefix(line, 4) == "8"
    ensures ReplacePrefix(line, 5) == "82"
  {
    var slice := line[4..];
    Differs(slice, "one", 0);
    assert slice[..3] == "two";
  }

  lemma ReplaceEightwothreeAt5(line: string)
    requires |line| == 12 && line[0] == 'e' && line[1] == 'i' && line[2] == 'g' && line[3] == 'h' && line[4] == 't' && line[5] == 'w' && line[6] == 'o' && line[7] == 't' && line[8] == 'h' && line[9] == 'r' && line[10] == 'e' && line[11] == 'e'
    requires ReplacePrefix(line, 5) == "82"
    ensures ReplacePrefix(line, 6) == "82"
  {
    var slice := line[5..];
    Differs(slice, "one", 0);
    Differs(slice, "two", 0);
    Differs(slice, "three", 0);
    Differs(slice, "four", 0);
    Differs(slice, "five", 0);
    Differs(slice, "six", 0);
    Differs(slice, "seven", 0);
    Differs(slice, "eight", 0);
    Differs(slice, "nine", 0);
  }

  lemma ReplaceEightwothreeAt6(line: string)
    requires |line| == 12 && line[0] == 'e' && line[1] == 'i' && line[2] == 'g' && line[3] == 'h' && line[4] == 't' && line[5] == 'w' && line[6] == 'o' && line[7] == 't' && line[8] == 'h' && line[9] == 'r' && line[10] == 'e' && line[11] == 'e'
    requires ReplacePrefix(line, 6) == "82"
    ensures ReplacePrefix(line, 7) == "82"
  {
    var slice := line[6..];
    Differs(slice, "one", 1);
    Differs(slice, "two", 0);
    Differs(slice, "three", 0);
    Differs(slice, "four", 0);
    Differs(slice, "five", 0);
    Differs(slice, "six", 0);
    Differs(slice, "seven", 0);
    Differs(slice, "eight", 0);
    Differs(slice, "nine", 0);
  }

  lemma ReplaceEightwothreeAt7(line: string)
    requires |line| == 12 && line[0] == 'e' && line[1] == 'i' && line[2] == 'g' && line[3] == 'h' && line[4] == 't' && line[5] == 'w' && line[6] == 'o' && line[7] == 't' && line[8] == 'h' && line[9] == 'r' && line[10] == 'e' && line[11] == 'e'
    requires ReplacePrefix(line, 7) == "82"
    ensures ReplacePrefix(line, 8) == "823"
  {
    var slice := line[7..];
    Differs(slice, "one", 0);
    Differs(slice, "two", 1);
    assert slice[..5] == "three";
  }

  lemma ReplaceEightwothreeAt8(line: string)
    requires |line| == 12 && line[0] == 'e' && line[1] == 'i' && line[2] == 'g' && line[3] == 'h' && line[4] == 't' && line[5] == 'w' && line[6] == 'o' && line[7] == 't' && line[8] == 'h' && line[9] == 'r' && line[10] == 'e' && line[11] == 'e'
    requires ReplacePrefix(line, 8) == "823"
    ensures ReplacePrefix(line, 9) == "823"
  {
    var slice := line[8..];
    Differs(slice, "one", 0);
    Differs(slice, "two", 0);
    Differs(slice, "four", 0);
    Differs(slice, "five", 0);
    Differs(slice, "six", 0);
    Differs(slice, "nine", 0);
  }

  lemma ReplaceEightwothreeAt9(line: string)
    requires |line| == 12 && line[0] == 'e' && line[1] == 'i' && line[2] == 'g' && line[3] == 'h' && line[4] == 't' && line[5] == 'w' && line[6] == 'o' && line[7] == 't' && line[8] == 'h' && line[9] == 'r' && line[10] == 'e' && line[11] == 'e'
    requires ReplacePrefix(line, 9) == "823"
    ensures ReplacePrefix(line, 10) == "823"
  {
    var slice := line[9..];
    Differs(slice, "one", 0);
    Differs(slice, "two", 0);
    Differs(slice, "six", 0);
  }

  lemma ReplaceEightwothreeAt10(line: string)
    requires |line| == 12 && line[0] == 'e' && line[1] == 'i' && line[2] == 'g' && line[3] == 'h' && line[4] == 't' && line[5] == 'w' && line[6] == 'o' && line[7] == 't' && line[8] == 'h' && line[9] == 'r' && line[10] == 'e' && line[11] == 'e'
    requires ReplacePrefix(line, 10) == "823"
    ensures ReplacePrefix(line, 11) == "823"
  {
    var slice := line[10..];
  }

  lemma ReplaceEightwothreeAt11(line: string)
    requires |line| == 12 && line[0] == 'e' && line[1] == 'i' && line[2] == 'g' && line[3] == 'h' && line[4] == 't' && line[5] == 'w' && line[6] == 'o' && line[7] == 't' && line[8] == 'h' && line[9] == 'r' && line[10] == 'e' && line[11] == 'e'
    requires ReplacePrefix(line, 11) == "823"
    ensures ReplacePrefix(line, 12) == "823"
  {
    var slice := line[11..];
  }

  /** `replace_didgets("eightwothree")` is "823". */
  lemma ReplaceEightwothree(line: string)
    requires line == "eightwothree"
    ensures ReplaceDigits(line) == "823"
  {
    ReplaceEightwothreeAt0(line);
    ReplaceEightwothreeAt1(line);
    ReplaceEightwothreeAt2(line);
    ReplaceEightwothreeAt3(line);
    ReplaceEightwothreeAt4(line);
    ReplaceEightwothreeAt5(line);
    ReplaceEightwothreeAt6(line);
    ReplaceEightwothreeAt7(line);
    ReplaceEightwothreeAt8(line);
    ReplaceEightwothreeAt9(line);
    ReplaceEightwothreeAt10(line);
    ReplaceEightwothreeAt11(line);
  }

  /** `handel_line("823")` is 83. */
  lemma Line823(line: string)
    requires line == "823"
    ensures HandelLine(line) == 83
  {
    HandelLineFirstLast(line, 0, 2);
  }

  /** Line "eightwothree" is worth 83 in Part 2. */
  lemma ValueEightwothree(line: string)
    requires line == "eightwothree"
    ensures HandelLine(ReplaceDigits(line)) == 83
  {
    ReplaceEightwothree(line);
    Line823(ReplaceDigits(line));
  }

  lemma ReplaceAbcone2ThreexyzAt0(line: string)
    requires |line| == 15 && line[0] == 'a' && line[1] == 'b' && line[2] == 'c' && line[3] == 'o' && line[4] == 'n' && line[5] == 'e' && line[6] == '2' && line[7] == 't' && line[8] == 'h' && line[9] == 'r' && line[10] == 'e' && line[11] == 'e' && line[12] == 'x' && line[13] == 'y' && line[14] == 'z'
    requires ReplacePrefix(line, 0) == ""
    ensures ReplacePrefix(line, 1) == ""
  {
    var slice := line[0..];
    Differs(slice, "one", 0);
    Differs(slice, "two", 0);
    Differs(slice, "three", 0);
    Differs(slice, "four", 0);
    Differs(slice, "five", 0);
    Differs(slice, "six", 0);
    Differs(slice, "seven", 0);
    Differs(slice, "eight", 0);
    Differs(slice, "nine", 0);
  }

  lemma ReplaceAbcone2ThreexyzAt1(line: string)
    requires |line| == 15 && line[0] == 'a' && line[1] == 'b' && line[2] == 'c' && line[3] == 'o' && line[4] == 'n' && line[5] == 'e' && line[6] == '2' && line[7] == 't' && line[8] == 'h' && line[9] == 'r' && line[10] == 'e' && line[11] == 'e' && line[12] == 'x' && line[13] == 'y' && line[14] == 'z'
    requires ReplacePrefix(line, 1) == ""
    ensures ReplacePrefix(line, 2) == ""
  {
    var slice := line[1..];
    Differs(slice, "one", 0);
    Differs(slice, "two", 0);
    Differs(slice, "three", 0);
    Differs(slice, "four", 0);
    Differs(slice, "five", 0);
    Differs(slice, "six", 0);
    Differs(slice, "seven", 0);
    Differs(slice, "eight", 0);
    Differs(slice, "nine", 0);
  }

  lemma ReplaceAbcone2ThreexyzAt2(line: string)
    requires |line| == 15 && line[0] == 'a' && line[1] == 'b' && line[2] == 'c' && line[3] == 'o' && line[4] == 'n' && line[5] == 'e' && line[6] == '2' && line[7] == 't' && line[8] == 'h' && line[9] == 'r' && line[10] == 'e' && line[11] == 'e' && line[12] == 'x' && line[13] == 'y' && line[14] == 'z'
    requires ReplacePrefix(line, 2) == ""
    ensures ReplacePrefix(line, 3) == ""
  {
    var slice := line[2..];
    Differs(slice, "one", 0);
    Differs(slice, "two", 0);
    Differs(slice, "three", 0);
    Differs(slice, "four", 0);
    Differs(slice, "five", 0);
    Differs(slice, "six", 0);
    Differs(slice, "seven", 0);
    Differs(slice, "eight", 0);
    Differs(slice, "nine", 0);
  }

  lemma ReplaceAbcone2ThreexyzAt3(line: string)
    requires |line| == 15 && line[0] == 'a' && line[1] == 'b' && line[2] == 'c' && line[3] == 'o' && line[4] == 'n' && line[5] == 'e' && line[6] == '2' && line[7] == 't' && line[8] == 'h' && line[9] == 'r' && line[10] == 'e' && line[11] == 'e' && line[12] == 'x' && line[13] == 'y' && line[14] == 'z'
    requires ReplacePrefix(line, 3) == ""
    ensures ReplacePrefix(line, 4) == "1"
  {
    var slice := line[3..];
    assert slice[..3] == "one";
  }

  lemma ReplaceAbcone2ThreexyzAt4(line: string)
    requires |line| == 15 && line[0] == 'a' && line[1] == 'b' && line[2] == 'c' && line[3] == 'o' && line[4] == 'n' && line[5] == 'e' && line[6] == '2' && line[7] == 't' && line[8] == 'h' && line[9] == 'r' && line[10] == 'e' && line[11] == 'e' && line[12] == 'x' && line[13] == 'y' && line[14] == 'z'
    requires ReplacePrefix(line, 4) == "1"
    ensures ReplacePrefix(line, 5) == "1"
  {
    var slice := line[4..];
    Differs(slice, "one", 0);
    Differs(slice, "two", 0);
    Differs(slice, "three", 0);
    Differs(slice, "four", 0);
    Differs(slice, "five", 0);
    Differs(slice, "six", 0);
    Differs(slice, "seven", 0);
    Differs(slice, "eight", 0);
    Differs(slice, "nine", 1);
  }

  lemma ReplaceAbcone2ThreexyzAt5(line: string)
    requires |line| == 15 && line[0] == 'a' && line[1] == 'b' && line[2] == 'c' && line[3] == 'o' && line[4] == 'n' && line[5] == 'e' && line[6] == '2' && line[7] == 't' && line[8] == 'h' && line[9] == 'r' && line[10] == 'e' && line[11] == 'e' && line[12] == 'x' && line[13] == 'y' && line[14] == 'z'
    requires ReplacePrefix(line, 5) == "1"
    ensures ReplacePrefix(line, 6) == "1"
  {
    var slice := line[5..];
    Differs(slice, "one", 0);
    Differs(slice, "two", 0);
    Differs(slice, "three", 0);
    Differs(slice, "four", 0);
    Differs(slice, "five", 0);
    Differs(slice, "six", 0);
    Differs(slice, "seven", 0);
    Differs(slice, "eight", 1);
    Differs(slice, "nine", 0);
  }

  lemma ReplaceAbcone2ThreexyzAt6(line: string)
    requires |line| == 15 && line[0] == 'a' && line[1] == 'b' && line[2] == 'c' && line[3] == 'o' && line[4] == 'n' && line[5] == 'e' && line[6] == '2' && line[7] == 't' && line[8] == 'h' && line[9] == 'r' && line[10] == 'e' && line[11] == 'e' && line[12] == 'x' && line[13] == 'y' && line[14] == 'z'
    requires ReplacePrefix(line, 6) == "1"
    ensures ReplacePrefix(line, 7) == "12"
  {
    var slice := line[6..];
    Differs(slice, "one", 0);
    Differs(slice, "two", 0);
    Differs(slice, "three", 0);
    Differs(slice, "four", 0);
    Differs(slice, "five", 0);
    Differs(slice, "six", 0);
    Differs(slice, "seven", 0);
    Differs(slice, "eight", 0);
    Differs(slice, "nine", 0);
  }

  lemma ReplaceAbcone2ThreexyzAt7(line: string)
    requires |line| == 15 && line[0] == 'a' && line[1] == 'b' && line[2] == 'c' && line[3] == 'o' && line[4] == 'n' && line[5] == 'e' && line[6] == '2' && line[7] == 't' && line[8] == 'h' && line[9] == 'r' && line[10] == 'e' && line[11] == 'e' && line[12] == 'x' && line[13] == 'y' && line[14] == 'z'
    requires ReplacePrefix(line, 7) == "12"
    ensures ReplacePrefix(line, 8) == "123"
  {
    var slice := line[7..];
    Differs(slice, "one", 0);
    Differs(slice, "two", 1);
    assert slice[..5] == "three";
  }

  lemma ReplaceAbcone2ThreexyzAt8(line: string)
    requires |line| == 15 && line[0] == 'a' && line[1] == 'b' && line[2] == 'c' && line[3] == 'o' && line[4] == 'n' && line[5] == 'e' && line[6] == '2' && line[7] == 't' && line[8] == 'h' && line[9] == 'r' && line[10] == 'e' && line[11] == 'e' && line[12] == 'x' && line[13] == 'y' && line[14] == 'z'
    requires ReplacePrefix(line, 8) == "123"
    ensures ReplacePrefix(line, 9) == "123"
  {
    var slice := line[8..];
    Differs(slice, "one", 0);
    Differs(slice, "two", 0);
    Differs(slice, "three", 0);
    Differs(slice, "four", 0);
    Differs(slice, "five", 0);
    Differs(slice, "six", 0);
    Differs(slice, "seven", 0);
    Differs(slice, "eight", 0);
    Differs(slice, "nine", 0);
  }

  lemma ReplaceAbcone2ThreexyzAt9(line: string)
    requires |line| == 15 && line[0] == 'a' && line[1] == 'b' && line[2] == 'c' && line[3] == 'o' && line[4] == 'n' && line[5] == 'e' && line[6] == '2' && line[7] == 't' && line[8] == 'h' && line[9] == 'r' && line[10] == 'e' && line[11] == 'e' && line[12] == 'x' && line[13] == 'y' && line[14] == 'z'
    requires ReplacePrefix(line, 9) == "123"
    ensures ReplacePrefix(line, 10) == "123"
  {
    var slice := line[9..];
    Differs(slice, "one", 0);
    Differs(slice, "two", 0);
    Differs(slice, "three", 0);
    Differs(slice, "four", 0);
    Differs(slice, "five", 0);
    Differs(slice, "six", 0);
    Differs(slice, "seven", 0);
    Differs(slice, "eight", 0);
    Differs(slice, "nine", 0);
  }

  lemma ReplaceAbcone2ThreexyzAt10(line: string)
    requires |line| == 15 && line[0] == 'a' && line[1] == 'b' && line[2] == 'c' && line[3] == 'o' && line[4] == 'n' && line[5] == 'e' && line[6] == '2' && line[7] == 't' && line[8] == 'h' && line[9] == 'r' && line[10] == 'e' && line[11] == 'e' && line[12] == 'x' && line[13] == 'y' && line[14] == 'z'
    requires ReplacePrefix(line, 10) == "123"
    ensures ReplacePrefix(line, 11) == "123"
  {
    var slice := line[10..];
    Differs(slice, "one", 0);
    Differs(slice, "two", 0);
    Differs(slice, "three", 0);
    Differs(slice, "four", 0);
    Differs(slice, "five", 0);
    Differs(slice, "six", 0);
    Differs(slice, "seven", 0);
    Differs(slice, "eight", 1);
    Differs(slice, "nine", 0);
  }

  lemma ReplaceAbcone2ThreexyzAt11(line: string)
    requires |line| == 15 && line[0] == 'a' && line[1] == 'b' && line[2] == 'c' && line[3] == 'o' && line[4] == 'n' && line[5] == 'e' && line[6] == '2' && line[7] == 't' && line[8] == 'h' && line[9] == 'r' && line[10] == 'e' && line[11] == 'e' && line[12] == 'x' && line[13] == 'y' && line[14] == 'z'
    requires ReplacePrefix(line, 11) == "123"
    ensures ReplacePrefix(line, 12) == "123"
  {
    var slice := line[11..];
    Differs(slice, "one", 0);
    Differs(slice, "two", 0);
    Differs(slice, "four", 0);
    Differs(slice, "five", 0);
    Differs(slice, "six", 0);
    Differs(slice, "nine", 0);
  }

  lemma ReplaceAbcone2ThreexyzAt12(line: string)
    requires |line| == 15 && line[0] == 'a' && line[1] == 'b' && line[2] == 'c' && line[3] == 'o' && line[4] == 'n' && line[5] == 'e' && line[6] == '2' && line[7] == 't' && line[8] == 'h' && line[9] == 'r' && line[10] == 'e' && line[11] == 'e' && line[12] == 'x' && line[13] == 'y' && line[14] == 'z'
    requires ReplacePrefix(line, 12) == "123"
    ensures ReplacePrefix(line, 13) == "123"
  {
    var slice := line[12..];
    Differs(slice, "one", 0);
    Differs(slice, "two", 0);
    Differs(slice, "six", 0);
  }

  lemma ReplaceAbcone2ThreexyzAt13(line: string)
    requires |line| == 15 && line[0] == 'a' && line[1] == 'b' && line[2] == 'c' && line[3] == 'o' && line[4] == 'n' && line[5] == 'e' && line[6] == '2' && line[7] == 't' && line[8] == 'h' && line[9] == 'r' && line[10] == 'e' && line[11] == 'e' && line[12] == 'x' && line[13] == 'y' && line[14] == 'z'
    requires ReplacePrefix(line, 13) == "123"
    ensures ReplacePrefix(line, 14) == "123"
  {
    var slice := line[13..];
  }

  lemma ReplaceAbcone2ThreexyzAt14(line: string)
    requires |line| == 15 && line[0] == 'a' && line[1] == 'b' && line[2] == 'c' && line[3] == 'o' && line[4] == 'n' && line[5] == 'e' && line[6] == '2' && line[7] == 't' && line[8] == 'h' && line[9] == 'r' && line[10] == 'e' && line[11] == 'e' && line[12] == 'x' && line[13] == 'y' && line[14] == 'z'
    requires ReplacePrefix(line, 14) == "123"
    ensures ReplacePrefix(line, 15) == "123"
  {
    var slice := line[14..];
  }

  /** `replace_didgets("abcone2threexyz")` is "123". */
  lemma ReplaceAbcone2Threexyz(line: string)
    requires line == "abcone2threexyz"
    ensures ReplaceDigits(line) == "123"
  {
    ReplaceAbcone2ThreexyzAt0(line);
    ReplaceAbcone2ThreexyzAt1(line);
    ReplaceAbcone2ThreexyzAt2(line);
    ReplaceAbcone2ThreexyzAt3(line);
    ReplaceAbcone2ThreexyzAt4(line);
    ReplaceAbcone2ThreexyzAt5(line);
    ReplaceAbcone2ThreexyzAt6(line);
    ReplaceAbcone2ThreexyzAt7(line);
    ReplaceAbcone2ThreexyzAt8(line);
    ReplaceAbcone2ThreexyzAt9(line);
    ReplaceAbcone2ThreexyzAt10(line);
    ReplaceAbcone2ThreexyzAt11(line);
    ReplaceAbcone2ThreexyzAt12(line);
    ReplaceAbcone2ThreexyzAt13(line);
    ReplaceAbcone2ThreexyzAt14(line);
  }

  /** `handel_line("123")` is 13. */
  lemma Line123(line: string)
    requires line == "123"
    ensures HandelLine(line) == 13
  {
    HandelLineFirstLast(line, 0, 2);
  }

  /** Line "abcone2threexyz" is worth 13 in Part 2. */
  lemma ValueAbcone2Threexyz(line: string)
    requires line == "abcone2threexyz"
    ensures HandelLine(ReplaceDigits(line)) == 13
  {
    ReplaceAbcone2Threexyz(line);
    Line123(ReplaceDigits(line));
  }

  lemma ReplaceXtwone3FourAt0(line: string)
    requires |line| == 11 && line[0] == 'x' && line[1] == 't' && line[2] == 'w' && line[3] == 'o' && line[4] == 'n' && line[5] == 'e' && line[6] == '3' && line[7] == 'f' && line[8] == 'o' && line[9] == 'u' && line[10] == 'r'
    requires ReplacePrefix(line, 0) == ""
    ensures ReplacePrefix(line, 1) == ""
  {
    var slice := line[0..];
    Differs(slice, "one", 0);
    Differs(slice, "two", 0);
    Differs(slice, "three", 0);
    Differs(slice, "four", 0);
    Differs(slice, "five", 0);
    Differs(slice, "six", 0);
    Differs(slice, "seven", 0);
    Differs(slice, "eight", 0);
    Differs(slice, "nine", 0);
  }

  lemma ReplaceXtwone3FourAt1(line: string)
    requires |line| == 11 && line[0] == 'x' && line[1] == 't' && line[2] == 'w' && line[3] == 'o' && line[4] == 'n' && line[5] == 'e' && line[6] == '3' && line[7] == 'f' && line[8] == 'o' && line[9] == 'u' && line[10] == 'r'
    requires ReplacePrefix(line, 1) == ""
    ensures ReplacePrefix(line, 2) == "2"
  {
    var slice := line[1..];
    Differs(slice, "one", 0);
    assert slice[..3] == "two";
  }

  lemma ReplaceXtwone3FourAt2(line: string)
    requires |line| == 11 && line[0] == 'x' && line[1] == 't' && line[2] == 'w' && line[3] == 'o' && line[4] == 'n' && line[5] == 'e' && line[6] == '3' && line[7] == 'f' && line[8] == 'o' && line[9] == 'u' && line[10] == 'r'
    requires ReplacePrefix(line, 2) == "2"
    ensures ReplacePrefix(line, 3) == "2"
  {
    var slice := line[2..];
    Differs(slice, "one", 0);
    Differs(slice, "two", 0);
    Differs(slice, "three", 0);
    Differs(slice, "four", 0);
    Differs(slice, "five", 0);
    Differs(slice, "six", 0);
    Differs(slice, "seven", 0);
    Differs(slice, "eight", 0);
    Differs(slice, "nine", 0);
  }

  lemma ReplaceXtwone3FourAt3(line: string)
    requires |line| == 11 && line[0] == 'x' && line[1] == 't' && line[2] == 'w' && line[3] == 'o' && line[4] == 'n' && line[5] == 'e' && line[6] == '3' && line[7] == 'f' && line[8] == 'o' && line[9] == 'u' && line[10] == 'r'
    requires ReplacePrefix(line, 3) == "2"
    ensures ReplacePrefix(line, 4) == "21"
  {
    var slice := line[3..];
    assert slice[..3] == "one";
  }

  lemma ReplaceXtwone3FourAt4(line: string)
    requires |line| == 11 && line[0] == 'x' && line[1] == 't' && line[2] == 'w' && line[3] == 'o' && line[4] == 'n' && line[5] == 'e' && line[6] == '3' && line[7] == 'f' && line[8] == 'o' && line[9] == 'u' && line[10] == 'r'
    requires ReplacePrefix(line, 4) == "21"
    ensures ReplacePrefix(line, 5) == "21"
  {
    var slice := line[4..];
    Differs(slice, "one", 0);
    Differs(slice, "two", 0);
    Differs(slice, "three", 0);
    Differs(slice, "four", 0);
    Differs(slice, "five", 0);
    Differs(slice, "six", 0);
    Differs(slice, "seven", 0);
    Differs(slice, "eight", 0);
    Differs(slice, "nine", 1);
  }

  lemma ReplaceXtwone3FourAt5(line: string)
    requires |line| == 11 && line[0] == 'x' && line[1] == 't' && line[2] == 'w' && line[3] == 'o' && line[4] == 'n' && line[5] == 'e' && line[6] == '3' && line[7] == 'f' && line[8] == 'o' && line[9] == 'u' && line[10] == 'r'
    requires ReplacePrefix(line, 5) == "21"
    ensures ReplacePrefix(line, 6) == "21"
  {
    var slice := line[5..];
    Differs(slice, "one", 0);
    Differs(slice, "two", 0);
    Differs(slice, "three", 0);
    Differs(slice, "four", 0);
    Differs(slice, "five", 0);
    Differs(slice, "six", 0);
    Differs(slice, "seven", 0);
    Differs(slice, "eight", 1);
    Differs(slice, "nine", 0);
  }

  lemma ReplaceXtwone3FourAt6(line: string)
    requires |line| == 11 && line[0] == 'x' && line[1] == 't' && line[2] == 'w' && line[3] == 'o' && line[4] == 'n' && line[5] == 'e' && line[6] == '3' && line[7] == 'f' && line[8] == 'o' && line[9] == 'u' && line[10] == 'r'
    requires ReplacePrefix(line, 6) == "21"
    ensures ReplacePrefix(line, 7) == "213"
  {
    var slice := line[6..];
    Differs(slice, "one", 0);
    Differs(slice, "two", 0);
    Differs(slice, "three", 0);
    Differs(slice, "four", 0);
    Differs(slice, "five", 0);
    Differs(slice, "six", 0);
    Differs(slice, "seven", 0);
    Differs(slice, "eight", 0);
    Differs(slice, "nine", 0);
  }

  lemma ReplaceXtwone3FourAt7(line: string)
    requires |line| == 11 && line[0] == 'x' && line[1] == 't' && line[2] == 'w' && line[3] == 'o' && line[4] == 'n' && line[5] == 'e' && line[6] == '3' && line[7] == 'f' && line[8] == 'o' && line[9] == 'u' && line[10] == 'r'
    requires ReplacePrefix(line, 7) == "213"
    ensures ReplacePrefix(line, 8) == "2134"
  {
    var slice := line[7..];
    Differs(slice, "one", 0);
    Differs(slice, "two", 0);
    assert slice[..4] == "four";
  }

  lemma ReplaceXtwone3FourAt8(line: string)
    requires |line| == 11 && line[0] == 'x' && line[1] == 't' && line[2] == 'w' && line[3] == 'o' && line[4] == 'n' && line[5] == 'e' && line[6] == '3' && line[7] == 'f' && line[8] == 'o' && line[9] == 'u' && line[10] == 'r'
    requires ReplacePrefix(line, 8) == "2134"
    ensures ReplacePrefix(line, 9) == "2134"
  {
    var slice := line[8..];
    Differs(slice, "one", 1);
    Differs(slice, "two", 0);
    Differs(slice, "six", 0);
  }

  lemma ReplaceXtwone3FourAt9(line: string)
    requires |line| == 11 && line[0] == 'x' && line[1] == 't' && line[2] == 'w' && line[3] == 'o' && line[4] == 'n' && line[5] == 'e' && line[6] == '3' && line[7] == 'f' && line[8] == 'o' && line[9] == 'u' && line[10] == 'r'
    requires ReplacePrefix(line, 9) == "2134"
    ensures ReplacePrefix(line, 10) == "2134"
  {
    var slice := line[9..];
  }

  lemma ReplaceXtwone3FourAt10(line: string)
    requires |line| == 11 && line[0] == 'x' && line[1] == 't' && line[2] == 'w' && line[3] == 'o' && line[4] == 'n' && line[5] == 'e' && line[6] == '3' && line[7] == 'f' && line[8] == 'o' && line[9] == 'u' && line[10] == 'r'
    requires ReplacePrefix(line, 10) == "2134"
    ensures ReplacePrefix(line, 11) == "2134"
  {
    var slice := line[10..];
  }

  /** `replace_didgets("xtwone3four")` is "2134". */
  lemma ReplaceXtwone3Four(line: string)
    requires line == "xtwone3four"
    ensures ReplaceDigits(line) == "2134"
  {
    ReplaceXtwone3FourAt0(line);
    ReplaceXtwone3FourAt1(line);
    ReplaceXtwone3FourAt2(line);
    ReplaceXtwone3FourAt3(line);
    ReplaceXtwone3FourAt4(line);
    ReplaceXtwone3FourAt5(line);
    ReplaceXtwone3FourAt6(line);
    ReplaceXtwone3FourAt7(line);
    ReplaceXtwone3FourAt8(line);
    ReplaceXtwone3FourAt9(line);
    ReplaceXtwone3FourAt10(line);
  }

  /** `handel_line("2134")` is 24. */
  lemma Line2134(line: string)
    requires line == "2134"
    ensures HandelLine(line) == 24
  {
    HandelLineFirstLast(line, 0, 3);
  }

  /** Line "xtwone3four" is worth 24 in Part 2. */
  lemma ValueXtwone3Four(line: string)
    requires line == "xtwone3four"
    ensures HandelLine(ReplaceDigits(line)) == 24
  {
    ReplaceXtwone3Four(line);
    Line2134(ReplaceDigits(line));
  }

  /** The first four lines of the Part 2 test `sample` add up to 149. */
  lemma Part2SampleHead(input: seq<string>)
    requires |input| >= 4
    requires input[0] == "two1nine"
    requires input[1] == "eightwothree"
    requires input[2] == "abcone2threexyz"
    requires input[3] == "xtwone3four"
    ensures SumReplaced(input[..4]) == 149
  {
    assert input[..0] == [];
    ValueTwo1Nine(input[0]);
    SumReplacedAdvance(input, 0, 0, 29);
    ValueEightwothree(input[1]);
    SumReplacedAdvance(input, 1, 29, 83);
    ValueAbcone2Threexyz(input[2]);
    SumReplacedAdvance(input, 2, 112, 13);
    ValueXtwone3Four(input[3]);
    SumReplacedAdvance(input, 3, 125, 24);
  }

  lemma Replace4Nineeightseven2At0(line: string)
    requires |line| == 16 && line[0] == '4' && line[1] == 'n' && line[2] == 'i' && line[3] == 'n' && line[4] == 'e' && line[5] == 'e' && line[6] == 'i' && line[7] == 'g' && line[8] == 'h' && line[9] == 't' && line[10] == 's' && line[11] == 'e' && line[12] == 'v' && line[13] == 'e' && line[14] == 'n' && line[15] == '2'
    requires ReplacePrefix(line, 0) == ""
    ensures ReplacePrefix(line, 1) == "4"
  {
    var slice := line[0..];
    Differs(slice, "one", 0);
    Differs(slice, "two", 0);
    Differs(slice, "three", 0);
    Differs(slice, "four", 0);
    Differs(slice, "five", 0);
    Differs(slice, "six", 0);
    Differs(slice, "seven", 0);
    Differs(slice, "eight", 0);
    Differs(slice, "nine", 0);
  }

  lemma Replace4Nineeightseven2At1(line: string)
    requires |line| == 16 && line[0] == '4' && line[1] == 'n' && line[2] == 'i' && line[3] == 'n' && line[4] == 'e' && line[5] == 'e' && line[6] == 'i' && line[7] == 'g' && line[8] == 'h' && line[9] == 't' && line[10] == 's' && line[11] == 'e' && line[12] == 'v' && line[13] == 'e' && line[14] == 'n' && line[15] == '2'
    requires ReplacePrefix(line, 1) == "4"
    ensures ReplacePrefix(line, 2) == "49"
  {
    var slice := line[1..];
    Differs(slice, "one", 0);
    Differs(slice, "two", 0);
    Differs(slice, "three", 0);
    Differs(slice, "four", 0);
    Differs(slice, "five", 0);
    Differs(slice, "six", 0);
    Differs(slice, "seven", 0);
    Differs(slice, "eight", 0);
    assert slice[..4] == "nine";
  }

  lemma Replace4Nineeightseven2At2(line: string)
    requires |line| == 16 && line[0] == '4' && line[1] == 'n' && line[2] == 'i' && line[3] == 'n' && line[4] == 'e' && line[5] == 'e' && line[6] == 'i' && line[7] == 'g' && line[8] == 'h' && line[9] == 't' && line[10] == 's' && line[11] == 'e' && line[12] == 'v' && line[13] == 'e' && line[14] == 'n' && line[15] == '2'
    requires ReplacePrefix(line, 2) == "49"
    ensures ReplacePrefix(line, 3) == "49"
  {
    var slice := line[2..];
    Differs(slice, "one", 0);
    Differs(slice, "two", 0);
    Differs(slice, "three", 0);
    Differs(slice, "four", 0);
    Differs(slice, "five", 0);
    Differs(slice, "six", 0);
    Differs(slice, "seven", 0);
    Differs(slice, "eight", 0);
    Differs(slice, "nine", 0);
  }

  lemma Replace4Nineeightseven2At3(line: string)
    requires |line| == 16 && line[0] == '4' && line[1] == 'n' && line[2] == 'i' && line[3] == 'n' && line[4] == 'e' && line[5] == 'e' && line[6] == 'i' && line[7] == 'g' && line[8] == 'h' && line[9] == 't' && line[10] == 's' && line[11] == 'e' && line[12] == 'v' && line[13] == 'e' && line[14] == 'n' && line[15] == '2'
    requires ReplacePrefix(line, 3) == "49"
    ensures ReplacePrefix(line, 4) == "49"
  {
    var slice := line[3..];
    Differs(slice, "one", 0);
    Differs(slice, "two", 0);
    Differs(slice, "three", 0);
    Differs(slice, "four", 0);
    Differs(slice, "five", 0);
    Differs(slice, "six", 0);
    Differs(slice, "seven", 0);
    Differs(slice, "eight", 0);
    Differs(slice, "nine", 1);
  }

  lemma Replace4Nineeightseven2At4(line: string)
    requires |line| == 16 && line[0] == '4' && line[1] == 'n' && line[2] == 'i' && line[3] == 'n' && line[4] == 'e' && line[5] == 'e' && line[6] == 'i' && line[7] == 'g' && line[8] == 'h' && line[9] == 't' && line[10] == 's' && line[11] == 'e' && line[12] == 'v' && line[13] == 'e' && line[14] == 'n' && line[15] == '2'
    requires ReplacePrefix(line, 4) == "49"
    ensures ReplacePrefix(line, 5) == "49"
  {
    var slice := line[4..];
    Differs(slice, "one", 0);
    Differs(slice, "two", 0);
    Differs(slice, "three", 0);
    Differs(slice, "four", 0);
    Differs(slice, "five", 0);
    Differs(slice, "six", 0);
    Differs(slice, "seven", 0);
    Differs(slice, "eight", 1);
    Differs(slice, "nine", 0);
  }

  lemma Replace4Nineeightseven2At5(line: string)
    requires |line| == 16 && line[0] == '4' && line[1] == 'n' && line[2] == 'i' && line[3] == 'n' && line[4] == 'e' && line[5] == 'e' && line[6] == 'i' && line[7] == 'g' && line[8] == 'h' && line[9] == 't' && line[10] == 's' && line[11] == 'e' && line[12] == 'v' && line[13] == 'e' && line[14] == 'n' && line[15] == '2'
    requires ReplacePrefix(line, 5) == "49"
    ensures ReplacePrefix(line, 6) == "498"
  {
    var slice := line[5..];
    Differs(slice, "one", 0);
    Differs(slice, "two", 0);
    Differs(slice, "three", 0);
    Differs(slice, "four", 0);
    Differs(slice, "five", 0);
    Differs(slice, "six", 0);
    Differs(slice, "seven", 0);
    assert slice[..5] == "eight";
  }

  lemma Replace4Nineeightseven2At6(line: string)
    requires |line| == 16 && line[0] == '4' && line[1] == 'n' && line[2] == 'i' && line[3] == 'n' && line[4] == 'e' && line[5] == 'e' && line[6] == 'i' && line[7] == 'g' && line[8] == 'h' && line[9] == 't' && line[10] == 's' && line[11] == 'e' && line[12] == 'v' && line[13] == 'e' && line[14] == 'n' && line[15] == '2'
    requires ReplacePrefix(line, 6) == "498"
    ensures ReplacePrefix(line, 7) == "498"
  {
    var slice := line[6..];
    Differs(slice, "one", 0);
    Differs(slice, "two", 0);
    Differs(slice, "three", 0);
    Differs(slice, "four", 0);
    Differs(slice, "five", 0);
    Differs(slice, "six", 0);
    Differs(slice, "seven", 0);
    Differs(slice, "eight", 0);
    Differs(slice, "nine", 0);
  }

  lemma Replace4Nineeightseven2At7(line: string)
    requires |line| == 16 && line[0] == '4' && line[1] == 'n' && line[2] == 'i' && line[3] == 'n' && line[4] == 'e' && line[5] == 'e' && line[6] == 'i' && line[7] == 'g' && line[8] == 'h' && line[9] == 't' && line[10] == 's' && line[11] == 'e' && line[12] == 'v' && line[13] == 'e' && line[14] == 'n' && line[15] == '2'
    requires ReplacePrefix(line, 7) == "498"
    ensures ReplacePrefix(line, 8) == "498"
  {
    var slice := line[7..];
    Differs(slice, "one", 0);
    Differs(slice, "two", 0);
    Differs(slice, "three", 0);
    Differs(slice, "four", 0);
    Differs(slice, "five", 0);
    Differs(slice, "six", 0);
    Differs(slice, "seven", 0);
    Differs(slice, "eight", 0);
    Differs(slice, "nine", 0);
  }

  lemma Replace4Nineeightseven2At8(line: string)
    requires |line| == 16 && line[0] == '4' && line[1] == 'n' && line[2] == 'i' && line[3] == 'n' && line[4] == 'e' && line[5] == 'e' && line[6] == 'i' && line[7] == 'g' && line[8] == 'h' && line[9] == 't' && line[10] == 's' && line[11] == 'e' && line[12] == 'v' && line[13] == 'e' && line[14] == 'n' && line[15] == '2'
    requires ReplacePrefix(line, 8) == "498"
    ensures ReplacePrefix(line, 9) == "498"
  {
    var slice := line[8..];
    Differs(slice, "one", 0);
    Differs(slice, "two", 0);
    Differs(slice, "three", 0);
    Differs(slice, "four", 0);
    Differs(slice, "five", 0);
    Differs(slice, "six", 0);
    Differs(slice, "seven", 0);
    Differs(slice, "eight", 0);
    Differs(slice, "nine", 0);
  }

  lemma Replace4Nineeightseven2At9(line: string)
    requires |line| == 16 && line[0] == '4' && line[1] == 'n' && line[2] == 'i' && line[3] == 'n' && line[4] == 'e' && line[5] == 'e' && line[6] == 'i' && line[7] == 'g' && line[8] == 'h' && line[9] == 't' && line[10] == 's' && line[11] == 'e' && line[12] == 'v' && line[13] == 'e' && line[14] == 'n' && line[15] == '2'
    requires ReplacePrefix(line, 9) == "498"
    ensures ReplacePrefix(line, 10) == "498"
  {
    var slice := line[9..];
    Differs(slice, "one", 0);
    Differs(slice, "two", 1);
    Differs(slice, "three", 1);
    Differs(slice, "four", 0);
    Differs(slice, "five", 0);
    Differs(slice, "six", 0);
    Differs(slice, "seven", 0);
    Differs(slice, "eight", 0);
    Differs(slice, "nine", 0);
  }

  lemma Replace4Nineeightseven2At10(line: string)
    requires |line| == 16 && line[0] == '4' && line[1] == 'n' && line[2] == 'i' && line[3] == 'n' && line[4] == 'e' && line[5] == 'e' && line[6] == 'i' && line[7] == 'g' && line[8] == 'h' && line[9] == 't' && line[10] == 's' && line[11] == 'e' && line[12] == 'v' && line[13] == 'e' && line[14] == 'n' && line[15] == '2'
    requires ReplacePrefix(line, 10) == "498"
    ensures ReplacePrefix(line, 11) == "4987"
  {
    var slice := line[10..];
    Differs(slice, "one", 0);
    Differs(slice, "two", 0);
    Differs(slice, "three", 0);
    Differs(slice, "four", 0);
    Differs(slice, "five", 0);
    Differs(slice, "six", 1);
    assert slice[..5] == "seven";
  }

  lemma Replace4Nineeightseven2At11(line: string)
    requires |line| == 16 && line[0] == '4' && line[1] == 'n' && line[2] == 'i' && line[3] == 'n' && line[4] == 'e' && line[5] == 'e' && line[6] == 'i' && line[7] == 'g' && line[8] == 'h' && line[9] == 't' && line[10] == 's' && line[11] == 'e' && line[12] == 'v' && line[13] == 'e' && line[14] == 'n' && line[15] == '2'
    requires ReplacePrefix(line, 11) == "4987"
    ensures ReplacePrefix(line, 12) == "4987"
  {
    var slice := line[11..];
    Differs(slice, "one", 0);
    Differs(slice, "two", 0);
    Differs(slice, "three", 0);
    Differs(slice, "four", 0);
    Differs(slice, "five", 0);
    Differs(slice, "six", 0);
    Differs(slice, "seven", 0);
    Differs(slice, "eight", 1);
    Differs(slice, "nine", 0);
  }

  lemma Replace4Nineeightseven2At12(line: string)
    requires |line| == 16 && line[0] == '4' && line[1] == 'n' && line[2] == 'i' && line[3] == 'n' && line[4] == 'e' && line[5] == 'e' && line[6] == 'i' && line[7] == 'g' && line[8] == 'h' && line[9] == 't' && line[10] == 's' && line[11] == 'e' && line[12] == 'v' && line[13] == 'e' && line[14] == 'n' && line[15] == '2'
    requires ReplacePrefix(line, 12) == "4987"
    ensures ReplacePrefix(line, 13) == "4987"
  {
    var slice := line[12..];
    Differs(slice, "one", 0);
    Differs(slice, "two", 0);
    Differs(slice, "four", 0);
    Differs(slice, "five", 0);
    Differs(slice, "six", 0);
    Differs(slice, "nine", 0);
  }

  lemma Replace4Nineeightseven2At13(line: string)
    requires |line| == 16 && line[0] == '4' && line[1] == 'n' && line[2] == 'i' && line[3] == 'n' && line[4] == 'e' && line[5] == 'e' && line[6] == 'i' && line[7] == 'g' && line[8] == 'h' && line[9] == 't' && line[10] == 's' && line[11] == 'e' && line[12] == 'v' && line[13] == 'e' && line[14] == 'n' && line[15] == '2'
    requires ReplacePrefix(line, 13) == "4987"
    ensures ReplacePrefix(line, 14) == "4987"
  {
    var slice := line[13..];
    Differs(slice, "one", 0);
    Differs(slice, "two", 0);
    Differs(slice, "six", 0);
  }

  lemma Replace4Nineeightseven2At14(line: string)
    requires |line| == 16 && line[0] == '4' && line[1] == 'n' && line[2] == 'i' && line[3] == 'n' && line[4] == 'e' && line[5] == 'e' && line[6] == 'i' && line[7] == 'g' && line[8] == 'h' && line[9] == 't' && line[10] == 's' && line[11] == 'e' && line[12] == 'v' && line[13] == 'e' && line[14] == 'n' && line[15] == '2'
    requires ReplacePrefix(line, 14) == "4987"
    ensures ReplacePrefix(line, 15) == "4987"
  {
    var slice := line[14..];
  }

  lemma Replace4Nineeightseven2At15(line: string)
    requires |line| == 16 && line[0] == '4' && line[1] == 'n' && line[2] == 'i' && line[3] == 'n' && line[4] == 'e' && line[5] == 'e' && line[6] == 'i' && line[7] == 'g' && line[8] == 'h' && line[9] == 't' && line[10] == 's' && line[11] == 'e' && line[12] == 'v' && line[13] == 'e' && line[14] == 'n' && line[15] == '2'
    requires ReplacePrefix(line, 15) == "4987"
    ensures ReplacePrefix(line, 16) == "49872"
  {
    var slice := line[15..];
  }

  /** `replace_didgets("4nineeightseven2")` is "49872". */
  lemma Replace4Nineeightseven2(line: string)
    requires line == "4nineeightseven2"
    ensures ReplaceDigits(line) == "49872"
  {
    Replace4Nineeightseven2At0(line);
    Replace4Nineeightseven2At1(line);
    Replace4Nineeightseven2At2(line);
    Replace4Nineeightseven2At3(line);
    Replace4Nineeightseven2At4(line);
    Replace4Nineeightseven2At5(line);
    Replace4Nineeightseven2At6(line);
    Replace4Nineeightseven2At7(line);
    Replace4Nineeightseven2At8(line);
    Replace4Nineeightseven2At9(line);
    Replace4Nineeightseven2At10(line);
    Replace4Nineeightseven2At11(line);
    Replace4Nineeightseven2At12(line);
    Replace4Nineeightseven2At13(line);
    Replace4Nineeightseven2At14(line);
    Replace4Nineeightseven2At15(line);
  }

  /** `handel_line("49872")` is 42. */
  lemma Line49872(line: string)
    requires line == "49872"
    ensures HandelLine(line) == 42
  {
    HandelLineFirstLast(line, 0, 4);
  }

  /** Line "4nineeightseven2" is worth 42 in Part 2. */
  lemma Value4Nineeightseven2(line: string)
    requires line == "4nineeightseven2"
    ensures HandelLine(ReplaceDigits(line)) == 42
  {
    Replace4Nineeightseven2(line);
    Line49872(ReplaceDigits(line));
  }

  lemma ReplaceZoneight234At0(line: string)
    requires |line| == 11 && line[0] == 'z' && line[1] == 'o' && line[2] == 'n' && line[3] == 'e' && line[4] == 'i' && line[5] == 'g' && line[6] == 'h' && line[7] == 't' && line[8] == '2' && line[9] == '3' && line[10] == '4'
    requires ReplacePrefix(line, 0) == ""
    ensures ReplacePrefix(line, 1) == ""
  {
    var slice := line[0..];
    Differs(slice, "one", 0);
    Differs(slice, "two", 0);
    Differs(slice, "three", 0);
    Differs(slice, "four", 0);
    Differs(slice, "five", 0);
    Differs(slice, "six", 0);
    Differs(slice, "seven", 0);
    Differs(slice, "eight", 0);
    Differs(slice, "nine", 0);
  }

  lemma ReplaceZoneight234At1(line: string)
    requires |line| == 11 && line[0] == 'z' && line[1] == 'o' && line[2] == 'n' && line[3] == 'e' && line[4] == 'i' && line[5] == 'g' && line[6] == 'h' && line[7] == 't' && line[8] == '2' && line[9] == '3' && line[10] == '4'
    requires ReplacePrefix(line, 1) == ""
    ensures ReplacePrefix(line, 2) == "1"
  {
    var slice := line[1..];
    assert slice[..3] == "one";
  }

  lemma ReplaceZoneight234At2(line: string)
    requires |line| == 11 && line[0] == 'z' && line[1] == 'o' && line[2] == 'n' && line[3] == 'e' && line[4] == 'i' && line[5] == 'g' && line[6] == 'h' && line[7] == 't' && line[8] == '2' && line[9] == '3' && line[10] == '4'
    requires ReplacePrefix(line, 2) == "1"
    ensures ReplacePrefix(line, 3) == "1"
  {
    var slice := line[2..];
    Differs(slice, "one", 0);
    Differs(slice, "two", 0);
    Differs(slice, "three", 0);
    Differs(slice, "four", 0);
    Differs(slice, "five", 0);
    Differs(slice, "six", 0);
    Differs(slice, "seven", 0);
    Differs(slice, "eight", 0);
    Differs(slice, "nine", 1);
  }

  lemma ReplaceZoneight234At3(line: string)
    requires |line| == 11 && line[0] == 'z' && line[1] == 'o' && line[2] == 'n' && line[3] == 'e' && line[4] == 'i' && line[5] == 'g' && line[6] == 'h' && line[7] == 't' && line[8] == '2' && line[9] == '3' && line[10] == '4'
    requires ReplacePrefix(line, 3) == "1"
    ensures ReplacePrefix(line, 4) == "18"
  {
    var slice := line[3..];
    Differs(slice, "one", 0);
    Differs(slice, "two", 0);
    Differs(slice, "three", 0);
    Differs(slice, "four", 0);
    Differs(slice, "five", 0);
    Differs(slice, "six", 0);
    Differs(slice, "seven", 0);
    assert slice[..5] == "eight";
  }

  lemma ReplaceZoneight234At4(line: string)
    requires |line| == 11 && line[0] == 'z' && line[1] == 'o' && line[2] == 'n' && line[3] == 'e' && line[4] == 'i' && line[5] == 'g' && line[6] == 'h' && line[7] == 't' && line[8] == '2' && line[9] == '3' && line[10] == '4'
    requires ReplacePrefix(line, 4) == "18"
    ensures ReplacePrefix(line, 5) == "18"
  {
    var slice := line[4..];
    Differs(slice, "one", 0);
    Differs(slice, "two", 0);
    Differs(slice, "three", 0);
    Differs(slice, "four", 0);
    Differs(slice, "five", 0);
    Differs(slice, "six", 0);
    Differs(slice, "seven", 0);
    Differs(slice, "eight", 0);
    Differs(slice, "nine", 0);
  }

  lemma ReplaceZoneight234At5(line: string)
    requires |line| == 11 && line[0] == 'z' && line[1] == 'o' && line[2] == 'n' && line[3] == 'e' && line[4] == 'i' && line[5] == 'g' && line[6] == 'h' && line[7] == 't' && line[8] == '2' && line[9] == '3' && line[10] == '4'
    requires ReplacePrefix(line, 5) == "18"
    ensures ReplacePrefix(line, 6) == "18"
  {
    var slice := line[5..];
    Differs(slice, "one", 0);
    Differs(slice, "two", 0);
    Differs(slice, "three", 0);
    Differs(slice, "four", 0);
    Differs(slice, "five", 0);
    Differs(slice, "six", 0);
    Differs(slice, "seven", 0);
    Differs(slice, "eight", 0);
    Differs(slice, "nine", 0);
  }

  lemma ReplaceZoneight234At6(line: string)
    requires |line| == 11 && line[0] == 'z' && line[1] == 'o' && line[2] == 'n' && line[3] == 'e' && line[4] == 'i' && line[5] == 'g' && line[6] == 'h' && line[7] == 't' && line[8] == '2' && line[9] == '3' && line[10] == '4'
    requires ReplacePrefix(line, 6) == "18"
    ensures ReplacePrefix(line, 7) == "18"
  {
    var slice := line[6..];
    Differs(slice, "one", 0);
    Differs(slice, "two", 0);
    Differs(slice, "three", 0);
    Differs(slice, "four", 0);
    Differs(slice, "five", 0);
    Differs(slice, "six", 0);
    Differs(slice, "seven", 0);
    Differs(slice, "eight", 0);
    Differs(slice, "nine", 0);
  }

  lemma ReplaceZoneight234At7(line: string)
    requires |line| == 11 && line[0] == 'z' && line[1] == 'o' && line[2] == 'n' && line[3] == 'e' && line[4] == 'i' && line[5] == 'g' && line[6] == 'h' && line[7] == 't' && line[8] == '2' && line[9] == '3' && line[10] == '4'
    requires ReplacePrefix(line, 7) == "18"
    ensures ReplacePrefix(line, 8) == "18"
  {
    var slice := line[7..];
    Differs(slice, "one", 0);
    Differs(slice, "two", 1);
    Differs(slice, "four", 0);
    Differs(slice, "five", 0);
    Differs(slice, "six", 0);
    Differs(slice, "nine", 0);
  }

  lemma ReplaceZoneight234At8(line: string)
    requires |line| == 11 && line[0] == 'z' && line[1] == 'o' && line[2] == 'n' && line[3] == 'e' && line[4] == 'i' && line[5] == 'g' && line[6] == 'h' && line[7] == 't' && line[8] == '2' && line[9] == '3' && line[10] == '4'
    requires ReplacePrefix(line, 8) == "18"
    ensures ReplacePrefix(line, 9) == "182"
  {
    var slice := line[8..];
    Differs(slice, "one", 0);
    Differs(slice, "two", 0);
    Differs(slice, "six", 0);
  }

  lemma ReplaceZoneight234At9(line: string)
    requires |line| == 11 && line[0] == 'z' && line[1] == 'o' && line[2] == 'n' && line[3] == 'e' && line[4] == 'i' && line[5] == 'g' && line[6] == 'h' && line[7] == 't' && line[8] == '2' && line[9] == '3' && line[10] == '4'
    requires ReplacePrefix(line, 9) == "182"
    ensures ReplacePrefix(line, 10) == "1823"
  {
    var slice := line[9..];
  }

  lemma ReplaceZoneight234At10(line: string)
    requires |line| == 11 && line[0] == 'z' && line[1] == 'o' && line[2] == 'n' && line[3] == 'e' && line[4] == 'i' && line[5] == 'g' && line[6] == 'h' && line[7] == 't' && line[8] == '2' && line[9] == '3' && line[10] == '4'
    requires ReplacePrefix(line, 10) == "1823"
    ensures ReplacePrefix(line, 11) == "18234"
  {
    var slice := line[10..];
  }

  /** `replace_didgets("zoneight234")` is "18234". */
  lemma ReplaceZoneight234(line: string)
    requires line == "zoneight234"
    ensures ReplaceDigits(line) == "18234"
  {
    ReplaceZoneight234At0(line);
    ReplaceZoneight234At1(line);
    ReplaceZoneight234At2(line);
    ReplaceZoneight234At3(line);
    ReplaceZoneight234At4(line);
    ReplaceZoneight234At5(line);
    ReplaceZoneight234At6(line);
    ReplaceZoneight234At7(line);
    ReplaceZoneight234At8(line);
    ReplaceZoneight234At9(line);
    ReplaceZoneight234At10(line);
  }

  /** `handel_line("18234")` is 14. */
  lemma Line18234(line: string)
    requires line == "18234"
    ensures HandelLine(line) == 14
  {
    HandelLineFirstLast(line, 0, 4);
  }

  /** Line "zoneight234" is worth 14 in Part 2. */
  lemma ValueZoneight234(line: string)
    requires line == "zoneight234"
    ensures HandelLine(ReplaceDigits(line)) == 14
  {
    ReplaceZoneight234(line);
    Line18234(ReplaceDigits(line));
  }

  lemma Replace7PqrstsixteenAt0(line: string)
    requires |line| == 13 && line[0] == '7' && line[1] == 'p' && line[2] == 'q' && line[3] == 'r' && line[4] == 's' && line[5] == 't' && line[6] == 's' && line[7] == 'i' && line[8] == 'x' && line[9] == 't' && line[10] == 'e' && line[11] == 'e' && line[12] == 'n'
    requires ReplacePrefix(line, 0) == ""
    ensures ReplacePrefix(line, 1) == "7"
  {
    var slice := line[0..];
    Differs(slice, "one", 0);
    Differs(slice, "two", 0);
    Differs(slice, "three", 0);
    Differs(slice, "four", 0);
    Differs(slice, "five", 0);
    Differs(slice, "six", 0);
    Differs(slice, "seven", 0);
    Differs(slice, "eight", 0);
    Differs(slice, "nine", 0);
  }

  lemma Replace7PqrstsixteenAt1(line: string)
    requires |line| == 13 && line[0] == '7' && line[1] == 'p' && line[2] == 'q' && line[3] == 'r' && line[4] == 's' && line[5] == 't' && line[6] == 's' && line[7] == 'i' && line[8] == 'x' && line[9] == 't' && line[10] == 'e' && line[11] == 'e' && line[12] == 'n'
    requires ReplacePrefix(line, 1) == "7"
    ensures ReplacePrefix(line, 2) == "7"
  {
    var slice := line[1..];
    Differs(slice, "one", 0);
    Differs(slice, "two", 0);
    Differs(slice, "three", 0);
    Differs(slice, "four", 0);
    Differs(slice, "five", 0);
    Differs(slice, "six", 0);
    Differs(slice, "seven", 0);
    Differs(slice, "eight", 0);
    Differs(slice, "nine", 0);
  }

  lemma Replace7PqrstsixteenAt2(line: string)
    requires |line| == 13 && line[0] == '7' && line[1] == 'p' && line[2] == 'q' && line[3] == 'r' && line[4] == 's' && line[5] == 't' && line[6] == 's' && line[7] == 'i' && line[8] == 'x' && line[9] == 't' && line[10] == 'e' && line[11] == 'e' && line[12] == 'n'
    requires ReplacePrefix(line, 2) == "7"
    ensures ReplacePrefix(line, 3) == "7"
  {
    var slice := line[2..];
    Differs(slice, "one", 0);
    Differs(slice, "two", 0);
    Differs(slice, "three", 0);
    Differs(slice, "four", 0);
    Differs(slice, "five", 0);
    Differs(slice, "six", 0);
    Differs(slice, "seven", 0);
    Differs(slice, "eight", 0);
    Differs(slice, "nine", 0);
  }

  lemma Replace7PqrstsixteenAt3(line: string)
    requires |line| == 13 && line[0] == '7' && line[1] == 'p' && line[2] == 'q' && line[3] == 'r' && line[4] == 's' && line[5] == 't' && line[6] == 's' && line[7] == 'i' && line[8] == 'x' && line[9] == 't' && line[10] == 'e' && line[11] == 'e' && line[12] == 'n'
    requires ReplacePrefix(line, 3) == "7"
    ensures ReplacePrefix(line, 4) == "7"
  {
    var slice := line[3..];
    Differs(slice, "one", 0);
    Differs(slice, "two", 0);
    Differs(slice, "three", 0);
    Differs(slice, "four", 0);
    Differs(slice, "five", 0);
    Differs(slice, "six", 0);
    Differs(slice, "seven", 0);
    Differs(slice, "eight", 0);
    Differs(slice, "nine", 0);
  }

  lemma Replace7PqrstsixteenAt4(line: string)
    requires |line| == 13 && line[0] == '7' && line[1] == 'p' && line[2] == 'q' && line[3] == 'r' && line[4] == 's' && line[5] == 't' && line[6] == 's' && line[7] == 'i' && line[8] == 'x' && line[9] == 't' && line[10] == 'e' && line[11] == 'e' && line[12] == 'n'
    requires ReplacePrefix(line, 4) == "7"
    ensures ReplacePrefix(line, 5) == "7"
  {
    var slice := line[4..];
    Differs(slice, "one", 0);
    Differs(slice, "two", 0);
    Differs(slice, "three", 0);
    Differs(slice, "four", 0);
    Differs(slice, "five", 0);
    Differs(slice, "six", 1);
    Differs(slice, "seven", 1);
    Differs(slice, "eight", 0);
    Differs(slice, "nine", 0);
  }

  lemma Replace7PqrstsixteenAt5(line: string)
    requires |line| == 13 && line[0] == '7' && line[1] == 'p' && line[2] == 'q' && line[3] == 'r' && line[4] == 's' && line[5] == 't' && line[6] == 's' && line[7] == 'i' && line[8] == 'x' && line[9] == 't' && line[10] == 'e' && line[11] == 'e' && line[12] == 'n'
    requires ReplacePrefix(line, 5) == "7"
    ensures ReplacePrefix(line, 6) == "7"
  {
    var slice := line[5..];
    Differs(slice, "one", 0);
    Differs(slice, "two", 1);
    Differs(slice, "three", 1);
    Differs(slice, "four", 0);
    Differs(slice, "five", 0);
    Differs(slice, "six", 0);
    Differs(slice, "seven", 0);
    Differs(slice, "eight", 0);
    Differs(slice, "nine", 0);
  }

  lemma Replace7PqrstsixteenAt6(line: string)
    requires |line| == 13 && line[0] == '7' && line[1] == 'p' && line[2] == 'q' && line[3] == 'r' && line[4] == 's' && line[5] == 't' && line[6] == 's' && line[7] == 'i' && line[8] == 'x' && line[9] == 't' && line[10] == 'e' && line[11] == 'e' && line[12] == 'n'
    requires ReplacePrefix(line, 6) == "7"
    ensures ReplacePrefix(line, 7) == "76"
  {
    var slice := line[6..];
    Differs(slice, "one", 0);
    Differs(slice, "two", 0);
    Differs(slice, "three", 0);
    Differs(slice, "four", 0);
    Differs(slice, "five", 0);
    assert slice[..3] == "six";
  }

  lemma Replace7PqrstsixteenAt7(line: string)
    requires |line| == 13 && line[0] == '7' && line[1] == 'p' && line[2] == 'q' && line[3] == 'r' && line[4] == 's' && line[5] == 't' && line[6] == 's' && line[7] == 'i' && line[8] == 'x' && line[9] == 't' && line[10] == 'e' && line[11] == 'e' && line[12] == 'n'
    requires ReplacePrefix(line, 7) == "76"
    ensures ReplacePrefix(line, 8) == "76"
  {
    var slice := line[7..];
    Differs(slice, "one", 0);
    Differs(slice, "two", 0);
    Differs(slice, "three", 0);
    Differs(slice, "four", 0);
    Differs(slice, "five", 0);
    Differs(slice, "six", 0);
    Differs(slice, "seven", 0);
    Differs(slice, "eight", 0);
    Differs(slice, "nine", 0);
  }

  lemma Replace7PqrstsixteenAt8(line: string)
    requires |line| == 13 && line[0] == '7' && line[1] == 'p' && line[2] == 'q' && line[3] == 'r' && line[4] == 's' && line[5] == 't' && line[6] == 's' && line[7] == 'i' && line[8] == 'x' && line[9] == 't' && line[10] == 'e' && line[11] == 'e' && line[12] == 'n'
    requires ReplacePrefix(line, 8) == "76"
    ensures ReplacePrefix(line, 9) == "76"
  {
    var slice := line[8..];
    Differs(slice, "one", 0);
    Differs(slice, "two", 0);
    Differs(slice, "three", 0);
    Differs(slice, "four", 0);
    Differs(slice, "five", 0);
    Differs(slice, "six", 0);
    Differs(slice, "seven", 0);
    Differs(slice, "eight", 0);
    Differs(slice, "nine", 0);
  }

  lemma Replace7PqrstsixteenAt9(line: string)
    requires |line| == 13 && line[0] == '7' && line[1] == 'p' && line[2] == 'q' && line[3] == 'r' && line[4] == 's' && line[5] == 't' && line[6] == 's' && line[7] == 'i' && line[8] == 'x' && line[9] == 't' && line[10] == 'e' && line[11] == 'e' && line[12] == 'n'
    requires ReplacePrefix(line, 9) == "76"
    ensures ReplacePrefix(line, 10) == "76"
  {
    var slice := line[9..];
    Differs(slice, "one", 0);
    Differs(slice, "two", 1);
    Differs(slice, "four", 0);
    Differs(slice, "five", 0);
    Differs(slice, "six", 0);
    Differs(slice, "nine", 0);
  }

  lemma Replace7PqrstsixteenAt10(line: string)
    requires |line| == 13 && line[0] == '7' && line[1] == 'p' && line[2] == 'q' && line[3] == 'r' && line[4] == 's' && line[5] == 't' && line[6] == 's' && line[7] == 'i' && line[8] == 'x' && line[9] == 't' && line[10] == 'e' && line[11] == 'e' && line[12] == 'n'
    requires ReplacePrefix(line, 10) == "76"
    ensures ReplacePrefix(line, 11) == "76"
  {
    var slice := line[10..];
    Differs(slice, "one", 0);
    Differs(slice, "two", 0);
    Differs(slice, "six", 0);
  }

  lemma Replace7PqrstsixteenAt11(line: string)
    requires |line| == 13 && line[0] == '7' && line[1] == 'p' && line[2] == 'q' && line[3] == 'r' && line[4] == 's' && line[5] == 't' && line[6] == 's' && line[7] == 'i' && line[8] == 'x' && line[9] == 't' && line[10] == 'e' && line[11] == 'e' && line[12] == 'n'
    requires ReplacePrefix(line, 11) == "76"
    ensures ReplacePrefix(line, 12) == "76"
  {
    var slice := line[11..];
  }

  lemma Replace7PqrstsixteenAt12(line: string)
    requires |line| == 13 && line[0] == '7' && line[1] == 'p' && line[2] == 'q' && line[3] == 'r' && line[4] == 's' && line[5] == 't' && line[6] == 's' && line[7] == 'i' && line[8] == 'x' && line[9] == 't' && line[10] == 'e' && line[11] == 'e' && line[12] == 'n'
    requires ReplacePrefix(line, 12) == "76"
    ensures ReplacePrefix(line, 13) == "76"
  {
    var slice := line[12..];
  }

  /** `replace_didgets("7pqrstsixteen")` is "76". */
  lemma Replace7Pqrstsixteen(line: string)
    requires line == "7pqrstsixteen"
    ensures ReplaceDigits(line) == "76"
  {
    Replace7PqrstsixteenAt0(line);
    Replace7PqrstsixteenAt1(line);
    Replace7PqrstsixteenAt2(line);
    Replace7PqrstsixteenAt3(line);
    Replace7PqrstsixteenAt4(line);
    Replace7PqrstsixteenAt5(line);
    Replace7PqrstsixteenAt6(line);
    Replace7PqrstsixteenAt7(line);
    Replace7PqrstsixteenAt8(line);
    Replace7PqrstsixteenAt9(line);
    Replace7PqrstsixteenAt10(line);
    Replace7PqrstsixteenAt11(line);
    Replace7PqrstsixteenAt12(line);
  }

  /** `handel_line("76")` is 76. */
  lemma Line76(line: string)
    requires line == "76"
    ensures HandelLine(line) == 76
  {
    HandelLineFirstLast(line, 0, 1);
  }

  /** Line "7pqrstsixteen" is worth 76 in Part 2. */
  lemma Value7Pqrstsixteen(line: string)
    requires line == "7pqrstsixteen"
    ensures HandelLine(ReplaceDigits(line)) == 76
  {
    Replace7Pqrstsixteen(line);
    Line76(ReplaceDigits(line));
  }

  /** The Part 2 test `sample`: `find_calibration_value` gives 281. */
  lemma Part2Sample(input: seq<string>)
    requires |input| == 7
    requires input[0] == "two1nine"
    requires input[1] == "eightwothree"
    requires input[2] == "abcone2threexyz"
    requires input[3] == "xtwone3four"
    requires input[4] == "4nineeightseven2"
    requires input[5] == "zoneight234"
    requires input[6] == "7pqrstsixteen"
    ensures SumReplaced(input) == 281
  {
    Part2SampleHead(input);
    Part2SampleTail(input);
  }

  /** The last three sample lines add 42 + 14 + 76 to the first four. */
  lemma Part2SampleTail(input: seq<string>)
    requires |input| == 7 && SumReplaced(input[..4]) == 149
    requires input[4] == "4nineeightseven2"
    requires input[5] == "zoneight234"
    requires input[6] == "7pqrstsixteen"
    ensures SumReplaced(input) == 281
  {
    Value4Nineeightseven2(input[4]);
    SumReplacedAdvance(input, 4, 149, 42);
    ValueZoneight234(input[5]);
    SumReplacedAdvance(input, 5, 191, 14);
    Value7Pqrstsixteen(input[6]);
    SumReplacedAdvance(input, 6, 205, 76);
    assert input[..7] == input;
  }

  lemma ReplaceTrebuchetAt0(line: string)
    requires |line| == 9 && line[0] == 't' && line[1] == 'r' && line[2] == 'e' && line[3] == 'b' && line[4] == 'u' && line[5] == 'c' && line[6] == 'h' && line[7] == 'e' && line[8] == 't'
    requires ReplacePrefix(line, 0) == ""
    ensures ReplacePrefix(line, 1) == ""
  {
    var slice := line[0..];
    Differs(slice, "one", 0);
    Differs(slice, "two", 1);
    Differs(slice, "three", 1);
    Differs(slice, "four", 0);
    Differs(slice, "five", 0);
    Differs(slice, "six", 0);
    Differs(slice, "seven", 0);
    Differs(slice, "eight", 0);
    Differs(slice, "nine", 0);
  }

  lemma ReplaceTrebuchetAt1(line: string)
    requires |line| == 9 && line[0] == 't' && line[1] == 'r' && line[2] == 'e' && line[3] == 'b' && line[4] == 'u' && line[5] == 'c' && line[6] == 'h' && line[7] == 'e' && line[8] == 't'
    requires ReplacePrefix(line, 1) == ""
    ensures ReplacePrefix(line, 2) == ""
  {
    var slice := line[1..];
    Differs(slice, "one", 0);
    Differs(slice, "two", 0);
    Differs(slice, "three", 0);
    Differs(slice, "four", 0);
    Differs(slice, "five", 0);
    Differs(slice, "six", 0);
    Differs(slice, "seven", 0);
    Differs(slice, "eight", 0);
    Differs(slice, "nine", 0);
  }

  lemma ReplaceTrebuchetAt2(line: string)
    requires |line| == 9 && line[0] == 't' && line[1] == 'r' && line[2] == 'e' && line[3] == 'b' && line[4] == 'u' && line[5] == 'c' && line[6] == 'h' && line[7] == 'e' && line[8] == 't'
    requires ReplacePrefix(line, 2) == ""
    ensures ReplacePrefix(line, 3) == ""
  {
    var slice := line[2..];
    Differs(slice, "one", 0);
    Differs(slice, "two", 0);
    Differs(slice, "three", 0);
    Differs(slice, "four", 0);
    Differs(slice, "five", 0);
    Differs(slice, "six", 0);
    Differs(slice, "seven", 0);
    Differs(slice, "eight", 1);
    Differs(slice, "nine", 0);
  }

  lemma ReplaceTrebuchetAt3(line: string)
    requires |line| == 9 && line[0] == 't' && line[1] == 'r' && line[2] == 'e' && line[3] == 'b' && line[4] == 'u' && line[5] == 'c' && line[6] == 'h' && line[7] == 'e' && line[8] == 't'
    requires ReplacePrefix(line, 3) == ""
    ensures ReplacePrefix(line, 4) == ""
  {
    var slice := line[3..];
    Differs(slice, "one", 0);
    Differs(slice, "two", 0);
    Differs(slice, "three", 0);
    Differs(slice, "four", 0);
    Differs(slice, "five", 0);
    Differs(slice, "six", 0);
    Differs(slice, "seven", 0);
    Differs(slice, "eight", 0);
    Differs(slice, "nine", 0);
  }

  lemma ReplaceTrebuchetAt4(line: string)
    requires |line| == 9 && line[0] == 't' && line[1] == 'r' && line[2] == 'e' && line[3] == 'b' && line[4] == 'u' && line[5] == 'c' && line[6] == 'h' && line[7] == 'e' && line[8] == 't'
    requires ReplacePrefix(line, 4) == ""
    ensures ReplacePrefix(line, 5) == ""
  {
    var slice := line[4..];
    Differs(slice, "one", 0);
    Differs(slice, "two", 0);
    Differs(slice, "three", 0);
    Differs(slice, "four", 0);
    Differs(slice, "five", 0);
    Differs(slice, "six", 0);
    Differs(slice, "seven", 0);
    Differs(slice, "eight", 0);
    Differs(slice, "nine", 0);
  }

  lemma ReplaceTrebuchetAt5(line: string)
    requires |line| == 9 && line[0] == 't' && line[1] == 'r' && line[2] == 'e' && line[3] == 'b' && line[4] == 'u' && line[5] == 'c' && line[6] == 'h' && line[7] == 'e' && line[8] == 't'
    requires ReplacePrefix(line, 5) == ""
    ensures ReplacePrefix(line, 6) == ""
  {
    var slice := line[5..];
    Differs(slice, "one", 0);
    Differs(slice, "two", 0);
    Differs(slice, "four", 0);
    Differs(slice, "five", 0);
    Differs(slice, "six", 0);
    Differs(slice, "nine", 0);
  }

  lemma ReplaceTrebuchetAt6(line: string)
    requires |line| == 9 && line[0] == 't' && line[1] == 'r' && line[2] == 'e' && line[3] == 'b' && line[4] == 'u' && line[5] == 'c' && line[6] == 'h' && line[7] == 'e' && line[8] == 't'
    requires ReplacePrefix(line, 6) == ""
    ensures ReplacePrefix(line, 7) == ""
  {
    var slice := line[6..];
    Differs(slice, "one", 0);
    Differs(slice, "two", 0);
    Differs(slice, "six", 0);
  }

  lemma ReplaceTrebuchetAt7(line: string)
    requires |line| == 9 && line[0] == 't' && line[1] == 'r' && line[2] == 'e' && line[3] == 'b' && line[4] == 'u' && line[5] == 'c' && line[6] == 'h' && line[7] == 'e' && line[8] == 't'
    requires ReplacePrefix(line, 7) == ""
    ensures ReplacePrefix(line, 8) == ""
  {
    var slice := line[7..];
  }

  lemma ReplaceTrebuchetAt8(line: string)
    requires |line| == 9 && line[0] == 't' && line[1] == 'r' && line[2] == 'e' && line[3] == 'b' && line[4] == 'u' && line[5] == 'c' && line[6] == 'h' && line[7] == 'e' && line[8] == 't'
    requires ReplacePrefix(line, 8) == ""
    ensures ReplacePrefix(line, 9) == ""
  {
    var slice := line[8..];
  }

  /** `replace_didgets("trebuchet")` is "". */
  lemma ReplaceTrebuchet(line: string)
    requires line == "trebuchet"
    ensures ReplaceDigits(line) == ""
  {
    ReplaceTrebuchetAt0(line);
    ReplaceTrebuchetAt1(line);
    ReplaceTrebuchetAt2(line);
    ReplaceTrebuchetAt3(line);
    ReplaceTrebuchetAt4(line);
    ReplaceTrebuchetAt5(line);
    ReplaceTrebuchetAt6(line);
    ReplaceTrebuchetAt7(line);
    ReplaceTrebuchetAt8(line);
  }

  /** `handel_line("")` is 0. */
  lemma Line(line: string)
    requires |line| == 0
    ensures HandelLine(line) == 0
  {
    HandelLineNoDigits(line);
  }

  /** Line "trebuchet" is worth 0 in Part 2. */
  lemma ValueTrebuchet(line: string)
    requires line == "trebuchet"
    ensures HandelLine(ReplaceDigits(line)) == 0
  {
    ReplaceTrebuchet(line);
    Line(ReplaceDigits(line));
  }

  /** The Part 2 test `none`: `find_calibration_value` gives 0. */
  lemma Part2None(input: seq<string>)
    requires |input| == 1
    requires input[0] == "trebuchet"
    ensures SumReplaced(input) == 0
  {
    assert input[..0] == [];
    ValueTrebuchet(input[0]);
    SumReplacedAdvance(input, 0, 0, 0);
    assert input[..1] == input;
  }

  lemma ReplaceTreb7UchetAt0(line: string)
    requires |line| == 10 && line[0] == 't' && line[1] == 'r' && line[2] == 'e' && line[3] == 'b' && line[4] == '7' && line[5] == 'u' && line[6] == 'c' && line[7] == 'h' && line[8] == 'e' && line[9] == 't'
    requires ReplacePrefix(line, 0) == ""
    ensures ReplacePrefix(line, 1) == ""
  {
    var slice := line[0..];
    Differs(slice, "one", 0);
    Differs(slice, "two", 1);
    Differs(slice, "three", 1);
    Differs(slice, "four", 0);
    Differs(slice, "five", 0);
    Differs(slice, "six", 0);
    Differs(slice, "seven", 0);
    Differs(slice, "eight", 0);
    Differs(slice, "nine", 0);
  }

  lemma ReplaceTreb7UchetAt1(line: string)
    requires |line| == 10 && line[0] == 't' && line[1] == 'r' && line[2] == 'e' && line[3] == 'b' && line[4] == '7' && line[5] == 'u' && line[6] == 'c' && line[7] == 'h' && line[8] == 'e' && line[9] == 't'
    requires ReplacePrefix(line, 1) == ""
    ensures ReplacePrefix(line, 2) == ""
  {
    var slice := line[1..];
    Differs(slice, "one", 0);
    Differs(slice, "two", 0);
    Differs(slice, "three", 0);
    Differs(slice, "four", 0);
    Differs(slice, "five", 0);
    Differs(slice, "six", 0);
    Differs(slice, "seven", 0);
    Differs(slice, "eight", 0);
    Differs(slice, "nine", 0);
  }

  lemma ReplaceTreb7UchetAt2(line: string)
    requires |line| == 10 && line[0] == 't' && line[1] == 'r' && line[2] == 'e' && line[3] == 'b' && line[4] == '7' && line[5] == 'u' && line[6] == 'c' && line[7] == 'h' && line[8] == 'e' && line[9] == 't'
    requires ReplacePrefix(line, 2) == ""
    ensures ReplacePrefix(line, 3) == ""
  {
    var slice := line[2..];
    Differs(slice, "one", 0);
    Differs(slice, "two", 0);
    Differs(slice, "three", 0);
    Differs(slice, "four", 0);
    Differs(slice, "five", 0);
    Differs(slice, "six", 0);
    Differs(slice, "seven", 0);
    Differs(slice, "eight", 1);
    Differs(slice, "nine", 0);
  }

  lemma ReplaceTreb7UchetAt3(line: string)
    requires |line| == 10 && line[0] == 't' && line[1] == 'r' && line[2] == 'e' && line[3] == 'b' && line[4] == '7' && line[5] == 'u' && line[6] == 'c' && line[7] == 'h' && line[8] == 'e' && line[9] == 't'
    requires ReplacePrefix(line, 3) == ""
    ensures ReplacePrefix(line, 4) == ""
  {
    var slice := line[3..];
    Differs(slice, "one", 0);
    Differs(slice, "two", 0);
    Differs(slice, "three", 0);
    Differs(slice, "four", 0);
    Differs(slice, "five", 0);
    Differs(slice, "six", 0);
    Differs(slice, "seven", 0);
    Differs(slice, "eight", 0);
    Differs(slice, "nine", 0);
  }

  lemma ReplaceTreb7UchetAt4(line: string)
    requires |line| == 10 && line[0] == 't' && line[1] == 'r' && line[2] == 'e' && line[3] == 'b' && line[4] == '7' && line[5] == 'u' && line[6] == 'c' && line[7] == 'h' && line[8] == 'e' && line[9] == 't'
    requires ReplacePrefix(line, 4) == ""
    ensures ReplacePrefix(line, 5) == "7"
  {
    var slice := line[4..];
    Differs(slice, "one", 0);
    Differs(slice, "two", 0);
    Differs(slice, "three", 0);
    Differs(slice, "four", 0);
    Differs(slice, "five", 0);
    Differs(slice, "six", 0);
    Differs(slice, "seven", 0);
    Differs(slice, "eight", 0);
    Differs(slice, "nine", 0);
  }

  lemma ReplaceTreb7UchetAt5(line: string)
    requires |line| == 10 && line[0] == 't' && line[1] == 'r' && line[2] == 'e' && line[3] == 'b' && line[4] == '7' && line[5] == 'u' && line[6] == 'c' && line[7] == 'h' && line[8] == 'e' && line[9] == 't'
    requires ReplacePrefix(line, 5) == "7"
    ensures ReplacePrefix(line, 6) == "7"
  {
    var slice := line[5..];
    Differs(slice, "one", 0);
    Differs(slice, "two", 0);
    Differs(slice, "three", 0);
    Differs(slice, "four", 0);
    Differs(slice, "five", 0);
    Differs(slice, "six", 0);
    Differs(slice, "seven", 0);
    Differs(slice, "eight", 0);
    Differs(slice, "nine", 0);
  }

  lemma ReplaceTreb7UchetAt6(line: string)
    requires |line| == 10 && line[0] == 't' && line[1] == 'r' && line[2] == 'e' && line[3] == 'b' && line[4] == '7' && line[5] == 'u' && line[6] == 'c' && line[7] == 'h' && line[8] == 'e' && line[9] == 't'
    requires ReplacePrefix(line, 6) == "7"
    ensures ReplacePrefix(line, 7) == "7"
  {
    var slice := line[6..];
    Differs(slice, "one", 0);
    Differs(slice, "two", 0);
    Differs(slice, "four", 0);
    Differs(slice, "five", 0);
    Differs(slice, "six", 0);
    Differs(slice, "nine", 0);
  }

  lemma ReplaceTreb7UchetAt7(line: string)
    requires |line| == 10 && line[0] == 't' && line[1] == 'r' && line[2] == 'e' && line[3] == 'b' && line[4] == '7' && line[5] == 'u' && line[6] == 'c' && line[7] == 'h' && line[8] == 'e' && line[9] == 't'
    requires ReplacePrefix(line, 7) == "7"
    ensures ReplacePrefix(line, 8) == "7"
  {
    var slice := line[7..];
    Differs(slice, "one", 0);
    Differs(slice, "two", 0);
    Differs(slice, "six", 0);
  }

  lemma ReplaceTreb7UchetAt8(line: string)
    requires |line| == 10 && line[0] == 't' && line[1] == 'r' && line[2] == 'e' && line[3] == 'b' && line[4] == '7' && line[5] == 'u' && line[6] == 'c' && line[7] == 'h' && line[8] == 'e' && line[9] == 't'
    requires ReplacePrefix(line, 8) == "7"
    ensures ReplacePrefix(line, 9) == "7"
  {
    var slice := line[8..];
  }

  lemma ReplaceTreb7UchetAt9(line: string)
    requires |line| == 10 && line[0] == 't' && line[1] == 'r' && line[2] == 'e' && line[3] == 'b' && line[4] == '7' && line[5] == 'u' && line[6] == 'c' && line[7] == 'h' && line[8] == 'e' && line[9] == 't'
    requires ReplacePrefix(line, 9) == "7"
    ensures ReplacePrefix(line, 10) == "7"
  {
    var slice := line[9..];
  }

  /** `replace_didgets("treb7uchet")` is "7". */
  lemma ReplaceTreb7Uchet(line: string)
    requires line == "treb7uchet"
    ensures ReplaceDigits(line) == "7"
  {
    ReplaceTreb7UchetAt0(line);
    ReplaceTreb7UchetAt1(line);
    ReplaceTreb7UchetAt2(line);
    ReplaceTreb7UchetAt3(line);
    ReplaceTreb7UchetAt4(line);
    ReplaceTreb7UchetAt5(line);
    ReplaceTreb7UchetAt6(line);
    ReplaceTreb7UchetAt7(line);
    ReplaceTreb7UchetAt8(line);
    ReplaceTreb7UchetAt9(line);
  }

  /** `handel_line("7")` is 77. */
  lemma Line7(line: string)
    requires line == "7"
    ensures HandelLine(line) == 77
  {
    HandelLineFirstLast(line, 0, 0);
  }

  /** Line "treb7uchet" is worth 77 in Part 2. */
  lemma ValueTreb7Uchet(line: string)
    requires line == "treb7uchet"
    ensures HandelLine(ReplaceDigits(line)) == 77
  {
    ReplaceTreb7Uchet(line);
    Line7(ReplaceDigits(line));
  }

  /** The Part 2 test `one_num`: `find_calibration_value` gives 77. */
  lemma Part2OneNum(input: seq<string>)
    requires |input| == 1
    requires input[0] == "treb7uchet"
    ensures SumReplaced(input) == 77
  {
    assert input[..0] == [];
    ValueTreb7Uchet(input[0]);
    SumReplacedAdvance(input, 0, 0, 77);
    assert input[..1] == input;
  }

  lemma ReplaceThreeightwothreeAt0(line: string)
    requires |line| == 16 && line[0] == 't' && line[1] == 'h' && line[2] == 'r' && line[3] == 'e' && line[4] == 'e' && line[5] == 'i' && line[6] == 'g' && line[7] == 'h' && line[8] == 't' && line[9] == 'w' && line[10] == 'o' && line[11] == 't' && line[12] == 'h' && line[13] == 'r' && line[14] == 'e' && line[15] == 'e'
    requires ReplacePrefix(line, 0) == ""
    ensures ReplacePrefix(line, 1) == "3"
  {
    var slice := line[0..];
    Differs(slice, "one", 0);
    Differs(slice, "two", 1);
    assert slice[..5] == "three";
  }

  lemma ReplaceThreeightwothreeAt1(line: string)
    requires |line| == 16 && line[0] == 't' && line[1] == 'h' && line[2] == 'r' && line[3] == 'e' && line[4] == 'e' && line[5] == 'i' && line[6] == 'g' && line[7] == 'h' && line[8] == 't' && line[9] == 'w' && line[10] == 'o' && line[11] == 't' && line[12] == 'h' && line[13] == 'r' && line[14] == 'e' && line[15] == 'e'
    requires ReplacePrefix(line, 1) == "3"
    ensures ReplacePrefix(line, 2) == "3"
  {
    var slice := line[1..];
    Differs(slice, "one", 0);
    Differs(slice, "two", 0);
    Differs(slice, "three", 0);
    Differs(slice, "four", 0);
    Differs(slice, "five", 0);
    Differs(slice, "six", 0);
    Differs(slice, "seven", 0);
    Differs(slice, "eight", 0);
    Differs(slice, "nine", 0);
  }

  lemma ReplaceThreeightwothreeAt2(line: string)
    requires |line| == 16 && line[0] == 't' && line[1] == 'h' && line[2] == 'r' && line[3] == 'e' && line[4] == 'e' && line[5] == 'i' && line[6] == 'g' && line[7] == 'h' && line[8] == 't' && line[9] == 'w' && line[10] == 'o' && line[11] == 't' && line[12] == 'h' && line[13] == 'r' && line[14] == 'e' && line[15] == 'e'
    requires ReplacePrefix(line, 2) == "3"
    ensures ReplacePrefix(line, 3) == "3"
  {
    var slice := line[2..];
    Differs(slice, "one", 0);
    Differs(slice, "two", 0);
    Differs(slice, "three", 0);
    Differs(slice, "four", 0);
    Differs(slice, "five", 0);
    Differs(slice, "six", 0);
    Differs(slice, "seven", 0);
    Differs(slice, "eight", 0);
    Differs(slice, "nine", 0);
  }

  lemma ReplaceThreeightwothreeAt3(line: string)
    requires |line| == 16 && line[0] == 't' && line[1] == 'h' && line[2] == 'r' && line[3] == 'e' && line[4] == 'e' && line[5] == 'i' && line[6] == 'g' && line[7] == 'h' && line[8] == 't' && line[9] == 'w' && line[10] == 'o' && line[11] == 't' && line[12] == 'h' && line[13] == 'r' && line[14] == 'e' && line[15] == 'e'
    requires ReplacePrefix(line, 3) == "3"
    ensures ReplacePrefix(line, 4) == "3"
  {
    var slice := line[3..];
    Differs(slice, "one", 0);
    Differs(slice, "two", 0);
    Differs(slice, "three", 0);
    Differs(slice, "four", 0);
    Differs(slice, "five", 0);
    Differs(slice, "six", 0);
    Differs(slice, "seven", 0);
    Differs(slice, "eight", 1);
    Differs(slice, "nine", 0);
  }

  lemma ReplaceThreeightwothreeAt4(line: string)
    requires |line| == 16 && line[0] == 't' && line[1] == 'h' && line[2] == 'r' && line[3] == 'e' && line[4] == 'e' && line[5] == 'i' && line[6] == 'g' && line[7] == 'h' && line[8] == 't' && line[9] == 'w' && line[10] == 'o' && line[11] == 't' && line[12] == 'h' && line[13] == 'r' && line[14] == 'e' && line[15] == 'e'
    requires ReplacePrefix(line, 4) == "3"
    ensures ReplacePrefix(line, 5) == "38"
  {
    var slice := line[4..];
    Differs(slice, "one", 0);
    Differs(slice, "two", 0);
    Differs(slice, "three", 0);
    Differs(slice, "four", 0);
    Differs(slice, "five", 0);
    Differs(slice, "six", 0);
    Differs(slice, "seven", 0);
    assert slice[..5] == "eight";
  }

  lemma ReplaceThreeightwothreeAt5(line: string)
    requires |line| == 16 && line[0] == 't' && line[1] == 'h' && line[2] == 'r' && line[3] == 'e' && line[4] == 'e' && line[5] == 'i' && line[6] == 'g' && line[7] == 'h' && line[8] == 't' && line[9] == 'w' && line[10] == 'o' && line[11] == 't' && line[12] == 'h' && line[13] == 'r' && line[14] == 'e' && line[15] == 'e'
    requires ReplacePrefix(line, 5) == "38"
    ensures ReplacePrefix(line, 6) == "38"
  {
    var slice := line[5..];
    Differs(slice, "one", 0);
    Differs(slice, "two", 0);
    Differs(slice, "three", 0);
    Differs(slice, "four", 0);
    Differs(slice, "five", 0);
    Differs(slice, "six", 0);
    Differs(slice, "seven", 0);
    Differs(slice, "eight", 0);
    Differs(slice, "nine", 0);
  }

  lemma ReplaceThreeightwothreeAt6(line: string)
    requires |line| == 16 && line[0] == 't' && line[1] == 'h' && line[2] == 'r' && line[3] == 'e' && line[4] == 'e' && line[5] == 'i' && line[6] == 'g' && line[7] == 'h' && line[8] == 't' && line[9] == 'w' && line[10] == 'o' && line[11] == 't' && line[12] == 'h' && line[13] == 'r' && line[14] == 'e' && line[15] == 'e'
    requires ReplacePrefix(line, 6) == "38"
    ensures ReplacePrefix(line, 7) == "38"
  {
    var slice := line[6..];
    Differs(slice, "one", 0);
    Differs(slice, "two", 0);
    Differs(slice, "three", 0);
    Differs(slice, "four", 0);
    Differs(slice, "five", 0);
    Differs(slice, "six", 0);
    Differs(slice, "seven", 0);
    Differs(slice, "eight", 0);
    Differs(slice, "nine", 0);
  }

  lemma ReplaceThreeightwothreeAt7(line: string)
    requires |line| == 16 && line[0] == 't' && line[1] == 'h' && line[2] == 'r' && line[3] == 'e' && line[4] == 'e' && line[5] == 'i' && line[6] == 'g' && line[7] == 'h' && line[8] == 't' && line[9] == 'w' && line[10] == 'o' && line[11] == 't' && line[12] == 'h' && line[13] == 'r' && line[14] == 'e' && line[15] == 'e'
    requires ReplacePrefix(line, 7) == "38"
    ensures ReplacePrefix(line, 8) == "38"
  {
    var slice := line[7..];
    Differs(slice, "one", 0);
    Differs(slice, "two", 0);
    Differs(slice, "three", 0);
    Differs(slice, "four", 0);
    Differs(slice, "five", 0);
    Differs(slice, "six", 0);
    Differs(slice, "seven", 0);
    Differs(slice, "eight", 0);
    Differs(slice, "nine", 0);
  }

  lemma ReplaceThreeightwothreeAt8(line: string)
    requires |line| == 16 && line[0] == 't' && line[1] == 'h' && line[2] == 'r' && line[3] == 'e' && line[4] == 'e' && line[5] == 'i' && line[6] == 'g' && line[7] == 'h' && line[8] == 't' && line[9] == 'w' && line[10] == 'o' && line[11] == 't' && line[12] == 'h' && line[13] == 'r' && line[14] == 'e' && line[15] == 'e'
    requires ReplacePrefix(line, 8) == "38"
    ensures ReplacePrefix(line, 9) == "382"
  {
    var slice := line[8..];
    Differs(slice, "one", 0);
    assert slice[..3] == "two";
  }

  lemma ReplaceThreeightwothreeAt9(line: string)
    requires |line| == 16 && line[0] == 't' && line[1] == 'h' && line[2] == 'r' && line[3] == 'e' && line[4] == 'e' && line[5] == 'i' && line[6] == 'g' && line[7] == 'h' && line[8] == 't' && line[9] == 'w' && line[10] == 'o' && line[11] == 't' && line[12] == 'h' && line[13] == 'r' && line[14] == 'e' && line[15] == 'e'
    requires ReplacePrefix(line, 9) == "382"
    ensures ReplacePrefix(line, 10) == "382"
  {
    var slice := line[9..];
    Differs(slice, "one", 0);
    Differs(slice, "two", 0);
    Differs(slice, "three", 0);
    Differs(slice, "four", 0);
    Differs(slice, "five", 0);
    Differs(slice, "six", 0);
    Differs(slice, "seven", 0);
    Differs(slice, "eight", 0);
    Differs(slice, "nine", 0);
  }

  lemma ReplaceThreeightwothreeAt10(line: string)
    requires |line| == 16 && line[0] == 't' && line[1] == 'h' && line[2] == 'r' && line[3] == 'e' && line[4] == 'e' && line[5] == 'i' && line[6] == 'g' && line[7] == 'h' && line[8] == 't' && line[9] == 'w' && line[10] == 'o' && line[11] == 't' && line[12] == 'h' && line[13] == 'r' && line[14] == 'e' && line[15] == 'e'
    requires ReplacePrefix(line, 10) == "382"
    ensures ReplacePrefix(line, 11) == "382"
  {
    var slice := line[10..];
    Differs(slice, "one", 1);
    Differs(slice, "two", 0);
    Differs(slice, "three", 0);
    Differs(slice, "four", 0);
    Differs(slice, "five", 0);
    Differs(slice, "six", 0);
    Differs(slice, "seven", 0);
    Differs(slice, "eight", 0);
    Differs(slice, "nine", 0);
  }

  lemma ReplaceThreeightwothreeAt11(line: string)
    requires |line| == 16 && line[0] == 't' && line[1] == 'h' && line[2] == 'r' && line[3] == 'e' && line[4] == 'e' && line[5] == 'i' && line[6] == 'g' && line[7] == 'h' && line[8] == 't' && line[9] == 'w' && line[10] == 'o' && line[11] == 't' && line[12] == 'h' && line[13] == 'r' && line[14] == 'e' && line[15] == 'e'
    requires ReplacePrefix(line, 11) == "382"
    ensures ReplacePrefix(line, 12) == "3823"
  {
    var slice := line[11..];
    Differs(slice, "one", 0);
    Differs(slice, "two", 1);
    assert slice[..5] == "three";
  }

  lemma ReplaceThreeightwothreeAt12(line: string)
    requires |line| == 16 && line[0] == 't' && line[1] == 'h' && line[2] == 'r' && line[3] == 'e' && line[4] == 'e' && line[5] == 'i' && line[6] == 'g' && line[7] == 'h' && line[8] == 't' && line[9] == 'w' && line[10] == 'o' && line[11] == 't' && line[12] == 'h' && line[13] == 'r' && line[14] == 'e' && line[15] == 'e'
    requires ReplacePrefix(line, 12) == "3823"
    ensures ReplacePrefix(line, 13) == "3823"
  {
    var slice := line[12..];
    Differs(slice, "one", 0);
    Differs(slice, "two", 0);
    Differs(slice, "four", 0);
    Differs(slice, "five", 0);
    Differs(slice, "six", 0);
    Differs(slice, "nine", 0);
  }

  lemma ReplaceThreeightwothreeAt13(line: string)
    requires |line| == 16 && line[0] == 't' && line[1] == 'h' && line[2] == 'r' && line[3] == 'e' && line[4] == 'e' && line[5] == 'i' && line[6] == 'g' && line[7] == 'h' && line[8] == 't' && line[9] == 'w' && line[10] == 'o' && line[11] == 't' && line[12] == 'h' && line[13] == 'r' && line[14] == 'e' && line[15] == 'e'
    requires ReplacePrefix(line, 13) == "3823"
    ensures ReplacePrefix(line, 14) == "3823"
  {
    var slice := line[13..];
    Differs(slice, "one", 0);
    Differs(slice, "two", 0);
    Differs(slice, "six", 0);
  }

  lemma ReplaceThreeightwothreeAt14(line: string)
    requires |line| == 16 && line[0] == 't' && line[1] == 'h' && line[2] == 'r' && line[3] == 'e' && line[4] == 'e' && line[5] == 'i' && line[6] == 'g' && line[7] == 'h' && line[8] == 't' && line[9] == 'w' && line[10] == 'o' && line[11] == 't' && line[12] == 'h' && line[13] == 'r' && line[14] == 'e' && line[15] == 'e'
    requires ReplacePrefix(line, 14) == "3823"
    ensures ReplacePrefix(line, 15) == "3823"
  {
    var slice := line[14..];
  }

  lemma ReplaceThreeightwothreeAt15(line: string)
    requires |line| == 16 && line[0] == 't' && line[1] == 'h' && line[2] == 'r' && line[3] == 'e' && line[4] == 'e' && line[5] == 'i' && line[6] == 'g' && line[7] == 'h' && line[8] == 't' && line[9] == 'w' && line[10] == 'o' && line[11] == 't' && line[12] == 'h' && line[13] == 'r' && line[14] == 'e' && line[15] == 'e'
    requires ReplacePrefix(line, 15) == "3823"
    ensures ReplacePrefix(line, 16) == "3823"
  {
    var slice := line[15..];
  }

  /** `replace_didgets("threeightwothree")` is "3823". */
  lemma ReplaceThreeightwothree(line: string)
    requires line == "threeightwothree"
    ensures ReplaceDigits(line) == "3823"
  {
    ReplaceThreeightwothreeAt0(line);
    ReplaceThreeightwothreeAt1(line);
    ReplaceThreeightwothreeAt2(line);
    ReplaceThreeightwothreeAt3(line);
    ReplaceThreeightwothreeAt4(line);
    ReplaceThreeightwothreeAt5(line);
    ReplaceThreeightwothreeAt6(line);
    ReplaceThreeightwothreeAt7(line);
    ReplaceThreeightwothreeAt8(line);
    ReplaceThreeightwothreeAt9(line);
    ReplaceThreeightwothreeAt10(line);
    ReplaceThreeightwothreeAt11(line);
    ReplaceThreeightwothreeAt12(line);
    ReplaceThreeightwothreeAt13(line);
    ReplaceThreeightwothreeAt14(line);
    ReplaceThreeightwothreeAt15(line);
  }

  /** `handel_line("3823")` is 33. */
  lemma Line3823(line: string)
    requires line == "3823"
    ensures HandelLine(line) == 33
  {
    HandelLineFirstLast(line, 0, 3);
  }

  /** Line "threeightwothree" is worth 33 in Part 2. */
  lemma ValueThreeightwothree(line: string)
    requires line == "threeightwothree"
    ensures HandelLine(ReplaceDigits(line)) == 33
  {
    ReplaceThreeightwothree(line);
    Line3823(ReplaceDigits(line));
  }

  /** The Part 2 test `single_duplicate`: `find_calibration_value` gives 33. */
  lemma Part2SingleDuplicate(input: seq<string>)
    requires |input| == 1
    requires input[0] == "threeightwothree"
    ensures SumReplaced(input) == 33
  {
    assert input[..0] == [];
    ValueThreeightwothree(input[0]);
    SumReplacedAdvance(input, 0, 0, 33);
    assert input[..1] == input;
  }

  lemma ReplaceOneAt0(line: string)
    requires |line| == 3 && line[0] == 'o' && line[1] == 'n' && line[2] == 'e'
    requires ReplacePrefix(line, 0) == ""
    ensures ReplacePrefix(line, 1) == "1"
  {
    var slice := line[0..];
    assert slice[..3] == "one";
  }

  lemma ReplaceOneAt1(line: string)
    requires |line| == 3 && line[0] == 'o' && line[1] == 'n' && line[2] == 'e'
    requires ReplacePrefix(line, 1) == "1"
    ensures ReplacePrefix(line, 2) == "1"
  {
    var slice := line[1..];
  }

  lemma ReplaceOneAt2(line: string)
    requires |line| == 3 && line[0] == 'o' && line[1] == 'n' && line[2] == 'e'
    requires ReplacePrefix(line, 2) == "1"
    ensures ReplacePrefix(line, 3) == "1"
  {
    var slice := line[2..];
  }

  /** `replace_didgets("one")` is "1". */
  lemma ReplaceOne(line: string)
    requires line == "one"
    ensures ReplaceDigits(line) == "1"
  {
    ReplaceOneAt0(line);
    ReplaceOneAt1(line);
    ReplaceOneAt2(line);
  }

  /** `handel_line("1")` is 11. */
  lemma Line1(line: string)
    requires line == "1"
    ensures HandelLine(line) == 11
  {
    HandelLineFirstLast(line, 0, 0);
  }

  /** Line "one" is worth 11 in Part 2. */
  lemma ValueOne(line: string)
    requires line == "one"
    ensures HandelLine(ReplaceDigits(line)) == 11
  {
    ReplaceOne(line);
    Line1(ReplaceDigits(line));
  }

  /** The Part 2 test `one`: `find_calibration_value` gives 11. */
  lemma Part2One(input: seq<string>)
    requires |input| == 1
    requires input[0] == "one"
    ensures SumReplaced(input) == 11
  {
    assert input[..0] == [];
    ValueOne(input[0]);
    SumReplacedAdvance(input, 0, 0, 11);
    assert input[..1] == input;
  }

  lemma ReplaceOneightAt0(line: string)
    requires |line| == 7 && line[0] == 'o' && line[1] == 'n' && line[2] == 'e' && line[3] == 'i' && line[4] == 'g' && line[5] == 'h' && line[6] == 't'
    requires ReplacePrefix(line, 0) == ""
    ensures ReplacePrefix(line, 1) == "1"
  {
    var slice := line[0..];
    assert slice[..3] == "one";
  }

  lemma ReplaceOneightAt1(line: string)
    requires |line| == 7 && line[0] == 'o' && line[1] == 'n' && line[2] == 'e' && line[3] == 'i' && line[4] == 'g' && line[5] == 'h' && line[6] == 't'
    requires ReplacePrefix(line, 1) == "1"
    ensures ReplacePrefix(line, 2) == "1"
  {
    var slice := line[1..];
    Differs(slice, "one", 0);
    Differs(slice, "two", 0);
    Differs(slice, "three", 0);
    Differs(slice, "four", 0);
    Differs(slice, "five", 0);
    Differs(slice, "six", 0);
    Differs(slice, "seven", 0);
    Differs(slice, "eight", 0);
    Differs(slice, "nine", 1);
  }

  lemma ReplaceOneightAt2(line: string)
    requires |line| == 7 && line[0] == 'o' && line[1] == 'n' && line[2] == 'e' && line[3] == 'i' && line[4] == 'g' && line[5] == 'h' && line[6] == 't'
    requires ReplacePrefix(line, 2) == "1"
    ensures ReplacePrefix(line, 3) == "18"
  {
    var slice := line[2..];
    Differs(slice, "one", 0);
    Differs(slice, "two", 0);
    Differs(slice, "three", 0);
    Differs(slice, "four", 0);
    Differs(slice, "five", 0);
    Differs(slice, "six", 0);
    Differs(slice, "seven", 0);
    assert slice[..5] == "eight";
  }

  lemma ReplaceOneightAt3(line: string)
    requires |line| == 7 && line[0] == 'o' && line[1] == 'n' && line[2] == 'e' && line[3] == 'i' && line[4] == 'g' && line[5] == 'h' && line[6] == 't'
    requires ReplacePrefix(line, 3) == "18"
    ensures ReplacePrefix(line, 4) == "18"
  {
    var slice := line[3..];
    Differs(slice, "one", 0);
    Differs(slice, "two", 0);
    Differs(slice, "four", 0);
    Differs(slice, "five", 0);
    Differs(slice, "six", 0);
    Differs(slice, "nine", 0);
  }

  lemma ReplaceOneightAt4(line: string)
    requires |line| == 7 && line[0] == 'o' && line[1] == 'n' && line[2] == 'e' && line[3] == 'i' && line[4] == 'g' && line[5] == 'h' && line[6] == 't'
    requires ReplacePrefix(line, 4) == "18"
    ensures ReplacePrefix(line, 5) == "18"
  {
    var slice := line[4..];
    Differs(slice, "one", 0);
    Differs(slice, "two", 0);
    Differs(slice, "six", 0);
  }

  lemma ReplaceOneightAt5(line: string)
    requires |line| == 7 && line[0] == 'o' && line[1] == 'n' && line[2] == 'e' && line[3] == 'i' && line[4] == 'g' && line[5] == 'h' && line[6] == 't'
    requires ReplacePrefix(line, 5) == "18"
    ensures ReplacePrefix(line, 6) == "18"
  {
    var slice := line[5..];
  }

  lemma ReplaceOneightAt6(line: string)
    requires |line| == 7 && line[0] == 'o' && line[1] == 'n' && line[2] == 'e' && line[3] == 'i' && line[4] == 'g' && line[5] == 'h' && line[6] == 't'
    requires ReplacePrefix(line, 6) == "18"
    ensures ReplacePrefix(line, 7) == "18"
  {
    var slice := line[6..];
  }

  /** `replace_didgets("oneight")` is "18". */
  lemma ReplaceOneight(line: string)
    requires line == "oneight"
    ensures ReplaceDigits(line) == "18"
  {
    ReplaceOneightAt0(line);
    ReplaceOneightAt1(line);
    ReplaceOneightAt2(line);
    ReplaceOneightAt3(line);
    ReplaceOneightAt4(line);
    ReplaceOneightAt5(line);
    ReplaceOneightAt6(line);
  }

  /** `handel_line("18")` is 18. */
  lemma Line18(line: string)
    requires line == "18"
    ensures HandelLine(line) == 18
  {
    HandelLineFirstLast(line, 0, 1);
  }

  /** Line "oneight" is worth 18 in Part 2. */
  lemma ValueOneight(line: string)
    requires line == "oneight"
    ensures HandelLine(ReplaceDigits(line)) == 18
  {
    ReplaceOneight(line);
    Line18(ReplaceDigits(line));
  }

  /** The Part 2 test `overlap`: `find_calibration_value` gives 18. */
  lemma Part2Overlap(input: seq<string>)
    requires |input| == 1
    requires input[0] == "oneight"
    ensures SumReplaced(input) == 18
  {
    assert input[..0] == [];
    ValueOneight(input[0]);
    SumReplacedAdvance(input, 0, 0, 18);
    assert input[..1] == input;
  }

  /** The Part 2 test `empty`: no lines give 0. */
  lemma Part2Empty()
    ensures SumReplaced([]) == 0
  {
  }
}
