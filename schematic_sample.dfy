/**
 * The unit tests of day 3, proved on the model: `parse_input` on single-row
 * inputs and on the puzzle's sample grid, and both answers for the sample.
 * Every computation is followed one step at a time, one lemma per step: a
 * scan character by character and row by row, each filter and sum element
 * by element from the end of its list. The lists in the contracts are
 * stated element by element.
 */
module SchematicSample {
  import Text
  import opened Schematic

  /** One more character of `row` takes the scan from `before` to `after`. */
  lemma ScanRowAdvance(start: seq<Part>, row: string, y: nat, x: nat, c: char, before: seq<Part>, after: seq<Part>)
    requires x < |row| && row[x] == c
    requires ScanRow(start, row[..x], y) == before
    requires Step(before, x, y, c) == after
    ensures ScanRow(start, row[..x + 1], y) == after
  {
    assert row[..x + 1][..x] == row[..x];
  }

  /** One more row of `lines` takes the scan from `before` to `after`. */
  lemma ScanAdvance(lines: seq<string>, y: nat, before: seq<Part>, after: seq<Part>)
    requires y < |lines| && Scan(lines[..y]) == before
    requires ScanRow(before, lines[y], y) == after
    ensures Scan(lines[..y + 1]) == after
  {
    assert lines[..y + 1][..y] == lines[..y];
  }

  lemma StepSkip(before: seq<Part>, x: nat, y: nat, after: seq<Part>)
    requires after == before
    ensures Step(before, x, y, '.') == after
  {
  }

  lemma StepSymbol(before: seq<Part>, x: nat, y: nat, c: char, after: seq<Part>)
    requires !Text.IsDigit(c) && c != '.'
    requires after == before + [Part(Symbol(c), [Point(x, y)])]
    ensures Step(before, x, y, c) == after
  {
  }

  lemma StepStart(before: seq<Part>, x: nat, y: nat, c: char, d: nat, after: seq<Part>)
    requires Text.IsDigit(c) && d == Text.DigitValue(c)
    requires !(LastPoint(LastPart(before).points).IsNeighbour(Point(x, y)) && LastPart(before).number.Number?)
    requires after == before + [Part(Number(d), [Point(x, y)])]
    ensures Step(before, x, y, c) == after
  {
  }

  lemma StepExtend(before: seq<Part>, front: seq<Part>, n: nat, points: seq<Point>, x: nat, y: nat, c: char,
                   m: nat, extended: seq<Point>, after: seq<Part>)
    requires before == front + [Part(Number(n), points)]
    requires Text.IsDigit(c) && points != [] && points[|points| - 1].IsNeighbour(Point(x, y))
    requires m == n * 10 + Text.DigitValue(c) && extended == points + [Point(x, y)]
    requires after == front + [Part(Number(m), extended)]
    ensures Step(before, x, y, c) == after
  {
    assert before[..|before| - 1] == front;
  }

  /** `Points` over `parts`, given the points after each prefix of `parts`. */
  lemma {:induction false} PointsTrace(parts: seq<Part>, trace: seq<seq<Point>>)
    requires |trace| == |parts| + 1 && trace[0] == []
    requires forall k :: 0 <= k < |parts| ==> trace[k + 1] == trace[k] + parts[k].points
    ensures Points(parts) == trace[|parts|]
  {
    if parts != [] {
      var n := |parts| - 1;
      assert forall k :: 0 <= k < n ==> parts[..n][k] == parts[k];
      PointsTrace(parts[..n], trace[..n + 1]);
    }
  }

  /** One more part in front of a suffix of `parts`, for `SymbolParts`. */
  lemma SymbolPartsAdvance(parts: seq<Part>, k: nat, next: seq<Part>, value: seq<Part>)
    requires k < |parts| && SymbolParts(parts[k + 1..]) == next
    requires value == if IsSymbol(parts[k]) then [parts[k]] + next else next
    ensures SymbolParts(parts[k..]) == value
  {
    assert parts[k..][1..] == parts[k + 1..];
  }

  /** The same for `NumberParts`. */
  lemma NumberPartsAdvance(parts: seq<Part>, k: nat, next: seq<Part>, value: seq<Part>)
    requires k < |parts| && NumberParts(parts[k + 1..]) == next
    requires value == if IsNumber(parts[k]) then [parts[k]] + next else next
    ensures NumberParts(parts[k..]) == value
  {
    assert parts[k..][1..] == parts[k + 1..];
  }

  /** The same for `PartNumberSum`. */
  lemma PartNumberSumAdvance(symbols: seq<Part>, parts: seq<Part>, k: nat, next: nat, value: nat)
    requires k < |parts| && PartNumberSum(parts[k + 1..], symbols) == next
    requires value == (if IsNumber(parts[k]) && NumberHasNeighborSymbol(parts[k], symbols) then Value(parts[k]) else 0) + next
    ensures PartNumberSum(parts[k..], symbols) == value
  {
    assert parts[k..][1..] == parts[k + 1..];
  }

  /** The same for `AdjacentNumbers`. */
  lemma AdjacentNumbersAdvance(gear: Part, numbers: seq<Part>, k: nat, next: seq<Part>, value: seq<Part>)
    requires k < |numbers| && AdjacentNumbers(gear, numbers[k + 1..]) == next
    requires value == if Touches(gear.points, numbers[k].points) then [numbers[k]] + next else next
    ensures AdjacentNumbers(gear, numbers[k..]) == value
  {
    assert numbers[k..][1..] == numbers[k + 1..];
  }

  /** The same for `Gears`. */
  lemma GearsAdvance(numbers: seq<Part>, parts: seq<Part>, k: nat, next: seq<Part>, value: seq<Part>)
    requires k < |parts| && Gears(parts[k + 1..], numbers) == next
    requires value == if IsGear(parts[k], numbers) then [parts[k]] + next else next
    ensures Gears(parts[k..], numbers) == value
  {
    assert parts[k..][1..] == parts[k + 1..];
  }

  /** The same for `SumRatios`. */
  lemma SumRatiosAdvance(numbers: seq<Part>, gears: seq<Part>, k: nat, next: nat, value: nat)
    requires k < |gears| && SumRatios(gears[k + 1..], numbers) == next
    requires value == FindGearRatio(gears[k], numbers) + next
    ensures SumRatios(gears[k..], numbers) == value
  {
    assert gears[k..][1..] == gears[k + 1..];
  }

  lemma SingleNumberRow0At0(start: seq<Part>, row: string)
    requires 0 < |row| && row[0] == '.'
    requires ScanRow(start, row[..0], 0) == []
    ensures ScanRow(start, row[..1], 0) == []
  {
    StepSkip([], 0, 0, []);
    ScanRowAdvance(start, row, 0, 0, '.', [], []);
  }

  lemma SingleNumberRow0At1(start: seq<Part>, row: string)
    requires 1 < |row| && row[1] == '.'
    requires ScanRow(start, row[..1], 0) == []
    ensures ScanRow(start, row[..2], 0) == []
  {
    StepSkip([], 1, 0, []);
    ScanRowAdvance(start, row, 0, 1, '.', [], []);
  }

  lemma SingleNumberRow0At2(start: seq<Part>, row: string)
    requires 2 < |row| && row[2] == '5'
    requires ScanRow(start, row[..2], 0) == []
    ensures ScanRow(start, row[..3], 0) == [Part(Number(5), [Point(2, 0)])]
  {
    StepStart([], 2, 0, '5', 5, [Part(Number(5), [Point(2, 0)])]);
    ScanRowAdvance(start, row, 0, 2, '5', [], [Part(Number(5), [Point(2, 0)])]);
  }

  lemma SingleNumberRow0At3(start: seq<Part>, row: string)
    requires 3 < |row| && row[3] == '9'
    requires ScanRow(start, row[..3], 0) == [Part(Number(5), [Point(2, 0)])]
    ensures ScanRow(start, row[..4], 0) == [Part(Number(59), [Point(2, 0), Point(3, 0)])]
  {
    StepExtend([Part(Number(5), [Point(2, 0)])], [], 5, [Point(2, 0)], 3, 0, '9', 59, [Point(2, 0), Point(3, 0)], [Part(Number(59), [Point(2, 0), Point(3, 0)])]);
    ScanRowAdvance(start, row, 0, 3, '9', [Part(Number(5), [Point(2, 0)])], [Part(Number(59), [Point(2, 0), Point(3, 0)])]);
  }

  lemma SingleNumberRow0At4(start: seq<Part>, row: string)
    requires 4 < |row| && row[4] == '2'
    requires ScanRow(start, row[..4], 0) == [Part(Number(59), [Point(2, 0), Point(3, 0)])]
    ensures ScanRow(start, row[..5], 0) == [Part(Number(592), [Point(2, 0), Point(3, 0), Point(4, 0)])]
  {
    StepExtend([Part(Number(59), [Point(2, 0), Point(3, 0)])], [], 59, [Point(2, 0), Point(3, 0)], 4, 0, '2', 592, [Point(2, 0), Point(3, 0), Point(4, 0)], [Part(Number(592), [Point(2, 0), Point(3, 0), Point(4, 0)])]);
    ScanRowAdvance(start, row, 0, 4, '2', [Part(Number(59), [Point(2, 0), Point(3, 0)])], [Part(Number(592), [Point(2, 0), Point(3, 0), Point(4, 0)])]);
  }

  lemma SingleNumberRow0At5(start: seq<Part>, row: string)
    requires 5 < |row| && row[5] == '.'
    requires ScanRow(start, row[..5], 0) == [Part(Number(592), [Point(2, 0), Point(3, 0), Point(4, 0)])]
    ensures ScanRow(start, row[..6], 0) == [Part(Number(592), [Point(2, 0), Point(3, 0), Point(4, 0)])]
  {
    StepSkip([Part(Number(592), [Point(2, 0), Point(3, 0), Point(4, 0)])], 5, 0, [Part(Number(592), [Point(2, 0), Point(3, 0), Point(4, 0)])]);
    ScanRowAdvance(start, row, 0, 5, '.', [Part(Number(592), [Point(2, 0), Point(3, 0), Point(4, 0)])], [Part(Number(592), [Point(2, 0), Point(3, 0), Point(4, 0)])]);
  }

  lemma SingleNumberRow0At6(start: seq<Part>, row: string)
    requires 6 < |row| && row[6] == '.'
    requires ScanRow(start, row[..6], 0) == [Part(Number(592), [Point(2, 0), Point(3, 0), Point(4, 0)])]
    ensures ScanRow(start, row[..7], 0) == [Part(Number(592), [Point(2, 0), Point(3, 0), Point(4, 0)])]
  {
    StepSkip([Part(Number(592), [Point(2, 0), Point(3, 0), Point(4, 0)])], 6, 0, [Part(Number(592), [Point(2, 0), Point(3, 0), Point(4, 0)])]);
    ScanRowAdvance(start, row, 0, 6, '.', [Part(Number(592), [Point(2, 0), Point(3, 0), Point(4, 0)])], [Part(Number(592), [Point(2, 0), Point(3, 0), Point(4, 0)])]);
  }

  lemma SingleNumberRow0At7(start: seq<Part>, row: string)
    requires 7 < |row| && row[7] == '.'
    requires ScanRow(start, row[..7], 0) == [Part(Number(592), [Point(2, 0), Point(3, 0), Point(4, 0)])]
    ensures ScanRow(start, row[..8], 0) == [Part(Number(592), [Point(2, 0), Point(3, 0), Point(4, 0)])]
  {
    StepSkip([Part(Number(592), [Point(2, 0), Point(3, 0), Point(4, 0)])], 7, 0, [Part(Number(592), [Point(2, 0), Point(3, 0), Point(4, 0)])]);
    ScanRowAdvance(start, row, 0, 7, '.', [Part(Number(592), [Point(2, 0), Point(3, 0), Point(4, 0)])], [Part(Number(592), [Point(2, 0), Point(3, 0), Point(4, 0)])]);
  }

  lemma SingleNumberRow0At8(start: seq<Part>, row: string)
    requires 8 < |row| && row[8] == '.'
    requires ScanRow(start, row[..8], 0) == [Part(Number(592), [Point(2, 0), Point(3, 0), Point(4, 0)])]
    ensures ScanRow(start, row[..9], 0) == [Part(Number(592), [Point(2, 0), Point(3, 0), Point(4, 0)])]
  {
    StepSkip([Part(Number(592), [Point(2, 0), Point(3, 0), Point(4, 0)])], 8, 0, [Part(Number(592), [Point(2, 0), Point(3, 0), Point(4, 0)])]);
    ScanRowAdvance(start, row, 0, 8, '.', [Part(Number(592), [Point(2, 0), Point(3, 0), Point(4, 0)])], [Part(Number(592), [Point(2, 0), Point(3, 0), Point(4, 0)])]);
  }

  lemma SingleNumberRow0At9(start: seq<Part>, row: string)
    requires 9 < |row| && row[9] == '.'
    requires ScanRow(start, row[..9], 0) == [Part(Number(592), [Point(2, 0), Point(3, 0), Point(4, 0)])]
    ensures ScanRow(start, row[..10], 0) == [Part(Number(592), [Point(2, 0), Point(3, 0), Point(4, 0)])]
  {
    StepSkip([Part(Number(592), [Point(2, 0), Point(3, 0), Point(4, 0)])], 9, 0, [Part(Number(592), [Point(2, 0), Point(3, 0), Point(4, 0)])]);
    ScanRowAdvance(start, row, 0, 9, '.', [Part(Number(592), [Point(2, 0), Point(3, 0), Point(4, 0)])], [Part(Number(592), [Point(2, 0), Point(3, 0), Point(4, 0)])]);
  }

  /** Row 0 of the test `single_number_input`. */
  lemma SingleNumberRow0(start: seq<Part>, row: string)
    requires start == []
    requires |row| == 10 && row[0] == '.' && row[1] == '.' && row[2] == '5' && row[3] == '9' && row[4] == '2' && row[5] == '.' && row[6] == '.' && row[7] == '.' && row[8] == '.' && row[9] == '.'
    ensures ScanRow(start, row, 0) == [Part(Number(592), [Point(2, 0), Point(3, 0), Point(4, 0)])]
  {
    assert row[..0] == [];
    SingleNumberRow0At0(start, row);
    SingleNumberRow0At1(start, row);
    SingleNumberRow0At2(start, row);
    SingleNumberRow0At3(start, row);
    SingleNumberRow0At4(start, row);
    SingleNumberRow0At5(start, row);
    SingleNumberRow0At6(start, row);
    SingleNumberRow0At7(start, row);
    SingleNumberRow0At8(start, row);
    SingleNumberRow0At9(start, row);
    assert row[..10] == row;
  }

  lemma SingleNumberScanAt0(lines: seq<string>)
    requires 0 < |lines| && |lines[0]| == 10 && lines[0][0] == '.' && lines[0][1] == '.' && lines[0][2] == '5' && lines[0][3] == '9' && lines[0][4] == '2' && lines[0][5] == '.' && lines[0][6] == '.' && lines[0][7] == '.' && lines[0][8] == '.' && lines[0][9] == '.'
    requires Scan(lines[..0]) == []
    ensures Scan(lines[..1]) == [Part(Number(592), [Point(2, 0), Point(3, 0), Point(4, 0)])]
  {
    SingleNumberRow0([], lines[0]);
    ScanAdvance(lines, 0, [], [Part(Number(592), [Point(2, 0), Point(3, 0), Point(4, 0)])]);
  }

  /** `parse_input` on the test `single_number_input`: one number 592 on cells (2, 0) to (4, 0). */
  lemma SingleNumberScan(lines: seq<string>)
    requires lines == ["..592....."]
    ensures Scan(lines) == [Part(Number(592), [Point(2, 0), Point(3, 0), Point(4, 0)])]
  {
    assert lines[..0] == [];
    SingleNumberScanAt0(lines);
    assert lines[..1] == lines;
  }

  lemma SingleSymbolRow0At0(start: seq<Part>, row: string)
    requires 0 < |row| && row[0] == '.'
    requires ScanRow(start, row[..0], 0) == []
    ensures ScanRow(start, row[..1], 0) == []
  {
    StepSkip([], 0, 0, []);
    ScanRowAdvance(start, row, 0, 0, '.', [], []);
  }

  lemma SingleSymbolRow0At1(start: seq<Part>, row: string)
    requires 1 < |row| && row[1] == '.'
    requires ScanRow(start, row[..1], 0) == []
    ensures ScanRow(start, row[..2], 0) == []
  {
    StepSkip([], 1, 0, []);
    ScanRowAdvance(start, row, 0, 1, '.', [], []);
  }

  lemma SingleSymbolRow0At2(start: seq<Part>, row: string)
    requires 2 < |row| && row[2] == '$'
    requires ScanRow(start, row[..2], 0) == []
    ensures ScanRow(start, row[..3], 0) == [Part(Symbol('$'), [Point(2, 0)])]
  {
    StepSymbol([], 2, 0, '$', [Part(Symbol('$'), [Point(2, 0)])]);
    ScanRowAdvance(start, row, 0, 2, '$', [], [Part(Symbol('$'), [Point(2, 0)])]);
  }

  lemma SingleSymbolRow0At3(start: seq<Part>, row: string)
    requires 3 < |row| && row[3] == '.'
    requires ScanRow(start, row[..3], 0) == [Part(Symbol('$'), [Point(2, 0)])]
    ensures ScanRow(start, row[..4], 0) == [Part(Symbol('$'), [Point(2, 0)])]
  {
    StepSkip([Part(Symbol('$'), [Point(2, 0)])], 3, 0, [Part(Symbol('$'), [Point(2, 0)])]);
    ScanRowAdvance(start, row, 0, 3, '.', [Part(Symbol('$'), [Point(2, 0)])], [Part(Symbol('$'), [Point(2, 0)])]);
  }

  lemma SingleSymbolRow0At4(start: seq<Part>, row: string)
    requires 4 < |row| && row[4] == '.'
    requires ScanRow(start, row[..4], 0) == [Part(Symbol('$'), [Point(2, 0)])]
    ensures ScanRow(start, row[..5], 0) == [Part(Symbol('$'), [Point(2, 0)])]
  {
    StepSkip([Part(Symbol('$'), [Point(2, 0)])], 4, 0, [Part(Symbol('$'), [Point(2, 0)])]);
    ScanRowAdvance(start, row, 0, 4, '.', [Part(Symbol('$'), [Point(2, 0)])], [Part(Symbol('$'), [Point(2, 0)])]);
  }

  lemma SingleSymbolRow0At5(start: seq<Part>, row: string)
    requires 5 < |row| && row[5] == '.'
    requires ScanRow(start, row[..5], 0) == [Part(Symbol('$'), [Point(2, 0)])]
    ensures ScanRow(start, row[..6], 0) == [Part(Symbol('$'), [Point(2, 0)])]
  {
    StepSkip([Part(Symbol('$'), [Point(2, 0)])], 5, 0, [Part(Symbol('$'), [Point(2, 0)])]);
    ScanRowAdvance(start, row, 0, 5, '.', [Part(Symbol('$'), [Point(2, 0)])], [Part(Symbol('$'), [Point(2, 0)])]);
  }

  lemma SingleSymbolRow0At6(start: seq<Part>, row: string)
    requires 6 < |row| && row[6] == '.'
    requires ScanRow(start, row[..6], 0) == [Part(Symbol('$'), [Point(2, 0)])]
    ensures ScanRow(start, row[..7], 0) == [Part(Symbol('$'), [Point(2, 0)])]
  {
    StepSkip([Part(Symbol('$'), [Point(2, 0)])], 6, 0, [Part(Symbol('$'), [Point(2, 0)])]);
    ScanRowAdvance(start, row, 0, 6, '.', [Part(Symbol('$'), [Point(2, 0)])], [Part(Symbol('$'), [Point(2, 0)])]);
  }

  lemma SingleSymbolRow0At7(start: seq<Part>, row: string)
    requires 7 < |row| && row[7] == '.'
    requires ScanRow(start, row[..7], 0) == [Part(Symbol('$'), [Point(2, 0)])]
    ensures ScanRow(start, row[..8], 0) == [Part(Symbol('$'), [Point(2, 0)])]
  {
    StepSkip([Part(Symbol('$'), [Point(2, 0)])], 7, 0, [Part(Symbol('$'), [Point(2, 0)])]);
    ScanRowAdvance(start, row, 0, 7, '.', [Part(Symbol('$'), [Point(2, 0)])], [Part(Symbol('$'), [Point(2, 0)])]);
  }

  lemma SingleSymbolRow0At8(start: seq<Part>, row: string)
    requires 8 < |row| && row[8] == '.'
    requires ScanRow(start, row[..8], 0) == [Part(Symbol('$'), [Point(2, 0)])]
    ensures ScanRow(start, row[..9], 0) == [Part(Symbol('$'), [Point(2, 0)])]
  {
    StepSkip([Part(Symbol('$'), [Point(2, 0)])], 8, 0, [Part(Symbol('$'), [Point(2, 0)])]);
    ScanRowAdvance(start, row, 0, 8, '.', [Part(Symbol('$'), [Point(2, 0)])], [Part(Symbol('$'), [Point(2, 0)])]);
  }

  lemma SingleSymbolRow0At9(start: seq<Part>, row: string)
    requires 9 < |row| && row[9] == '.'
    requires ScanRow(start, row[..9], 0) == [Part(Symbol('$'), [Point(2, 0)])]
    ensures ScanRow(start, row[..10], 0) == [Part(Symbol('$'), [Point(2, 0)])]
  {
    StepSkip([Part(Symbol('$'), [Point(2, 0)])], 9, 0, [Part(Symbol('$'), [Point(2, 0)])]);
    ScanRowAdvance(start, row, 0, 9, '.', [Part(Symbol('$'), [Point(2, 0)])], [Part(Symbol('$'), [Point(2, 0)])]);
  }

  /** Row 0 of the test `single_symbol_input`. */
  lemma SingleSymbolRow0(start: seq<Part>, row: string)
    requires start == []
    requires |row| == 10 && row[0] == '.' && row[1] == '.' && row[2] == '$' && row[3] == '.' && row[4] == '.' && row[5] == '.' && row[6] == '.' && row[7] == '.' && row[8] == '.' && row[9] == '.'
    ensures ScanRow(start, row, 0) == [Part(Symbol('$'), [Point(2, 0)])]
  {
    assert row[..0] == [];
    SingleSymbolRow0At0(start, row);
    SingleSymbolRow0At1(start, row);
    SingleSymbolRow0At2(start, row);
    SingleSymbolRow0At3(start, row);
    SingleSymbolRow0At4(start, row);
    SingleSymbolRow0At5(start, row);
    SingleSymbolRow0At6(start, row);
    SingleSymbolRow0At7(start, row);
    SingleSymbolRow0At8(start, row);
    SingleSymbolRow0At9(start, row);
    assert row[..10] == row;
  }

  lemma SingleSymbolScanAt0(lines: seq<string>)
    requires 0 < |lines| && |lines[0]| == 10 && lines[0][0] == '.' && lines[0][1] == '.' && lines[0][2] == '$' && lines[0][3] == '.' && lines[0][4] == '.' && lines[0][5] == '.' && lines[0][6] == '.' && lines[0][7] == '.' && lines[0][8] == '.' && lines[0][9] == '.'
    requires Scan(lines[..0]) == []
    ensures Scan(lines[..1]) == [Part(Symbol('$'), [Point(2, 0)])]
  {
    SingleSymbolRow0([], lines[0]);
    ScanAdvance(lines, 0, [], [Part(Symbol('$'), [Point(2, 0)])]);
  }

  /** `parse_input` on the test `single_symbol_input`: one symbol '$' on (2, 0). */
  lemma SingleSymbolScan(lines: seq<string>)
    requires lines == ["..$......."]
    ensures Scan(lines) == [Part(Symbol('$'), [Point(2, 0)])]
  {
    assert lines[..0] == [];
    SingleSymbolScanAt0(lines);
    assert lines[..1] == lines;
  }

  lemma MultiSymbolRow0At0(start: seq<Part>, row: string)
    requires 0 < |row| && row[0] == '.'
    requires ScanRow(start, row[..0], 0) == []
    ensures ScanRow(start, row[..1], 0) == []
  {
    StepSkip([], 0, 0, []);
    ScanRowAdvance(start, row, 0, 0, '.', [], []);
  }

  lemma MultiSymbolRow0At1(start: seq<Part>, row: string)
    requires 1 < |row| && row[1] == '.'
    requires ScanRow(start, row[..1], 0) == []
    ensures ScanRow(start, row[..2], 0) == []
  {
    StepSkip([], 1, 0, []);
    ScanRowAdvance(start, row, 0, 1, '.', [], []);
  }

  lemma MultiSymbolRow0At2(start: seq<Part>, row: string)
    requires 2 < |row| && row[2] == '$'
    requires ScanRow(start, row[..2], 0) == []
    ensures ScanRow(start, row[..3], 0) == [Part(Symbol('$'), [Point(2, 0)])]
  {
    StepSymbol([], 2, 0, '$', [Part(Symbol('$'), [Point(2, 0)])]);
    ScanRowAdvance(start, row, 0, 2, '$', [], [Part(Symbol('$'), [Point(2, 0)])]);
  }

  lemma MultiSymbolRow0At3(start: seq<Part>, row: string)
    requires 3 < |row| && row[3] == '.'
    requires ScanRow(start, row[..3], 0) == [Part(Symbol('$'), [Point(2, 0)])]
    ensures ScanRow(start, row[..4], 0) == [Part(Symbol('$'), [Point(2, 0)])]
  {
    StepSkip([Part(Symbol('$'), [Point(2, 0)])], 3, 0, [Part(Symbol('$'), [Point(2, 0)])]);
    ScanRowAdvance(start, row, 0, 3, '.', [Part(Symbol('$'), [Point(2, 0)])], [Part(Symbol('$'), [Point(2, 0)])]);
  }

  lemma MultiSymbolRow0At4(start: seq<Part>, row: string)
    requires 4 < |row| && row[4] == '.'
    requires ScanRow(start, row[..4], 0) == [Part(Symbol('$'), [Point(2, 0)])]
    ensures ScanRow(start, row[..5], 0) == [Part(Symbol('$'), [Point(2, 0)])]
  {
    StepSkip([Part(Symbol('$'), [Point(2, 0)])], 4, 0, [Part(Symbol('$'), [Point(2, 0)])]);
    ScanRowAdvance(start, row, 0, 4, '.', [Part(Symbol('$'), [Point(2, 0)])], [Part(Symbol('$'), [Point(2, 0)])]);
  }

  lemma MultiSymbolRow0At5(start: seq<Part>, row: string)
    requires 5 < |row| && row[5] == '.'
    requires ScanRow(start, row[..5], 0) == [Part(Symbol('$'), [Point(2, 0)])]
    ensures ScanRow(start, row[..6], 0) == [Part(Symbol('$'), [Point(2, 0)])]
  {
    StepSkip([Part(Symbol('$'), [Point(2, 0)])], 5, 0, [Part(Symbol('$'), [Point(2, 0)])]);
    ScanRowAdvance(start, row, 0, 5, '.', [Part(Symbol('$'), [Point(2, 0)])], [Part(Symbol('$'), [Point(2, 0)])]);
  }

  lemma MultiSymbolRow0At6(start: seq<Part>, row: string)
    requires 6 < |row| && row[6] == '.'
    requires ScanRow(start, row[..6], 0) == [Part(Symbol('$'), [Point(2, 0)])]
    ensures ScanRow(start, row[..7], 0) == [Part(Symbol('$'), [Point(2, 0)])]
  {
    StepSkip([Part(Symbol('$'), [Point(2, 0)])], 6, 0, [Part(Symbol('$'), [Point(2, 0)])]);
    ScanRowAdvance(start, row, 0, 6, '.', [Part(Symbol('$'), [Point(2, 0)])], [Part(Symbol('$'), [Point(2, 0)])]);
  }

  lemma MultiSymbolRow0At7(start: seq<Part>, row: string)
    requires 7 < |row| && row[7] == '#'
    requires ScanRow(start, row[..7], 0) == [Part(Symbol('$'), [Point(2, 0)])]
    ensures ScanRow(start, row[..8], 0) == [Part(Symbol('$'), [Point(2, 0)]), Part(Symbol('#'), [Point(7, 0)])]
  {
    StepSymbol([Part(Symbol('$'), [Point(2, 0)])], 7, 0, '#', [Part(Symbol('$'), [Point(2, 0)]), Part(Symbol('#'), [Point(7, 0)])]);
    ScanRowAdvance(start, row, 0, 7, '#', [Part(Symbol('$'), [Point(2, 0)])], [Part(Symbol('$'), [Point(2, 0)]), Part(Symbol('#'), [Point(7, 0)])]);
  }

  lemma MultiSymbolRow0At8(start: seq<Part>, row: string)
    requires 8 < |row| && row[8] == '.'
    requires ScanRow(start, row[..8], 0) == [Part(Symbol('$'), [Point(2, 0)]), Part(Symbol('#'), [Point(7, 0)])]
    ensures ScanRow(start, row[..9], 0) == [Part(Symbol('$'), [Point(2, 0)]), Part(Symbol('#'), [Point(7, 0)])]
  {
    StepSkip([Part(Symbol('$'), [Point(2, 0)]), Part(Symbol('#'), [Point(7, 0)])], 8, 0, [Part(Symbol('$'), [Point(2, 0)]), Part(Symbol('#'), [Point(7, 0)])]);
    ScanRowAdvance(start, row, 0, 8, '.', [Part(Symbol('$'), [Point(2, 0)]), Part(Symbol('#'), [Point(7, 0)])], [Part(Symbol('$'), [Point(2, 0)]), Part(Symbol('#'), [Point(7, 0)])]);
  }

  lemma MultiSymbolRow0At9(start: seq<Part>, row: string)
    requires 9 < |row| && row[9] == '.'
    requires ScanRow(start, row[..9], 0) == [Part(Symbol('$'), [Point(2, 0)]), Part(Symbol('#'), [Point(7, 0)])]
    ensures ScanRow(start, row[..10], 0) == [Part(Symbol('$'), [Point(2, 0)]), Part(Symbol('#'), [Point(7, 0)])]
  {
    StepSkip([Part(Symbol('$'), [Point(2, 0)]), Part(Symbol('#'), [Point(7, 0)])], 9, 0, [Part(Symbol('$'), [Point(2, 0)]), Part(Symbol('#'), [Point(7, 0)])]);
    ScanRowAdvance(start, row, 0, 9, '.', [Part(Symbol('$'), [Point(2, 0)]), Part(Symbol('#'), [Point(7, 0)])], [Part(Symbol('$'), [Point(2, 0)]), Part(Symbol('#'), [Point(7, 0)])]);
  }

  /** Row 0 of the test `multi_symbol_input`. */
  lemma MultiSymbolRow0(start: seq<Part>, row: string)
    requires start == []
    requires |row| == 10 && row[0] == '.' && row[1] == '.' && row[2] == '$' && row[3] == '.' && row[4] == '.' && row[5] == '.' && row[6] == '.' && row[7] == '#' && row[8] == '.' && row[9] == '.'
    ensures ScanRow(start, row, 0) == [Part(Symbol('$'), [Point(2, 0)]), Part(Symbol('#'), [Point(7, 0)])]
  {
    assert row[..0] == [];
    MultiSymbolRow0At0(start, row);
    MultiSymbolRow0At1(start, row);
    MultiSymbolRow0At2(start, row);
    MultiSymbolRow0At3(start, row);
    MultiSymbolRow0At4(start, row);
    MultiSymbolRow0At5(start, row);
    MultiSymbolRow0At6(start, row);
    MultiSymbolRow0At7(start, row);
    MultiSymbolRow0At8(start, row);
    MultiSymbolRow0At9(start, row);
    assert row[..10] == row;
  }

  lemma MultiSymbolScanAt0(lines: seq<string>)
    requires 0 < |lines| && |lines[0]| == 10 && lines[0][0] == '.' && lines[0][1] == '.' && lines[0][2] == '$' && lines[0][3] == '.' && lines[0][4] == '.' && lines[0][5] == '.' && lines[0][6] == '.' && lines[0][7] == '#' && lines[0][8] == '.' && lines[0][9] == '.'
    requires Scan(lines[..0]) == []
    ensures Scan(lines[..1]) == [Part(Symbol('$'), [Point(2, 0)]), Part(Symbol('#'), [Point(7, 0)])]
  {
    MultiSymbolRow0([], lines[0]);
    ScanAdvance(lines, 0, [], [Part(Symbol('$'), [Point(2, 0)]), Part(Symbol('#'), [Point(7, 0)])]);
  }

  /** `parse_input` on the test `multi_symbol_input`: '$' on (2, 0), then '#' on (7, 0). */
  lemma MultiSymbolScan(lines: seq<string>)
    requires lines == ["..$....#.."]
    ensures Scan(lines) == [Part(Symbol('$'), [Point(2, 0)]), Part(Symbol('#'), [Point(7, 0)])]
  {
    assert lines[..0] == [];
    MultiSymbolScanAt0(lines);
    assert lines[..1] == lines;
  }

  lemma SymbolAndNumberRow0At0(start: seq<Part>, row: string)
    requires 0 < |row| && row[0] == '.'
    requires ScanRow(start, row[..0], 0) == []
    ensures ScanRow(start, row[..1], 0) == []
  {
    StepSkip([], 0, 0, []);
    ScanRowAdvance(start, row, 0, 0, '.', [], []);
  }

  lemma SymbolAndNumberRow0At1(start: seq<Part>, row: string)
    requires 1 < |row| && row[1] == '.'
    requires ScanRow(start, row[..1], 0) == []
    ensures ScanRow(start, row[..2], 0) == []
  {
    StepSkip([], 1, 0, []);
    ScanRowAdvance(start, row, 0, 1, '.', [], []);
  }

  lemma SymbolAndNumberRow0At2(start: seq<Part>, row: string)
    requires 2 < |row| && row[2] == '$'
    requires ScanRow(start, row[..2], 0) == []
    ensures ScanRow(start, row[..3], 0) == [Part(Symbol('$'), [Point(2, 0)])]
  {
    StepSymbol([], 2, 0, '$', [Part(Symbol('$'), [Point(2, 0)])]);
    ScanRowAdvance(start, row, 0, 2, '$', [], [Part(Symbol('$'), [Point(2, 0)])]);
  }

  lemma SymbolAndNumberRow0At3(start: seq<Part>, row: string)
    requires 3 < |row| && row[3] == '.'
    requires ScanRow(start, row[..3], 0) == [Part(Symbol('$'), [Point(2, 0)])]
    ensures ScanRow(start, row[..4], 0) == [Part(Symbol('$'), [Point(2, 0)])]
  {
    StepSkip([Part(Symbol('$'), [Point(2, 0)])], 3, 0, [Part(Symbol('$'), [Point(2, 0)])]);
    ScanRowAdvance(start, row, 0, 3, '.', [Part(Symbol('$'), [Point(2, 0)])], [Part(Symbol('$'), [Point(2, 0)])]);
  }

  lemma SymbolAndNumberRow0At4(start: seq<Part>, row: string)
    requires 4 < |row| && row[4] == '.'
    requires ScanRow(start, row[..4], 0) == [Part(Symbol('$'), [Point(2, 0)])]
    ensures ScanRow(start, row[..5], 0) == [Part(Symbol('$'), [Point(2, 0)])]
  {
    StepSkip([Part(Symbol('$'), [Point(2, 0)])], 4, 0, [Part(Symbol('$'), [Point(2, 0)])]);
    ScanRowAdvance(start, row, 0, 4, '.', [Part(Symbol('$'), [Point(2, 0)])], [Part(Symbol('$'), [Point(2, 0)])]);
  }

  lemma SymbolAndNumberRow0At5(start: seq<Part>, row: string)
    requires 5 < |row| && row[5] == '.'
    requires ScanRow(start, row[..5], 0) == [Part(Symbol('$'), [Point(2, 0)])]
    ensures ScanRow(start, row[..6], 0) == [Part(Symbol('$'), [Point(2, 0)])]
  {
    StepSkip([Part(Symbol('$'), [Point(2, 0)])], 5, 0, [Part(Symbol('$'), [Point(2, 0)])]);
    ScanRowAdvance(start, row, 0, 5, '.', [Part(Symbol('$'), [Point(2, 0)])], [Part(Symbol('$'), [Point(2, 0)])]);
  }

  lemma SymbolAndNumberRow0At6(start: seq<Part>, row: string)
    requires 6 < |row| && row[6] == '.'
    requires ScanRow(start, row[..6], 0) == [Part(Symbol('$'), [Point(2, 0)])]
    ensures ScanRow(start, row[..7], 0) == [Part(Symbol('$'), [Point(2, 0)])]
  {
    StepSkip([Part(Symbol('$'), [Point(2, 0)])], 6, 0, [Part(Symbol('$'), [Point(2, 0)])]);
    ScanRowAdvance(start, row, 0, 6, '.', [Part(Symbol('$'), [Point(2, 0)])], [Part(Symbol('$'), [Point(2, 0)])]);
  }

  lemma SymbolAndNumberRow0At7(start: seq<Part>, row: string)
    requires 7 < |row| && row[7] == '4'
    requires ScanRow(start, row[..7], 0) == [Part(Symbol('$'), [Point(2, 0)])]
    ensures ScanRow(start, row[..8], 0) == [Part(Symbol('$'), [Point(2, 0)]), Part(Number(4), [Point(7, 0)])]
  {
    StepStart([Part(Symbol('$'), [Point(2, 0)])], 7, 0, '4', 4, [Part(Symbol('$'), [Point(2, 0)]), Part(Number(4), [Point(7, 0)])]);
    ScanRowAdvance(start, row, 0, 7, '4', [Part(Symbol('$'), [Point(2, 0)])], [Part(Symbol('$'), [Point(2, 0)]), Part(Number(4), [Point(7, 0)])]);
  }

  lemma SymbolAndNumberRow0At8(start: seq<Part>, row: string)
    requires 8 < |row| && row[8] == '.'
    requires ScanRow(start, row[..8], 0) == [Part(Symbol('$'), [Point(2, 0)]), Part(Number(4), [Point(7, 0)])]
    ensures ScanRow(start, row[..9], 0) == [Part(Symbol('$'), [Point(2, 0)]), Part(Number(4), [Point(7, 0)])]
  {
    StepSkip([Part(Symbol('$'), [Point(2, 0)]), Part(Number(4), [Point(7, 0)])], 8, 0, [Part(Symbol('$'), [Point(2, 0)]), Part(Number(4), [Point(7, 0)])]);
    ScanRowAdvance(start, row, 0, 8, '.', [Part(Symbol('$'), [Point(2, 0)]), Part(Number(4), [Point(7, 0)])], [Part(Symbol('$'), [Point(2, 0)]), Part(Number(4), [Point(7, 0)])]);
  }

  lemma SymbolAndNumberRow0At9(start: seq<Part>, row: string)
    requires 9 < |row| && row[9] == '.'
    requires ScanRow(start, row[..9], 0) == [Part(Symbol('$'), [Point(2, 0)]), Part(Number(4), [Point(7, 0)])]
    ensures ScanRow(start, row[..10], 0) == [Part(Symbol('$'), [Point(2, 0)]), Part(Number(4), [Point(7, 0)])]
  {
    StepSkip([Part(Symbol('$'), [Point(2, 0)]), Part(Number(4), [Point(7, 0)])], 9, 0, [Part(Symbol('$'), [Point(2, 0)]), Part(Number(4), [Point(7, 0)])]);
    ScanRowAdvance(start, row, 0, 9, '.', [Part(Symbol('$'), [Point(2, 0)]), Part(Number(4), [Point(7, 0)])], [Part(Symbol('$'), [Point(2, 0)]), Part(Number(4), [Point(7, 0)])]);
  }

  /** Row 0 of the test `symbol_and_number_input`. */
  lemma SymbolAndNumberRow0(start: seq<Part>, row: string)
    requires start == []
    requires |row| == 10 && row[0] == '.' && row[1] == '.' && row[2] == '$' && row[3] == '.' && row[4] == '.' && row[5] == '.' && row[6] == '.' && row[7] == '4' && row[8] == '.' && row[9] == '.'
    ensures ScanRow(start, row, 0) == [Part(Symbol('$'), [Point(2, 0)]), Part(Number(4), [Point(7, 0)])]
  {
    assert row[..0] == [];
    SymbolAndNumberRow0At0(start, row);
    SymbolAndNumberRow0At1(start, row);
    SymbolAndNumberRow0At2(start, row);
    SymbolAndNumberRow0At3(start, row);
    SymbolAndNumberRow0At4(start, row);
    SymbolAndNumberRow0At5(start, row);
    SymbolAndNumberRow0At6(start, row);
    SymbolAndNumberRow0At7(start, row);
    SymbolAndNumberRow0At8(start, row);
    SymbolAndNumberRow0At9(start, row);
    assert row[..10] == row;
  }

  lemma SymbolAndNumberScanAt0(lines: seq<string>)
    requires 0 < |lines| && |lines[0]| == 10 && lines[0][0] == '.' && lines[0][1] == '.' && lines[0][2] == '$' && lines[0][3] == '.' && lines[0][4] == '.' && lines[0][5] == '.' && lines[0][6] == '.' && lines[0][7] == '4' && lines[0][8] == '.' && lines[0][9] == '.'
    requires Scan(lines[..0]) == []
    ensures Scan(lines[..1]) == [Part(Symbol('$'), [Point(2, 0)]), Part(Number(4), [Point(7, 0)])]
  {
    SymbolAndNumberRow0([], lines[0]);
    ScanAdvance(lines, 0, [], [Part(Symbol('$'), [Point(2, 0)]), Part(Number(4), [Point(7, 0)])]);
  }

  /** `parse_input` on the test `symbol_and_number_input`: '$' on (2, 0), then 4 on (7, 0). */
  lemma SymbolAndNumberScan(lines: seq<string>)
    requires lines == ["..$....4.."]
    ensures Scan(lines) == [Part(Symbol('$'), [Point(2, 0)]), Part(Number(4), [Point(7, 0)])]
  {
    assert lines[..0] == [];
    SymbolAndNumberScanAt0(lines);
    assert lines[..1] == lines;
  }

  lemma OneNeighborRow0At0(start: seq<Part>, row: string)
    requires 0 < |row| && row[0] == '4'
    requires ScanRow(start, row[..0], 0) == []
    ensures ScanRow(start, row[..1], 0) == [Part(Number(4), [Point(0, 0)])]
  {
    StepStart([], 0, 0, '4', 4, [Part(Number(4), [Point(0, 0)])]);
    ScanRowAdvance(start, row, 0, 0, '4', [], [Part(Number(4), [Point(0, 0)])]);
  }

  lemma OneNeighborRow0At1(start: seq<Part>, row: string)
    requires 1 < |row| && row[1] == '6'
    requires ScanRow(start, row[..1], 0) == [Part(Number(4), [Point(0, 0)])]
    ensures ScanRow(start, row[..2], 0) == [Part(Number(46), [Point(0, 0), Point(1, 0)])]
  {
    StepExtend([Part(Number(4), [Point(0, 0)])], [], 4, [Point(0, 0)], 1, 0, '6', 46, [Point(0, 0), Point(1, 0)], [Part(Number(46), [Point(0, 0), Point(1, 0)])]);
    ScanRowAdvance(start, row, 0, 1, '6', [Part(Number(4), [Point(0, 0)])], [Part(Number(46), [Point(0, 0), Point(1, 0)])]);
  }

  lemma OneNeighborRow0At2(start: seq<Part>, row: string)
    requires 2 < |row| && row[2] == '7'
    requires ScanRow(start, row[..2], 0) == [Part(Number(46), [Point(0, 0), Point(1, 0)])]
    ensures ScanRow(start, row[..3], 0) == [Part(Number(467), [Point(0, 0), Point(1, 0), Point(2, 0)])]
  {
    StepExtend([Part(Number(46), [Point(0, 0), Point(1, 0)])], [], 46, [Point(0, 0), Point(1, 0)], 2, 0, '7', 467, [Point(0, 0), Point(1, 0), Point(2, 0)], [Part(Number(467), [Point(0, 0), Point(1, 0), Point(2, 0)])]);
    ScanRowAdvance(start, row, 0, 2, '7', [Part(Number(46), [Point(0, 0), Point(1, 0)])], [Part(Number(467), [Point(0, 0), Point(1, 0), Point(2, 0)])]);
  }

  lemma OneNeighborRow0At3(start: seq<Part>, row: string)
    requires 3 < |row| && row[3] == '*'
    requires ScanRow(start, row[..3], 0) == [Part(Number(467), [Point(0, 0), Point(1, 0), Point(2, 0)])]
    ensures ScanRow(start, row[..4], 0) == [Part(Number(467), [Point(0, 0), Point(1, 0), Point(2, 0)]), Part(Symbol('*'), [Point(3, 0)])]
  {
    StepSymbol([Part(Number(467), [Point(0, 0), Point(1, 0), Point(2, 0)])], 3, 0, '*', [Part(Number(467), [Point(0, 0), Point(1, 0), Point(2, 0)]), Part(Symbol('*'), [Point(3, 0)])]);
    ScanRowAdvance(start, row, 0, 3, '*', [Part(Number(467), [Point(0, 0), Point(1, 0), Point(2, 0)])], [Part(Number(467), [Point(0, 0), Point(1, 0), Point(2, 0)]), Part(Symbol('*'), [Point(3, 0)])]);
  }

  lemma OneNeighborRow0At4(start: seq<Part>, row: string)
    requires 4 < |row| && row[4] == '.'
    requires ScanRow(start, row[..4], 0) == [Part(Number(467), [Point(0, 0), Point(1, 0), Point(2, 0)]), Part(Symbol('*'), [Point(3, 0)])]
    ensures ScanRow(start, row[..5], 0) == [Part(Number(467), [Point(0, 0), Point(1, 0), Point(2, 0)]), Part(Symbol('*'), [Point(3, 0)])]
  {
    StepSkip([Part(Number(467), [Point(0, 0), Point(1, 0), Point(2, 0)]), Part(Symbol('*'), [Point(3, 0)])], 4, 0, [Part(Number(467), [Point(0, 0), Point(1, 0), Point(2, 0)]), Part(Symbol('*'), [Point(3, 0)])]);
    ScanRowAdvance(start, row, 0, 4, '.', [Part(Number(467), [Point(0, 0), Point(1, 0), Point(2, 0)]), Part(Symbol('*'), [Point(3, 0)])], [Part(Number(467), [Point(0, 0), Point(1, 0), Point(2, 0)]), Part(Symbol('*'), [Point(3, 0)])]);
  }

  lemma OneNeighborRow0At5(start: seq<Part>, row: string)
    requires 5 < |row| && row[5] == '.'
    requires ScanRow(start, row[..5], 0) == [Part(Number(467), [Point(0, 0), Point(1, 0), Point(2, 0)]), Part(Symbol('*'), [Point(3, 0)])]
    ensures ScanRow(start, row[..6], 0) == [Part(Number(467), [Point(0, 0), Point(1, 0), Point(2, 0)]), Part(Symbol('*'), [Point(3, 0)])]
  {
    StepSkip([Part(Number(467), [Point(0, 0), Point(1, 0), Point(2, 0)]), Part(Symbol('*'), [Point(3, 0)])], 5, 0, [Part(Number(467), [Point(0, 0), Point(1, 0), Point(2, 0)]), Part(Symbol('*'), [Point(3, 0)])]);
    ScanRowAdvance(start, row, 0, 5, '.', [Part(Number(467), [Point(0, 0), Point(1, 0), Point(2, 0)]), Part(Symbol('*'), [Point(3, 0)])], [Part(Number(467), [Point(0, 0), Point(1, 0), Point(2, 0)]), Part(Symbol('*'), [Point(3, 0)])]);
  }

  lemma OneNeighborRow0At6(start: seq<Part>, row: string)
    requires 6 < |row| && row[6] == '.'
    requires ScanRow(start, row[..6], 0) == [Part(Number(467), [Point(0, 0), Point(1, 0), Point(2, 0)]), Part(Symbol('*'), [Point(3, 0)])]
    ensures ScanRow(start, row[..7], 0) == [Part(Number(467), [Point(0, 0), Point(1, 0), Point(2, 0)]), Part(Symbol('*'), [Point(3, 0)])]
  {
    StepSkip([Part(Number(467), [Point(0, 0), Point(1, 0), Point(2, 0)]), Part(Symbol('*'), [Point(3, 0)])], 6, 0, [Part(Number(467), [Point(0, 0), Point(1, 0), Point(2, 0)]), Part(Symbol('*'), [Point(3, 0)])]);
    ScanRowAdvance(start, row, 0, 6, '.', [Part(Number(467), [Point(0, 0), Point(1, 0), Point(2, 0)]), Part(Symbol('*'), [Point(3, 0)])], [Part(Number(467), [Point(0, 0), Point(1, 0), Point(2, 0)]), Part(Symbol('*'), [Point(3, 0)])]);
  }

  lemma OneNeighborRow0At7(start: seq<Part>, row: string)
    requires 7 < |row| && row[7] == '.'
    requires ScanRow(start, row[..7], 0) == [Part(Number(467), [Point(0, 0), Point(1, 0), Point(2, 0)]), Part(Symbol('*'), [Point(3, 0)])]
    ensures ScanRow(start, row[..8], 0) == [Part(Number(467), [Point(0, 0), Point(1, 0), Point(2, 0)]), Part(Symbol('*'), [Point(3, 0)])]
  {
    StepSkip([Part(Number(467), [Point(0, 0), Point(1, 0), Point(2, 0)]), Part(Symbol('*'), [Point(3, 0)])], 7, 0, [Part(Number(467), [Point(0, 0), Point(1, 0), Point(2, 0)]), Part(Symbol('*'), [Point(3, 0)])]);
    ScanRowAdvance(start, row, 0, 7, '.', [Part(Number(467), [Point(0, 0), Point(1, 0), Point(2, 0)]), Part(Symbol('*'), [Point(3, 0)])], [Part(Number(467), [Point(0, 0), Point(1, 0), Point(2, 0)]), Part(Symbol('*'), [Point(3, 0)])]);
  }

  lemma OneNeighborRow0At8(start: seq<Part>, row: string)
    requires 8 < |row| && row[8] == '.'
    requires ScanRow(start, row[..8], 0) == [Part(Number(467), [Point(0, 0), Point(1, 0), Point(2, 0)]), Part(Symbol('*'), [Point(3, 0)])]
    ensures ScanRow(start, row[..9], 0) == [Part(Number(467), [Point(0, 0), Point(1, 0), Point(2, 0)]), Part(Symbol('*'), [Point(3, 0)])]
  {
    StepSkip([Part(Number(467), [Point(0, 0), Point(1, 0), Point(2, 0)]), Part(Symbol('*'), [Point(3, 0)])], 8, 0, [Part(Number(467), [Point(0, 0), Point(1, 0), Point(2, 0)]), Part(Symbol('*'), [Point(3, 0)])]);
    ScanRowAdvance(start, row, 0, 8, '.', [Part(Number(467), [Point(0, 0), Point(1, 0), Point(2, 0)]), Part(Symbol('*'), [Point(3, 0)])], [Part(Number(467), [Point(0, 0), Point(1, 0), Point(2, 0)]), Part(Symbol('*'), [Point(3, 0)])]);
  }

  lemma OneNeighborRow0At9(start: seq<Part>, row: string)
    requires 9 < |row| && row[9] == '.'
    requires ScanRow(start, row[..9], 0) == [Part(Number(467), [Point(0, 0), Point(1, 0), Point(2, 0)]), Part(Symbol('*'), [Point(3, 0)])]
    ensures ScanRow(start, row[..10], 0) == [Part(Number(467), [Point(0, 0), Point(1, 0), Point(2, 0)]), Part(Symbol('*'), [Point(3, 0)])]
  {
    StepSkip([Part(Number(467), [Point(0, 0), Point(1, 0), Point(2, 0)]), Part(Symbol('*'), [Point(3, 0)])], 9, 0, [Part(Number(467), [Point(0, 0), Point(1, 0), Point(2, 0)]), Part(Symbol('*'), [Point(3, 0)])]);
    ScanRowAdvance(start, row, 0, 9, '.', [Part(Number(467), [Point(0, 0), Point(1, 0), Point(2, 0)]), Part(Symbol('*'), [Point(3, 0)])], [Part(Number(467), [Point(0, 0), Point(1, 0), Point(2, 0)]), Part(Symbol('*'), [Point(3, 0)])]);
  }

  /** Row 0 of the input of the test `one_neighbor`. */
  lemma OneNeighborRow0(start: seq<Part>, row: string)
    requires start == []
    requires |row| == 10 && row[0] == '4' && row[1] == '6' && row[2] == '7' && row[3] == '*' && row[4] == '.' && row[5] == '.' && row[6] == '.' && row[7] == '.' && row[8] == '.' && row[9] == '.'
    ensures ScanRow(start, row, 0) == [Part(Number(467), [Point(0, 0), Point(1, 0), Point(2, 0)]), Part(Symbol('*'), [Point(3, 0)])]
  {
    assert row[..0] == [];
    OneNeighborRow0At0(start, row);
    OneNeighborRow0At1(start, row);
    OneNeighborRow0At2(start, row);
    OneNeighborRow0At3(start, row);
    OneNeighborRow0At4(start, row);
    OneNeighborRow0At5(start, row);
    OneNeighborRow0At6(start, row);
    OneNeighborRow0At7(start, row);
    OneNeighborRow0At8(start, row);
    OneNeighborRow0At9(start, row);
    assert row[..10] == row;
  }

  lemma OneNeighborScanAt0(lines: seq<string>)
    requires 0 < |lines| && |lines[0]| == 10 && lines[0][0] == '4' && lines[0][1] == '6' && lines[0][2] == '7' && lines[0][3] == '*' && lines[0][4] == '.' && lines[0][5] == '.' && lines[0][6] == '.' && lines[0][7] == '.' && lines[0][8] == '.' && lines[0][9] == '.'
    requires Scan(lines[..0]) == []
    ensures Scan(lines[..1]) == [Part(Number(467), [Point(0, 0), Point(1, 0), Point(2, 0)]), Part(Symbol('*'), [Point(3, 0)])]
  {
    OneNeighborRow0([], lines[0]);
    ScanAdvance(lines, 0, [], [Part(Number(467), [Point(0, 0), Point(1, 0), Point(2, 0)]), Part(Symbol('*'), [Point(3, 0)])]);
  }

  /** `parse_input` on the input of the test `one_neighbor`. */
  lemma OneNeighborScan(lines: seq<string>)
    requires lines == ["467*......"]
    ensures Scan(lines) == [Part(Number(467), [Point(0, 0), Point(1, 0), Point(2, 0)]), Part(Symbol('*'), [Point(3, 0)])]
  {
    assert lines[..0] == [];
    OneNeighborScanAt0(lines);
    assert lines[..1] == lines;
  }

  lemma OneNeighborSymbolsAt1(parts: seq<Part>)
    requires 1 < |parts| && parts[1] == Part(Symbol('*'), [Point(3, 0)])
    requires SymbolParts(parts[2..]) == []
    ensures SymbolParts(parts[1..]) == [Part(Symbol('*'), [Point(3, 0)])]
  {
    SymbolPartsAdvance(parts, 1, [], [Part(Symbol('*'), [Point(3, 0)])]);
  }

  lemma OneNeighborSymbolsAt0(parts: seq<Part>)
    requires 0 < |parts| && parts[0] == Part(Number(467), [Point(0, 0), Point(1, 0), Point(2, 0)])
    requires SymbolParts(parts[1..]) == [Part(Symbol('*'), [Point(3, 0)])]
    ensures SymbolParts(parts[0..]) == [Part(Symbol('*'), [Point(3, 0)])]
  {
    SymbolPartsAdvance(parts, 0, [Part(Symbol('*'), [Point(3, 0)])], [Part(Symbol('*'), [Point(3, 0)])]);
  }

  /** The symbol parts of the test `one_neighbor`. */
  lemma OneNeighborSymbols(parts: seq<Part>)
    requires |parts| == 2 &&
             parts[0] == Part(Number(467), [Point(0, 0), Point(1, 0), Point(2, 0)]) &&
             parts[1] == Part(Symbol('*'), [Point(3, 0)])
    ensures |SymbolParts(parts)| == 1 &&
            SymbolParts(parts)[0] == Part(Symbol('*'), [Point(3, 0)])
  {
    assert parts[2..] == [];
    OneNeighborSymbolsAt1(parts);
    OneNeighborSymbolsAt0(parts);
    assert parts[0..] == parts;
  }

  lemma OneNeighborSumPoints(symbols: seq<Part>)
    requires symbols == [Part(Symbol('*'), [Point(3, 0)])]
    ensures Points(symbols) == [Point(3, 0)]
  {
    var trace: seq<seq<Point>> := [[], [Point(3, 0)]];
    PointsTrace(symbols, trace);
  }

  lemma OneNeighborSumAt1(parts: seq<Part>, symbols: seq<Part>)
    requires 1 < |parts| && parts[1] == Part(Symbol('*'), [Point(3, 0)])
    requires Points(symbols) == [Point(3, 0)]
    requires PartNumberSum(parts[2..], symbols) == 0
    ensures PartNumberSum(parts[1..], symbols) == 0
  {
    PartNumberSumAdvance(symbols, parts, 1, 0, 0);
  }

  lemma OneNeighborSumTouch0()
    ensures Touches([Point(0, 0), Point(1, 0), Point(2, 0)], [Point(3, 0)])
  {
  }

  lemma OneNeighborSumAt0(parts: seq<Part>, symbols: seq<Part>)
    requires 0 < |parts| && parts[0] == Part(Number(467), [Point(0, 0), Point(1, 0), Point(2, 0)])
    requires Points(symbols) == [Point(3, 0)]
    requires PartNumberSum(parts[1..], symbols) == 0
    ensures PartNumberSum(parts[0..], symbols) == 467
  {
    assert parts[0].points == [Point(0, 0), Point(1, 0), Point(2, 0)];
    OneNeighborSumTouch0();
    PartNumberSumAdvance(symbols, parts, 0, 0, 467);
  }

  /** Part 1's sum over the parts of the test `one_neighbor`. */
  lemma OneNeighborSum(parts: seq<Part>, symbols: seq<Part>)
    requires |parts| == 2 &&
             parts[0] == Part(Number(467), [Point(0, 0), Point(1, 0), Point(2, 0)]) &&
             parts[1] == Part(Symbol('*'), [Point(3, 0)])
    requires Points(symbols) == [Point(3, 0)]
    ensures PartNumberSum(parts, symbols) == 467
  {
    assert parts[2..] == [];
    OneNeighborSumAt1(parts, symbols);
    OneNeighborSumAt0(parts, symbols);
    assert parts[0..] == parts;
  }

  /** The test `one_neighbor`: 467 touches the '*', so Part 1 gives 467. */
  lemma OneNeighbor(lines: seq<string>)
    requires lines == ["467*......"]
    ensures SumOfPartNumbers(lines) == 467
  {
    OneNeighborScan(lines);
    var parts := Scan(lines);
    OneNeighborSymbols(parts);
    var symbols := SymbolParts(parts);
    OneNeighborSumPoints(symbols);
    OneNeighborSum(parts, symbols);
  }

  lemma CrossRowRow0At0(start: seq<Part>, row: string)
    requires 0 < |row| && row[0] == '.'
    requires ScanRow(start, row[..0], 0) == []
    ensures ScanRow(start, row[..1], 0) == []
  {
    StepSkip([], 0, 0, []);
    ScanRowAdvance(start, row, 0, 0, '.', [], []);
  }

  lemma CrossRowRow0At1(start: seq<Part>, row: string)
    requires 1 < |row| && row[1] == '.'
    requires ScanRow(start, row[..1], 0) == []
    ensures ScanRow(start, row[..2], 0) == []
  {
    StepSkip([], 1, 0, []);
    ScanRowAdvance(start, row, 0, 1, '.', [], []);
  }

  lemma CrossRowRow0At2(start: seq<Part>, row: string)
    requires 2 < |row| && row[2] == '5'
    requires ScanRow(start, row[..2], 0) == []
    ensures ScanRow(start, row[..3], 0) == [Part(Number(5), [Point(2, 0)])]
  {
    StepStart([], 2, 0, '5', 5, [Part(Number(5), [Point(2, 0)])]);
    ScanRowAdvance(start, row, 0, 2, '5', [], [Part(Number(5), [Point(2, 0)])]);
  }

  /** Row 0 of two rows whose digits touch diagonally. */
  lemma CrossRowRow0(start: seq<Part>, row: string)
    requires start == []
    requires |row| == 3 && row[0] == '.' && row[1] == '.' && row[2] == '5'
    ensures ScanRow(start, row, 0) == [Part(Number(5), [Point(2, 0)])]
  {
    assert row[..0] == [];
    CrossRowRow0At0(start, row);
    CrossRowRow0At1(start, row);
    CrossRowRow0At2(start, row);
    assert row[..3] == row;
  }

  lemma CrossRowRow1At0(start: seq<Part>, row: string)
    requires 0 < |row| && row[0] == '.'
    requires ScanRow(start, row[..0], 1) == [Part(Number(5), [Point(2, 0)])]
    ensures ScanRow(start, row[..1], 1) == [Part(Number(5), [Point(2, 0)])]
  {
    StepSkip([Part(Number(5), [Point(2, 0)])], 0, 1, [Part(Number(5), [Point(2, 0)])]);
    ScanRowAdvance(start, row, 1, 0, '.', [Part(Number(5), [Point(2, 0)])], [Part(Number(5), [Point(2, 0)])]);
  }

  lemma CrossRowRow1At1(start: seq<Part>, row: string)
    requires 1 < |row| && row[1] == '3'
    requires ScanRow(start, row[..1], 1) == [Part(Number(5), [Point(2, 0)])]
    ensures ScanRow(start, row[..2], 1) == [Part(Number(53), [Point(2, 0), Point(1, 1)])]
  {
    StepExtend([Part(Number(5), [Point(2, 0)])], [], 5, [Point(2, 0)], 1, 1, '3', 53, [Point(2, 0), Point(1, 1)], [Part(Number(53), [Point(2, 0), Point(1, 1)])]);
    ScanRowAdvance(start, row, 1, 1, '3', [Part(Number(5), [Point(2, 0)])], [Part(Number(53), [Point(2, 0), Point(1, 1)])]);
  }

  lemma CrossRowRow1At2(start: seq<Part>, row: string)
    requires 2 < |row| && row[2] == '.'
    requires ScanRow(start, row[..2], 1) == [Part(Number(53), [Point(2, 0), Point(1, 1)])]
    ensures ScanRow(start, row[..3], 1) == [Part(Number(53), [Point(2, 0), Point(1, 1)])]
  {
    StepSkip([Part(Number(53), [Point(2, 0), Point(1, 1)])], 2, 1, [Part(Number(53), [Point(2, 0), Point(1, 1)])]);
    ScanRowAdvance(start, row, 1, 2, '.', [Part(Number(53), [Point(2, 0), Point(1, 1)])], [Part(Number(53), [Point(2, 0), Point(1, 1)])]);
  }

  /** Row 1 of two rows whose digits touch diagonally. */
  lemma CrossRowRow1(start: seq<Part>, row: string)
    requires start == [Part(Number(5), [Point(2, 0)])]
    requires |row| == 3 && row[0] == '.' && row[1] == '3' && row[2] == '.'
    ensures ScanRow(start, row, 1) == [Part(Number(53), [Point(2, 0), Point(1, 1)])]
  {
    assert row[..0] == [];
    CrossRowRow1At0(start, row);
    CrossRowRow1At1(start, row);
    CrossRowRow1At2(start, row);
    assert row[..3] == row;
  }

  lemma CrossRowScanAt0(lines: seq<string>)
    requires 0 < |lines| && |lines[0]| == 3 && lines[0][0] == '.' && lines[0][1] == '.' && lines[0][2] == '5'
    requires Scan(lines[..0]) == []
    ensures Scan(lines[..1]) == [Part(Number(5), [Point(2, 0)])]
  {
    CrossRowRow0([], lines[0]);
    ScanAdvance(lines, 0, [], [Part(Number(5), [Point(2, 0)])]);
  }

  lemma CrossRowScanAt1(lines: seq<string>)
    requires 1 < |lines| && |lines[1]| == 3 && lines[1][0] == '.' && lines[1][1] == '3' && lines[1][2] == '.'
    requires Scan(lines[..1]) == [Part(Number(5), [Point(2, 0)])]
    ensures Scan(lines[..2]) == [Part(Number(53), [Point(2, 0), Point(1, 1)])]
  {
    CrossRowRow1([Part(Number(5), [Point(2, 0)])], lines[1]);
    ScanAdvance(lines, 1, [Part(Number(5), [Point(2, 0)])], [Part(Number(53), [Point(2, 0), Point(1, 1)])]);
  }

  /** `parse_input` on two rows whose digits touch diagonally: the 3 below and left of the 5 extends it into 53, because only the last point of the last part is compared. */
  lemma CrossRowScan(lines: seq<string>)
    requires lines == ["..5", ".3."]
    ensures Scan(lines) == [Part(Number(53), [Point(2, 0), Point(1, 1)])]
  {
    assert lines[..0] == [];
    CrossRowScanAt0(lines);
    CrossRowScanAt1(lines);
    assert lines[..2] == lines;
  }

  lemma SampleRow0At0(start: seq<Part>, row: string)
    requires 0 < |row| && row[0] == '4'
    requires ScanRow(start, row[..0], 0) == []
    ensures ScanRow(start, row[..1], 0) == [Part(Number(4), [Point(0, 0)])]
  {
    StepStart([], 0, 0, '4', 4, [Part(Number(4), [Point(0, 0)])]);
    ScanRowAdvance(start, row, 0, 0, '4', [], [Part(Number(4), [Point(0, 0)])]);
  }

  lemma SampleRow0At1(start: seq<Part>, row: string)
    requires 1 < |row| && row[1] == '6'
    requires ScanRow(start, row[..1], 0) == [Part(Number(4), [Point(0, 0)])]
    ensures ScanRow(start, row[..2], 0) == [Part(Number(46), [Point(0, 0), Point(1, 0)])]
  {
    StepExtend([Part(Number(4), [Point(0, 0)])], [], 4, [Point(0, 0)], 1, 0, '6', 46, [Point(0, 0), Point(1, 0)], [Part(Number(46), [Point(0, 0), Point(1, 0)])]);
    ScanRowAdvance(start, row, 0, 1, '6', [Part(Number(4), [Point(0, 0)])], [Part(Number(46), [Point(0, 0), Point(1, 0)])]);
  }

  lemma SampleRow0At2(start: seq<Part>, row: string)
    requires 2 < |row| && row[2] == '7'
    requires ScanRow(start, row[..2], 0) == [Part(Number(46), [Point(0, 0), Point(1, 0)])]
    ensures ScanRow(start, row[..3], 0) == [Part(Number(467), [Point(0, 0), Point(1, 0), Point(2, 0)])]
  {
    StepExtend([Part(Number(46), [Point(0, 0), Point(1, 0)])], [], 46, [Point(0, 0), Point(1, 0)], 2, 0, '7', 467, [Point(0, 0), Point(1, 0), Point(2, 0)], [Part(Number(467), [Point(0, 0), Point(1, 0), Point(2, 0)])]);
    ScanRowAdvance(start, row, 0, 2, '7', [Part(Number(46), [Point(0, 0), Point(1, 0)])], [Part(Number(467), [Point(0, 0), Point(1, 0), Point(2, 0)])]);
  }

  lemma SampleRow0At3(start: seq<Part>, row: string)
    requires 3 < |row| && row[3] == '.'
    requires ScanRow(start, row[..3], 0) == [Part(Number(467), [Point(0, 0), Point(1, 0), Point(2, 0)])]
    ensures ScanRow(start, row[..4], 0) == [Part(Number(467), [Point(0, 0), Point(1, 0), Point(2, 0)])]
  {
    StepSkip([Part(Number(467), [Point(0, 0), Point(1, 0), Point(2, 0)])], 3, 0, [Part(Number(467), [Point(0, 0), Point(1, 0), Point(2, 0)])]);
    ScanRowAdvance(start, row, 0, 3, '.', [Part(Number(467), [Point(0, 0), Point(1, 0), Point(2, 0)])], [Part(Number(467), [Point(0, 0), Point(1, 0), Point(2, 0)])]);
  }

  lemma SampleRow0At4(start: seq<Part>, row: string)
    requires 4 < |row| && row[4] == '.'
    requires ScanRow(start, row[..4], 0) == [Part(Number(467), [Point(0, 0), Point(1, 0), Point(2, 0)])]
    ensures ScanRow(start, row[..5], 0) == [Part(Number(467), [Point(0, 0), Point(1, 0), Point(2, 0)])]
  {
    StepSkip([Part(Number(467), [Point(0, 0), Point(1, 0), Point(2, 0)])], 4, 0, [Part(Number(467), [Point(0, 0), Point(1, 0), Point(2, 0)])]);
    ScanRowAdvance(start, row, 0, 4, '.', [Part(Number(467), [Point(0, 0), Point(1, 0), Point(2, 0)])], [Part(Number(467), [Point(0, 0), Point(1, 0), Point(2, 0)])]);
  }

  lemma SampleRow0At5(start: seq<Part>, row: string)
    requires 5 < |row| && row[5] == '1'
    requires ScanRow(start, row[..5], 0) == [Part(Number(467), [Point(0, 0), Point(1, 0), Point(2, 0)])]
    ensures ScanRow(start, row[..6], 0) == [Part(Number(467), [Point(0, 0), Point(1, 0), Point(2, 0)]), Part(Number(1), [Point(5, 0)])]
  {
    StepStart([Part(Number(467), [Point(0, 0), Point(1, 0), Point(2, 0)])], 5, 0, '1', 1, [Part(Number(467), [Point(0, 0), Point(1, 0), Point(2, 0)]), Part(Number(1), [Point(5, 0)])]);
    ScanRowAdvance(start, row, 0, 5, '1', [Part(Number(467), [Point(0, 0), Point(1, 0), Point(2, 0)])], [Part(Number(467), [Point(0, 0), Point(1, 0), Point(2, 0)]), Part(Number(1), [Point(5, 0)])]);
  }

  lemma SampleRow0At6(start: seq<Part>, row: string)
    requires 6 < |row| && row[6] == '1'
    requires ScanRow(start, row[..6], 0) == [Part(Number(467), [Point(0, 0), Point(1, 0), Point(2, 0)]), Part(Number(1), [Point(5, 0)])]
    ensures ScanRow(start, row[..7], 0) == [Part(Number(467), [Point(0, 0), Point(1, 0), Point(2, 0)]), Part(Number(11), [Point(5, 0), Point(6, 0)])]
  {
    StepExtend([Part(Number(467), [Point(0, 0), Point(1, 0), Point(2, 0)]), Part(Number(1), [Point(5, 0)])], [Part(Number(467), [Point(0, 0), Point(1, 0), Point(2, 0)])], 1, [Point(5, 0)], 6, 0, '1', 11, [Point(5, 0), Point(6, 0)], [Part(Number(467), [Point(0, 0), Point(1, 0), Point(2, 0)]), Part(Number(11), [Point(5, 0), Point(6, 0)])]);
    ScanRowAdvance(start, row, 0, 6, '1', [Part(Number(467), [Point(0, 0), Point(1, 0), Point(2, 0)]), Part(Number(1), [Point(5, 0)])], [Part(Number(467), [Point(0, 0), Point(1, 0), Point(2, 0)]), Part(Number(11), [Point(5, 0), Point(6, 0)])]);
  }

  lemma SampleRow0At7(start: seq<Part>, row: string)
    requires 7 < |row| && row[7] == '4'
    requires ScanRow(start, row[..7], 0) == [Part(Number(467), [Point(0, 0), Point(1, 0), Point(2, 0)]), Part(Number(11), [Point(5, 0), Point(6, 0)])]
    ensures ScanRow(start, row[..8], 0) == [Part(Number(467), [Point(0, 0), Point(1, 0), Point(2, 0)]), Part(Number(114), [Point(5, 0), Point(6, 0), Point(7, 0)])]
  {
    StepExtend([Part(Number(467), [Point(0, 0), Point(1, 0), Point(2, 0)]), Part(Number(11), [Point(5, 0), Point(6, 0)])], [Part(Number(467), [Point(0, 0), Point(1, 0), Point(2, 0)])], 11, [Point(5, 0), Point(6, 0)], 7, 0, '4', 114, [Point(5, 0), Point(6, 0), Point(7, 0)], [Part(Number(467), [Point(0, 0), Point(1, 0), Point(2, 0)]), Part(Number(114), [Point(5, 0), Point(6, 0), Point(7, 0)])]);
    ScanRowAdvance(start, row, 0, 7, '4', [Part(Number(467), [Point(0, 0), Point(1, 0), Point(2, 0)]), Part(Number(11), [Point(5, 0), Point(6, 0)])], [Part(Number(467), [Point(0, 0), Point(1, 0), Point(2, 0)]), Part(Number(114), [Point(5, 0), Point(6, 0), Point(7, 0)])]);
  }

  lemma SampleRow0At8(start: seq<Part>, row: string)
    requires 8 < |row| && row[8] == '.'
    requires ScanRow(start, row[..8], 0) == [Part(Number(467), [Point(0, 0), Point(1, 0), Point(2, 0)]), Part(Number(114), [Point(5, 0), Point(6, 0), Point(7, 0)])]
    ensures ScanRow(start, row[..9], 0) == [Part(Number(467), [Point(0, 0), Point(1, 0), Point(2, 0)]), Part(Number(114), [Point(5, 0), Point(6, 0), Point(7, 0)])]
  {
    StepSkip([Part(Number(467), [Point(0, 0), Point(1, 0), Point(2, 0)]), Part(Number(114), [Point(5, 0), Point(6, 0), Point(7, 0)])], 8, 0, [Part(Number(467), [Point(0, 0), Point(1, 0), Point(2, 0)]), Part(Number(114), [Point(5, 0), Point(6, 0), Point(7, 0)])]);
    ScanRowAdvance(start, row, 0, 8, '.', [Part(Number(467), [Point(0, 0), Point(1, 0), Point(2, 0)]), Part(Number(114), [Point(5, 0), Point(6, 0), Point(7, 0)])], [Part(Number(467), [Point(0, 0), Point(1, 0), Point(2, 0)]), Part(Number(114), [Point(5, 0), Point(6, 0), Point(7, 0)])]);
  }

  lemma SampleRow0At9(start: seq<Part>, row: string)
    requires 9 < |row| && row[9] == '.'
    requires ScanRow(start, row[..9], 0) == [Part(Number(467), [Point(0, 0), Point(1, 0), Point(2, 0)]), Part(Number(114), [Point(5, 0), Point(6, 0), Point(7, 0)])]
    ensures ScanRow(start, row[..10], 0) == [Part(Number(467), [Point(0, 0), Point(1, 0), Point(2, 0)]), Part(Number(114), [Point(5, 0), Point(6, 0), Point(7, 0)])]
  {
    StepSkip([Part(Number(467), [Point(0, 0), Point(1, 0), Point(2, 0)]), Part(Number(114), [Point(5, 0), Point(6, 0), Point(7, 0)])], 9, 0, [Part(Number(467), [Point(0, 0), Point(1, 0), Point(2, 0)]), Part(Number(114), [Point(5, 0), Point(6, 0), Point(7, 0)])]);
    ScanRowAdvance(start, row, 0, 9, '.', [Part(Number(467), [Point(0, 0), Point(1, 0), Point(2, 0)]), Part(Number(114), [Point(5, 0), Point(6, 0), Point(7, 0)])], [Part(Number(467), [Point(0, 0), Point(1, 0), Point(2, 0)]), Part(Number(114), [Point(5, 0), Point(6, 0), Point(7, 0)])]);
  }

  /** Row 0 of the sample grid. */
  lemma SampleRow0(start: seq<Part>, row: string)
    requires start == []
    requires |row| == 10 && row[0] == '4' && row[1] == '6' && row[2] == '7' && row[3] == '.' && row[4] == '.' && row[5] == '1' && row[6] == '1' && row[7] == '4' && row[8] == '.' && row[9] == '.'
    ensures ScanRow(start, row, 0) == [Part(Number(467), [Point(0, 0), Point(1, 0), Point(2, 0)]), Part(Number(114), [Point(5, 0), Point(6, 0), Point(7, 0)])]
  {
    assert row[..0] == [];
    SampleRow0At0(start, row);
    SampleRow0At1(start, row);
    SampleRow0At2(start, row);
    SampleRow0At3(start, row);
    SampleRow0At4(start, row);
    SampleRow0At5(start, row);
    SampleRow0At6(start, row);
    SampleRow0At7(start, row);
    SampleRow0At8(start, row);
    SampleRow0At9(start, row);
    assert row[..10] == row;
  }

  lemma SampleRow1At0(start: seq<Part>, row: string)
    requires 0 < |row| && row[0] == '.'
    requires ScanRow(start, row[..0], 1) == [Part(Number(467), [Point(0, 0), Point(1, 0), Point(2, 0)]), Part(Number(114), [Point(5, 0), Point(6, 0), Point(7, 0)])]
    ensures ScanRow(start, row[..1], 1) == [Part(Number(467), [Point(0, 0), Point(1, 0), Point(2, 0)]), Part(Number(114), [Point(5, 0), Point(6, 0), Point(7, 0)])]
  {
    StepSkip([Part(Number(467), [Point(0, 0), Point(1, 0), Point(2, 0)]), Part(Number(114), [Point(5, 0), Point(6, 0), Point(7, 0)])], 0, 1, [Part(Number(467), [Point(0, 0), Point(1, 0), Point(2, 0)]), Part(Number(114), [Point(5, 0), Point(6, 0), Point(7, 0)])]);
    ScanRowAdvance(start, row, 1, 0, '.', [Part(Number(467), [Point(0, 0), Point(1, 0), Point(2, 0)]), Part(Number(114), [Point(5, 0), Point(6, 0), Point(7, 0)])], [Part(Number(467), [Point(0, 0), Point(1, 0), Point(2, 0)]), Part(Number(114), [Point(5, 0), Point(6, 0), Point(7, 0)])]);
  }

  lemma SampleRow1At1(start: seq<Part>, row: string)
    requires 1 < |row| && row[1] == '.'
    requires ScanRow(start, row[..1], 1) == [Part(Number(467), [Point(0, 0), Point(1, 0), Point(2, 0)]), Part(Number(114), [Point(5, 0), Point(6, 0), Point(7, 0)])]
    ensures ScanRow(start, row[..2], 1) == [Part(Number(467), [Point(0, 0), Point(1, 0), Point(2, 0)]), Part(Number(114), [Point(5, 0), Point(6, 0), Point(7, 0)])]
  {
    StepSkip([Part(Number(467), [Point(0, 0), Point(1, 0), Point(2, 0)]), Part(Number(114), [Point(5, 0), Point(6, 0), Point(7, 0)])], 1, 1, [Part(Number(467), [Point(0, 0), Point(1, 0), Point(2, 0)]), Part(Number(114), [Point(5, 0), Point(6, 0), Point(7, 0)])]);
    ScanRowAdvance(start, row, 1, 1, '.', [Part(Number(467), [Point(0, 0), Point(1, 0), Point(2, 0)]), Part(Number(114), [Point(5, 0), Point(6, 0), Point(7, 0)])], [Part(Number(467), [Point(0, 0), Point(1, 0), Point(2, 0)]), Part(Number(114), [Point(5, 0), Point(6, 0), Point(7, 0)])]);
  }

  lemma SampleRow1At2(start: seq<Part>, row: string)
    requires 2 < |row| && row[2] == '.'
    requires ScanRow(start, row[..2], 1) == [Part(Number(467), [Point(0, 0), Point(1, 0), Point(2, 0)]), Part(Number(114), [Point(5, 0), Point(6, 0), Point(7, 0)])]
    ensures ScanRow(start, row[..3], 1) == [Part(Number(467), [Point(0, 0), Point(1, 0), Point(2, 0)]), Part(Number(114), [Point(5, 0), Point(6, 0), Point(7, 0)])]
  {
    StepSkip([Part(Number(467), [Point(0, 0), Point(1, 0), Point(2, 0)]), Part(Number(114), [Point(5, 0), Point(6, 0), Point(7, 0)])], 2, 1, [Part(Number(467), [Point(0, 0), Point(1, 0), Point(2, 0)]), Part(Number(114), [Point(5, 0), Point(6, 0), Point(7, 0)])]);
    ScanRowAdvance(start, row, 1, 2, '.', [Part(Number(467), [Point(0, 0), Point(1, 0), Point(2, 0)]), Part(Number(114), [Point(5, 0), Point(6, 0), Point(7, 0)])], [Part(Number(467), [Point(0, 0), Point(1, 0), Point(2, 0)]), Part(Number(114), [Point(5, 0), Point(6, 0), Point(7, 0)])]);
  }

  lemma SampleRow1At3(start: seq<Part>, row: string)
    requires 3 < |row| && row[3] == '*'
    requires ScanRow(start, row[..3], 1) == [Part(Number(467), [Point(0, 0), Point(1, 0), Point(2, 0)]), Part(Number(114), [Point(5, 0), Point(6, 0), Point(7, 0)])]
    ensures ScanRow(start, row[..4], 1) == [Part(Number(467), [Point(0, 0), Point(1, 0), Point(2, 0)]), Part(Number(114), [Point(5, 0), Point(6, 0), Point(7, 0)]), Part(Symbol('*'), [Point(3, 1)])]
  {
    StepSymbol([Part(Number(467), [Point(0, 0), Point(1, 0), Point(2, 0)]), Part(Number(114), [Point(5, 0), Point(6, 0), Point(7, 0)])], 3, 1, '*', [Part(Number(467), [Point(0, 0), Point(1, 0), Point(2, 0)]), Part(Number(114), [Point(5, 0), Point(6, 0), Point(7, 0)]), Part(Symbol('*'), [Point(3, 1)])]);
    ScanRowAdvance(start, row, 1, 3, '*', [Part(Number(467), [Point(0, 0), Point(1, 0), Point(2, 0)]), Part(Number(114), [Point(5, 0), Point(6, 0), Point(7, 0)])], [Part(Number(467), [Point(0, 0), Point(1, 0), Point(2, 0)]), Part(Number(114), [Point(5, 0), Point(6, 0), Point(7, 0)]), Part(Symbol('*'), [Point(3, 1)])]);
  }

  lemma SampleRow1At4(start: seq<Part>, row: string)
    requires 4 < |row| && row[4] == '.'
    requires ScanRow(start, row[..4], 1) == [Part(Number(467), [Point(0, 0), Point(1, 0), Point(2, 0)]), Part(Number(114), [Point(5, 0), Point(6, 0), Point(7, 0)]), Part(Symbol('*'), [Point(3, 1)])]
    ensures ScanRow(start, row[..5], 1) == [Part(Number(467), [Point(0, 0), Point(1, 0), Point(2, 0)]), Part(Number(114), [Point(5, 0), Point(6, 0), Point(7, 0)]), Part(Symbol('*'), [Point(3, 1)])]
  {
    StepSkip([Part(Number(467), [Point(0, 0), Point(1, 0), Point(2, 0)]), Part(Number(114), [Point(5, 0), Point(6, 0), Point(7, 0)]), Part(Symbol('*'), [Point(3, 1)])], 4, 1, [Part(Number(467), [Point(0, 0), Point(1, 0), Point(2, 0)]), Part(Number(114), [Point(5, 0), Point(6, 0), Point(7, 0)]), Part(Symbol('*'), [Point(3, 1)])]);
    ScanRowAdvance(start, row, 1, 4, '.', [Part(Number(467), [Point(0, 0), Point(1, 0), Point(2, 0)]), Part(Number(114), [Point(5, 0), Point(6, 0), Point(7, 0)]), Part(Symbol('*'), [Point(3, 1)])], [Part(Number(467), [Point(0, 0), Point(1, 0), Point(2, 0)]), Part(Number(114), [Point(5, 0), Point(6, 0), Point(7, 0)]), Part(Symbol('*'), [Point(3, 1)])]);
  }

  lemma SampleRow1At5(start: seq<Part>, row: string)
    requires 5 < |row| && row[5] == '.'
    requires ScanRow(start, row[..5], 1) == [Part(Number(467), [Point(0, 0), Point(1, 0), Point(2, 0)]), Part(Number(114), [Point(5, 0), Point(6, 0), Point(7, 0)]), Part(Symbol('*'), [Point(3, 1)])]
    ensures ScanRow(start, row[..6], 1) == [Part(Number(467), [Point(0, 0), Point(1, 0), Point(2, 0)]), Part(Number(114), [Point(5, 0), Point(6, 0), Point(7, 0)]), Part(Symbol('*'), [Point(3, 1)])]
  {
    StepSkip([Part(Number(467), [Point(0, 0), Point(1, 0), Point(2, 0)]), Part(Number(114), [Point(5, 0), Point(6, 0), Point(7, 0)]), Part(Symbol('*'), [Point(3, 1)])], 5, 1, [Part(Number(467), [Point(0, 0), Point(1, 0), Point(2, 0)]), Part(Number(114), [Point(5, 0), Point(6, 0), Point(7, 0)]), Part(Symbol('*'), [Point(3, 1)])]);
    ScanRowAdvance(start, row, 1, 5, '.', [Part(Number(467), [Point(0, 0), Point(1, 0), Point(2, 0)]), Part(Number(114), [Point(5, 0), Point(6, 0), Point(7, 0)]), Part(Symbol('*'), [Point(3, 1)])], [Part(Number(467), [Point(0, 0), Point(1, 0), Point(2, 0)]), Part(Number(114), [Point(5, 0), Point(6, 0), Point(7, 0)]), Part(Symbol('*'), [Point(3, 1)])]);
  }

  lemma SampleRow1At6(start: seq<Part>, row: string)
    requires 6 < |row| && row[6] == '.'
    requires ScanRow(start, row[..6], 1) == [Part(Number(467), [Point(0, 0), Point(1, 0), Point(2, 0)]), Part(Number(114), [Point(5, 0), Point(6, 0), Point(7, 0)]), Part(Symbol('*'), [Point(3, 1)])]
    ensures ScanRow(start, row[..7], 1) == [Part(Number(467), [Point(0, 0), Point(1, 0), Point(2, 0)]), Part(Number(114), [Point(5, 0), Point(6, 0), Point(7, 0)]), Part(Symbol('*'), [Point(3, 1)])]
  {
    StepSkip([Part(Number(467), [Point(0, 0), Point(1, 0), Point(2, 0)]), Part(Number(114), [Point(5, 0), Point(6, 0), Point(7, 0)]), Part(Symbol('*'), [Point(3, 1)])], 6, 1, [Part(Number(467), [Point(0, 0), Point(1, 0), Point(2, 0)]), Part(Number(114), [Point(5, 0), Point(6, 0), Point(7, 0)]), Part(Symbol('*'), [Point(3, 1)])]);
    ScanRowAdvance(start, row, 1, 6, '.', [Part(Number(467), [Point(0, 0), Point(1, 0), Point(2, 0)]), Part(Number(114), [Point(5, 0), Point(6, 0), Point(7, 0)]), Part(Symbol('*'), [Point(3, 1)])], [Part(Number(467), [Point(0, 0), Point(1, 0), Point(2, 0)]), Part(Number(114), [Point(5, 0), Point(6, 0), Point(7, 0)]), Part(Symbol('*'), [Point(3, 1)])]);
  }

  lemma SampleRow1At7(start: seq<Part>, row: string)
    requires 7 < |row| && row[7] == '.'
    requires ScanRow(start, row[..7], 1) == [Part(Number(467), [Point(0, 0), Point(1, 0), Point(2, 0)]), Part(Number(114), [Point(5, 0), Point(6, 0), Point(7, 0)]), Part(Symbol('*'), [Point(3, 1)])]
    ensures ScanRow(start, row[..8], 1) == [Part(Number(467), [Point(0, 0), Point(1, 0), Point(2, 0)]), Part(Number(114), [Point(5, 0), Point(6, 0), Point(7, 0)]), Part(Symbol('*'), [Point(3, 1)])]
  {
    StepSkip([Part(Number(467), [Point(0, 0), Point(1, 0), Point(2, 0)]), Part(Number(114), [Point(5, 0), Point(6, 0), Point(7, 0)]), Part(Symbol('*'), [Point(3, 1)])], 7, 1, [Part(Number(467), [Point(0, 0), Point(1, 0), Point(2, 0)]), Part(Number(114), [Point(5, 0), Point(6, 0), Point(7, 0)]), Part(Symbol('*'), [Point(3, 1)])]);
    ScanRowAdvance(start, row, 1, 7, '.', [Part(Number(467), [Point(0, 0), Point(1, 0), Point(2, 0)]), Part(Number(114), [Point(5, 0), Point(6, 0), Point(7, 0)]), Part(Symbol('*'), [Point(3, 1)])], [Part(Number(467), [Point(0, 0), Point(1, 0), Point(2, 0)]), Part(Number(114), [Point(5, 0), Point(6, 0), Point(7, 0)]), Part(Symbol('*'), [Point(3, 1)])]);
  }

  lemma SampleRow1At8(start: seq<Part>, row: string)
    requires 8 < |row| && row[8] == '.'
    requires ScanRow(start, row[..8], 1) == [Part(Number(467), [Point(0, 0), Point(1, 0), Point(2, 0)]), Part(Number(114), [Point(5, 0), Point(6, 0), Point(7, 0)]), Part(Symbol('*'), [Point(3, 1)])]
    ensures ScanRow(start, row[..9], 1) == [Part(Number(467), [Point(0, 0), Point(1, 0), Point(2, 0)]), Part(Number(114), [Point(5, 0), Point(6, 0), Point(7, 0)]), Part(Symbol('*'), [Point(3, 1)])]
  {
    StepSkip([Part(Number(467), [Point(0, 0), Point(1, 0), Point(2, 0)]), Part(Number(114), [Point(5, 0), Point(6, 0), Point(7, 0)]), Part(Symbol('*'), [Point(3, 1)])], 8, 1, [Part(Number(467), [Point(0, 0), Point(1, 0), Point(2, 0)]), Part(Number(114), [Point(5, 0), Point(6, 0), Point(7, 0)]), Part(Symbol('*'), [Point(3, 1)])]);
    ScanRowAdvance(start, row, 1, 8, '.', [Part(Number(467), [Point(0, 0), Point(1, 0), Point(2, 0)]), Part(Number(114), [Point(5, 0), Point(6, 0), Point(7, 0)]), Part(Symbol('*'), [Point(3, 1)])], [Part(Number(467), [Point(0, 0), Point(1, 0), Point(2, 0)]), Part(Number(114), [Point(5, 0), Point(6, 0), Point(7, 0)]), Part(Symbol('*'), [Point(3, 1)])]);
  }

  lemma SampleRow1At9(start: seq<Part>, row: string)
    requires 9 < |row| && row[9] == '.'
    requires ScanRow(start, row[..9], 1) == [Part(Number(467), [Point(0, 0), Point(1, 0), Point(2, 0)]), Part(Number(114), [Point(5, 0), Point(6, 0), Point(7, 0)]), Part(Symbol('*'), [Point(3, 1)])]
    ensures ScanRow(start, row[..10], 1) == [Part(Number(467), [Point(0, 0), Point(1, 0), Point(2, 0)]), Part(Number(114), [Point(5, 0), Point(6, 0), Point(7, 0)]), Part(Symbol('*'), [Point(3, 1)])]
  {
    StepSkip([Part(Number(467), [Point(0, 0), Point(1, 0), Point(2, 0)]), Part(Number(114), [Point(5, 0), Point(6, 0), Point(7, 0)]), Part(Symbol('*'), [Point(3, 1)])], 9, 1, [Part(Number(467), [Point(0, 0), Point(1, 0), Point(2, 0)]), Part(Number(114), [Point(5, 0), Point(6, 0), Point(7, 0)]), Part(Symbol('*'), [Point(3, 1)])]);
    ScanRowAdvance(start, row, 1, 9, '.', [Part(Number(467), [Point(0, 0), Point(1, 0), Point(2, 0)]), Part(Number(114), [Point(5, 0), Point(6, 0), Point(7, 0)]), Part(Symbol('*'), [Point(3, 1)])], [Part(Number(467), [Point(0, 0), Point(1, 0), Point(2, 0)]), Part(Number(114), [Point(5, 0), Point(6, 0), Point(7, 0)]), Part(Symbol('*'), [Point(3, 1)])]);
  }

  /** Row 1 of the sample grid. */
  lemma SampleRow1(start: seq<Part>, row: string)
    requires start == [Part(Number(467), [Point(0, 0), Point(1, 0), Point(2, 0)]), Part(Number(114), [Point(5, 0), Point(6, 0), Point(7, 0)])]
    requires |row| == 10 && row[0] == '.' && row[1] == '.' && row[2] == '.' && row[3] == '*' && row[4] == '.' && row[5] == '.' && row[6] == '.' && row[7] == '.' && row[8] == '.' && row[9] == '.'
    ensures ScanRow(start, row, 1) == [Part(Number(467), [Point(0, 0), Point(1, 0), Point(2, 0)]), Part(Number(114), [Point(5, 0), Point(6, 0), Point(7, 0)]), Part(Symbol('*'), [Point(3, 1)])]
  {
    assert row[..0] == [];
    SampleRow1At0(start, row);
    SampleRow1At1(start, row);
    SampleRow1At2(start, row);
    SampleRow1At3(start, row);
    SampleRow1At4(start, row);
    SampleRow1At5(start, row);
    SampleRow1At6(start, row);
    SampleRow1At7(start, row);
    SampleRow1At8(start, row);
    SampleRow1At9(start, row);
    assert row[..10] == row;
  }

  lemma SampleRow2At0(start: seq<Part>, row: string)
    requires 0 < |row| && row[0] == '.'
    requires ScanRow(start, row[..0], 2) == [Part(Number(467), [Point(0, 0), Point(1, 0), Point(2, 0)]), Part(Number(114), [Point(5, 0), Point(6, 0), Point(7, 0)]), Part(Symbol('*'), [Point(3, 1)])]
    ensures ScanRow(start, row[..1], 2) == [Part(Number(467), [Point(0, 0), Point(1, 0), Point(2, 0)]), Part(Number(114), [Point(5, 0), Point(6, 0), Point(7, 0)]), Part(Symbol('*'), [Point(3, 1)])]
  {
    StepSkip([Part(Number(467), [Point(0, 0), Point(1, 0), Point(2, 0)]), Part(Number(114), [Point(5, 0), Point(6, 0), Point(7, 0)]), Part(Symbol('*'), [Point(3, 1)])], 0, 2, [Part(Number(467), [Point(0, 0), Point(1, 0), Point(2, 0)]), Part(Number(114), [Point(5, 0), Point(6, 0), Point(7, 0)]), Part(Symbol('*'), [Point(3, 1)])]);
    ScanRowAdvance(start, row, 2, 0, '.', [Part(Number(467), [Point(0, 0), Point(1, 0), Point(2, 0)]), Part(Number(114), [Point(5, 0), Point(6, 0), Point(7, 0)]), Part(Symbol('*'), [Point(3, 1)])], [Part(Number(467), [Point(0, 0), Point(1, 0), Point(2, 0)]), Part(Number(114), [Point(5, 0), Point(6, 0), Point(7, 0)]), Part(Symbol('*'), [Point(3, 1)])]);
  }

  lemma SampleRow2At1(start: seq<Part>, row: string)
    requires 1 < |row| && row[1] == '.'
    requires ScanRow(start, row[..1], 2) == [Part(Number(467), [Point(0, 0), Point(1, 0), Point(2, 0)]), Part(Number(114), [Point(5, 0), Point(6, 0), Point(7, 0)]), Part(Symbol('*'), [Point(3, 1)])]
    ensures ScanRow(start, row[..2], 2) == [Part(Number(467), [Point(0, 0), Point(1, 0), Point(2, 0)]), Part(Number(114), [Point(5, 0), Point(6, 0), Point(7, 0)]), Part(Symbol('*'), [Point(3, 1)])]
  {
    StepSkip([Part(Number(467), [Point(0, 0), Point(1, 0), Point(2, 0)]), Part(Number(114), [Point(5, 0), Point(6, 0), Point(7, 0)]), Part(Symbol('*'), [Point(3, 1)])], 1, 2, [Part(Number(467), [Point(0, 0), Point(1, 0), Point(2, 0)]), Part(Number(114), [Point(5, 0), Point(6, 0), Point(7, 0)]), Part(Symbol('*'), [Point(3, 1)])]);
    ScanRowAdvance(start, row, 2, 1, '.', [Part(Number(467), [Point(0, 0), Point(1, 0), Point(2, 0)]), Part(Number(114), [Point(5, 0), Point(6, 0), Point(7, 0)]), Part(Symbol('*'), [Point(3, 1)])], [Part(Number(467), [Point(0, 0), Point(1, 0), Point(2, 0)]), Part(Number(114), [Point(5, 0), Point(6, 0), Point(7, 0)]), Part(Symbol('*'), [Point(3, 1)])]);
  }

  lemma SampleRow2At2(start: seq<Part>, row: string)
    requires 2 < |row| && row[2] == '3'
    requires ScanRow(start, row[..2], 2) == [Part(Number(467), [Point(0, 0), Point(1, 0), Point(2, 0)]), Part(Number(114), [Point(5, 0), Point(6, 0), Point(7, 0)]), Part(Symbol('*'), [Point(3, 1)])]
    ensures ScanRow(start, row[..3], 2) == [Part(Number(467), [Point(0, 0), Point(1, 0), Point(2, 0)]), Part(Number(114), [Point(5, 0), Point(6, 0), Point(7, 0)]), Part(Symbol('*'), [Point(3, 1)]), Part(Number(3), [Point(2, 2)])]
  {
    StepStart([Part(Number(467), [Point(0, 0), Point(1, 0), Point(2, 0)]), Part(Number(114), [Point(5, 0), Point(6, 0), Point(7, 0)]), Part(Symbol('*'), [Point(3, 1)])], 2, 2, '3', 3, [Part(Number(467), [Point(0, 0), Point(1, 0), Point(2, 0)]), Part(Number(114), [Point(5, 0), Point(6, 0), Point(7, 0)]), Part(Symbol('*'), [Point(3, 1)]), Part(Number(3), [Point(2, 2)])]);
    ScanRowAdvance(start, row, 2, 2, '3', [Part(Number(467), [Point(0, 0), Point(1, 0), Point(2, 0)]), Part(Number(114), [Point(5, 0), Point(6, 0), Point(7, 0)]), Part(Symbol('*'), [Point(3, 1)])], [Part(Number(467), [Point(0, 0), Point(1, 0), Point(2, 0)]), Part(Number(114), [Point(5, 0), Point(6, 0), Point(7, 0)]), Part(Symbol('*'), [Point(3, 1)]), Part(Number(3), [Point(2, 2)])]);
  }

  lemma SampleRow2At3(start: seq<Part>, row: string)
    requires 3 < |row| && row[3] == '5'
    requires ScanRow(start, row[..3], 2) == [Part(Number(467), [Point(0, 0), Point(1, 0), Point(2, 0)]), Part(Number(114), [Point(5, 0), Point(6, 0), Point(7, 0)]), Part(Symbol('*'), [Point(3, 1)]), Part(Number(3), [Point(2, 2)])]
    ensures ScanRow(start, row[..4], 2) == [Part(Number(467), [Point(0, 0), Point(1, 0), Point(2, 0)]), Part(Number(114), [Point(5, 0), Point(6, 0), Point(7, 0)]), Part(Symbol('*'), [Point(3, 1)]), Part(Number(35), [Point(2, 2), Point(3, 2)])]
  {
    StepExtend([Part(Number(467), [Point(0, 0), Point(1, 0), Point(2, 0)]), Part(Number(114), [Point(5, 0), Point(6, 0), Point(7, 0)]), Part(Symbol('*'), [Point(3, 1)]), Part(Number(3), [Point(2, 2)])], [Part(Number(467), [Point(0, 0), Point(1, 0), Point(2, 0)]), Part(Number(114), [Point(5, 0), Point(6, 0), Point(7, 0)]), Part(Symbol('*'), [Point(3, 1)])], 3, [Point(2, 2)], 3, 2, '5', 35, [Point(2, 2), Point(3, 2)], [Part(Number(467), [Point(0, 0), Point(1, 0), Point(2, 0)]), Part(Number(114), [Point(5, 0), Point(6, 0), Point(7, 0)]), Part(Symbol('*'), [Point(3, 1)]), Part(Number(35), [Point(2, 2), Point(3, 2)])]);
    ScanRowAdvance(start, row, 2, 3, '5', [Part(Number(467), [Point(0, 0), Point(1, 0), Point(2, 0)]), Part(Number(114), [Point(5, 0), Point(6, 0), Point(7, 0)]), Part(Symbol('*'), [Point(3, 1)]), Part(Number(3), [Point(2, 2)])], [Part(Number(467), [Point(0, 0), Point(1, 0), Point(2, 0)]), Part(Number(114), [Point(5, 0), Point(6, 0), Point(7, 0)]), Part(Symbol('*'), [Point(3, 1)]), Part(Number(35), [Point(2, 2), Point(3, 2)])]);
  }

  lemma SampleRow2At4(start: seq<Part>, row: string)
    requires 4 < |row| && row[4] == '.'
    requires ScanRow(start, row[..4], 2) == [Part(Number(467), [Point(0, 0), Point(1, 0), Point(2, 0)]), Part(Number(114), [Point(5, 0), Point(6, 0), Point(7, 0)]), Part(Symbol('*'), [Point(3, 1)]), Part(Number(35), [Point(2, 2), Point(3, 2)])]
    ensures ScanRow(start, row[..5], 2) == [Part(Number(467), [Point(0, 0), Point(1, 0), Point(2, 0)]), Part(Number(114), [Point(5, 0), Point(6, 0), Point(7, 0)]), Part(Symbol('*'), [Point(3, 1)]), Part(Number(35), [Point(2, 2), Point(3, 2)])]
  {
    StepSkip([Part(Number(467), [Point(0, 0), Point(1, 0), Point(2, 0)]), Part(Number(114), [Point(5, 0), Point(6, 0), Point(7, 0)]), Part(Symbol('*'), [Point(3, 1)]), Part(Number(35), [Point(2, 2), Point(3, 2)])], 4, 2, [Part(Number(467), [Point(0, 0), Point(1, 0), Point(2, 0)]), Part(Number(114), [Point(5, 0), Point(6, 0), Point(7, 0)]), Part(Symbol('*'), [Point(3, 1)]), Part(Number(35), [Point(2, 2), Point(3, 2)])]);
    ScanRowAdvance(start, row, 2, 4, '.', [Part(Number(467), [Point(0, 0), Point(1, 0), Point(2, 0)]), Part(Number(114), [Point(5, 0), Point(6, 0), Point(7, 0)]), Part(Symbol('*'), [Point(3, 1)]), Part(Number(35), [Point(2, 2), Point(3, 2)])], [Part(Number(467), [Point(0, 0), Point(1, 0), Point(2, 0)]), Part(Number(114), [Point(5, 0), Point(6, 0), Point(7, 0)]), Part(Symbol('*'), [Point(3, 1)]), Part(Number(35), [Point(2, 2), Point(3, 2)])]);
  }

  lemma SampleRow2At5(start: seq<Part>, row: string)
    requires 5 < |row| && row[5] == '.'
    requires ScanRow(start, row[..5], 2) == [Part(Number(467), [Point(0, 0), Point(1, 0), Point(2, 0)]), Part(Number(114), [Point(5, 0), Point(6, 0), Point(7, 0)]), Part(Symbol('*'), [Point(3, 1)]), Part(Number(35), [Point(2, 2), Point(3, 2)])]
    ensures ScanRow(start, row[..6], 2) == [Part(Number(467), [Point(0, 0), Point(1, 0), Point(2, 0)]), Part(Number(114), [Point(5, 0), Point(6, 0), Point(7, 0)]), Part(Symbol('*'), [Point(3, 1)]), Part(Number(35), [Point(2, 2), Point(3, 2)])]
  {
    StepSkip([Part(Number(467), [Point(0, 0), Point(1, 0), Point(2, 0)]), Part(Number(114), [Point(5, 0), Point(6, 0), Point(7, 0)]), Part(Symbol('*'), [Point(3, 1)]), Part(Number(35), [Point(2, 2), Point(3, 2)])], 5, 2, [Part(Number(467), [Point(0, 0), Point(1, 0), Point(2, 0)]), Part(Number(114), [Point(5, 0), Point(6, 0), Point(7, 0)]), Part(Symbol('*'), [Point(3, 1)]), Part(Number(35), [Point(2, 2), Point(3, 2)])]);
    ScanRowAdvance(start, row, 2, 5, '.', [Part(Number(467), [Point(0, 0), Point(1, 0), Point(2, 0)]), Part(Number(114), [Point(5, 0), Point(6, 0), Point(7, 0)]), Part(Symbol('*'), [Point(3, 1)]), Part(Number(35), [Point(2, 2), Point(3, 2)])], [Part(Number(467), [Point(0, 0), Point(1, 0), Point(2, 0)]), Part(Number(114), [Point(5, 0), Point(6, 0), Point(7, 0)]), Part(Symbol('*'), [Point(3, 1)]), Part(Number(35), [Point(2, 2), Point(3, 2)])]);
  }

  lemma SampleRow2At6(start: seq<Part>, row: string)
    requires 6 < |row| && row[6] == '6'
    requires ScanRow(start, row[..6], 2) == [Part(Number(467), [Point(0, 0), Point(1, 0), Point(2, 0)]), Part(Number(114), [Point(5, 0), Point(6, 0), Point(7, 0)]), Part(Symbol('*'), [Point(3, 1)]), Part(Number(35), [Point(2, 2), Point(3, 2)])]
    ensures ScanRow(start, row[..7], 2) == [Part(Number(467), [Point(0, 0), Point(1, 0), Point(2, 0)]), Part(Number(114), [Point(5, 0), Point(6, 0), Point(7, 0)]), Part(Symbol('*'), [Point(3, 1)]), Part(Number(35), [Point(2, 2), Point(3, 2)]), Part(Number(6), [Point(6, 2)])]
  {
    StepStart([Part(Number(467), [Point(0, 0), Point(1, 0), Point(2, 0)]), Part(Number(114), [Point(5, 0), Point(6, 0), Point(7, 0)]), Part(Symbol('*'), [Point(3, 1)]), Part(Number(35), [Point(2, 2), Point(3, 2)])], 6, 2, '6', 6, [Part(Number(467), [Point(0, 0), Point(1, 0), Point(2, 0)]), Part(Number(114), [Point(5, 0), Point(6, 0), Point(7, 0)]), Part(Symbol('*'), [Point(3, 1)]), Part(Number(35), [Point(2, 2), Point(3, 2)]), Part(Number(6), [Point(6, 2)])]);
    ScanRowAdvance(start, row, 2, 6, '6', [Part(Number(467), [Point(0, 0), Point(1, 0), Point(2, 0)]), Part(Number(114), [Point(5, 0), Point(6, 0), Point(7, 0)]), Part(Symbol('*'), [Point(3, 1)]), Part(Number(35), [Point(2, 2), Point(3, 2)])], [Part(Number(467), [Point(0, 0), Point(1, 0), Point(2, 0)]), Part(Number(114), [Point(5, 0), Point(6, 0), Point(7, 0)]), Part(Symbol('*'), [Point(3, 1)]), Part(Number(35), [Point(2, 2), Point(3, 2)]), Part(Number(6), [Point(6, 2)])]);
  }

  lemma SampleRow2At7(start: seq<Part>, row: string)
    requires 7 < |row| && row[7] == '3'
    requires ScanRow(start, row[..7], 2) == [Part(Number(467), [Point(0, 0), Point(1, 0), Point(2, 0)]), Part(Number(114), [Point(5, 0), Point(6, 0), Point(7, 0)]), Part(Symbol('*'), [Point(3, 1)]), Part(Number(35), [Point(2, 2), Point(3, 2)]), Part(Number(6), [Point(6, 2)])]
    ensures ScanRow(start, row[..8], 2) == [Part(Number(467), [Point(0, 0), Point(1, 0), Point(2, 0)]), Part(Number(114), [Point(5, 0), Point(6, 0), Point(7, 0)]), Part(Symbol('*'), [Point(3, 1)]), Part(Number(35), [Point(2, 2), Point(3, 2)]), Part(Number(63), [Point(6, 2), Point(7, 2)])]
  {
    StepExtend([Part(Number(467), [Point(0, 0), Point(1, 0), Point(2, 0)]), Part(Number(114), [Point(5, 0), Point(6, 0), Point(7, 0)]), Part(Symbol('*'), [Point(3, 1)]), Part(Number(35), [Point(2, 2), Point(3, 2)]), Part(Number(6), [Point(6, 2)])], [Part(Number(467), [Point(0, 0), Point(1, 0), Point(2, 0)]), Part(Number(114), [Point(5, 0), Point(6, 0), Point(7, 0)]), Part(Symbol('*'), [Point(3, 1)]), Part(Number(35), [Point(2, 2), Point(3, 2)])], 6, [Point(6, 2)], 7, 2, '3', 63, [Point(6, 2), Point(7, 2)], [Part(Number(467), [Point(0, 0), Point(1, 0), Point(2, 0)]), Part(Number(114), [Point(5, 0), Point(6, 0), Point(7, 0)]), Part(Symbol('*'), [Point(3, 1)]), Part(Number(35), [Point(2, 2), Point(3, 2)]), Part(Number(63), [Point(6, 2), Point(7, 2)])]);
    ScanRowAdvance(start, row, 2, 7, '3', [Part(Number(467), [Point(0, 0), Point(1, 0), Point(2, 0)]), Part(Number(114), [Point(5, 0), Point(6, 0), Point(7, 0)]), Part(Symbol('*'), [Point(3, 1)]), Part(Number(35), [Point(2, 2), Point(3, 2)]), Part(Number(6), [Point(6, 2)])], [Part(Number(467), [Point(0, 0), Point(1, 0), Point(2, 0)]), Part(Number(114), [Point(5, 0), Point(6, 0), Point(7, 0)]), Part(Symbol('*'), [Point(3, 1)]), Part(Number(35), [Point(2, 2), Point(3, 2)]), Part(Number(63), [Point(6, 2), Point(7, 2)])]);
  }

  lemma SampleRow2At8(start: seq<Part>, row: string)
    requires 8 < |row| && row[8] == '3'
    requires ScanRow(start, row[..8], 2) == [Part(Number(467), [Point(0, 0), Point(1, 0), Point(2, 0)]), Part(Number(114), [Point(5, 0), Point(6, 0), Point(7, 0)]), Part(Symbol('*'), [Point(3, 1)]), Part(Number(35), [Point(2, 2), Point(3, 2)]), Part(Number(63), [Point(6, 2), Point(7, 2)])]
    ensures ScanRow(start, row[..9], 2) == [Part(Number(467), [Point(0, 0), Point(1, 0), Point(2, 0)]), Part(Number(114), [Point(5, 0), Point(6, 0), Point(7, 0)]), Part(Symbol('*'), [Point(3, 1)]), Part(Number(35), [Point(2, 2), Point(3, 2)]), Part(Number(633), [Point(6, 2), Point(7, 2), Point(8, 2)])]
  {
    StepExtend([Part(Number(467), [Point(0, 0), Point(1, 0), Point(2, 0)]), Part(Number(114), [Point(5, 0), Point(6, 0), Point(7, 0)]), Part(Symbol('*'), [Point(3, 1)]), Part(Number(35), [Point(2, 2), Point(3, 2)]), Part(Number(63), [Point(6, 2), Point(7, 2)])], [Part(Number(467), [Point(0, 0), Point(1, 0), Point(2, 0)]), Part(Number(114), [Point(5, 0), Point(6, 0), Point(7, 0)]), Part(Symbol('*'), [Point(3, 1)]), Part(Number(35), [Point(2, 2), Point(3, 2)])], 63, [Point(6, 2), Point(7, 2)], 8, 2, '3', 633, [Point(6, 2), Point(7, 2), Point(8, 2)], [Part(Number(467), [Point(0, 0), Point(1, 0), Point(2, 0)]), Part(Number(114), [Point(5, 0), Point(6, 0), Point(7, 0)]), Part(Symbol('*'), [Point(3, 1)]), Part(Number(35), [Point(2, 2), Point(3, 2)]), Part(Number(633), [Point(6, 2), Point(7, 2), Point(8, 2)])]);
    ScanRowAdvance(start, row, 2, 8, '3', [Part(Number(467), [Point(0, 0), Point(1, 0), Point(2, 0)]), Part(Number(114), [Point(5, 0), Point(6, 0), Point(7, 0)]), Part(Symbol('*'), [Point(3, 1)]), Part(Number(35), [Point(2, 2), Point(3, 2)]), Part(Number(63), [Point(6, 2), Point(7, 2)])], [Part(Number(467), [Point(0, 0), Point(1, 0), Point(2, 0)]), Part(Number(114), [Point(5, 0), Point(6, 0), Point(7, 0)]), Part(Symbol('*'), [Point(3, 1)]), Part(Number(35), [Point(2, 2), Point(3, 2)]), Part(Number(633), [Point(6, 2), Point(7, 2), Point(8, 2)])]);
  }

  lemma SampleRow2At9(start: seq<Part>, row: string)
    requires 9 < |row| && row[9] == '.'
    requires ScanRow(start, row[..9], 2) == [Part(Number(467), [Point(0, 0), Point(1, 0), Point(2, 0)]), Part(Number(114), [Point(5, 0), Point(6, 0), Point(7, 0)]), Part(Symbol('*'), [Point(3, 1)]), Part(Number(35), [Point(2, 2), Point(3, 2)]), Part(Number(633), [Point(6, 2), Point(7, 2), Point(8, 2)])]
    ensures ScanRow(start, row[..10], 2) == [Part(Number(467), [Point(0, 0), Point(1, 0), Point(2, 0)]), Part(Number(114), [Point(5, 0), Point(6, 0), Point(7, 0)]), Part(Symbol('*'), [Point(3, 1)]), Part(Number(35), [Point(2, 2), Point(3, 2)]), Part(Number(633), [Point(6, 2), Point(7, 2), Point(8, 2)])]
  {
    StepSkip([Part(Number(467), [Point(0, 0), Point(1, 0), Point(2, 0)]), Part(Number(114), [Point(5, 0), Point(6, 0), Point(7, 0)]), Part(Symbol('*'), [Point(3, 1)]), Part(Number(35), [Point(2, 2), Point(3, 2)]), Part(Number(633), [Point(6, 2), Point(7, 2), Point(8, 2)])], 9, 2, [Part(Number(467), [Point(0, 0), Point(1, 0), Point(2, 0)]), Part(Number(114), [Point(5, 0), Point(6, 0), Point(7, 0)]), Part(Symbol('*'), [Point(3, 1)]), Part(Number(35), [Point(2, 2), Point(3, 2)]), Part(Number(633), [Point(6, 2), Point(7, 2), Point(8, 2)])]);
    ScanRowAdvance(start, row, 2, 9, '.', [Part(Number(467), [Point(0, 0), Point(1, 0), Point(2, 0)]), Part(Number(114), [Point(5, 0), Point(6, 0), Point(7, 0)]), Part(Symbol('*'), [Point(3, 1)]), Part(Number(35), [Point(2, 2), Point(3, 2)]), Part(Number(633), [Point(6, 2), Point(7, 2), Point(8, 2)])], [Part(Number(467), [Point(0, 0), Point(1, 0), Point(2, 0)]), Part(Number(114), [Point(5, 0), Point(6, 0), Point(7, 0)]), Part(Symbol('*'), [Point(3, 1)]), Part(Number(35), [Point(2, 2), Point(3, 2)]), Part(Number(633), [Point(6, 2), Point(7, 2), Point(8, 2)])]);
  }

  /** Row 2 of the sample grid. */
  lemma SampleRow2(start: seq<Part>, row: string)
    requires start == [Part(Number(467), [Point(0, 0), Point(1, 0), Point(2, 0)]), Part(Number(114), [Point(5, 0), Point(6, 0), Point(7, 0)]), Part(Symbol('*'), [Point(3, 1)])]
    requires |row| == 10 && row[0] == '.' && row[1] == '.' && row[2] == '3' && row[3] == '5' && row[4] == '.' && row[5] == '.' && row[6] == '6' && row[7] == '3' && row[8] == '3' && row[9] == '.'
    ensures ScanRow(start, row, 2) == [Part(Number(467), [Point(0, 0), Point(1, 0), Point(2, 0)]), Part(Number(114), [Point(5, 0), Point(6, 0), Point(7, 0)]), Part(Symbol('*'), [Point(3, 1)]), Part(Number(35), [Point(2, 2), Point(3, 2)]), Part(Number(633), [Point(6, 2), Point(7, 2), Point(8, 2)])]
  {
    assert row[..0] == [];
    SampleRow2At0(start, row);
    SampleRow2At1(start, row);
    SampleRow2At2(start, row);
    SampleRow2At3(start, row);
    SampleRow2At4(start, row);
    SampleRow2At5(start, row);
    SampleRow2At6(start, row);
    SampleRow2At7(start, row);
    SampleRow2At8(start, row);
    SampleRow2At9(start, row);
    assert row[..10] == row;
  }

  lemma SampleRow3At0(start: seq<Part>, row: string)
    requires 0 < |row| && row[0] == '.'
    requires ScanRow(start, row[..0], 3) == [Part(Number(467), [Point(0, 0), Point(1, 0), Point(2, 0)]), Part(Number(114), [Point(5, 0), Point(6, 0), Point(7, 0)]), Part(Symbol('*'), [Point(3, 1)]), Part(Number(35), [Point(2, 2), Point(3, 2)]), Part(Number(633), [Point(6, 2), Point(7, 2), Point(8, 2)])]
    ensures ScanRow(start, row[..1], 3) == [Part(Number(467), [Point(0, 0), Point(1, 0), Point(2, 0)]), Part(Number(114), [Point(5, 0), Point(6, 0), Point(7, 0)]), Part(Symbol('*'), [Point(3, 1)]), Part(Number(35), [Point(2, 2), Point(3, 2)]), Part(Number(633), [Point(6, 2), Point(7, 2), Point(8, 2)])]
  {
    StepSkip([Part(Number(467), [Point(0, 0), Point(1, 0), Point(2, 0)]), Part(Number(114), [Point(5, 0), Point(6, 0), Point(7, 0)]), Part(Symbol('*'), [Point(3, 1)]), Part(Number(35), [Point(2, 2), Point(3, 2)]), Part(Number(633), [Point(6, 2), Point(7, 2), Point(8, 2)])], 0, 3, [Part(Number(467), [Point(0, 0), Point(1, 0), Point(2, 0)]), Part(Number(114), [Point(5, 0), Point(6, 0), Point(7, 0)]), Part(Symbol('*'), [Point(3, 1)]), Part(Number(35), [Point(2, 2), Point(3, 2)]), Part(Number(633), [Point(6, 2), Point(7, 2), Point(8, 2)])]);
    ScanRowAdvance(start, row, 3, 0, '.', [Part(Number(467), [Point(0, 0), Point(1, 0), Point(2, 0)]), Part(Number(114), [Point(5, 0), Point(6, 0), Point(7, 0)]), Part(Symbol('*'), [Point(3, 1)]), Part(Number(35), [Point(2, 2), Point(3, 2)]), Part(Number(633), [Point(6, 2), Point(7, 2), Point(8, 2)])], [Part(Number(467), [Point(0, 0), Point(1, 0), Point(2, 0)]), Part(Number(114), [Point(5, 0), Point(6, 0), Point(7, 0)]), Part(Symbol('*'), [Point(3, 1)]), Part(Number(35), [Point(2, 2), Point(3, 2)]), Part(Number(633), [Point(6, 2), Point(7, 2), Point(8, 2)])]);
  }

  lemma SampleRow3At1(start: seq<Part>, row: string)
    requires 1 < |row| && row[1] == '.'
    requires ScanRow(start, row[..1], 3) == [Part(Number(467), [Point(0, 0), Point(1, 0), Point(2, 0)]), Part(Number(114), [Point(5, 0), Point(6, 0), Point(7, 0)]), Part(Symbol('*'), [Point(3, 1)]), Part(Number(35), [Point(2, 2), Point(3, 2)]), Part(Number(633), [Point(6, 2), Point(7, 2), Point(8, 2)])]
    ensures ScanRow(start, row[..2], 3) == [Part(Number(467), [Point(0, 0), Point(1, 0), Point(2, 0)]), Part(Number(114), [Point(5, 0), Point(6, 0), Point(7, 0)]), Part(Symbol('*'), [Point(3, 1)]), Part(Number(35), [Point(2, 2), Point(3, 2)]), Part(Number(633), [Point(6, 2), Point(7, 2), Point(8, 2)])]
  {
    StepSkip([Part(Number(467), [Point(0, 0), Point(1, 0), Point(2, 0)]), Part(Number(114), [Point(5, 0), Point(6, 0), Point(7, 0)]), Part(Symbol('*'), [Point(3, 1)]), Part(Number(35), [Point(2, 2), Point(3, 2)]), Part(Number(633), [Point(6, 2), Point(7, 2), Point(8, 2)])], 1, 3, [Part(Number(467), [Point(0, 0), Point(1, 0), Point(2, 0)]), Part(Number(114), [Point(5, 0), Point(6, 0), Point(7, 0)]), Part(Symbol('*'), [Point(3, 1)]), Part(Number(35), [Point(2, 2), Point(3, 2)]), Part(Number(633), [Point(6, 2), Point(7, 2), Point(8, 2)])]);
    ScanRowAdvance(start, row, 3, 1, '.', [Part(Number(467), [Point(0, 0), Point(1, 0), Point(2, 0)]), Part(Number(114), [Point(5, 0), Point(6, 0), Point(7, 0)]), Part(Symbol('*'), [Point(3, 1)]), Part(Number(35), [Point(2, 2), Point(3, 2)]), Part(Number(633), [Point(6, 2), Point(7, 2), Point(8, 2)])], [Part(Number(467), [Point(0, 0), Point(1, 0), Point(2, 0)]), Part(Number(114), [Point(5, 0), Point(6, 0), Point(7, 0)]), Part(Symbol('*'), [Point(3, 1)]), Part(Number(35), [Point(2, 2), Point(3, 2)]), Part(Number(633), [Point(6, 2), Point(7, 2), Point(8, 2)])]);
  }

  lemma SampleRow3At2(start: seq<Part>, row: string)
    requires 2 < |row| && row[2] == '.'
    requires ScanRow(start, row[..2], 3) == [Part(Number(467), [Point(0, 0), Point(1, 0), Point(2, 0)]), Part(Number(114), [Point(5, 0), Point(6, 0), Point(7, 0)]), Part(Symbol('*'), [Point(3, 1)]), Part(Number(35), [Point(2, 2), Point(3, 2)]), Part(Number(633), [Point(6, 2), Point(7, 2), Point(8, 2)])]
    ensures ScanRow(start, row[..3], 3) == [Part(Number(467), [Point(0, 0), Point(1, 0), Point(2, 0)]), Part(Number(114), [Point(5, 0), Point(6, 0), Point(7, 0)]), Part(Symbol('*'), [Point(3, 1)]), Part(Number(35), [Point(2, 2), Point(3, 2)]), Part(Number(633), [Point(6, 2), Point(7, 2), Point(8, 2)])]
  {
    StepSkip([Part(Number(467), [Point(0, 0), Point(1, 0), Point(2, 0)]), Part(Number(114), [Point(5, 0), Point(6, 0), Point(7, 0)]), Part(Symbol('*'), [Point(3, 1)]), Part(Number(35), [Point(2, 2), Point(3, 2)]), Part(Number(633), [Point(6, 2), Point(7, 2), Point(8, 2)])], 2, 3, [Part(Number(467), [Point(0, 0), Point(1, 0), Point(2, 0)]), Part(Number(114), [Point(5, 0), Point(6, 0), Point(7, 0)]), Part(Symbol('*'), [Point(3, 1)]), Part(Number(35), [Point(2, 2), Point(3, 2)]), Part(Number(633), [Point(6, 2), Point(7, 2), Point(8, 2)])]);
    ScanRowAdvance(start, row, 3, 2, '.', [Part(Number(467), [Point(0, 0), Point(1, 0), Point(2, 0)]), Part(Number(114), [Point(5, 0), Point(6, 0), Point(7, 0)]), Part(Symbol('*'), [Point(3, 1)]), Part(Number(35), [Point(2, 2), Point(3, 2)]), Part(Number(633), [Point(6, 2), Point(7, 2), Point(8, 2)])], [Part(Number(467), [Point(0, 0), Point(1, 0), Point(2, 0)]), Part(Number(114), [Point(5, 0), Point(6, 0), Point(7, 0)]), Part(Symbol('*'), [Point(3, 1)]), Part(Number(35), [Point(2, 2), Point(3, 2)]), Part(Number(633), [Point(6, 2), Point(7, 2), Point(8, 2)])]);
  }

  lemma SampleRow3At3(start: seq<Part>, row: string)
    requires 3 < |row| && row[3] == '.'
    requires ScanRow(start, row[..3], 3) == [Part(Number(467), [Point(0, 0), Point(1, 0), Point(2, 0)]), Part(Number(114), [Point(5, 0), Point(6, 0), Point(7, 0)]), Part(Symbol('*'), [Point(3, 1)]), Part(Number(35), [Point(2, 2), Point(3, 2)]), Part(Number(633), [Point(6, 2), Point(7, 2), Point(8, 2)])]
    ensures ScanRow(start, row[..4], 3) == [Part(Number(467), [Point(0, 0), Point(1, 0), Point(2, 0)]), Part(Number(114), [Point(5, 0), Point(6, 0), Point(7, 0)]), Part(Symbol('*'), [Point(3, 1)]), Part(Number(35), [Point(2, 2), Point(3, 2)]), Part(Number(633), [Point(6, 2), Point(7, 2), Point(8, 2)])]
  {
    StepSkip([Part(Number(467), [Point(0, 0), Point(1, 0), Point(2, 0)]), Part(Number(114), [Point(5, 0), Point(6, 0), Point(7, 0)]), Part(Symbol('*'), [Point(3, 1)]), Part(Number(35), [Point(2, 2), Point(3, 2)]), Part(Number(633), [Point(6, 2), Point(7, 2), Point(8, 2)])], 3, 3, [Part(Number(467), [Point(0, 0), Point(1, 0), Point(2, 0)]), Part(Number(114), [Point(5, 0), Point(6, 0), Point(7, 0)]), Part(Symbol('*'), [Point(3, 1)]), Part(Number(35), [Point(2, 2), Point(3, 2)]), Part(Number(633), [Point(6, 2), Point(7, 2), Point(8, 2)])]);
    ScanRowAdvance(start, row, 3, 3, '.', [Part(Number(467), [Point(0, 0), Point(1, 0), Point(2, 0)]), Part(Number(114), [Point(5, 0), Point(6, 0), Point(7, 0)]), Part(Symbol('*'), [Point(3, 1)]), Part(Number(35), [Point(2, 2), Point(3, 2)]), Part(Number(633), [Point(6, 2), Point(7, 2), Point(8, 2)])], [Part(Number(467), [Point(0, 0), Point(1, 0), Point(2, 0)]), Part(Number(114), [Point(5, 0), Point(6, 0), Point(7, 0)]), Part(Symbol('*'), [Point(3, 1)]), Part(Number(35), [Point(2, 2), Point(3, 2)]), Part(Number(633), [Point(6, 2), Point(7, 2), Point(8, 2)])]);
  }

  lemma SampleRow3At4(start: seq<Part>, row: string)
    requires 4 < |row| && row[4] == '.'
    requires ScanRow(start, row[..4], 3) == [Part(Number(467), [Point(0, 0), Point(1, 0), Point(2, 0)]), Part(Number(114), [Point(5, 0), Point(6, 0), Point(7, 0)]), Part(Symbol('*'), [Point(3, 1)]), Part(Number(35), [Point(2, 2), Point(3, 2)]), Part(Number(633), [Point(6, 2), Point(7, 2), Point(8, 2)])]
    ensures ScanRow(start, row[..5], 3) == [Part(Number(467), [Point(0, 0), Point(1, 0), Point(2, 0)]), Part(Number(114), [Point(5, 0), Point(6, 0), Point(7, 0)]), Part(Symbol('*'), [Point(3, 1)]), Part(Number(35), [Point(2, 2), Point(3, 2)]), Part(Number(633), [Point(6, 2), Point(7, 2), Point(8, 2)])]
  {
    StepSkip([Part(Number(467), [Point(0, 0), Point(1, 0), Point(2, 0)]), Part(Number(114), [Point(5, 0), Point(6, 0), Point(7, 0)]), Part(Symbol('*'), [Point(3, 1)]), Part(Number(35), [Point(2, 2), Point(3, 2)]), Part(Number(633), [Point(6, 2), Point(7, 2), Point(8, 2)])], 4, 3, [Part(Number(467), [Point(0, 0), Point(1, 0), Point(2, 0)]), Part(Number(114), [Point(5, 0), Point(6, 0), Point(7, 0)]), Part(Symbol('*'), [Point(3, 1)]), Part(Number(35), [Point(2, 2), Point(3, 2)]), Part(Number(633), [Point(6, 2), Point(7, 2), Point(8, 2)])]);
    ScanRowAdvance(start, row, 3, 4, '.', [Part(Number(467), [Point(0, 0), Point(1, 0), Point(2, 0)]), Part(Number(114), [Point(5, 0), Point(6, 0), Point(7, 0)]), Part(Symbol('*'), [Point(3, 1)]), Part(Number(35), [Point(2, 2), Point(3, 2)]), Part(Number(633), [Point(6, 2), Point(7, 2), Point(8, 2)])], [Part(Number(467), [Point(0, 0), Point(1, 0), Point(2, 0)]), Part(Number(114), [Point(5, 0), Point(6, 0), Point(7, 0)]), Part(Symbol('*'), [Point(3, 1)]), Part(Number(35), [Point(2, 2), Point(3, 2)]), Part(Number(633), [Point(6, 2), Point(7, 2), Point(8, 2)])]);
  }

  lemma SampleRow3At5(start: seq<Part>, row: string)
    requires 5 < |row| && row[5] == '.'
    requires ScanRow(start, row[..5], 3) == [Part(Number(467), [Point(0, 0), Point(1, 0), Point(2, 0)]), Part(Number(114), [Point(5, 0), Point(6, 0), Point(7, 0)]), Part(Symbol('*'), [Point(3, 1)]), Part(Number(35), [Point(2, 2), Point(3, 2)]), Part(Number(633), [Point(6, 2), Point(7, 2), Point(8, 2)])]
    ensures ScanRow(start, row[..6], 3) == [Part(Number(467), [Point(0, 0), Point(1, 0), Point(2, 0)]), Part(Number(114), [Point(5, 0), Point(6, 0), Point(7, 0)]), Part(Symbol('*'), [Point(3, 1)]), Part(Number(35), [Point(2, 2), Point(3, 2)]), Part(Number(633), [Point(6, 2), Point(7, 2), Point(8, 2)])]
  {
    StepSkip([Part(Number(467), [Point(0, 0), Point(1, 0), Point(2, 0)]), Part(Number(114), [Point(5, 0), Point(6, 0), Point(7, 0)]), Part(Symbol('*'), [Point(3, 1)]), Part(Number(35), [Point(2, 2), Point(3, 2)]), Part(Number(633), [Point(6, 2), Point(7, 2), Point(8, 2)])], 5, 3, [Part(Number(467), [Point(0, 0), Point(1, 0), Point(2, 0)]), Part(Number(114), [Point(5, 0), Point(6, 0), Point(7, 0)]), Part(Symbol('*'), [Point(3, 1)]), Part(Number(35), [Point(2, 2), Point(3, 2)]), Part(Number(633), [Point(6, 2), Point(7, 2), Point(8, 2)])]);
    ScanRowAdvance(start, row, 3, 5, '.', [Part(Number(467), [Point(0, 0), Point(1, 0), Point(2, 0)]), Part(Number(114), [Point(5, 0), Point(6, 0), Point(7, 0)]), Part(Symbol('*'), [Point(3, 1)]), Part(Number(35), [Point(2, 2), Point(3, 2)]), Part(Number(633), [Point(6, 2), Point(7, 2), Point(8, 2)])], [Part(Number(467), [Point(0, 0), Point(1, 0), Point(2, 0)]), Part(Number(114), [Point(5, 0), Point(6, 0), Point(7, 0)]), Part(Symbol('*'), [Point(3, 1)]), Part(Number(35), [Point(2, 2), Point(3, 2)]), Part(Number(633), [Point(6, 2), Point(7, 2), Point(8, 2)])]);
  }

  lemma SampleRow3At6(start: seq<Part>, row: string)
    requires 6 < |row| && row[6] == '#'
    requires ScanRow(start, row[..6], 3) == [Part(Number(467), [Point(0, 0), Point(1, 0), Point(2, 0)]), Part(Number(114), [Point(5, 0), Point(6, 0), Point(7, 0)]), Part(Symbol('*'), [Point(3, 1)]), Part(Number(35), [Point(2, 2), Point(3, 2)]), Part(Number(633), [Point(6, 2), Point(7, 2), Point(8, 2)])]
    ensures ScanRow(start, row[..7], 3) == [Part(Number(467), [Point(0, 0), Point(1, 0), Point(2, 0)]), Part(Number(114), [Point(5, 0), Point(6, 0), Point(7, 0)]), Part(Symbol('*'), [Point(3, 1)]), Part(Number(35), [Point(2, 2), Point(3, 2)]), Part(Number(633), [Point(6, 2), Point(7, 2), Point(8, 2)]), Part(Symbol('#'), [Point(6, 3)])]
  {
    StepSymbol([Part(Number(467), [Point(0, 0), Point(1, 0), Point(2, 0)]), Part(Number(114), [Point(5, 0), Point(6, 0), Point(7, 0)]), Part(Symbol('*'), [Point(3, 1)]), Part(Number(35), [Point(2, 2), Point(3, 2)]), Part(Number(633), [Point(6, 2), Point(7, 2), Point(8, 2)])], 6, 3, '#', [Part(Number(467), [Point(0, 0), Point(1, 0), Point(2, 0)]), Part(Number(114), [Point(5, 0), Point(6, 0), Point(7, 0)]), Part(Symbol('*'), [Point(3, 1)]), Part(Number(35), [Point(2, 2), Point(3, 2)]), Part(Number(633), [Point(6, 2), Point(7, 2), Point(8, 2)]), Part(Symbol('#'), [Point(6, 3)])]);
    ScanRowAdvance(start, row, 3, 6, '#', [Part(Number(467), [Point(0, 0), Point(1, 0), Point(2, 0)]), Part(Number(114), [Point(5, 0), Point(6, 0), Point(7, 0)]), Part(Symbol('*'), [Point(3, 1)]), Part(Number(35), [Point(2, 2), Point(3, 2)]), Part(Number(633), [Point(6, 2), Point(7, 2), Point(8, 2)])], [Part(Number(467), [Point(0, 0), Point(1, 0), Point(2, 0)]), Part(Number(114), [Point(5, 0), Point(6, 0), Point(7, 0)]), Part(Symbol('*'), [Point(3, 1)]), Part(Number(35), [Point(2, 2), Point(3, 2)]), Part(Number(633), [Point(6, 2), Point(7, 2), Point(8, 2)]), Part(Symbol('#'), [Point(6, 3)])]);
  }

  lemma SampleRow3At7(start: seq<Part>, row: string)
    requires 7 < |row| && row[7] == '.'
    requires ScanRow(start, row[..7], 3) == [Part(Number(467), [Point(0, 0), Point(1, 0), Point(2, 0)]), Part(Number(114), [Point(5, 0), Point(6, 0), Point(7, 0)]), Part(Symbol('*'), [Point(3, 1)]), Part(Number(35), [Point(2, 2), Point(3, 2)]), Part(Number(633), [Point(6, 2), Point(7, 2), Point(8, 2)]), Part(Symbol('#'), [Point(6, 3)])]
    ensures ScanRow(start, row[..8], 3) == [Part(Number(467), [Point(0, 0), Point(1, 0), Point(2, 0)]), Part(Number(114), [Point(5, 0), Point(6, 0), Point(7, 0)]), Part(Symbol('*'), [Point(3, 1)]), Part(Number(35), [Point(2, 2), Point(3, 2)]), Part(Number(633), [Point(6, 2), Point(7, 2), Point(8, 2)]), Part(Symbol('#'), [Point(6, 3)])]
  {
    StepSkip([Part(Number(467), [Point(0, 0), Point(1, 0), Point(2, 0)]), Part(Number(114), [Point(5, 0), Point(6, 0), Point(7, 0)]), Part(Symbol('*'), [Point(3, 1)]), Part(Number(35), [Point(2, 2), Point(3, 2)]), Part(Number(633), [Point(6, 2), Point(7, 2), Point(8, 2)]), Part(Symbol('#'), [Point(6, 3)])], 7, 3, [Part(Number(467), [Point(0, 0), Point(1, 0), Point(2, 0)]), Part(Number(114), [Point(5, 0), Point(6, 0), Point(7, 0)]), Part(Symbol('*'), [Point(3, 1)]), Part(Number(35), [Point(2, 2), Point(3, 2)]), Part(Number(633), [Point(6, 2), Point(7, 2), Point(8, 2)]), Part(Symbol('#'), [Point(6, 3)])]);
    ScanRowAdvance(start, row, 3, 7, '.', [Part(Number(467), [Point(0, 0), Point(1, 0), Point(2, 0)]), Part(Number(114), [Point(5, 0), Point(6, 0), Point(7, 0)]), Part(Symbol('*'), [Point(3, 1)]), Part(Number(35), [Point(2, 2), Point(3, 2)]), Part(Number(633), [Point(6, 2), Point(7, 2), Point(8, 2)]), Part(Symbol('#'), [Point(6, 3)])], [Part(Number(467), [Point(0, 0), Point(1, 0), Point(2, 0)]), Part(Number(114), [Point(5, 0), Point(6, 0), Point(7, 0)]), Part(Symbol('*'), [Point(3, 1)]), Part(Number(35), [Point(2, 2), Point(3, 2)]), Part(Number(633), [Point(6, 2), Point(7, 2), Point(8, 2)]), Part(Symbol('#'), [Point(6, 3)])]);
  }

  lemma SampleRow3At8(start: seq<Part>, row: string)
    requires 8 < |row| && row[8] == '.'
    requires ScanRow(start, row[..8], 3) == [Part(Number(467), [Point(0, 0), Point(1, 0), Point(2, 0)]), Part(Number(114), [Point(5, 0), Point(6, 0), Point(7, 0)]), Part(Symbol('*'), [Point(3, 1)]), Part(Number(35), [Point(2, 2), Point(3, 2)]), Part(Number(633), [Point(6, 2), Point(7, 2), Point(8, 2)]), Part(Symbol('#'), [Point(6, 3)])]
    ensures ScanRow(start, row[..9], 3) == [Part(Number(467), [Point(0, 0), Point(1, 0), Point(2, 0)]), Part(Number(114), [Point(5, 0), Point(6, 0), Point(7, 0)]), Part(Symbol('*'), [Point(3, 1)]), Part(Number(35), [Point(2, 2), Point(3, 2)]), Part(Number(633), [Point(6, 2), Point(7, 2), Point(8, 2)]), Part(Symbol('#'), [Point(6, 3)])]
  {
    StepSkip([Part(Number(467), [Point(0, 0), Point(1, 0), Point(2, 0)]), Part(Number(114), [Point(5, 0), Point(6, 0), Point(7, 0)]), Part(Symbol('*'), [Point(3, 1)]), Part(Number(35), [Point(2, 2), Point(3, 2)]), Part(Number(633), [Point(6, 2), Point(7, 2), Point(8, 2)]), Part(Symbol('#'), [Point(6, 3)])], 8, 3, [Part(Number(467), [Point(0, 0), Point(1, 0), Point(2, 0)]), Part(Number(114), [Point(5, 0), Point(6, 0), Point(7, 0)]), Part(Symbol('*'), [Point(3, 1)]), Part(Number(35), [Point(2, 2), Point(3, 2)]), Part(Number(633), [Point(6, 2), Point(7, 2), Point(8, 2)]), Part(Symbol('#'), [Point(6, 3)])]);
    ScanRowAdvance(start, row, 3, 8, '.', [Part(Number(467), [Point(0, 0), Point(1, 0), Point(2, 0)]), Part(Number(114), [Point(5, 0), Point(6, 0), Point(7, 0)]), Part(Symbol('*'), [Point(3, 1)]), Part(Number(35), [Point(2, 2), Point(3, 2)]), Part(Number(633), [Point(6, 2), Point(7, 2), Point(8, 2)]), Part(Symbol('#'), [Point(6, 3)])], [Part(Number(467), [Point(0, 0), Point(1, 0), Point(2, 0)]), Part(Number(114), [Point(5, 0), Point(6, 0), Point(7, 0)]), Part(Symbol('*'), [Point(3, 1)]), Part(Number(35), [Point(2, 2), Point(3, 2)]), Part(Number(633), [Point(6, 2), Point(7, 2), Point(8, 2)]), Part(Symbol('#'), [Point(6, 3)])]);
  }

  lemma SampleRow3At9(start: seq<Part>, row: string)
    requires 9 < |row| && row[9] == '.'
    requires ScanRow(start, row[..9], 3) == [Part(Number(467), [Point(0, 0), Point(1, 0), Point(2, 0)]), Part(Number(114), [Point(5, 0), Point(6, 0), Point(7, 0)]), Part(Symbol('*'), [Point(3, 1)]), Part(Number(35), [Point(2, 2), Point(3, 2)]), Part(Number(633), [Point(6, 2), Point(7, 2), Point(8, 2)]), Part(Symbol('#'), [Point(6, 3)])]
    ensures ScanRow(start, row[..10], 3) == [Part(Number(467), [Point(0, 0), Point(1, 0), Point(2, 0)]), Part(Number(114), [Point(5, 0), Point(6, 0), Point(7, 0)]), Part(Symbol('*'), [Point(3, 1)]), Part(Number(35), [Point(2, 2), Point(3, 2)]), Part(Number(633), [Point(6, 2), Point(7, 2), Point(8, 2)]), Part(Symbol('#'), [Point(6, 3)])]
  {
    StepSkip([Part(Number(467), [Point(0, 0), Point(1, 0), Point(2, 0)]), Part(Number(114), [Point(5, 0), Point(6, 0), Point(7, 0)]), Part(Symbol('*'), [Point(3, 1)]), Part(Number(35), [Point(2, 2), Point(3, 2)]), Part(Number(633), [Point(6, 2), Point(7, 2), Point(8, 2)]), Part(Symbol('#'), [Point(6, 3)])], 9, 3, [Part(Number(467), [Point(0, 0), Point(1, 0), Point(2, 0)]), Part(Number(114), [Point(5, 0), Point(6, 0), Point(7, 0)]), Part(Symbol('*'), [Point(3, 1)]), Part(Number(35), [Point(2, 2), Point(3, 2)]), Part(Number(633), [Point(6, 2), Point(7, 2), Point(8, 2)]), Part(Symbol('#'), [Point(6, 3)])]);
    ScanRowAdvance(start, row, 3, 9, '.', [Part(Number(467), [Point(0, 0), Point(1, 0), Point(2, 0)]), Part(Number(114), [Point(5, 0), Point(6, 0), Point(7, 0)]), Part(Symbol('*'), [Point(3, 1)]), Part(Number(35), [Point(2, 2), Point(3, 2)]), Part(Number(633), [Point(6, 2), Point(7, 2), Point(8, 2)]), Part(Symbol('#'), [Point(6, 3)])], [Part(Number(467), [Point(0, 0), Point(1, 0), Point(2, 0)]), Part(Number(114), [Point(5, 0), Point(6, 0), Point(7, 0)]), Part(Symbol('*'), [Point(3, 1)]), Part(Number(35), [Point(2, 2), Point(3, 2)]), Part(Number(633), [Point(6, 2), Point(7, 2), Point(8, 2)]), Part(Symbol('#'), [Point(6, 3)])]);
  }

  /** Row 3 of the sample grid. */
  lemma SampleRow3(start: seq<Part>, row: string)
    requires start == [Part(Number(467), [Point(0, 0), Point(1, 0), Point(2, 0)]), Part(Number(114), [Point(5, 0), Point(6, 0), Point(7, 0)]), Part(Symbol('*'), [Point(3, 1)]), Part(Number(35), [Point(2, 2), Point(3, 2)]), Part(Number(633), [Point(6, 2), Point(7, 2), Point(8, 2)])]
    requires |row| == 10 && row[0] == '.' && row[1] == '.' && row[2] == '.' && row[3] == '.' && row[4] == '.' && row[5] == '.' && row[6] == '#' && row[7] == '.' && row[8] == '.' && row[9] == '.'
    ensures ScanRow(start, row, 3) == [Part(Number(467), [Point(0, 0), Point(1, 0), Point(2, 0)]), Part(Number(114), [Point(5, 0), Point(6, 0), Point(7, 0)]), Part(Symbol('*'), [Point(3, 1)]), Part(Number(35), [Point(2, 2), Point(3, 2)]), Part(Number(633), [Point(6, 2), Point(7, 2), Point(8, 2)]), Part(Symbol('#'), [Point(6, 3)])]
  {
    assert row[..0] == [];
    SampleRow3At0(start, row);
    SampleRow3At1(start, row);
    SampleRow3At2(start, row);
    SampleRow3At3(start, row);
    SampleRow3At4(start, row);
    SampleRow3At5(start, row);
    SampleRow3At6(start, row);
    SampleRow3At7(start, row);
    SampleRow3At8(start, row);
    SampleRow3At9(start, row);
    assert row[..10] == row;
  }

  lemma SampleRow4At0(start: seq<Part>, row: string)
    requires 0 < |row| && row[0] == '6'
    requires ScanRow(start, row[..0], 4) == [Part(Number(467), [Point(0, 0), Point(1, 0), Point(2, 0)]), Part(Number(114), [Point(5, 0), Point(6, 0), Point(7, 0)]), Part(Symbol('*'), [Point(3, 1)]), Part(Number(35), [Point(2, 2), Point(3, 2)]), Part(Number(633), [Point(6, 2), Point(7, 2), Point(8, 2)]), Part(Symbol('#'), [Point(6, 3)])]
    ensures ScanRow(start, row[..1], 4) == [Part(Number(467), [Point(0, 0), Point(1, 0), Point(2, 0)]), Part(Number(114), [Point(5, 0), Point(6, 0), Point(7, 0)]), Part(Symbol('*'), [Point(3, 1)]), Part(Number(35), [Point(2, 2), Point(3, 2)]), Part(Number(633), [Point(6, 2), Point(7, 2), Point(8, 2)]), Part(Symbol('#'), [Point(6, 3)]), Part(Number(6), [Point(0, 4)])]
  {
    StepStart([Part(Number(467), [Point(0, 0), Point(1, 0), Point(2, 0)]), Part(Number(114), [Point(5, 0), Point(6, 0), Point(7, 0)]), Part(Symbol('*'), [Point(3, 1)]), Part(Number(35), [Point(2, 2), Point(3, 2)]), Part(Number(633), [Point(6, 2), Point(7, 2), Point(8, 2)]), Part(Symbol('#'), [Point(6, 3)])], 0, 4, '6', 6, [Part(Number(467), [Point(0, 0), Point(1, 0), Point(2, 0)]), Part(Number(114), [Point(5, 0), Point(6, 0), Point(7, 0)]), Part(Symbol('*'), [Point(3, 1)]), Part(Number(35), [Point(2, 2), Point(3, 2)]), Part(Number(633), [Point(6, 2), Point(7, 2), Point(8, 2)]), Part(Symbol('#'), [Point(6, 3)]), Part(Number(6), [Point(0, 4)])]);
    ScanRowAdvance(start, row, 4, 0, '6', [Part(Number(467), [Point(0, 0), Point(1, 0), Point(2, 0)]), Part(Number(114), [Point(5, 0), Point(6, 0), Point(7, 0)]), Part(Symbol('*'), [Point(3, 1)]), Part(Number(35), [Point(2, 2), Point(3, 2)]), Part(Number(633), [Point(6, 2), Point(7, 2), Point(8, 2)]), Part(Symbol('#'), [Point(6, 3)])], [Part(Number(467), [Point(0, 0), Point(1, 0), Point(2, 0)]), Part(Number(114), [Point(5, 0), Point(6, 0), Point(7, 0)]), Part(Symbol('*'), [Point(3, 1)]), Part(Number(35), [Point(2, 2), Point(3, 2)]), Part(Number(633), [Point(6, 2), Point(7, 2), Point(8, 2)]), Part(Symbol('#'), [Point(6, 3)]), Part(Number(6), [Point(0, 4)])]);
  }

  lemma SampleRow4At1(start: seq<Part>, row: string)
    requires 1 < |row| && row[1] == '1'
    requires ScanRow(start, row[..1], 4) == [Part(Number(467), [Point(0, 0), Point(1, 0), Point(2, 0)]), Part(Number(114), [Point(5, 0), Point(6, 0), Point(7, 0)]), Part(Symbol('*'), [Point(3, 1)]), Part(Number(35), [Point(2, 2), Point(3, 2)]), Part(Number(633), [Point(6, 2), Point(7, 2), Point(8, 2)]), Part(Symbol('#'), [Point(6, 3)]), Part(Number(6), [Point(0, 4)])]
    ensures ScanRow(start, row[..2], 4) == [Part(Number(467), [Point(0, 0), Point(1, 0), Point(2, 0)]), Part(Number(114), [Point(5, 0), Point(6, 0), Point(7, 0)]), Part(Symbol('*'), [Point(3, 1)]), Part(Number(35), [Point(2, 2), Point(3, 2)]), Part(Number(633), [Point(6, 2), Point(7, 2), Point(8, 2)]), Part(Symbol('#'), [Point(6, 3)]), Part(Number(61), [Point(0, 4), Point(1, 4)])]
  {
    StepExtend([Part(Number(467), [Point(0, 0), Point(1, 0), Point(2, 0)]), Part(Number(114), [Point(5, 0), Point(6, 0), Point(7, 0)]), Part(Symbol('*'), [Point(3, 1)]), Part(Number(35), [Point(2, 2), Point(3, 2)]), Part(Number(633), [Point(6, 2), Point(7, 2), Point(8, 2)]), Part(Symbol('#'), [Point(6, 3)]), Part(Number(6), [Point(0, 4)])], [Part(Number(467), [Point(0, 0), Point(1, 0), Point(2, 0)]), Part(Number(114), [Point(5, 0), Point(6, 0), Point(7, 0)]), Part(Symbol('*'), [Point(3, 1)]), Part(Number(35), [Point(2, 2), Point(3, 2)]), Part(Number(633), [Point(6, 2), Point(7, 2), Point(8, 2)]), Part(Symbol('#'), [Point(6, 3)])], 6, [Point(0, 4)], 1, 4, '1', 61, [Point(0, 4), Point(1, 4)], [Part(Number(467), [Point(0, 0), Point(1, 0), Point(2, 0)]), Part(Number(114), [Point(5, 0), Point(6, 0), Point(7, 0)]), Part(Symbol('*'), [Point(3, 1)]), Part(Number(35), [Point(2, 2), Point(3, 2)]), Part(Number(633), [Point(6, 2), Point(7, 2), Point(8, 2)]), Part(Symbol('#'), [Point(6, 3)]), Part(Number(61), [Point(0, 4), Point(1, 4)])]);
    ScanRowAdvance(start, row, 4, 1, '1', [Part(Number(467), [Point(0, 0), Point(1, 0), Point(2, 0)]), Part(Number(114), [Point(5, 0), Point(6, 0), Point(7, 0)]), Part(Symbol('*'), [Point(3, 1)]), Part(Number(35), [Point(2, 2), Point(3, 2)]), Part(Number(633), [Point(6, 2), Point(7, 2), Point(8, 2)]), Part(Symbol('#'), [Point(6, 3)]), Part(Number(6), [Point(0, 4)])], [Part(Number(467), [Point(0, 0), Point(1, 0), Point(2, 0)]), Part(Number(114), [Point(5, 0), Point(6, 0), Point(7, 0)]), Part(Symbol('*'), [Point(3, 1)]), Part(Number(35), [Point(2, 2), Point(3, 2)]), Part(Number(633), [Point(6, 2), Point(7, 2), Point(8, 2)]), Part(Symbol('#'), [Point(6, 3)]), Part(Number(61), [Point(0, 4), Point(1, 4)])]);
  }

  lemma SampleRow4At2(start: seq<Part>, row: string)
    requires 2 < |row| && row[2] == '7'
    requires ScanRow(start, row[..2], 4) == [Part(Number(467), [Point(0, 0), Point(1, 0), Point(2, 0)]), Part(Number(114), [Point(5, 0), Point(6, 0), Point(7, 0)]), Part(Symbol('*'), [Point(3, 1)]), Part(Number(35), [Point(2, 2), Point(3, 2)]), Part(Number(633), [Point(6, 2), Point(7, 2), Point(8, 2)]), Part(Symbol('#'), [Point(6, 3)]), Part(Number(61), [Point(0, 4), Point(1, 4)])]
    ensures ScanRow(start, row[..3], 4) == [Part(Number(467), [Point(0, 0), Point(1, 0), Point(2, 0)]), Part(Number(114), [Point(5, 0), Point(6, 0), Point(7, 0)]), Part(Symbol('*'), [Point(3, 1)]), Part(Number(35), [Point(2, 2), Point(3, 2)]), Part(Number(633), [Point(6, 2), Point(7, 2), Point(8, 2)]), Part(Symbol('#'), [Point(6, 3)]), Part(Number(617), [Point(0, 4), Point(1, 4), Point(2, 4)])]
  {
    StepExtend([Part(Number(467), [Point(0, 0), Point(1, 0), Point(2, 0)]), Part(Number(114), [Point(5, 0), Point(6, 0), Point(7, 0)]), Part(Symbol('*'), [Point(3, 1)]), Part(Number(35), [Point(2, 2), Point(3, 2)]), Part(Number(633), [Point(6, 2), Point(7, 2), Point(8, 2)]), Part(Symbol('#'), [Point(6, 3)]), Part(Number(61), [Point(0, 4), Point(1, 4)])], [Part(Number(467), [Point(0, 0), Point(1, 0), Point(2, 0)]), Part(Number(114), [Point(5, 0), Point(6, 0), Point(7, 0)]), Part(Symbol('*'), [Point(3, 1)]), Part(Number(35), [Point(2, 2), Point(3, 2)]), Part(Number(633), [Point(6, 2), Point(7, 2), Point(8, 2)]), Part(Symbol('#'), [Point(6, 3)])], 61, [Point(0, 4), Point(1, 4)], 2, 4, '7', 617, [Point(0, 4), Point(1, 4), Point(2, 4)], [Part(Number(467), [Point(0, 0), Point(1, 0), Point(2, 0)]), Part(Number(114), [Point(5, 0), Point(6, 0), Point(7, 0)]), Part(Symbol('*'), [Point(3, 1)]), Part(Number(35), [Point(2, 2), Point(3, 2)]), Part(Number(633), [Point(6, 2), Point(7, 2), Point(8, 2)]), Part(Symbol('#'), [Point(6, 3)]), Part(Number(617), [Point(0, 4), Point(1, 4), Point(2, 4)])]);
    ScanRowAdvance(start, row, 4, 2, '7', [Part(Number(467), [Point(0, 0), Point(1, 0), Point(2, 0)]), Part(Number(114), [Point(5, 0), Point(6, 0), Point(7, 0)]), Part(Symbol('*'), [Point(3, 1)]), Part(Number(35), [Point(2, 2), Point(3, 2)]), Part(Number(633), [Point(6, 2), Point(7, 2), Point(8, 2)]), Part(Symbol('#'), [Point(6, 3)]), Part(Number(61), [Point(0, 4), Point(1, 4)])], [Part(Number(467), [Point(0, 0), Point(1, 0), Point(2, 0)]), Part(Number(114), [Point(5, 0), Point(6, 0), Point(7, 0)]), Part(Symbol('*'), [Point(3, 1)]), Part(Number(35), [Point(2, 2), Point(3, 2)]), Part(Number(633), [Point(6, 2), Point(7, 2), Point(8, 2)]), Part(Symbol('#'), [Point(6, 3)]), Part(Number(617), [Point(0, 4), Point(1, 4), Point(2, 4)])]);
  }

  lemma SampleRow4At3(start: seq<Part>, row: string)
    requires 3 < |row| && row[3] == '*'
    requires ScanRow(start, row[..3], 4) == [Part(Number(467), [Point(0, 0), Point(1, 0), Point(2, 0)]), Part(Number(114), [Point(5, 0), Point(6, 0), Point(7, 0)]), Part(Symbol('*'), [Point(3, 1)]), Part(Number(35), [Point(2, 2), Point(3, 2)]), Part(Number(633), [Point(6, 2), Point(7, 2), Point(8, 2)]), Part(Symbol('#'), [Point(6, 3)]), Part(Number(617), [Point(0, 4), Point(1, 4), Point(2, 4)])]
    ensures ScanRow(start, row[..4], 4) == [Part(Number(467), [Point(0, 0), Point(1, 0), Point(2, 0)]), Part(Number(114), [Point(5, 0), Point(6, 0), Point(7, 0)]), Part(Symbol('*'), [Point(3, 1)]), Part(Number(35), [Point(2, 2), Point(3, 2)]), Part(Number(633), [Point(6, 2), Point(7, 2), Point(8, 2)]), Part(Symbol('#'), [Point(6, 3)]), Part(Number(617), [Point(0, 4), Point(1, 4), Point(2, 4)]), Part(Symbol('*'), [Point(3, 4)])]
  {
    StepSymbol([Part(Number(467), [Point(0, 0), Point(1, 0), Point(2, 0)]), Part(Number(114), [Point(5, 0), Point(6, 0), Point(7, 0)]), Part(Symbol('*'), [Point(3, 1)]), Part(Number(35), [Point(2, 2), Point(3, 2)]), Part(Number(633), [Point(6, 2), Point(7, 2), Point(8, 2)]), Part(Symbol('#'), [Point(6, 3)]), Part(Number(617), [Point(0, 4), Point(1, 4), Point(2, 4)])], 3, 4, '*', [Part(Number(467), [Point(0, 0), Point(1, 0), Point(2, 0)]), Part(Number(114), [Point(5, 0), Point(6, 0), Point(7, 0)]), Part(Symbol('*'), [Point(3, 1)]), Part(Number(35), [Point(2, 2), Point(3, 2)]), Part(Number(633), [Point(6, 2), Point(7, 2), Point(8, 2)]), Part(Symbol('#'), [Point(6, 3)]), Part(Number(617), [Point(0, 4), Point(1, 4), Point(2, 4)]), Part(Symbol('*'), [Point(3, 4)])]);
    ScanRowAdvance(start, row, 4, 3, '*', [Part(Number(467), [Point(0, 0), Point(1, 0), Point(2, 0)]), Part(Number(114), [Point(5, 0), Point(6, 0), Point(7, 0)]), Part(Symbol('*'), [Point(3, 1)]), Part(Number(35), [Point(2, 2), Point(3, 2)]), Part(Number(633), [Point(6, 2), Point(7, 2), Point(8, 2)]), Part(Symbol('#'), [Point(6, 3)]), Part(Number(617), [Point(0, 4), Point(1, 4), Point(2, 4)])], [Part(Number(467), [Point(0, 0), Point(1, 0), Point(2, 0)]), Part(Number(114), [Point(5, 0), Point(6, 0), Point(7, 0)]), Part(Symbol('*'), [Point(3, 1)]), Part(Number(35), [Point(2, 2), Point(3, 2)]), Part(Number(633), [Point(6, 2), Point(7, 2), Point(8, 2)]), Part(Symbol('#'), [Point(6, 3)]), Part(Number(617), [Point(0, 4), Point(1, 4), Point(2, 4)]), Part(Symbol('*'), [Point(3, 4)])]);
  }

  lemma SampleRow4At4(start: seq<Part>, row: string)
    requires 4 < |row| && row[4] == '.'
    requires ScanRow(start, row[..4], 4) == [Part(Number(467), [Point(0, 0), Point(1, 0), Point(2, 0)]), Part(Number(114), [Point(5, 0), Point(6, 0), Point(7, 0)]), Part(Symbol('*'), [Point(3, 1)]), Part(Number(35), [Point(2, 2), Point(3, 2)]), Part(Number(633), [Point(6, 2), Point(7, 2), Point(8, 2)]), Part(Symbol('#'), [Point(6, 3)]), Part(Number(617), [Point(0, 4), Point(1, 4), Point(2, 4)]), Part(Symbol('*'), [Point(3, 4)])]
    ensures ScanRow(start, row[..5], 4) == [Part(Number(467), [Point(0, 0), Point(1, 0), Point(2, 0)]), Part(Number(114), [Point(5, 0), Point(6, 0), Point(7, 0)]), Part(Symbol('*'), [Point(3, 1)]), Part(Number(35), [Point(2, 2), Point(3, 2)]), Part(Number(633), [Point(6, 2), Point(7, 2), Point(8, 2)]), Part(Symbol('#'), [Point(6, 3)]), Part(Number(617), [Point(0, 4), Point(1, 4), Point(2, 4)]), Part(Symbol('*'), [Point(3, 4)])]
  {
    StepSkip([Part(Number(467), [Point(0, 0), Point(1, 0), Point(2, 0)]), Part(Number(114), [Point(5, 0), Point(6, 0), Point(7, 0)]), Part(Symbol('*'), [Point(3, 1)]), Part(Number(35), [Point(2, 2), Point(3, 2)]), Part(Number(633), [Point(6, 2), Point(7, 2), Point(8, 2)]), Part(Symbol('#'), [Point(6, 3)]), Part(Number(617), [Point(0, 4), Point(1, 4), Point(2, 4)]), Part(Symbol('*'), [Point(3, 4)])], 4, 4, [Part(Number(467), [Point(0, 0), Point(1, 0), Point(2, 0)]), Part(Number(114), [Point(5, 0), Point(6, 0), Point(7, 0)]), Part(Symbol('*'), [Point(3, 1)]), Part(Number(35), [Point(2, 2), Point(3, 2)]), Part(Number(633), [Point(6, 2), Point(7, 2), Point(8, 2)]), Part(Symbol('#'), [Point(6, 3)]), Part(Number(617), [Point(0, 4), Point(1, 4), Point(2, 4)]), Part(Symbol('*'), [Point(3, 4)])]);
    ScanRowAdvance(start, row, 4, 4, '.', [Part(Number(467), [Point(0, 0), Point(1, 0), Point(2, 0)]), Part(Number(114), [Point(5, 0), Point(6, 0), Point(7, 0)]), Part(Symbol('*'), [Point(3, 1)]), Part(Number(35), [Point(2, 2), Point(3, 2)]), Part(Number(633), [Point(6, 2), Point(7, 2), Point(8, 2)]), Part(Symbol('#'), [Point(6, 3)]), Part(Number(617), [Point(0, 4), Point(1, 4), Point(2, 4)]), Part(Symbol('*'), [Point(3, 4)])], [Part(Number(467), [Point(0, 0), Point(1, 0), Point(2, 0)]), Part(Number(114), [Point(5, 0), Point(6, 0), Point(7, 0)]), Part(Symbol('*'), [Point(3, 1)]), Part(Number(35), [Point(2, 2), Point(3, 2)]), Part(Number(633), [Point(6, 2), Point(7, 2), Point(8, 2)]), Part(Symbol('#'), [Point(6, 3)]), Part(Number(617), [Point(0, 4), Point(1, 4), Point(2, 4)]), Part(Symbol('*'), [Point(3, 4)])]);
  }

  lemma SampleRow4At5(start: seq<Part>, row: string)
    requires 5 < |row| && row[5] == '.'
    requires ScanRow(start, row[..5], 4) == [Part(Number(467), [Point(0, 0), Point(1, 0), Point(2, 0)]), Part(Number(114), [Point(5, 0), Point(6, 0), Point(7, 0)]), Part(Symbol('*'), [Point(3, 1)]), Part(Number(35), [Point(2, 2), Point(3, 2)]), Part(Number(633), [Point(6, 2), Point(7, 2), Point(8, 2)]), Part(Symbol('#'), [Point(6, 3)]), Part(Number(617), [Point(0, 4), Point(1, 4), Point(2, 4)]), Part(Symbol('*'), [Point(3, 4)])]
    ensures ScanRow(start, row[..6], 4) == [Part(Number(467), [Point(0, 0), Point(1, 0), Point(2, 0)]), Part(Number(114), [Point(5, 0), Point(6, 0), Point(7, 0)]), Part(Symbol('*'), [Point(3, 1)]), Part(Number(35), [Point(2, 2), Point(3, 2)]), Part(Number(633), [Point(6, 2), Point(7, 2), Point(8, 2)]), Part(Symbol('#'), [Point(6, 3)]), Part(Number(617), [Point(0, 4), Point(1, 4), Point(2, 4)]), Part(Symbol('*'), [Point(3, 4)])]
  {
    StepSkip([Part(Number(467), [Point(0, 0), Point(1, 0), Point(2, 0)]), Part(Number(114), [Point(5, 0), Point(6, 0), Point(7, 0)]), Part(Symbol('*'), [Point(3, 1)]), Part(Number(35), [Point(2, 2), Point(3, 2)]), Part(Number(633), [Point(6, 2), Point(7, 2), Point(8, 2)]), Part(Symbol('#'), [Point(6, 3)]), Part(Number(617), [Point(0, 4), Point(1, 4), Point(2, 4)]), Part(Symbol('*'), [Point(3, 4)])], 5, 4, [Part(Number(467), [Point(0, 0), Point(1, 0), Point(2, 0)]), Part(Number(114), [Point(5, 0), Point(6, 0), Point(7, 0)]), Part(Symbol('*'), [Point(3, 1)]), Part(Number(35), [Point(2, 2), Point(3, 2)]), Part(Number(633), [Point(6, 2), Point(7, 2), Point(8, 2)]), Part(Symbol('#'), [Point(6, 3)]), Part(Number(617), [Point(0, 4), Point(1, 4), Point(2, 4)]), Part(Symbol('*'), [Point(3, 4)])]);
    ScanRowAdvance(start, row, 4, 5, '.', [Part(Number(467), [Point(0, 0), Point(1, 0), Point(2, 0)]), Part(Number(114), [Point(5, 0), Point(6, 0), Point(7, 0)]), Part(Symbol('*'), [Point(3, 1)]), Part(Number(35), [Point(2, 2), Point(3, 2)]), Part(Number(633), [Point(6, 2), Point(7, 2), Point(8, 2)]), Part(Symbol('#'), [Point(6, 3)]), Part(Number(617), [Point(0, 4), Point(1, 4), Point(2, 4)]), Part(Symbol('*'), [Point(3, 4)])], [Part(Number(467), [Point(0, 0), Point(1, 0), Point(2, 0)]), Part(Number(114), [Point(5, 0), Point(6, 0), Point(7, 0)]), Part(Symbol('*'), [Point(3, 1)]), Part(Number(35), [Point(2, 2), Point(3, 2)]), Part(Number(633), [Point(6, 2), Point(7, 2), Point(8, 2)]), Part(Symbol('#'), [Point(6, 3)]), Part(Number(617), [Point(0, 4), Point(1, 4), Point(2, 4)]), Part(Symbol('*'), [Point(3, 4)])]);
  }

  lemma SampleRow4At6(start: seq<Part>, row: string)
    requires 6 < |row| && row[6] == '.'
    requires ScanRow(start, row[..6], 4) == [Part(Number(467), [Point(0, 0), Point(1, 0), Point(2, 0)]), Part(Number(114), [Point(5, 0), Point(6, 0), Point(7, 0)]), Part(Symbol('*'), [Point(3, 1)]), Part(Number(35), [Point(2, 2), Point(3, 2)]), Part(Number(633), [Point(6, 2), Point(7, 2), Point(8, 2)]), Part(Symbol('#'), [Point(6, 3)]), Part(Number(617), [Point(0, 4), Point(1, 4), Point(2, 4)]), Part(Symbol('*'), [Point(3, 4)])]
    ensures ScanRow(start, row[..7], 4) == [Part(Number(467), [Point(0, 0), Point(1, 0), Point(2, 0)]), Part(Number(114), [Point(5, 0), Point(6, 0), Point(7, 0)]), Part(Symbol('*'), [Point(3, 1)]), Part(Number(35), [Point(2, 2), Point(3, 2)]), Part(Number(633), [Point(6, 2), Point(7, 2), Point(8, 2)]), Part(Symbol('#'), [Point(6, 3)]), Part(Number(617), [Point(0, 4), Point(1, 4), Point(2, 4)]), Part(Symbol('*'), [Point(3, 4)])]
  {
    StepSkip([Part(Number(467), [Point(0, 0), Point(1, 0), Point(2, 0)]), Part(Number(114), [Point(5, 0), Point(6, 0), Point(7, 0)]), Part(Symbol('*'), [Point(3, 1)]), Part(Number(35), [Point(2, 2), Point(3, 2)]), Part(Number(633), [Point(6, 2), Point(7, 2), Point(8, 2)]), Part(Symbol('#'), [Point(6, 3)]), Part(Number(617), [Point(0, 4), Point(1, 4), Point(2, 4)]), Part(Symbol('*'), [Point(3, 4)])], 6, 4, [Part(Number(467), [Point(0, 0), Point(1, 0), Point(2, 0)]), Part(Number(114), [Point(5, 0), Point(6, 0), Point(7, 0)]), Part(Symbol('*'), [Point(3, 1)]), Part(Number(35), [Point(2, 2), Point(3, 2)]), Part(Number(633), [Point(6, 2), Point(7, 2), Point(8, 2)]), Part(Symbol('#'), [Point(6, 3)]), Part(Number(617), [Point(0, 4), Point(1, 4), Point(2, 4)]), Part(Symbol('*'), [Point(3, 4)])]);
    ScanRowAdvance(start, row, 4, 6, '.', [Part(Number(467), [Point(0, 0), Point(1, 0), Point(2, 0)]), Part(Number(114), [Point(5, 0), Point(6, 0), Point(7, 0)]), Part(Symbol('*'), [Point(3, 1)]), Part(Number(35), [Point(2, 2), Point(3, 2)]), Part(Number(633), [Point(6, 2), Point(7, 2), Point(8, 2)]), Part(Symbol('#'), [Point(6, 3)]), Part(Number(617), [Point(0, 4), Point(1, 4), Point(2, 4)]), Part(Symbol('*'), [Point(3, 4)])], [Part(Number(467), [Point(0, 0), Point(1, 0), Point(2, 0)]), Part(Number(114), [Point(5, 0), Point(6, 0), Point(7, 0)]), Part(Symbol('*'), [Point(3, 1)]), Part(Number(35), [Point(2, 2), Point(3, 2)]), Part(Number(633), [Point(6, 2), Point(7, 2), Point(8, 2)]), Part(Symbol('#'), [Point(6, 3)]), Part(Number(617), [Point(0, 4), Point(1, 4), Point(2, 4)]), Part(Symbol('*'), [Point(3, 4)])]);
  }

  lemma SampleRow4At7(start: seq<Part>, row: string)
    requires 7 < |row| && row[7] == '.'
    requires ScanRow(start, row[..7], 4) == [Part(Number(467), [Point(0, 0), Point(1, 0), Point(2, 0)]), Part(Number(114), [Point(5, 0), Point(6, 0), Point(7, 0)]), Part(Symbol('*'), [Point(3, 1)]), Part(Number(35), [Point(2, 2), Point(3, 2)]), Part(Number(633), [Point(6, 2), Point(7, 2), Point(8, 2)]), Part(Symbol('#'), [Point(6, 3)]), Part(Number(617), [Point(0, 4), Point(1, 4), Point(2, 4)]), Part(Symbol('*'), [Point(3, 4)])]
    ensures ScanRow(start, row[..8], 4) == [Part(Number(467), [Point(0, 0), Point(1, 0), Point(2, 0)]), Part(Number(114), [Point(5, 0), Point(6, 0), Point(7, 0)]), Part(Symbol('*'), [Point(3, 1)]), Part(Number(35), [Point(2, 2), Point(3, 2)]), Part(Number(633), [Point(6, 2), Point(7, 2), Point(8, 2)]), Part(Symbol('#'), [Point(6, 3)]), Part(Number(617), [Point(0, 4), Point(1, 4), Point(2, 4)]), Part(Symbol('*'), [Point(3, 4)])]
  {
    StepSkip([Part(Number(467), [Point(0, 0), Point(1, 0), Point(2, 0)]), Part(Number(114), [Point(5, 0), Point(6, 0), Point(7, 0)]), Part(Symbol('*'), [Point(3, 1)]), Part(Number(35), [Point(2, 2), Point(3, 2)]), Part(Number(633), [Point(6, 2), Point(7, 2), Point(8, 2)]), Part(Symbol('#'), [Point(6, 3)]), Part(Number(617), [Point(0, 4), Point(1, 4), Point(2, 4)]), Part(Symbol('*'), [Point(3, 4)])], 7, 4, [Part(Number(467), [Point(0, 0), Point(1, 0), Point(2, 0)]), Part(Number(114), [Point(5, 0), Point(6, 0), Point(7, 0)]), Part(Symbol('*'), [Point(3, 1)]), Part(Number(35), [Point(2, 2), Point(3, 2)]), Part(Number(633), [Point(6, 2), Point(7, 2), Point(8, 2)]), Part(Symbol('#'), [Point(6, 3)]), Part(Number(617), [Point(0, 4), Point(1, 4), Point(2, 4)]), Part(Symbol('*'), [Point(3, 4)])]);
    ScanRowAdvance(start, row, 4, 7, '.', [Part(Number(467), [Point(0, 0), Point(1, 0), Point(2, 0)]), Part(Number(114), [Point(5, 0), Point(6, 0), Point(7, 0)]), Part(Symbol('*'), [Point(3, 1)]), Part(Number(35), [Point(2, 2), Point(3, 2)]), Part(Number(633), [Point(6, 2), Point(7, 2), Point(8, 2)]), Part(Symbol('#'), [Point(6, 3)]), Part(Number(617), [Point(0, 4), Point(1, 4), Point(2, 4)]), Part(Symbol('*'), [Point(3, 4)])], [Part(Number(467), [Point(0, 0), Point(1, 0), Point(2, 0)]), Part(Number(114), [Point(5, 0), Point(6, 0), Point(7, 0)]), Part(Symbol('*'), [Point(3, 1)]), Part(Number(35), [Point(2, 2), Point(3, 2)]), Part(Number(633), [Point(6, 2), Point(7, 2), Point(8, 2)]), Part(Symbol('#'), [Point(6, 3)]), Part(Number(617), [Point(0, 4), Point(1, 4), Point(2, 4)]), Part(Symbol('*'), [Point(3, 4)])]);
  }

  lemma SampleRow4At8(start: seq<Part>, row: string)
    requires 8 < |row| && row[8] == '.'
    requires ScanRow(start, row[..8], 4) == [Part(Number(467), [Point(0, 0), Point(1, 0), Point(2, 0)]), Part(Number(114), [Point(5, 0), Point(6, 0), Point(7, 0)]), Part(Symbol('*'), [Point(3, 1)]), Part(Number(35), [Point(2, 2), Point(3, 2)]), Part(Number(633), [Point(6, 2), Point(7, 2), Point(8, 2)]), Part(Symbol('#'), [Point(6, 3)]), Part(Number(617), [Point(0, 4), Point(1, 4), Point(2, 4)]), Part(Symbol('*'), [Point(3, 4)])]
    ensures ScanRow(start, row[..9], 4) == [Part(Number(467), [Point(0, 0), Point(1, 0), Point(2, 0)]), Part(Number(114), [Point(5, 0), Point(6, 0), Point(7, 0)]), Part(Symbol('*'), [Point(3, 1)]), Part(Number(35), [Point(2, 2), Point(3, 2)]), Part(Number(633), [Point(6, 2), Point(7, 2), Point(8, 2)]), Part(Symbol('#'), [Point(6, 3)]), Part(Number(617), [Point(0, 4), Point(1, 4), Point(2, 4)]), Part(Symbol('*'), [Point(3, 4)])]
  {
    StepSkip([Part(Number(467), [Point(0, 0), Point(1, 0), Point(2, 0)]), Part(Number(114), [Point(5, 0), Point(6, 0), Point(7, 0)]), Part(Symbol('*'), [Point(3, 1)]), Part(Number(35), [Point(2, 2), Point(3, 2)]), Part(Number(633), [Point(6, 2), Point(7, 2), Point(8, 2)]), Part(Symbol('#'), [Point(6, 3)]), Part(Number(617), [Point(0, 4), Point(1, 4), Point(2, 4)]), Part(Symbol('*'), [Point(3, 4)])], 8, 4, [Part(Number(467), [Point(0, 0), Point(1, 0), Point(2, 0)]), Part(Number(114), [Point(5, 0), Point(6, 0), Point(7, 0)]), Part(Symbol('*'), [Point(3, 1)]), Part(Number(35), [Point(2, 2), Point(3, 2)]), Part(Number(633), [Point(6, 2), Point(7, 2), Point(8, 2)]), Part(Symbol('#'), [Point(6, 3)]), Part(Number(617), [Point(0, 4), Point(1, 4), Point(2, 4)]), Part(Symbol('*'), [Point(3, 4)])]);
    ScanRowAdvance(start, row, 4, 8, '.', [Part(Number(467), [Point(0, 0), Point(1, 0), Point(2, 0)]), Part(Number(114), [Point(5, 0), Point(6, 0), Point(7, 0)]), Part(Symbol('*'), [Point(3, 1)]), Part(Number(35), [Point(2, 2), Point(3, 2)]), Part(Number(633), [Point(6, 2), Point(7, 2), Point(8, 2)]), Part(Symbol('#'), [Point(6, 3)]), Part(Number(617), [Point(0, 4), Point(1, 4), Point(2, 4)]), Part(Symbol('*'), [Point(3, 4)])], [Part(Number(467), [Point(0, 0), Point(1, 0), Point(2, 0)]), Part(Number(114), [Point(5, 0), Point(6, 0), Point(7, 0)]), Part(Symbol('*'), [Point(3, 1)]), Part(Number(35), [Point(2, 2), Point(3, 2)]), Part(Number(633), [Point(6, 2), Point(7, 2), Point(8, 2)]), Part(Symbol('#'), [Point(6, 3)]), Part(Number(617), [Point(0, 4), Point(1, 4), Point(2, 4)]), Part(Symbol('*'), [Point(3, 4)])]);
  }

  lemma SampleRow4At9(start: seq<Part>, row: string)
    requires 9 < |row| && row[9] == '.'
    requires ScanRow(start, row[..9], 4) == [Part(Number(467), [Point(0, 0), Point(1, 0), Point(2, 0)]), Part(Number(114), [Point(5, 0), Point(6, 0), Point(7, 0)]), Part(Symbol('*'), [Point(3, 1)]), Part(Number(35), [Point(2, 2), Point(3, 2)]), Part(Number(633), [Point(6, 2), Point(7, 2), Point(8, 2)]), Part(Symbol('#'), [Point(6, 3)]), Part(Number(617), [Point(0, 4), Point(1, 4), Point(2, 4)]), Part(Symbol('*'), [Point(3, 4)])]
    ensures ScanRow(start, row[..10], 4) == [Part(Number(467), [Point(0, 0), Point(1, 0), Point(2, 0)]), Part(Number(114), [Point(5, 0), Point(6, 0), Point(7, 0)]), Part(Symbol('*'), [Point(3, 1)]), Part(Number(35), [Point(2, 2), Point(3, 2)]), Part(Number(633), [Point(6, 2), Point(7, 2), Point(8, 2)]), Part(Symbol('#'), [Point(6, 3)]), Part(Number(617), [Point(0, 4), Point(1, 4), Point(2, 4)]), Part(Symbol('*'), [Point(3, 4)])]
  {
    StepSkip([Part(Number(467), [Point(0, 0), Point(1, 0), Point(2, 0)]), Part(Number(114), [Point(5, 0), Point(6, 0), Point(7, 0)]), Part(Symbol('*'), [Point(3, 1)]), Part(Number(35), [Point(2, 2), Point(3, 2)]), Part(Number(633), [Point(6, 2), Point(7, 2), Point(8, 2)]), Part(Symbol('#'), [Point(6, 3)]), Part(Number(617), [Point(0, 4), Point(1, 4), Point(2, 4)]), Part(Symbol('*'), [Point(3, 4)])], 9, 4, [Part(Number(467), [Point(0, 0), Point(1, 0), Point(2, 0)]), Part(Number(114), [Point(5, 0), Point(6, 0), Point(7, 0)]), Part(Symbol('*'), [Point(3, 1)]), Part(Number(35), [Point(2, 2), Point(3, 2)]), Part(Number(633), [Point(6, 2), Point(7, 2), Point(8, 2)]), Part(Symbol('#'), [Point(6, 3)]), Part(Number(617), [Point(0, 4), Point(1, 4), Point(2, 4)]), Part(Symbol('*'), [Point(3, 4)])]);
    ScanRowAdvance(start, row, 4, 9, '.', [Part(Number(467), [Point(0, 0), Point(1, 0), Point(2, 0)]), Part(Number(114), [Point(5, 0), Point(6, 0), Point(7, 0)]), Part(Symbol('*'), [Point(3, 1)]), Part(Number(35), [Point(2, 2), Point(3, 2)]), Part(Number(633), [Point(6, 2), Point(7, 2), Point(8, 2)]), Part(Symbol('#'), [Point(6, 3)]), Part(Number(617), [Point(0, 4), Point(1, 4), Point(2, 4)]), Part(Symbol('*'), [Point(3, 4)])], [Part(Number(467), [Point(0, 0), Point(1, 0), Point(2, 0)]), Part(Number(114), [Point(5, 0), Point(6, 0), Point(7, 0)]), Part(Symbol('*'), [Point(3, 1)]), Part(Number(35), [Point(2, 2), Point(3, 2)]), Part(Number(633), [Point(6, 2), Point(7, 2), Point(8, 2)]), Part(Symbol('#'), [Point(6, 3)]), Part(Number(617), [Point(0, 4), Point(1, 4), Point(2, 4)]), Part(Symbol('*'), [Point(3, 4)])]);
  }

  /** Row 4 of the sample grid. */
  lemma SampleRow4(start: seq<Part>, row: string)
    requires start == [Part(Number(467), [Point(0, 0), Point(1, 0), Point(2, 0)]), Part(Number(114), [Point(5, 0), Point(6, 0), Point(7, 0)]), Part(Symbol('*'), [Point(3, 1)]), Part(Number(35), [Point(2, 2), Point(3, 2)]), Part(Number(633), [Point(6, 2), Point(7, 2), Point(8, 2)]), Part(Symbol('#'), [Point(6, 3)])]
    requires |row| == 10 && row[0] == '6' && row[1] == '1' && row[2] == '7' && row[3] == '*' && row[4] == '.' && row[5] == '.' && row[6] == '.' && row[7] == '.' && row[8] == '.' && row[9] == '.'
    ensures ScanRow(start, row, 4) == [Part(Number(467), [Point(0, 0), Point(1, 0), Point(2, 0)]), Part(Number(114), [Point(5, 0), Point(6, 0), Point(7, 0)]), Part(Symbol('*'), [Point(3, 1)]), Part(Number(35), [Point(2, 2), Point(3, 2)]), Part(Number(633), [Point(6, 2), Point(7, 2), Point(8, 2)]), Part(Symbol('#'), [Point(6, 3)]), Part(Number(617), [Point(0, 4), Point(1, 4), Point(2, 4)]), Part(Symbol('*'), [Point(3, 4)])]
  {
    assert row[..0] == [];
    SampleRow4At0(start, row);
    SampleRow4At1(start, row);
    SampleRow4At2(start, row);
    SampleRow4At3(start, row);
    SampleRow4At4(start, row);
    SampleRow4At5(start, row);
    SampleRow4At6(start, row);
    SampleRow4At7(start, row);
    SampleRow4At8(start, row);
    SampleRow4At9(start, row);
    assert row[..10] == row;
  }

  lemma SampleRow5At0(start: seq<Part>, row: string)
    requires 0 < |row| && row[0] == '.'
    requires ScanRow(start, row[..0], 5) == [Part(Number(467), [Point(0, 0), Point(1, 0), Point(2, 0)]), Part(Number(114), [Point(5, 0), Point(6, 0), Point(7, 0)]), Part(Symbol('*'), [Point(3, 1)]), Part(Number(35), [Point(2, 2), Point(3, 2)]), Part(Number(633), [Point(6, 2), Point(7, 2), Point(8, 2)]), Part(Symbol('#'), [Point(6, 3)]), Part(Number(617), [Point(0, 4), Point(1, 4), Point(2, 4)]), Part(Symbol('*'), [Point(3, 4)])]
    ensures ScanRow(start, row[..1], 5) == [Part(Number(467), [Point(0, 0), Point(1, 0), Point(2, 0)]), Part(Number(114), [Point(5, 0), Point(6, 0), Point(7, 0)]), Part(Symbol('*'), [Point(3, 1)]), Part(Number(35), [Point(2, 2), Point(3, 2)]), Part(Number(633), [Point(6, 2), Point(7, 2), Point(8, 2)]), Part(Symbol('#'), [Point(6, 3)]), Part(Number(617), [Point(0, 4), Point(1, 4), Point(2, 4)]), Part(Symbol('*'), [Point(3, 4)])]
  {
    StepSkip([Part(Number(467), [Point(0, 0), Point(1, 0), Point(2, 0)]), Part(Number(114), [Point(5, 0), Point(6, 0), Point(7, 0)]), Part(Symbol('*'), [Point(3, 1)]), Part(Number(35), [Point(2, 2), Point(3, 2)]), Part(Number(633), [Point(6, 2), Point(7, 2), Point(8, 2)]), Part(Symbol('#'), [Point(6, 3)]), Part(Number(617), [Point(0, 4), Point(1, 4), Point(2, 4)]), Part(Symbol('*'), [Point(3, 4)])], 0, 5, [Part(Number(467), [Point(0, 0), Point(1, 0), Point(2, 0)]), Part(Number(114), [Point(5, 0), Point(6, 0), Point(7, 0)]), Part(Symbol('*'), [Point(3, 1)]), Part(Number(35), [Point(2, 2), Point(3, 2)]), Part(Number(633), [Point(6, 2), Point(7, 2), Point(8, 2)]), Part(Symbol('#'), [Point(6, 3)]), Part(Number(617), [Point(0, 4), Point(1, 4), Point(2, 4)]), Part(Symbol('*'), [Point(3, 4)])]);
    ScanRowAdvance(start, row, 5, 0, '.', [Part(Number(467), [Point(0, 0), Point(1, 0), Point(2, 0)]), Part(Number(114), [Point(5, 0), Point(6, 0), Point(7, 0)]), Part(Symbol('*'), [Point(3, 1)]), Part(Number(35), [Point(2, 2), Point(3, 2)]), Part(Number(633), [Point(6, 2), Point(7, 2), Point(8, 2)]), Part(Symbol('#'), [Point(6, 3)]), Part(Number(617), [Point(0, 4), Point(1, 4), Point(2, 4)]), Part(Symbol('*'), [Point(3, 4)])], [Part(Number(467), [Point(0, 0), Point(1, 0), Point(2, 0)]), Part(Number(114), [Point(5, 0), Point(6, 0), Point(7, 0)]), Part(Symbol('*'), [Point(3, 1)]), Part(Number(35), [Point(2, 2), Point(3, 2)]), Part(Number(633), [Point(6, 2), Point(7, 2), Point(8, 2)]), Part(Symbol('#'), [Point(6, 3)]), Part(Number(617), [Point(0, 4), Point(1, 4), Point(2, 4)]), Part(Symbol('*'), [Point(3, 4)])]);
  }

  lemma SampleRow5At1(start: seq<Part>, row: string)
    requires 1 < |row| && row[1] == '.'
    requires ScanRow(start, row[..1], 5) == [Part(Number(467), [Point(0, 0), Point(1, 0), Point(2, 0)]), Part(Number(114), [Point(5, 0), Point(6, 0), Point(7, 0)]), Part(Symbol('*'), [Point(3, 1)]), Part(Number(35), [Point(2, 2), Point(3, 2)]), Part(Number(633), [Point(6, 2), Point(7, 2), Point(8, 2)]), Part(Symbol('#'), [Point(6, 3)]), Part(Number(617), [Point(0, 4), Point(1, 4), Point(2, 4)]), Part(Symbol('*'), [Point(3, 4)])]
    ensures ScanRow(start, row[..2], 5) == [Part(Number(467), [Point(0, 0), Point(1, 0), Point(2, 0)]), Part(Number(114), [Point(5, 0), Point(6, 0), Point(7, 0)]), Part(Symbol('*'), [Point(3, 1)]), Part(Number(35), [Point(2, 2), Point(3, 2)]), Part(Number(633), [Point(6, 2), Point(7, 2), Point(8, 2)]), Part(Symbol('#'), [Point(6, 3)]), Part(Number(617), [Point(0, 4), Point(1, 4), Point(2, 4)]), Part(Symbol('*'), [Point(3, 4)])]
  {
    StepSkip([Part(Number(467), [Point(0, 0), Point(1, 0), Point(2, 0)]), Part(Number(114), [Point(5, 0), Point(6, 0), Point(7, 0)]), Part(Symbol('*'), [Point(3, 1)]), Part(Number(35), [Point(2, 2), Point(3, 2)]), Part(Number(633), [Point(6, 2), Point(7, 2), Point(8, 2)]), Part(Symbol('#'), [Point(6, 3)]), Part(Number(617), [Point(0, 4), Point(1, 4), Point(2, 4)]), Part(Symbol('*'), [Point(3, 4)])], 1, 5, [Part(Number(467), [Point(0, 0), Point(1, 0), Point(2, 0)]), Part(Number(114), [Point(5, 0), Point(6, 0), Point(7, 0)]), Part(Symbol('*'), [Point(3, 1)]), Part(Number(35), [Point(2, 2), Point(3, 2)]), Part(Number(633), [Point(6, 2), Point(7, 2), Point(8, 2)]), Part(Symbol('#'), [Point(6, 3)]), Part(Number(617), [Point(0, 4), Point(1, 4), Point(2, 4)]), Part(Symbol('*'), [Point(3, 4)])]);
    ScanRowAdvance(start, row, 5, 1, '.', [Part(Number(467), [Point(0, 0), Point(1, 0), Point(2, 0)]), Part(Number(114), [Point(5, 0), Point(6, 0), Point(7, 0)]), Part(Symbol('*'), [Point(3, 1)]), Part(Number(35), [Point(2, 2), Point(3, 2)]), Part(Number(633), [Point(6, 2), Point(7, 2), Point(8, 2)]), Part(Symbol('#'), [Point(6, 3)]), Part(Number(617), [Point(0, 4), Point(1, 4), Point(2, 4)]), Part(Symbol('*'), [Point(3, 4)])], [Part(Number(467), [Point(0, 0), Point(1, 0), Point(2, 0)]), Part(Number(114), [Point(5, 0), Point(6, 0), Point(7, 0)]), Part(Symbol('*'), [Point(3, 1)]), Part(Number(35), [Point(2, 2), Point(3, 2)]), Part(Number(633), [Point(6, 2), Point(7, 2), Point(8, 2)]), Part(Symbol('#'), [Point(6, 3)]), Part(Number(617), [Point(0, 4), Point(1, 4), Point(2, 4)]), Part(Symbol('*'), [Point(3, 4)])]);
  }

  lemma SampleRow5At2(start: seq<Part>, row: string)
    requires 2 < |row| && row[2] == '.'
    requires ScanRow(start, row[..2], 5) == [Part(Number(467), [Point(0, 0), Point(1, 0), Point(2, 0)]), Part(Number(114), [Point(5, 0), Point(6, 0), Point(7, 0)]), Part(Symbol('*'), [Point(3, 1)]), Part(Number(35), [Point(2, 2), Point(3, 2)]), Part(Number(633), [Point(6, 2), Point(7, 2), Point(8, 2)]), Part(Symbol('#'), [Point(6, 3)]), Part(Number(617), [Point(0, 4), Point(1, 4), Point(2, 4)]), Part(Symbol('*'), [Point(3, 4)])]
    ensures ScanRow(start, row[..3], 5) == [Part(Number(467), [Point(0, 0), Point(1, 0), Point(2, 0)]), Part(Number(114), [Point(5, 0), Point(6, 0), Point(7, 0)]), Part(Symbol('*'), [Point(3, 1)]), Part(Number(35), [Point(2, 2), Point(3, 2)]), Part(Number(633), [Point(6, 2), Point(7, 2), Point(8, 2)]), Part(Symbol('#'), [Point(6, 3)]), Part(Number(617), [Point(0, 4), Point(1, 4), Point(2, 4)]), Part(Symbol('*'), [Point(3, 4)])]
  {
    StepSkip([Part(Number(467), [Point(0, 0), Point(1, 0), Point(2, 0)]), Part(Number(114), [Point(5, 0), Point(6, 0), Point(7, 0)]), Part(Symbol('*'), [Point(3, 1)]), Part(Number(35), [Point(2, 2), Point(3, 2)]), Part(Number(633), [Point(6, 2), Point(7, 2), Point(8, 2)]), Part(Symbol('#'), [Point(6, 3)]), Part(Number(617), [Point(0, 4), Point(1, 4), Point(2, 4)]), Part(Symbol('*'), [Point(3, 4)])], 2, 5, [Part(Number(467), [Point(0, 0), Point(1, 0), Point(2, 0)]), Part(Number(114), [Point(5, 0), Point(6, 0), Point(7, 0)]), Part(Symbol('*'), [Point(3, 1)]), Part(Number(35), [Point(2, 2), Point(3, 2)]), Part(Number(633), [Point(6, 2), Point(7, 2), Point(8, 2)]), Part(Symbol('#'), [Point(6, 3)]), Part(Number(617), [Point(0, 4), Point(1, 4), Point(2, 4)]), Part(Symbol('*'), [Point(3, 4)])]);
    ScanRowAdvance(start, row, 5, 2, '.', [Part(Number(467), [Point(0, 0), Point(1, 0), Point(2, 0)]), Part(Number(114), [Point(5, 0), Point(6, 0), Point(7, 0)]), Part(Symbol('*'), [Point(3, 1)]), Part(Number(35), [Point(2, 2), Point(3, 2)]), Part(Number(633), [Point(6, 2), Point(7, 2), Point(8, 2)]), Part(Symbol('#'), [Point(6, 3)]), Part(Number(617), [Point(0, 4), Point(1, 4), Point(2, 4)]), Part(Symbol('*'), [Point(3, 4)])], [Part(Number(467), [Point(0, 0), Point(1, 0), Point(2, 0)]), Part(Number(114), [Point(5, 0), Point(6, 0), Point(7, 0)]), Part(Symbol('*'), [Point(3, 1)]), Part(Number(35), [Point(2, 2), Point(3, 2)]), Part(Number(633), [Point(6, 2), Point(7, 2), Point(8, 2)]), Part(Symbol('#'), [Point(6, 3)]), Part(Number(617), [Point(0, 4), Point(1, 4), Point(2, 4)]), Part(Symbol('*'), [Point(3, 4)])]);
  }

  lemma SampleRow5At3(start: seq<Part>, row: string)
    requires 3 < |row| && row[3] == '.'
    requires ScanRow(start, row[..3], 5) == [Part(Number(467), [Point(0, 0), Point(1, 0), Point(2, 0)]), Part(Number(114), [Point(5, 0), Point(6, 0), Point(7, 0)]), Part(Symbol('*'), [Point(3, 1)]), Part(Number(35), [Point(2, 2), Point(3, 2)]), Part(Number(633), [Point(6, 2), Point(7, 2), Point(8, 2)]), Part(Symbol('#'), [Point(6, 3)]), Part(Number(617), [Point(0, 4), Point(1, 4), Point(2, 4)]), Part(Symbol('*'), [Point(3, 4)])]
    ensures ScanRow(start, row[..4], 5) == [Part(Number(467), [Point(0, 0), Point(1, 0), Point(2, 0)]), Part(Number(114), [Point(5, 0), Point(6, 0), Point(7, 0)]), Part(Symbol('*'), [Point(3, 1)]), Part(Number(35), [Point(2, 2), Point(3, 2)]), Part(Number(633), [Point(6, 2), Point(7, 2), Point(8, 2)]), Part(Symbol('#'), [Point(6, 3)]), Part(Number(617), [Point(0, 4), Point(1, 4), Point(2, 4)]), Part(Symbol('*'), [Point(3, 4)])]
  {
    StepSkip([Part(Number(467), [Point(0, 0), Point(1, 0), Point(2, 0)]), Part(Number(114), [Point(5, 0), Point(6, 0), Point(7, 0)]), Part(Symbol('*'), [Point(3, 1)]), Part(Number(35), [Point(2, 2), Point(3, 2)]), Part(Number(633), [Point(6, 2), Point(7, 2), Point(8, 2)]), Part(Symbol('#'), [Point(6, 3)]), Part(Number(617), [Point(0, 4), Point(1, 4), Point(2, 4)]), Part(Symbol('*'), [Point(3, 4)])], 3, 5, [Part(Number(467), [Point(0, 0), Point(1, 0), Point(2, 0)]), Part(Number(114), [Point(5, 0), Point(6, 0), Point(7, 0)]), Part(Symbol('*'), [Point(3, 1)]), Part(Number(35), [Point(2, 2), Point(3, 2)]), Part(Number(633), [Point(6, 2), Point(7, 2), Point(8, 2)]), Part(Symbol('#'), [Point(6, 3)]), Part(Number(617), [Point(0, 4), Point(1, 4), Point(2, 4)]), Part(Symbol('*'), [Point(3, 4)])]);
    ScanRowAdvance(start, row, 5, 3, '.', [Part(Number(467), [Point(0, 0), Point(1, 0), Point(2, 0)]), Part(Number(114), [Point(5, 0), Point(6, 0), Point(7, 0)]), Part(Symbol('*'), [Point(3, 1)]), Part(Number(35), [Point(2, 2), Point(3, 2)]), Part(Number(633), [Point(6, 2), Point(7, 2), Point(8, 2)]), Part(Symbol('#'), [Point(6, 3)]), Part(Number(617), [Point(0, 4), Point(1, 4), Point(2, 4)]), Part(Symbol('*'), [Point(3, 4)])], [Part(Number(467), [Point(0, 0), Point(1, 0), Point(2, 0)]), Part(Number(114), [Point(5, 0), Point(6, 0), Point(7, 0)]), Part(Symbol('*'), [Point(3, 1)]), Part(Number(35), [Point(2, 2), Point(3, 2)]), Part(Number(633), [Point(6, 2), Point(7, 2), Point(8, 2)]), Part(Symbol('#'), [Point(6, 3)]), Part(Number(617), [Point(0, 4), Point(1, 4), Point(2, 4)]), Part(Symbol('*'), [Point(3, 4)])]);
  }

  lemma SampleRow5At4(start: seq<Part>, row: string)
    requires 4 < |row| && row[4] == '.'
    requires ScanRow(start, row[..4], 5) == [Part(Number(467), [Point(0, 0), Point(1, 0), Point(2, 0)]), Part(Number(114), [Point(5, 0), Point(6, 0), Point(7, 0)]), Part(Symbol('*'), [Point(3, 1)]), Part(Number(35), [Point(2, 2), Point(3, 2)]), Part(Number(633), [Point(6, 2), Point(7, 2), Point(8, 2)]), Part(Symbol('#'), [Point(6, 3)]), Part(Number(617), [Point(0, 4), Point(1, 4), Point(2, 4)]), Part(Symbol('*'), [Point(3, 4)])]
    ensures ScanRow(start, row[..5], 5) == [Part(Number(467), [Point(0, 0), Point(1, 0), Point(2, 0)]), Part(Number(114), [Point(5, 0), Point(6, 0), Point(7, 0)]), Part(Symbol('*'), [Point(3, 1)]), Part(Number(35), [Point(2, 2), Point(3, 2)]), Part(Number(633), [Point(6, 2), Point(7, 2), Point(8, 2)]), Part(Symbol('#'), [Point(6, 3)]), Part(Number(617), [Point(0, 4), Point(1, 4), Point(2, 4)]), Part(Symbol('*'), [Point(3, 4)])]
  {
    StepSkip([Part(Number(467), [Point(0, 0), Point(1, 0), Point(2, 0)]), Part(Number(114), [Point(5, 0), Point(6, 0), Point(7, 0)]), Part(Symbol('*'), [Point(3, 1)]), Part(Number(35), [Point(2, 2), Point(3, 2)]), Part(Number(633), [Point(6, 2), Point(7, 2), Point(8, 2)]), Part(Symbol('#'), [Point(6, 3)]), Part(Number(617), [Point(0, 4), Point(1, 4), Point(2, 4)]), Part(Symbol('*'), [Point(3, 4)])], 4, 5, [Part(Number(467), [Point(0, 0), Point(1, 0), Point(2, 0)]), Part(Number(114), [Point(5, 0), Point(6, 0), Point(7, 0)]), Part(Symbol('*'), [Point(3, 1)]), Part(Number(35), [Point(2, 2), Point(3, 2)]), Part(Number(633), [Point(6, 2), Point(7, 2), Point(8, 2)]), Part(Symbol('#'), [Point(6, 3)]), Part(Number(617), [Point(0, 4), Point(1, 4), Point(2, 4)]), Part(Symbol('*'), [Point(3, 4)])]);
    ScanRowAdvance(start, row, 5, 4, '.', [Part(Number(467), [Point(0, 0), Point(1, 0), Point(2, 0)]), Part(Number(114), [Point(5, 0), Point(6, 0), Point(7, 0)]), Part(Symbol('*'), [Point(3, 1)]), Part(Number(35), [Point(2, 2), Point(3, 2)]), Part(Number(633), [Point(6, 2), Point(7, 2), Point(8, 2)]), Part(Symbol('#'), [Point(6, 3)]), Part(Number(617), [Point(0, 4), Point(1, 4), Point(2, 4)]), Part(Symbol('*'), [Point(3, 4)])], [Part(Number(467), [Point(0, 0), Point(1, 0), Point(2, 0)]), Part(Number(114), [Point(5, 0), Point(6, 0), Point(7, 0)]), Part(Symbol('*'), [Point(3, 1)]), Part(Number(35), [Point(2, 2), Point(3, 2)]), Part(Number(633), [Point(6, 2), Point(7, 2), Point(8, 2)]), Part(Symbol('#'), [Point(6, 3)]), Part(Number(617), [Point(0, 4), Point(1, 4), Point(2, 4)]), Part(Symbol('*'), [Point(3, 4)])]);
  }

  lemma SampleRow5At5(start: seq<Part>, row: string)
    requires 5 < |row| && row[5] == '+'
    requires ScanRow(start, row[..5], 5) == [Part(Number(467), [Point(0, 0), Point(1, 0), Point(2, 0)]), Part(Number(114), [Point(5, 0), Point(6, 0), Point(7, 0)]), Part(Symbol('*'), [Point(3, 1)]), Part(Number(35), [Point(2, 2), Point(3, 2)]), Part(Number(633), [Point(6, 2), Point(7, 2), Point(8, 2)]), Part(Symbol('#'), [Point(6, 3)]), Part(Number(617), [Point(0, 4), Point(1, 4), Point(2, 4)]), Part(Symbol('*'), [Point(3, 4)])]
    ensures ScanRow(start, row[..6], 5) == [Part(Number(467), [Point(0, 0), Point(1, 0), Point(2, 0)]), Part(Number(114), [Point(5, 0), Point(6, 0), Point(7, 0)]), Part(Symbol('*'), [Point(3, 1)]), Part(Number(35), [Point(2, 2), Point(3, 2)]), Part(Number(633), [Point(6, 2), Point(7, 2), Point(8, 2)]), Part(Symbol('#'), [Point(6, 3)]), Part(Number(617), [Point(0, 4), Point(1, 4), Point(2, 4)]), Part(Symbol('*'), [Point(3, 4)]), Part(Symbol('+'), [Point(5, 5)])]
  {
    StepSymbol([Part(Number(467), [Point(0, 0), Point(1, 0), Point(2, 0)]), Part(Number(114), [Point(5, 0), Point(6, 0), Point(7, 0)]), Part(Symbol('*'), [Point(3, 1)]), Part(Number(35), [Point(2, 2), Point(3, 2)]), Part(Number(633), [Point(6, 2), Point(7, 2), Point(8, 2)]), Part(Symbol('#'), [Point(6, 3)]), Part(Number(617), [Point(0, 4), Point(1, 4), Point(2, 4)]), Part(Symbol('*'), [Point(3, 4)])], 5, 5, '+', [Part(Number(467), [Point(0, 0), Point(1, 0), Point(2, 0)]), Part(Number(114), [Point(5, 0), Point(6, 0), Point(7, 0)]), Part(Symbol('*'), [Point(3, 1)]), Part(Number(35), [Point(2, 2), Point(3, 2)]), Part(Number(633), [Point(6, 2), Point(7, 2), Point(8, 2)]), Part(Symbol('#'), [Point(6, 3)]), Part(Number(617), [Point(0, 4), Point(1, 4), Point(2, 4)]), Part(Symbol('*'), [Point(3, 4)]), Part(Symbol('+'), [Point(5, 5)])]);
    ScanRowAdvance(start, row, 5, 5, '+', [Part(Number(467), [Point(0, 0), Point(1, 0), Point(2, 0)]), Part(Number(114), [Point(5, 0), Point(6, 0), Point(7, 0)]), Part(Symbol('*'), [Point(3, 1)]), Part(Number(35), [Point(2, 2), Point(3, 2)]), Part(Number(633), [Point(6, 2), Point(7, 2), Point(8, 2)]), Part(Symbol('#'), [Point(6, 3)]), Part(Number(617), [Point(0, 4), Point(1, 4), Point(2, 4)]), Part(Symbol('*'), [Point(3, 4)])], [Part(Number(467), [Point(0, 0), Point(1, 0), Point(2, 0)]), Part(Number(114), [Point(5, 0), Point(6, 0), Point(7, 0)]), Part(Symbol('*'), [Point(3, 1)]), Part(Number(35), [Point(2, 2), Point(3, 2)]), Part(Number(633), [Point(6, 2), Point(7, 2), Point(8, 2)]), Part(Symbol('#'), [Point(6, 3)]), Part(Number(617), [Point(0, 4), Point(1, 4), Point(2, 4)]), Part(Symbol('*'), [Point(3, 4)]), Part(Symbol('+'), [Point(5, 5)])]);
  }

  lemma SampleRow5At6(start: seq<Part>, row: string)
    requires 6 < |row| && row[6] == '.'
    requires ScanRow(start, row[..6], 5) == [Part(Number(467), [Point(0, 0), Point(1, 0), Point(2, 0)]), Part(Number(114), [Point(5, 0), Point(6, 0), Point(7, 0)]), Part(Symbol('*'), [Point(3, 1)]), Part(Number(35), [Point(2, 2), Point(3, 2)]), Part(Number(633), [Point(6, 2), Point(7, 2), Point(8, 2)]), Part(Symbol('#'), [Point(6, 3)]), Part(Number(617), [Point(0, 4), Point(1, 4), Point(2, 4)]), Part(Symbol('*'), [Point(3, 4)]), Part(Symbol('+'), [Point(5, 5)])]
    ensures ScanRow(start, row[..7], 5) == [Part(Number(467), [Point(0, 0), Point(1, 0), Point(2, 0)]), Part(Number(114), [Point(5, 0), Point(6, 0), Point(7, 0)]), Part(Symbol('*'), [Point(3, 1)]), Part(Number(35), [Point(2, 2), Point(3, 2)]), Part(Number(633), [Point(6, 2), Point(7, 2), Point(8, 2)]), Part(Symbol('#'), [Point(6, 3)]), Part(Number(617), [Point(0, 4), Point(1, 4), Point(2, 4)]), Part(Symbol('*'), [Point(3, 4)]), Part(Symbol('+'), [Point(5, 5)])]
  {
    StepSkip([Part(Number(467), [Point(0, 0), Point(1, 0), Point(2, 0)]), Part(Number(114), [Point(5, 0), Point(6, 0), Point(7, 0)]), Part(Symbol('*'), [Point(3, 1)]), Part(Number(35), [Point(2, 2), Point(3, 2)]), Part(Number(633), [Point(6, 2), Point(7, 2), Point(8, 2)]), Part(Symbol('#'), [Point(6, 3)]), Part(Number(617), [Point(0, 4), Point(1, 4), Point(2, 4)]), Part(Symbol('*'), [Point(3, 4)]), Part(Symbol('+'), [Point(5, 5)])], 6, 5, [Part(Number(467), [Point(0, 0), Point(1, 0), Point(2, 0)]), Part(Number(114), [Point(5, 0), Point(6, 0), Point(7, 0)]), Part(Symbol('*'), [Point(3, 1)]), Part(Number(35), [Point(2, 2), Point(3, 2)]), Part(Number(633), [Point(6, 2), Point(7, 2), Point(8, 2)]), Part(Symbol('#'), [Point(6, 3)]), Part(Number(617), [Point(0, 4), Point(1, 4), Point(2, 4)]), Part(Symbol('*'), [Point(3, 4)]), Part(Symbol('+'), [Point(5, 5)])]);
    ScanRowAdvance(start, row, 5, 6, '.', [Part(Number(467), [Point(0, 0), Point(1, 0), Point(2, 0)]), Part(Number(114), [Point(5, 0), Point(6, 0), Point(7, 0)]), Part(Symbol('*'), [Point(3, 1)]), Part(Number(35), [Point(2, 2), Point(3, 2)]), Part(Number(633), [Point(6, 2), Point(7, 2), Point(8, 2)]), Part(Symbol('#'), [Point(6, 3)]), Part(Number(617), [Point(0, 4), Point(1, 4), Point(2, 4)]), Part(Symbol('*'), [Point(3, 4)]), Part(Symbol('+'), [Point(5, 5)])], [Part(Number(467), [Point(0, 0), Point(1, 0), Point(2, 0)]), Part(Number(114), [Point(5, 0), Point(6, 0), Point(7, 0)]), Part(Symbol('*'), [Point(3, 1)]), Part(Number(35), [Point(2, 2), Point(3, 2)]), Part(Number(633), [Point(6, 2), Point(7, 2), Point(8, 2)]), Part(Symbol('#'), [Point(6, 3)]), Part(Number(617), [Point(0, 4), Point(1, 4), Point(2, 4)]), Part(Symbol('*'), [Point(3, 4)]), Part(Symbol('+'), [Point(5, 5)])]);
  }

  lemma SampleRow5At7(start: seq<Part>, row: string)
    requires 7 < |row| && row[7] == '5'
    requires ScanRow(start, row[..7], 5) == [Part(Number(467), [Point(0, 0), Point(1, 0), Point(2, 0)]), Part(Number(114), [Point(5, 0), Point(6, 0), Point(7, 0)]), Part(Symbol('*'), [Point(3, 1)]), Part(Number(35), [Point(2, 2), Point(3, 2)]), Part(Number(633), [Point(6, 2), Point(7, 2), Point(8, 2)]), Part(Symbol('#'), [Point(6, 3)]), Part(Number(617), [Point(0, 4), Point(1, 4), Point(2, 4)]), Part(Symbol('*'), [Point(3, 4)]), Part(Symbol('+'), [Point(5, 5)])]
    ensures ScanRow(start, row[..8], 5) == [Part(Number(467), [Point(0, 0), Point(1, 0), Point(2, 0)]), Part(Number(114), [Point(5, 0), Point(6, 0), Point(7, 0)]), Part(Symbol('*'), [Point(3, 1)]), Part(Number(35), [Point(2, 2), Point(3, 2)]), Part(Number(633), [Point(6, 2), Point(7, 2), Point(8, 2)]), Part(Symbol('#'), [Point(6, 3)]), Part(Number(617), [Point(0, 4), Point(1, 4), Point(2, 4)]), Part(Symbol('*'), [Point(3, 4)]), Part(Symbol('+'), [Point(5, 5)]), Part(Number(5), [Point(7, 5)])]
  {
    StepStart([Part(Number(467), [Point(0, 0), Point(1, 0), Point(2, 0)]), Part(Number(114), [Point(5, 0), Point(6, 0), Point(7, 0)]), Part(Symbol('*'), [Point(3, 1)]), Part(Number(35), [Point(2, 2), Point(3, 2)]), Part(Number(633), [Point(6, 2), Point(7, 2), Point(8, 2)]), Part(Symbol('#'), [Point(6, 3)]), Part(Number(617), [Point(0, 4), Point(1, 4), Point(2, 4)]), Part(Symbol('*'), [Point(3, 4)]), Part(Symbol('+'), [Point(5, 5)])], 7, 5, '5', 5, [Part(Number(467), [Point(0, 0), Point(1, 0), Point(2, 0)]), Part(Number(114), [Point(5, 0), Point(6, 0), Point(7, 0)]), Part(Symbol('*'), [Point(3, 1)]), Part(Number(35), [Point(2, 2), Point(3, 2)]), Part(Number(633), [Point(6, 2), Point(7, 2), Point(8, 2)]), Part(Symbol('#'), [Point(6, 3)]), Part(Number(617), [Point(0, 4), Point(1, 4), Point(2, 4)]), Part(Symbol('*'), [Point(3, 4)]), Part(Symbol('+'), [Point(5, 5)]), Part(Number(5), [Point(7, 5)])]);
    ScanRowAdvance(start, row, 5, 7, '5', [Part(Number(467), [Point(0, 0), Point(1, 0), Point(2, 0)]), Part(Number(114), [Point(5, 0), Point(6, 0), Point(7, 0)]), Part(Symbol('*'), [Point(3, 1)]), Part(Number(35), [Point(2, 2), Point(3, 2)]), Part(Number(633), [Point(6, 2), Point(7, 2), Point(8, 2)]), Part(Symbol('#'), [Point(6, 3)]), Part(Number(617), [Point(0, 4), Point(1, 4), Point(2, 4)]), Part(Symbol('*'), [Point(3, 4)]), Part(Symbol('+'), [Point(5, 5)])], [Part(Number(467), [Point(0, 0), Point(1, 0), Point(2, 0)]), Part(Number(114), [Point(5, 0), Point(6, 0), Point(7, 0)]), Part(Symbol('*'), [Point(3, 1)]), Part(Number(35), [Point(2, 2), Point(3, 2)]), Part(Number(633), [Point(6, 2), Point(7, 2), Point(8, 2)]), Part(Symbol('#'), [Point(6, 3)]), Part(Number(617), [Point(0, 4), Point(1, 4), Point(2, 4)]), Part(Symbol('*'), [Point(3, 4)]), Part(Symbol('+'), [Point(5, 5)]), Part(Number(5), [Point(7, 5)])]);
  }

  lemma SampleRow5At8(start: seq<Part>, row: string)
    requires 8 < |row| && row[8] == '8'
    requires ScanRow(start, row[..8], 5) == [Part(Number(467), [Point(0, 0), Point(1, 0), Point(2, 0)]), Part(Number(114), [Point(5, 0), Point(6, 0), Point(7, 0)]), Part(Symbol('*'), [Point(3, 1)]), Part(Number(35), [Point(2, 2), Point(3, 2)]), Part(Number(633), [Point(6, 2), Point(7, 2), Point(8, 2)]), Part(Symbol('#'), [Point(6, 3)]), Part(Number(617), [Point(0, 4), Point(1, 4), Point(2, 4)]), Part(Symbol('*'), [Point(3, 4)]), Part(Symbol('+'), [Point(5, 5)]), Part(Number(5), [Point(7, 5)])]
    ensures ScanRow(start, row[..9], 5) == [Part(Number(467), [Point(0, 0), Point(1, 0), Point(2, 0)]), Part(Number(114), [Point(5, 0), Point(6, 0), Point(7, 0)]), Part(Symbol('*'), [Point(3, 1)]), Part(Number(35), [Point(2, 2), Point(3, 2)]), Part(Number(633), [Point(6, 2), Point(7, 2), Point(8, 2)]), Part(Symbol('#'), [Point(6, 3)]), Part(Number(617), [Point(0, 4), Point(1, 4), Point(2, 4)]), Part(Symbol('*'), [Point(3, 4)]), Part(Symbol('+'), [Point(5, 5)]), Part(Number(58), [Point(7, 5), Point(8, 5)])]
  {
    StepExtend([Part(Number(467), [Point(0, 0), Point(1, 0), Point(2, 0)]), Part(Number(114), [Point(5, 0), Point(6, 0), Point(7, 0)]), Part(Symbol('*'), [Point(3, 1)]), Part(Number(35), [Point(2, 2), Point(3, 2)]), Part(Number(633), [Point(6, 2), Point(7, 2), Point(8, 2)]), Part(Symbol('#'), [Point(6, 3)]), Part(Number(617), [Point(0, 4), Point(1, 4), Point(2, 4)]), Part(Symbol('*'), [Point(3, 4)]), Part(Symbol('+'), [Point(5, 5)]), Part(Number(5), [Point(7, 5)])], [Part(Number(467), [Point(0, 0), Point(1, 0), Point(2, 0)]), Part(Number(114), [Point(5, 0), Point(6, 0), Point(7, 0)]), Part(Symbol('*'), [Point(3, 1)]), Part(Number(35), [Point(2, 2), Point(3, 2)]), Part(Number(633), [Point(6, 2), Point(7, 2), Point(8, 2)]), Part(Symbol('#'), [Point(6, 3)]), Part(Number(617), [Point(0, 4), Point(1, 4), Point(2, 4)]), Part(Symbol('*'), [Point(3, 4)]), Part(Symbol('+'), [Point(5, 5)])], 5, [Point(7, 5)], 8, 5, '8', 58, [Point(7, 5), Point(8, 5)], [Part(Number(467), [Point(0, 0), Point(1, 0), Point(2, 0)]), Part(Number(114), [Point(5, 0), Point(6, 0), Point(7, 0)]), Part(Symbol('*'), [Point(3, 1)]), Part(Number(35), [Point(2, 2), Point(3, 2)]), Part(Number(633), [Point(6, 2), Point(7, 2), Point(8, 2)]), Part(Symbol('#'), [Point(6, 3)]), Part(Number(617), [Point(0, 4), Point(1, 4), Point(2, 4)]), Part(Symbol('*'), [Point(3, 4)]), Part(Symbol('+'), [Point(5, 5)]), Part(Number(58), [Point(7, 5), Point(8, 5)])]);
    ScanRowAdvance(start, row, 5, 8, '8', [Part(Number(467), [Point(0, 0), Point(1, 0), Point(2, 0)]), Part(Number(114), [Point(5, 0), Point(6, 0), Point(7, 0)]), Part(Symbol('*'), [Point(3, 1)]), Part(Number(35), [Point(2, 2), Point(3, 2)]), Part(Number(633), [Point(6, 2), Point(7, 2), Point(8, 2)]), Part(Symbol('#'), [Point(6, 3)]), Part(Number(617), [Point(0, 4), Point(1, 4), Point(2, 4)]), Part(Symbol('*'), [Point(3, 4)]), Part(Symbol('+'), [Point(5, 5)]), Part(Number(5), [Point(7, 5)])], [Part(Number(467), [Point(0, 0), Point(1, 0), Point(2, 0)]), Part(Number(114), [Point(5, 0), Point(6, 0), Point(7, 0)]), Part(Symbol('*'), [Point(3, 1)]), Part(Number(35), [Point(2, 2), Point(3, 2)]), Part(Number(633), [Point(6, 2), Point(7, 2), Point(8, 2)]), Part(Symbol('#'), [Point(6, 3)]), Part(Number(617), [Point(0, 4), Point(1, 4), Point(2, 4)]), Part(Symbol('*'), [Point(3, 4)]), Part(Symbol('+'), [Point(5, 5)]), Part(Number(58), [Point(7, 5), Point(8, 5)])]);
  }

  lemma SampleRow5At9(start: seq<Part>, row: string)
    requires 9 < |row| && row[9] == '.'
    requires ScanRow(start, row[..9], 5) == [Part(Number(467), [Point(0, 0), Point(1, 0), Point(2, 0)]), Part(Number(114), [Point(5, 0), Point(6, 0), Point(7, 0)]), Part(Symbol('*'), [Point(3, 1)]), Part(Number(35), [Point(2, 2), Point(3, 2)]), Part(Number(633), [Point(6, 2), Point(7, 2), Point(8, 2)]), Part(Symbol('#'), [Point(6, 3)]), Part(Number(617), [Point(0, 4), Point(1, 4), Point(2, 4)]), Part(Symbol('*'), [Point(3, 4)]), Part(Symbol('+'), [Point(5, 5)]), Part(Number(58), [Point(7, 5), Point(8, 5)])]
    ensures ScanRow(start, row[..10], 5) == [Part(Number(467), [Point(0, 0), Point(1, 0), Point(2, 0)]), Part(Number(114), [Point(5, 0), Point(6, 0), Point(7, 0)]), Part(Symbol('*'), [Point(3, 1)]), Part(Number(35), [Point(2, 2), Point(3, 2)]), Part(Number(633), [Point(6, 2), Point(7, 2), Point(8, 2)]), Part(Symbol('#'), [Point(6, 3)]), Part(Number(617), [Point(0, 4), Point(1, 4), Point(2, 4)]), Part(Symbol('*'), [Point(3, 4)]), Part(Symbol('+'), [Point(5, 5)]), Part(Number(58), [Point(7, 5), Point(8, 5)])]
  {
    StepSkip([Part(Number(467), [Point(0, 0), Point(1, 0), Point(2, 0)]), Part(Number(114), [Point(5, 0), Point(6, 0), Point(7, 0)]), Part(Symbol('*'), [Point(3, 1)]), Part(Number(35), [Point(2, 2), Point(3, 2)]), Part(Number(633), [Point(6, 2), Point(7, 2), Point(8, 2)]), Part(Symbol('#'), [Point(6, 3)]), Part(Number(617), [Point(0, 4), Point(1, 4), Point(2, 4)]), Part(Symbol('*'), [Point(3, 4)]), Part(Symbol('+'), [Point(5, 5)]), Part(Number(58), [Point(7, 5), Point(8, 5)])], 9, 5, [Part(Number(467), [Point(0, 0), Point(1, 0), Point(2, 0)]), Part(Number(114), [Point(5, 0), Point(6, 0), Point(7, 0)]), Part(Symbol('*'), [Point(3, 1)]), Part(Number(35), [Point(2, 2), Point(3, 2)]), Part(Number(633), [Point(6, 2), Point(7, 2), Point(8, 2)]), Part(Symbol('#'), [Point(6, 3)]), Part(Number(617), [Point(0, 4), Point(1, 4), Point(2, 4)]), Part(Symbol('*'), [Point(3, 4)]), Part(Symbol('+'), [Point(5, 5)]), Part(Number(58), [Point(7, 5), Point(8, 5)])]);
    ScanRowAdvance(start, row, 5, 9, '.', [Part(Number(467), [Point(0, 0), Point(1, 0), Point(2, 0)]), Part(Number(114), [Point(5, 0), Point(6, 0), Point(7, 0)]), Part(Symbol('*'), [Point(3, 1)]), Part(Number(35), [Point(2, 2), Point(3, 2)]), Part(Number(633), [Point(6, 2), Point(7, 2), Point(8, 2)]), Part(Symbol('#'), [Point(6, 3)]), Part(Number(617), [Point(0, 4), Point(1, 4), Point(2, 4)]), Part(Symbol('*'), [Point(3, 4)]), Part(Symbol('+'), [Point(5, 5)]), Part(Number(58), [Point(7, 5), Point(8, 5)])], [Part(Number(467), [Point(0, 0), Point(1, 0), Point(2, 0)]), Part(Number(114), [Point(5, 0), Point(6, 0), Point(7, 0)]), Part(Symbol('*'), [Point(3, 1)]), Part(Number(35), [Point(2, 2), Point(3, 2)]), Part(Number(633), [Point(6, 2), Point(7, 2), Point(8, 2)]), Part(Symbol('#'), [Point(6, 3)]), Part(Number(617), [Point(0, 4), Point(1, 4), Point(2, 4)]), Part(Symbol('*'), [Point(3, 4)]), Part(Symbol('+'), [Point(5, 5)]), Part(Number(58), [Point(7, 5), Point(8, 5)])]);
  }

  /** Row 5 of the sample grid. */
  lemma SampleRow5(start: seq<Part>, row: string)
    requires start == [Part(Number(467), [Point(0, 0), Point(1, 0), Point(2, 0)]), Part(Number(114), [Point(5, 0), Point(6, 0), Point(7, 0)]), Part(Symbol('*'), [Point(3, 1)]), Part(Number(35), [Point(2, 2), Point(3, 2)]), Part(Number(633), [Point(6, 2), Point(7, 2), Point(8, 2)]), Part(Symbol('#'), [Point(6, 3)]), Part(Number(617), [Point(0, 4), Point(1, 4), Point(2, 4)]), Part(Symbol('*'), [Point(3, 4)])]
    requires |row| == 10 && row[0] == '.' && row[1] == '.' && row[2] == '.' && row[3] == '.' && row[4] == '.' && row[5] == '+' && row[6] == '.' && row[7] == '5' && row[8] == '8' && row[9] == '.'
    ensures ScanRow(start, row, 5) == [Part(Number(467), [Point(0, 0), Point(1, 0), Point(2, 0)]), Part(Number(114), [Point(5, 0), Point(6, 0), Point(7, 0)]), Part(Symbol('*'), [Point(3, 1)]), Part(Number(35), [Point(2, 2), Point(3, 2)]), Part(Number(633), [Point(6, 2), Point(7, 2), Point(8, 2)]), Part(Symbol('#'), [Point(6, 3)]), Part(Number(617), [Point(0, 4), Point(1, 4), Point(2, 4)]), Part(Symbol('*'), [Point(3, 4)]), Part(Symbol('+'), [Point(5, 5)]), Part(Number(58), [Point(7, 5), Point(8, 5)])]
  {
    assert row[..0] == [];
    SampleRow5At0(start, row);
    SampleRow5At1(start, row);
    SampleRow5At2(start, row);
    SampleRow5At3(start, row);
    SampleRow5At4(start, row);
    SampleRow5At5(start, row);
    SampleRow5At6(start, row);
    SampleRow5At7(start, row);
    SampleRow5At8(start, row);
    SampleRow5At9(start, row);
    assert row[..10] == row;
  }

  lemma SampleRow6At0(start: seq<Part>, row: string)
    requires 0 < |row| && row[0] == '.'
    requires ScanRow(start, row[..0], 6) == [Part(Number(467), [Point(0, 0), Point(1, 0), Point(2, 0)]), Part(Number(114), [Point(5, 0), Point(6, 0), Point(7, 0)]), Part(Symbol('*'), [Point(3, 1)]), Part(Number(35), [Point(2, 2), Point(3, 2)]), Part(Number(633), [Point(6, 2), Point(7, 2), Point(8, 2)]), Part(Symbol('#'), [Point(6, 3)]), Part(Number(617), [Point(0, 4), Point(1, 4), Point(2, 4)]), Part(Symbol('*'), [Point(3, 4)]), Part(Symbol('+'), [Point(5, 5)]), Part(Number(58), [Point(7, 5), Point(8, 5)])]
    ensures ScanRow(start, row[..1], 6) == [Part(Number(467), [Point(0, 0), Point(1, 0), Point(2, 0)]), Part(Number(114), [Point(5, 0), Point(6, 0), Point(7, 0)]), Part(Symbol('*'), [Point(3, 1)]), Part(Number(35), [Point(2, 2), Point(3, 2)]), Part(Number(633), [Point(6, 2), Point(7, 2), Point(8, 2)]), Part(Symbol('#'), [Point(6, 3)]), Part(Number(617), [Point(0, 4), Point(1, 4), Point(2, 4)]), Part(Symbol('*'), [Point(3, 4)]), Part(Symbol('+'), [Point(5, 5)]), Part(Number(58), [Point(7, 5), Point(8, 5)])]
  {
    StepSkip([Part(Number(467), [Point(0, 0), Point(1, 0), Point(2, 0)]), Part(Number(114), [Point(5, 0), Point(6, 0), Point(7, 0)]), Part(Symbol('*'), [Point(3, 1)]), Part(Number(35), [Point(2, 2), Point(3, 2)]), Part(Number(633), [Point(6, 2), Point(7, 2), Point(8, 2)]), Part(Symbol('#'), [Point(6, 3)]), Part(Number(617), [Point(0, 4), Point(1, 4), Point(2, 4)]), Part(Symbol('*'), [Point(3, 4)]), Part(Symbol('+'), [Point(5, 5)]), Part(Number(58), [Point(7, 5), Point(8, 5)])], 0, 6, [Part(Number(467), [Point(0, 0), Point(1, 0), Point(2, 0)]), Part(Number(114), [Point(5, 0), Point(6, 0), Point(7, 0)]), Part(Symbol('*'), [Point(3, 1)]), Part(Number(35), [Point(2, 2), Point(3, 2)]), Part(Number(633), [Point(6, 2), Point(7, 2), Point(8, 2)]), Part(Symbol('#'), [Point(6, 3)]), Part(Number(617), [Point(0, 4), Point(1, 4), Point(2, 4)]), Part(Symbol('*'), [Point(3, 4)]), Part(Symbol('+'), [Point(5, 5)]), Part(Number(58), [Point(7, 5), Point(8, 5)])]);
    ScanRowAdvance(start, row, 6, 0, '.', [Part(Number(467), [Point(0, 0), Point(1, 0), Point(2, 0)]), Part(Number(114), [Point(5, 0), Point(6, 0), Point(7, 0)]), Part(Symbol('*'), [Point(3, 1)]), Part(Number(35), [Point(2, 2), Point(3, 2)]), Part(Number(633), [Point(6, 2), Point(7, 2), Point(8, 2)]), Part(Symbol('#'), [Point(6, 3)]), Part(Number(617), [Point(0, 4), Point(1, 4), Point(2, 4)]), Part(Symbol('*'), [Point(3, 4)]), Part(Symbol('+'), [Point(5, 5)]), Part(Number(58), [Point(7, 5), Point(8, 5)])], [Part(Number(467), [Point(0, 0), Point(1, 0), Point(2, 0)]), Part(Number(114), [Point(5, 0), Point(6, 0), Point(7, 0)]), Part(Symbol('*'), [Point(3, 1)]), Part(Number(35), [Point(2, 2), Point(3, 2)]), Part(Number(633), [Point(6, 2), Point(7, 2), Point(8, 2)]), Part(Symbol('#'), [Point(6, 3)]), Part(Number(617), [Point(0, 4), Point(1, 4), Point(2, 4)]), Part(Symbol('*'), [Point(3, 4)]), Part(Symbol('+'), [Point(5, 5)]), Part(Number(58), [Point(7, 5), Point(8, 5)])]);
  }

  lemma SampleRow6At1(start: seq<Part>, row: string)
    requires 1 < |row| && row[1] == '.'
    requires ScanRow(start, row[..1], 6) == [Part(Number(467), [Point(0, 0), Point(1, 0), Point(2, 0)]), Part(Number(114), [Point(5, 0), Point(6, 0), Point(7, 0)]), Part(Symbol('*'), [Point(3, 1)]), Part(Number(35), [Point(2, 2), Point(3, 2)]), Part(Number(633), [Point(6, 2), Point(7, 2), Point(8, 2)]), Part(Symbol('#'), [Point(6, 3)]), Part(Number(617), [Point(0, 4), Point(1, 4), Point(2, 4)]), Part(Symbol('*'), [Point(3, 4)]), Part(Symbol('+'), [Point(5, 5)]), Part(Number(58), [Point(7, 5), Point(8, 5)])]
    ensures ScanRow(start, row[..2], 6) == [Part(Number(467), [Point(0, 0), Point(1, 0), Point(2, 0)]), Part(Number(114), [Point(5, 0), Point(6, 0), Point(7, 0)]), Part(Symbol('*'), [Point(3, 1)]), Part(Number(35), [Point(2, 2), Point(3, 2)]), Part(Number(633), [Point(6, 2), Point(7, 2), Point(8, 2)]), Part(Symbol('#'), [Point(6, 3)]), Part(Number(617), [Point(0, 4), Point(1, 4), Point(2, 4)]), Part(Symbol('*'), [Point(3, 4)]), Part(Symbol('+'), [Point(5, 5)]), Part(Number(58), [Point(7, 5), Point(8, 5)])]
  {
    StepSkip([Part(Number(467), [Point(0, 0), Point(1, 0), Point(2, 0)]), Part(Number(114), [Point(5, 0), Point(6, 0), Point(7, 0)]), Part(Symbol('*'), [Point(3, 1)]), Part(Number(35), [Point(2, 2), Point(3, 2)]), Part(Number(633), [Point(6, 2), Point(7, 2), Point(8, 2)]), Part(Symbol('#'), [Point(6, 3)]), Part(Number(617), [Point(0, 4), Point(1, 4), Point(2, 4)]), Part(Symbol('*'), [Point(3, 4)]), Part(Symbol('+'), [Point(5, 5)]), Part(Number(58), [Point(7, 5), Point(8, 5)])], 1, 6, [Part(Number(467), [Point(0, 0), Point(1, 0), Point(2, 0)]), Part(Number(114), [Point(5, 0), Point(6, 0), Point(7, 0)]), Part(Symbol('*'), [Point(3, 1)]), Part(Number(35), [Point(2, 2), Point(3, 2)]), Part(Number(633), [Point(6, 2), Point(7, 2), Point(8, 2)]), Part(Symbol('#'), [Point(6, 3)]), Part(Number(617), [Point(0, 4), Point(1, 4), Point(2, 4)]), Part(Symbol('*'), [Point(3, 4)]), Part(Symbol('+'), [Point(5, 5)]), Part(Number(58), [Point(7, 5), Point(8, 5)])]);
    ScanRowAdvance(start, row, 6, 1, '.', [Part(Number(467), [Point(0, 0), Point(1, 0), Point(2, 0)]), Part(Number(114), [Point(5, 0), Point(6, 0), Point(7, 0)]), Part(Symbol('*'), [Point(3, 1)]), Part(Number(35), [Point(2, 2), Point(3, 2)]), Part(Number(633), [Point(6, 2), Point(7, 2), Point(8, 2)]), Part(Symbol('#'), [Point(6, 3)]), Part(Number(617), [Point(0, 4), Point(1, 4), Point(2, 4)]), Part(Symbol('*'), [Point(3, 4)]), Part(Symbol('+'), [Point(5, 5)]), Part(Number(58), [Point(7, 5), Point(8, 5)])], [Part(Number(467), [Point(0, 0), Point(1, 0), Point(2, 0)]), Part(Number(114), [Point(5, 0), Point(6, 0), Point(7, 0)]), Part(Symbol('*'), [Point(3, 1)]), Part(Number(35), [Point(2, 2), Point(3, 2)]), Part(Number(633), [Point(6, 2), Point(7, 2), Point(8, 2)]), Part(Symbol('#'), [Point(6, 3)]), Part(Number(617), [Point(0, 4), Point(1, 4), Point(2, 4)]), Part(Symbol('*'), [Point(3, 4)]), Part(Symbol('+'), [Point(5, 5)]), Part(Number(58), [Point(7, 5), Point(8, 5)])]);
  }

  lemma SampleRow6At2(start: seq<Part>, row: string)
    requires 2 < |row| && row[2] == '5'
    requires ScanRow(start, row[..2], 6) == [Part(Number(467), [Point(0, 0), Point(1, 0), Point(2, 0)]), Part(Number(114), [Point(5, 0), Point(6, 0), Point(7, 0)]), Part(Symbol('*'), [Point(3, 1)]), Part(Number(35), [Point(2, 2), Point(3, 2)]), Part(Number(633), [Point(6, 2), Point(7, 2), Point(8, 2)]), Part(Symbol('#'), [Point(6, 3)]), Part(Number(617), [Point(0, 4), Point(1, 4), Point(2, 4)]), Part(Symbol('*'), [Point(3, 4)]), Part(Symbol('+'), [Point(5, 5)]), Part(Number(58), [Point(7, 5), Point(8, 5)])]
    ensures ScanRow(start, row[..3], 6) == [Part(Number(467), [Point(0, 0), Point(1, 0), Point(2, 0)]), Part(Number(114), [Point(5, 0), Point(6, 0), Point(7, 0)]), Part(Symbol('*'), [Point(3, 1)]), Part(Number(35), [Point(2, 2), Point(3, 2)]), Part(Number(633), [Point(6, 2), Point(7, 2), Point(8, 2)]), Part(Symbol('#'), [Point(6, 3)]), Part(Number(617), [Point(0, 4), Point(1, 4), Point(2, 4)]), Part(Symbol('*'), [Point(3, 4)]), Part(Symbol('+'), [Point(5, 5)]), Part(Number(58), [Point(7, 5), Point(8, 5)]), Part(Number(5), [Point(2, 6)])]
  {
    StepStart([Part(Number(467), [Point(0, 0), Point(1, 0), Point(2, 0)]), Part(Number(114), [Point(5, 0), Point(6, 0), Point(7, 0)]), Part(Symbol('*'), [Point(3, 1)]), Part(Number(35), [Point(2, 2), Point(3, 2)]), Part(Number(633), [Point(6, 2), Point(7, 2), Point(8, 2)]), Part(Symbol('#'), [Point(6, 3)]), Part(Number(617), [Point(0, 4), Point(1, 4), Point(2, 4)]), Part(Symbol('*'), [Point(3, 4)]), Part(Symbol('+'), [Point(5, 5)]), Part(Number(58), [Point(7, 5), Point(8, 5)])], 2, 6, '5', 5, [Part(Number(467), [Point(0, 0), Point(1, 0), Point(2, 0)]), Part(Number(114), [Point(5, 0), Point(6, 0), Point(7, 0)]), Part(Symbol('*'), [Point(3, 1)]), Part(Number(35), [Point(2, 2), Point(3, 2)]), Part(Number(633), [Point(6, 2), Point(7, 2), Point(8, 2)]), Part(Symbol('#'), [Point(6, 3)]), Part(Number(617), [Point(0, 4), Point(1, 4), Point(2, 4)]), Part(Symbol('*'), [Point(3, 4)]), Part(Symbol('+'), [Point(5, 5)]), Part(Number(58), [Point(7, 5), Point(8, 5)]), Part(Number(5), [Point(2, 6)])]);
    ScanRowAdvance(start, row, 6, 2, '5', [Part(Number(467), [Point(0, 0), Point(1, 0), Point(2, 0)]), Part(Number(114), [Point(5, 0), Point(6, 0), Point(7, 0)]), Part(Symbol('*'), [Point(3, 1)]), Part(Number(35), [Point(2, 2), Point(3, 2)]), Part(Number(633), [Point(6, 2), Point(7, 2), Point(8, 2)]), Part(Symbol('#'), [Point(6, 3)]), Part(Number(617), [Point(0, 4), Point(1, 4), Point(2, 4)]), Part(Symbol('*'), [Point(3, 4)]), Part(Symbol('+'), [Point(5, 5)]), Part(Number(58), [Point(7, 5), Point(8, 5)])], [Part(Number(467), [Point(0, 0), Point(1, 0), Point(2, 0)]), Part(Number(114), [Point(5, 0), Point(6, 0), Point(7, 0)]), Part(Symbol('*'), [Point(3, 1)]), Part(Number(35), [Point(2, 2), Point(3, 2)]), Part(Number(633), [Point(6, 2), Point(7, 2), Point(8, 2)]), Part(Symbol('#'), [Point(6, 3)]), Part(Number(617), [Point(0, 4), Point(1, 4), Point(2, 4)]), Part(Symbol('*'), [Point(3, 4)]), Part(Symbol('+'), [Point(5, 5)]), Part(Number(58), [Point(7, 5), Point(8, 5)]), Part(Number(5), [Point(2, 6)])]);
  }

  lemma SampleRow6At3(start: seq<Part>, row: string)
    requires 3 < |row| && row[3] == '9'
    requires ScanRow(start, row[..3], 6) == [Part(Number(467), [Point(0, 0), Point(1, 0), Point(2, 0)]), Part(Number(114), [Point(5, 0), Point(6, 0), Point(7, 0)]), Part(Symbol('*'), [Point(3, 1)]), Part(Number(35), [Point(2, 2), Point(3, 2)]), Part(Number(633), [Point(6, 2), Point(7, 2), Point(8, 2)]), Part(Symbol('#'), [Point(6, 3)]), Part(Number(617), [Point(0, 4), Point(1, 4), Point(2, 4)]), Part(Symbol('*'), [Point(3, 4)]), Part(Symbol('+'), [Point(5, 5)]), Part(Number(58), [Point(7, 5), Point(8, 5)]), Part(Number(5), [Point(2, 6)])]
    ensures ScanRow(start, row[..4], 6) == [Part(Number(467), [Point(0, 0), Point(1, 0), Point(2, 0)]), Part(Number(114), [Point(5, 0), Point(6, 0), Point(7, 0)]), Part(Symbol('*'), [Point(3, 1)]), Part(Number(35), [Point(2, 2), Point(3, 2)]), Part(Number(633), [Point(6, 2), Point(7, 2), Point(8, 2)]), Part(Symbol('#'), [Point(6, 3)]), Part(Number(617), [Point(0, 4), Point(1, 4), Point(2, 4)]), Part(Symbol('*'), [Point(3, 4)]), Part(Symbol('+'), [Point(5, 5)]), Part(Number(58), [Point(7, 5), Point(8, 5)]), Part(Number(59), [Point(2, 6), Point(3, 6)])]
  {
    StepExtend([Part(Number(467), [Point(0, 0), Point(1, 0), Point(2, 0)]), Part(Number(114), [Point(5, 0), Point(6, 0), Point(7, 0)]), Part(Symbol('*'), [Point(3, 1)]), Part(Number(35), [Point(2, 2), Point(3, 2)]), Part(Number(633), [Point(6, 2), Point(7, 2), Point(8, 2)]), Part(Symbol('#'), [Point(6, 3)]), Part(Number(617), [Point(0, 4), Point(1, 4), Point(2, 4)]), Part(Symbol('*'), [Point(3, 4)]), Part(Symbol('+'), [Point(5, 5)]), Part(Number(58), [Point(7, 5), Point(8, 5)]), Part(Number(5), [Point(2, 6)])], [Part(Number(467), [Point(0, 0), Point(1, 0), Point(2, 0)]), Part(Number(114), [Point(5, 0), Point(6, 0), Point(7, 0)]), Part(Symbol('*'), [Point(3, 1)]), Part(Number(35), [Point(2, 2), Point(3, 2)]), Part(Number(633), [Point(6, 2), Point(7, 2), Point(8, 2)]), Part(Symbol('#'), [Point(6, 3)]), Part(Number(617), [Point(0, 4), Point(1, 4), Point(2, 4)]), Part(Symbol('*'), [Point(3, 4)]), Part(Symbol('+'), [Point(5, 5)]), Part(Number(58), [Point(7, 5), Point(8, 5)])], 5, [Point(2, 6)], 3, 6, '9', 59, [Point(2, 6), Point(3, 6)], [Part(Number(467), [Point(0, 0), Point(1, 0), Point(2, 0)]), Part(Number(114), [Point(5, 0), Point(6, 0), Point(7, 0)]), Part(Symbol('*'), [Point(3, 1)]), Part(Number(35), [Point(2, 2), Point(3, 2)]), Part(Number(633), [Point(6, 2), Point(7, 2), Point(8, 2)]), Part(Symbol('#'), [Point(6, 3)]), Part(Number(617), [Point(0, 4), Point(1, 4), Point(2, 4)]), Part(Symbol('*'), [Point(3, 4)]), Part(Symbol('+'), [Point(5, 5)]), Part(Number(58), [Point(7, 5), Point(8, 5)]), Part(Number(59), [Point(2, 6), Point(3, 6)])]);
    ScanRowAdvance(start, row, 6, 3, '9', [Part(Number(467), [Point(0, 0), Point(1, 0), Point(2, 0)]), Part(Number(114), [Point(5, 0), Point(6, 0), Point(7, 0)]), Part(Symbol('*'), [Point(3, 1)]), Part(Number(35), [Point(2, 2), Point(3, 2)]), Part(Number(633), [Point(6, 2), Point(7, 2), Point(8, 2)]), Part(Symbol('#'), [Point(6, 3)]), Part(Number(617), [Point(0, 4), Point(1, 4), Point(2, 4)]), Part(Symbol('*'), [Point(3, 4)]), Part(Symbol('+'), [Point(5, 5)]), Part(Number(58), [Point(7, 5), Point(8, 5)]), Part(Number(5), [Point(2, 6)])], [Part(Number(467), [Point(0, 0), Point(1, 0), Point(2, 0)]), Part(Number(114), [Point(5, 0), Point(6, 0), Point(7, 0)]), Part(Symbol('*'), [Point(3, 1)]), Part(Number(35), [Point(2, 2), Point(3, 2)]), Part(Number(633), [Point(6, 2), Point(7, 2), Point(8, 2)]), Part(Symbol('#'), [Point(6, 3)]), Part(Number(617), [Point(0, 4), Point(1, 4), Point(2, 4)]), Part(Symbol('*'), [Point(3, 4)]), Part(Symbol('+'), [Point(5, 5)]), Part(Number(58), [Point(7, 5), Point(8, 5)]), Part(Number(59), [Point(2, 6), Point(3, 6)])]);
  }

  lemma SampleRow6At4(start: seq<Part>, row: string)
    requires 4 < |row| && row[4] == '2'
    requires ScanRow(start, row[..4], 6) == [Part(Number(467), [Point(0, 0), Point(1, 0), Point(2, 0)]), Part(Number(114), [Point(5, 0), Point(6, 0), Point(7, 0)]), Part(Symbol('*'), [Point(3, 1)]), Part(Number(35), [Point(2, 2), Point(3, 2)]), Part(Number(633), [Point(6, 2), Point(7, 2), Point(8, 2)]), Part(Symbol('#'), [Point(6, 3)]), Part(Number(617), [Point(0, 4), Point(1, 4), Point(2, 4)]), Part(Symbol('*'), [Point(3, 4)]), Part(Symbol('+'), [Point(5, 5)]), Part(Number(58), [Point(7, 5), Point(8, 5)]), Part(Number(59), [Point(2, 6), Point(3, 6)])]
    ensures ScanRow(start, row[..5], 6) == [Part(Number(467), [Point(0, 0), Point(1, 0), Point(2, 0)]), Part(Number(114), [Point(5, 0), Point(6, 0), Point(7, 0)]), Part(Symbol('*'), [Point(3, 1)]), Part(Number(35), [Point(2, 2), Point(3, 2)]), Part(Number(633), [Point(6, 2), Point(7, 2), Point(8, 2)]), Part(Symbol('#'), [Point(6, 3)]), Part(Number(617), [Point(0, 4), Point(1, 4), Point(2, 4)]), Part(Symbol('*'), [Point(3, 4)]), Part(Symbol('+'), [Point(5, 5)]), Part(Number(58), [Point(7, 5), Point(8, 5)]), Part(Number(592), [Point(2, 6), Point(3, 6), Point(4, 6)])]
  {
    StepExtend([Part(Number(467), [Point(0, 0), Point(1, 0), Point(2, 0)]), Part(Number(114), [Point(5, 0), Point(6, 0), Point(7, 0)]), Part(Symbol('*'), [Point(3, 1)]), Part(Number(35), [Point(2, 2), Point(3, 2)]), Part(Number(633), [Point(6, 2), Point(7, 2), Point(8, 2)]), Part(Symbol('#'), [Point(6, 3)]), Part(Number(617), [Point(0, 4), Point(1, 4), Point(2, 4)]), Part(Symbol('*'), [Point(3, 4)]), Part(Symbol('+'), [Point(5, 5)]), Part(Number(58), [Point(7, 5), Point(8, 5)]), Part(Number(59), [Point(2, 6), Point(3, 6)])], [Part(Number(467), [Point(0, 0), Point(1, 0), Point(2, 0)]), Part(Number(114), [Point(5, 0), Point(6, 0), Point(7, 0)]), Part(Symbol('*'), [Point(3, 1)]), Part(Number(35), [Point(2, 2), Point(3, 2)]), Part(Number(633), [Point(6, 2), Point(7, 2), Point(8, 2)]), Part(Symbol('#'), [Point(6, 3)]), Part(Number(617), [Point(0, 4), Point(1, 4), Point(2, 4)]), Part(Symbol('*'), [Point(3, 4)]), Part(Symbol('+'), [Point(5, 5)]), Part(Number(58), [Point(7, 5), Point(8, 5)])], 59, [Point(2, 6), Point(3, 6)], 4, 6, '2', 592, [Point(2, 6), Point(3, 6), Point(4, 6)], [Part(Number(467), [Point(0, 0), Point(1, 0), Point(2, 0)]), Part(Number(114), [Point(5, 0), Point(6, 0), Point(7, 0)]), Part(Symbol('*'), [Point(3, 1)]), Part(Number(35), [Point(2, 2), Point(3, 2)]), Part(Number(633), [Point(6, 2), Point(7, 2), Point(8, 2)]), Part(Symbol('#'), [Point(6, 3)]), Part(Number(617), [Point(0, 4), Point(1, 4), Point(2, 4)]), Part(Symbol('*'), [Point(3, 4)]), Part(Symbol('+'), [Point(5, 5)]), Part(Number(58), [Point(7, 5), Point(8, 5)]), Part(Number(592), [Point(2, 6), Point(3, 6), Point(4, 6)])]);
    ScanRowAdvance(start, row, 6, 4, '2', [Part(Number(467), [Point(0, 0), Point(1, 0), Point(2, 0)]), Part(Number(114), [Point(5, 0), Point(6, 0), Point(7, 0)]), Part(Symbol('*'), [Point(3, 1)]), Part(Number(35), [Point(2, 2), Point(3, 2)]), Part(Number(633), [Point(6, 2), Point(7, 2), Point(8, 2)]), Part(Symbol('#'), [Point(6, 3)]), Part(Number(617), [Point(0, 4), Point(1, 4), Point(2, 4)]), Part(Symbol('*'), [Point(3, 4)]), Part(Symbol('+'), [Point(5, 5)]), Part(Number(58), [Point(7, 5), Point(8, 5)]), Part(Number(59), [Point(2, 6), Point(3, 6)])], [Part(Number(467), [Point(0, 0), Point(1, 0), Point(2, 0)]), Part(Number(114), [Point(5, 0), Point(6, 0), Point(7, 0)]), Part(Symbol('*'), [Point(3, 1)]), Part(Number(35), [Point(2, 2), Point(3, 2)]), Part(Number(633), [Point(6, 2), Point(7, 2), Point(8, 2)]), Part(Symbol('#'), [Point(6, 3)]), Part(Number(617), [Point(0, 4), Point(1, 4), Point(2, 4)]), Part(Symbol('*'), [Point(3, 4)]), Part(Symbol('+'), [Point(5, 5)]), Part(Number(58), [Point(7, 5), Point(8, 5)]), Part(Number(592), [Point(2, 6), Point(3, 6), Point(4, 6)])]);
  }

  lemma SampleRow6At5(start: seq<Part>, row: string)
    requires 5 < |row| && row[5] == '.'
    requires ScanRow(start, row[..5], 6) == [Part(Number(467), [Point(0, 0), Point(1, 0), Point(2, 0)]), Part(Number(114), [Point(5, 0), Point(6, 0), Point(7, 0)]), Part(Symbol('*'), [Point(3, 1)]), Part(Number(35), [Point(2, 2), Point(3, 2)]), Part(Number(633), [Point(6, 2), Point(7, 2), Point(8, 2)]), Part(Symbol('#'), [Point(6, 3)]), Part(Number(617), [Point(0, 4), Point(1, 4), Point(2, 4)]), Part(Symbol('*'), [Point(3, 4)]), Part(Symbol('+'), [Point(5, 5)]), Part(Number(58), [Point(7, 5), Point(8, 5)]), Part(Number(592), [Point(2, 6), Point(3, 6), Point(4, 6)])]
    ensures ScanRow(start, row[..6], 6) == [Part(Number(467), [Point(0, 0), Point(1, 0), Point(2, 0)]), Part(Number(114), [Point(5, 0), Point(6, 0), Point(7, 0)]), Part(Symbol('*'), [Point(3, 1)]), Part(Number(35), [Point(2, 2), Point(3, 2)]), Part(Number(633), [Point(6, 2), Point(7, 2), Point(8, 2)]), Part(Symbol('#'), [Point(6, 3)]), Part(Number(617), [Point(0, 4), Point(1, 4), Point(2, 4)]), Part(Symbol('*'), [Point(3, 4)]), Part(Symbol('+'), [Point(5, 5)]), Part(Number(58), [Point(7, 5), Point(8, 5)]), Part(Number(592), [Point(2, 6), Point(3, 6), Point(4, 6)])]
  {
    StepSkip([Part(Number(467), [Point(0, 0), Point(1, 0), Point(2, 0)]), Part(Number(114), [Point(5, 0), Point(6, 0), Point(7, 0)]), Part(Symbol('*'), [Point(3, 1)]), Part(Number(35), [Point(2, 2), Point(3, 2)]), Part(Number(633), [Point(6, 2), Point(7, 2), Point(8, 2)]), Part(Symbol('#'), [Point(6, 3)]), Part(Number(617), [Point(0, 4), Point(1, 4), Point(2, 4)]), Part(Symbol('*'), [Point(3, 4)]), Part(Symbol('+'), [Point(5, 5)]), Part(Number(58), [Point(7, 5), Point(8, 5)]), Part(Number(592), [Point(2, 6), Point(3, 6), Point(4, 6)])], 5, 6, [Part(Number(467), [Point(0, 0), Point(1, 0), Point(2, 0)]), Part(Number(114), [Point(5, 0), Point(6, 0), Point(7, 0)]), Part(Symbol('*'), [Point(3, 1)]), Part(Number(35), [Point(2, 2), Point(3, 2)]), Part(Number(633), [Point(6, 2), Point(7, 2), Point(8, 2)]), Part(Symbol('#'), [Point(6, 3)]), Part(Number(617), [Point(0, 4), Point(1, 4), Point(2, 4)]), Part(Symbol('*'), [Point(3, 4)]), Part(Symbol('+'), [Point(5, 5)]), Part(Number(58), [Point(7, 5), Point(8, 5)]), Part(Number(592), [Point(2, 6), Point(3, 6), Point(4, 6)])]);
    ScanRowAdvance(start, row, 6, 5, '.', [Part(Number(467), [Point(0, 0), Point(1, 0), Point(2, 0)]), Part(Number(114), [Point(5, 0), Point(6, 0), Point(7, 0)]), Part(Symbol('*'), [Point(3, 1)]), Part(Number(35), [Point(2, 2), Point(3, 2)]), Part(Number(633), [Point(6, 2), Point(7, 2), Point(8, 2)]), Part(Symbol('#'), [Point(6, 3)]), Part(Number(617), [Point(0, 4), Point(1, 4), Point(2, 4)]), Part(Symbol('*'), [Point(3, 4)]), Part(Symbol('+'), [Point(5, 5)]), Part(Number(58), [Point(7, 5), Point(8, 5)]), Part(Number(592), [Point(2, 6), Point(3, 6), Point(4, 6)])], [Part(Number(467), [Point(0, 0), Point(1, 0), Point(2, 0)]), Part(Number(114), [Point(5, 0), Point(6, 0), Point(7, 0)]), Part(Symbol('*'), [Point(3, 1)]), Part(Number(35), [Point(2, 2), Point(3, 2)]), Part(Number(633), [Point(6, 2), Point(7, 2), Point(8, 2)]), Part(Symbol('#'), [Point(6, 3)]), Part(Number(617), [Point(0, 4), Point(1, 4), Point(2, 4)]), Part(Symbol('*'), [Point(3, 4)]), Part(Symbol('+'), [Point(5, 5)]), Part(Number(58), [Point(7, 5), Point(8, 5)]), Part(Number(592), [Point(2, 6), Point(3, 6), Point(4, 6)])]);
  }

  lemma SampleRow6At6(start: seq<Part>, row: string)
    requires 6 < |row| && row[6] == '.'
    requires ScanRow(start, row[..6], 6) == [Part(Number(467), [Point(0, 0), Point(1, 0), Point(2, 0)]), Part(Number(114), [Point(5, 0), Point(6, 0), Point(7, 0)]), Part(Symbol('*'), [Point(3, 1)]), Part(Number(35), [Point(2, 2), Point(3, 2)]), Part(Number(633), [Point(6, 2), Point(7, 2), Point(8, 2)]), Part(Symbol('#'), [Point(6, 3)]), Part(Number(617), [Point(0, 4), Point(1, 4), Point(2, 4)]), Part(Symbol('*'), [Point(3, 4)]), Part(Symbol('+'), [Point(5, 5)]), Part(Number(58), [Point(7, 5), Point(8, 5)]), Part(Number(592), [Point(2, 6), Point(3, 6), Point(4, 6)])]
    ensures ScanRow(start, row[..7], 6) == [Part(Number(467), [Point(0, 0), Point(1, 0), Point(2, 0)]), Part(Number(114), [Point(5, 0), Point(6, 0), Point(7, 0)]), Part(Symbol('*'), [Point(3, 1)]), Part(Number(35), [Point(2, 2), Point(3, 2)]), Part(Number(633), [Point(6, 2), Point(7, 2), Point(8, 2)]), Part(Symbol('#'), [Point(6, 3)]), Part(Number(617), [Point(0, 4), Point(1, 4), Point(2, 4)]), Part(Symbol('*'), [Point(3, 4)]), Part(Symbol('+'), [Point(5, 5)]), Part(Number(58), [Point(7, 5), Point(8, 5)]), Part(Number(592), [Point(2, 6), Point(3, 6), Point(4, 6)])]
  {
    StepSkip([Part(Number(467), [Point(0, 0), Point(1, 0), Point(2, 0)]), Part(Number(114), [Point(5, 0), Point(6, 0), Point(7, 0)]), Part(Symbol('*'), [Point(3, 1)]), Part(Number(35), [Point(2, 2), Point(3, 2)]), Part(Number(633), [Point(6, 2), Point(7, 2), Point(8, 2)]), Part(Symbol('#'), [Point(6, 3)]), Part(Number(617), [Point(0, 4), Point(1, 4), Point(2, 4)]), Part(Symbol('*'), [Point(3, 4)]), Part(Symbol('+'), [Point(5, 5)]), Part(Number(58), [Point(7, 5), Point(8, 5)]), Part(Number(592), [Point(2, 6), Point(3, 6), Point(4, 6)])], 6, 6, [Part(Number(467), [Point(0, 0), Point(1, 0), Point(2, 0)]), Part(Number(114), [Point(5, 0), Point(6, 0), Point(7, 0)]), Part(Symbol('*'), [Point(3, 1)]), Part(Number(35), [Point(2, 2), Point(3, 2)]), Part(Number(633), [Point(6, 2), Point(7, 2), Point(8, 2)]), Part(Symbol('#'), [Point(6, 3)]), Part(Number(617), [Point(0, 4), Point(1, 4), Point(2, 4)]), Part(Symbol('*'), [Point(3, 4)]), Part(Symbol('+'), [Point(5, 5)]), Part(Number(58), [Point(7, 5), Point(8, 5)]), Part(Number(592), [Point(2, 6), Point(3, 6), Point(4, 6)])]);
    ScanRowAdvance(start, row, 6, 6, '.', [Part(Number(467), [Point(0, 0), Point(1, 0), Point(2, 0)]), Part(Number(114), [Point(5, 0), Point(6, 0), Point(7, 0)]), Part(Symbol('*'), [Point(3, 1)]), Part(Number(35), [Point(2, 2), Point(3, 2)]), Part(Number(633), [Point(6, 2), Point(7, 2), Point(8, 2)]), Part(Symbol('#'), [Point(6, 3)]), Part(Number(617), [Point(0, 4), Point(1, 4), Point(2, 4)]), Part(Symbol('*'), [Point(3, 4)]), Part(Symbol('+'), [Point(5, 5)]), Part(Number(58), [Point(7, 5), Point(8, 5)]), Part(Number(592), [Point(2, 6), Point(3, 6), Point(4, 6)])], [Part(Number(467), [Point(0, 0), Point(1, 0), Point(2, 0)]), Part(Number(114), [Point(5, 0), Point(6, 0), Point(7, 0)]), Part(Symbol('*'), [Point(3, 1)]), Part(Number(35), [Point(2, 2), Point(3, 2)]), Part(Number(633), [Point(6, 2), Point(7, 2), Point(8, 2)]), Part(Symbol('#'), [Point(6, 3)]), Part(Number(617), [Point(0, 4), Point(1, 4), Point(2, 4)]), Part(Symbol('*'), [Point(3, 4)]), Part(Symbol('+'), [Point(5, 5)]), Part(Number(58), [Point(7, 5), Point(8, 5)]), Part(Number(592), [Point(2, 6), Point(3, 6), Point(4, 6)])]);
  }

  lemma SampleRow6At7(start: seq<Part>, row: string)
    requires 7 < |row| && row[7] == '.'
    requires ScanRow(start, row[..7], 6) == [Part(Number(467), [Point(0, 0), Point(1, 0), Point(2, 0)]), Part(Number(114), [Point(5, 0), Point(6, 0), Point(7, 0)]), Part(Symbol('*'), [Point(3, 1)]), Part(Number(35), [Point(2, 2), Point(3, 2)]), Part(Number(633), [Point(6, 2), Point(7, 2), Point(8, 2)]), Part(Symbol('#'), [Point(6, 3)]), Part(Number(617), [Point(0, 4), Point(1, 4), Point(2, 4)]), Part(Symbol('*'), [Point(3, 4)]), Part(Symbol('+'), [Point(5, 5)]), Part(Number(58), [Point(7, 5), Point(8, 5)]), Part(Number(592), [Point(2, 6), Point(3, 6), Point(4, 6)])]
    ensures ScanRow(start, row[..8], 6) == [Part(Number(467), [Point(0, 0), Point(1, 0), Point(2, 0)]), Part(Number(114), [Point(5, 0), Point(6, 0), Point(7, 0)]), Part(Symbol('*'), [Point(3, 1)]), Part(Number(35), [Point(2, 2), Point(3, 2)]), Part(Number(633), [Point(6, 2), Point(7, 2), Point(8, 2)]), Part(Symbol('#'), [Point(6, 3)]), Part(Number(617), [Point(0, 4), Point(1, 4), Point(2, 4)]), Part(Symbol('*'), [Point(3, 4)]), Part(Symbol('+'), [Point(5, 5)]), Part(Number(58), [Point(7, 5), Point(8, 5)]), Part(Number(592), [Point(2, 6), Point(3, 6), Point(4, 6)])]
  {
    StepSkip([Part(Number(467), [Point(0, 0), Point(1, 0), Point(2, 0)]), Part(Number(114), [Point(5, 0), Point(6, 0), Point(7, 0)]), Part(Symbol('*'), [Point(3, 1)]), Part(Number(35), [Point(2, 2), Point(3, 2)]), Part(Number(633), [Point(6, 2), Point(7, 2), Point(8, 2)]), Part(Symbol('#'), [Point(6, 3)]), Part(Number(617), [Point(0, 4), Point(1, 4), Point(2, 4)]), Part(Symbol('*'), [Point(3, 4)]), Part(Symbol('+'), [Point(5, 5)]), Part(Number(58), [Point(7, 5), Point(8, 5)]), Part(Number(592), [Point(2, 6), Point(3, 6), Point(4, 6)])], 7, 6, [Part(Number(467), [Point(0, 0), Point(1, 0), Point(2, 0)]), Part(Number(114), [Point(5, 0), Point(6, 0), Point(7, 0)]), Part(Symbol('*'), [Point(3, 1)]), Part(Number(35), [Point(2, 2), Point(3, 2)]), Part(Number(633), [Point(6, 2), Point(7, 2), Point(8, 2)]), Part(Symbol('#'), [Point(6, 3)]), Part(Number(617), [Point(0, 4), Point(1, 4), Point(2, 4)]), Part(Symbol('*'), [Point(3, 4)]), Part(Symbol('+'), [Point(5, 5)]), Part(Number(58), [Point(7, 5), Point(8, 5)]), Part(Number(592), [Point(2, 6), Point(3, 6), Point(4, 6)])]);
    ScanRowAdvance(start, row, 6, 7, '.', [Part(Number(467), [Point(0, 0), Point(1, 0), Point(2, 0)]), Part(Number(114), [Point(5, 0), Point(6, 0), Point(7, 0)]), Part(Symbol('*'), [Point(3, 1)]), Part(Number(35), [Point(2, 2), Point(3, 2)]), Part(Number(633), [Point(6, 2), Point(7, 2), Point(8, 2)]), Part(Symbol('#'), [Point(6, 3)]), Part(Number(617), [Point(0, 4), Point(1, 4), Point(2, 4)]), Part(Symbol('*'), [Point(3, 4)]), Part(Symbol('+'), [Point(5, 5)]), Part(Number(58), [Point(7, 5), Point(8, 5)]), Part(Number(592), [Point(2, 6), Point(3, 6), Point(4, 6)])], [Part(Number(467), [Point(0, 0), Point(1, 0), Point(2, 0)]), Part(Number(114), [Point(5, 0), Point(6, 0), Point(7, 0)]), Part(Symbol('*'), [Point(3, 1)]), Part(Number(35), [Point(2, 2), Point(3, 2)]), Part(Number(633), [Point(6, 2), Point(7, 2), Point(8, 2)]), Part(Symbol('#'), [Point(6, 3)]), Part(Number(617), [Point(0, 4), Point(1, 4), Point(2, 4)]), Part(Symbol('*'), [Point(3, 4)]), Part(Symbol('+'), [Point(5, 5)]), Part(Number(58), [Point(7, 5), Point(8, 5)]), Part(Number(592), [Point(2, 6), Point(3, 6), Point(4, 6)])]);
  }

  lemma SampleRow6At8(start: seq<Part>, row: string)
    requires 8 < |row| && row[8] == '.'
    requires ScanRow(start, row[..8], 6) == [Part(Number(467), [Point(0, 0), Point(1, 0), Point(2, 0)]), Part(Number(114), [Point(5, 0), Point(6, 0), Point(7, 0)]), Part(Symbol('*'), [Point(3, 1)]), Part(Number(35), [Point(2, 2), Point(3, 2)]), Part(Number(633), [Point(6, 2), Point(7, 2), Point(8, 2)]), Part(Symbol('#'), [Point(6, 3)]), Part(Number(617), [Point(0, 4), Point(1, 4), Point(2, 4)]), Part(Symbol('*'), [Point(3, 4)]), Part(Symbol('+'), [Point(5, 5)]), Part(Number(58), [Point(7, 5), Point(8, 5)]), Part(Number(592), [Point(2, 6), Point(3, 6), Point(4, 6)])]
    ensures ScanRow(start, row[..9], 6) == [Part(Number(467), [Point(0, 0), Point(1, 0), Point(2, 0)]), Part(Number(114), [Point(5, 0), Point(6, 0), Point(7, 0)]), Part(Symbol('*'), [Point(3, 1)]), Part(Number(35), [Point(2, 2), Point(3, 2)]), Part(Number(633), [Point(6, 2), Point(7, 2), Point(8, 2)]), Part(Symbol('#'), [Point(6, 3)]), Part(Number(617), [Point(0, 4), Point(1, 4), Point(2, 4)]), Part(Symbol('*'), [Point(3, 4)]), Part(Symbol('+'), [Point(5, 5)]), Part(Number(58), [Point(7, 5), Point(8, 5)]), Part(Number(592), [Point(2, 6), Point(3, 6), Point(4, 6)])]
  {
    StepSkip([Part(Number(467), [Point(0, 0), Point(1, 0), Point(2, 0)]), Part(Number(114), [Point(5, 0), Point(6, 0), Point(7, 0)]), Part(Symbol('*'), [Point(3, 1)]), Part(Number(35), [Point(2, 2), Point(3, 2)]), Part(Number(633), [Point(6, 2), Point(7, 2), Point(8, 2)]), Part(Symbol('#'), [Point(6, 3)]), Part(Number(617), [Point(0, 4), Point(1, 4), Point(2, 4)]), Part(Symbol('*'), [Point(3, 4)]), Part(Symbol('+'), [Point(5, 5)]), Part(Number(58), [Point(7, 5), Point(8, 5)]), Part(Number(592), [Point(2, 6), Point(3, 6), Point(4, 6)])], 8, 6, [Part(Number(467), [Point(0, 0), Point(1, 0), Point(2, 0)]), Part(Number(114), [Point(5, 0), Point(6, 0), Point(7, 0)]), Part(Symbol('*'), [Point(3, 1)]), Part(Number(35), [Point(2, 2), Point(3, 2)]), Part(Number(633), [Point(6, 2), Point(7, 2), Point(8, 2)]), Part(Symbol('#'), [Point(6, 3)]), Part(Number(617), [Point(0, 4), Point(1, 4), Point(2, 4)]), Part(Symbol('*'), [Point(3, 4)]), Part(Symbol('+'), [Point(5, 5)]), Part(Number(58), [Point(7, 5), Point(8, 5)]), Part(Number(592), [Point(2, 6), Point(3, 6), Point(4, 6)])]);
    ScanRowAdvance(start, row, 6, 8, '.', [Part(Number(467), [Point(0, 0), Point(1, 0), Point(2, 0)]), Part(Number(114), [Point(5, 0), Point(6, 0), Point(7, 0)]), Part(Symbol('*'), [Point(3, 1)]), Part(Number(35), [Point(2, 2), Point(3, 2)]), Part(Number(633), [Point(6, 2), Point(7, 2), Point(8, 2)]), Part(Symbol('#'), [Point(6, 3)]), Part(Number(617), [Point(0, 4), Point(1, 4), Point(2, 4)]), Part(Symbol('*'), [Point(3, 4)]), Part(Symbol('+'), [Point(5, 5)]), Part(Number(58), [Point(7, 5), Point(8, 5)]), Part(Number(592), [Point(2, 6), Point(3, 6), Point(4, 6)])], [Part(Number(467), [Point(0, 0), Point(1, 0), Point(2, 0)]), Part(Number(114), [Point(5, 0), Point(6, 0), Point(7, 0)]), Part(Symbol('*'), [Point(3, 1)]), Part(Number(35), [Point(2, 2), Point(3, 2)]), Part(Number(633), [Point(6, 2), Point(7, 2), Point(8, 2)]), Part(Symbol('#'), [Point(6, 3)]), Part(Number(617), [Point(0, 4), Point(1, 4), Point(2, 4)]), Part(Symbol('*'), [Point(3, 4)]), Part(Symbol('+'), [Point(5, 5)]), Part(Number(58), [Point(7, 5), Point(8, 5)]), Part(Number(592), [Point(2, 6), Point(3, 6), Point(4, 6)])]);
  }

  lemma SampleRow6At9(start: seq<Part>, row: string)
    requires 9 < |row| && row[9] == '.'
    requires ScanRow(start, row[..9], 6) == [Part(Number(467), [Point(0, 0), Point(1, 0), Point(2, 0)]), Part(Number(114), [Point(5, 0), Point(6, 0), Point(7, 0)]), Part(Symbol('*'), [Point(3, 1)]), Part(Number(35), [Point(2, 2), Point(3, 2)]), Part(Number(633), [Point(6, 2), Point(7, 2), Point(8, 2)]), Part(Symbol('#'), [Point(6, 3)]), Part(Number(617), [Point(0, 4), Point(1, 4), Point(2, 4)]), Part(Symbol('*'), [Point(3, 4)]), Part(Symbol('+'), [Point(5, 5)]), Part(Number(58), [Point(7, 5), Point(8, 5)]), Part(Number(592), [Point(2, 6), Point(3, 6), Point(4, 6)])]
    ensures ScanRow(start, row[..10], 6) == [Part(Number(467), [Point(0, 0), Point(1, 0), Point(2, 0)]), Part(Number(114), [Point(5, 0), Point(6, 0), Point(7, 0)]), Part(Symbol('*'), [Point(3, 1)]), Part(Number(35), [Point(2, 2), Point(3, 2)]), Part(Number(633), [Point(6, 2), Point(7, 2), Point(8, 2)]), Part(Symbol('#'), [Point(6, 3)]), Part(Number(617), [Point(0, 4), Point(1, 4), Point(2, 4)]), Part(Symbol('*'), [Point(3, 4)]), Part(Symbol('+'), [Point(5, 5)]), Part(Number(58), [Point(7, 5), Point(8, 5)]), Part(Number(592), [Point(2, 6), Point(3, 6), Point(4, 6)])]
  {
    StepSkip([Part(Number(467), [Point(0, 0), Point(1, 0), Point(2, 0)]), Part(Number(114), [Point(5, 0), Point(6, 0), Point(7, 0)]), Part(Symbol('*'), [Point(3, 1)]), Part(Number(35), [Point(2, 2), Point(3, 2)]), Part(Number(633), [Point(6, 2), Point(7, 2), Point(8, 2)]), Part(Symbol('#'), [Point(6, 3)]), Part(Number(617), [Point(0, 4), Point(1, 4), Point(2, 4)]), Part(Symbol('*'), [Point(3, 4)]), Part(Symbol('+'), [Point(5, 5)]), Part(Number(58), [Point(7, 5), Point(8, 5)]), Part(Number(592), [Point(2, 6), Point(3, 6), Point(4, 6)])], 9, 6, [Part(Number(467), [Point(0, 0), Point(1, 0), Point(2, 0)]), Part(Number(114), [Point(5, 0), Point(6, 0), Point(7, 0)]), Part(Symbol('*'), [Point(3, 1)]), Part(Number(35), [Point(2, 2), Point(3, 2)]), Part(Number(633), [Point(6, 2), Point(7, 2), Point(8, 2)]), Part(Symbol('#'), [Point(6, 3)]), Part(Number(617), [Point(0, 4), Point(1, 4), Point(2, 4)]), Part(Symbol('*'), [Point(3, 4)]), Part(Symbol('+'), [Point(5, 5)]), Part(Number(58), [Point(7, 5), Point(8, 5)]), Part(Number(592), [Point(2, 6), Point(3, 6), Point(4, 6)])]);
    ScanRowAdvance(start, row, 6, 9, '.', [Part(Number(467), [Point(0, 0), Point(1, 0), Point(2, 0)]), Part(Number(114), [Point(5, 0), Point(6, 0), Point(7, 0)]), Part(Symbol('*'), [Point(3, 1)]), Part(Number(35), [Point(2, 2), Point(3, 2)]), Part(Number(633), [Point(6, 2), Point(7, 2), Point(8, 2)]), Part(Symbol('#'), [Point(6, 3)]), Part(Number(617), [Point(0, 4), Point(1, 4), Point(2, 4)]), Part(Symbol('*'), [Point(3, 4)]), Part(Symbol('+'), [Point(5, 5)]), Part(Number(58), [Point(7, 5), Point(8, 5)]), Part(Number(592), [Point(2, 6), Point(3, 6), Point(4, 6)])], [Part(Number(467), [Point(0, 0), Point(1, 0), Point(2, 0)]), Part(Number(114), [Point(5, 0), Point(6, 0), Point(7, 0)]), Part(Symbol('*'), [Point(3, 1)]), Part(Number(35), [Point(2, 2), Point(3, 2)]), Part(Number(633), [Point(6, 2), Point(7, 2), Point(8, 2)]), Part(Symbol('#'), [Point(6, 3)]), Part(Number(617), [Point(0, 4), Point(1, 4), Point(2, 4)]), Part(Symbol('*'), [Point(3, 4)]), Part(Symbol('+'), [Point(5, 5)]), Part(Number(58), [Point(7, 5), Point(8, 5)]), Part(Number(592), [Point(2, 6), Point(3, 6), Point(4, 6)])]);
  }

  /** Row 6 of the sample grid. */
  lemma SampleRow6(start: seq<Part>, row: string)
    requires start == [Part(Number(467), [Point(0, 0), Point(1, 0), Point(2, 0)]), Part(Number(114), [Point(5, 0), Point(6, 0), Point(7, 0)]), Part(Symbol('*'), [Point(3, 1)]), Part(Number(35), [Point(2, 2), Point(3, 2)]), Part(Number(633), [Point(6, 2), Point(7, 2), Point(8, 2)]), Part(Symbol('#'), [Point(6, 3)]), Part(Number(617), [Point(0, 4), Point(1, 4), Point(2, 4)]), Part(Symbol('*'), [Point(3, 4)]), Part(Symbol('+'), [Point(5, 5)]), Part(Number(58), [Point(7, 5), Point(8, 5)])]
    requires |row| == 10 && row[0] == '.' && row[1] == '.' && row[2] == '5' && row[3] == '9' && row[4] == '2' && row[5] == '.' && row[6] == '.' && row[7] == '.' && row[8] == '.' && row[9] == '.'
    ensures ScanRow(start, row, 6) == [Part(Number(467), [Point(0, 0), Point(1, 0), Point(2, 0)]), Part(Number(114), [Point(5, 0), Point(6, 0), Point(7, 0)]), Part(Symbol('*'), [Point(3, 1)]), Part(Number(35), [Point(2, 2), Point(3, 2)]), Part(Number(633), [Point(6, 2), Point(7, 2), Point(8, 2)]), Part(Symbol('#'), [Point(6, 3)]), Part(Number(617), [Point(0, 4), Point(1, 4), Point(2, 4)]), Part(Symbol('*'), [Point(3, 4)]), Part(Symbol('+'), [Point(5, 5)]), Part(Number(58), [Point(7, 5), Point(8, 5)]), Part(Number(592), [Point(2, 6), Point(3, 6), Point(4, 6)])]
  {
    assert row[..0] == [];
    SampleRow6At0(start, row);
    SampleRow6At1(start, row);
    SampleRow6At2(start, row);
    SampleRow6At3(start, row);
    SampleRow6At4(start, row);
    SampleRow6At5(start, row);
    SampleRow6At6(start, row);
    SampleRow6At7(start, row);
    SampleRow6At8(start, row);
    SampleRow6At9(start, row);
    assert row[..10] == row;
  }

  lemma SampleRow7At0(start: seq<Part>, row: string)
    requires 0 < |row| && row[0] == '.'
    requires ScanRow(start, row[..0], 7) == [Part(Number(467), [Point(0, 0), Point(1, 0), Point(2, 0)]), Part(Number(114), [Point(5, 0), Point(6, 0), Point(7, 0)]), Part(Symbol('*'), [Point(3, 1)]), Part(Number(35), [Point(2, 2), Point(3, 2)]), Part(Number(633), [Point(6, 2), Point(7, 2), Point(8, 2)]), Part(Symbol('#'), [Point(6, 3)]), Part(Number(617), [Point(0, 4), Point(1, 4), Point(2, 4)]), Part(Symbol('*'), [Point(3, 4)]), Part(Symbol('+'), [Point(5, 5)]), Part(Number(58), [Point(7, 5), Point(8, 5)]), Part(Number(592), [Point(2, 6), Point(3, 6), Point(4, 6)])]
    ensures ScanRow(start, row[..1], 7) == [Part(Number(467), [Point(0, 0), Point(1, 0), Point(2, 0)]), Part(Number(114), [Point(5, 0), Point(6, 0), Point(7, 0)]), Part(Symbol('*'), [Point(3, 1)]), Part(Number(35), [Point(2, 2), Point(3, 2)]), Part(Number(633), [Point(6, 2), Point(7, 2), Point(8, 2)]), Part(Symbol('#'), [Point(6, 3)]), Part(Number(617), [Point(0, 4), Point(1, 4), Point(2, 4)]), Part(Symbol('*'), [Point(3, 4)]), Part(Symbol('+'), [Point(5, 5)]), Part(Number(58), [Point(7, 5), Point(8, 5)]), Part(Number(592), [Point(2, 6), Point(3, 6), Point(4, 6)])]
  {
    StepSkip([Part(Number(467), [Point(0, 0), Point(1, 0), Point(2, 0)]), Part(Number(114), [Point(5, 0), Point(6, 0), Point(7, 0)]), Part(Symbol('*'), [Point(3, 1)]), Part(Number(35), [Point(2, 2), Point(3, 2)]), Part(Number(633), [Point(6, 2), Point(7, 2), Point(8, 2)]), Part(Symbol('#'), [Point(6, 3)]), Part(Number(617), [Point(0, 4), Point(1, 4), Point(2, 4)]), Part(Symbol('*'), [Point(3, 4)]), Part(Symbol('+'), [Point(5, 5)]), Part(Number(58), [Point(7, 5), Point(8, 5)]), Part(Number(592), [Point(2, 6), Point(3, 6), Point(4, 6)])], 0, 7, [Part(Number(467), [Point(0, 0), Point(1, 0), Point(2, 0)]), Part(Number(114), [Point(5, 0), Point(6, 0), Point(7, 0)]), Part(Symbol('*'), [Point(3, 1)]), Part(Number(35), [Point(2, 2), Point(3, 2)]), Part(Number(633), [Point(6, 2), Point(7, 2), Point(8, 2)]), Part(Symbol('#'), [Point(6, 3)]), Part(Number(617), [Point(0, 4), Point(1, 4), Point(2, 4)]), Part(Symbol('*'), [Point(3, 4)]), Part(Symbol('+'), [Point(5, 5)]), Part(Number(58), [Point(7, 5), Point(8, 5)]), Part(Number(592), [Point(2, 6), Point(3, 6), Point(4, 6)])]);
    ScanRowAdvance(start, row, 7, 0, '.', [Part(Number(467), [Point(0, 0), Point(1, 0), Point(2, 0)]), Part(Number(114), [Point(5, 0), Point(6, 0), Point(7, 0)]), Part(Symbol('*'), [Point(3, 1)]), Part(Number(35), [Point(2, 2), Point(3, 2)]), Part(Number(633), [Point(6, 2), Point(7, 2), Point(8, 2)]), Part(Symbol('#'), [Point(6, 3)]), Part(Number(617), [Point(0, 4), Point(1, 4), Point(2, 4)]), Part(Symbol('*'), [Point(3, 4)]), Part(Symbol('+'), [Point(5, 5)]), Part(Number(58), [Point(7, 5), Point(8, 5)]), Part(Number(592), [Point(2, 6), Point(3, 6), Point(4, 6)])], [Part(Number(467), [Point(0, 0), Point(1, 0), Point(2, 0)]), Part(Number(114), [Point(5, 0), Point(6, 0), Point(7, 0)]), Part(Symbol('*'), [Point(3, 1)]), Part(Number(35), [Point(2, 2), Point(3, 2)]), Part(Number(633), [Point(6, 2), Point(7, 2), Point(8, 2)]), Part(Symbol('#'), [Point(6, 3)]), Part(Number(617), [Point(0, 4), Point(1, 4), Point(2, 4)]), Part(Symbol('*'), [Point(3, 4)]), Part(Symbol('+'), [Point(5, 5)]), Part(Number(58), [Point(7, 5), Point(8, 5)]), Part(Number(592), [Point(2, 6), Point(3, 6), Point(4, 6)])]);
  }

  lemma SampleRow7At1(start: seq<Part>, row: string)
    requires 1 < |row| && row[1] == '.'
    requires ScanRow(start, row[..1], 7) == [Part(Number(467), [Point(0, 0), Point(1, 0), Point(2, 0)]), Part(Number(114), [Point(5, 0), Point(6, 0), Point(7, 0)]), Part(Symbol('*'), [Point(3, 1)]), Part(Number(35), [Point(2, 2), Point(3, 2)]), Part(Number(633), [Point(6, 2), Point(7, 2), Point(8, 2)]), Part(Symbol('#'), [Point(6, 3)]), Part(Number(617), [Point(0, 4), Point(1, 4), Point(2, 4)]), Part(Symbol('*'), [Point(3, 4)]), Part(Symbol('+'), [Point(5, 5)]), Part(Number(58), [Point(7, 5), Point(8, 5)]), Part(Number(592), [Point(2, 6), Point(3, 6), Point(4, 6)])]
    ensures ScanRow(start, row[..2], 7) == [Part(Number(467), [Point(0, 0), Point(1, 0), Point(2, 0)]), Part(Number(114), [Point(5, 0), Point(6, 0), Point(7, 0)]), Part(Symbol('*'), [Point(3, 1)]), Part(Number(35), [Point(2, 2), Point(3, 2)]), Part(Number(633), [Point(6, 2), Point(7, 2), Point(8, 2)]), Part(Symbol('#'), [Point(6, 3)]), Part(Number(617), [Point(0, 4), Point(1, 4), Point(2, 4)]), Part(Symbol('*'), [Point(3, 4)]), Part(Symbol('+'), [Point(5, 5)]), Part(Number(58), [Point(7, 5), Point(8, 5)]), Part(Number(592), [Point(2, 6), Point(3, 6), Point(4, 6)])]
  {
    StepSkip([Part(Number(467), [Point(0, 0), Point(1, 0), Point(2, 0)]), Part(Number(114), [Point(5, 0), Point(6, 0), Point(7, 0)]), Part(Symbol('*'), [Point(3, 1)]), Part(Number(35), [Point(2, 2), Point(3, 2)]), Part(Number(633), [Point(6, 2), Point(7, 2), Point(8, 2)]), Part(Symbol('#'), [Point(6, 3)]), Part(Number(617), [Point(0, 4), Point(1, 4), Point(2, 4)]), Part(Symbol('*'), [Point(3, 4)]), Part(Symbol('+'), [Point(5, 5)]), Part(Number(58), [Point(7, 5), Point(8, 5)]), Part(Number(592), [Point(2, 6), Point(3, 6), Point(4, 6)])], 1, 7, [Part(Number(467), [Point(0, 0), Point(1, 0), Point(2, 0)]), Part(Number(114), [Point(5, 0), Point(6, 0), Point(7, 0)]), Part(Symbol('*'), [Point(3, 1)]), Part(Number(35), [Point(2, 2), Point(3, 2)]), Part(Number(633), [Point(6, 2), Point(7, 2), Point(8, 2)]), Part(Symbol('#'), [Point(6, 3)]), Part(Number(617), [Point(0, 4), Point(1, 4), Point(2, 4)]), Part(Symbol('*'), [Point(3, 4)]), Part(Symbol('+'), [Point(5, 5)]), Part(Number(58), [Point(7, 5), Point(8, 5)]), Part(Number(592), [Point(2, 6), Point(3, 6), Point(4, 6)])]);
    ScanRowAdvance(start, row, 7, 1, '.', [Part(Number(467), [Point(0, 0), Point(1, 0), Point(2, 0)]), Part(Number(114), [Point(5, 0), Point(6, 0), Point(7, 0)]), Part(Symbol('*'), [Point(3, 1)]), Part(Number(35), [Point(2, 2), Point(3, 2)]), Part(Number(633), [Point(6, 2), Point(7, 2), Point(8, 2)]), Part(Symbol('#'), [Point(6, 3)]), Part(Number(617), [Point(0, 4), Point(1, 4), Point(2, 4)]), Part(Symbol('*'), [Point(3, 4)]), Part(Symbol('+'), [Point(5, 5)]), Part(Number(58), [Point(7, 5), Point(8, 5)]), Part(Number(592), [Point(2, 6), Point(3, 6), Point(4, 6)])], [Part(Number(467), [Point(0, 0), Point(1, 0), Point(2, 0)]), Part(Number(114), [Point(5, 0), Point(6, 0), Point(7, 0)]), Part(Symbol('*'), [Point(3, 1)]), Part(Number(35), [Point(2, 2), Point(3, 2)]), Part(Number(633), [Point(6, 2), Point(7, 2), Point(8, 2)]), Part(Symbol('#'), [Point(6, 3)]), Part(Number(617), [Point(0, 4), Point(1, 4), Point(2, 4)]), Part(Symbol('*'), [Point(3, 4)]), Part(Symbol('+'), [Point(5, 5)]), Part(Number(58), [Point(7, 5), Point(8, 5)]), Part(Number(592), [Point(2, 6), Point(3, 6), Point(4, 6)])]);
  }

  lemma SampleRow7At2(start: seq<Part>, row: string)
    requires 2 < |row| && row[2] == '.'
    requires ScanRow(start, row[..2], 7) == [Part(Number(467), [Point(0, 0), Point(1, 0), Point(2, 0)]), Part(Number(114), [Point(5, 0), Point(6, 0), Point(7, 0)]), Part(Symbol('*'), [Point(3, 1)]), Part(Number(35), [Point(2, 2), Point(3, 2)]), Part(Number(633), [Point(6, 2), Point(7, 2), Point(8, 2)]), Part(Symbol('#'), [Point(6, 3)]), Part(Number(617), [Point(0, 4), Point(1, 4), Point(2, 4)]), Part(Symbol('*'), [Point(3, 4)]), Part(Symbol('+'), [Point(5, 5)]), Part(Number(58), [Point(7, 5), Point(8, 5)]), Part(Number(592), [Point(2, 6), Point(3, 6), Point(4, 6)])]
    ensures ScanRow(start, row[..3], 7) == [Part(Number(467), [Point(0, 0), Point(1, 0), Point(2, 0)]), Part(Number(114), [Point(5, 0), Point(6, 0), Point(7, 0)]), Part(Symbol('*'), [Point(3, 1)]), Part(Number(35), [Point(2, 2), Point(3, 2)]), Part(Number(633), [Point(6, 2), Point(7, 2), Point(8, 2)]), Part(Symbol('#'), [Point(6, 3)]), Part(Number(617), [Point(0, 4), Point(1, 4), Point(2, 4)]), Part(Symbol('*'), [Point(3, 4)]), Part(Symbol('+'), [Point(5, 5)]), Part(Number(58), [Point(7, 5), Point(8, 5)]), Part(Number(592), [Point(2, 6), Point(3, 6), Point(4, 6)])]
  {
    StepSkip([Part(Number(467), [Point(0, 0), Point(1, 0), Point(2, 0)]), Part(Number(114), [Point(5, 0), Point(6, 0), Point(7, 0)]), Part(Symbol('*'), [Point(3, 1)]), Part(Number(35), [Point(2, 2), Point(3, 2)]), Part(Number(633), [Point(6, 2), Point(7, 2), Point(8, 2)]), Part(Symbol('#'), [Point(6, 3)]), Part(Number(617), [Point(0, 4), Point(1, 4), Point(2, 4)]), Part(Symbol('*'), [Point(3, 4)]), Part(Symbol('+'), [Point(5, 5)]), Part(Number(58), [Point(7, 5), Point(8, 5)]), Part(Number(592), [Point(2, 6), Point(3, 6), Point(4, 6)])], 2, 7, [Part(Number(467), [Point(0, 0), Point(1, 0), Point(2, 0)]), Part(Number(114), [Point(5, 0), Point(6, 0), Point(7, 0)]), Part(Symbol('*'), [Point(3, 1)]), Part(Number(35), [Point(2, 2), Point(3, 2)]), Part(Number(633), [Point(6, 2), Point(7, 2), Point(8, 2)]), Part(Symbol('#'), [Point(6, 3)]), Part(Number(617), [Point(0, 4), Point(1, 4), Point(2, 4)]), Part(Symbol('*'), [Point(3, 4)]), Part(Symbol('+'), [Point(5, 5)]), Part(Number(58), [Point(7, 5), Point(8, 5)]), Part(Number(592), [Point(2, 6), Point(3, 6), Point(4, 6)])]);
    ScanRowAdvance(start, row, 7, 2, '.', [Part(Number(467), [Point(0, 0), Point(1, 0), Point(2, 0)]), Part(Number(114), [Point(5, 0), Point(6, 0), Point(7, 0)]), Part(Symbol('*'), [Point(3, 1)]), Part(Number(35), [Point(2, 2), Point(3, 2)]), Part(Number(633), [Point(6, 2), Point(7, 2), Point(8, 2)]), Part(Symbol('#'), [Point(6, 3)]), Part(Number(617), [Point(0, 4), Point(1, 4), Point(2, 4)]), Part(Symbol('*'), [Point(3, 4)]), Part(Symbol('+'), [Point(5, 5)]), Part(Number(58), [Point(7, 5), Point(8, 5)]), Part(Number(592), [Point(2, 6), Point(3, 6), Point(4, 6)])], [Part(Number(467), [Point(0, 0), Point(1, 0), Point(2, 0)]), Part(Number(114), [Point(5, 0), Point(6, 0), Point(7, 0)]), Part(Symbol('*'), [Point(3, 1)]), Part(Number(35), [Point(2, 2), Point(3, 2)]), Part(Number(633), [Point(6, 2), Point(7, 2), Point(8, 2)]), Part(Symbol('#'), [Point(6, 3)]), Part(Number(617), [Point(0, 4), Point(1, 4), Point(2, 4)]), Part(Symbol('*'), [Point(3, 4)]), Part(Symbol('+'), [Point(5, 5)]), Part(Number(58), [Point(7, 5), Point(8, 5)]), Part(Number(592), [Point(2, 6), Point(3, 6), Point(4, 6)])]);
  }

  lemma SampleRow7At3(start: seq<Part>, row: string)
    requires 3 < |row| && row[3] == '.'
    requires ScanRow(start, row[..3], 7) == [Part(Number(467), [Point(0, 0), Point(1, 0), Point(2, 0)]), Part(Number(114), [Point(5, 0), Point(6, 0), Point(7, 0)]), Part(Symbol('*'), [Point(3, 1)]), Part(Number(35), [Point(2, 2), Point(3, 2)]), Part(Number(633), [Point(6, 2), Point(7, 2), Point(8, 2)]), Part(Symbol('#'), [Point(6, 3)]), Part(Number(617), [Point(0, 4), Point(1, 4), Point(2, 4)]), Part(Symbol('*'), [Point(3, 4)]), Part(Symbol('+'), [Point(5, 5)]), Part(Number(58), [Point(7, 5), Point(8, 5)]), Part(Number(592), [Point(2, 6), Point(3, 6), Point(4, 6)])]
    ensures ScanRow(start, row[..4], 7) == [Part(Number(467), [Point(0, 0), Point(1, 0), Point(2, 0)]), Part(Number(114), [Point(5, 0), Point(6, 0), Point(7, 0)]), Part(Symbol('*'), [Point(3, 1)]), Part(Number(35), [Point(2, 2), Point(3, 2)]), Part(Number(633), [Point(6, 2), Point(7, 2), Point(8, 2)]), Part(Symbol('#'), [Point(6, 3)]), Part(Number(617), [Point(0, 4), Point(1, 4), Point(2, 4)]), Part(Symbol('*'), [Point(3, 4)]), Part(Symbol('+'), [Point(5, 5)]), Part(Number(58), [Point(7, 5), Point(8, 5)]), Part(Number(592), [Point(2, 6), Point(3, 6), Point(4, 6)])]
  {
    StepSkip([Part(Number(467), [Point(0, 0), Point(1, 0), Point(2, 0)]), Part(Number(114), [Point(5, 0), Point(6, 0), Point(7, 0)]), Part(Symbol('*'), [Point(3, 1)]), Part(Number(35), [Point(2, 2), Point(3, 2)]), Part(Number(633), [Point(6, 2), Point(7, 2), Point(8, 2)]), Part(Symbol('#'), [Point(6, 3)]), Part(Number(617), [Point(0, 4), Point(1, 4), Point(2, 4)]), Part(Symbol('*'), [Point(3, 4)]), Part(Symbol('+'), [Point(5, 5)]), Part(Number(58), [Point(7, 5), Point(8, 5)]), Part(Number(592), [Point(2, 6), Point(3, 6), Point(4, 6)])], 3, 7, [Part(Number(467), [Point(0, 0), Point(1, 0), Point(2, 0)]), Part(Number(114), [Point(5, 0), Point(6, 0), Point(7, 0)]), Part(Symbol('*'), [Point(3, 1)]), Part(Number(35), [Point(2, 2), Point(3, 2)]), Part(Number(633), [Point(6, 2), Point(7, 2), Point(8, 2)]), Part(Symbol('#'), [Point(6, 3)]), Part(Number(617), [Point(0, 4), Point(1, 4), Point(2, 4)]), Part(Symbol('*'), [Point(3, 4)]), Part(Symbol('+'), [Point(5, 5)]), Part(Number(58), [Point(7, 5), Point(8, 5)]), Part(Number(592), [Point(2, 6), Point(3, 6), Point(4, 6)])]);
    ScanRowAdvance(start, row, 7, 3, '.', [Part(Number(467), [Point(0, 0), Point(1, 0), Point(2, 0)]), Part(Number(114), [Point(5, 0), Point(6, 0), Point(7, 0)]), Part(Symbol('*'), [Point(3, 1)]), Part(Number(35), [Point(2, 2), Point(3, 2)]), Part(Number(633), [Point(6, 2), Point(7, 2), Point(8, 2)]), Part(Symbol('#'), [Point(6, 3)]), Part(Number(617), [Point(0, 4), Point(1, 4), Point(2, 4)]), Part(Symbol('*'), [Point(3, 4)]), Part(Symbol('+'), [Point(5, 5)]), Part(Number(58), [Point(7, 5), Point(8, 5)]), Part(Number(592), [Point(2, 6), Point(3, 6), Point(4, 6)])], [Part(Number(467), [Point(0, 0), Point(1, 0), Point(2, 0)]), Part(Number(114), [Point(5, 0), Point(6, 0), Point(7, 0)]), Part(Symbol('*'), [Point(3, 1)]), Part(Number(35), [Point(2, 2), Point(3, 2)]), Part(Number(633), [Point(6, 2), Point(7, 2), Point(8, 2)]), Part(Symbol('#'), [Point(6, 3)]), Part(Number(617), [Point(0, 4), Point(1, 4), Point(2, 4)]), Part(Symbol('*'), [Point(3, 4)]), Part(Symbol('+'), [Point(5, 5)]), Part(Number(58), [Point(7, 5), Point(8, 5)]), Part(Number(592), [Point(2, 6), Point(3, 6), Point(4, 6)])]);
  }

  lemma SampleRow7At4(start: seq<Part>, row: string)
    requires 4 < |row| && row[4] == '.'
    requires ScanRow(start, row[..4], 7) == [Part(Number(467), [Point(0, 0), Point(1, 0), Point(2, 0)]), Part(Number(114), [Point(5, 0), Point(6, 0), Point(7, 0)]), Part(Symbol('*'), [Point(3, 1)]), Part(Number(35), [Point(2, 2), Point(3, 2)]), Part(Number(633), [Point(6, 2), Point(7, 2), Point(8, 2)]), Part(Symbol('#'), [Point(6, 3)]), Part(Number(617), [Point(0, 4), Point(1, 4), Point(2, 4)]), Part(Symbol('*'), [Point(3, 4)]), Part(Symbol('+'), [Point(5, 5)]), Part(Number(58), [Point(7, 5), Point(8, 5)]), Part(Number(592), [Point(2, 6), Point(3, 6), Point(4, 6)])]
    ensures ScanRow(start, row[..5], 7) == [Part(Number(467), [Point(0, 0), Point(1, 0), Point(2, 0)]), Part(Number(114), [Point(5, 0), Point(6, 0), Point(7, 0)]), Part(Symbol('*'), [Point(3, 1)]), Part(Number(35), [Point(2, 2), Point(3, 2)]), Part(Number(633), [Point(6, 2), Point(7, 2), Point(8, 2)]), Part(Symbol('#'), [Point(6, 3)]), Part(Number(617), [Point(0, 4), Point(1, 4), Point(2, 4)]), Part(Symbol('*'), [Point(3, 4)]), Part(Symbol('+'), [Point(5, 5)]), Part(Number(58), [Point(7, 5), Point(8, 5)]), Part(Number(592), [Point(2, 6), Point(3, 6), Point(4, 6)])]
  {
    StepSkip([Part(Number(467), [Point(0, 0), Point(1, 0), Point(2, 0)]), Part(Number(114), [Point(5, 0), Point(6, 0), Point(7, 0)]), Part(Symbol('*'), [Point(3, 1)]), Part(Number(35), [Point(2, 2), Point(3, 2)]), Part(Number(633), [Point(6, 2), Point(7, 2), Point(8, 2)]), Part(Symbol('#'), [Point(6, 3)]), Part(Number(617), [Point(0, 4), Point(1, 4), Point(2, 4)]), Part(Symbol('*'), [Point(3, 4)]), Part(Symbol('+'), [Point(5, 5)]), Part(Number(58), [Point(7, 5), Point(8, 5)]), Part(Number(592), [Point(2, 6), Point(3, 6), Point(4, 6)])], 4, 7, [Part(Number(467), [Point(0, 0), Point(1, 0), Point(2, 0)]), Part(Number(114), [Point(5, 0), Point(6, 0), Point(7, 0)]), Part(Symbol('*'), [Point(3, 1)]), Part(Number(35), [Point(2, 2), Point(3, 2)]), Part(Number(633), [Point(6, 2), Point(7, 2), Point(8, 2)]), Part(Symbol('#'), [Point(6, 3)]), Part(Number(617), [Point(0, 4), Point(1, 4), Point(2, 4)]), Part(Symbol('*'), [Point(3, 4)]), Part(Symbol('+'), [Point(5, 5)]), Part(Number(58), [Point(7, 5), Point(8, 5)]), Part(Number(592), [Point(2, 6), Point(3, 6), Point(4, 6)])]);
    ScanRowAdvance(start, row, 7, 4, '.', [Part(Number(467), [Point(0, 0), Point(1, 0), Point(2, 0)]), Part(Number(114), [Point(5, 0), Point(6, 0), Point(7, 0)]), Part(Symbol('*'), [Point(3, 1)]), Part(Number(35), [Point(2, 2), Point(3, 2)]), Part(Number(633), [Point(6, 2), Point(7, 2), Point(8, 2)]), Part(Symbol('#'), [Point(6, 3)]), Part(Number(617), [Point(0, 4), Point(1, 4), Point(2, 4)]), Part(Symbol('*'), [Point(3, 4)]), Part(Symbol('+'), [Point(5, 5)]), Part(Number(58), [Point(7, 5), Point(8, 5)]), Part(Number(592), [Point(2, 6), Point(3, 6), Point(4, 6)])], [Part(Number(467), [Point(0, 0), Point(1, 0), Point(2, 0)]), Part(Number(114), [Point(5, 0), Point(6, 0), Point(7, 0)]), Part(Symbol('*'), [Point(3, 1)]), Part(Number(35), [Point(2, 2), Point(3, 2)]), Part(Number(633), [Point(6, 2), Point(7, 2), Point(8, 2)]), Part(Symbol('#'), [Point(6, 3)]), Part(Number(617), [Point(0, 4), Point(1, 4), Point(2, 4)]), Part(Symbol('*'), [Point(3, 4)]), Part(Symbol('+'), [Point(5, 5)]), Part(Number(58), [Point(7, 5), Point(8, 5)]), Part(Number(592), [Point(2, 6), Point(3, 6), Point(4, 6)])]);
  }

  lemma SampleRow7At5(start: seq<Part>, row: string)
    requires 5 < |row| && row[5] == '.'
    requires ScanRow(start, row[..5], 7) == [Part(Number(467), [Point(0, 0), Point(1, 0), Point(2, 0)]), Part(Number(114), [Point(5, 0), Point(6, 0), Point(7, 0)]), Part(Symbol('*'), [Point(3, 1)]), Part(Number(35), [Point(2, 2), Point(3, 2)]), Part(Number(633), [Point(6, 2), Point(7, 2), Point(8, 2)]), Part(Symbol('#'), [Point(6, 3)]), Part(Number(617), [Point(0, 4), Point(1, 4), Point(2, 4)]), Part(Symbol('*'), [Point(3, 4)]), Part(Symbol('+'), [Point(5, 5)]), Part(Number(58), [Point(7, 5), Point(8, 5)]), Part(Number(592), [Point(2, 6), Point(3, 6), Point(4, 6)])]
    ensures ScanRow(start, row[..6], 7) == [Part(Number(467), [Point(0, 0), Point(1, 0), Point(2, 0)]), Part(Number(114), [Point(5, 0), Point(6, 0), Point(7, 0)]), Part(Symbol('*'), [Point(3, 1)]), Part(Number(35), [Point(2, 2), Point(3, 2)]), Part(Number(633), [Point(6, 2), Point(7, 2), Point(8, 2)]), Part(Symbol('#'), [Point(6, 3)]), Part(Number(617), [Point(0, 4), Point(1, 4), Point(2, 4)]), Part(Symbol('*'), [Point(3, 4)]), Part(Symbol('+'), [Point(5, 5)]), Part(Number(58), [Point(7, 5), Point(8, 5)]), Part(Number(592), [Point(2, 6), Point(3, 6), Point(4, 6)])]
  {
    StepSkip([Part(Number(467), [Point(0, 0), Point(1, 0), Point(2, 0)]), Part(Number(114), [Point(5, 0), Point(6, 0), Point(7, 0)]), Part(Symbol('*'), [Point(3, 1)]), Part(Number(35), [Point(2, 2), Point(3, 2)]), Part(Number(633), [Point(6, 2), Point(7, 2), Point(8, 2)]), Part(Symbol('#'), [Point(6, 3)]), Part(Number(617), [Point(0, 4), Point(1, 4), Point(2, 4)]), Part(Symbol('*'), [Point(3, 4)]), Part(Symbol('+'), [Point(5, 5)]), Part(Number(58), [Point(7, 5), Point(8, 5)]), Part(Number(592), [Point(2, 6), Point(3, 6), Point(4, 6)])], 5, 7, [Part(Number(467), [Point(0, 0), Point(1, 0), Point(2, 0)]), Part(Number(114), [Point(5, 0), Point(6, 0), Point(7, 0)]), Part(Symbol('*'), [Point(3, 1)]), Part(Number(35), [Point(2, 2), Point(3, 2)]), Part(Number(633), [Point(6, 2), Point(7, 2), Point(8, 2)]), Part(Symbol('#'), [Point(6, 3)]), Part(Number(617), [Point(0, 4), Point(1, 4), Point(2, 4)]), Part(Symbol('*'), [Point(3, 4)]), Part(Symbol('+'), [Point(5, 5)]), Part(Number(58), [Point(7, 5), Point(8, 5)]), Part(Number(592), [Point(2, 6), Point(3, 6), Point(4, 6)])]);
    ScanRowAdvance(start, row, 7, 5, '.', [Part(Number(467), [Point(0, 0), Point(1, 0), Point(2, 0)]), Part(Number(114), [Point(5, 0), Point(6, 0), Point(7, 0)]), Part(Symbol('*'), [Point(3, 1)]), Part(Number(35), [Point(2, 2), Point(3, 2)]), Part(Number(633), [Point(6, 2), Point(7, 2), Point(8, 2)]), Part(Symbol('#'), [Point(6, 3)]), Part(Number(617), [Point(0, 4), Point(1, 4), Point(2, 4)]), Part(Symbol('*'), [Point(3, 4)]), Part(Symbol('+'), [Point(5, 5)]), Part(Number(58), [Point(7, 5), Point(8, 5)]), Part(Number(592), [Point(2, 6), Point(3, 6), Point(4, 6)])], [Part(Number(467), [Point(0, 0), Point(1, 0), Point(2, 0)]), Part(Number(114), [Point(5, 0), Point(6, 0), Point(7, 0)]), Part(Symbol('*'), [Point(3, 1)]), Part(Number(35), [Point(2, 2), Point(3, 2)]), Part(Number(633), [Point(6, 2), Point(7, 2), Point(8, 2)]), Part(Symbol('#'), [Point(6, 3)]), Part(Number(617), [Point(0, 4), Point(1, 4), Point(2, 4)]), Part(Symbol('*'), [Point(3, 4)]), Part(Symbol('+'), [Point(5, 5)]), Part(Number(58), [Point(7, 5), Point(8, 5)]), Part(Number(592), [Point(2, 6), Point(3, 6), Point(4, 6)])]);
  }

  lemma SampleRow7At6(start: seq<Part>, row: string)
    requires 6 < |row| && row[6] == '7'
    requires ScanRow(start, row[..6], 7) == [Part(Number(467), [Point(0, 0), Point(1, 0), Point(2, 0)]), Part(Number(114), [Point(5, 0), Point(6, 0), Point(7, 0)]), Part(Symbol('*'), [Point(3, 1)]), Part(Number(35), [Point(2, 2), Point(3, 2)]), Part(Number(633), [Point(6, 2), Point(7, 2), Point(8, 2)]), Part(Symbol('#'), [Point(6, 3)]), Part(Number(617), [Point(0, 4), Point(1, 4), Point(2, 4)]), Part(Symbol('*'), [Point(3, 4)]), Part(Symbol('+'), [Point(5, 5)]), Part(Number(58), [Point(7, 5), Point(8, 5)]), Part(Number(592), [Point(2, 6), Point(3, 6), Point(4, 6)])]
    ensures ScanRow(start, row[..7], 7) == [Part(Number(467), [Point(0, 0), Point(1, 0), Point(2, 0)]), Part(Number(114), [Point(5, 0), Point(6, 0), Point(7, 0)]), Part(Symbol('*'), [Point(3, 1)]), Part(Number(35), [Point(2, 2), Point(3, 2)]), Part(Number(633), [Point(6, 2), Point(7, 2), Point(8, 2)]), Part(Symbol('#'), [Point(6, 3)]), Part(Number(617), [Point(0, 4), Point(1, 4), Point(2, 4)]), Part(Symbol('*'), [Point(3, 4)]), Part(Symbol('+'), [Point(5, 5)]), Part(Number(58), [Point(7, 5), Point(8, 5)]), Part(Number(592), [Point(2, 6), Point(3, 6), Point(4, 6)]), Part(Number(7), [Point(6, 7)])]
  {
    StepStart([Part(Number(467), [Point(0, 0), Point(1, 0), Point(2, 0)]), Part(Number(114), [Point(5, 0), Point(6, 0), Point(7, 0)]), Part(Symbol('*'), [Point(3, 1)]), Part(Number(35), [Point(2, 2), Point(3, 2)]), Part(Number(633), [Point(6, 2), Point(7, 2), Point(8, 2)]), Part(Symbol('#'), [Point(6, 3)]), Part(Number(617), [Point(0, 4), Point(1, 4), Point(2, 4)]), Part(Symbol('*'), [Point(3, 4)]), Part(Symbol('+'), [Point(5, 5)]), Part(Number(58), [Point(7, 5), Point(8, 5)]), Part(Number(592), [Point(2, 6), Point(3, 6), Point(4, 6)])], 6, 7, '7', 7, [Part(Number(467), [Point(0, 0), Point(1, 0), Point(2, 0)]), Part(Number(114), [Point(5, 0), Point(6, 0), Point(7, 0)]), Part(Symbol('*'), [Point(3, 1)]), Part(Number(35), [Point(2, 2), Point(3, 2)]), Part(Number(633), [Point(6, 2), Point(7, 2), Point(8, 2)]), Part(Symbol('#'), [Point(6, 3)]), Part(Number(617), [Point(0, 4), Point(1, 4), Point(2, 4)]), Part(Symbol('*'), [Point(3, 4)]), Part(Symbol('+'), [Point(5, 5)]), Part(Number(58), [Point(7, 5), Point(8, 5)]), Part(Number(592), [Point(2, 6), Point(3, 6), Point(4, 6)]), Part(Number(7), [Point(6, 7)])]);
    ScanRowAdvance(start, row, 7, 6, '7', [Part(Number(467), [Point(0, 0), Point(1, 0), Point(2, 0)]), Part(Number(114), [Point(5, 0), Point(6, 0), Point(7, 0)]), Part(Symbol('*'), [Point(3, 1)]), Part(Number(35), [Point(2, 2), Point(3, 2)]), Part(Number(633), [Point(6, 2), Point(7, 2), Point(8, 2)]), Part(Symbol('#'), [Point(6, 3)]), Part(Number(617), [Point(0, 4), Point(1, 4), Point(2, 4)]), Part(Symbol('*'), [Point(3, 4)]), Part(Symbol('+'), [Point(5, 5)]), Part(Number(58), [Point(7, 5), Point(8, 5)]), Part(Number(592), [Point(2, 6), Point(3, 6), Point(4, 6)])], [Part(Number(467), [Point(0, 0), Point(1, 0), Point(2, 0)]), Part(Number(114), [Point(5, 0), Point(6, 0), Point(7, 0)]), Part(Symbol('*'), [Point(3, 1)]), Part(Number(35), [Point(2, 2), Point(3, 2)]), Part(Number(633), [Point(6, 2), Point(7, 2), Point(8, 2)]), Part(Symbol('#'), [Point(6, 3)]), Part(Number(617), [Point(0, 4), Point(1, 4), Point(2, 4)]), Part(Symbol('*'), [Point(3, 4)]), Part(Symbol('+'), [Point(5, 5)]), Part(Number(58), [Point(7, 5), Point(8, 5)]), Part(Number(592), [Point(2, 6), Point(3, 6), Point(4, 6)]), Part(Number(7), [Point(6, 7)])]);
  }

  lemma SampleRow7At7(start: seq<Part>, row: string)
    requires 7 < |row| && row[7] == '5'
    requires ScanRow(start, row[..7], 7) == [Part(Number(467), [Point(0, 0), Point(1, 0), Point(2, 0)]), Part(Number(114), [Point(5, 0), Point(6, 0), Point(7, 0)]), Part(Symbol('*'), [Point(3, 1)]), Part(Number(35), [Point(2, 2), Point(3, 2)]), Part(Number(633), [Point(6, 2), Point(7, 2), Point(8, 2)]), Part(Symbol('#'), [Point(6, 3)]), Part(Number(617), [Point(0, 4), Point(1, 4), Point(2, 4)]), Part(Symbol('*'), [Point(3, 4)]), Part(Symbol('+'), [Point(5, 5)]), Part(Number(58), [Point(7, 5), Point(8, 5)]), Part(Number(592), [Point(2, 6), Point(3, 6), Point(4, 6)]), Part(Number(7), [Point(6, 7)])]
    ensures ScanRow(start, row[..8], 7) == [Part(Number(467), [Point(0, 0), Point(1, 0), Point(2, 0)]), Part(Number(114), [Point(5, 0), Point(6, 0), Point(7, 0)]), Part(Symbol('*'), [Point(3, 1)]), Part(Number(35), [Point(2, 2), Point(3, 2)]), Part(Number(633), [Point(6, 2), Point(7, 2), Point(8, 2)]), Part(Symbol('#'), [Point(6, 3)]), Part(Number(617), [Point(0, 4), Point(1, 4), Point(2, 4)]), Part(Symbol('*'), [Point(3, 4)]), Part(Symbol('+'), [Point(5, 5)]), Part(Number(58), [Point(7, 5), Point(8, 5)]), Part(Number(592), [Point(2, 6), Point(3, 6), Point(4, 6)]), Part(Number(75), [Point(6, 7), Point(7, 7)])]
  {
    StepExtend([Part(Number(467), [Point(0, 0), Point(1, 0), Point(2, 0)]), Part(Number(114), [Point(5, 0), Point(6, 0), Point(7, 0)]), Part(Symbol('*'), [Point(3, 1)]), Part(Number(35), [Point(2, 2), Point(3, 2)]), Part(Number(633), [Point(6, 2), Point(7, 2), Point(8, 2)]), Part(Symbol('#'), [Point(6, 3)]), Part(Number(617), [Point(0, 4), Point(1, 4), Point(2, 4)]), Part(Symbol('*'), [Point(3, 4)]), Part(Symbol('+'), [Point(5, 5)]), Part(Number(58), [Point(7, 5), Point(8, 5)]), Part(Number(592), [Point(2, 6), Point(3, 6), Point(4, 6)]), Part(Number(7), [Point(6, 7)])], [Part(Number(467), [Point(0, 0), Point(1, 0), Point(2, 0)]), Part(Number(114), [Point(5, 0), Point(6, 0), Point(7, 0)]), Part(Symbol('*'), [Point(3, 1)]), Part(Number(35), [Point(2, 2), Point(3, 2)]), Part(Number(633), [Point(6, 2), Point(7, 2), Point(8, 2)]), Part(Symbol('#'), [Point(6, 3)]), Part(Number(617), [Point(0, 4), Point(1, 4), Point(2, 4)]), Part(Symbol('*'), [Point(3, 4)]), Part(Symbol('+'), [Point(5, 5)]), Part(Number(58), [Point(7, 5), Point(8, 5)]), Part(Number(592), [Point(2, 6), Point(3, 6), Point(4, 6)])], 7, [Point(6, 7)], 7, 7, '5', 75, [Point(6, 7), Point(7, 7)], [Part(Number(467), [Point(0, 0), Point(1, 0), Point(2, 0)]), Part(Number(114), [Point(5, 0), Point(6, 0), Point(7, 0)]), Part(Symbol('*'), [Point(3, 1)]), Part(Number(35), [Point(2, 2), Point(3, 2)]), Part(Number(633), [Point(6, 2), Point(7, 2), Point(8, 2)]), Part(Symbol('#'), [Point(6, 3)]), Part(Number(617), [Point(0, 4), Point(1, 4), Point(2, 4)]), Part(Symbol('*'), [Point(3, 4)]), Part(Symbol('+'), [Point(5, 5)]), Part(Number(58), [Point(7, 5), Point(8, 5)]), Part(Number(592), [Point(2, 6), Point(3, 6), Point(4, 6)]), Part(Number(75), [Point(6, 7), Point(7, 7)])]);
    ScanRowAdvance(start, row, 7, 7, '5', [Part(Number(467), [Point(0, 0), Point(1, 0), Point(2, 0)]), Part(Number(114), [Point(5, 0), Point(6, 0), Point(7, 0)]), Part(Symbol('*'), [Point(3, 1)]), Part(Number(35), [Point(2, 2), Point(3, 2)]), Part(Number(633), [Point(6, 2), Point(7, 2), Point(8, 2)]), Part(Symbol('#'), [Point(6, 3)]), Part(Number(617), [Point(0, 4), Point(1, 4), Point(2, 4)]), Part(Symbol('*'), [Point(3, 4)]), Part(Symbol('+'), [Point(5, 5)]), Part(Number(58), [Point(7, 5), Point(8, 5)]), Part(Number(592), [Point(2, 6), Point(3, 6), Point(4, 6)]), Part(Number(7), [Point(6, 7)])], [Part(Number(467), [Point(0, 0), Point(1, 0), Point(2, 0)]), Part(Number(114), [Point(5, 0), Point(6, 0), Point(7, 0)]), Part(Symbol('*'), [Point(3, 1)]), Part(Number(35), [Point(2, 2), Point(3, 2)]), Part(Number(633), [Point(6, 2), Point(7, 2), Point(8, 2)]), Part(Symbol('#'), [Point(6, 3)]), Part(Number(617), [Point(0, 4), Point(1, 4), Point(2, 4)]), Part(Symbol('*'), [Point(3, 4)]), Part(Symbol('+'), [Point(5, 5)]), Part(Number(58), [Point(7, 5), Point(8, 5)]), Part(Number(592), [Point(2, 6), Point(3, 6), Point(4, 6)]), Part(Number(75), [Point(6, 7), Point(7, 7)])]);
  }

  lemma SampleRow7At8(start: seq<Part>, row: string)
    requires 8 < |row| && row[8] == '5'
    requires ScanRow(start, row[..8], 7) == [Part(Number(467), [Point(0, 0), Point(1, 0), Point(2, 0)]), Part(Number(114), [Point(5, 0), Point(6, 0), Point(7, 0)]), Part(Symbol('*'), [Point(3, 1)]), Part(Number(35), [Point(2, 2), Point(3, 2)]), Part(Number(633), [Point(6, 2), Point(7, 2), Point(8, 2)]), Part(Symbol('#'), [Point(6, 3)]), Part(Number(617), [Point(0, 4), Point(1, 4), Point(2, 4)]), Part(Symbol('*'), [Point(3, 4)]), Part(Symbol('+'), [Point(5, 5)]), Part(Number(58), [Point(7, 5), Point(8, 5)]), Part(Number(592), [Point(2, 6), Point(3, 6), Point(4, 6)]), Part(Number(75), [Point(6, 7), Point(7, 7)])]
    ensures ScanRow(start, row[..9], 7) == [Part(Number(467), [Point(0, 0), Point(1, 0), Point(2, 0)]), Part(Number(114), [Point(5, 0), Point(6, 0), Point(7, 0)]), Part(Symbol('*'), [Point(3, 1)]), Part(Number(35), [Point(2, 2), Point(3, 2)]), Part(Number(633), [Point(6, 2), Point(7, 2), Point(8, 2)]), Part(Symbol('#'), [Point(6, 3)]), Part(Number(617), [Point(0, 4), Point(1, 4), Point(2, 4)]), Part(Symbol('*'), [Point(3, 4)]), Part(Symbol('+'), [Point(5, 5)]), Part(Number(58), [Point(7, 5), Point(8, 5)]), Part(Number(592), [Point(2, 6), Point(3, 6), Point(4, 6)]), Part(Number(755), [Point(6, 7), Point(7, 7), Point(8, 7)])]
  {
    StepExtend([Part(Number(467), [Point(0, 0), Point(1, 0), Point(2, 0)]), Part(Number(114), [Point(5, 0), Point(6, 0), Point(7, 0)]), Part(Symbol('*'), [Point(3, 1)]), Part(Number(35), [Point(2, 2), Point(3, 2)]), Part(Number(633), [Point(6, 2), Point(7, 2), Point(8, 2)]), Part(Symbol('#'), [Point(6, 3)]), Part(Number(617), [Point(0, 4), Point(1, 4), Point(2, 4)]), Part(Symbol('*'), [Point(3, 4)]), Part(Symbol('+'), [Point(5, 5)]), Part(Number(58), [Point(7, 5), Point(8, 5)]), Part(Number(592), [Point(2, 6), Point(3, 6), Point(4, 6)]), Part(Number(75), [Point(6, 7), Point(7, 7)])], [Part(Number(467), [Point(0, 0), Point(1, 0), Point(2, 0)]), Part(Number(114), [Point(5, 0), Point(6, 0), Point(7, 0)]), Part(Symbol('*'), [Point(3, 1)]), Part(Number(35), [Point(2, 2), Point(3, 2)]), Part(Number(633), [Point(6, 2), Point(7, 2), Point(8, 2)]), Part(Symbol('#'), [Point(6, 3)]), Part(Number(617), [Point(0, 4), Point(1, 4), Point(2, 4)]), Part(Symbol('*'), [Point(3, 4)]), Part(Symbol('+'), [Point(5, 5)]), Part(Number(58), [Point(7, 5), Point(8, 5)]), Part(Number(592), [Point(2, 6), Point(3, 6), Point(4, 6)])], 75, [Point(6, 7), Point(7, 7)], 8, 7, '5', 755, [Point(6, 7), Point(7, 7), Point(8, 7)], [Part(Number(467), [Point(0, 0), Point(1, 0), Point(2, 0)]), Part(Number(114), [Point(5, 0), Point(6, 0), Point(7, 0)]), Part(Symbol('*'), [Point(3, 1)]), Part(Number(35), [Point(2, 2), Point(3, 2)]), Part(Number(633), [Point(6, 2), Point(7, 2), Point(8, 2)]), Part(Symbol('#'), [Point(6, 3)]), Part(Number(617), [Point(0, 4), Point(1, 4), Point(2, 4)]), Part(Symbol('*'), [Point(3, 4)]), Part(Symbol('+'), [Point(5, 5)]), Part(Number(58), [Point(7, 5), Point(8, 5)]), Part(Number(592), [Point(2, 6), Point(3, 6), Point(4, 6)]), Part(Number(755), [Point(6, 7), Point(7, 7), Point(8, 7)])]);
    ScanRowAdvance(start, row, 7, 8, '5', [Part(Number(467), [Point(0, 0), Point(1, 0), Point(2, 0)]), Part(Number(114), [Point(5, 0), Point(6, 0), Point(7, 0)]), Part(Symbol('*'), [Point(3, 1)]), Part(Number(35), [Point(2, 2), Point(3, 2)]), Part(Number(633), [Point(6, 2), Point(7, 2), Point(8, 2)]), Part(Symbol('#'), [Point(6, 3)]), Part(Number(617), [Point(0, 4), Point(1, 4), Point(2, 4)]), Part(Symbol('*'), [Point(3, 4)]), Part(Symbol('+'), [Point(5, 5)]), Part(Number(58), [Point(7, 5), Point(8, 5)]), Part(Number(592), [Point(2, 6), Point(3, 6), Point(4, 6)]), Part(Number(75), [Point(6, 7), Point(7, 7)])], [Part(Number(467), [Point(0, 0), Point(1, 0), Point(2, 0)]), Part(Number(114), [Point(5, 0), Point(6, 0), Point(7, 0)]), Part(Symbol('*'), [Point(3, 1)]), Part(Number(35), [Point(2, 2), Point(3, 2)]), Part(Number(633), [Point(6, 2), Point(7, 2), Point(8, 2)]), Part(Symbol('#'), [Point(6, 3)]), Part(Number(617), [Point(0, 4), Point(1, 4), Point(2, 4)]), Part(Symbol('*'), [Point(3, 4)]), Part(Symbol('+'), [Point(5, 5)]), Part(Number(58), [Point(7, 5), Point(8, 5)]), Part(Number(592), [Point(2, 6), Point(3, 6), Point(4, 6)]), Part(Number(755), [Point(6, 7), Point(7, 7), Point(8, 7)])]);
  }

  lemma SampleRow7At9(start: seq<Part>, row: string)
    requires 9 < |row| && row[9] == '.'
    requires ScanRow(start, row[..9], 7) == [Part(Number(467), [Point(0, 0), Point(1, 0), Point(2, 0)]), Part(Number(114), [Point(5, 0), Point(6, 0), Point(7, 0)]), Part(Symbol('*'), [Point(3, 1)]), Part(Number(35), [Point(2, 2), Point(3, 2)]), Part(Number(633), [Point(6, 2), Point(7, 2), Point(8, 2)]), Part(Symbol('#'), [Point(6, 3)]), Part(Number(617), [Point(0, 4), Point(1, 4), Point(2, 4)]), Part(Symbol('*'), [Point(3, 4)]), Part(Symbol('+'), [Point(5, 5)]), Part(Number(58), [Point(7, 5), Point(8, 5)]), Part(Number(592), [Point(2, 6), Point(3, 6), Point(4, 6)]), Part(Number(755), [Point(6, 7), Point(7, 7), Point(8, 7)])]
    ensures ScanRow(start, row[..10], 7) == [Part(Number(467), [Point(0, 0), Point(1, 0), Point(2, 0)]), Part(Number(114), [Point(5, 0), Point(6, 0), Point(7, 0)]), Part(Symbol('*'), [Point(3, 1)]), Part(Number(35), [Point(2, 2), Point(3, 2)]), Part(Number(633), [Point(6, 2), Point(7, 2), Point(8, 2)]), Part(Symbol('#'), [Point(6, 3)]), Part(Number(617), [Point(0, 4), Point(1, 4), Point(2, 4)]), Part(Symbol('*'), [Point(3, 4)]), Part(Symbol('+'), [Point(5, 5)]), Part(Number(58), [Point(7, 5), Point(8, 5)]), Part(Number(592), [Point(2, 6), Point(3, 6), Point(4, 6)]), Part(Number(755), [Point(6, 7), Point(7, 7), Point(8, 7)])]
  {
    StepSkip([Part(Number(467), [Point(0, 0), Point(1, 0), Point(2, 0)]), Part(Number(114), [Point(5, 0), Point(6, 0), Point(7, 0)]), Part(Symbol('*'), [Point(3, 1)]), Part(Number(35), [Point(2, 2), Point(3, 2)]), Part(Number(633), [Point(6, 2), Point(7, 2), Point(8, 2)]), Part(Symbol('#'), [Point(6, 3)]), Part(Number(617), [Point(0, 4), Point(1, 4), Point(2, 4)]), Part(Symbol('*'), [Point(3, 4)]), Part(Symbol('+'), [Point(5, 5)]), Part(Number(58), [Point(7, 5), Point(8, 5)]), Part(Number(592), [Point(2, 6), Point(3, 6), Point(4, 6)]), Part(Number(755), [Point(6, 7), Point(7, 7), Point(8, 7)])], 9, 7, [Part(Number(467), [Point(0, 0), Point(1, 0), Point(2, 0)]), Part(Number(114), [Point(5, 0), Point(6, 0), Point(7, 0)]), Part(Symbol('*'), [Point(3, 1)]), Part(Number(35), [Point(2, 2), Point(3, 2)]), Part(Number(633), [Point(6, 2), Point(7, 2), Point(8, 2)]), Part(Symbol('#'), [Point(6, 3)]), Part(Number(617), [Point(0, 4), Point(1, 4), Point(2, 4)]), Part(Symbol('*'), [Point(3, 4)]), Part(Symbol('+'), [Point(5, 5)]), Part(Number(58), [Point(7, 5), Point(8, 5)]), Part(Number(592), [Point(2, 6), Point(3, 6), Point(4, 6)]), Part(Number(755), [Point(6, 7), Point(7, 7), Point(8, 7)])]);
    ScanRowAdvance(start, row, 7, 9, '.', [Part(Number(467), [Point(0, 0), Point(1, 0), Point(2, 0)]), Part(Number(114), [Point(5, 0), Point(6, 0), Point(7, 0)]), Part(Symbol('*'), [Point(3, 1)]), Part(Number(35), [Point(2, 2), Point(3, 2)]), Part(Number(633), [Point(6, 2), Point(7, 2), Point(8, 2)]), Part(Symbol('#'), [Point(6, 3)]), Part(Number(617), [Point(0, 4), Point(1, 4), Point(2, 4)]), Part(Symbol('*'), [Point(3, 4)]), Part(Symbol('+'), [Point(5, 5)]), Part(Number(58), [Point(7, 5), Point(8, 5)]), Part(Number(592), [Point(2, 6), Point(3, 6), Point(4, 6)]), Part(Number(755), [Point(6, 7), Point(7, 7), Point(8, 7)])], [Part(Number(467), [Point(0, 0), Point(1, 0), Point(2, 0)]), Part(Number(114), [Point(5, 0), Point(6, 0), Point(7, 0)]), Part(Symbol('*'), [Point(3, 1)]), Part(Number(35), [Point(2, 2), Point(3, 2)]), Part(Number(633), [Point(6, 2), Point(7, 2), Point(8, 2)]), Part(Symbol('#'), [Point(6, 3)]), Part(Number(617), [Point(0, 4), Point(1, 4), Point(2, 4)]), Part(Symbol('*'), [Point(3, 4)]), Part(Symbol('+'), [Point(5, 5)]), Part(Number(58), [Point(7, 5), Point(8, 5)]), Part(Number(592), [Point(2, 6), Point(3, 6), Point(4, 6)]), Part(Number(755), [Point(6, 7), Point(7, 7), Point(8, 7)])]);
  }

  /** Row 7 of the sample grid. */
  lemma SampleRow7(start: seq<Part>, row: string)
    requires start == [Part(Number(467), [Point(0, 0), Point(1, 0), Point(2, 0)]), Part(Number(114), [Point(5, 0), Point(6, 0), Point(7, 0)]), Part(Symbol('*'), [Point(3, 1)]), Part(Number(35), [Point(2, 2), Point(3, 2)]), Part(Number(633), [Point(6, 2), Point(7, 2), Point(8, 2)]), Part(Symbol('#'), [Point(6, 3)]), Part(Number(617), [Point(0, 4), Point(1, 4), Point(2, 4)]), Part(Symbol('*'), [Point(3, 4)]), Part(Symbol('+'), [Point(5, 5)]), Part(Number(58), [Point(7, 5), Point(8, 5)]), Part(Number(592), [Point(2, 6), Point(3, 6), Point(4, 6)])]
    requires |row| == 10 && row[0] == '.' && row[1] == '.' && row[2] == '.' && row[3] == '.' && row[4] == '.' && row[5] == '.' && row[6] == '7' && row[7] == '5' && row[8] == '5' && row[9] == '.'
    ensures ScanRow(start, row, 7) == [Part(Number(467), [Point(0, 0), Point(1, 0), Point(2, 0)]), Part(Number(114), [Point(5, 0), Point(6, 0), Point(7, 0)]), Part(Symbol('*'), [Point(3, 1)]), Part(Number(35), [Point(2, 2), Point(3, 2)]), Part(Number(633), [Point(6, 2), Point(7, 2), Point(8, 2)]), Part(Symbol('#'), [Point(6, 3)]), Part(Number(617), [Point(0, 4), Point(1, 4), Point(2, 4)]), Part(Symbol('*'), [Point(3, 4)]), Part(Symbol('+'), [Point(5, 5)]), Part(Number(58), [Point(7, 5), Point(8, 5)]), Part(Number(592), [Point(2, 6), Point(3, 6), Point(4, 6)]), Part(Number(755), [Point(6, 7), Point(7, 7), Point(8, 7)])]
  {
    assert row[..0] == [];
    SampleRow7At0(start, row);
    SampleRow7At1(start, row);
    SampleRow7At2(start, row);
    SampleRow7At3(start, row);
    SampleRow7At4(start, row);
    SampleRow7At5(start, row);
    SampleRow7At6(start, row);
    SampleRow7At7(start, row);
    SampleRow7At8(start, row);
    SampleRow7At9(start, row);
    assert row[..10] == row;
  }

  lemma SampleRow8At0(start: seq<Part>, row: string)
    requires 0 < |row| && row[0] == '.'
    requires ScanRow(start, row[..0], 8) == [Part(Number(467), [Point(0, 0), Point(1, 0), Point(2, 0)]), Part(Number(114), [Point(5, 0), Point(6, 0), Point(7, 0)]), Part(Symbol('*'), [Point(3, 1)]), Part(Number(35), [Point(2, 2), Point(3, 2)]), Part(Number(633), [Point(6, 2), Point(7, 2), Point(8, 2)]), Part(Symbol('#'), [Point(6, 3)]), Part(Number(617), [Point(0, 4), Point(1, 4), Point(2, 4)]), Part(Symbol('*'), [Point(3, 4)]), Part(Symbol('+'), [Point(5, 5)]), Part(Number(58), [Point(7, 5), Point(8, 5)]), Part(Number(592), [Point(2, 6), Point(3, 6), Point(4, 6)]), Part(Number(755), [Point(6, 7), Point(7, 7), Point(8, 7)])]
    ensures ScanRow(start, row[..1], 8) == [Part(Number(467), [Point(0, 0), Point(1, 0), Point(2, 0)]), Part(Number(114), [Point(5, 0), Point(6, 0), Point(7, 0)]), Part(Symbol('*'), [Point(3, 1)]), Part(Number(35), [Point(2, 2), Point(3, 2)]), Part(Number(633), [Point(6, 2), Point(7, 2), Point(8, 2)]), Part(Symbol('#'), [Point(6, 3)]), Part(Number(617), [Point(0, 4), Point(1, 4), Point(2, 4)]), Part(Symbol('*'), [Point(3, 4)]), Part(Symbol('+'), [Point(5, 5)]), Part(Number(58), [Point(7, 5), Point(8, 5)]), Part(Number(592), [Point(2, 6), Point(3, 6), Point(4, 6)]), Part(Number(755), [Point(6, 7), Point(7, 7), Point(8, 7)])]
  {
    StepSkip([Part(Number(467), [Point(0, 0), Point(1, 0), Point(2, 0)]), Part(Number(114), [Point(5, 0), Point(6, 0), Point(7, 0)]), Part(Symbol('*'), [Point(3, 1)]), Part(Number(35), [Point(2, 2), Point(3, 2)]), Part(Number(633), [Point(6, 2), Point(7, 2), Point(8, 2)]), Part(Symbol('#'), [Point(6, 3)]), Part(Number(617), [Point(0, 4), Point(1, 4), Point(2, 4)]), Part(Symbol('*'), [Point(3, 4)]), Part(Symbol('+'), [Point(5, 5)]), Part(Number(58), [Point(7, 5), Point(8, 5)]), Part(Number(592), [Point(2, 6), Point(3, 6), Point(4, 6)]), Part(Number(755), [Point(6, 7), Point(7, 7), Point(8, 7)])], 0, 8, [Part(Number(467), [Point(0, 0), Point(1, 0), Point(2, 0)]), Part(Number(114), [Point(5, 0), Point(6, 0), Point(7, 0)]), Part(Symbol('*'), [Point(3, 1)]), Part(Number(35), [Point(2, 2), Point(3, 2)]), Part(Number(633), [Point(6, 2), Point(7, 2), Point(8, 2)]), Part(Symbol('#'), [Point(6, 3)]), Part(Number(617), [Point(0, 4), Point(1, 4), Point(2, 4)]), Part(Symbol('*'), [Point(3, 4)]), Part(Symbol('+'), [Point(5, 5)]), Part(Number(58), [Point(7, 5), Point(8, 5)]), Part(Number(592), [Point(2, 6), Point(3, 6), Point(4, 6)]), Part(Number(755), [Point(6, 7), Point(7, 7), Point(8, 7)])]);
    ScanRowAdvance(start, row, 8, 0, '.', [Part(Number(467), [Point(0, 0), Point(1, 0), Point(2, 0)]), Part(Number(114), [Point(5, 0), Point(6, 0), Point(7, 0)]), Part(Symbol('*'), [Point(3, 1)]), Part(Number(35), [Point(2, 2), Point(3, 2)]), Part(Number(633), [Point(6, 2), Point(7, 2), Point(8, 2)]), Part(Symbol('#'), [Point(6, 3)]), Part(Number(617), [Point(0, 4), Point(1, 4), Point(2, 4)]), Part(Symbol('*'), [Point(3, 4)]), Part(Symbol('+'), [Point(5, 5)]), Part(Number(58), [Point(7, 5), Point(8, 5)]), Part(Number(592), [Point(2, 6), Point(3, 6), Point(4, 6)]), Part(Number(755), [Point(6, 7), Point(7, 7), Point(8, 7)])], [Part(Number(467), [Point(0, 0), Point(1, 0), Point(2, 0)]), Part(Number(114), [Point(5, 0), Point(6, 0), Point(7, 0)]), Part(Symbol('*'), [Point(3, 1)]), Part(Number(35), [Point(2, 2), Point(3, 2)]), Part(Number(633), [Point(6, 2), Point(7, 2), Point(8, 2)]), Part(Symbol('#'), [Point(6, 3)]), Part(Number(617), [Point(0, 4), Point(1, 4), Point(2, 4)]), Part(Symbol('*'), [Point(3, 4)]), Part(Symbol('+'), [Point(5, 5)]), Part(Number(58), [Point(7, 5), Point(8, 5)]), Part(Number(592), [Point(2, 6), Point(3, 6), Point(4, 6)]), Part(Number(755), [Point(6, 7), Point(7, 7), Point(8, 7)])]);
  }

  lemma SampleRow8At1(start: seq<Part>, row: string)
    requires 1 < |row| && row[1] == '.'
    requires ScanRow(start, row[..1], 8) == [Part(Number(467), [Point(0, 0), Point(1, 0), Point(2, 0)]), Part(Number(114), [Point(5, 0), Point(6, 0), Point(7, 0)]), Part(Symbol('*'), [Point(3, 1)]), Part(Number(35), [Point(2, 2), Point(3, 2)]), Part(Number(633), [Point(6, 2), Point(7, 2), Point(8, 2)]), Part(Symbol('#'), [Point(6, 3)]), Part(Number(617), [Point(0, 4), Point(1, 4), Point(2, 4)]), Part(Symbol('*'), [Point(3, 4)]), Part(Symbol('+'), [Point(5, 5)]), Part(Number(58), [Point(7, 5), Point(8, 5)]), Part(Number(592), [Point(2, 6), Point(3, 6), Point(4, 6)]), Part(Number(755), [Point(6, 7), Point(7, 7), Point(8, 7)])]
    ensures ScanRow(start, row[..2], 8) == [Part(Number(467), [Point(0, 0), Point(1, 0), Point(2, 0)]), Part(Number(114), [Point(5, 0), Point(6, 0), Point(7, 0)]), Part(Symbol('*'), [Point(3, 1)]), Part(Number(35), [Point(2, 2), Point(3, 2)]), Part(Number(633), [Point(6, 2), Point(7, 2), Point(8, 2)]), Part(Symbol('#'), [Point(6, 3)]), Part(Number(617), [Point(0, 4), Point(1, 4), Point(2, 4)]), Part(Symbol('*'), [Point(3, 4)]), Part(Symbol('+'), [Point(5, 5)]), Part(Number(58), [Point(7, 5), Point(8, 5)]), Part(Number(592), [Point(2, 6), Point(3, 6), Point(4, 6)]), Part(Number(755), [Point(6, 7), Point(7, 7), Point(8, 7)])]
  {
    StepSkip([Part(Number(467), [Point(0, 0), Point(1, 0), Point(2, 0)]), Part(Number(114), [Point(5, 0), Point(6, 0), Point(7, 0)]), Part(Symbol('*'), [Point(3, 1)]), Part(Number(35), [Point(2, 2), Point(3, 2)]), Part(Number(633), [Point(6, 2), Point(7, 2), Point(8, 2)]), Part(Symbol('#'), [Point(6, 3)]), Part(Number(617), [Point(0, 4), Point(1, 4), Point(2, 4)]), Part(Symbol('*'), [Point(3, 4)]), Part(Symbol('+'), [Point(5, 5)]), Part(Number(58), [Point(7, 5), Point(8, 5)]), Part(Number(592), [Point(2, 6), Point(3, 6), Point(4, 6)]), Part(Number(755), [Point(6, 7), Point(7, 7), Point(8, 7)])], 1, 8, [Part(Number(467), [Point(0, 0), Point(1, 0), Point(2, 0)]), Part(Number(114), [Point(5, 0), Point(6, 0), Point(7, 0)]), Part(Symbol('*'), [Point(3, 1)]), Part(Number(35), [Point(2, 2), Point(3, 2)]), Part(Number(633), [Point(6, 2), Point(7, 2), Point(8, 2)]), Part(Symbol('#'), [Point(6, 3)]), Part(Number(617), [Point(0, 4), Point(1, 4), Point(2, 4)]), Part(Symbol('*'), [Point(3, 4)]), Part(Symbol('+'), [Point(5, 5)]), Part(Number(58), [Point(7, 5), Point(8, 5)]), Part(Number(592), [Point(2, 6), Point(3, 6), Point(4, 6)]), Part(Number(755), [Point(6, 7), Point(7, 7), Point(8, 7)])]);
    ScanRowAdvance(start, row, 8, 1, '.', [Part(Number(467), [Point(0, 0), Point(1, 0), Point(2, 0)]), Part(Number(114), [Point(5, 0), Point(6, 0), Point(7, 0)]), Part(Symbol('*'), [Point(3, 1)]), Part(Number(35), [Point(2, 2), Point(3, 2)]), Part(Number(633), [Point(6, 2), Point(7, 2), Point(8, 2)]), Part(Symbol('#'), [Point(6, 3)]), Part(Number(617), [Point(0, 4), Point(1, 4), Point(2, 4)]), Part(Symbol('*'), [Point(3, 4)]), Part(Symbol('+'), [Point(5, 5)]), Part(Number(58), [Point(7, 5), Point(8, 5)]), Part(Number(592), [Point(2, 6), Point(3, 6), Point(4, 6)]), Part(Number(755), [Point(6, 7), Point(7, 7), Point(8, 7)])], [Part(Number(467), [Point(0, 0), Point(1, 0), Point(2, 0)]), Part(Number(114), [Point(5, 0), Point(6, 0), Point(7, 0)]), Part(Symbol('*'), [Point(3, 1)]), Part(Number(35), [Point(2, 2), Point(3, 2)]), Part(Number(633), [Point(6, 2), Point(7, 2), Point(8, 2)]), Part(Symbol('#'), [Point(6, 3)]), Part(Number(617), [Point(0, 4), Point(1, 4), Point(2, 4)]), Part(Symbol('*'), [Point(3, 4)]), Part(Symbol('+'), [Point(5, 5)]), Part(Number(58), [Point(7, 5), Point(8, 5)]), Part(Number(592), [Point(2, 6), Point(3, 6), Point(4, 6)]), Part(Number(755), [Point(6, 7), Point(7, 7), Point(8, 7)])]);
  }

  lemma SampleRow8At2(start: seq<Part>, row: string)
    requires 2 < |row| && row[2] == '.'
    requires ScanRow(start, row[..2], 8) == [Part(Number(467), [Point(0, 0), Point(1, 0), Point(2, 0)]), Part(Number(114), [Point(5, 0), Point(6, 0), Point(7, 0)]), Part(Symbol('*'), [Point(3, 1)]), Part(Number(35), [Point(2, 2), Point(3, 2)]), Part(Number(633), [Point(6, 2), Point(7, 2), Point(8, 2)]), Part(Symbol('#'), [Point(6, 3)]), Part(Number(617), [Point(0, 4), Point(1, 4), Point(2, 4)]), Part(Symbol('*'), [Point(3, 4)]), Part(Symbol('+'), [Point(5, 5)]), Part(Number(58), [Point(7, 5), Point(8, 5)]), Part(Number(592), [Point(2, 6), Point(3, 6), Point(4, 6)]), Part(Number(755), [Point(6, 7), Point(7, 7), Point(8, 7)])]
    ensures ScanRow(start, row[..3], 8) == [Part(Number(467), [Point(0, 0), Point(1, 0), Point(2, 0)]), Part(Number(114), [Point(5, 0), Point(6, 0), Point(7, 0)]), Part(Symbol('*'), [Point(3, 1)]), Part(Number(35), [Point(2, 2), Point(3, 2)]), Part(Number(633), [Point(6, 2), Point(7, 2), Point(8, 2)]), Part(Symbol('#'), [Point(6, 3)]), Part(Number(617), [Point(0, 4), Point(1, 4), Point(2, 4)]), Part(Symbol('*'), [Point(3, 4)]), Part(Symbol('+'), [Point(5, 5)]), Part(Number(58), [Point(7, 5), Point(8, 5)]), Part(Number(592), [Point(2, 6), Point(3, 6), Point(4, 6)]), Part(Number(755), [Point(6, 7), Point(7, 7), Point(8, 7)])]
  {
    StepSkip([Part(Number(467), [Point(0, 0), Point(1, 0), Point(2, 0)]), Part(Number(114), [Point(5, 0), Point(6, 0), Point(7, 0)]), Part(Symbol('*'), [Point(3, 1)]), Part(Number(35), [Point(2, 2), Point(3, 2)]), Part(Number(633), [Point(6, 2), Point(7, 2), Point(8, 2)]), Part(Symbol('#'), [Point(6, 3)]), Part(Number(617), [Point(0, 4), Point(1, 4), Point(2, 4)]), Part(Symbol('*'), [Point(3, 4)]), Part(Symbol('+'), [Point(5, 5)]), Part(Number(58), [Point(7, 5), Point(8, 5)]), Part(Number(592), [Point(2, 6), Point(3, 6), Point(4, 6)]), Part(Number(755), [Point(6, 7), Point(7, 7), Point(8, 7)])], 2, 8, [Part(Number(467), [Point(0, 0), Point(1, 0), Point(2, 0)]), Part(Number(114), [Point(5, 0), Point(6, 0), Point(7, 0)]), Part(Symbol('*'), [Point(3, 1)]), Part(Number(35), [Point(2, 2), Point(3, 2)]), Part(Number(633), [Point(6, 2), Point(7, 2), Point(8, 2)]), Part(Symbol('#'), [Point(6, 3)]), Part(Number(617), [Point(0, 4), Point(1, 4), Point(2, 4)]), Part(Symbol('*'), [Point(3, 4)]), Part(Symbol('+'), [Point(5, 5)]), Part(Number(58), [Point(7, 5), Point(8, 5)]), Part(Number(592), [Point(2, 6), Point(3, 6), Point(4, 6)]), Part(Number(755), [Point(6, 7), Point(7, 7), Point(8, 7)])]);
    ScanRowAdvance(start, row, 8, 2, '.', [Part(Number(467), [Point(0, 0), Point(1, 0), Point(2, 0)]), Part(Number(114), [Point(5, 0), Point(6, 0), Point(7, 0)]), Part(Symbol('*'), [Point(3, 1)]), Part(Number(35), [Point(2, 2), Point(3, 2)]), Part(Number(633), [Point(6, 2), Point(7, 2), Point(8, 2)]), Part(Symbol('#'), [Point(6, 3)]), Part(Number(617), [Point(0, 4), Point(1, 4), Point(2, 4)]), Part(Symbol('*'), [Point(3, 4)]), Part(Symbol('+'), [Point(5, 5)]), Part(Number(58), [Point(7, 5), Point(8, 5)]), Part(Number(592), [Point(2, 6), Point(3, 6), Point(4, 6)]), Part(Number(755), [Point(6, 7), Point(7, 7), Point(8, 7)])], [Part(Number(467), [Point(0, 0), Point(1, 0), Point(2, 0)]), Part(Number(114), [Point(5, 0), Point(6, 0), Point(7, 0)]), Part(Symbol('*'), [Point(3, 1)]), Part(Number(35), [Point(2, 2), Point(3, 2)]), Part(Number(633), [Point(6, 2), Point(7, 2), Point(8, 2)]), Part(Symbol('#'), [Point(6, 3)]), Part(Number(617), [Point(0, 4), Point(1, 4), Point(2, 4)]), Part(Symbol('*'), [Point(3, 4)]), Part(Symbol('+'), [Point(5, 5)]), Part(Number(58), [Point(7, 5), Point(8, 5)]), Part(Number(592), [Point(2, 6), Point(3, 6), Point(4, 6)]), Part(Number(755), [Point(6, 7), Point(7, 7), Point(8, 7)])]);
  }

  lemma SampleRow8At3(start: seq<Part>, row: string)
    requires 3 < |row| && row[3] == '$'
    requires ScanRow(start, row[..3], 8) == [Part(Number(467), [Point(0, 0), Point(1, 0), Point(2, 0)]), Part(Number(114), [Point(5, 0), Point(6, 0), Point(7, 0)]), Part(Symbol('*'), [Point(3, 1)]), Part(Number(35), [Point(2, 2), Point(3, 2)]), Part(Number(633), [Point(6, 2), Point(7, 2), Point(8, 2)]), Part(Symbol('#'), [Point(6, 3)]), Part(Number(617), [Point(0, 4), Point(1, 4), Point(2, 4)]), Part(Symbol('*'), [Point(3, 4)]), Part(Symbol('+'), [Point(5, 5)]), Part(Number(58), [Point(7, 5), Point(8, 5)]), Part(Number(592), [Point(2, 6), Point(3, 6), Point(4, 6)]), Part(Number(755), [Point(6, 7), Point(7, 7), Point(8, 7)])]
    ensures ScanRow(start, row[..4], 8) == [Part(Number(467), [Point(0, 0), Point(1, 0), Point(2, 0)]), Part(Number(114), [Point(5, 0), Point(6, 0), Point(7, 0)]), Part(Symbol('*'), [Point(3, 1)]), Part(Number(35), [Point(2, 2), Point(3, 2)]), Part(Number(633), [Point(6, 2), Point(7, 2), Point(8, 2)]), Part(Symbol('#'), [Point(6, 3)]), Part(Number(617), [Point(0, 4), Point(1, 4), Point(2, 4)]), Part(Symbol('*'), [Point(3, 4)]), Part(Symbol('+'), [Point(5, 5)]), Part(Number(58), [Point(7, 5), Point(8, 5)]), Part(Number(592), [Point(2, 6), Point(3, 6), Point(4, 6)]), Part(Number(755), [Point(6, 7), Point(7, 7), Point(8, 7)]), Part(Symbol('$'), [Point(3, 8)])]
  {
    StepSymbol([Part(Number(467), [Point(0, 0), Point(1, 0), Point(2, 0)]), Part(Number(114), [Point(5, 0), Point(6, 0), Point(7, 0)]), Part(Symbol('*'), [Point(3, 1)]), Part(Number(35), [Point(2, 2), Point(3, 2)]), Part(Number(633), [Point(6, 2), Point(7, 2), Point(8, 2)]), Part(Symbol('#'), [Point(6, 3)]), Part(Number(617), [Point(0, 4), Point(1, 4), Point(2, 4)]), Part(Symbol('*'), [Point(3, 4)]), Part(Symbol('+'), [Point(5, 5)]), Part(Number(58), [Point(7, 5), Point(8, 5)]), Part(Number(592), [Point(2, 6), Point(3, 6), Point(4, 6)]), Part(Number(755), [Point(6, 7), Point(7, 7), Point(8, 7)])], 3, 8, '$', [Part(Number(467), [Point(0, 0), Point(1, 0), Point(2, 0)]), Part(Number(114), [Point(5, 0), Point(6, 0), Point(7, 0)]), Part(Symbol('*'), [Point(3, 1)]), Part(Number(35), [Point(2, 2), Point(3, 2)]), Part(Number(633), [Point(6, 2), Point(7, 2), Point(8, 2)]), Part(Symbol('#'), [Point(6, 3)]), Part(Number(617), [Point(0, 4), Point(1, 4), Point(2, 4)]), Part(Symbol('*'), [Point(3, 4)]), Part(Symbol('+'), [Point(5, 5)]), Part(Number(58), [Point(7, 5), Point(8, 5)]), Part(Number(592), [Point(2, 6), Point(3, 6), Point(4, 6)]), Part(Number(755), [Point(6, 7), Point(7, 7), Point(8, 7)]), Part(Symbol('$'), [Point(3, 8)])]);
    ScanRowAdvance(start, row, 8, 3, '$', [Part(Number(467), [Point(0, 0), Point(1, 0), Point(2, 0)]), Part(Number(114), [Point(5, 0), Point(6, 0), Point(7, 0)]), Part(Symbol('*'), [Point(3, 1)]), Part(Number(35), [Point(2, 2), Point(3, 2)]), Part(Number(633), [Point(6, 2), Point(7, 2), Point(8, 2)]), Part(Symbol('#'), [Point(6, 3)]), Part(Number(617), [Point(0, 4), Point(1, 4), Point(2, 4)]), Part(Symbol('*'), [Point(3, 4)]), Part(Symbol('+'), [Point(5, 5)]), Part(Number(58), [Point(7, 5), Point(8, 5)]), Part(Number(592), [Point(2, 6), Point(3, 6), Point(4, 6)]), Part(Number(755), [Point(6, 7), Point(7, 7), Point(8, 7)])], [Part(Number(467), [Point(0, 0), Point(1, 0), Point(2, 0)]), Part(Number(114), [Point(5, 0), Point(6, 0), Point(7, 0)]), Part(Symbol('*'), [Point(3, 1)]), Part(Number(35), [Point(2, 2), Point(3, 2)]), Part(Number(633), [Point(6, 2), Point(7, 2), Point(8, 2)]), Part(Symbol('#'), [Point(6, 3)]), Part(Number(617), [Point(0, 4), Point(1, 4), Point(2, 4)]), Part(Symbol('*'), [Point(3, 4)]), Part(Symbol('+'), [Point(5, 5)]), Part(Number(58), [Point(7, 5), Point(8, 5)]), Part(Number(592), [Point(2, 6), Point(3, 6), Point(4, 6)]), Part(Number(755), [Point(6, 7), Point(7, 7), Point(8, 7)]), Part(Symbol('$'), [Point(3, 8)])]);
  }

  lemma SampleRow8At4(start: seq<Part>, row: string)
    requires 4 < |row| && row[4] == '.'
    requires ScanRow(start, row[..4], 8) == [Part(Number(467), [Point(0, 0), Point(1, 0), Point(2, 0)]), Part(Number(114), [Point(5, 0), Point(6, 0), Point(7, 0)]), Part(Symbol('*'), [Point(3, 1)]), Part(Number(35), [Point(2, 2), Point(3, 2)]), Part(Number(633), [Point(6, 2), Point(7, 2), Point(8, 2)]), Part(Symbol('#'), [Point(6, 3)]), Part(Number(617), [Point(0, 4), Point(1, 4), Point(2, 4)]), Part(Symbol('*'), [Point(3, 4)]), Part(Symbol('+'), [Point(5, 5)]), Part(Number(58), [Point(7, 5), Point(8, 5)]), Part(Number(592), [Point(2, 6), Point(3, 6), Point(4, 6)]), Part(Number(755), [Point(6, 7), Point(7, 7), Point(8, 7)]), Part(Symbol('$'), [Point(3, 8)])]
    ensures ScanRow(start, row[..5], 8) == [Part(Number(467), [Point(0, 0), Point(1, 0), Point(2, 0)]), Part(Number(114), [Point(5, 0), Point(6, 0), Point(7, 0)]), Part(Symbol('*'), [Point(3, 1)]), Part(Number(35), [Point(2, 2), Point(3, 2)]), Part(Number(633), [Point(6, 2), Point(7, 2), Point(8, 2)]), Part(Symbol('#'), [Point(6, 3)]), Part(Number(617), [Point(0, 4), Point(1, 4), Point(2, 4)]), Part(Symbol('*'), [Point(3, 4)]), Part(Symbol('+'), [Point(5, 5)]), Part(Number(58), [Point(7, 5), Point(8, 5)]), Part(Number(592), [Point(2, 6), Point(3, 6), Point(4, 6)]), Part(Number(755), [Point(6, 7), Point(7, 7), Point(8, 7)]), Part(Symbol('$'), [Point(3, 8)])]
  {
    StepSkip([Part(Number(467), [Point(0, 0), Point(1, 0), Point(2, 0)]), Part(Number(114), [Point(5, 0), Point(6, 0), Point(7, 0)]), Part(Symbol('*'), [Point(3, 1)]), Part(Number(35), [Point(2, 2), Point(3, 2)]), Part(Number(633), [Point(6, 2), Point(7, 2), Point(8, 2)]), Part(Symbol('#'), [Point(6, 3)]), Part(Number(617), [Point(0, 4), Point(1, 4), Point(2, 4)]), Part(Symbol('*'), [Point(3, 4)]), Part(Symbol('+'), [Point(5, 5)]), Part(Number(58), [Point(7, 5), Point(8, 5)]), Part(Number(592), [Point(2, 6), Point(3, 6), Point(4, 6)]), Part(Number(755), [Point(6, 7), Point(7, 7), Point(8, 7)]), Part(Symbol('$'), [Point(3, 8)])], 4, 8, [Part(Number(467), [Point(0, 0), Point(1, 0), Point(2, 0)]), Part(Number(114), [Point(5, 0), Point(6, 0), Point(7, 0)]), Part(Symbol('*'), [Point(3, 1)]), Part(Number(35), [Point(2, 2), Point(3, 2)]), Part(Number(633), [Point(6, 2), Point(7, 2), Point(8, 2)]), Part(Symbol('#'), [Point(6, 3)]), Part(Number(617), [Point(0, 4), Point(1, 4), Point(2, 4)]), Part(Symbol('*'), [Point(3, 4)]), Part(Symbol('+'), [Point(5, 5)]), Part(Number(58), [Point(7, 5), Point(8, 5)]), Part(Number(592), [Point(2, 6), Point(3, 6), Point(4, 6)]), Part(Number(755), [Point(6, 7), Point(7, 7), Point(8, 7)]), Part(Symbol('$'), [Point(3, 8)])]);
    ScanRowAdvance(start, row, 8, 4, '.', [Part(Number(467), [Point(0, 0), Point(1, 0), Point(2, 0)]), Part(Number(114), [Point(5, 0), Point(6, 0), Point(7, 0)]), Part(Symbol('*'), [Point(3, 1)]), Part(Number(35), [Point(2, 2), Point(3, 2)]), Part(Number(633), [Point(6, 2), Point(7, 2), Point(8, 2)]), Part(Symbol('#'), [Point(6, 3)]), Part(Number(617), [Point(0, 4), Point(1, 4), Point(2, 4)]), Part(Symbol('*'), [Point(3, 4)]), Part(Symbol('+'), [Point(5, 5)]), Part(Number(58), [Point(7, 5), Point(8, 5)]), Part(Number(592), [Point(2, 6), Point(3, 6), Point(4, 6)]), Part(Number(755), [Point(6, 7), Point(7, 7), Point(8, 7)]), Part(Symbol('$'), [Point(3, 8)])], [Part(Number(467), [Point(0, 0), Point(1, 0), Point(2, 0)]), Part(Number(114), [Point(5, 0), Point(6, 0), Point(7, 0)]), Part(Symbol('*'), [Point(3, 1)]), Part(Number(35), [Point(2, 2), Point(3, 2)]), Part(Number(633), [Point(6, 2), Point(7, 2), Point(8, 2)]), Part(Symbol('#'), [Point(6, 3)]), Part(Number(617), [Point(0, 4), Point(1, 4), Point(2, 4)]), Part(Symbol('*'), [Point(3, 4)]), Part(Symbol('+'), [Point(5, 5)]), Part(Number(58), [Point(7, 5), Point(8, 5)]), Part(Number(592), [Point(2, 6), Point(3, 6), Point(4, 6)]), Part(Number(755), [Point(6, 7), Point(7, 7), Point(8, 7)]), Part(Symbol('$'), [Point(3, 8)])]);
  }

  lemma SampleRow8At5(start: seq<Part>, row: string)
    requires 5 < |row| && row[5] == '*'
    requires ScanRow(start, row[..5], 8) == [Part(Number(467), [Point(0, 0), Point(1, 0), Point(2, 0)]), Part(Number(114), [Point(5, 0), Point(6, 0), Point(7, 0)]), Part(Symbol('*'), [Point(3, 1)]), Part(Number(35), [Point(2, 2), Point(3, 2)]), Part(Number(633), [Point(6, 2), Point(7, 2), Point(8, 2)]), Part(Symbol('#'), [Point(6, 3)]), Part(Number(617), [Point(0, 4), Point(1, 4), Point(2, 4)]), Part(Symbol('*'), [Point(3, 4)]), Part(Symbol('+'), [Point(5, 5)]), Part(Number(58), [Point(7, 5), Point(8, 5)]), Part(Number(592), [Point(2, 6), Point(3, 6), Point(4, 6)]), Part(Number(755), [Point(6, 7), Point(7, 7), Point(8, 7)]), Part(Symbol('$'), [Point(3, 8)])]
    ensures ScanRow(start, row[..6], 8) == [Part(Number(467), [Point(0, 0), Point(1, 0), Point(2, 0)]), Part(Number(114), [Point(5, 0), Point(6, 0), Point(7, 0)]), Part(Symbol('*'), [Point(3, 1)]), Part(Number(35), [Point(2, 2), Point(3, 2)]), Part(Number(633), [Point(6, 2), Point(7, 2), Point(8, 2)]), Part(Symbol('#'), [Point(6, 3)]), Part(Number(617), [Point(0, 4), Point(1, 4), Point(2, 4)]), Part(Symbol('*'), [Point(3, 4)]), Part(Symbol('+'), [Point(5, 5)]), Part(Number(58), [Point(7, 5), Point(8, 5)]), Part(Number(592), [Point(2, 6), Point(3, 6), Point(4, 6)]), Part(Number(755), [Point(6, 7), Point(7, 7), Point(8, 7)]), Part(Symbol('$'), [Point(3, 8)]), Part(Symbol('*'), [Point(5, 8)])]
  {
    StepSymbol([Part(Number(467), [Point(0, 0), Point(1, 0), Point(2, 0)]), Part(Number(114), [Point(5, 0), Point(6, 0), Point(7, 0)]), Part(Symbol('*'), [Point(3, 1)]), Part(Number(35), [Point(2, 2), Point(3, 2)]), Part(Number(633), [Point(6, 2), Point(7, 2), Point(8, 2)]), Part(Symbol('#'), [Point(6, 3)]), Part(Number(617), [Point(0, 4), Point(1, 4), Point(2, 4)]), Part(Symbol('*'), [Point(3, 4)]), Part(Symbol('+'), [Point(5, 5)]), Part(Number(58), [Point(7, 5), Point(8, 5)]), Part(Number(592), [Point(2, 6), Point(3, 6), Point(4, 6)]), Part(Number(755), [Point(6, 7), Point(7, 7), Point(8, 7)]), Part(Symbol('$'), [Point(3, 8)])], 5, 8, '*', [Part(Number(467), [Point(0, 0), Point(1, 0), Point(2, 0)]), Part(Number(114), [Point(5, 0), Point(6, 0), Point(7, 0)]), Part(Symbol('*'), [Point(3, 1)]), Part(Number(35), [Point(2, 2), Point(3, 2)]), Part(Number(633), [Point(6, 2), Point(7, 2), Point(8, 2)]), Part(Symbol('#'), [Point(6, 3)]), Part(Number(617), [Point(0, 4), Point(1, 4), Point(2, 4)]), Part(Symbol('*'), [Point(3, 4)]), Part(Symbol('+'), [Point(5, 5)]), Part(Number(58), [Point(7, 5), Point(8, 5)]), Part(Number(592), [Point(2, 6), Point(3, 6), Point(4, 6)]), Part(Number(755), [Point(6, 7), Point(7, 7), Point(8, 7)]), Part(Symbol('$'), [Point(3, 8)]), Part(Symbol('*'), [Point(5, 8)])]);
    ScanRowAdvance(start, row, 8, 5, '*', [Part(Number(467), [Point(0, 0), Point(1, 0), Point(2, 0)]), Part(Number(114), [Point(5, 0), Point(6, 0), Point(7, 0)]), Part(Symbol('*'), [Point(3, 1)]), Part(Number(35), [Point(2, 2), Point(3, 2)]), Part(Number(633), [Point(6, 2), Point(7, 2), Point(8, 2)]), Part(Symbol('#'), [Point(6, 3)]), Part(Number(617), [Point(0, 4), Point(1, 4), Point(2, 4)]), Part(Symbol('*'), [Point(3, 4)]), Part(Symbol('+'), [Point(5, 5)]), Part(Number(58), [Point(7, 5), Point(8, 5)]), Part(Number(592), [Point(2, 6), Point(3, 6), Point(4, 6)]), Part(Number(755), [Point(6, 7), Point(7, 7), Point(8, 7)]), Part(Symbol('$'), [Point(3, 8)])], [Part(Number(467), [Point(0, 0), Point(1, 0), Point(2, 0)]), Part(Number(114), [Point(5, 0), Point(6, 0), Point(7, 0)]), Part(Symbol('*'), [Point(3, 1)]), Part(Number(35), [Point(2, 2), Point(3, 2)]), Part(Number(633), [Point(6, 2), Point(7, 2), Point(8, 2)]), Part(Symbol('#'), [Point(6, 3)]), Part(Number(617), [Point(0, 4), Point(1, 4), Point(2, 4)]), Part(Symbol('*'), [Point(3, 4)]), Part(Symbol('+'), [Point(5, 5)]), Part(Number(58), [Point(7, 5), Point(8, 5)]), Part(Number(592), [Point(2, 6), Point(3, 6), Point(4, 6)]), Part(Number(755), [Point(6, 7), Point(7, 7), Point(8, 7)]), Part(Symbol('$'), [Point(3, 8)]), Part(Symbol('*'), [Point(5, 8)])]);
  }

  lemma SampleRow8At6(start: seq<Part>, row: string)
    requires 6 < |row| && row[6] == '.'
    requires ScanRow(start, row[..6], 8) == [Part(Number(467), [Point(0, 0), Point(1, 0), Point(2, 0)]), Part(Number(114), [Point(5, 0), Point(6, 0), Point(7, 0)]), Part(Symbol('*'), [Point(3, 1)]), Part(Number(35), [Point(2, 2), Point(3, 2)]), Part(Number(633), [Point(6, 2), Point(7, 2), Point(8, 2)]), Part(Symbol('#'), [Point(6, 3)]), Part(Number(617), [Point(0, 4), Point(1, 4), Point(2, 4)]), Part(Symbol('*'), [Point(3, 4)]), Part(Symbol('+'), [Point(5, 5)]), Part(Number(58), [Point(7, 5), Point(8, 5)]), Part(Number(592), [Point(2, 6), Point(3, 6), Point(4, 6)]), Part(Number(755), [Point(6, 7), Point(7, 7), Point(8, 7)]), Part(Symbol('$'), [Point(3, 8)]), Part(Symbol('*'), [Point(5, 8)])]
    ensures ScanRow(start, row[..7], 8) == [Part(Number(467), [Point(0, 0), Point(1, 0), Point(2, 0)]), Part(Number(114), [Point(5, 0), Point(6, 0), Point(7, 0)]), Part(Symbol('*'), [Point(3, 1)]), Part(Number(35), [Point(2, 2), Point(3, 2)]), Part(Number(633), [Point(6, 2), Point(7, 2), Point(8, 2)]), Part(Symbol('#'), [Point(6, 3)]), Part(Number(617), [Point(0, 4), Point(1, 4), Point(2, 4)]), Part(Symbol('*'), [Point(3, 4)]), Part(Symbol('+'), [Point(5, 5)]), Part(Number(58), [Point(7, 5), Point(8, 5)]), Part(Number(592), [Point(2, 6), Point(3, 6), Point(4, 6)]), Part(Number(755), [Point(6, 7), Point(7, 7), Point(8, 7)]), Part(Symbol('$'), [Point(3, 8)]), Part(Symbol('*'), [Point(5, 8)])]
  {
    StepSkip([Part(Number(467), [Point(0, 0), Point(1, 0), Point(2, 0)]), Part(Number(114), [Point(5, 0), Point(6, 0), Point(7, 0)]), Part(Symbol('*'), [Point(3, 1)]), Part(Number(35), [Point(2, 2), Point(3, 2)]), Part(Number(633), [Point(6, 2), Point(7, 2), Point(8, 2)]), Part(Symbol('#'), [Point(6, 3)]), Part(Number(617), [Point(0, 4), Point(1, 4), Point(2, 4)]), Part(Symbol('*'), [Point(3, 4)]), Part(Symbol('+'), [Point(5, 5)]), Part(Number(58), [Point(7, 5), Point(8, 5)]), Part(Number(592), [Point(2, 6), Point(3, 6), Point(4, 6)]), Part(Number(755), [Point(6, 7), Point(7, 7), Point(8, 7)]), Part(Symbol('$'), [Point(3, 8)]), Part(Symbol('*'), [Point(5, 8)])], 6, 8, [Part(Number(467), [Point(0, 0), Point(1, 0), Point(2, 0)]), Part(Number(114), [Point(5, 0), Point(6, 0), Point(7, 0)]), Part(Symbol('*'), [Point(3, 1)]), Part(Number(35), [Point(2, 2), Point(3, 2)]), Part(Number(633), [Point(6, 2), Point(7, 2), Point(8, 2)]), Part(Symbol('#'), [Point(6, 3)]), Part(Number(617), [Point(0, 4), Point(1, 4), Point(2, 4)]), Part(Symbol('*'), [Point(3, 4)]), Part(Symbol('+'), [Point(5, 5)]), Part(Number(58), [Point(7, 5), Point(8, 5)]), Part(Number(592), [Point(2, 6), Point(3, 6), Point(4, 6)]), Part(Number(755), [Point(6, 7), Point(7, 7), Point(8, 7)]), Part(Symbol('$'), [Point(3, 8)]), Part(Symbol('*'), [Point(5, 8)])]);
    ScanRowAdvance(start, row, 8, 6, '.', [Part(Number(467), [Point(0, 0), Point(1, 0), Point(2, 0)]), Part(Number(114), [Point(5, 0), Point(6, 0), Point(7, 0)]), Part(Symbol('*'), [Point(3, 1)]), Part(Number(35), [Point(2, 2), Point(3, 2)]), Part(Number(633), [Point(6, 2), Point(7, 2), Point(8, 2)]), Part(Symbol('#'), [Point(6, 3)]), Part(Number(617), [Point(0, 4), Point(1, 4), Point(2, 4)]), Part(Symbol('*'), [Point(3, 4)]), Part(Symbol('+'), [Point(5, 5)]), Part(Number(58), [Point(7, 5), Point(8, 5)]), Part(Number(592), [Point(2, 6), Point(3, 6), Point(4, 6)]), Part(Number(755), [Point(6, 7), Point(7, 7), Point(8, 7)]), Part(Symbol('$'), [Point(3, 8)]), Part(Symbol('*'), [Point(5, 8)])], [Part(Number(467), [Point(0, 0), Point(1, 0), Point(2, 0)]), Part(Number(114), [Point(5, 0), Point(6, 0), Point(7, 0)]), Part(Symbol('*'), [Point(3, 1)]), Part(Number(35), [Point(2, 2), Point(3, 2)]), Part(Number(633), [Point(6, 2), Point(7, 2), Point(8, 2)]), Part(Symbol('#'), [Point(6, 3)]), Part(Number(617), [Point(0, 4), Point(1, 4), Point(2, 4)]), Part(Symbol('*'), [Point(3, 4)]), Part(Symbol('+'), [Point(5, 5)]), Part(Number(58), [Point(7, 5), Point(8, 5)]), Part(Number(592), [Point(2, 6), Point(3, 6), Point(4, 6)]), Part(Number(755), [Point(6, 7), Point(7, 7), Point(8, 7)]), Part(Symbol('$'), [Point(3, 8)]), Part(Symbol('*'), [Point(5, 8)])]);
  }

  lemma SampleRow8At7(start: seq<Part>, row: string)
    requires 7 < |row| && row[7] == '.'
    requires ScanRow(start, row[..7], 8) == [Part(Number(467), [Point(0, 0), Point(1, 0), Point(2, 0)]), Part(Number(114), [Point(5, 0), Point(6, 0), Point(7, 0)]), Part(Symbol('*'), [Point(3, 1)]), Part(Number(35), [Point(2, 2), Point(3, 2)]), Part(Number(633), [Point(6, 2), Point(7, 2), Point(8, 2)]), Part(Symbol('#'), [Point(6, 3)]), Part(Number(617), [Point(0, 4), Point(1, 4), Point(2, 4)]), Part(Symbol('*'), [Point(3, 4)]), Part(Symbol('+'), [Point(5, 5)]), Part(Number(58), [Point(7, 5), Point(8, 5)]), Part(Number(592), [Point(2, 6), Point(3, 6), Point(4, 6)]), Part(Number(755), [Point(6, 7), Point(7, 7), Point(8, 7)]), Part(Symbol('$'), [Point(3, 8)]), Part(Symbol('*'), [Point(5, 8)])]
    ensures ScanRow(start, row[..8], 8) == [Part(Number(467), [Point(0, 0), Point(1, 0), Point(2, 0)]), Part(Number(114), [Point(5, 0), Point(6, 0), Point(7, 0)]), Part(Symbol('*'), [Point(3, 1)]), Part(Number(35), [Point(2, 2), Point(3, 2)]), Part(Number(633), [Point(6, 2), Point(7, 2), Point(8, 2)]), Part(Symbol('#'), [Point(6, 3)]), Part(Number(617), [Point(0, 4), Point(1, 4), Point(2, 4)]), Part(Symbol('*'), [Point(3, 4)]), Part(Symbol('+'), [Point(5, 5)]), Part(Number(58), [Point(7, 5), Point(8, 5)]), Part(Number(592), [Point(2, 6), Point(3, 6), Point(4, 6)]), Part(Number(755), [Point(6, 7), Point(7, 7), Point(8, 7)]), Part(Symbol('$'), [Point(3, 8)]), Part(Symbol('*'), [Point(5, 8)])]
  {
    StepSkip([Part(Number(467), [Point(0, 0), Point(1, 0), Point(2, 0)]), Part(Number(114), [Point(5, 0), Point(6, 0), Point(7, 0)]), Part(Symbol('*'), [Point(3, 1)]), Part(Number(35), [Point(2, 2), Point(3, 2)]), Part(Number(633), [Point(6, 2), Point(7, 2), Point(8, 2)]), Part(Symbol('#'), [Point(6, 3)]), Part(Number(617), [Point(0, 4), Point(1, 4), Point(2, 4)]), Part(Symbol('*'), [Point(3, 4)]), Part(Symbol('+'), [Point(5, 5)]), Part(Number(58), [Point(7, 5), Point(8, 5)]), Part(Number(592), [Point(2, 6), Point(3, 6), Point(4, 6)]), Part(Number(755), [Point(6, 7), Point(7, 7), Point(8, 7)]), Part(Symbol('$'), [Point(3, 8)]), Part(Symbol('*'), [Point(5, 8)])], 7, 8, [Part(Number(467), [Point(0, 0), Point(1, 0), Point(2, 0)]), Part(Number(114), [Point(5, 0), Point(6, 0), Point(7, 0)]), Part(Symbol('*'), [Point(3, 1)]), Part(Number(35), [Point(2, 2), Point(3, 2)]), Part(Number(633), [Point(6, 2), Point(7, 2), Point(8, 2)]), Part(Symbol('#'), [Point(6, 3)]), Part(Number(617), [Point(0, 4), Point(1, 4), Point(2, 4)]), Part(Symbol('*'), [Point(3, 4)]), Part(Symbol('+'), [Point(5, 5)]), Part(Number(58), [Point(7, 5), Point(8, 5)]), Part(Number(592), [Point(2, 6), Point(3, 6), Point(4, 6)]), Part(Number(755), [Point(6, 7), Point(7, 7), Point(8, 7)]), Part(Symbol('$'), [Point(3, 8)]), Part(Symbol('*'), [Point(5, 8)])]);
    ScanRowAdvance(start, row, 8, 7, '.', [Part(Number(467), [Point(0, 0), Point(1, 0), Point(2, 0)]), Part(Number(114), [Point(5, 0), Point(6, 0), Point(7, 0)]), Part(Symbol('*'), [Point(3, 1)]), Part(Number(35), [Point(2, 2), Point(3, 2)]), Part(Number(633), [Point(6, 2), Point(7, 2), Point(8, 2)]), Part(Symbol('#'), [Point(6, 3)]), Part(Number(617), [Point(0, 4), Point(1, 4), Point(2, 4)]), Part(Symbol('*'), [Point(3, 4)]), Part(Symbol('+'), [Point(5, 5)]), Part(Number(58), [Point(7, 5), Point(8, 5)]), Part(Number(592), [Point(2, 6), Point(3, 6), Point(4, 6)]), Part(Number(755), [Point(6, 7), Point(7, 7), Point(8, 7)]), Part(Symbol('$'), [Point(3, 8)]), Part(Symbol('*'), [Point(5, 8)])], [Part(Number(467), [Point(0, 0), Point(1, 0), Point(2, 0)]), Part(Number(114), [Point(5, 0), Point(6, 0), Point(7, 0)]), Part(Symbol('*'), [Point(3, 1)]), Part(Number(35), [Point(2, 2), Point(3, 2)]), Part(Number(633), [Point(6, 2), Point(7, 2), Point(8, 2)]), Part(Symbol('#'), [Point(6, 3)]), Part(Number(617), [Point(0, 4), Point(1, 4), Point(2, 4)]), Part(Symbol('*'), [Point(3, 4)]), Part(Symbol('+'), [Point(5, 5)]), Part(Number(58), [Point(7, 5), Point(8, 5)]), Part(Number(592), [Point(2, 6), Point(3, 6), Point(4, 6)]), Part(Number(755), [Point(6, 7), Point(7, 7), Point(8, 7)]), Part(Symbol('$'), [Point(3, 8)]), Part(Symbol('*'), [Point(5, 8)])]);
  }

  lemma SampleRow8At8(start: seq<Part>, row: string)
    requires 8 < |row| && row[8] == '.'
    requires ScanRow(start, row[..8], 8) == [Part(Number(467), [Point(0, 0), Point(1, 0), Point(2, 0)]), Part(Number(114), [Point(5, 0), Point(6, 0), Point(7, 0)]), Part(Symbol('*'), [Point(3, 1)]), Part(Number(35), [Point(2, 2), Point(3, 2)]), Part(Number(633), [Point(6, 2), Point(7, 2), Point(8, 2)]), Part(Symbol('#'), [Point(6, 3)]), Part(Number(617), [Point(0, 4), Point(1, 4), Point(2, 4)]), Part(Symbol('*'), [Point(3, 4)]), Part(Symbol('+'), [Point(5, 5)]), Part(Number(58), [Point(7, 5), Point(8, 5)]), Part(Number(592), [Point(2, 6), Point(3, 6), Point(4, 6)]), Part(Number(755), [Point(6, 7), Point(7, 7), Point(8, 7)]), Part(Symbol('$'), [Point(3, 8)]), Part(Symbol('*'), [Point(5, 8)])]
    ensures ScanRow(start, row[..9], 8) == [Part(Number(467), [Point(0, 0), Point(1, 0), Point(2, 0)]), Part(Number(114), [Point(5, 0), Point(6, 0), Point(7, 0)]), Part(Symbol('*'), [Point(3, 1)]), Part(Number(35), [Point(2, 2), Point(3, 2)]), Part(Number(633), [Point(6, 2), Point(7, 2), Point(8, 2)]), Part(Symbol('#'), [Point(6, 3)]), Part(Number(617), [Point(0, 4), Point(1, 4), Point(2, 4)]), Part(Symbol('*'), [Point(3, 4)]), Part(Symbol('+'), [Point(5, 5)]), Part(Number(58), [Point(7, 5), Point(8, 5)]), Part(Number(592), [Point(2, 6), Point(3, 6), Point(4, 6)]), Part(Number(755), [Point(6, 7), Point(7, 7), Point(8, 7)]), Part(Symbol('$'), [Point(3, 8)]), Part(Symbol('*'), [Point(5, 8)])]
  {
    StepSkip([Part(Number(467), [Point(0, 0), Point(1, 0), Point(2, 0)]), Part(Number(114), [Point(5, 0), Point(6, 0), Point(7, 0)]), Part(Symbol('*'), [Point(3, 1)]), Part(Number(35), [Point(2, 2), Point(3, 2)]), Part(Number(633), [Point(6, 2), Point(7, 2), Point(8, 2)]), Part(Symbol('#'), [Point(6, 3)]), Part(Number(617), [Point(0, 4), Point(1, 4), Point(2, 4)]), Part(Symbol('*'), [Point(3, 4)]), Part(Symbol('+'), [Point(5, 5)]), Part(Number(58), [Point(7, 5), Point(8, 5)]), Part(Number(592), [Point(2, 6), Point(3, 6), Point(4, 6)]), Part(Number(755), [Point(6, 7), Point(7, 7), Point(8, 7)]), Part(Symbol('$'), [Point(3, 8)]), Part(Symbol('*'), [Point(5, 8)])], 8, 8, [Part(Number(467), [Point(0, 0), Point(1, 0), Point(2, 0)]), Part(Number(114), [Point(5, 0), Point(6, 0), Point(7, 0)]), Part(Symbol('*'), [Point(3, 1)]), Part(Number(35), [Point(2, 2), Point(3, 2)]), Part(Number(633), [Point(6, 2), Point(7, 2), Point(8, 2)]), Part(Symbol('#'), [Point(6, 3)]), Part(Number(617), [Point(0, 4), Point(1, 4), Point(2, 4)]), Part(Symbol('*'), [Point(3, 4)]), Part(Symbol('+'), [Point(5, 5)]), Part(Number(58), [Point(7, 5), Point(8, 5)]), Part(Number(592), [Point(2, 6), Point(3, 6), Point(4, 6)]), Part(Number(755), [Point(6, 7), Point(7, 7), Point(8, 7)]), Part(Symbol('$'), [Point(3, 8)]), Part(Symbol('*'), [Point(5, 8)])]);
    ScanRowAdvance(start, row, 8, 8, '.', [Part(Number(467), [Point(0, 0), Point(1, 0), Point(2, 0)]), Part(Number(114), [Point(5, 0), Point(6, 0), Point(7, 0)]), Part(Symbol('*'), [Point(3, 1)]), Part(Number(35), [Point(2, 2), Point(3, 2)]), Part(Number(633), [Point(6, 2), Point(7, 2), Point(8, 2)]), Part(Symbol('#'), [Point(6, 3)]), Part(Number(617), [Point(0, 4), Point(1, 4), Point(2, 4)]), Part(Symbol('*'), [Point(3, 4)]), Part(Symbol('+'), [Point(5, 5)]), Part(Number(58), [Point(7, 5), Point(8, 5)]), Part(Number(592), [Point(2, 6), Point(3, 6), Point(4, 6)]), Part(Number(755), [Point(6, 7), Point(7, 7), Point(8, 7)]), Part(Symbol('$'), [Point(3, 8)]), Part(Symbol('*'), [Point(5, 8)])], [Part(Number(467), [Point(0, 0), Point(1, 0), Point(2, 0)]), Part(Number(114), [Point(5, 0), Point(6, 0), Point(7, 0)]), Part(Symbol('*'), [Point(3, 1)]), Part(Number(35), [Point(2, 2), Point(3, 2)]), Part(Number(633), [Point(6, 2), Point(7, 2), Point(8, 2)]), Part(Symbol('#'), [Point(6, 3)]), Part(Number(617), [Point(0, 4), Point(1, 4), Point(2, 4)]), Part(Symbol('*'), [Point(3, 4)]), Part(Symbol('+'), [Point(5, 5)]), Part(Number(58), [Point(7, 5), Point(8, 5)]), Part(Number(592), [Point(2, 6), Point(3, 6), Point(4, 6)]), Part(Number(755), [Point(6, 7), Point(7, 7), Point(8, 7)]), Part(Symbol('$'), [Point(3, 8)]), Part(Symbol('*'), [Point(5, 8)])]);
  }

  lemma SampleRow8At9(start: seq<Part>, row: string)
    requires 9 < |row| && row[9] == '.'
    requires ScanRow(start, row[..9], 8) == [Part(Number(467), [Point(0, 0), Point(1, 0), Point(2, 0)]), Part(Number(114), [Point(5, 0), Point(6, 0), Point(7, 0)]), Part(Symbol('*'), [Point(3, 1)]), Part(Number(35), [Point(2, 2), Point(3, 2)]), Part(Number(633), [Point(6, 2), Point(7, 2), Point(8, 2)]), Part(Symbol('#'), [Point(6, 3)]), Part(Number(617), [Point(0, 4), Point(1, 4), Point(2, 4)]), Part(Symbol('*'), [Point(3, 4)]), Part(Symbol('+'), [Point(5, 5)]), Part(Number(58), [Point(7, 5), Point(8, 5)]), Part(Number(592), [Point(2, 6), Point(3, 6), Point(4, 6)]), Part(Number(755), [Point(6, 7), Point(7, 7), Point(8, 7)]), Part(Symbol('$'), [Point(3, 8)]), Part(Symbol('*'), [Point(5, 8)])]
    ensures ScanRow(start, row[..10], 8) == [Part(Number(467), [Point(0, 0), Point(1, 0), Point(2, 0)]), Part(Number(114), [Point(5, 0), Point(6, 0), Point(7, 0)]), Part(Symbol('*'), [Point(3, 1)]), Part(Number(35), [Point(2, 2), Point(3, 2)]), Part(Number(633), [Point(6, 2), Point(7, 2), Point(8, 2)]), Part(Symbol('#'), [Point(6, 3)]), Part(Number(617), [Point(0, 4), Point(1, 4), Point(2, 4)]), Part(Symbol('*'), [Point(3, 4)]), Part(Symbol('+'), [Point(5, 5)]), Part(Number(58), [Point(7, 5), Point(8, 5)]), Part(Number(592), [Point(2, 6), Point(3, 6), Point(4, 6)]), Part(Number(755), [Point(6, 7), Point(7, 7), Point(8, 7)]), Part(Symbol('$'), [Point(3, 8)]), Part(Symbol('*'), [Point(5, 8)])]
  {
    StepSkip([Part(Number(467), [Point(0, 0), Point(1, 0), Point(2, 0)]), Part(Number(114), [Point(5, 0), Point(6, 0), Point(7, 0)]), Part(Symbol('*'), [Point(3, 1)]), Part(Number(35), [Point(2, 2), Point(3, 2)]), Part(Number(633), [Point(6, 2), Point(7, 2), Point(8, 2)]), Part(Symbol('#'), [Point(6, 3)]), Part(Number(617), [Point(0, 4), Point(1, 4), Point(2, 4)]), Part(Symbol('*'), [Point(3, 4)]), Part(Symbol('+'), [Point(5, 5)]), Part(Number(58), [Point(7, 5), Point(8, 5)]), Part(Number(592), [Point(2, 6), Point(3, 6), Point(4, 6)]), Part(Number(755), [Point(6, 7), Point(7, 7), Point(8, 7)]), Part(Symbol('$'), [Point(3, 8)]), Part(Symbol('*'), [Point(5, 8)])], 9, 8, [Part(Number(467), [Point(0, 0), Point(1, 0), Point(2, 0)]), Part(Number(114), [Point(5, 0), Point(6, 0), Point(7, 0)]), Part(Symbol('*'), [Point(3, 1)]), Part(Number(35), [Point(2, 2), Point(3, 2)]), Part(Number(633), [Point(6, 2), Point(7, 2), Point(8, 2)]), Part(Symbol('#'), [Point(6, 3)]), Part(Number(617), [Point(0, 4), Point(1, 4), Point(2, 4)]), Part(Symbol('*'), [Point(3, 4)]), Part(Symbol('+'), [Point(5, 5)]), Part(Number(58), [Point(7, 5), Point(8, 5)]), Part(Number(592), [Point(2, 6), Point(3, 6), Point(4, 6)]), Part(Number(755), [Point(6, 7), Point(7, 7), Point(8, 7)]), Part(Symbol('$'), [Point(3, 8)]), Part(Symbol('*'), [Point(5, 8)])]);
    ScanRowAdvance(start, row, 8, 9, '.', [Part(Number(467), [Point(0, 0), Point(1, 0), Point(2, 0)]), Part(Number(114), [Point(5, 0), Point(6, 0), Point(7, 0)]), Part(Symbol('*'), [Point(3, 1)]), Part(Number(35), [Point(2, 2), Point(3, 2)]), Part(Number(633), [Point(6, 2), Point(7, 2), Point(8, 2)]), Part(Symbol('#'), [Point(6, 3)]), Part(Number(617), [Point(0, 4), Point(1, 4), Point(2, 4)]), Part(Symbol('*'), [Point(3, 4)]), Part(Symbol('+'), [Point(5, 5)]), Part(Number(58), [Point(7, 5), Point(8, 5)]), Part(Number(592), [Point(2, 6), Point(3, 6), Point(4, 6)]), Part(Number(755), [Point(6, 7), Point(7, 7), Point(8, 7)]), Part(Symbol('$'), [Point(3, 8)]), Part(Symbol('*'), [Point(5, 8)])], [Part(Number(467), [Point(0, 0), Point(1, 0), Point(2, 0)]), Part(Number(114), [Point(5, 0), Point(6, 0), Point(7, 0)]), Part(Symbol('*'), [Point(3, 1)]), Part(Number(35), [Point(2, 2), Point(3, 2)]), Part(Number(633), [Point(6, 2), Point(7, 2), Point(8, 2)]), Part(Symbol('#'), [Point(6, 3)]), Part(Number(617), [Point(0, 4), Point(1, 4), Point(2, 4)]), Part(Symbol('*'), [Point(3, 4)]), Part(Symbol('+'), [Point(5, 5)]), Part(Number(58), [Point(7, 5), Point(8, 5)]), Part(Number(592), [Point(2, 6), Point(3, 6), Point(4, 6)]), Part(Number(755), [Point(6, 7), Point(7, 7), Point(8, 7)]), Part(Symbol('$'), [Point(3, 8)]), Part(Symbol('*'), [Point(5, 8)])]);
  }

  /** Row 8 of the sample grid. */
  lemma SampleRow8(start: seq<Part>, row: string)
    requires start == [Part(Number(467), [Point(0, 0), Point(1, 0), Point(2, 0)]), Part(Number(114), [Point(5, 0), Point(6, 0), Point(7, 0)]), Part(Symbol('*'), [Point(3, 1)]), Part(Number(35), [Point(2, 2), Point(3, 2)]), Part(Number(633), [Point(6, 2), Point(7, 2), Point(8, 2)]), Part(Symbol('#'), [Point(6, 3)]), Part(Number(617), [Point(0, 4), Point(1, 4), Point(2, 4)]), Part(Symbol('*'), [Point(3, 4)]), Part(Symbol('+'), [Point(5, 5)]), Part(Number(58), [Point(7, 5), Point(8, 5)]), Part(Number(592), [Point(2, 6), Point(3, 6), Point(4, 6)]), Part(Number(755), [Point(6, 7), Point(7, 7), Point(8, 7)])]
    requires |row| == 10 && row[0] == '.' && row[1] == '.' && row[2] == '.' && row[3] == '$' && row[4] == '.' && row[5] == '*' && row[6] == '.' && row[7] == '.' && row[8] == '.' && row[9] == '.'
    ensures ScanRow(start, row, 8) == [Part(Number(467), [Point(0, 0), Point(1, 0), Point(2, 0)]), Part(Number(114), [Point(5, 0), Point(6, 0), Point(7, 0)]), Part(Symbol('*'), [Point(3, 1)]), Part(Number(35), [Point(2, 2), Point(3, 2)]), Part(Number(633), [Point(6, 2), Point(7, 2), Point(8, 2)]), Part(Symbol('#'), [Point(6, 3)]), Part(Number(617), [Point(0, 4), Point(1, 4), Point(2, 4)]), Part(Symbol('*'), [Point(3, 4)]), Part(Symbol('+'), [Point(5, 5)]), Part(Number(58), [Point(7, 5), Point(8, 5)]), Part(Number(592), [Point(2, 6), Point(3, 6), Point(4, 6)]), Part(Number(755), [Point(6, 7), Point(7, 7), Point(8, 7)]), Part(Symbol('$'), [Point(3, 8)]), Part(Symbol('*'), [Point(5, 8)])]
  {
    assert row[..0] == [];
    SampleRow8At0(start, row);
    SampleRow8At1(start, row);
    SampleRow8At2(start, row);
    SampleRow8At3(start, row);
    SampleRow8At4(start, row);
    SampleRow8At5(start, row);
    SampleRow8At6(start, row);
    SampleRow8At7(start, row);
    SampleRow8At8(start, row);
    SampleRow8At9(start, row);
    assert row[..10] == row;
  }

  lemma SampleRow9At0(start: seq<Part>, row: string)
    requires 0 < |row| && row[0] == '.'
    requires ScanRow(start, row[..0], 9) == [Part(Number(467), [Point(0, 0), Point(1, 0), Point(2, 0)]), Part(Number(114), [Point(5, 0), Point(6, 0), Point(7, 0)]), Part(Symbol('*'), [Point(3, 1)]), Part(Number(35), [Point(2, 2), Point(3, 2)]), Part(Number(633), [Point(6, 2), Point(7, 2), Point(8, 2)]), Part(Symbol('#'), [Point(6, 3)]), Part(Number(617), [Point(0, 4), Point(1, 4), Point(2, 4)]), Part(Symbol('*'), [Point(3, 4)]), Part(Symbol('+'), [Point(5, 5)]), Part(Number(58), [Point(7, 5), Point(8, 5)]), Part(Number(592), [Point(2, 6), Point(3, 6), Point(4, 6)]), Part(Number(755), [Point(6, 7), Point(7, 7), Point(8, 7)]), Part(Symbol('$'), [Point(3, 8)]), Part(Symbol('*'), [Point(5, 8)])]
    ensures ScanRow(start, row[..1], 9) == [Part(Number(467), [Point(0, 0), Point(1, 0), Point(2, 0)]), Part(Number(114), [Point(5, 0), Point(6, 0), Point(7, 0)]), Part(Symbol('*'), [Point(3, 1)]), Part(Number(35), [Point(2, 2), Point(3, 2)]), Part(Number(633), [Point(6, 2), Point(7, 2), Point(8, 2)]), Part(Symbol('#'), [Point(6, 3)]), Part(Number(617), [Point(0, 4), Point(1, 4), Point(2, 4)]), Part(Symbol('*'), [Point(3, 4)]), Part(Symbol('+'), [Point(5, 5)]), Part(Number(58), [Point(7, 5), Point(8, 5)]), Part(Number(592), [Point(2, 6), Point(3, 6), Point(4, 6)]), Part(Number(755), [Point(6, 7), Point(7, 7), Point(8, 7)]), Part(Symbol('$'), [Point(3, 8)]), Part(Symbol('*'), [Point(5, 8)])]
  {
    StepSkip([Part(Number(467), [Point(0, 0), Point(1, 0), Point(2, 0)]), Part(Number(114), [Point(5, 0), Point(6, 0), Point(7, 0)]), Part(Symbol('*'), [Point(3, 1)]), Part(Number(35), [Point(2, 2), Point(3, 2)]), Part(Number(633), [Point(6, 2), Point(7, 2), Point(8, 2)]), Part(Symbol('#'), [Point(6, 3)]), Part(Number(617), [Point(0, 4), Point(1, 4), Point(2, 4)]), Part(Symbol('*'), [Point(3, 4)]), Part(Symbol('+'), [Point(5, 5)]), Part(Number(58), [Point(7, 5), Point(8, 5)]), Part(Number(592), [Point(2, 6), Point(3, 6), Point(4, 6)]), Part(Number(755), [Point(6, 7), Point(7, 7), Point(8, 7)]), Part(Symbol('$'), [Point(3, 8)]), Part(Symbol('*'), [Point(5, 8)])], 0, 9, [Part(Number(467), [Point(0, 0), Point(1, 0), Point(2, 0)]), Part(Number(114), [Point(5, 0), Point(6, 0), Point(7, 0)]), Part(Symbol('*'), [Point(3, 1)]), Part(Number(35), [Point(2, 2), Point(3, 2)]), Part(Number(633), [Point(6, 2), Point(7, 2), Point(8, 2)]), Part(Symbol('#'), [Point(6, 3)]), Part(Number(617), [Point(0, 4), Point(1, 4), Point(2, 4)]), Part(Symbol('*'), [Point(3, 4)]), Part(Symbol('+'), [Point(5, 5)]), Part(Number(58), [Point(7, 5), Point(8, 5)]), Part(Number(592), [Point(2, 6), Point(3, 6), Point(4, 6)]), Part(Number(755), [Point(6, 7), Point(7, 7), Point(8, 7)]), Part(Symbol('$'), [Point(3, 8)]), Part(Symbol('*'), [Point(5, 8)])]);
    ScanRowAdvance(start, row, 9, 0, '.', [Part(Number(467), [Point(0, 0), Point(1, 0), Point(2, 0)]), Part(Number(114), [Point(5, 0), Point(6, 0), Point(7, 0)]), Part(Symbol('*'), [Point(3, 1)]), Part(Number(35), [Point(2, 2), Point(3, 2)]), Part(Number(633), [Point(6, 2), Point(7, 2), Point(8, 2)]), Part(Symbol('#'), [Point(6, 3)]), Part(Number(617), [Point(0, 4), Point(1, 4), Point(2, 4)]), Part(Symbol('*'), [Point(3, 4)]), Part(Symbol('+'), [Point(5, 5)]), Part(Number(58), [Point(7, 5), Point(8, 5)]), Part(Number(592), [Point(2, 6), Point(3, 6), Point(4, 6)]), Part(Number(755), [Point(6, 7), Point(7, 7), Point(8, 7)]), Part(Symbol('$'), [Point(3, 8)]), Part(Symbol('*'), [Point(5, 8)])], [Part(Number(467), [Point(0, 0), Point(1, 0), Point(2, 0)]), Part(Number(114), [Point(5, 0), Point(6, 0), Point(7, 0)]), Part(Symbol('*'), [Point(3, 1)]), Part(Number(35), [Point(2, 2), Point(3, 2)]), Part(Number(633), [Point(6, 2), Point(7, 2), Point(8, 2)]), Part(Symbol('#'), [Point(6, 3)]), Part(Number(617), [Point(0, 4), Point(1, 4), Point(2, 4)]), Part(Symbol('*'), [Point(3, 4)]), Part(Symbol('+'), [Point(5, 5)]), Part(Number(58), [Point(7, 5), Point(8, 5)]), Part(Number(592), [Point(2, 6), Point(3, 6), Point(4, 6)]), Part(Number(755), [Point(6, 7), Point(7, 7), Point(8, 7)]), Part(Symbol('$'), [Point(3, 8)]), Part(Symbol('*'), [Point(5, 8)])]);
  }

  lemma SampleRow9At1(start: seq<Part>, row: string)
    requires 1 < |row| && row[1] == '6'
    requires ScanRow(start, row[..1], 9) == [Part(Number(467), [Point(0, 0), Point(1, 0), Point(2, 0)]), Part(Number(114), [Point(5, 0), Point(6, 0), Point(7, 0)]), Part(Symbol('*'), [Point(3, 1)]), Part(Number(35), [Point(2, 2), Point(3, 2)]), Part(Number(633), [Point(6, 2), Point(7, 2), Point(8, 2)]), Part(Symbol('#'), [Point(6, 3)]), Part(Number(617), [Point(0, 4), Point(1, 4), Point(2, 4)]), Part(Symbol('*'), [Point(3, 4)]), Part(Symbol('+'), [Point(5, 5)]), Part(Number(58), [Point(7, 5), Point(8, 5)]), Part(Number(592), [Point(2, 6), Point(3, 6), Point(4, 6)]), Part(Number(755), [Point(6, 7), Point(7, 7), Point(8, 7)]), Part(Symbol('$'), [Point(3, 8)]), Part(Symbol('*'), [Point(5, 8)])]
    ensures ScanRow(start, row[..2], 9) == [Part(Number(467), [Point(0, 0), Point(1, 0), Point(2, 0)]), Part(Number(114), [Point(5, 0), Point(6, 0), Point(7, 0)]), Part(Symbol('*'), [Point(3, 1)]), Part(Number(35), [Point(2, 2), Point(3, 2)]), Part(Number(633), [Point(6, 2), Point(7, 2), Point(8, 2)]), Part(Symbol('#'), [Point(6, 3)]), Part(Number(617), [Point(0, 4), Point(1, 4), Point(2, 4)]), Part(Symbol('*'), [Point(3, 4)]), Part(Symbol('+'), [Point(5, 5)]), Part(Number(58), [Point(7, 5), Point(8, 5)]), Part(Number(592), [Point(2, 6), Point(3, 6), Point(4, 6)]), Part(Number(755), [Point(6, 7), Point(7, 7), Point(8, 7)]), Part(Symbol('$'), [Point(3, 8)]), Part(Symbol('*'), [Point(5, 8)]), Part(Number(6), [Point(1, 9)])]
  {
    StepStart([Part(Number(467), [Point(0, 0), Point(1, 0), Point(2, 0)]), Part(Number(114), [Point(5, 0), Point(6, 0), Point(7, 0)]), Part(Symbol('*'), [Point(3, 1)]), Part(Number(35), [Point(2, 2), Point(3, 2)]), Part(Number(633), [Point(6, 2), Point(7, 2), Point(8, 2)]), Part(Symbol('#'), [Point(6, 3)]), Part(Number(617), [Point(0, 4), Point(1, 4), Point(2, 4)]), Part(Symbol('*'), [Point(3, 4)]), Part(Symbol('+'), [Point(5, 5)]), Part(Number(58), [Point(7, 5), Point(8, 5)]), Part(Number(592), [Point(2, 6), Point(3, 6), Point(4, 6)]), Part(Number(755), [Point(6, 7), Point(7, 7), Point(8, 7)]), Part(Symbol('$'), [Point(3, 8)]), Part(Symbol('*'), [Point(5, 8)])], 1, 9, '6', 6, [Part(Number(467), [Point(0, 0), Point(1, 0), Point(2, 0)]), Part(Number(114), [Point(5, 0), Point(6, 0), Point(7, 0)]), Part(Symbol('*'), [Point(3, 1)]), Part(Number(35), [Point(2, 2), Point(3, 2)]), Part(Number(633), [Point(6, 2), Point(7, 2), Point(8, 2)]), Part(Symbol('#'), [Point(6, 3)]), Part(Number(617), [Point(0, 4), Point(1, 4), Point(2, 4)]), Part(Symbol('*'), [Point(3, 4)]), Part(Symbol('+'), [Point(5, 5)]), Part(Number(58), [Point(7, 5), Point(8, 5)]), Part(Number(592), [Point(2, 6), Point(3, 6), Point(4, 6)]), Part(Number(755), [Point(6, 7), Point(7, 7), Point(8, 7)]), Part(Symbol('$'), [Point(3, 8)]), Part(Symbol('*'), [Point(5, 8)]), Part(Number(6), [Point(1, 9)])]);
    ScanRowAdvance(start, row, 9, 1, '6', [Part(Number(467), [Point(0, 0), Point(1, 0), Point(2, 0)]), Part(Number(114), [Point(5, 0), Point(6, 0), Point(7, 0)]), Part(Symbol('*'), [Point(3, 1)]), Part(Number(35), [Point(2, 2), Point(3, 2)]), Part(Number(633), [Point(6, 2), Point(7, 2), Point(8, 2)]), Part(Symbol('#'), [Point(6, 3)]), Part(Number(617), [Point(0, 4), Point(1, 4), Point(2, 4)]), Part(Symbol('*'), [Point(3, 4)]), Part(Symbol('+'), [Point(5, 5)]), Part(Number(58), [Point(7, 5), Point(8, 5)]), Part(Number(592), [Point(2, 6), Point(3, 6), Point(4, 6)]), Part(Number(755), [Point(6, 7), Point(7, 7), Point(8, 7)]), Part(Symbol('$'), [Point(3, 8)]), Part(Symbol('*'), [Point(5, 8)])], [Part(Number(467), [Point(0, 0), Point(1, 0), Point(2, 0)]), Part(Number(114), [Point(5, 0), Point(6, 0), Point(7, 0)]), Part(Symbol('*'), [Point(3, 1)]), Part(Number(35), [Point(2, 2), Point(3, 2)]), Part(Number(633), [Point(6, 2), Point(7, 2), Point(8, 2)]), Part(Symbol('#'), [Point(6, 3)]), Part(Number(617), [Point(0, 4), Point(1, 4), Point(2, 4)]), Part(Symbol('*'), [Point(3, 4)]), Part(Symbol('+'), [Point(5, 5)]), Part(Number(58), [Point(7, 5), Point(8, 5)]), Part(Number(592), [Point(2, 6), Point(3, 6), Point(4, 6)]), Part(Number(755), [Point(6, 7), Point(7, 7), Point(8, 7)]), Part(Symbol('$'), [Point(3, 8)]), Part(Symbol('*'), [Point(5, 8)]), Part(Number(6), [Point(1, 9)])]);
  }

  lemma SampleRow9At2(start: seq<Part>, row: string)
    requires 2 < |row| && row[2] == '6'
    requires ScanRow(start, row[..2], 9) == [Part(Number(467), [Point(0, 0), Point(1, 0), Point(2, 0)]), Part(Number(114), [Point(5, 0), Point(6, 0), Point(7, 0)]), Part(Symbol('*'), [Point(3, 1)]), Part(Number(35), [Point(2, 2), Point(3, 2)]), Part(Number(633), [Point(6, 2), Point(7, 2), Point(8, 2)]), Part(Symbol('#'), [Point(6, 3)]), Part(Number(617), [Point(0, 4), Point(1, 4), Point(2, 4)]), Part(Symbol('*'), [Point(3, 4)]), Part(Symbol('+'), [Point(5, 5)]), Part(Number(58), [Point(7, 5), Point(8, 5)]), Part(Number(592), [Point(2, 6), Point(3, 6), Point(4, 6)]), Part(Number(755), [Point(6, 7), Point(7, 7), Point(8, 7)]), Part(Symbol('$'), [Point(3, 8)]), Part(Symbol('*'), [Point(5, 8)]), Part(Number(6), [Point(1, 9)])]
    ensures ScanRow(start, row[..3], 9) == [Part(Number(467), [Point(0, 0), Point(1, 0), Point(2, 0)]), Part(Number(114), [Point(5, 0), Point(6, 0), Point(7, 0)]), Part(Symbol('*'), [Point(3, 1)]), Part(Number(35), [Point(2, 2), Point(3, 2)]), Part(Number(633), [Point(6, 2), Point(7, 2), Point(8, 2)]), Part(Symbol('#'), [Point(6, 3)]), Part(Number(617), [Point(0, 4), Point(1, 4), Point(2, 4)]), Part(Symbol('*'), [Point(3, 4)]), Part(Symbol('+'), [Point(5, 5)]), Part(Number(58), [Point(7, 5), Point(8, 5)]), Part(Number(592), [Point(2, 6), Point(3, 6), Point(4, 6)]), Part(Number(755), [Point(6, 7), Point(7, 7), Point(8, 7)]), Part(Symbol('$'), [Point(3, 8)]), Part(Symbol('*'), [Point(5, 8)]), Part(Number(66), [Point(1, 9), Point(2, 9)])]
  {
    StepExtend([Part(Number(467), [Point(0, 0), Point(1, 0), Point(2, 0)]), Part(Number(114), [Point(5, 0), Point(6, 0), Point(7, 0)]), Part(Symbol('*'), [Point(3, 1)]), Part(Number(35), [Point(2, 2), Point(3, 2)]), Part(Number(633), [Point(6, 2), Point(7, 2), Point(8, 2)]), Part(Symbol('#'), [Point(6, 3)]), Part(Number(617), [Point(0, 4), Point(1, 4), Point(2, 4)]), Part(Symbol('*'), [Point(3, 4)]), Part(Symbol('+'), [Point(5, 5)]), Part(Number(58), [Point(7, 5), Point(8, 5)]), Part(Number(592), [Point(2, 6), Point(3, 6), Point(4, 6)]), Part(Number(755), [Point(6, 7), Point(7, 7), Point(8, 7)]), Part(Symbol('$'), [Point(3, 8)]), Part(Symbol('*'), [Point(5, 8)]), Part(Number(6), [Point(1, 9)])], [Part(Number(467), [Point(0, 0), Point(1, 0), Point(2, 0)]), Part(Number(114), [Point(5, 0), Point(6, 0), Point(7, 0)]), Part(Symbol('*'), [Point(3, 1)]), Part(Number(35), [Point(2, 2), Point(3, 2)]), Part(Number(633), [Point(6, 2), Point(7, 2), Point(8, 2)]), Part(Symbol('#'), [Point(6, 3)]), Part(Number(617), [Point(0, 4), Point(1, 4), Point(2, 4)]), Part(Symbol('*'), [Point(3, 4)]), Part(Symbol('+'), [Point(5, 5)]), Part(Number(58), [Point(7, 5), Point(8, 5)]), Part(Number(592), [Point(2, 6), Point(3, 6), Point(4, 6)]), Part(Number(755), [Point(6, 7), Point(7, 7), Point(8, 7)]), Part(Symbol('$'), [Point(3, 8)]), Part(Symbol('*'), [Point(5, 8)])], 6, [Point(1, 9)], 2, 9, '6', 66, [Point(1, 9), Point(2, 9)], [Part(Number(467), [Point(0, 0), Point(1, 0), Point(2, 0)]), Part(Number(114), [Point(5, 0), Point(6, 0), Point(7, 0)]), Part(Symbol('*'), [Point(3, 1)]), Part(Number(35), [Point(2, 2), Point(3, 2)]), Part(Number(633), [Point(6, 2), Point(7, 2), Point(8, 2)]), Part(Symbol('#'), [Point(6, 3)]), Part(Number(617), [Point(0, 4), Point(1, 4), Point(2, 4)]), Part(Symbol('*'), [Point(3, 4)]), Part(Symbol('+'), [Point(5, 5)]), Part(Number(58), [Point(7, 5), Point(8, 5)]), Part(Number(592), [Point(2, 6), Point(3, 6), Point(4, 6)]), Part(Number(755), [Point(6, 7), Point(7, 7), Point(8, 7)]), Part(Symbol('$'), [Point(3, 8)]), Part(Symbol('*'), [Point(5, 8)]), Part(Number(66), [Point(1, 9), Point(2, 9)])]);
    ScanRowAdvance(start, row, 9, 2, '6', [Part(Number(467), [Point(0, 0), Point(1, 0), Point(2, 0)]), Part(Number(114), [Point(5, 0), Point(6, 0), Point(7, 0)]), Part(Symbol('*'), [Point(3, 1)]), Part(Number(35), [Point(2, 2), Point(3, 2)]), Part(Number(633), [Point(6, 2), Point(7, 2), Point(8, 2)]), Part(Symbol('#'), [Point(6, 3)]), Part(Number(617), [Point(0, 4), Point(1, 4), Point(2, 4)]), Part(Symbol('*'), [Point(3, 4)]), Part(Symbol('+'), [Point(5, 5)]), Part(Number(58), [Point(7, 5), Point(8, 5)]), Part(Number(592), [Point(2, 6), Point(3, 6), Point(4, 6)]), Part(Number(755), [Point(6, 7), Point(7, 7), Point(8, 7)]), Part(Symbol('$'), [Point(3, 8)]), Part(Symbol('*'), [Point(5, 8)]), Part(Number(6), [Point(1, 9)])], [Part(Number(467), [Point(0, 0), Point(1, 0), Point(2, 0)]), Part(Number(114), [Point(5, 0), Point(6, 0), Point(7, 0)]), Part(Symbol('*'), [Point(3, 1)]), Part(Number(35), [Point(2, 2), Point(3, 2)]), Part(Number(633), [Point(6, 2), Point(7, 2), Point(8, 2)]), Part(Symbol('#'), [Point(6, 3)]), Part(Number(617), [Point(0, 4), Point(1, 4), Point(2, 4)]), Part(Symbol('*'), [Point(3, 4)]), Part(Symbol('+'), [Point(5, 5)]), Part(Number(58), [Point(7, 5), Point(8, 5)]), Part(Number(592), [Point(2, 6), Point(3, 6), Point(4, 6)]), Part(Number(755), [Point(6, 7), Point(7, 7), Point(8, 7)]), Part(Symbol('$'), [Point(3, 8)]), Part(Symbol('*'), [Point(5, 8)]), Part(Number(66), [Point(1, 9), Point(2, 9)])]);
  }

  lemma SampleRow9At3(start: seq<Part>, row: string)
    requires 3 < |row| && row[3] == '4'
    requires ScanRow(start, row[..3], 9) == [Part(Number(467), [Point(0, 0), Point(1, 0), Point(2, 0)]), Part(Number(114), [Point(5, 0), Point(6, 0), Point(7, 0)]), Part(Symbol('*'), [Point(3, 1)]), Part(Number(35), [Point(2, 2), Point(3, 2)]), Part(Number(633), [Point(6, 2), Point(7, 2), Point(8, 2)]), Part(Symbol('#'), [Point(6, 3)]), Part(Number(617), [Point(0, 4), Point(1, 4), Point(2, 4)]), Part(Symbol('*'), [Point(3, 4)]), Part(Symbol('+'), [Point(5, 5)]), Part(Number(58), [Point(7, 5), Point(8, 5)]), Part(Number(592), [Point(2, 6), Point(3, 6), Point(4, 6)]), Part(Number(755), [Point(6, 7), Point(7, 7), Point(8, 7)]), Part(Symbol('$'), [Point(3, 8)]), Part(Symbol('*'), [Point(5, 8)]), Part(Number(66), [Point(1, 9), Point(2, 9)])]
    ensures ScanRow(start, row[..4], 9) == [Part(Number(467), [Point(0, 0), Point(1, 0), Point(2, 0)]), Part(Number(114), [Point(5, 0), Point(6, 0), Point(7, 0)]), Part(Symbol('*'), [Point(3, 1)]), Part(Number(35), [Point(2, 2), Point(3, 2)]), Part(Number(633), [Point(6, 2), Point(7, 2), Point(8, 2)]), Part(Symbol('#'), [Point(6, 3)]), Part(Number(617), [Point(0, 4), Point(1, 4), Point(2, 4)]), Part(Symbol('*'), [Point(3, 4)]), Part(Symbol('+'), [Point(5, 5)]), Part(Number(58), [Point(7, 5), Point(8, 5)]), Part(Number(592), [Point(2, 6), Point(3, 6), Point(4, 6)]), Part(Number(755), [Point(6, 7), Point(7, 7), Point(8, 7)]), Part(Symbol('$'), [Point(3, 8)]), Part(Symbol('*'), [Point(5, 8)]), Part(Number(664), [Point(1, 9), Point(2, 9), Point(3, 9)])]
  {
    StepExtend([Part(Number(467), [Point(0, 0), Point(1, 0), Point(2, 0)]), Part(Number(114), [Point(5, 0), Point(6, 0), Point(7, 0)]), Part(Symbol('*'), [Point(3, 1)]), Part(Number(35), [Point(2, 2), Point(3, 2)]), Part(Number(633), [Point(6, 2), Point(7, 2), Point(8, 2)]), Part(Symbol('#'), [Point(6, 3)]), Part(Number(617), [Point(0, 4), Point(1, 4), Point(2, 4)]), Part(Symbol('*'), [Point(3, 4)]), Part(Symbol('+'), [Point(5, 5)]), Part(Number(58), [Point(7, 5), Point(8, 5)]), Part(Number(592), [Point(2, 6), Point(3, 6), Point(4, 6)]), Part(Number(755), [Point(6, 7), Point(7, 7), Point(8, 7)]), Part(Symbol('$'), [Point(3, 8)]), Part(Symbol('*'), [Point(5, 8)]), Part(Number(66), [Point(1, 9), Point(2, 9)])], [Part(Number(467), [Point(0, 0), Point(1, 0), Point(2, 0)]), Part(Number(114), [Point(5, 0), Point(6, 0), Point(7, 0)]), Part(Symbol('*'), [Point(3, 1)]), Part(Number(35), [Point(2, 2), Point(3, 2)]), Part(Number(633), [Point(6, 2), Point(7, 2), Point(8, 2)]), Part(Symbol('#'), [Point(6, 3)]), Part(Number(617), [Point(0, 4), Point(1, 4), Point(2, 4)]), Part(Symbol('*'), [Point(3, 4)]), Part(Symbol('+'), [Point(5, 5)]), Part(Number(58), [Point(7, 5), Point(8, 5)]), Part(Number(592), [Point(2, 6), Point(3, 6), Point(4, 6)]), Part(Number(755), [Point(6, 7), Point(7, 7), Point(8, 7)]), Part(Symbol('$'), [Point(3, 8)]), Part(Symbol('*'), [Point(5, 8)])], 66, [Point(1, 9), Point(2, 9)], 3, 9, '4', 664, [Point(1, 9), Point(2, 9), Point(3, 9)], [Part(Number(467), [Point(0, 0), Point(1, 0), Point(2, 0)]), Part(Number(114), [Point(5, 0), Point(6, 0), Point(7, 0)]), Part(Symbol('*'), [Point(3, 1)]), Part(Number(35), [Point(2, 2), Point(3, 2)]), Part(Number(633), [Point(6, 2), Point(7, 2), Point(8, 2)]), Part(Symbol('#'), [Point(6, 3)]), Part(Number(617), [Point(0, 4), Point(1, 4), Point(2, 4)]), Part(Symbol('*'), [Point(3, 4)]), Part(Symbol('+'), [Point(5, 5)]), Part(Number(58), [Point(7, 5), Point(8, 5)]), Part(Number(592), [Point(2, 6), Point(3, 6), Point(4, 6)]), Part(Number(755), [Point(6, 7), Point(7, 7), Point(8, 7)]), Part(Symbol('$'), [Point(3, 8)]), Part(Symbol('*'), [Point(5, 8)]), Part(Number(664), [Point(1, 9), Point(2, 9), Point(3, 9)])]);
    ScanRowAdvance(start, row, 9, 3, '4', [Part(Number(467), [Point(0, 0), Point(1, 0), Point(2, 0)]), Part(Number(114), [Point(5, 0), Point(6, 0), Point(7, 0)]), Part(Symbol('*'), [Point(3, 1)]), Part(Number(35), [Point(2, 2), Point(3, 2)]), Part(Number(633), [Point(6, 2), Point(7, 2), Point(8, 2)]), Part(Symbol('#'), [Point(6, 3)]), Part(Number(617), [Point(0, 4), Point(1, 4), Point(2, 4)]), Part(Symbol('*'), [Point(3, 4)]), Part(Symbol('+'), [Point(5, 5)]), Part(Number(58), [Point(7, 5), Point(8, 5)]), Part(Number(592), [Point(2, 6), Point(3, 6), Point(4, 6)]), Part(Number(755), [Point(6, 7), Point(7, 7), Point(8, 7)]), Part(Symbol('$'), [Point(3, 8)]), Part(Symbol('*'), [Point(5, 8)]), Part(Number(66), [Point(1, 9), Point(2, 9)])], [Part(Number(467), [Point(0, 0), Point(1, 0), Point(2, 0)]), Part(Number(114), [Point(5, 0), Point(6, 0), Point(7, 0)]), Part(Symbol('*'), [Point(3, 1)]), Part(Number(35), [Point(2, 2), Point(3, 2)]), Part(Number(633), [Point(6, 2), Point(7, 2), Point(8, 2)]), Part(Symbol('#'), [Point(6, 3)]), Part(Number(617), [Point(0, 4), Point(1, 4), Point(2, 4)]), Part(Symbol('*'), [Point(3, 4)]), Part(Symbol('+'), [Point(5, 5)]), Part(Number(58), [Point(7, 5), Point(8, 5)]), Part(Number(592), [Point(2, 6), Point(3, 6), Point(4, 6)]), Part(Number(755), [Point(6, 7), Point(7, 7), Point(8, 7)]), Part(Symbol('$'), [Point(3, 8)]), Part(Symbol('*'), [Point(5, 8)]), Part(Number(664), [Point(1, 9), Point(2, 9), Point(3, 9)])]);
  }

  lemma SampleRow9At4(start: seq<Part>, row: string)
    requires 4 < |row| && row[4] == '.'
    requires ScanRow(start, row[..4], 9) == [Part(Number(467), [Point(0, 0), Point(1, 0), Point(2, 0)]), Part(Number(114), [Point(5, 0), Point(6, 0), Point(7, 0)]), Part(Symbol('*'), [Point(3, 1)]), Part(Number(35), [Point(2, 2), Point(3, 2)]), Part(Number(633), [Point(6, 2), Point(7, 2), Point(8, 2)]), Part(Symbol('#'), [Point(6, 3)]), Part(Number(617), [Point(0, 4), Point(1, 4), Point(2, 4)]), Part(Symbol('*'), [Point(3, 4)]), Part(Symbol('+'), [Point(5, 5)]), Part(Number(58), [Point(7, 5), Point(8, 5)]), Part(Number(592), [Point(2, 6), Point(3, 6), Point(4, 6)]), Part(Number(755), [Point(6, 7), Point(7, 7), Point(8, 7)]), Part(Symbol('$'), [Point(3, 8)]), Part(Symbol('*'), [Point(5, 8)]), Part(Number(664), [Point(1, 9), Point(2, 9), Point(3, 9)])]
    ensures ScanRow(start, row[..5], 9) == [Part(Number(467), [Point(0, 0), Point(1, 0), Point(2, 0)]), Part(Number(114), [Point(5, 0), Point(6, 0), Point(7, 0)]), Part(Symbol('*'), [Point(3, 1)]), Part(Number(35), [Point(2, 2), Point(3, 2)]), Part(Number(633), [Point(6, 2), Point(7, 2), Point(8, 2)]), Part(Symbol('#'), [Point(6, 3)]), Part(Number(617), [Point(0, 4), Point(1, 4), Point(2, 4)]), Part(Symbol('*'), [Point(3, 4)]), Part(Symbol('+'), [Point(5, 5)]), Part(Number(58), [Point(7, 5), Point(8, 5)]), Part(Number(592), [Point(2, 6), Point(3, 6), Point(4, 6)]), Part(Number(755), [Point(6, 7), Point(7, 7), Point(8, 7)]), Part(Symbol('$'), [Point(3, 8)]), Part(Symbol('*'), [Point(5, 8)]), Part(Number(664), [Point(1, 9), Point(2, 9), Point(3, 9)])]
  {
    StepSkip([Part(Number(467), [Point(0, 0), Point(1, 0), Point(2, 0)]), Part(Number(114), [Point(5, 0), Point(6, 0), Point(7, 0)]), Part(Symbol('*'), [Point(3, 1)]), Part(Number(35), [Point(2, 2), Point(3, 2)]), Part(Number(633), [Point(6, 2), Point(7, 2), Point(8, 2)]), Part(Symbol('#'), [Point(6, 3)]), Part(Number(617), [Point(0, 4), Point(1, 4), Point(2, 4)]), Part(Symbol('*'), [Point(3, 4)]), Part(Symbol('+'), [Point(5, 5)]), Part(Number(58), [Point(7, 5), Point(8, 5)]), Part(Number(592), [Point(2, 6), Point(3, 6), Point(4, 6)]), Part(Number(755), [Point(6, 7), Point(7, 7), Point(8, 7)]), Part(Symbol('$'), [Point(3, 8)]), Part(Symbol('*'), [Point(5, 8)]), Part(Number(664), [Point(1, 9), Point(2, 9), Point(3, 9)])], 4, 9, [Part(Number(467), [Point(0, 0), Point(1, 0), Point(2, 0)]), Part(Number(114), [Point(5, 0), Point(6, 0), Point(7, 0)]), Part(Symbol('*'), [Point(3, 1)]), Part(Number(35), [Point(2, 2), Point(3, 2)]), Part(Number(633), [Point(6, 2), Point(7, 2), Point(8, 2)]), Part(Symbol('#'), [Point(6, 3)]), Part(Number(617), [Point(0, 4), Point(1, 4), Point(2, 4)]), Part(Symbol('*'), [Point(3, 4)]), Part(Symbol('+'), [Point(5, 5)]), Part(Number(58), [Point(7, 5), Point(8, 5)]), Part(Number(592), [Point(2, 6), Point(3, 6), Point(4, 6)]), Part(Number(755), [Point(6, 7), Point(7, 7), Point(8, 7)]), Part(Symbol('$'), [Point(3, 8)]), Part(Symbol('*'), [Point(5, 8)]), Part(Number(664), [Point(1, 9), Point(2, 9), Point(3, 9)])]);
    ScanRowAdvance(start, row, 9, 4, '.', [Part(Number(467), [Point(0, 0), Point(1, 0), Point(2, 0)]), Part(Number(114), [Point(5, 0), Point(6, 0), Point(7, 0)]), Part(Symbol('*'), [Point(3, 1)]), Part(Number(35), [Point(2, 2), Point(3, 2)]), Part(Number(633), [Point(6, 2), Point(7, 2), Point(8, 2)]), Part(Symbol('#'), [Point(6, 3)]), Part(Number(617), [Point(0, 4), Point(1, 4), Point(2, 4)]), Part(Symbol('*'), [Point(3, 4)]), Part(Symbol('+'), [Point(5, 5)]), Part(Number(58), [Point(7, 5), Point(8, 5)]), Part(Number(592), [Point(2, 6), Point(3, 6), Point(4, 6)]), Part(Number(755), [Point(6, 7), Point(7, 7), Point(8, 7)]), Part(Symbol('$'), [Point(3, 8)]), Part(Symbol('*'), [Point(5, 8)]), Part(Number(664), [Point(1, 9), Point(2, 9), Point(3, 9)])], [Part(Number(467), [Point(0, 0), Point(1, 0), Point(2, 0)]), Part(Number(114), [Point(5, 0), Point(6, 0), Point(7, 0)]), Part(Symbol('*'), [Point(3, 1)]), Part(Number(35), [Point(2, 2), Point(3, 2)]), Part(Number(633), [Point(6, 2), Point(7, 2), Point(8, 2)]), Part(Symbol('#'), [Point(6, 3)]), Part(Number(617), [Point(0, 4), Point(1, 4), Point(2, 4)]), Part(Symbol('*'), [Point(3, 4)]), Part(Symbol('+'), [Point(5, 5)]), Part(Number(58), [Point(7, 5), Point(8, 5)]), Part(Number(592), [Point(2, 6), Point(3, 6), Point(4, 6)]), Part(Number(755), [Point(6, 7), Point(7, 7), Point(8, 7)]), Part(Symbol('$'), [Point(3, 8)]), Part(Symbol('*'), [Point(5, 8)]), Part(Number(664), [Point(1, 9), Point(2, 9), Point(3, 9)])]);
  }

  lemma SampleRow9At5(start: seq<Part>, row: string)
    requires 5 < |row| && row[5] == '5'
    requires ScanRow(start, row[..5], 9) == [Part(Number(467), [Point(0, 0), Point(1, 0), Point(2, 0)]), Part(Number(114), [Point(5, 0), Point(6, 0), Point(7, 0)]), Part(Symbol('*'), [Point(3, 1)]), Part(Number(35), [Point(2, 2), Point(3, 2)]), Part(Number(633), [Point(6, 2), Point(7, 2), Point(8, 2)]), Part(Symbol('#'), [Point(6, 3)]), Part(Number(617), [Point(0, 4), Point(1, 4), Point(2, 4)]), Part(Symbol('*'), [Point(3, 4)]), Part(Symbol('+'), [Point(5, 5)]), Part(Number(58), [Point(7, 5), Point(8, 5)]), Part(Number(592), [Point(2, 6), Point(3, 6), Point(4, 6)]), Part(Number(755), [Point(6, 7), Point(7, 7), Point(8, 7)]), Part(Symbol('$'), [Point(3, 8)]), Part(Symbol('*'), [Point(5, 8)]), Part(Number(664), [Point(1, 9), Point(2, 9), Point(3, 9)])]
    ensures ScanRow(start, row[..6], 9) == [Part(Number(467), [Point(0, 0), Point(1, 0), Point(2, 0)]), Part(Number(114), [Point(5, 0), Point(6, 0), Point(7, 0)]), Part(Symbol('*'), [Point(3, 1)]), Part(Number(35), [Point(2, 2), Point(3, 2)]), Part(Number(633), [Point(6, 2), Point(7, 2), Point(8, 2)]), Part(Symbol('#'), [Point(6, 3)]), Part(Number(617), [Point(0, 4), Point(1, 4), Point(2, 4)]), Part(Symbol('*'), [Point(3, 4)]), Part(Symbol('+'), [Point(5, 5)]), Part(Number(58), [Point(7, 5), Point(8, 5)]), Part(Number(592), [Point(2, 6), Point(3, 6), Point(4, 6)]), Part(Number(755), [Point(6, 7), Point(7, 7), Point(8, 7)]), Part(Symbol('$'), [Point(3, 8)]), Part(Symbol('*'), [Point(5, 8)]), Part(Number(664), [Point(1, 9), Point(2, 9), Point(3, 9)]), Part(Number(5), [Point(5, 9)])]
  {
    StepStart([Part(Number(467), [Point(0, 0), Point(1, 0), Point(2, 0)]), Part(Number(114), [Point(5, 0), Point(6, 0), Point(7, 0)]), Part(Symbol('*'), [Point(3, 1)]), Part(Number(35), [Point(2, 2), Point(3, 2)]), Part(Number(633), [Point(6, 2), Point(7, 2), Point(8, 2)]), Part(Symbol('#'), [Point(6, 3)]), Part(Number(617), [Point(0, 4), Point(1, 4), Point(2, 4)]), Part(Symbol('*'), [Point(3, 4)]), Part(Symbol('+'), [Point(5, 5)]), Part(Number(58), [Point(7, 5), Point(8, 5)]), Part(Number(592), [Point(2, 6), Point(3, 6), Point(4, 6)]), Part(Number(755), [Point(6, 7), Point(7, 7), Point(8, 7)]), Part(Symbol('$'), [Point(3, 8)]), Part(Symbol('*'), [Point(5, 8)]), Part(Number(664), [Point(1, 9), Point(2, 9), Point(3, 9)])], 5, 9, '5', 5, [Part(Number(467), [Point(0, 0), Point(1, 0), Point(2, 0)]), Part(Number(114), [Point(5, 0), Point(6, 0), Point(7, 0)]), Part(Symbol('*'), [Point(3, 1)]), Part(Number(35), [Point(2, 2), Point(3, 2)]), Part(Number(633), [Point(6, 2), Point(7, 2), Point(8, 2)]), Part(Symbol('#'), [Point(6, 3)]), Part(Number(617), [Point(0, 4), Point(1, 4), Point(2, 4)]), Part(Symbol('*'), [Point(3, 4)]), Part(Symbol('+'), [Point(5, 5)]), Part(Number(58), [Point(7, 5), Point(8, 5)]), Part(Number(592), [Point(2, 6), Point(3, 6), Point(4, 6)]), Part(Number(755), [Point(6, 7), Point(7, 7), Point(8, 7)]), Part(Symbol('$'), [Point(3, 8)]), Part(Symbol('*'), [Point(5, 8)]), Part(Number(664), [Point(1, 9), Point(2, 9), Point(3, 9)]), Part(Number(5), [Point(5, 9)])]);
    ScanRowAdvance(start, row, 9, 5, '5', [Part(Number(467), [Point(0, 0), Point(1, 0), Point(2, 0)]), Part(Number(114), [Point(5, 0), Point(6, 0), Point(7, 0)]), Part(Symbol('*'), [Point(3, 1)]), Part(Number(35), [Point(2, 2), Point(3, 2)]), Part(Number(633), [Point(6, 2), Point(7, 2), Point(8, 2)]), Part(Symbol('#'), [Point(6, 3)]), Part(Number(617), [Point(0, 4), Point(1, 4), Point(2, 4)]), Part(Symbol('*'), [Point(3, 4)]), Part(Symbol('+'), [Point(5, 5)]), Part(Number(58), [Point(7, 5), Point(8, 5)]), Part(Number(592), [Point(2, 6), Point(3, 6), Point(4, 6)]), Part(Number(755), [Point(6, 7), Point(7, 7), Point(8, 7)]), Part(Symbol('$'), [Point(3, 8)]), Part(Symbol('*'), [Point(5, 8)]), Part(Number(664), [Point(1, 9), Point(2, 9), Point(3, 9)])], [Part(Number(467), [Point(0, 0), Point(1, 0), Point(2, 0)]), Part(Number(114), [Point(5, 0), Point(6, 0), Point(7, 0)]), Part(Symbol('*'), [Point(3, 1)]), Part(Number(35), [Point(2, 2), Point(3, 2)]), Part(Number(633), [Point(6, 2), Point(7, 2), Point(8, 2)]), Part(Symbol('#'), [Point(6, 3)]), Part(Number(617), [Point(0, 4), Point(1, 4), Point(2, 4)]), Part(Symbol('*'), [Point(3, 4)]), Part(Symbol('+'), [Point(5, 5)]), Part(Number(58), [Point(7, 5), Point(8, 5)]), Part(Number(592), [Point(2, 6), Point(3, 6), Point(4, 6)]), Part(Number(755), [Point(6, 7), Point(7, 7), Point(8, 7)]), Part(Symbol('$'), [Point(3, 8)]), Part(Symbol('*'), [Point(5, 8)]), Part(Number(664), [Point(1, 9), Point(2, 9), Point(3, 9)]), Part(Number(5), [Point(5, 9)])]);
  }

  lemma SampleRow9At6(start: seq<Part>, row: string)
    requires 6 < |row| && row[6] == '9'
    requires ScanRow(start, row[..6], 9) == [Part(Number(467), [Point(0, 0), Point(1, 0), Point(2, 0)]), Part(Number(114), [Point(5, 0), Point(6, 0), Point(7, 0)]), Part(Symbol('*'), [Point(3, 1)]), Part(Number(35), [Point(2, 2), Point(3, 2)]), Part(Number(633), [Point(6, 2), Point(7, 2), Point(8, 2)]), Part(Symbol('#'), [Point(6, 3)]), Part(Number(617), [Point(0, 4), Point(1, 4), Point(2, 4)]), Part(Symbol('*'), [Point(3, 4)]), Part(Symbol('+'), [Point(5, 5)]), Part(Number(58), [Point(7, 5), Point(8, 5)]), Part(Number(592), [Point(2, 6), Point(3, 6), Point(4, 6)]), Part(Number(755), [Point(6, 7), Point(7, 7), Point(8, 7)]), Part(Symbol('$'), [Point(3, 8)]), Part(Symbol('*'), [Point(5, 8)]), Part(Number(664), [Point(1, 9), Point(2, 9), Point(3, 9)]), Part(Number(5), [Point(5, 9)])]
    ensures ScanRow(start, row[..7], 9) == [Part(Number(467), [Point(0, 0), Point(1, 0), Point(2, 0)]), Part(Number(114), [Point(5, 0), Point(6, 0), Point(7, 0)]), Part(Symbol('*'), [Point(3, 1)]), Part(Number(35), [Point(2, 2), Point(3, 2)]), Part(Number(633), [Point(6, 2), Point(7, 2), Point(8, 2)]), Part(Symbol('#'), [Point(6, 3)]), Part(Number(617), [Point(0, 4), Point(1, 4), Point(2, 4)]), Part(Symbol('*'), [Point(3, 4)]), Part(Symbol('+'), [Point(5, 5)]), Part(Number(58), [Point(7, 5), Point(8, 5)]), Part(Number(592), [Point(2, 6), Point(3, 6), Point(4, 6)]), Part(Number(755), [Point(6, 7), Point(7, 7), Point(8, 7)]), Part(Symbol('$'), [Point(3, 8)]), Part(Symbol('*'), [Point(5, 8)]), Part(Number(664), [Point(1, 9), Point(2, 9), Point(3, 9)]), Part(Number(59), [Point(5, 9), Point(6, 9)])]
  {
    StepExtend([Part(Number(467), [Point(0, 0), Point(1, 0), Point(2, 0)]), Part(Number(114), [Point(5, 0), Point(6, 0), Point(7, 0)]), Part(Symbol('*'), [Point(3, 1)]), Part(Number(35), [Point(2, 2), Point(3, 2)]), Part(Number(633), [Point(6, 2), Point(7, 2), Point(8, 2)]), Part(Symbol('#'), [Point(6, 3)]), Part(Number(617), [Point(0, 4), Point(1, 4), Point(2, 4)]), Part(Symbol('*'), [Point(3, 4)]), Part(Symbol('+'), [Point(5, 5)]), Part(Number(58), [Point(7, 5), Point(8, 5)]), Part(Number(592), [Point(2, 6), Point(3, 6), Point(4, 6)]), Part(Number(755), [Point(6, 7), Point(7, 7), Point(8, 7)]), Part(Symbol('$'), [Point(3, 8)]), Part(Symbol('*'), [Point(5, 8)]), Part(Number(664), [Point(1, 9), Point(2, 9), Point(3, 9)]), Part(Number(5), [Point(5, 9)])], [Part(Number(467), [Point(0, 0), Point(1, 0), Point(2, 0)]), Part(Number(114), [Point(5, 0), Point(6, 0), Point(7, 0)]), Part(Symbol('*'), [Point(3, 1)]), Part(Number(35), [Point(2, 2), Point(3, 2)]), Part(Number(633), [Point(6, 2), Point(7, 2), Point(8, 2)]), Part(Symbol('#'), [Point(6, 3)]), Part(Number(617), [Point(0, 4), Point(1, 4), Point(2, 4)]), Part(Symbol('*'), [Point(3, 4)]), Part(Symbol('+'), [Point(5, 5)]), Part(Number(58), [Point(7, 5), Point(8, 5)]), Part(Number(592), [Point(2, 6), Point(3, 6), Point(4, 6)]), Part(Number(755), [Point(6, 7), Point(7, 7), Point(8, 7)]), Part(Symbol('$'), [Point(3, 8)]), Part(Symbol('*'), [Point(5, 8)]), Part(Number(664), [Point(1, 9), Point(2, 9), Point(3, 9)])], 5, [Point(5, 9)], 6, 9, '9', 59, [Point(5, 9), Point(6, 9)], [Part(Number(467), [Point(0, 0), Point(1, 0), Point(2, 0)]), Part(Number(114), [Point(5, 0), Point(6, 0), Point(7, 0)]), Part(Symbol('*'), [Point(3, 1)]), Part(Number(35), [Point(2, 2), Point(3, 2)]), Part(Number(633), [Point(6, 2), Point(7, 2), Point(8, 2)]), Part(Symbol('#'), [Point(6, 3)]), Part(Number(617), [Point(0, 4), Point(1, 4), Point(2, 4)]), Part(Symbol('*'), [Point(3, 4)]), Part(Symbol('+'), [Point(5, 5)]), Part(Number(58), [Point(7, 5), Point(8, 5)]), Part(Number(592), [Point(2, 6), Point(3, 6), Point(4, 6)]), Part(Number(755), [Point(6, 7), Point(7, 7), Point(8, 7)]), Part(Symbol('$'), [Point(3, 8)]), Part(Symbol('*'), [Point(5, 8)]), Part(Number(664), [Point(1, 9), Point(2, 9), Point(3, 9)]), Part(Number(59), [Point(5, 9), Point(6, 9)])]);
    ScanRowAdvance(start, row, 9, 6, '9', [Part(Number(467), [Point(0, 0), Point(1, 0), Point(2, 0)]), Part(Number(114), [Point(5, 0), Point(6, 0), Point(7, 0)]), Part(Symbol('*'), [Point(3, 1)]), Part(Number(35), [Point(2, 2), Point(3, 2)]), Part(Number(633), [Point(6, 2), Point(7, 2), Point(8, 2)]), Part(Symbol('#'), [Point(6, 3)]), Part(Number(617), [Point(0, 4), Point(1, 4), Point(2, 4)]), Part(Symbol('*'), [Point(3, 4)]), Part(Symbol('+'), [Point(5, 5)]), Part(Number(58), [Point(7, 5), Point(8, 5)]), Part(Number(592), [Point(2, 6), Point(3, 6), Point(4, 6)]), Part(Number(755), [Point(6, 7), Point(7, 7), Point(8, 7)]), Part(Symbol('$'), [Point(3, 8)]), Part(Symbol('*'), [Point(5, 8)]), Part(Number(664), [Point(1, 9), Point(2, 9), Point(3, 9)]), Part(Number(5), [Point(5, 9)])], [Part(Number(467), [Point(0, 0), Point(1, 0), Point(2, 0)]), Part(Number(114), [Point(5, 0), Point(6, 0), Point(7, 0)]), Part(Symbol('*'), [Point(3, 1)]), Part(Number(35), [Point(2, 2), Point(3, 2)]), Part(Number(633), [Point(6, 2), Point(7, 2), Point(8, 2)]), Part(Symbol('#'), [Point(6, 3)]), Part(Number(617), [Point(0, 4), Point(1, 4), Point(2, 4)]), Part(Symbol('*'), [Point(3, 4)]), Part(Symbol('+'), [Point(5, 5)]), Part(Number(58), [Point(7, 5), Point(8, 5)]), Part(Number(592), [Point(2, 6), Point(3, 6), Point(4, 6)]), Part(Number(755), [Point(6, 7), Point(7, 7), Point(8, 7)]), Part(Symbol('$'), [Point(3, 8)]), Part(Symbol('*'), [Point(5, 8)]), Part(Number(664), [Point(1, 9), Point(2, 9), Point(3, 9)]), Part(Number(59), [Point(5, 9), Point(6, 9)])]);
  }

  lemma SampleRow9At7(start: seq<Part>, row: string)
    requires 7 < |row| && row[7] == '8'
    requires ScanRow(start, row[..7], 9) == [Part(Number(467), [Point(0, 0), Point(1, 0), Point(2, 0)]), Part(Number(114), [Point(5, 0), Point(6, 0), Point(7, 0)]), Part(Symbol('*'), [Point(3, 1)]), Part(Number(35), [Point(2, 2), Point(3, 2)]), Part(Number(633), [Point(6, 2), Point(7, 2), Point(8, 2)]), Part(Symbol('#'), [Point(6, 3)]), Part(Number(617), [Point(0, 4), Point(1, 4), Point(2, 4)]), Part(Symbol('*'), [Point(3, 4)]), Part(Symbol('+'), [Point(5, 5)]), Part(Number(58), [Point(7, 5), Point(8, 5)]), Part(Number(592), [Point(2, 6), Point(3, 6), Point(4, 6)]), Part(Number(755), [Point(6, 7), Point(7, 7), Point(8, 7)]), Part(Symbol('$'), [Point(3, 8)]), Part(Symbol('*'), [Point(5, 8)]), Part(Number(664), [Point(1, 9), Point(2, 9), Point(3, 9)]), Part(Number(59), [Point(5, 9), Point(6, 9)])]
    ensures ScanRow(start, row[..8], 9) == [Part(Number(467), [Point(0, 0), Point(1, 0), Point(2, 0)]), Part(Number(114), [Point(5, 0), Point(6, 0), Point(7, 0)]), Part(Symbol('*'), [Point(3, 1)]), Part(Number(35), [Point(2, 2), Point(3, 2)]), Part(Number(633), [Point(6, 2), Point(7, 2), Point(8, 2)]), Part(Symbol('#'), [Point(6, 3)]), Part(Number(617), [Point(0, 4), Point(1, 4), Point(2, 4)]), Part(Symbol('*'), [Point(3, 4)]), Part(Symbol('+'), [Point(5, 5)]), Part(Number(58), [Point(7, 5), Point(8, 5)]), Part(Number(592), [Point(2, 6), Point(3, 6), Point(4, 6)]), Part(Number(755), [Point(6, 7), Point(7, 7), Point(8, 7)]), Part(Symbol('$'), [Point(3, 8)]), Part(Symbol('*'), [Point(5, 8)]), Part(Number(664), [Point(1, 9), Point(2, 9), Point(3, 9)]), Part(Number(598), [Point(5, 9), Point(6, 9), Point(7, 9)])]
  {
    StepExtend([Part(Number(467), [Point(0, 0), Point(1, 0), Point(2, 0)]), Part(Number(114), [Point(5, 0), Point(6, 0), Point(7, 0)]), Part(Symbol('*'), [Point(3, 1)]), Part(Number(35), [Point(2, 2), Point(3, 2)]), Part(Number(633), [Point(6, 2), Point(7, 2), Point(8, 2)]), Part(Symbol('#'), [Point(6, 3)]), Part(Number(617), [Point(0, 4), Point(1, 4), Point(2, 4)]), Part(Symbol('*'), [Point(3, 4)]), Part(Symbol('+'), [Point(5, 5)]), Part(Number(58), [Point(7, 5), Point(8, 5)]), Part(Number(592), [Point(2, 6), Point(3, 6), Point(4, 6)]), Part(Number(755), [Point(6, 7), Point(7, 7), Point(8, 7)]), Part(Symbol('$'), [Point(3, 8)]), Part(Symbol('*'), [Point(5, 8)]), Part(Number(664), [Point(1, 9), Point(2, 9), Point(3, 9)]), Part(Number(59), [Point(5, 9), Point(6, 9)])], [Part(Number(467), [Point(0, 0), Point(1, 0), Point(2, 0)]), Part(Number(114), [Point(5, 0), Point(6, 0), Point(7, 0)]), Part(Symbol('*'), [Point(3, 1)]), Part(Number(35), [Point(2, 2), Point(3, 2)]), Part(Number(633), [Point(6, 2), Point(7, 2), Point(8, 2)]), Part(Symbol('#'), [Point(6, 3)]), Part(Number(617), [Point(0, 4), Point(1, 4), Point(2, 4)]), Part(Symbol('*'), [Point(3, 4)]), Part(Symbol('+'), [Point(5, 5)]), Part(Number(58), [Point(7, 5), Point(8, 5)]), Part(Number(592), [Point(2, 6), Point(3, 6), Point(4, 6)]), Part(Number(755), [Point(6, 7), Point(7, 7), Point(8, 7)]), Part(Symbol('$'), [Point(3, 8)]), Part(Symbol('*'), [Point(5, 8)]), Part(Number(664), [Point(1, 9), Point(2, 9), Point(3, 9)])], 59, [Point(5, 9), Point(6, 9)], 7, 9, '8', 598, [Point(5, 9), Point(6, 9), Point(7, 9)], [Part(Number(467), [Point(0, 0), Point(1, 0), Point(2, 0)]), Part(Number(114), [Point(5, 0), Point(6, 0), Point(7, 0)]), Part(Symbol('*'), [Point(3, 1)]), Part(Number(35), [Point(2, 2), Point(3, 2)]), Part(Number(633), [Point(6, 2), Point(7, 2), Point(8, 2)]), Part(Symbol('#'), [Point(6, 3)]), Part(Number(617), [Point(0, 4), Point(1, 4), Point(2, 4)]), Part(Symbol('*'), [Point(3, 4)]), Part(Symbol('+'), [Point(5, 5)]), Part(Number(58), [Point(7, 5), Point(8, 5)]), Part(Number(592), [Point(2, 6), Point(3, 6), Point(4, 6)]), Part(Number(755), [Point(6, 7), Point(7, 7), Point(8, 7)]), Part(Symbol('$'), [Point(3, 8)]), Part(Symbol('*'), [Point(5, 8)]), Part(Number(664), [Point(1, 9), Point(2, 9), Point(3, 9)]), Part(Number(598), [Point(5, 9), Point(6, 9), Point(7, 9)])]);
    ScanRowAdvance(start, row, 9, 7, '8', [Part(Number(467), [Point(0, 0), Point(1, 0), Point(2, 0)]), Part(Number(114), [Point(5, 0), Point(6, 0), Point(7, 0)]), Part(Symbol('*'), [Point(3, 1)]), Part(Number(35), [Point(2, 2), Point(3, 2)]), Part(Number(633), [Point(6, 2), Point(7, 2), Point(8, 2)]), Part(Symbol('#'), [Point(6, 3)]), Part(Number(617), [Point(0, 4), Point(1, 4), Point(2, 4)]), Part(Symbol('*'), [Point(3, 4)]), Part(Symbol('+'), [Point(5, 5)]), Part(Number(58), [Point(7, 5), Point(8, 5)]), Part(Number(592), [Point(2, 6), Point(3, 6), Point(4, 6)]), Part(Number(755), [Point(6, 7), Point(7, 7), Point(8, 7)]), Part(Symbol('$'), [Point(3, 8)]), Part(Symbol('*'), [Point(5, 8)]), Part(Number(664), [Point(1, 9), Point(2, 9), Point(3, 9)]), Part(Number(59), [Point(5, 9), Point(6, 9)])], [Part(Number(467), [Point(0, 0), Point(1, 0), Point(2, 0)]), Part(Number(114), [Point(5, 0), Point(6, 0), Point(7, 0)]), Part(Symbol('*'), [Point(3, 1)]), Part(Number(35), [Point(2, 2), Point(3, 2)]), Part(Number(633), [Point(6, 2), Point(7, 2), Point(8, 2)]), Part(Symbol('#'), [Point(6, 3)]), Part(Number(617), [Point(0, 4), Point(1, 4), Point(2, 4)]), Part(Symbol('*'), [Point(3, 4)]), Part(Symbol('+'), [Point(5, 5)]), Part(Number(58), [Point(7, 5), Point(8, 5)]), Part(Number(592), [Point(2, 6), Point(3, 6), Point(4, 6)]), Part(Number(755), [Point(6, 7), Point(7, 7), Point(8, 7)]), Part(Symbol('$'), [Point(3, 8)]), Part(Symbol('*'), [Point(5, 8)]), Part(Number(664), [Point(1, 9), Point(2, 9), Point(3, 9)]), Part(Number(598), [Point(5, 9), Point(6, 9), Point(7, 9)])]);
  }

  lemma SampleRow9At8(start: seq<Part>, row: string)
    requires 8 < |row| && row[8] == '.'
    requires ScanRow(start, row[..8], 9) == [Part(Number(467), [Point(0, 0), Point(1, 0), Point(2, 0)]), Part(Number(114), [Point(5, 0), Point(6, 0), Point(7, 0)]), Part(Symbol('*'), [Point(3, 1)]), Part(Number(35), [Point(2, 2), Point(3, 2)]), Part(Number(633), [Point(6, 2), Point(7, 2), Point(8, 2)]), Part(Symbol('#'), [Point(6, 3)]), Part(Number(617), [Point(0, 4), Point(1, 4), Point(2, 4)]), Part(Symbol('*'), [Point(3, 4)]), Part(Symbol('+'), [Point(5, 5)]), Part(Number(58), [Point(7, 5), Point(8, 5)]), Part(Number(592), [Point(2, 6), Point(3, 6), Point(4, 6)]), Part(Number(755), [Point(6, 7), Point(7, 7), Point(8, 7)]), Part(Symbol('$'), [Point(3, 8)]), Part(Symbol('*'), [Point(5, 8)]), Part(Number(664), [Point(1, 9), Point(2, 9), Point(3, 9)]), Part(Number(598), [Point(5, 9), Point(6, 9), Point(7, 9)])]
    ensures ScanRow(start, row[..9], 9) == [Part(Number(467), [Point(0, 0), Point(1, 0), Point(2, 0)]), Part(Number(114), [Point(5, 0), Point(6, 0), Point(7, 0)]), Part(Symbol('*'), [Point(3, 1)]), Part(Number(35), [Point(2, 2), Point(3, 2)]), Part(Number(633), [Point(6, 2), Point(7, 2), Point(8, 2)]), Part(Symbol('#'), [Point(6, 3)]), Part(Number(617), [Point(0, 4), Point(1, 4), Point(2, 4)]), Part(Symbol('*'), [Point(3, 4)]), Part(Symbol('+'), [Point(5, 5)]), Part(Number(58), [Point(7, 5), Point(8, 5)]), Part(Number(592), [Point(2, 6), Point(3, 6), Point(4, 6)]), Part(Number(755), [Point(6, 7), Point(7, 7), Point(8, 7)]), Part(Symbol('$'), [Point(3, 8)]), Part(Symbol('*'), [Point(5, 8)]), Part(Number(664), [Point(1, 9), Point(2, 9), Point(3, 9)]), Part(Number(598), [Point(5, 9), Point(6, 9), Point(7, 9)])]
  {
    StepSkip([Part(Number(467), [Point(0, 0), Point(1, 0), Point(2, 0)]), Part(Number(114), [Point(5, 0), Point(6, 0), Point(7, 0)]), Part(Symbol('*'), [Point(3, 1)]), Part(Number(35), [Point(2, 2), Point(3, 2)]), Part(Number(633), [Point(6, 2), Point(7, 2), Point(8, 2)]), Part(Symbol('#'), [Point(6, 3)]), Part(Number(617), [Point(0, 4), Point(1, 4), Point(2, 4)]), Part(Symbol('*'), [Point(3, 4)]), Part(Symbol('+'), [Point(5, 5)]), Part(Number(58), [Point(7, 5), Point(8, 5)]), Part(Number(592), [Point(2, 6), Point(3, 6), Point(4, 6)]), Part(Number(755), [Point(6, 7), Point(7, 7), Point(8, 7)]), Part(Symbol('$'), [Point(3, 8)]), Part(Symbol('*'), [Point(5, 8)]), Part(Number(664), [Point(1, 9), Point(2, 9), Point(3, 9)]), Part(Number(598), [Point(5, 9), Point(6, 9), Point(7, 9)])], 8, 9, [Part(Number(467), [Point(0, 0), Point(1, 0), Point(2, 0)]), Part(Number(114), [Point(5, 0), Point(6, 0), Point(7, 0)]), Part(Symbol('*'), [Point(3, 1)]), Part(Number(35), [Point(2, 2), Point(3, 2)]), Part(Number(633), [Point(6, 2), Point(7, 2), Point(8, 2)]), Part(Symbol('#'), [Point(6, 3)]), Part(Number(617), [Point(0, 4), Point(1, 4), Point(2, 4)]), Part(Symbol('*'), [Point(3, 4)]), Part(Symbol('+'), [Point(5, 5)]), Part(Number(58), [Point(7, 5), Point(8, 5)]), Part(Number(592), [Point(2, 6), Point(3, 6), Point(4, 6)]), Part(Number(755), [Point(6, 7), Point(7, 7), Point(8, 7)]), Part(Symbol('$'), [Point(3, 8)]), Part(Symbol('*'), [Point(5, 8)]), Part(Number(664), [Point(1, 9), Point(2, 9), Point(3, 9)]), Part(Number(598), [Point(5, 9), Point(6, 9), Point(7, 9)])]);
    ScanRowAdvance(start, row, 9, 8, '.', [Part(Number(467), [Point(0, 0), Point(1, 0), Point(2, 0)]), Part(Number(114), [Point(5, 0), Point(6, 0), Point(7, 0)]), Part(Symbol('*'), [Point(3, 1)]), Part(Number(35), [Point(2, 2), Point(3, 2)]), Part(Number(633), [Point(6, 2), Point(7, 2), Point(8, 2)]), Part(Symbol('#'), [Point(6, 3)]), Part(Number(617), [Point(0, 4), Point(1, 4), Point(2, 4)]), Part(Symbol('*'), [Point(3, 4)]), Part(Symbol('+'), [Point(5, 5)]), Part(Number(58), [Point(7, 5), Point(8, 5)]), Part(Number(592), [Point(2, 6), Point(3, 6), Point(4, 6)]), Part(Number(755), [Point(6, 7), Point(7, 7), Point(8, 7)]), Part(Symbol('$'), [Point(3, 8)]), Part(Symbol('*'), [Point(5, 8)]), Part(Number(664), [Point(1, 9), Point(2, 9), Point(3, 9)]), Part(Number(598), [Point(5, 9), Point(6, 9), Point(7, 9)])], [Part(Number(467), [Point(0, 0), Point(1, 0), Point(2, 0)]), Part(Number(114), [Point(5, 0), Point(6, 0), Point(7, 0)]), Part(Symbol('*'), [Point(3, 1)]), Part(Number(35), [Point(2, 2), Point(3, 2)]), Part(Number(633), [Point(6, 2), Point(7, 2), Point(8, 2)]), Part(Symbol('#'), [Point(6, 3)]), Part(Number(617), [Point(0, 4), Point(1, 4), Point(2, 4)]), Part(Symbol('*'), [Point(3, 4)]), Part(Symbol('+'), [Point(5, 5)]), Part(Number(58), [Point(7, 5), Point(8, 5)]), Part(Number(592), [Point(2, 6), Point(3, 6), Point(4, 6)]), Part(Number(755), [Point(6, 7), Point(7, 7), Point(8, 7)]), Part(Symbol('$'), [Point(3, 8)]), Part(Symbol('*'), [Point(5, 8)]), Part(Number(664), [Point(1, 9), Point(2, 9), Point(3, 9)]), Part(Number(598), [Point(5, 9), Point(6, 9), Point(7, 9)])]);
  }

  lemma SampleRow9At9(start: seq<Part>, row: string)
    requires 9 < |row| && row[9] == '.'
    requires ScanRow(start, row[..9], 9) == [Part(Number(467), [Point(0, 0), Point(1, 0), Point(2, 0)]), Part(Number(114), [Point(5, 0), Point(6, 0), Point(7, 0)]), Part(Symbol('*'), [Point(3, 1)]), Part(Number(35), [Point(2, 2), Point(3, 2)]), Part(Number(633), [Point(6, 2), Point(7, 2), Point(8, 2)]), Part(Symbol('#'), [Point(6, 3)]), Part(Number(617), [Point(0, 4), Point(1, 4), Point(2, 4)]), Part(Symbol('*'), [Point(3, 4)]), Part(Symbol('+'), [Point(5, 5)]), Part(Number(58), [Point(7, 5), Point(8, 5)]), Part(Number(592), [Point(2, 6), Point(3, 6), Point(4, 6)]), Part(Number(755), [Point(6, 7), Point(7, 7), Point(8, 7)]), Part(Symbol('$'), [Point(3, 8)]), Part(Symbol('*'), [Point(5, 8)]), Part(Number(664), [Point(1, 9), Point(2, 9), Point(3, 9)]), Part(Number(598), [Point(5, 9), Point(6, 9), Point(7, 9)])]
    ensures ScanRow(start, row[..10], 9) == [Part(Number(467), [Point(0, 0), Point(1, 0), Point(2, 0)]), Part(Number(114), [Point(5, 0), Point(6, 0), Point(7, 0)]), Part(Symbol('*'), [Point(3, 1)]), Part(Number(35), [Point(2, 2), Point(3, 2)]), Part(Number(633), [Point(6, 2), Point(7, 2), Point(8, 2)]), Part(Symbol('#'), [Point(6, 3)]), Part(Number(617), [Point(0, 4), Point(1, 4), Point(2, 4)]), Part(Symbol('*'), [Point(3, 4)]), Part(Symbol('+'), [Point(5, 5)]), Part(Number(58), [Point(7, 5), Point(8, 5)]), Part(Number(592), [Point(2, 6), Point(3, 6), Point(4, 6)]), Part(Number(755), [Point(6, 7), Point(7, 7), Point(8, 7)]), Part(Symbol('$'), [Point(3, 8)]), Part(Symbol('*'), [Point(5, 8)]), Part(Number(664), [Point(1, 9), Point(2, 9), Point(3, 9)]), Part(Number(598), [Point(5, 9), Point(6, 9), Point(7, 9)])]
  {
    StepSkip([Part(Number(467), [Point(0, 0), Point(1, 0), Point(2, 0)]), Part(Number(114), [Point(5, 0), Point(6, 0), Point(7, 0)]), Part(Symbol('*'), [Point(3, 1)]), Part(Number(35), [Point(2, 2), Point(3, 2)]), Part(Number(633), [Point(6, 2), Point(7, 2), Point(8, 2)]), Part(Symbol('#'), [Point(6, 3)]), Part(Number(617), [Point(0, 4), Point(1, 4), Point(2, 4)]), Part(Symbol('*'), [Point(3, 4)]), Part(Symbol('+'), [Point(5, 5)]), Part(Number(58), [Point(7, 5), Point(8, 5)]), Part(Number(592), [Point(2, 6), Point(3, 6), Point(4, 6)]), Part(Number(755), [Point(6, 7), Point(7, 7), Point(8, 7)]), Part(Symbol('$'), [Point(3, 8)]), Part(Symbol('*'), [Point(5, 8)]), Part(Number(664), [Point(1, 9), Point(2, 9), Point(3, 9)]), Part(Number(598), [Point(5, 9), Point(6, 9), Point(7, 9)])], 9, 9, [Part(Number(467), [Point(0, 0), Point(1, 0), Point(2, 0)]), Part(Number(114), [Point(5, 0), Point(6, 0), Point(7, 0)]), Part(Symbol('*'), [Point(3, 1)]), Part(Number(35), [Point(2, 2), Point(3, 2)]), Part(Number(633), [Point(6, 2), Point(7, 2), Point(8, 2)]), Part(Symbol('#'), [Point(6, 3)]), Part(Number(617), [Point(0, 4), Point(1, 4), Point(2, 4)]), Part(Symbol('*'), [Point(3, 4)]), Part(Symbol('+'), [Point(5, 5)]), Part(Number(58), [Point(7, 5), Point(8, 5)]), Part(Number(592), [Point(2, 6), Point(3, 6), Point(4, 6)]), Part(Number(755), [Point(6, 7), Point(7, 7), Point(8, 7)]), Part(Symbol('$'), [Point(3, 8)]), Part(Symbol('*'), [Point(5, 8)]), Part(Number(664), [Point(1, 9), Point(2, 9), Point(3, 9)]), Part(Number(598), [Point(5, 9), Point(6, 9), Point(7, 9)])]);
    ScanRowAdvance(start, row, 9, 9, '.', [Part(Number(467), [Point(0, 0), Point(1, 0), Point(2, 0)]), Part(Number(114), [Point(5, 0), Point(6, 0), Point(7, 0)]), Part(Symbol('*'), [Point(3, 1)]), Part(Number(35), [Point(2, 2), Point(3, 2)]), Part(Number(633), [Point(6, 2), Point(7, 2), Point(8, 2)]), Part(Symbol('#'), [Point(6, 3)]), Part(Number(617), [Point(0, 4), Point(1, 4), Point(2, 4)]), Part(Symbol('*'), [Point(3, 4)]), Part(Symbol('+'), [Point(5, 5)]), Part(Number(58), [Point(7, 5), Point(8, 5)]), Part(Number(592), [Point(2, 6), Point(3, 6), Point(4, 6)]), Part(Number(755), [Point(6, 7), Point(7, 7), Point(8, 7)]), Part(Symbol('$'), [Point(3, 8)]), Part(Symbol('*'), [Point(5, 8)]), Part(Number(664), [Point(1, 9), Point(2, 9), Point(3, 9)]), Part(Number(598), [Point(5, 9), Point(6, 9), Point(7, 9)])], [Part(Number(467), [Point(0, 0), Point(1, 0), Point(2, 0)]), Part(Number(114), [Point(5, 0), Point(6, 0), Point(7, 0)]), Part(Symbol('*'), [Point(3, 1)]), Part(Number(35), [Point(2, 2), Point(3, 2)]), Part(Number(633), [Point(6, 2), Point(7, 2), Point(8, 2)]), Part(Symbol('#'), [Point(6, 3)]), Part(Number(617), [Point(0, 4), Point(1, 4), Point(2, 4)]), Part(Symbol('*'), [Point(3, 4)]), Part(Symbol('+'), [Point(5, 5)]), Part(Number(58), [Point(7, 5), Point(8, 5)]), Part(Number(592), [Point(2, 6), Point(3, 6), Point(4, 6)]), Part(Number(755), [Point(6, 7), Point(7, 7), Point(8, 7)]), Part(Symbol('$'), [Point(3, 8)]), Part(Symbol('*'), [Point(5, 8)]), Part(Number(664), [Point(1, 9), Point(2, 9), Point(3, 9)]), Part(Number(598), [Point(5, 9), Point(6, 9), Point(7, 9)])]);
  }

  /** Row 9 of the sample grid. */
  lemma SampleRow9(start: seq<Part>, row: string)
    requires start == [Part(Number(467), [Point(0, 0), Point(1, 0), Point(2, 0)]), Part(Number(114), [Point(5, 0), Point(6, 0), Point(7, 0)]), Part(Symbol('*'), [Point(3, 1)]), Part(Number(35), [Point(2, 2), Point(3, 2)]), Part(Number(633), [Point(6, 2), Point(7, 2), Point(8, 2)]), Part(Symbol('#'), [Point(6, 3)]), Part(Number(617), [Point(0, 4), Point(1, 4), Point(2, 4)]), Part(Symbol('*'), [Point(3, 4)]), Part(Symbol('+'), [Point(5, 5)]), Part(Number(58), [Point(7, 5), Point(8, 5)]), Part(Number(592), [Point(2, 6), Point(3, 6), Point(4, 6)]), Part(Number(755), [Point(6, 7), Point(7, 7), Point(8, 7)]), Part(Symbol('$'), [Point(3, 8)]), Part(Symbol('*'), [Point(5, 8)])]
    requires |row| == 10 && row[0] == '.' && row[1] == '6' && row[2] == '6' && row[3] == '4' && row[4] == '.' && row[5] == '5' && row[6] == '9' && row[7] == '8' && row[8] == '.' && row[9] == '.'
    ensures ScanRow(start, row, 9) == [Part(Number(467), [Point(0, 0), Point(1, 0), Point(2, 0)]), Part(Number(114), [Point(5, 0), Point(6, 0), Point(7, 0)]), Part(Symbol('*'), [Point(3, 1)]), Part(Number(35), [Point(2, 2), Point(3, 2)]), Part(Number(633), [Point(6, 2), Point(7, 2), Point(8, 2)]), Part(Symbol('#'), [Point(6, 3)]), Part(Number(617), [Point(0, 4), Point(1, 4), Point(2, 4)]), Part(Symbol('*'), [Point(3, 4)]), Part(Symbol('+'), [Point(5, 5)]), Part(Number(58), [Point(7, 5), Point(8, 5)]), Part(Number(592), [Point(2, 6), Point(3, 6), Point(4, 6)]), Part(Number(755), [Point(6, 7), Point(7, 7), Point(8, 7)]), Part(Symbol('$'), [Point(3, 8)]), Part(Symbol('*'), [Point(5, 8)]), Part(Number(664), [Point(1, 9), Point(2, 9), Point(3, 9)]), Part(Number(598), [Point(5, 9), Point(6, 9), Point(7, 9)])]
  {
    assert row[..0] == [];
    SampleRow9At0(start, row);
    SampleRow9At1(start, row);
    SampleRow9At2(start, row);
    SampleRow9At3(start, row);
    SampleRow9At4(start, row);
    SampleRow9At5(start, row);
    SampleRow9At6(start, row);
    SampleRow9At7(start, row);
    SampleRow9At8(start, row);
    SampleRow9At9(start, row);
    assert row[..10] == row;
  }

  lemma SampleScanAt0(lines: seq<string>)
    requires 0 < |lines| && |lines[0]| == 10 && lines[0][0] == '4' && lines[0][1] == '6' && lines[0][2] == '7' && lines[0][3] == '.' && lines[0][4] == '.' && lines[0][5] == '1' && lines[0][6] == '1' && lines[0][7] == '4' && lines[0][8] == '.' && lines[0][9] == '.'
    requires Scan(lines[..0]) == []
    ensures Scan(lines[..1]) == [Part(Number(467), [Point(0, 0), Point(1, 0), Point(2, 0)]), Part(Number(114), [Point(5, 0), Point(6, 0), Point(7, 0)])]
  {
    SampleRow0([], lines[0]);
    ScanAdvance(lines, 0, [], [Part(Number(467), [Point(0, 0), Point(1, 0), Point(2, 0)]), Part(Number(114), [Point(5, 0), Point(6, 0), Point(7, 0)])]);
  }

  lemma SampleScanAt1(lines: seq<string>)
    requires 1 < |lines| && |lines[1]| == 10 && lines[1][0] == '.' && lines[1][1] == '.' && lines[1][2] == '.' && lines[1][3] == '*' && lines[1][4] == '.' && lines[1][5] == '.' && lines[1][6] == '.' && lines[1][7] == '.' && lines[1][8] == '.' && lines[1][9] == '.'
    requires Scan(lines[..1]) == [Part(Number(467), [Point(0, 0), Point(1, 0), Point(2, 0)]), Part(Number(114), [Point(5, 0), Point(6, 0), Point(7, 0)])]
    ensures Scan(lines[..2]) == [Part(Number(467), [Point(0, 0), Point(1, 0), Point(2, 0)]), Part(Number(114), [Point(5, 0), Point(6, 0), Point(7, 0)]), Part(Symbol('*'), [Point(3, 1)])]
  {
    SampleRow1([Part(Number(467), [Point(0, 0), Point(1, 0), Point(2, 0)]), Part(Number(114), [Point(5, 0), Point(6, 0), Point(7, 0)])], lines[1]);
    ScanAdvance(lines, 1, [Part(Number(467), [Point(0, 0), Point(1, 0), Point(2, 0)]), Part(Number(114), [Point(5, 0), Point(6, 0), Point(7, 0)])], [Part(Number(467), [Point(0, 0), Point(1, 0), Point(2, 0)]), Part(Number(114), [Point(5, 0), Point(6, 0), Point(7, 0)]), Part(Symbol('*'), [Point(3, 1)])]);
  }

  lemma SampleScanAt2(lines: seq<string>)
    requires 2 < |lines| && |lines[2]| == 10 && lines[2][0] == '.' && lines[2][1] == '.' && lines[2][2] == '3' && lines[2][3] == '5' && lines[2][4] == '.' && lines[2][5] == '.' && lines[2][6] == '6' && lines[2][7] == '3' && lines[2][8] == '3' && lines[2][9] == '.'
    requires Scan(lines[..2]) == [Part(Number(467), [Point(0, 0), Point(1, 0), Point(2, 0)]), Part(Number(114), [Point(5, 0), Point(6, 0), Point(7, 0)]), Part(Symbol('*'), [Point(3, 1)])]
    ensures Scan(lines[..3]) == [Part(Number(467), [Point(0, 0), Point(1, 0), Point(2, 0)]), Part(Number(114), [Point(5, 0), Point(6, 0), Point(7, 0)]), Part(Symbol('*'), [Point(3, 1)]), Part(Number(35), [Point(2, 2), Point(3, 2)]), Part(Number(633), [Point(6, 2), Point(7, 2), Point(8, 2)])]
  {
    SampleRow2([Part(Number(467), [Point(0, 0), Point(1, 0), Point(2, 0)]), Part(Number(114), [Point(5, 0), Point(6, 0), Point(7, 0)]), Part(Symbol('*'), [Point(3, 1)])], lines[2]);
    ScanAdvance(lines, 2, [Part(Number(467), [Point(0, 0), Point(1, 0), Point(2, 0)]), Part(Number(114), [Point(5, 0), Point(6, 0), Point(7, 0)]), Part(Symbol('*'), [Point(3, 1)])], [Part(Number(467), [Point(0, 0), Point(1, 0), Point(2, 0)]), Part(Number(114), [Point(5, 0), Point(6, 0), Point(7, 0)]), Part(Symbol('*'), [Point(3, 1)]), Part(Number(35), [Point(2, 2), Point(3, 2)]), Part(Number(633), [Point(6, 2), Point(7, 2), Point(8, 2)])]);
  }

  lemma SampleScanAt3(lines: seq<string>)
    requires 3 < |lines| && |lines[3]| == 10 && lines[3][0] == '.' && lines[3][1] == '.' && lines[3][2] == '.' && lines[3][3] == '.' && lines[3][4] == '.' && lines[3][5] == '.' && lines[3][6] == '#' && lines[3][7] == '.' && lines[3][8] == '.' && lines[3][9] == '.'
    requires Scan(lines[..3]) == [Part(Number(467), [Point(0, 0), Point(1, 0), Point(2, 0)]), Part(Number(114), [Point(5, 0), Point(6, 0), Point(7, 0)]), Part(Symbol('*'), [Point(3, 1)]), Part(Number(35), [Point(2, 2), Point(3, 2)]), Part(Number(633), [Point(6, 2), Point(7, 2), Point(8, 2)])]
    ensures Scan(lines[..4]) == [Part(Number(467), [Point(0, 0), Point(1, 0), Point(2, 0)]), Part(Number(114), [Point(5, 0), Point(6, 0), Point(7, 0)]), Part(Symbol('*'), [Point(3, 1)]), Part(Number(35), [Point(2, 2), Point(3, 2)]), Part(Number(633), [Point(6, 2), Point(7, 2), Point(8, 2)]), Part(Symbol('#'), [Point(6, 3)])]
  {
    SampleRow3([Part(Number(467), [Point(0, 0), Point(1, 0), Point(2, 0)]), Part(Number(114), [Point(5, 0), Point(6, 0), Point(7, 0)]), Part(Symbol('*'), [Point(3, 1)]), Part(Number(35), [Point(2, 2), Point(3, 2)]), Part(Number(633), [Point(6, 2), Point(7, 2), Point(8, 2)])], lines[3]);
    ScanAdvance(lines, 3, [Part(Number(467), [Point(0, 0), Point(1, 0), Point(2, 0)]), Part(Number(114), [Point(5, 0), Point(6, 0), Point(7, 0)]), Part(Symbol('*'), [Point(3, 1)]), Part(Number(35), [Point(2, 2), Point(3, 2)]), Part(Number(633), [Point(6, 2), Point(7, 2), Point(8, 2)])], [Part(Number(467), [Point(0, 0), Point(1, 0), Point(2, 0)]), Part(Number(114), [Point(5, 0), Point(6, 0), Point(7, 0)]), Part(Symbol('*'), [Point(3, 1)]), Part(Number(35), [Point(2, 2), Point(3, 2)]), Part(Number(633), [Point(6, 2), Point(7, 2), Point(8, 2)]), Part(Symbol('#'), [Point(6, 3)])]);
  }

  lemma SampleScanAt4(lines: seq<string>)
    requires 4 < |lines| && |lines[4]| == 10 && lines[4][0] == '6' && lines[4][1] == '1' && lines[4][2] == '7' && lines[4][3] == '*' && lines[4][4] == '.' && lines[4][5] == '.' && lines[4][6] == '.' && lines[4][7] == '.' && lines[4][8] == '.' && lines[4][9] == '.'
    requires Scan(lines[..4]) == [Part(Number(467), [Point(0, 0), Point(1, 0), Point(2, 0)]), Part(Number(114), [Point(5, 0), Point(6, 0), Point(7, 0)]), Part(Symbol('*'), [Point(3, 1)]), Part(Number(35), [Point(2, 2), Point(3, 2)]), Part(Number(633), [Point(6, 2), Point(7, 2), Point(8, 2)]), Part(Symbol('#'), [Point(6, 3)])]
    ensures Scan(lines[..5]) == [Part(Number(467), [Point(0, 0), Point(1, 0), Point(2, 0)]), Part(Number(114), [Point(5, 0), Point(6, 0), Point(7, 0)]), Part(Symbol('*'), [Point(3, 1)]), Part(Number(35), [Point(2, 2), Point(3, 2)]), Part(Number(633), [Point(6, 2), Point(7, 2), Point(8, 2)]), Part(Symbol('#'), [Point(6, 3)]), Part(Number(617), [Point(0, 4), Point(1, 4), Point(2, 4)]), Part(Symbol('*'), [Point(3, 4)])]
  {
    SampleRow4([Part(Number(467), [Point(0, 0), Point(1, 0), Point(2, 0)]), Part(Number(114), [Point(5, 0), Point(6, 0), Point(7, 0)]), Part(Symbol('*'), [Point(3, 1)]), Part(Number(35), [Point(2, 2), Point(3, 2)]), Part(Number(633), [Point(6, 2), Point(7, 2), Point(8, 2)]), Part(Symbol('#'), [Point(6, 3)])], lines[4]);
    ScanAdvance(lines, 4, [Part(Number(467), [Point(0, 0), Point(1, 0), Point(2, 0)]), Part(Number(114), [Point(5, 0), Point(6, 0), Point(7, 0)]), Part(Symbol('*'), [Point(3, 1)]), Part(Number(35), [Point(2, 2), Point(3, 2)]), Part(Number(633), [Point(6, 2), Point(7, 2), Point(8, 2)]), Part(Symbol('#'), [Point(6, 3)])], [Part(Number(467), [Point(0, 0), Point(1, 0), Point(2, 0)]), Part(Number(114), [Point(5, 0), Point(6, 0), Point(7, 0)]), Part(Symbol('*'), [Point(3, 1)]), Part(Number(35), [Point(2, 2), Point(3, 2)]), Part(Number(633), [Point(6, 2), Point(7, 2), Point(8, 2)]), Part(Symbol('#'), [Point(6, 3)]), Part(Number(617), [Point(0, 4), Point(1, 4), Point(2, 4)]), Part(Symbol('*'), [Point(3, 4)])]);
  }

  lemma SampleScanAt5(lines: seq<string>)
    requires 5 < |lines| && |lines[5]| == 10 && lines[5][0] == '.' && lines[5][1] == '.' && lines[5][2] == '.' && lines[5][3] == '.' && lines[5][4] == '.' && lines[5][5] == '+' && lines[5][6] == '.' && lines[5][7] == '5' && lines[5][8] == '8' && lines[5][9] == '.'
    requires Scan(lines[..5]) == [Part(Number(467), [Point(0, 0), Point(1, 0), Point(2, 0)]), Part(Number(114), [Point(5, 0), Point(6, 0), Point(7, 0)]), Part(Symbol('*'), [Point(3, 1)]), Part(Number(35), [Point(2, 2), Point(3, 2)]), Part(Number(633), [Point(6, 2), Point(7, 2), Point(8, 2)]), Part(Symbol('#'), [Point(6, 3)]), Part(Number(617), [Point(0, 4), Point(1, 4), Point(2, 4)]), Part(Symbol('*'), [Point(3, 4)])]
    ensures Scan(lines[..6]) == [Part(Number(467), [Point(0, 0), Point(1, 0), Point(2, 0)]), Part(Number(114), [Point(5, 0), Point(6, 0), Point(7, 0)]), Part(Symbol('*'), [Point(3, 1)]), Part(Number(35), [Point(2, 2), Point(3, 2)]), Part(Number(633), [Point(6, 2), Point(7, 2), Point(8, 2)]), Part(Symbol('#'), [Point(6, 3)]), Part(Number(617), [Point(0, 4), Point(1, 4), Point(2, 4)]), Part(Symbol('*'), [Point(3, 4)]), Part(Symbol('+'), [Point(5, 5)]), Part(Number(58), [Point(7, 5), Point(8, 5)])]
  {
    SampleRow5([Part(Number(467), [Point(0, 0), Point(1, 0), Point(2, 0)]), Part(Number(114), [Point(5, 0), Point(6, 0), Point(7, 0)]), Part(Symbol('*'), [Point(3, 1)]), Part(Number(35), [Point(2, 2), Point(3, 2)]), Part(Number(633), [Point(6, 2), Point(7, 2), Point(8, 2)]), Part(Symbol('#'), [Point(6, 3)]), Part(Number(617), [Point(0, 4), Point(1, 4), Point(2, 4)]), Part(Symbol('*'), [Point(3, 4)])], lines[5]);
    ScanAdvance(lines, 5, [Part(Number(467), [Point(0, 0), Point(1, 0), Point(2, 0)]), Part(Number(114), [Point(5, 0), Point(6, 0), Point(7, 0)]), Part(Symbol('*'), [Point(3, 1)]), Part(Number(35), [Point(2, 2), Point(3, 2)]), Part(Number(633), [Point(6, 2), Point(7, 2), Point(8, 2)]), Part(Symbol('#'), [Point(6, 3)]), Part(Number(617), [Point(0, 4), Point(1, 4), Point(2, 4)]), Part(Symbol('*'), [Point(3, 4)])], [Part(Number(467), [Point(0, 0), Point(1, 0), Point(2, 0)]), Part(Number(114), [Point(5, 0), Point(6, 0), Point(7, 0)]), Part(Symbol('*'), [Point(3, 1)]), Part(Number(35), [Point(2, 2), Point(3, 2)]), Part(Number(633), [Point(6, 2), Point(7, 2), Point(8, 2)]), Part(Symbol('#'), [Point(6, 3)]), Part(Number(617), [Point(0, 4), Point(1, 4), Point(2, 4)]), Part(Symbol('*'), [Point(3, 4)]), Part(Symbol('+'), [Point(5, 5)]), Part(Number(58), [Point(7, 5), Point(8, 5)])]);
  }

  lemma SampleScanAt6(lines: seq<string>)
    requires 6 < |lines| && |lines[6]| == 10 && lines[6][0] == '.' && lines[6][1] == '.' && lines[6][2] == '5' && lines[6][3] == '9' && lines[6][4] == '2' && lines[6][5] == '.' && lines[6][6] == '.' && lines[6][7] == '.' && lines[6][8] == '.' && lines[6][9] == '.'
    requires Scan(lines[..6]) == [Part(Number(467), [Point(0, 0), Point(1, 0), Point(2, 0)]), Part(Number(114), [Point(5, 0), Point(6, 0), Point(7, 0)]), Part(Symbol('*'), [Point(3, 1)]), Part(Number(35), [Point(2, 2), Point(3, 2)]), Part(Number(633), [Point(6, 2), Point(7, 2), Point(8, 2)]), Part(Symbol('#'), [Point(6, 3)]), Part(Number(617), [Point(0, 4), Point(1, 4), Point(2, 4)]), Part(Symbol('*'), [Point(3, 4)]), Part(Symbol('+'), [Point(5, 5)]), Part(Number(58), [Point(7, 5), Point(8, 5)])]
    ensures Scan(lines[..7]) == [Part(Number(467), [Point(0, 0), Point(1, 0), Point(2, 0)]), Part(Number(114), [Point(5, 0), Point(6, 0), Point(7, 0)]), Part(Symbol('*'), [Point(3, 1)]), Part(Number(35), [Point(2, 2), Point(3, 2)]), Part(Number(633), [Point(6, 2), Point(7, 2), Point(8, 2)]), Part(Symbol('#'), [Point(6, 3)]), Part(Number(617), [Point(0, 4), Point(1, 4), Point(2, 4)]), Part(Symbol('*'), [Point(3, 4)]), Part(Symbol('+'), [Point(5, 5)]), Part(Number(58), [Point(7, 5), Point(8, 5)]), Part(Number(592), [Point(2, 6), Point(3, 6), Point(4, 6)])]
  {
    SampleRow6([Part(Number(467), [Point(0, 0), Point(1, 0), Point(2, 0)]), Part(Number(114), [Point(5, 0), Point(6, 0), Point(7, 0)]), Part(Symbol('*'), [Point(3, 1)]), Part(Number(35), [Point(2, 2), Point(3, 2)]), Part(Number(633), [Point(6, 2), Point(7, 2), Point(8, 2)]), Part(Symbol('#'), [Point(6, 3)]), Part(Number(617), [Point(0, 4), Point(1, 4), Point(2, 4)]), Part(Symbol('*'), [Point(3, 4)]), Part(Symbol('+'), [Point(5, 5)]), Part(Number(58), [Point(7, 5), Point(8, 5)])], lines[6]);
    ScanAdvance(lines, 6, [Part(Number(467), [Point(0, 0), Point(1, 0), Point(2, 0)]), Part(Number(114), [Point(5, 0), Point(6, 0), Point(7, 0)]), Part(Symbol('*'), [Point(3, 1)]), Part(Number(35), [Point(2, 2), Point(3, 2)]), Part(Number(633), [Point(6, 2), Point(7, 2), Point(8, 2)]), Part(Symbol('#'), [Point(6, 3)]), Part(Number(617), [Point(0, 4), Point(1, 4), Point(2, 4)]), Part(Symbol('*'), [Point(3, 4)]), Part(Symbol('+'), [Point(5, 5)]), Part(Number(58), [Point(7, 5), Point(8, 5)])], [Part(Number(467), [Point(0, 0), Point(1, 0), Point(2, 0)]), Part(Number(114), [Point(5, 0), Point(6, 0), Point(7, 0)]), Part(Symbol('*'), [Point(3, 1)]), Part(Number(35), [Point(2, 2), Point(3, 2)]), Part(Number(633), [Point(6, 2), Point(7, 2), Point(8, 2)]), Part(Symbol('#'), [Point(6, 3)]), Part(Number(617), [Point(0, 4), Point(1, 4), Point(2, 4)]), Part(Symbol('*'), [Point(3, 4)]), Part(Symbol('+'), [Point(5, 5)]), Part(Number(58), [Point(7, 5), Point(8, 5)]), Part(Number(592), [Point(2, 6), Point(3, 6), Point(4, 6)])]);
  }

  lemma SampleScanAt7(lines: seq<string>)
    requires 7 < |lines| && |lines[7]| == 10 && lines[7][0] == '.' && lines[7][1] == '.' && lines[7][2] == '.' && lines[7][3] == '.' && lines[7][4] == '.' && lines[7][5] == '.' && lines[7][6] == '7' && lines[7][7] == '5' && lines[7][8] == '5' && lines[7][9] == '.'
    requires Scan(lines[..7]) == [Part(Number(467), [Point(0, 0), Point(1, 0), Point(2, 0)]), Part(Number(114), [Point(5, 0), Point(6, 0), Point(7, 0)]), Part(Symbol('*'), [Point(3, 1)]), Part(Number(35), [Point(2, 2), Point(3, 2)]), Part(Number(633), [Point(6, 2), Point(7, 2), Point(8, 2)]), Part(Symbol('#'), [Point(6, 3)]), Part(Number(617), [Point(0, 4), Point(1, 4), Point(2, 4)]), Part(Symbol('*'), [Point(3, 4)]), Part(Symbol('+'), [Point(5, 5)]), Part(Number(58), [Point(7, 5), Point(8, 5)]), Part(Number(592), [Point(2, 6), Point(3, 6), Point(4, 6)])]
    ensures Scan(lines[..8]) == [Part(Number(467), [Point(0, 0), Point(1, 0), Point(2, 0)]), Part(Number(114), [Point(5, 0), Point(6, 0), Point(7, 0)]), Part(Symbol('*'), [Point(3, 1)]), Part(Number(35), [Point(2, 2), Point(3, 2)]), Part(Number(633), [Point(6, 2), Point(7, 2), Point(8, 2)]), Part(Symbol('#'), [Point(6, 3)]), Part(Number(617), [Point(0, 4), Point(1, 4), Point(2, 4)]), Part(Symbol('*'), [Point(3, 4)]), Part(Symbol('+'), [Point(5, 5)]), Part(Number(58), [Point(7, 5), Point(8, 5)]), Part(Number(592), [Point(2, 6), Point(3, 6), Point(4, 6)]), Part(Number(755), [Point(6, 7), Point(7, 7), Point(8, 7)])]
  {
    SampleRow7([Part(Number(467), [Point(0, 0), Point(1, 0), Point(2, 0)]), Part(Number(114), [Point(5, 0), Point(6, 0), Point(7, 0)]), Part(Symbol('*'), [Point(3, 1)]), Part(Number(35), [Point(2, 2), Point(3, 2)]), Part(Number(633), [Point(6, 2), Point(7, 2), Point(8, 2)]), Part(Symbol('#'), [Point(6, 3)]), Part(Number(617), [Point(0, 4), Point(1, 4), Point(2, 4)]), Part(Symbol('*'), [Point(3, 4)]), Part(Symbol('+'), [Point(5, 5)]), Part(Number(58), [Point(7, 5), Point(8, 5)]), Part(Number(592), [Point(2, 6), Point(3, 6), Point(4, 6)])], lines[7]);
    ScanAdvance(lines, 7, [Part(Number(467), [Point(0, 0), Point(1, 0), Point(2, 0)]), Part(Number(114), [Point(5, 0), Point(6, 0), Point(7, 0)]), Part(Symbol('*'), [Point(3, 1)]), Part(Number(35), [Point(2, 2), Point(3, 2)]), Part(Number(633), [Point(6, 2), Point(7, 2), Point(8, 2)]), Part(Symbol('#'), [Point(6, 3)]), Part(Number(617), [Point(0, 4), Point(1, 4), Point(2, 4)]), Part(Symbol('*'), [Point(3, 4)]), Part(Symbol('+'), [Point(5, 5)]), Part(Number(58), [Point(7, 5), Point(8, 5)]), Part(Number(592), [Point(2, 6), Point(3, 6), Point(4, 6)])], [Part(Number(467), [Point(0, 0), Point(1, 0), Point(2, 0)]), Part(Number(114), [Point(5, 0), Point(6, 0), Point(7, 0)]), Part(Symbol('*'), [Point(3, 1)]), Part(Number(35), [Point(2, 2), Point(3, 2)]), Part(Number(633), [Point(6, 2), Point(7, 2), Point(8, 2)]), Part(Symbol('#'), [Point(6, 3)]), Part(Number(617), [Point(0, 4), Point(1, 4), Point(2, 4)]), Part(Symbol('*'), [Point(3, 4)]), Part(Symbol('+'), [Point(5, 5)]), Part(Number(58), [Point(7, 5), Point(8, 5)]), Part(Number(592), [Point(2, 6), Point(3, 6), Point(4, 6)]), Part(Number(755), [Point(6, 7), Point(7, 7), Point(8, 7)])]);
  }

  lemma SampleScanAt8(lines: seq<string>)
    requires 8 < |lines| && |lines[8]| == 10 && lines[8][0] == '.' && lines[8][1] == '.' && lines[8][2] == '.' && lines[8][3] == '$' && lines[8][4] == '.' && lines[8][5] == '*' && lines[8][6] == '.' && lines[8][7] == '.' && lines[8][8] == '.' && lines[8][9] == '.'
    requires Scan(lines[..8]) == [Part(Number(467), [Point(0, 0), Point(1, 0), Point(2, 0)]), Part(Number(114), [Point(5, 0), Point(6, 0), Point(7, 0)]), Part(Symbol('*'), [Point(3, 1)]), Part(Number(35), [Point(2, 2), Point(3, 2)]), Part(Number(633), [Point(6, 2), Point(7, 2), Point(8, 2)]), Part(Symbol('#'), [Point(6, 3)]), Part(Number(617), [Point(0, 4), Point(1, 4), Point(2, 4)]), Part(Symbol('*'), [Point(3, 4)]), Part(Symbol('+'), [Point(5, 5)]), Part(Number(58), [Point(7, 5), Point(8, 5)]), Part(Number(592), [Point(2, 6), Point(3, 6), Point(4, 6)]), Part(Number(755), [Point(6, 7), Point(7, 7), Point(8, 7)])]
    ensures Scan(lines[..9]) == [Part(Number(467), [Point(0, 0), Point(1, 0), Point(2, 0)]), Part(Number(114), [Point(5, 0), Point(6, 0), Point(7, 0)]), Part(Symbol('*'), [Point(3, 1)]), Part(Number(35), [Point(2, 2), Point(3, 2)]), Part(Number(633), [Point(6, 2), Point(7, 2), Point(8, 2)]), Part(Symbol('#'), [Point(6, 3)]), Part(Number(617), [Point(0, 4), Point(1, 4), Point(2, 4)]), Part(Symbol('*'), [Point(3, 4)]), Part(Symbol('+'), [Point(5, 5)]), Part(Number(58), [Point(7, 5), Point(8, 5)]), Part(Number(592), [Point(2, 6), Point(3, 6), Point(4, 6)]), Part(Number(755), [Point(6, 7), Point(7, 7), Point(8, 7)]), Part(Symbol('$'), [Point(3, 8)]), Part(Symbol('*'), [Point(5, 8)])]
  {
    SampleRow8([Part(Number(467), [Point(0, 0), Point(1, 0), Point(2, 0)]), Part(Number(114), [Point(5, 0), Point(6, 0), Point(7, 0)]), Part(Symbol('*'), [Point(3, 1)]), Part(Number(35), [Point(2, 2), Point(3, 2)]), Part(Number(633), [Point(6, 2), Point(7, 2), Point(8, 2)]), Part(Symbol('#'), [Point(6, 3)]), Part(Number(617), [Point(0, 4), Point(1, 4), Point(2, 4)]), Part(Symbol('*'), [Point(3, 4)]), Part(Symbol('+'), [Point(5, 5)]), Part(Number(58), [Point(7, 5), Point(8, 5)]), Part(Number(592), [Point(2, 6), Point(3, 6), Point(4, 6)]), Part(Number(755), [Point(6, 7), Point(7, 7), Point(8, 7)])], lines[8]);
    ScanAdvance(lines, 8, [Part(Number(467), [Point(0, 0), Point(1, 0), Point(2, 0)]), Part(Number(114), [Point(5, 0), Point(6, 0), Point(7, 0)]), Part(Symbol('*'), [Point(3, 1)]), Part(Number(35), [Point(2, 2), Point(3, 2)]), Part(Number(633), [Point(6, 2), Point(7, 2), Point(8, 2)]), Part(Symbol('#'), [Point(6, 3)]), Part(Number(617), [Point(0, 4), Point(1, 4), Point(2, 4)]), Part(Symbol('*'), [Point(3, 4)]), Part(Symbol('+'), [Point(5, 5)]), Part(Number(58), [Point(7, 5), Point(8, 5)]), Part(Number(592), [Point(2, 6), Point(3, 6), Point(4, 6)]), Part(Number(755), [Point(6, 7), Point(7, 7), Point(8, 7)])], [Part(Number(467), [Point(0, 0), Point(1, 0), Point(2, 0)]), Part(Number(114), [Point(5, 0), Point(6, 0), Point(7, 0)]), Part(Symbol('*'), [Point(3, 1)]), Part(Number(35), [Point(2, 2), Point(3, 2)]), Part(Number(633), [Point(6, 2), Point(7, 2), Point(8, 2)]), Part(Symbol('#'), [Point(6, 3)]), Part(Number(617), [Point(0, 4), Point(1, 4), Point(2, 4)]), Part(Symbol('*'), [Point(3, 4)]), Part(Symbol('+'), [Point(5, 5)]), Part(Number(58), [Point(7, 5), Point(8, 5)]), Part(Number(592), [Point(2, 6), Point(3, 6), Point(4, 6)]), Part(Number(755), [Point(6, 7), Point(7, 7), Point(8, 7)]), Part(Symbol('$'), [Point(3, 8)]), Part(Symbol('*'), [Point(5, 8)])]);
  }

  lemma SampleScanAt9(lines: seq<string>)
    requires 9 < |lines| && |lines[9]| == 10 && lines[9][0] == '.' && lines[9][1] == '6' && lines[9][2] == '6' && lines[9][3] == '4' && lines[9][4] == '.' && lines[9][5] == '5' && lines[9][6] == '9' && lines[9][7] == '8' && lines[9][8] == '.' && lines[9][9] == '.'
    requires Scan(lines[..9]) == [Part(Number(467), [Point(0, 0), Point(1, 0), Point(2, 0)]), Part(Number(114), [Point(5, 0), Point(6, 0), Point(7, 0)]), Part(Symbol('*'), [Point(3, 1)]), Part(Number(35), [Point(2, 2), Point(3, 2)]), Part(Number(633), [Point(6, 2), Point(7, 2), Point(8, 2)]), Part(Symbol('#'), [Point(6, 3)]), Part(Number(617), [Point(0, 4), Point(1, 4), Point(2, 4)]), Part(Symbol('*'), [Point(3, 4)]), Part(Symbol('+'), [Point(5, 5)]), Part(Number(58), [Point(7, 5), Point(8, 5)]), Part(Number(592), [Point(2, 6), Point(3, 6), Point(4, 6)]), Part(Number(755), [Point(6, 7), Point(7, 7), Point(8, 7)]), Part(Symbol('$'), [Point(3, 8)]), Part(Symbol('*'), [Point(5, 8)])]
    ensures Scan(lines[..10]) == [Part(Number(467), [Point(0, 0), Point(1, 0), Point(2, 0)]), Part(Number(114), [Point(5, 0), Point(6, 0), Point(7, 0)]), Part(Symbol('*'), [Point(3, 1)]), Part(Number(35), [Point(2, 2), Point(3, 2)]), Part(Number(633), [Point(6, 2), Point(7, 2), Point(8, 2)]), Part(Symbol('#'), [Point(6, 3)]), Part(Number(617), [Point(0, 4), Point(1, 4), Point(2, 4)]), Part(Symbol('*'), [Point(3, 4)]), Part(Symbol('+'), [Point(5, 5)]), Part(Number(58), [Point(7, 5), Point(8, 5)]), Part(Number(592), [Point(2, 6), Point(3, 6), Point(4, 6)]), Part(Number(755), [Point(6, 7), Point(7, 7), Point(8, 7)]), Part(Symbol('$'), [Point(3, 8)]), Part(Symbol('*'), [Point(5, 8)]), Part(Number(664), [Point(1, 9), Point(2, 9), Point(3, 9)]), Part(Number(598), [Point(5, 9), Point(6, 9), Point(7, 9)])]
  {
    SampleRow9([Part(Number(467), [Point(0, 0), Point(1, 0), Point(2, 0)]), Part(Number(114), [Point(5, 0), Point(6, 0), Point(7, 0)]), Part(Symbol('*'), [Point(3, 1)]), Part(Number(35), [Point(2, 2), Point(3, 2)]), Part(Number(633), [Point(6, 2), Point(7, 2), Point(8, 2)]), Part(Symbol('#'), [Point(6, 3)]), Part(Number(617), [Point(0, 4), Point(1, 4), Point(2, 4)]), Part(Symbol('*'), [Point(3, 4)]), Part(Symbol('+'), [Point(5, 5)]), Part(Number(58), [Point(7, 5), Point(8, 5)]), Part(Number(592), [Point(2, 6), Point(3, 6), Point(4, 6)]), Part(Number(755), [Point(6, 7), Point(7, 7), Point(8, 7)]), Part(Symbol('$'), [Point(3, 8)]), Part(Symbol('*'), [Point(5, 8)])], lines[9]);
    ScanAdvance(lines, 9, [Part(Number(467), [Point(0, 0), Point(1, 0), Point(2, 0)]), Part(Number(114), [Point(5, 0), Point(6, 0), Point(7, 0)]), Part(Symbol('*'), [Point(3, 1)]), Part(Number(35), [Point(2, 2), Point(3, 2)]), Part(Number(633), [Point(6, 2), Point(7, 2), Point(8, 2)]), Part(Symbol('#'), [Point(6, 3)]), Part(Number(617), [Point(0, 4), Point(1, 4), Point(2, 4)]), Part(Symbol('*'), [Point(3, 4)]), Part(Symbol('+'), [Point(5, 5)]), Part(Number(58), [Point(7, 5), Point(8, 5)]), Part(Number(592), [Point(2, 6), Point(3, 6), Point(4, 6)]), Part(Number(755), [Point(6, 7), Point(7, 7), Point(8, 7)]), Part(Symbol('$'), [Point(3, 8)]), Part(Symbol('*'), [Point(5, 8)])], [Part(Number(467), [Point(0, 0), Point(1, 0), Point(2, 0)]), Part(Number(114), [Point(5, 0), Point(6, 0), Point(7, 0)]), Part(Symbol('*'), [Point(3, 1)]), Part(Number(35), [Point(2, 2), Point(3, 2)]), Part(Number(633), [Point(6, 2), Point(7, 2), Point(8, 2)]), Part(Symbol('#'), [Point(6, 3)]), Part(Number(617), [Point(0, 4), Point(1, 4), Point(2, 4)]), Part(Symbol('*'), [Point(3, 4)]), Part(Symbol('+'), [Point(5, 5)]), Part(Number(58), [Point(7, 5), Point(8, 5)]), Part(Number(592), [Point(2, 6), Point(3, 6), Point(4, 6)]), Part(Number(755), [Point(6, 7), Point(7, 7), Point(8, 7)]), Part(Symbol('$'), [Point(3, 8)]), Part(Symbol('*'), [Point(5, 8)]), Part(Number(664), [Point(1, 9), Point(2, 9), Point(3, 9)]), Part(Number(598), [Point(5, 9), Point(6, 9), Point(7, 9)])]);
  }

  /** `parse_input` on the sample grid. */
  lemma SampleScan(lines: seq<string>)
    requires |lines| == 10 &&
             lines[0] == "467..114.." &&
             lines[1] == "...*......" &&
             lines[2] == "..35..633." &&
             lines[3] == "......#..." &&
             lines[4] == "617*......" &&
             lines[5] == ".....+.58." &&
             lines[6] == "..592....." &&
             lines[7] == "......755." &&
             lines[8] == "...$.*...." &&
             lines[9] == ".664.598.."
    ensures |Scan(lines)| == 16 &&
            Scan(lines)[0] == Part(Number(467), [Point(0, 0), Point(1, 0), Point(2, 0)]) &&
            Scan(lines)[1] == Part(Number(114), [Point(5, 0), Point(6, 0), Point(7, 0)]) &&
            Scan(lines)[2] == Part(Symbol('*'), [Point(3, 1)]) &&
            Scan(lines)[3] == Part(Number(35), [Point(2, 2), Point(3, 2)]) &&
            Scan(lines)[4] == Part(Number(633), [Point(6, 2), Point(7, 2), Point(8, 2)]) &&
            Scan(lines)[5] == Part(Symbol('#'), [Point(6, 3)]) &&
            Scan(lines)[6] == Part(Number(617), [Point(0, 4), Point(1, 4), Point(2, 4)]) &&
            Scan(lines)[7] == Part(Symbol('*'), [Point(3, 4)]) &&
            Scan(lines)[8] == Part(Symbol('+'), [Point(5, 5)]) &&
            Scan(lines)[9] == Part(Number(58), [Point(7, 5), Point(8, 5)]) &&
            Scan(lines)[10] == Part(Number(592), [Point(2, 6), Point(3, 6), Point(4, 6)]) &&
            Scan(lines)[11] == Part(Number(755), [Point(6, 7), Point(7, 7), Point(8, 7)]) &&
            Scan(lines)[12] == Part(Symbol('$'), [Point(3, 8)]) &&
            Scan(lines)[13] == Part(Symbol('*'), [Point(5, 8)]) &&
            Scan(lines)[14] == Part(Number(664), [Point(1, 9), Point(2, 9), Point(3, 9)]) &&
            Scan(lines)[15] == Part(Number(598), [Point(5, 9), Point(6, 9), Point(7, 9)])
  {
    assert lines[..0] == [];
    SampleScanAt0(lines);
    SampleScanAt1(lines);
    SampleScanAt2(lines);
    SampleScanAt3(lines);
    SampleScanAt4(lines);
    SampleScanAt5(lines);
    SampleScanAt6(lines);
    SampleScanAt7(lines);
    SampleScanAt8(lines);
    SampleScanAt9(lines);
    assert lines[..10] == lines;
  }

  lemma SampleSymbolsAt15(parts: seq<Part>)
    requires 15 < |parts| && parts[15] == Part(Number(598), [Point(5, 9), Point(6, 9), Point(7, 9)])
    requires SymbolParts(parts[16..]) == []
    ensures SymbolParts(parts[15..]) == []
  {
    SymbolPartsAdvance(parts, 15, [], []);
  }

  lemma SampleSymbolsAt14(parts: seq<Part>)
    requires 14 < |parts| && parts[14] == Part(Number(664), [Point(1, 9), Point(2, 9), Point(3, 9)])
    requires SymbolParts(parts[15..]) == []
    ensures SymbolParts(parts[14..]) == []
  {
    SymbolPartsAdvance(parts, 14, [], []);
  }

  lemma SampleSymbolsAt13(parts: seq<Part>)
    requires 13 < |parts| && parts[13] == Part(Symbol('*'), [Point(5, 8)])
    requires SymbolParts(parts[14..]) == []
    ensures SymbolParts(parts[13..]) == [Part(Symbol('*'), [Point(5, 8)])]
  {
    SymbolPartsAdvance(parts, 13, [], [Part(Symbol('*'), [Point(5, 8)])]);
  }

  lemma SampleSymbolsAt12(parts: seq<Part>)
    requires 12 < |parts| && parts[12] == Part(Symbol('$'), [Point(3, 8)])
    requires SymbolParts(parts[13..]) == [Part(Symbol('*'), [Point(5, 8)])]
    ensures SymbolParts(parts[12..]) == [Part(Symbol('$'), [Point(3, 8)]), Part(Symbol('*'), [Point(5, 8)])]
  {
    SymbolPartsAdvance(parts, 12, [Part(Symbol('*'), [Point(5, 8)])], [Part(Symbol('$'), [Point(3, 8)]), Part(Symbol('*'), [Point(5, 8)])]);
  }

  lemma SampleSymbolsAt11(parts: seq<Part>)
    requires 11 < |parts| && parts[11] == Part(Number(755), [Point(6, 7), Point(7, 7), Point(8, 7)])
    requires SymbolParts(parts[12..]) == [Part(Symbol('$'), [Point(3, 8)]), Part(Symbol('*'), [Point(5, 8)])]
    ensures SymbolParts(parts[11..]) == [Part(Symbol('$'), [Point(3, 8)]), Part(Symbol('*'), [Point(5, 8)])]
  {
    SymbolPartsAdvance(parts, 11, [Part(Symbol('$'), [Point(3, 8)]), Part(Symbol('*'), [Point(5, 8)])], [Part(Symbol('$'), [Point(3, 8)]), Part(Symbol('*'), [Point(5, 8)])]);
  }

  lemma SampleSymbolsAt10(parts: seq<Part>)
    requires 10 < |parts| && parts[10] == Part(Number(592), [Point(2, 6), Point(3, 6), Point(4, 6)])
    requires SymbolParts(parts[11..]) == [Part(Symbol('$'), [Point(3, 8)]), Part(Symbol('*'), [Point(5, 8)])]
    ensures SymbolParts(parts[10..]) == [Part(Symbol('$'), [Point(3, 8)]), Part(Symbol('*'), [Point(5, 8)])]
  {
    SymbolPartsAdvance(parts, 10, [Part(Symbol('$'), [Point(3, 8)]), Part(Symbol('*'), [Point(5, 8)])], [Part(Symbol('$'), [Point(3, 8)]), Part(Symbol('*'), [Point(5, 8)])]);
  }

  lemma SampleSymbolsAt9(parts: seq<Part>)
    requires 9 < |parts| && parts[9] == Part(Number(58), [Point(7, 5), Point(8, 5)])
    requires SymbolParts(parts[10..]) == [Part(Symbol('$'), [Point(3, 8)]), Part(Symbol('*'), [Point(5, 8)])]
    ensures SymbolParts(parts[9..]) == [Part(Symbol('$'), [Point(3, 8)]), Part(Symbol('*'), [Point(5, 8)])]
  {
    SymbolPartsAdvance(parts, 9, [Part(Symbol('$'), [Point(3, 8)]), Part(Symbol('*'), [Point(5, 8)])], [Part(Symbol('$'), [Point(3, 8)]), Part(Symbol('*'), [Point(5, 8)])]);
  }

  lemma SampleSymbolsAt8(parts: seq<Part>)
    requires 8 < |parts| && parts[8] == Part(Symbol('+'), [Point(5, 5)])
    requires SymbolParts(parts[9..]) == [Part(Symbol('$'), [Point(3, 8)]), Part(Symbol('*'), [Point(5, 8)])]
    ensures SymbolParts(parts[8..]) == [Part(Symbol('+'), [Point(5, 5)]), Part(Symbol('$'), [Point(3, 8)]), Part(Symbol('*'), [Point(5, 8)])]
  {
    SymbolPartsAdvance(parts, 8, [Part(Symbol('$'), [Point(3, 8)]), Part(Symbol('*'), [Point(5, 8)])], [Part(Symbol('+'), [Point(5, 5)]), Part(Symbol('$'), [Point(3, 8)]), Part(Symbol('*'), [Point(5, 8)])]);
  }

  lemma SampleSymbolsAt7(parts: seq<Part>)
    requires 7 < |parts| && parts[7] == Part(Symbol('*'), [Point(3, 4)])
    requires SymbolParts(parts[8..]) == [Part(Symbol('+'), [Point(5, 5)]), Part(Symbol('$'), [Point(3, 8)]), Part(Symbol('*'), [Point(5, 8)])]
    ensures SymbolParts(parts[7..]) == [Part(Symbol('*'), [Point(3, 4)]), Part(Symbol('+'), [Point(5, 5)]), Part(Symbol('$'), [Point(3, 8)]), Part(Symbol('*'), [Point(5, 8)])]
  {
    SymbolPartsAdvance(parts, 7, [Part(Symbol('+'), [Point(5, 5)]), Part(Symbol('$'), [Point(3, 8)]), Part(Symbol('*'), [Point(5, 8)])], [Part(Symbol('*'), [Point(3, 4)]), Part(Symbol('+'), [Point(5, 5)]), Part(Symbol('$'), [Point(3, 8)]), Part(Symbol('*'), [Point(5, 8)])]);
  }

  lemma SampleSymbolsAt6(parts: seq<Part>)
    requires 6 < |parts| && parts[6] == Part(Number(617), [Point(0, 4), Point(1, 4), Point(2, 4)])
    requires SymbolParts(parts[7..]) == [Part(Symbol('*'), [Point(3, 4)]), Part(Symbol('+'), [Point(5, 5)]), Part(Symbol('$'), [Point(3, 8)]), Part(Symbol('*'), [Point(5, 8)])]
    ensures SymbolParts(parts[6..]) == [Part(Symbol('*'), [Point(3, 4)]), Part(Symbol('+'), [Point(5, 5)]), Part(Symbol('$'), [Point(3, 8)]), Part(Symbol('*'), [Point(5, 8)])]
  {
    SymbolPartsAdvance(parts, 6, [Part(Symbol('*'), [Point(3, 4)]), Part(Symbol('+'), [Point(5, 5)]), Part(Symbol('$'), [Point(3, 8)]), Part(Symbol('*'), [Point(5, 8)])], [Part(Symbol('*'), [Point(3, 4)]), Part(Symbol('+'), [Point(5, 5)]), Part(Symbol('$'), [Point(3, 8)]), Part(Symbol('*'), [Point(5, 8)])]);
  }

  lemma SampleSymbolsAt5(parts: seq<Part>)
    requires 5 < |parts| && parts[5] == Part(Symbol('#'), [Point(6, 3)])
    requires SymbolParts(parts[6..]) == [Part(Symbol('*'), [Point(3, 4)]), Part(Symbol('+'), [Point(5, 5)]), Part(Symbol('$'), [Point(3, 8)]), Part(Symbol('*'), [Point(5, 8)])]
    ensures SymbolParts(parts[5..]) == [Part(Symbol('#'), [Point(6, 3)]), Part(Symbol('*'), [Point(3, 4)]), Part(Symbol('+'), [Point(5, 5)]), Part(Symbol('$'), [Point(3, 8)]), Part(Symbol('*'), [Point(5, 8)])]
  {
    SymbolPartsAdvance(parts, 5, [Part(Symbol('*'), [Point(3, 4)]), Part(Symbol('+'), [Point(5, 5)]), Part(Symbol('$'), [Point(3, 8)]), Part(Symbol('*'), [Point(5, 8)])], [Part(Symbol('#'), [Point(6, 3)]), Part(Symbol('*'), [Point(3, 4)]), Part(Symbol('+'), [Point(5, 5)]), Part(Symbol('$'), [Point(3, 8)]), Part(Symbol('*'), [Point(5, 8)])]);
  }

  lemma SampleSymbolsAt4(parts: seq<Part>)
    requires 4 < |parts| && parts[4] == Part(Number(633), [Point(6, 2), Point(7, 2), Point(8, 2)])
    requires SymbolParts(parts[5..]) == [Part(Symbol('#'), [Point(6, 3)]), Part(Symbol('*'), [Point(3, 4)]), Part(Symbol('+'), [Point(5, 5)]), Part(Symbol('$'), [Point(3, 8)]), Part(Symbol('*'), [Point(5, 8)])]
    ensures SymbolParts(parts[4..]) == [Part(Symbol('#'), [Point(6, 3)]), Part(Symbol('*'), [Point(3, 4)]), Part(Symbol('+'), [Point(5, 5)]), Part(Symbol('$'), [Point(3, 8)]), Part(Symbol('*'), [Point(5, 8)])]
  {
    SymbolPartsAdvance(parts, 4, [Part(Symbol('#'), [Point(6, 3)]), Part(Symbol('*'), [Point(3, 4)]), Part(Symbol('+'), [Point(5, 5)]), Part(Symbol('$'), [Point(3, 8)]), Part(Symbol('*'), [Point(5, 8)])], [Part(Symbol('#'), [Point(6, 3)]), Part(Symbol('*'), [Point(3, 4)]), Part(Symbol('+'), [Point(5, 5)]), Part(Symbol('$'), [Point(3, 8)]), Part(Symbol('*'), [Point(5, 8)])]);
  }

  lemma SampleSymbolsAt3(parts: seq<Part>)
    requires 3 < |parts| && parts[3] == Part(Number(35), [Point(2, 2), Point(3, 2)])
    requires SymbolParts(parts[4..]) == [Part(Symbol('#'), [Point(6, 3)]), Part(Symbol('*'), [Point(3, 4)]), Part(Symbol('+'), [Point(5, 5)]), Part(Symbol('$'), [Point(3, 8)]), Part(Symbol('*'), [Point(5, 8)])]
    ensures SymbolParts(parts[3..]) == [Part(Symbol('#'), [Point(6, 3)]), Part(Symbol('*'), [Point(3, 4)]), Part(Symbol('+'), [Point(5, 5)]), Part(Symbol('$'), [Point(3, 8)]), Part(Symbol('*'), [Point(5, 8)])]
  {
    SymbolPartsAdvance(parts, 3, [Part(Symbol('#'), [Point(6, 3)]), Part(Symbol('*'), [Point(3, 4)]), Part(Symbol('+'), [Point(5, 5)]), Part(Symbol('$'), [Point(3, 8)]), Part(Symbol('*'), [Point(5, 8)])], [Part(Symbol('#'), [Point(6, 3)]), Part(Symbol('*'), [Point(3, 4)]), Part(Symbol('+'), [Point(5, 5)]), Part(Symbol('$'), [Point(3, 8)]), Part(Symbol('*'), [Point(5, 8)])]);
  }

  lemma SampleSymbolsAt2(parts: seq<Part>)
    requires 2 < |parts| && parts[2] == Part(Symbol('*'), [Point(3, 1)])
    requires SymbolParts(parts[3..]) == [Part(Symbol('#'), [Point(6, 3)]), Part(Symbol('*'), [Point(3, 4)]), Part(Symbol('+'), [Point(5, 5)]), Part(Symbol('$'), [Point(3, 8)]), Part(Symbol('*'), [Point(5, 8)])]
    ensures SymbolParts(parts[2..]) == [Part(Symbol('*'), [Point(3, 1)]), Part(Symbol('#'), [Point(6, 3)]), Part(Symbol('*'), [Point(3, 4)]), Part(Symbol('+'), [Point(5, 5)]), Part(Symbol('$'), [Point(3, 8)]), Part(Symbol('*'), [Point(5, 8)])]
  {
    SymbolPartsAdvance(parts, 2, [Part(Symbol('#'), [Point(6, 3)]), Part(Symbol('*'), [Point(3, 4)]), Part(Symbol('+'), [Point(5, 5)]), Part(Symbol('$'), [Point(3, 8)]), Part(Symbol('*'), [Point(5, 8)])], [Part(Symbol('*'), [Point(3, 1)]), Part(Symbol('#'), [Point(6, 3)]), Part(Symbol('*'), [Point(3, 4)]), Part(Symbol('+'), [Point(5, 5)]), Part(Symbol('$'), [Point(3, 8)]), Part(Symbol('*'), [Point(5, 8)])]);
  }

  lemma SampleSymbolsAt1(parts: seq<Part>)
    requires 1 < |parts| && parts[1] == Part(Number(114), [Point(5, 0), Point(6, 0), Point(7, 0)])
    requires SymbolParts(parts[2..]) == [Part(Symbol('*'), [Point(3, 1)]), Part(Symbol('#'), [Point(6, 3)]), Part(Symbol('*'), [Point(3, 4)]), Part(Symbol('+'), [Point(5, 5)]), Part(Symbol('$'), [Point(3, 8)]), Part(Symbol('*'), [Point(5, 8)])]
    ensures SymbolParts(parts[1..]) == [Part(Symbol('*'), [Point(3, 1)]), Part(Symbol('#'), [Point(6, 3)]), Part(Symbol('*'), [Point(3, 4)]), Part(Symbol('+'), [Point(5, 5)]), Part(Symbol('$'), [Point(3, 8)]), Part(Symbol('*'), [Point(5, 8)])]
  {
    SymbolPartsAdvance(parts, 1, [Part(Symbol('*'), [Point(3, 1)]), Part(Symbol('#'), [Point(6, 3)]), Part(Symbol('*'), [Point(3, 4)]), Part(Symbol('+'), [Point(5, 5)]), Part(Symbol('$'), [Point(3, 8)]), Part(Symbol('*'), [Point(5, 8)])], [Part(Symbol('*'), [Point(3, 1)]), Part(Symbol('#'), [Point(6, 3)]), Part(Symbol('*'), [Point(3, 4)]), Part(Symbol('+'), [Point(5, 5)]), Part(Symbol('$'), [Point(3, 8)]), Part(Symbol('*'), [Point(5, 8)])]);
  }

  lemma SampleSymbolsAt0(parts: seq<Part>)
    requires 0 < |parts| && parts[0] == Part(Number(467), [Point(0, 0), Point(1, 0), Point(2, 0)])
    requires SymbolParts(parts[1..]) == [Part(Symbol('*'), [Point(3, 1)]), Part(Symbol('#'), [Point(6, 3)]), Part(Symbol('*'), [Point(3, 4)]), Part(Symbol('+'), [Point(5, 5)]), Part(Symbol('$'), [Point(3, 8)]), Part(Symbol('*'), [Point(5, 8)])]
    ensures SymbolParts(parts[0..]) == [Part(Symbol('*'), [Point(3, 1)]), Part(Symbol('#'), [Point(6, 3)]), Part(Symbol('*'), [Point(3, 4)]), Part(Symbol('+'), [Point(5, 5)]), Part(Symbol('$'), [Point(3, 8)]), Part(Symbol('*'), [Point(5, 8)])]
  {
    SymbolPartsAdvance(parts, 0, [Part(Symbol('*'), [Point(3, 1)]), Part(Symbol('#'), [Point(6, 3)]), Part(Symbol('*'), [Point(3, 4)]), Part(Symbol('+'), [Point(5, 5)]), Part(Symbol('$'), [Point(3, 8)]), Part(Symbol('*'), [Point(5, 8)])], [Part(Symbol('*'), [Point(3, 1)]), Part(Symbol('#'), [Point(6, 3)]), Part(Symbol('*'), [Point(3, 4)]), Part(Symbol('+'), [Point(5, 5)]), Part(Symbol('$'), [Point(3, 8)]), Part(Symbol('*'), [Point(5, 8)])]);
  }

  /** The symbol parts of the sample, in scan order. */
  lemma SampleSymbols(parts: seq<Part>)
    requires |parts| == 16 &&
             parts[0] == Part(Number(467), [Point(0, 0), Point(1, 0), Point(2, 0)]) &&
             parts[1] == Part(Number(114), [Point(5, 0), Point(6, 0), Point(7, 0)]) &&
             parts[2] == Part(Symbol('*'), [Point(3, 1)]) &&
             parts[3] == Part(Number(35), [Point(2, 2), Point(3, 2)]) &&
             parts[4] == Part(Number(633), [Point(6, 2), Point(7, 2), Point(8, 2)]) &&
             parts[5] == Part(Symbol('#'), [Point(6, 3)]) &&
             parts[6] == Part(Number(617), [Point(0, 4), Point(1, 4), Point(2, 4)]) &&
             parts[7] == Part(Symbol('*'), [Point(3, 4)]) &&
             parts[8] == Part(Symbol('+'), [Point(5, 5)]) &&
             parts[9] == Part(Number(58), [Point(7, 5), Point(8, 5)]) &&
             parts[10] == Part(Number(592), [Point(2, 6), Point(3, 6), Point(4, 6)]) &&
             parts[11] == Part(Number(755), [Point(6, 7), Point(7, 7), Point(8, 7)]) &&
             parts[12] == Part(Symbol('$'), [Point(3, 8)]) &&
             parts[13] == Part(Symbol('*'), [Point(5, 8)]) &&
             parts[14] == Part(Number(664), [Point(1, 9), Point(2, 9), Point(3, 9)]) &&
             parts[15] == Part(Number(598), [Point(5, 9), Point(6, 9), Point(7, 9)])
    ensures |SymbolParts(parts)| == 6 &&
            SymbolParts(parts)[0] == Part(Symbol('*'), [Point(3, 1)]) &&
            SymbolParts(parts)[1] == Part(Symbol('#'), [Point(6, 3)]) &&
            SymbolParts(parts)[2] == Part(Symbol('*'), [Point(3, 4)]) &&
            SymbolParts(parts)[3] == Part(Symbol('+'), [Point(5, 5)]) &&
            SymbolParts(parts)[4] == Part(Symbol('$'), [Point(3, 8)]) &&
            SymbolParts(parts)[5] == Part(Symbol('*'), [Point(5, 8)])
  {
    assert parts[16..] == [];
    SampleSymbolsAt15(parts);
    SampleSymbolsAt14(parts);
    SampleSymbolsAt13(parts);
    SampleSymbolsAt12(parts);
    SampleSymbolsAt11(parts);
    SampleSymbolsAt10(parts);
    SampleSymbolsAt9(parts);
    SampleSymbolsAt8(parts);
    SampleSymbolsAt7(parts);
    SampleSymbolsAt6(parts);
    SampleSymbolsAt5(parts);
    SampleSymbolsAt4(parts);
    SampleSymbolsAt3(parts);
    SampleSymbolsAt2(parts);
    SampleSymbolsAt1(parts);
    SampleSymbolsAt0(parts);
    assert parts[0..] == parts;
  }

  lemma SamplePartNumberSumPoints(symbols: seq<Part>)
    requires symbols == [Part(Symbol('*'), [Point(3, 1)]), Part(Symbol('#'), [Point(6, 3)]), Part(Symbol('*'), [Point(3, 4)]), Part(Symbol('+'), [Point(5, 5)]), Part(Symbol('$'), [Point(3, 8)]), Part(Symbol('*'), [Point(5, 8)])]
    ensures Points(symbols) == [Point(3, 1), Point(6, 3), Point(3, 4), Point(5, 5), Point(3, 8), Point(5, 8)]
  {
    var trace: seq<seq<Point>> := [[], [Point(3, 1)], [Point(3, 1), Point(6, 3)], [Point(3, 1), Point(6, 3), Point(3, 4)], [Point(3, 1), Point(6, 3), Point(3, 4), Point(5, 5)], [Point(3, 1), Point(6, 3), Point(3, 4), Point(5, 5), Point(3, 8)], [Point(3, 1), Point(6, 3), Point(3, 4), Point(5, 5), Point(3, 8), Point(5, 8)]];
    PointsTrace(symbols, trace);
  }

  lemma SamplePartNumberSumTouch15()
    ensures Touches([Point(5, 9), Point(6, 9), Point(7, 9)], [Point(3, 1), Point(6, 3), Point(3, 4), Point(5, 5), Point(3, 8), Point(5, 8)])
  {
  }

  lemma SamplePartNumberSumAt15(parts: seq<Part>, symbols: seq<Part>)
    requires 15 < |parts| && parts[15] == Part(Number(598), [Point(5, 9), Point(6, 9), Point(7, 9)])
    requires Points(symbols) == [Point(3, 1), Point(6, 3), Point(3, 4), Point(5, 5), Point(3, 8), Point(5, 8)]
    requires PartNumberSum(parts[16..], symbols) == 0
    ensures PartNumberSum(parts[15..], symbols) == 598
  {
    assert parts[15].points == [Point(5, 9), Point(6, 9), Point(7, 9)];
    SamplePartNumberSumTouch15();
    PartNumberSumAdvance(symbols, parts, 15, 0, 598);
  }

  lemma SamplePartNumberSumTouch14()
    ensures Touches([Point(1, 9), Point(2, 9), Point(3, 9)], [Point(3, 1), Point(6, 3), Point(3, 4), Point(5, 5), Point(3, 8), Point(5, 8)])
  {
  }

  lemma SamplePartNumberSumAt14(parts: seq<Part>, symbols: seq<Part>)
    requires 14 < |parts| && parts[14] == Part(Number(664), [Point(1, 9), Point(2, 9), Point(3, 9)])
    requires Points(symbols) == [Point(3, 1), Point(6, 3), Point(3, 4), Point(5, 5), Point(3, 8), Point(5, 8)]
    requires PartNumberSum(parts[15..], symbols) == 598
    ensures PartNumberSum(parts[14..], symbols) == 1262
  {
    assert parts[14].points == [Point(1, 9), Point(2, 9), Point(3, 9)];
    SamplePartNumberSumTouch14();
    PartNumberSumAdvance(symbols, parts, 14, 598, 1262);
  }

  lemma SamplePartNumberSumAt13(parts: seq<Part>, symbols: seq<Part>)
    requires 13 < |parts| && parts[13] == Part(Symbol('*'), [Point(5, 8)])
    requires Points(symbols) == [Point(3, 1), Point(6, 3), Point(3, 4), Point(5, 5), Point(3, 8), Point(5, 8)]
    requires PartNumberSum(parts[14..], symbols) == 1262
    ensures PartNumberSum(parts[13..], symbols) == 1262
  {
    PartNumberSumAdvance(symbols, parts, 13, 1262, 1262);
  }

  lemma SamplePartNumberSumAt12(parts: seq<Part>, symbols: seq<Part>)
    requires 12 < |parts| && parts[12] == Part(Symbol('$'), [Point(3, 8)])
    requires Points(symbols) == [Point(3, 1), Point(6, 3), Point(3, 4), Point(5, 5), Point(3, 8), Point(5, 8)]
    requires PartNumberSum(parts[13..], symbols) == 1262
    ensures PartNumberSum(parts[12..], symbols) == 1262
  {
    PartNumberSumAdvance(symbols, parts, 12, 1262, 1262);
  }

  lemma SamplePartNumberSumTouch11()
    ensures Touches([Point(6, 7), Point(7, 7), Point(8, 7)], [Point(3, 1), Point(6, 3), Point(3, 4), Point(5, 5), Point(3, 8), Point(5, 8)])
  {
  }

  lemma SamplePartNumberSumAt11(parts: seq<Part>, symbols: seq<Part>)
    requires 11 < |parts| && parts[11] == Part(Number(755), [Point(6, 7), Point(7, 7), Point(8, 7)])
    requires Points(symbols) == [Point(3, 1), Point(6, 3), Point(3, 4), Point(5, 5), Point(3, 8), Point(5, 8)]
    requires PartNumberSum(parts[12..], symbols) == 1262
    ensures PartNumberSum(parts[11..], symbols) == 2017
  {
    assert parts[11].points == [Point(6, 7), Point(7, 7), Point(8, 7)];
    SamplePartNumberSumTouch11();
    PartNumberSumAdvance(symbols, parts, 11, 1262, 2017);
  }

  lemma SamplePartNumberSumTouch10()
    ensures Touches([Point(2, 6), Point(3, 6), Point(4, 6)], [Point(3, 1), Point(6, 3), Point(3, 4), Point(5, 5), Point(3, 8), Point(5, 8)])
  {
  }

  lemma SamplePartNumberSumAt10(parts: seq<Part>, symbols: seq<Part>)
    requires 10 < |parts| && parts[10] == Part(Number(592), [Point(2, 6), Point(3, 6), Point(4, 6)])
    requires Points(symbols) == [Point(3, 1), Point(6, 3), Point(3, 4), Point(5, 5), Point(3, 8), Point(5, 8)]
    requires PartNumberSum(parts[11..], symbols) == 2017
    ensures PartNumberSum(parts[10..], symbols) == 2609
  {
    assert parts[10].points == [Point(2, 6), Point(3, 6), Point(4, 6)];
    SamplePartNumberSumTouch10();
    PartNumberSumAdvance(symbols, parts, 10, 2017, 2609);
  }

  lemma SamplePartNumberSumTouch9()
    ensures !Touches([Point(7, 5), Point(8, 5)], [Point(3, 1), Point(6, 3), Point(3, 4), Point(5, 5), Point(3, 8), Point(5, 8)])
  {
  }

  lemma SamplePartNumberSumAt9(parts: seq<Part>, symbols: seq<Part>)
    requires 9 < |parts| && parts[9] == Part(Number(58), [Point(7, 5), Point(8, 5)])
    requires Points(symbols) == [Point(3, 1), Point(6, 3), Point(3, 4), Point(5, 5), Point(3, 8), Point(5, 8)]
    requires PartNumberSum(parts[10..], symbols) == 2609
    ensures PartNumberSum(parts[9..], symbols) == 2609
  {
    assert parts[9].points == [Point(7, 5), Point(8, 5)];
    SamplePartNumberSumTouch9();
    PartNumberSumAdvance(symbols, parts, 9, 2609, 2609);
  }

  lemma SamplePartNumberSumAt8(parts: seq<Part>, symbols: seq<Part>)
    requires 8 < |parts| && parts[8] == Part(Symbol('+'), [Point(5, 5)])
    requires Points(symbols) == [Point(3, 1), Point(6, 3), Point(3, 4), Point(5, 5), Point(3, 8), Point(5, 8)]
    requires PartNumberSum(parts[9..], symbols) == 2609
    ensures PartNumberSum(parts[8..], symbols) == 2609
  {
    PartNumberSumAdvance(symbols, parts, 8, 2609, 2609);
  }

  lemma SamplePartNumberSumAt7(parts: seq<Part>, symbols: seq<Part>)
    requires 7 < |parts| && parts[7] == Part(Symbol('*'), [Point(3, 4)])
    requires Points(symbols) == [Point(3, 1), Point(6, 3), Point(3, 4), Point(5, 5), Point(3, 8), Point(5, 8)]
    requires PartNumberSum(parts[8..], symbols) == 2609
    ensures PartNumberSum(parts[7..], symbols) == 2609
  {
    PartNumberSumAdvance(symbols, parts, 7, 2609, 2609);
  }

  lemma SamplePartNumberSumTouch6()
    ensures Touches([Point(0, 4), Point(1, 4), Point(2, 4)], [Point(3, 1), Point(6, 3), Point(3, 4), Point(5, 5), Point(3, 8), Point(5, 8)])
  {
  }

  lemma SamplePartNumberSumAt6(parts: seq<Part>, symbols: seq<Part>)
    requires 6 < |parts| && parts[6] == Part(Number(617), [Point(0, 4), Point(1, 4), Point(2, 4)])
    requires Points(symbols) == [Point(3, 1), Point(6, 3), Point(3, 4), Point(5, 5), Point(3, 8), Point(5, 8)]
    requires PartNumberSum(parts[7..], symbols) == 2609
    ensures PartNumberSum(parts[6..], symbols) == 3226
  {
    assert parts[6].points == [Point(0, 4), Point(1, 4), Point(2, 4)];
    SamplePartNumberSumTouch6();
    PartNumberSumAdvance(symbols, parts, 6, 2609, 3226);
  }

  lemma SamplePartNumberSumAt5(parts: seq<Part>, symbols: seq<Part>)
    requires 5 < |parts| && parts[5] == Part(Symbol('#'), [Point(6, 3)])
    requires Points(symbols) == [Point(3, 1), Point(6, 3), Point(3, 4), Point(5, 5), Point(3, 8), Point(5, 8)]
    requires PartNumberSum(parts[6..], symbols) == 3226
    ensures PartNumberSum(parts[5..], symbols) == 3226
  {
    PartNumberSumAdvance(symbols, parts, 5, 3226, 3226);
  }

  lemma SamplePartNumberSumTouch4()
    ensures Touches([Point(6, 2), Point(7, 2), Point(8, 2)], [Point(3, 1), Point(6, 3), Point(3, 4), Point(5, 5), Point(3, 8), Point(5, 8)])
  {
  }

  lemma SamplePartNumberSumAt4(parts: seq<Part>, symbols: seq<Part>)
    requires 4 < |parts| && parts[4] == Part(Number(633), [Point(6, 2), Point(7, 2), Point(8, 2)])
    requires Points(symbols) == [Point(3, 1), Point(6, 3), Point(3, 4), Point(5, 5), Point(3, 8), Point(5, 8)]
    requires PartNumberSum(parts[5..], symbols) == 3226
    ensures PartNumberSum(parts[4..], symbols) == 3859
  {
    assert parts[4].points == [Point(6, 2), Point(7, 2), Point(8, 2)];
    SamplePartNumberSumTouch4();
    PartNumberSumAdvance(symbols, parts, 4, 3226, 3859);
  }

  lemma SamplePartNumberSumTouch3()
    ensures Touches([Point(2, 2), Point(3, 2)], [Point(3, 1), Point(6, 3), Point(3, 4), Point(5, 5), Point(3, 8), Point(5, 8)])
  {
  }

  lemma SamplePartNumberSumAt3(parts: seq<Part>, symbols: seq<Part>)
    requires 3 < |parts| && parts[3] == Part(Number(35), [Point(2, 2), Point(3, 2)])
    requires Points(symbols) == [Point(3, 1), Point(6, 3), Point(3, 4), Point(5, 5), Point(3, 8), Point(5, 8)]
    requires PartNumberSum(parts[4..], symbols) == 3859
    ensures PartNumberSum(parts[3..], symbols) == 3894
  {
    assert parts[3].points == [Point(2, 2), Point(3, 2)];
    SamplePartNumberSumTouch3();
    PartNumberSumAdvance(symbols, parts, 3, 3859, 3894);
  }

  lemma SamplePartNumberSumAt2(parts: seq<Part>, symbols: seq<Part>)
    requires 2 < |parts| && parts[2] == Part(Symbol('*'), [Point(3, 1)])
    requires Points(symbols) == [Point(3, 1), Point(6, 3), Point(3, 4), Point(5, 5), Point(3, 8), Point(5, 8)]
    requires PartNumberSum(parts[3..], symbols) == 3894
    ensures PartNumberSum(parts[2..], symbols) == 3894
  {
    PartNumberSumAdvance(symbols, parts, 2, 3894, 3894);
  }

  lemma SamplePartNumberSumTouch1()
    ensures !Touches([Point(5, 0), Point(6, 0), Point(7, 0)], [Point(3, 1), Point(6, 3), Point(3, 4), Point(5, 5), Point(3, 8), Point(5, 8)])
  {
  }

  lemma SamplePartNumberSumAt1(parts: seq<Part>, symbols: seq<Part>)
    requires 1 < |parts| && parts[1] == Part(Number(114), [Point(5, 0), Point(6, 0), Point(7, 0)])
    requires Points(symbols) == [Point(3, 1), Point(6, 3), Point(3, 4), Point(5, 5), Point(3, 8), Point(5, 8)]
    requires PartNumberSum(parts[2..], symbols) == 3894
    ensures PartNumberSum(parts[1..], symbols) == 3894
  {
    assert parts[1].points == [Point(5, 0), Point(6, 0), Point(7, 0)];
    SamplePartNumberSumTouch1();
    PartNumberSumAdvance(symbols, parts, 1, 3894, 3894);
  }

  lemma SamplePartNumberSumTouch0()
    ensures Touches([Point(0, 0), Point(1, 0), Point(2, 0)], [Point(3, 1), Point(6, 3), Point(3, 4), Point(5, 5), Point(3, 8), Point(5, 8)])
  {
  }

  lemma SamplePartNumberSumAt0(parts: seq<Part>, symbols: seq<Part>)
    requires 0 < |parts| && parts[0] == Part(Number(467), [Point(0, 0), Point(1, 0), Point(2, 0)])
    requires Points(symbols) == [Point(3, 1), Point(6, 3), Point(3, 4), Point(5, 5), Point(3, 8), Point(5, 8)]
    requires PartNumberSum(parts[1..], symbols) == 3894
    ensures PartNumberSum(parts[0..], symbols) == 4361
  {
    assert parts[0].points == [Point(0, 0), Point(1, 0), Point(2, 0)];
    SamplePartNumberSumTouch0();
    PartNumberSumAdvance(symbols, parts, 0, 3894, 4361);
  }

  /** Part 1's sum over the sample's parts: every number but 114 and 58 touches a symbol. */
  lemma SamplePartNumberSum(parts: seq<Part>, symbols: seq<Part>)
    requires |parts| == 16 &&
             parts[0] == Part(Number(467), [Point(0, 0), Point(1, 0), Point(2, 0)]) &&
             parts[1] == Part(Number(114), [Point(5, 0), Point(6, 0), Point(7, 0)]) &&
             parts[2] == Part(Symbol('*'), [Point(3, 1)]) &&
             parts[3] == Part(Number(35), [Point(2, 2), Point(3, 2)]) &&
             parts[4] == Part(Number(633), [Point(6, 2), Point(7, 2), Point(8, 2)]) &&
             parts[5] == Part(Symbol('#'), [Point(6, 3)]) &&
             parts[6] == Part(Number(617), [Point(0, 4), Point(1, 4), Point(2, 4)]) &&
             parts[7] == Part(Symbol('*'), [Point(3, 4)]) &&
             parts[8] == Part(Symbol('+'), [Point(5, 5)]) &&
             parts[9] == Part(Number(58), [Point(7, 5), Point(8, 5)]) &&
             parts[10] == Part(Number(592), [Point(2, 6), Point(3, 6), Point(4, 6)]) &&
             parts[11] == Part(Number(755), [Point(6, 7), Point(7, 7), Point(8, 7)]) &&
             parts[12] == Part(Symbol('$'), [Point(3, 8)]) &&
             parts[13] == Part(Symbol('*'), [Point(5, 8)]) &&
             parts[14] == Part(Number(664), [Point(1, 9), Point(2, 9), Point(3, 9)]) &&
             parts[15] == Part(Number(598), [Point(5, 9), Point(6, 9), Point(7, 9)])
    requires Points(symbols) == [Point(3, 1), Point(6, 3), Point(3, 4), Point(5, 5), Point(3, 8), Point(5, 8)]
    ensures PartNumberSum(parts, symbols) == 4361
  {
    assert parts[16..] == [];
    SamplePartNumberSumAt15(parts, symbols);
    SamplePartNumberSumAt14(parts, symbols);
    SamplePartNumberSumAt13(parts, symbols);
    SamplePartNumberSumAt12(parts, symbols);
    SamplePartNumberSumAt11(parts, symbols);
    SamplePartNumberSumAt10(parts, symbols);
    SamplePartNumberSumAt9(parts, symbols);
    SamplePartNumberSumAt8(parts, symbols);
    SamplePartNumberSumAt7(parts, symbols);
    SamplePartNumberSumAt6(parts, symbols);
    SamplePartNumberSumAt5(parts, symbols);
    SamplePartNumberSumAt4(parts, symbols);
    SamplePartNumberSumAt3(parts, symbols);
    SamplePartNumberSumAt2(parts, symbols);
    SamplePartNumberSumAt1(parts, symbols);
    SamplePartNumberSumAt0(parts, symbols);
    assert parts[0..] == parts;
  }

  /** The Part 1 test `sample`: the answer is 4361. */
  lemma SamplePart1(lines: seq<string>)
    requires |lines| == 10 &&
             lines[0] == "467..114.." &&
             lines[1] == "...*......" &&
             lines[2] == "..35..633." &&
             lines[3] == "......#..." &&
             lines[4] == "617*......" &&
             lines[5] == ".....+.58." &&
             lines[6] == "..592....." &&
             lines[7] == "......755." &&
             lines[8] == "...$.*...." &&
             lines[9] == ".664.598.."
    ensures SumOfPartNumbers(lines) == 4361
  {
    SampleScan(lines);
    var parts := Scan(lines);
    SampleSymbols(parts);
    var symbols := SymbolParts(parts);
    SamplePartNumberSumPoints(symbols);
    SamplePartNumberSum(parts, symbols);
  }

  lemma SampleNumbersAt15(parts: seq<Part>)
    requires 15 < |parts| && parts[15] == Part(Number(598), [Point(5, 9), Point(6, 9), Point(7, 9)])
    requires NumberParts(parts[16..]) == []
    ensures NumberParts(parts[15..]) == [Part(Number(598), [Point(5, 9), Point(6, 9), Point(7, 9)])]
  {
    NumberPartsAdvance(parts, 15, [], [Part(Number(598), [Point(5, 9), Point(6, 9), Point(7, 9)])]);
  }

  lemma SampleNumbersAt14(parts: seq<Part>)
    requires 14 < |parts| && parts[14] == Part(Number(664), [Point(1, 9), Point(2, 9), Point(3, 9)])
    requires NumberParts(parts[15..]) == [Part(Number(598), [Point(5, 9), Point(6, 9), Point(7, 9)])]
    ensures NumberParts(parts[14..]) == [Part(Number(664), [Point(1, 9), Point(2, 9), Point(3, 9)]), Part(Number(598), [Point(5, 9), Point(6, 9), Point(7, 9)])]
  {
    NumberPartsAdvance(parts, 14, [Part(Number(598), [Point(5, 9), Point(6, 9), Point(7, 9)])], [Part(Number(664), [Point(1, 9), Point(2, 9), Point(3, 9)]), Part(Number(598), [Point(5, 9), Point(6, 9), Point(7, 9)])]);
  }

  lemma SampleNumbersAt13(parts: seq<Part>)
    requires 13 < |parts| && parts[13] == Part(Symbol('*'), [Point(5, 8)])
    requires NumberParts(parts[14..]) == [Part(Number(664), [Point(1, 9), Point(2, 9), Point(3, 9)]), Part(Number(598), [Point(5, 9), Point(6, 9), Point(7, 9)])]
    ensures NumberParts(parts[13..]) == [Part(Number(664), [Point(1, 9), Point(2, 9), Point(3, 9)]), Part(Number(598), [Point(5, 9), Point(6, 9), Point(7, 9)])]
  {
    NumberPartsAdvance(parts, 13, [Part(Number(664), [Point(1, 9), Point(2, 9), Point(3, 9)]), Part(Number(598), [Point(5, 9), Point(6, 9), Point(7, 9)])], [Part(Number(664), [Point(1, 9), Point(2, 9), Point(3, 9)]), Part(Number(598), [Point(5, 9), Point(6, 9), Point(7, 9)])]);
  }

  lemma SampleNumbersAt12(parts: seq<Part>)
    requires 12 < |parts| && parts[12] == Part(Symbol('$'), [Point(3, 8)])
    requires NumberParts(parts[13..]) == [Part(Number(664), [Point(1, 9), Point(2, 9), Point(3, 9)]), Part(Number(598), [Point(5, 9), Point(6, 9), Point(7, 9)])]
    ensures NumberParts(parts[12..]) == [Part(Number(664), [Point(1, 9), Point(2, 9), Point(3, 9)]), Part(Number(598), [Point(5, 9), Point(6, 9), Point(7, 9)])]
  {
    NumberPartsAdvance(parts, 12, [Part(Number(664), [Point(1, 9), Point(2, 9), Point(3, 9)]), Part(Number(598), [Point(5, 9), Point(6, 9), Point(7, 9)])], [Part(Number(664), [Point(1, 9), Point(2, 9), Point(3, 9)]), Part(Number(598), [Point(5, 9), Point(6, 9), Point(7, 9)])]);
  }

  lemma SampleNumbersAt11(parts: seq<Part>)
    requires 11 < |parts| && parts[11] == Part(Number(755), [Point(6, 7), Point(7, 7), Point(8, 7)])
    requires NumberParts(parts[12..]) == [Part(Number(664), [Point(1, 9), Point(2, 9), Point(3, 9)]), Part(Number(598), [Point(5, 9), Point(6, 9), Point(7, 9)])]
    ensures NumberParts(parts[11..]) == [Part(Number(755), [Point(6, 7), Point(7, 7), Point(8, 7)]), Part(Number(664), [Point(1, 9), Point(2, 9), Point(3, 9)]), Part(Number(598), [Point(5, 9), Point(6, 9), Point(7, 9)])]
  {
    NumberPartsAdvance(parts, 11, [Part(Number(664), [Point(1, 9), Point(2, 9), Point(3, 9)]), Part(Number(598), [Point(5, 9), Point(6, 9), Point(7, 9)])], [Part(Number(755), [Point(6, 7), Point(7, 7), Point(8, 7)]), Part(Number(664), [Point(1, 9), Point(2, 9), Point(3, 9)]), Part(Number(598), [Point(5, 9), Point(6, 9), Point(7, 9)])]);
  }

  lemma SampleNumbersAt10(parts: seq<Part>)
    requires 10 < |parts| && parts[10] == Part(Number(592), [Point(2, 6), Point(3, 6), Point(4, 6)])
    requires NumberParts(parts[11..]) == [Part(Number(755), [Point(6, 7), Point(7, 7), Point(8, 7)]), Part(Number(664), [Point(1, 9), Point(2, 9), Point(3, 9)]), Part(Number(598), [Point(5, 9), Point(6, 9), Point(7, 9)])]
    ensures NumberParts(parts[10..]) == [Part(Number(592), [Point(2, 6), Point(3, 6), Point(4, 6)]), Part(Number(755), [Point(6, 7), Point(7, 7), Point(8, 7)]), Part(Number(664), [Point(1, 9), Point(2, 9), Point(3, 9)]), Part(Number(598), [Point(5, 9), Point(6, 9), Point(7, 9)])]
  {
    NumberPartsAdvance(parts, 10, [Part(Number(755), [Point(6, 7), Point(7, 7), Point(8, 7)]), Part(Number(664), [Point(1, 9), Point(2, 9), Point(3, 9)]), Part(Number(598), [Point(5, 9), Point(6, 9), Point(7, 9)])], [Part(Number(592), [Point(2, 6), Point(3, 6), Point(4, 6)]), Part(Number(755), [Point(6, 7), Point(7, 7), Point(8, 7)]), Part(Number(664), [Point(1, 9), Point(2, 9), Point(3, 9)]), Part(Number(598), [Point(5, 9), Point(6, 9), Point(7, 9)])]);
  }

  lemma SampleNumbersAt9(parts: seq<Part>)
    requires 9 < |parts| && parts[9] == Part(Number(58), [Point(7, 5), Point(8, 5)])
    requires NumberParts(parts[10..]) == [Part(Number(592), [Point(2, 6), Point(3, 6), Point(4, 6)]), Part(Number(755), [Point(6, 7), Point(7, 7), Point(8, 7)]), Part(Number(664), [Point(1, 9), Point(2, 9), Point(3, 9)]), Part(Number(598), [Point(5, 9), Point(6, 9), Point(7, 9)])]
    ensures NumberParts(parts[9..]) == [Part(Number(58), [Point(7, 5), Point(8, 5)]), Part(Number(592), [Point(2, 6), Point(3, 6), Point(4, 6)]), Part(Number(755), [Point(6, 7), Point(7, 7), Point(8, 7)]), Part(Number(664), [Point(1, 9), Point(2, 9), Point(3, 9)]), Part(Number(598), [Point(5, 9), Point(6, 9), Point(7, 9)])]
  {
    NumberPartsAdvance(parts, 9, [Part(Number(592), [Point(2, 6), Point(3, 6), Point(4, 6)]), Part(Number(755), [Point(6, 7), Point(7, 7), Point(8, 7)]), Part(Number(664), [Point(1, 9), Point(2, 9), Point(3, 9)]), Part(Number(598), [Point(5, 9), Point(6, 9), Point(7, 9)])], [Part(Number(58), [Point(7, 5), Point(8, 5)]), Part(Number(592), [Point(2, 6), Point(3, 6), Point(4, 6)]), Part(Number(755), [Point(6, 7), Point(7, 7), Point(8, 7)]), Part(Number(664), [Point(1, 9), Point(2, 9), Point(3, 9)]), Part(Number(598), [Point(5, 9), Point(6, 9), Point(7, 9)])]);
  }

  lemma SampleNumbersAt8(parts: seq<Part>)
    requires 8 < |parts| && parts[8] == Part(Symbol('+'), [Point(5, 5)])
    requires NumberParts(parts[9..]) == [Part(Number(58), [Point(7, 5), Point(8, 5)]), Part(Number(592), [Point(2, 6), Point(3, 6), Point(4, 6)]), Part(Number(755), [Point(6, 7), Point(7, 7), Point(8, 7)]), Part(Number(664), [Point(1, 9), Point(2, 9), Point(3, 9)]), Part(Number(598), [Point(5, 9), Point(6, 9), Point(7, 9)])]
    ensures NumberParts(parts[8..]) == [Part(Number(58), [Point(7, 5), Point(8, 5)]), Part(Number(592), [Point(2, 6), Point(3, 6), Point(4, 6)]), Part(Number(755), [Point(6, 7), Point(7, 7), Point(8, 7)]), Part(Number(664), [Point(1, 9), Point(2, 9), Point(3, 9)]), Part(Number(598), [Point(5, 9), Point(6, 9), Point(7, 9)])]
  {
    NumberPartsAdvance(parts, 8, [Part(Number(58), [Point(7, 5), Point(8, 5)]), Part(Number(592), [Point(2, 6), Point(3, 6), Point(4, 6)]), Part(Number(755), [Point(6, 7), Point(7, 7), Point(8, 7)]), Part(Number(664), [Point(1, 9), Point(2, 9), Point(3, 9)]), Part(Number(598), [Point(5, 9), Point(6, 9), Point(7, 9)])], [Part(Number(58), [Point(7, 5), Point(8, 5)]), Part(Number(592), [Point(2, 6), Point(3, 6), Point(4, 6)]), Part(Number(755), [Point(6, 7), Point(7, 7), Point(8, 7)]), Part(Number(664), [Point(1, 9), Point(2, 9), Point(3, 9)]), Part(Number(598), [Point(5, 9), Point(6, 9), Point(7, 9)])]);
  }

  lemma SampleNumbersAt7(parts: seq<Part>)
    requires 7 < |parts| && parts[7] == Part(Symbol('*'), [Point(3, 4)])
    requires NumberParts(parts[8..]) == [Part(Number(58), [Point(7, 5), Point(8, 5)]), Part(Number(592), [Point(2, 6), Point(3, 6), Point(4, 6)]), Part(Number(755), [Point(6, 7), Point(7, 7), Point(8, 7)]), Part(Number(664), [Point(1, 9), Point(2, 9), Point(3, 9)]), Part(Number(598), [Point(5, 9), Point(6, 9), Point(7, 9)])]
    ensures NumberParts(parts[7..]) == [Part(Number(58), [Point(7, 5), Point(8, 5)]), Part(Number(592), [Point(2, 6), Point(3, 6), Point(4, 6)]), Part(Number(755), [Point(6, 7), Point(7, 7), Point(8, 7)]), Part(Number(664), [Point(1, 9), Point(2, 9), Point(3, 9)]), Part(Number(598), [Point(5, 9), Point(6, 9), Point(7, 9)])]
  {
    NumberPartsAdvance(parts, 7, [Part(Number(58), [Point(7, 5), Point(8, 5)]), Part(Number(592), [Point(2, 6), Point(3, 6), Point(4, 6)]), Part(Number(755), [Point(6, 7), Point(7, 7), Point(8, 7)]), Part(Number(664), [Point(1, 9), Point(2, 9), Point(3, 9)]), Part(Number(598), [Point(5, 9), Point(6, 9), Point(7, 9)])], [Part(Number(58), [Point(7, 5), Point(8, 5)]), Part(Number(592), [Point(2, 6), Point(3, 6), Point(4, 6)]), Part(Number(755), [Point(6, 7), Point(7, 7), Point(8, 7)]), Part(Number(664), [Point(1, 9), Point(2, 9), Point(3, 9)]), Part(Number(598), [Point(5, 9), Point(6, 9), Point(7, 9)])]);
  }

  lemma SampleNumbersAt6(parts: seq<Part>)
    requires 6 < |parts| && parts[6] == Part(Number(617), [Point(0, 4), Point(1, 4), Point(2, 4)])
    requires NumberParts(parts[7..]) == [Part(Number(58), [Point(7, 5), Point(8, 5)]), Part(Number(592), [Point(2, 6), Point(3, 6), Point(4, 6)]), Part(Number(755), [Point(6, 7), Point(7, 7), Point(8, 7)]), Part(Number(664), [Point(1, 9), Point(2, 9), Point(3, 9)]), Part(Number(598), [Point(5, 9), Point(6, 9), Point(7, 9)])]
    ensures NumberParts(parts[6..]) == [Part(Number(617), [Point(0, 4), Point(1, 4), Point(2, 4)]), Part(Number(58), [Point(7, 5), Point(8, 5)]), Part(Number(592), [Point(2, 6), Point(3, 6), Point(4, 6)]), Part(Number(755), [Point(6, 7), Point(7, 7), Point(8, 7)]), Part(Number(664), [Point(1, 9), Point(2, 9), Point(3, 9)]), Part(Number(598), [Point(5, 9), Point(6, 9), Point(7, 9)])]
  {
    NumberPartsAdvance(parts, 6, [Part(Number(58), [Point(7, 5), Point(8, 5)]), Part(Number(592), [Point(2, 6), Point(3, 6), Point(4, 6)]), Part(Number(755), [Point(6, 7), Point(7, 7), Point(8, 7)]), Part(Number(664), [Point(1, 9), Point(2, 9), Point(3, 9)]), Part(Number(598), [Point(5, 9), Point(6, 9), Point(7, 9)])], [Part(Number(617), [Point(0, 4), Point(1, 4), Point(2, 4)]), Part(Number(58), [Point(7, 5), Point(8, 5)]), Part(Number(592), [Point(2, 6), Point(3, 6), Point(4, 6)]), Part(Number(755), [Point(6, 7), Point(7, 7), Point(8, 7)]), Part(Number(664), [Point(1, 9), Point(2, 9), Point(3, 9)]), Part(Number(598), [Point(5, 9), Point(6, 9), Point(7, 9)])]);
  }

  lemma SampleNumbersAt5(parts: seq<Part>)
    requires 5 < |parts| && parts[5] == Part(Symbol('#'), [Point(6, 3)])
    requires NumberParts(parts[6..]) == [Part(Number(617), [Point(0, 4), Point(1, 4), Point(2, 4)]), Part(Number(58), [Point(7, 5), Point(8, 5)]), Part(Number(592), [Point(2, 6), Point(3, 6), Point(4, 6)]), Part(Number(755), [Point(6, 7), Point(7, 7), Point(8, 7)]), Part(Number(664), [Point(1, 9), Point(2, 9), Point(3, 9)]), Part(Number(598), [Point(5, 9), Point(6, 9), Point(7, 9)])]
    ensures NumberParts(parts[5..]) == [Part(Number(617), [Point(0, 4), Point(1, 4), Point(2, 4)]), Part(Number(58), [Point(7, 5), Point(8, 5)]), Part(Number(592), [Point(2, 6), Point(3, 6), Point(4, 6)]), Part(Number(755), [Point(6, 7), Point(7, 7), Point(8, 7)]), Part(Number(664), [Point(1, 9), Point(2, 9), Point(3, 9)]), Part(Number(598), [Point(5, 9), Point(6, 9), Point(7, 9)])]
  {
    NumberPartsAdvance(parts, 5, [Part(Number(617), [Point(0, 4), Point(1, 4), Point(2, 4)]), Part(Number(58), [Point(7, 5), Point(8, 5)]), Part(Number(592), [Point(2, 6), Point(3, 6), Point(4, 6)]), Part(Number(755), [Point(6, 7), Point(7, 7), Point(8, 7)]), Part(Number(664), [Point(1, 9), Point(2, 9), Point(3, 9)]), Part(Number(598), [Point(5, 9), Point(6, 9), Point(7, 9)])], [Part(Number(617), [Point(0, 4), Point(1, 4), Point(2, 4)]), Part(Number(58), [Point(7, 5), Point(8, 5)]), Part(Number(592), [Point(2, 6), Point(3, 6), Point(4, 6)]), Part(Number(755), [Point(6, 7), Point(7, 7), Point(8, 7)]), Part(Number(664), [Point(1, 9), Point(2, 9), Point(3, 9)]), Part(Number(598), [Point(5, 9), Point(6, 9), Point(7, 9)])]);
  }

  lemma SampleNumbersAt4(parts: seq<Part>)
    requires 4 < |parts| && parts[4] == Part(Number(633), [Point(6, 2), Point(7, 2), Point(8, 2)])
    requires NumberParts(parts[5..]) == [Part(Number(617), [Point(0, 4), Point(1, 4), Point(2, 4)]), Part(Number(58), [Point(7, 5), Point(8, 5)]), Part(Number(592), [Point(2, 6), Point(3, 6), Point(4, 6)]), Part(Number(755), [Point(6, 7), Point(7, 7), Point(8, 7)]), Part(Number(664), [Point(1, 9), Point(2, 9), Point(3, 9)]), Part(Number(598), [Point(5, 9), Point(6, 9), Point(7, 9)])]
    ensures NumberParts(parts[4..]) == [Part(Number(633), [Point(6, 2), Point(7, 2), Point(8, 2)]), Part(Number(617), [Point(0, 4), Point(1, 4), Point(2, 4)]), Part(Number(58), [Point(7, 5), Point(8, 5)]), Part(Number(592), [Point(2, 6), Point(3, 6), Point(4, 6)]), Part(Number(755), [Point(6, 7), Point(7, 7), Point(8, 7)]), Part(Number(664), [Point(1, 9), Point(2, 9), Point(3, 9)]), Part(Number(598), [Point(5, 9), Point(6, 9), Point(7, 9)])]
  {
    NumberPartsAdvance(parts, 4, [Part(Number(617), [Point(0, 4), Point(1, 4), Point(2, 4)]), Part(Number(58), [Point(7, 5), Point(8, 5)]), Part(Number(592), [Point(2, 6), Point(3, 6), Point(4, 6)]), Part(Number(755), [Point(6, 7), Point(7, 7), Point(8, 7)]), Part(Number(664), [Point(1, 9), Point(2, 9), Point(3, 9)]), Part(Number(598), [Point(5, 9), Point(6, 9), Point(7, 9)])], [Part(Number(633), [Point(6, 2), Point(7, 2), Point(8, 2)]), Part(Number(617), [Point(0, 4), Point(1, 4), Point(2, 4)]), Part(Number(58), [Point(7, 5), Point(8, 5)]), Part(Number(592), [Point(2, 6), Point(3, 6), Point(4, 6)]), Part(Number(755), [Point(6, 7), Point(7, 7), Point(8, 7)]), Part(Number(664), [Point(1, 9), Point(2, 9), Point(3, 9)]), Part(Number(598), [Point(5, 9), Point(6, 9), Point(7, 9)])]);
  }

  lemma SampleNumbersAt3(parts: seq<Part>)
    requires 3 < |parts| && parts[3] == Part(Number(35), [Point(2, 2), Point(3, 2)])
    requires NumberParts(parts[4..]) == [Part(Number(633), [Point(6, 2), Point(7, 2), Point(8, 2)]), Part(Number(617), [Point(0, 4), Point(1, 4), Point(2, 4)]), Part(Number(58), [Point(7, 5), Point(8, 5)]), Part(Number(592), [Point(2, 6), Point(3, 6), Point(4, 6)]), Part(Number(755), [Point(6, 7), Point(7, 7), Point(8, 7)]), Part(Number(664), [Point(1, 9), Point(2, 9), Point(3, 9)]), Part(Number(598), [Point(5, 9), Point(6, 9), Point(7, 9)])]
    ensures NumberParts(parts[3..]) == [Part(Number(35), [Point(2, 2), Point(3, 2)]), Part(Number(633), [Point(6, 2), Point(7, 2), Point(8, 2)]), Part(Number(617), [Point(0, 4), Point(1, 4), Point(2, 4)]), Part(Number(58), [Point(7, 5), Point(8, 5)]), Part(Number(592), [Point(2, 6), Point(3, 6), Point(4, 6)]), Part(Number(755), [Point(6, 7), Point(7, 7), Point(8, 7)]), Part(Number(664), [Point(1, 9), Point(2, 9), Point(3, 9)]), Part(Number(598), [Point(5, 9), Point(6, 9), Point(7, 9)])]
  {
    NumberPartsAdvance(parts, 3, [Part(Number(633), [Point(6, 2), Point(7, 2), Point(8, 2)]), Part(Number(617), [Point(0, 4), Point(1, 4), Point(2, 4)]), Part(Number(58), [Point(7, 5), Point(8, 5)]), Part(Number(592), [Point(2, 6), Point(3, 6), Point(4, 6)]), Part(Number(755), [Point(6, 7), Point(7, 7), Point(8, 7)]), Part(Number(664), [Point(1, 9), Point(2, 9), Point(3, 9)]), Part(Number(598), [Point(5, 9), Point(6, 9), Point(7, 9)])], [Part(Number(35), [Point(2, 2), Point(3, 2)]), Part(Number(633), [Point(6, 2), Point(7, 2), Point(8, 2)]), Part(Number(617), [Point(0, 4), Point(1, 4), Point(2, 4)]), Part(Number(58), [Point(7, 5), Point(8, 5)]), Part(Number(592), [Point(2, 6), Point(3, 6), Point(4, 6)]), Part(Number(755), [Point(6, 7), Point(7, 7), Point(8, 7)]), Part(Number(664), [Point(1, 9), Point(2, 9), Point(3, 9)]), Part(Number(598), [Point(5, 9), Point(6, 9), Point(7, 9)])]);
  }

  lemma SampleNumbersAt2(parts: seq<Part>)
    requires 2 < |parts| && parts[2] == Part(Symbol('*'), [Point(3, 1)])
    requires NumberParts(parts[3..]) == [Part(Number(35), [Point(2, 2), Point(3, 2)]), Part(Number(633), [Point(6, 2), Point(7, 2), Point(8, 2)]), Part(Number(617), [Point(0, 4), Point(1, 4), Point(2, 4)]), Part(Number(58), [Point(7, 5), Point(8, 5)]), Part(Number(592), [Point(2, 6), Point(3, 6), Point(4, 6)]), Part(Number(755), [Point(6, 7), Point(7, 7), Point(8, 7)]), Part(Number(664), [Point(1, 9), Point(2, 9), Point(3, 9)]), Part(Number(598), [Point(5, 9), Point(6, 9), Point(7, 9)])]
    ensures NumberParts(parts[2..]) == [Part(Number(35), [Point(2, 2), Point(3, 2)]), Part(Number(633), [Point(6, 2), Point(7, 2), Point(8, 2)]), Part(Number(617), [Point(0, 4), Point(1, 4), Point(2, 4)]), Part(Number(58), [Point(7, 5), Point(8, 5)]), Part(Number(592), [Point(2, 6), Point(3, 6), Point(4, 6)]), Part(Number(755), [Point(6, 7), Point(7, 7), Point(8, 7)]), Part(Number(664), [Point(1, 9), Point(2, 9), Point(3, 9)]), Part(Number(598), [Point(5, 9), Point(6, 9), Point(7, 9)])]
  {
    NumberPartsAdvance(parts, 2, [Part(Number(35), [Point(2, 2), Point(3, 2)]), Part(Number(633), [Point(6, 2), Point(7, 2), Point(8, 2)]), Part(Number(617), [Point(0, 4), Point(1, 4), Point(2, 4)]), Part(Number(58), [Point(7, 5), Point(8, 5)]), Part(Number(592), [Point(2, 6), Point(3, 6), Point(4, 6)]), Part(Number(755), [Point(6, 7), Point(7, 7), Point(8, 7)]), Part(Number(664), [Point(1, 9), Point(2, 9), Point(3, 9)]), Part(Number(598), [Point(5, 9), Point(6, 9), Point(7, 9)])], [Part(Number(35), [Point(2, 2), Point(3, 2)]), Part(Number(633), [Point(6, 2), Point(7, 2), Point(8, 2)]), Part(Number(617), [Point(0, 4), Point(1, 4), Point(2, 4)]), Part(Number(58), [Point(7, 5), Point(8, 5)]), Part(Number(592), [Point(2, 6), Point(3, 6), Point(4, 6)]), Part(Number(755), [Point(6, 7), Point(7, 7), Point(8, 7)]), Part(Number(664), [Point(1, 9), Point(2, 9), Point(3, 9)]), Part(Number(598), [Point(5, 9), Point(6, 9), Point(7, 9)])]);
  }

  lemma SampleNumbersAt1(parts: seq<Part>)
    requires 1 < |parts| && parts[1] == Part(Number(114), [Point(5, 0), Point(6, 0), Point(7, 0)])
    requires NumberParts(parts[2..]) == [Part(Number(35), [Point(2, 2), Point(3, 2)]), Part(Number(633), [Point(6, 2), Point(7, 2), Point(8, 2)]), Part(Number(617), [Point(0, 4), Point(1, 4), Point(2, 4)]), Part(Number(58), [Point(7, 5), Point(8, 5)]), Part(Number(592), [Point(2, 6), Point(3, 6), Point(4, 6)]), Part(Number(755), [Point(6, 7), Point(7, 7), Point(8, 7)]), Part(Number(664), [Point(1, 9), Point(2, 9), Point(3, 9)]), Part(Number(598), [Point(5, 9), Point(6, 9), Point(7, 9)])]
    ensures NumberParts(parts[1..]) == [Part(Number(114), [Point(5, 0), Point(6, 0), Point(7, 0)]), Part(Number(35), [Point(2, 2), Point(3, 2)]), Part(Number(633), [Point(6, 2), Point(7, 2), Point(8, 2)]), Part(Number(617), [Point(0, 4), Point(1, 4), Point(2, 4)]), Part(Number(58), [Point(7, 5), Point(8, 5)]), Part(Number(592), [Point(2, 6), Point(3, 6), Point(4, 6)]), Part(Number(755), [Point(6, 7), Point(7, 7), Point(8, 7)]), Part(Number(664), [Point(1, 9), Point(2, 9), Point(3, 9)]), Part(Number(598), [Point(5, 9), Point(6, 9), Point(7, 9)])]
  {
    NumberPartsAdvance(parts, 1, [Part(Number(35), [Point(2, 2), Point(3, 2)]), Part(Number(633), [Point(6, 2), Point(7, 2), Point(8, 2)]), Part(Number(617), [Point(0, 4), Point(1, 4), Point(2, 4)]), Part(Number(58), [Point(7, 5), Point(8, 5)]), Part(Number(592), [Point(2, 6), Point(3, 6), Point(4, 6)]), Part(Number(755), [Point(6, 7), Point(7, 7), Point(8, 7)]), Part(Number(664), [Point(1, 9), Point(2, 9), Point(3, 9)]), Part(Number(598), [Point(5, 9), Point(6, 9), Point(7, 9)])], [Part(Number(114), [Point(5, 0), Point(6, 0), Point(7, 0)]), Part(Number(35), [Point(2, 2), Point(3, 2)]), Part(Number(633), [Point(6, 2), Point(7, 2), Point(8, 2)]), Part(Number(617), [Point(0, 4), Point(1, 4), Point(2, 4)]), Part(Number(58), [Point(7, 5), Point(8, 5)]), Part(Number(592), [Point(2, 6), Point(3, 6), Point(4, 6)]), Part(Number(755), [Point(6, 7), Point(7, 7), Point(8, 7)]), Part(Number(664), [Point(1, 9), Point(2, 9), Point(3, 9)]), Part(Number(598), [Point(5, 9), Point(6, 9), Point(7, 9)])]);
  }

  lemma SampleNumbersAt0(parts: seq<Part>)
    requires 0 < |parts| && parts[0] == Part(Number(467), [Point(0, 0), Point(1, 0), Point(2, 0)])
    requires NumberParts(parts[1..]) == [Part(Number(114), [Point(5, 0), Point(6, 0), Point(7, 0)]), Part(Number(35), [Point(2, 2), Point(3, 2)]), Part(Number(633), [Point(6, 2), Point(7, 2), Point(8, 2)]), Part(Number(617), [Point(0, 4), Point(1, 4), Point(2, 4)]), Part(Number(58), [Point(7, 5), Point(8, 5)]), Part(Number(592), [Point(2, 6), Point(3, 6), Point(4, 6)]), Part(Number(755), [Point(6, 7), Point(7, 7), Point(8, 7)]), Part(Number(664), [Point(1, 9), Point(2, 9), Point(3, 9)]), Part(Number(598), [Point(5, 9), Point(6, 9), Point(7, 9)])]
    ensures NumberParts(parts[0..]) == [Part(Number(467), [Point(0, 0), Point(1, 0), Point(2, 0)]), Part(Number(114), [Point(5, 0), Point(6, 0), Point(7, 0)]), Part(Number(35), [Point(2, 2), Point(3, 2)]), Part(Number(633), [Point(6, 2), Point(7, 2), Point(8, 2)]), Part(Number(617), [Point(0, 4), Point(1, 4), Point(2, 4)]), Part(Number(58), [Point(7, 5), Point(8, 5)]), Part(Number(592), [Point(2, 6), Point(3, 6), Point(4, 6)]), Part(Number(755), [Point(6, 7), Point(7, 7), Point(8, 7)]), Part(Number(664), [Point(1, 9), Point(2, 9), Point(3, 9)]), Part(Number(598), [Point(5, 9), Point(6, 9), Point(7, 9)])]
  {
    NumberPartsAdvance(parts, 0, [Part(Number(114), [Point(5, 0), Point(6, 0), Point(7, 0)]), Part(Number(35), [Point(2, 2), Point(3, 2)]), Part(Number(633), [Point(6, 2), Point(7, 2), Point(8, 2)]), Part(Number(617), [Point(0, 4), Point(1, 4), Point(2, 4)]), Part(Number(58), [Point(7, 5), Point(8, 5)]), Part(Number(592), [Point(2, 6), Point(3, 6), Point(4, 6)]), Part(Number(755), [Point(6, 7), Point(7, 7), Point(8, 7)]), Part(Number(664), [Point(1, 9), Point(2, 9), Point(3, 9)]), Part(Number(598), [Point(5, 9), Point(6, 9), Point(7, 9)])], [Part(Number(467), [Point(0, 0), Point(1, 0), Point(2, 0)]), Part(Number(114), [Point(5, 0), Point(6, 0), Point(7, 0)]), Part(Number(35), [Point(2, 2), Point(3, 2)]), Part(Number(633), [Point(6, 2), Point(7, 2), Point(8, 2)]), Part(Number(617), [Point(0, 4), Point(1, 4), Point(2, 4)]), Part(Number(58), [Point(7, 5), Point(8, 5)]), Part(Number(592), [Point(2, 6), Point(3, 6), Point(4, 6)]), Part(Number(755), [Point(6, 7), Point(7, 7), Point(8, 7)]), Part(Number(664), [Point(1, 9), Point(2, 9), Point(3, 9)]), Part(Number(598), [Point(5, 9), Point(6, 9), Point(7, 9)])]);
  }

  /** The number parts of the sample, in scan order. */
  lemma SampleNumbers(parts: seq<Part>)
    requires |parts| == 16 &&
             parts[0] == Part(Number(467), [Point(0, 0), Point(1, 0), Point(2, 0)]) &&
             parts[1] == Part(Number(114), [Point(5, 0), Point(6, 0), Point(7, 0)]) &&
             parts[2] == Part(Symbol('*'), [Point(3, 1)]) &&
             parts[3] == Part(Number(35), [Point(2, 2), Point(3, 2)]) &&
             parts[4] == Part(Number(633), [Point(6, 2), Point(7, 2), Point(8, 2)]) &&
             parts[5] == Part(Symbol('#'), [Point(6, 3)]) &&
             parts[6] == Part(Number(617), [Point(0, 4), Point(1, 4), Point(2, 4)]) &&
             parts[7] == Part(Symbol('*'), [Point(3, 4)]) &&
             parts[8] == Part(Symbol('+'), [Point(5, 5)]) &&
             parts[9] == Part(Number(58), [Point(7, 5), Point(8, 5)]) &&
             parts[10] == Part(Number(592), [Point(2, 6), Point(3, 6), Point(4, 6)]) &&
             parts[11] == Part(Number(755), [Point(6, 7), Point(7, 7), Point(8, 7)]) &&
             parts[12] == Part(Symbol('$'), [Point(3, 8)]) &&
             parts[13] == Part(Symbol('*'), [Point(5, 8)]) &&
             parts[14] == Part(Number(664), [Point(1, 9), Point(2, 9), Point(3, 9)]) &&
             parts[15] == Part(Number(598), [Point(5, 9), Point(6, 9), Point(7, 9)])
    ensures |NumberParts(parts)| == 10 &&
            NumberParts(parts)[0] == Part(Number(467), [Point(0, 0), Point(1, 0), Point(2, 0)]) &&
            NumberParts(parts)[1] == Part(Number(114), [Point(5, 0), Point(6, 0), Point(7, 0)]) &&
            NumberParts(parts)[2] == Part(Number(35), [Point(2, 2), Point(3, 2)]) &&
            NumberParts(parts)[3] == Part(Number(633), [Point(6, 2), Point(7, 2), Point(8, 2)]) &&
            NumberParts(parts)[4] == Part(Number(617), [Point(0, 4), Point(1, 4), Point(2, 4)]) &&
            NumberParts(parts)[5] == Part(Number(58), [Point(7, 5), Point(8, 5)]) &&
            NumberParts(parts)[6] == Part(Number(592), [Point(2, 6), Point(3, 6), Point(4, 6)]) &&
            NumberParts(parts)[7] == Part(Number(755), [Point(6, 7), Point(7, 7), Point(8, 7)]) &&
            NumberParts(parts)[8] == Part(Number(664), [Point(1, 9), Point(2, 9), Point(3, 9)]) &&
            NumberParts(parts)[9] == Part(Number(598), [Point(5, 9), Point(6, 9), Point(7, 9)])
  {
    assert parts[16..] == [];
    SampleNumbersAt15(parts);
    SampleNumbersAt14(parts);
    SampleNumbersAt13(parts);
    SampleNumbersAt12(parts);
    SampleNumbersAt11(parts);
    SampleNumbersAt10(parts);
    SampleNumbersAt9(parts);
    SampleNumbersAt8(parts);
    SampleNumbersAt7(parts);
    SampleNumbersAt6(parts);
    SampleNumbersAt5(parts);
    SampleNumbersAt4(parts);
    SampleNumbersAt3(parts);
    SampleNumbersAt2(parts);
    SampleNumbersAt1(parts);
    SampleNumbersAt0(parts);
    assert parts[0..] == parts;
  }

  lemma SampleAdjacent3_1Touch9()
    ensures !Touches([Point(3, 1)], [Point(5, 9), Point(6, 9), Point(7, 9)])
  {
  }

  lemma SampleAdjacent3_1At9(gear: Part, numbers: seq<Part>)
    requires 9 < |numbers| && numbers[9] == Part(Number(598), [Point(5, 9), Point(6, 9), Point(7, 9)])
    requires gear == Part(Symbol('*'), [Point(3, 1)])
    requires AdjacentNumbers(gear, numbers[10..]) == []
    ensures AdjacentNumbers(gear, numbers[9..]) == []
  {
    assert numbers[9].points == [Point(5, 9), Point(6, 9), Point(7, 9)];
    SampleAdjacent3_1Touch9();
    AdjacentNumbersAdvance(gear, numbers, 9, [], []);
  }

  lemma SampleAdjacent3_1Touch8()
    ensures !Touches([Point(3, 1)], [Point(1, 9), Point(2, 9), Point(3, 9)])
  {
  }

  lemma SampleAdjacent3_1At8(gear: Part, numbers: seq<Part>)
    requires 8 < |numbers| && numbers[8] == Part(Number(664), [Point(1, 9), Point(2, 9), Point(3, 9)])
    requires gear == Part(Symbol('*'), [Point(3, 1)])
    requires AdjacentNumbers(gear, numbers[9..]) == []
    ensures AdjacentNumbers(gear, numbers[8..]) == []
  {
    assert numbers[8].points == [Point(1, 9), Point(2, 9), Point(3, 9)];
    SampleAdjacent3_1Touch8();
    AdjacentNumbersAdvance(gear, numbers, 8, [], []);
  }

  lemma SampleAdjacent3_1Touch7()
    ensures !Touches([Point(3, 1)], [Point(6, 7), Point(7, 7), Point(8, 7)])
  {
  }

  lemma SampleAdjacent3_1At7(gear: Part, numbers: seq<Part>)
    requires 7 < |numbers| && numbers[7] == Part(Number(755), [Point(6, 7), Point(7, 7), Point(8, 7)])
    requires gear == Part(Symbol('*'), [Point(3, 1)])
    requires AdjacentNumbers(gear, numbers[8..]) == []
    ensures AdjacentNumbers(gear, numbers[7..]) == []
  {
    assert numbers[7].points == [Point(6, 7), Point(7, 7), Point(8, 7)];
    SampleAdjacent3_1Touch7();
    AdjacentNumbersAdvance(gear, numbers, 7, [], []);
  }

  lemma SampleAdjacent3_1Touch6()
    ensures !Touches([Point(3, 1)], [Point(2, 6), Point(3, 6), Point(4, 6)])
  {
  }

  lemma SampleAdjacent3_1At6(gear: Part, numbers: seq<Part>)
    requires 6 < |numbers| && numbers[6] == Part(Number(592), [Point(2, 6), Point(3, 6), Point(4, 6)])
    requires gear == Part(Symbol('*'), [Point(3, 1)])
    requires AdjacentNumbers(gear, numbers[7..]) == []
    ensures AdjacentNumbers(gear, numbers[6..]) == []
  {
    assert numbers[6].points == [Point(2, 6), Point(3, 6), Point(4, 6)];
    SampleAdjacent3_1Touch6();
    AdjacentNumbersAdvance(gear, numbers, 6, [], []);
  }

  lemma SampleAdjacent3_1Touch5()
    ensures !Touches([Point(3, 1)], [Point(7, 5), Point(8, 5)])
  {
  }

  lemma SampleAdjacent3_1At5(gear: Part, numbers: seq<Part>)
    requires 5 < |numbers| && numbers[5] == Part(Number(58), [Point(7, 5), Point(8, 5)])
    requires gear == Part(Symbol('*'), [Point(3, 1)])
    requires AdjacentNumbers(gear, numbers[6..]) == []
    ensures AdjacentNumbers(gear, numbers[5..]) == []
  {
    assert numbers[5].points == [Point(7, 5), Point(8, 5)];
    SampleAdjacent3_1Touch5();
    AdjacentNumbersAdvance(gear, numbers, 5, [], []);
  }

  lemma SampleAdjacent3_1Touch4()
    ensures !Touches([Point(3, 1)], [Point(0, 4), Point(1, 4), Point(2, 4)])
  {
  }

  lemma SampleAdjacent3_1At4(gear: Part, numbers: seq<Part>)
    requires 4 < |numbers| && numbers[4] == Part(Number(617), [Point(0, 4), Point(1, 4), Point(2, 4)])
    requires gear == Part(Symbol('*'), [Point(3, 1)])
    requires AdjacentNumbers(gear, numbers[5..]) == []
    ensures AdjacentNumbers(gear, numbers[4..]) == []
  {
    assert numbers[4].points == [Point(0, 4), Point(1, 4), Point(2, 4)];
    SampleAdjacent3_1Touch4();
    AdjacentNumbersAdvance(gear, numbers, 4, [], []);
  }

  lemma SampleAdjacent3_1Touch3()
    ensures !Touches([Point(3, 1)], [Point(6, 2), Point(7, 2), Point(8, 2)])
  {
  }

  lemma SampleAdjacent3_1At3(gear: Part, numbers: seq<Part>)
    requires 3 < |numbers| && numbers[3] == Part(Number(633), [Point(6, 2), Point(7, 2), Point(8, 2)])
    requires gear == Part(Symbol('*'), [Point(3, 1)])
    requires AdjacentNumbers(gear, numbers[4..]) == []
    ensures AdjacentNumbers(gear, numbers[3..]) == []
  {
    assert numbers[3].points == [Point(6, 2), Point(7, 2), Point(8, 2)];
    SampleAdjacent3_1Touch3();
    AdjacentNumbersAdvance(gear, numbers, 3, [], []);
  }

  lemma SampleAdjacent3_1Touch2()
    ensures Touches([Point(3, 1)], [Point(2, 2), Point(3, 2)])
  {
  }

  lemma SampleAdjacent3_1At2(gear: Part, numbers: seq<Part>)
    requires 2 < |numbers| && numbers[2] == Part(Number(35), [Point(2, 2), Point(3, 2)])
    requires gear == Part(Symbol('*'), [Point(3, 1)])
    requires AdjacentNumbers(gear, numbers[3..]) == []
    ensures AdjacentNumbers(gear, numbers[2..]) == [Part(Number(35), [Point(2, 2), Point(3, 2)])]
  {
    assert numbers[2].points == [Point(2, 2), Point(3, 2)];
    SampleAdjacent3_1Touch2();
    AdjacentNumbersAdvance(gear, numbers, 2, [], [Part(Number(35), [Point(2, 2), Point(3, 2)])]);
  }

  lemma SampleAdjacent3_1Touch1()
    ensures !Touches([Point(3, 1)], [Point(5, 0), Point(6, 0), Point(7, 0)])
  {
  }

  lemma SampleAdjacent3_1At1(gear: Part, numbers: seq<Part>)
    requires 1 < |numbers| && numbers[1] == Part(Number(114), [Point(5, 0), Point(6, 0), Point(7, 0)])
    requires gear == Part(Symbol('*'), [Point(3, 1)])
    requires AdjacentNumbers(gear, numbers[2..]) == [Part(Number(35), [Point(2, 2), Point(3, 2)])]
    ensures AdjacentNumbers(gear, numbers[1..]) == [Part(Number(35), [Point(2, 2), Point(3, 2)])]
  {
    assert numbers[1].points == [Point(5, 0), Point(6, 0), Point(7, 0)];
    SampleAdjacent3_1Touch1();
    AdjacentNumbersAdvance(gear, numbers, 1, [Part(Number(35), [Point(2, 2), Point(3, 2)])], [Part(Number(35), [Point(2, 2), Point(3, 2)])]);
  }

  lemma SampleAdjacent3_1Touch0()
    ensures Touches([Point(3, 1)], [Point(0, 0), Point(1, 0), Point(2, 0)])
  {
  }

  lemma SampleAdjacent3_1At0(gear: Part, numbers: seq<Part>)
    requires 0 < |numbers| && numbers[0] == Part(Number(467), [Point(0, 0), Point(1, 0), Point(2, 0)])
    requires gear == Part(Symbol('*'), [Point(3, 1)])
    requires AdjacentNumbers(gear, numbers[1..]) == [Part(Number(35), [Point(2, 2), Point(3, 2)])]
    ensures AdjacentNumbers(gear, numbers[0..]) == [Part(Number(467), [Point(0, 0), Point(1, 0), Point(2, 0)]), Part(Number(35), [Point(2, 2), Point(3, 2)])]
  {
    assert numbers[0].points == [Point(0, 0), Point(1, 0), Point(2, 0)];
    SampleAdjacent3_1Touch0();
    AdjacentNumbersAdvance(gear, numbers, 0, [Part(Number(35), [Point(2, 2), Point(3, 2)])], [Part(Number(467), [Point(0, 0), Point(1, 0), Point(2, 0)]), Part(Number(35), [Point(2, 2), Point(3, 2)])]);
  }

  /** The numbers touching the '*' on (3, 1). */
  lemma SampleAdjacent3_1(gear: Part, numbers: seq<Part>)
    requires |numbers| == 10 &&
             numbers[0] == Part(Number(467), [Point(0, 0), Point(1, 0), Point(2, 0)]) &&
             numbers[1] == Part(Number(114), [Point(5, 0), Point(6, 0), Point(7, 0)]) &&
             numbers[2] == Part(Number(35), [Point(2, 2), Point(3, 2)]) &&
             numbers[3] == Part(Number(633), [Point(6, 2), Point(7, 2), Point(8, 2)]) &&
             numbers[4] == Part(Number(617), [Point(0, 4), Point(1, 4), Point(2, 4)]) &&
             numbers[5] == Part(Number(58), [Point(7, 5), Point(8, 5)]) &&
             numbers[6] == Part(Number(592), [Point(2, 6), Point(3, 6), Point(4, 6)]) &&
             numbers[7] == Part(Number(755), [Point(6, 7), Point(7, 7), Point(8, 7)]) &&
             numbers[8] == Part(Number(664), [Point(1, 9), Point(2, 9), Point(3, 9)]) &&
             numbers[9] == Part(Number(598), [Point(5, 9), Point(6, 9), Point(7, 9)])
    requires gear == Part(Symbol('*'), [Point(3, 1)])
    ensures |AdjacentNumbers(gear, numbers)| == 2 &&
            AdjacentNumbers(gear, numbers)[0] == Part(Number(467), [Point(0, 0), Point(1, 0), Point(2, 0)]) &&
            AdjacentNumbers(gear, numbers)[1] == Part(Number(35), [Point(2, 2), Point(3, 2)])
  {
    assert numbers[10..] == [];
    SampleAdjacent3_1At9(gear, numbers);
    SampleAdjacent3_1At8(gear, numbers);
    SampleAdjacent3_1At7(gear, numbers);
    SampleAdjacent3_1At6(gear, numbers);
    SampleAdjacent3_1At5(gear, numbers);
    SampleAdjacent3_1At4(gear, numbers);
    SampleAdjacent3_1At3(gear, numbers);
    SampleAdjacent3_1At2(gear, numbers);
    SampleAdjacent3_1At1(gear, numbers);
    SampleAdjacent3_1At0(gear, numbers);
    assert numbers[0..] == numbers;
  }

  lemma SampleAdjacent3_4Touch9()
    ensures !Touches([Point(3, 4)], [Point(5, 9), Point(6, 9), Point(7, 9)])
  {
  }

  lemma SampleAdjacent3_4At9(gear: Part, numbers: seq<Part>)
    requires 9 < |numbers| && numbers[9] == Part(Number(598), [Point(5, 9), Point(6, 9), Point(7, 9)])
    requires gear == Part(Symbol('*'), [Point(3, 4)])
    requires AdjacentNumbers(gear, numbers[10..]) == []
    ensures AdjacentNumbers(gear, numbers[9..]) == []
  {
    assert numbers[9].points == [Point(5, 9), Point(6, 9), Point(7, 9)];
    SampleAdjacent3_4Touch9();
    AdjacentNumbersAdvance(gear, numbers, 9, [], []);
  }

  lemma SampleAdjacent3_4Touch8()
    ensures !Touches([Point(3, 4)], [Point(1, 9), Point(2, 9), Point(3, 9)])
  {
  }

  lemma SampleAdjacent3_4At8(gear: Part, numbers: seq<Part>)
    requires 8 < |numbers| && numbers[8] == Part(Number(664), [Point(1, 9), Point(2, 9), Point(3, 9)])
    requires gear == Part(Symbol('*'), [Point(3, 4)])
    requires AdjacentNumbers(gear, numbers[9..]) == []
    ensures AdjacentNumbers(gear, numbers[8..]) == []
  {
    assert numbers[8].points == [Point(1, 9), Point(2, 9), Point(3, 9)];
    SampleAdjacent3_4Touch8();
    AdjacentNumbersAdvance(gear, numbers, 8, [], []);
  }

  lemma SampleAdjacent3_4Touch7()
    ensures !Touches([Point(3, 4)], [Point(6, 7), Point(7, 7), Point(8, 7)])
  {
  }

  lemma SampleAdjacent3_4At7(gear: Part, numbers: seq<Part>)
    requires 7 < |numbers| && numbers[7] == Part(Number(755), [Point(6, 7), Point(7, 7), Point(8, 7)])
    requires gear == Part(Symbol('*'), [Point(3, 4)])
    requires AdjacentNumbers(gear, numbers[8..]) == []
    ensures AdjacentNumbers(gear, numbers[7..]) == []
  {
    assert numbers[7].points == [Point(6, 7), Point(7, 7), Point(8, 7)];
    SampleAdjacent3_4Touch7();
    AdjacentNumbersAdvance(gear, numbers, 7, [], []);
  }

  lemma SampleAdjacent3_4Touch6()
    ensures !Touches([Point(3, 4)], [Point(2, 6), Point(3, 6), Point(4, 6)])
  {
  }

  lemma SampleAdjacent3_4At6(gear: Part, numbers: seq<Part>)
    requires 6 < |numbers| && numbers[6] == Part(Number(592), [Point(2, 6), Point(3, 6), Point(4, 6)])
    requires gear == Part(Symbol('*'), [Point(3, 4)])
    requires AdjacentNumbers(gear, numbers[7..]) == []
    ensures AdjacentNumbers(gear, numbers[6..]) == []
  {
    assert numbers[6].points == [Point(2, 6), Point(3, 6), Point(4, 6)];
    SampleAdjacent3_4Touch6();
    AdjacentNumbersAdvance(gear, numbers, 6, [], []);
  }

  lemma SampleAdjacent3_4Touch5()
    ensures !Touches([Point(3, 4)], [Point(7, 5), Point(8, 5)])
  {
  }

  lemma SampleAdjacent3_4At5(gear: Part, numbers: seq<Part>)
    requires 5 < |numbers| && numbers[5] == Part(Number(58), [Point(7, 5), Point(8, 5)])
    requires gear == Part(Symbol('*'), [Point(3, 4)])
    requires AdjacentNumbers(gear, numbers[6..]) == []
    ensures AdjacentNumbers(gear, numbers[5..]) == []
  {
    assert numbers[5].points == [Point(7, 5), Point(8, 5)];
    SampleAdjacent3_4Touch5();
    AdjacentNumbersAdvance(gear, numbers, 5, [], []);
  }

  lemma SampleAdjacent3_4Touch4()
    ensures Touches([Point(3, 4)], [Point(0, 4), Point(1, 4), Point(2, 4)])
  {
  }

  lemma SampleAdjacent3_4At4(gear: Part, numbers: seq<Part>)
    requires 4 < |numbers| && numbers[4] == Part(Number(617), [Point(0, 4), Point(1, 4), Point(2, 4)])
    requires gear == Part(Symbol('*'), [Point(3, 4)])
    requires AdjacentNumbers(gear, numbers[5..]) == []
    ensures AdjacentNumbers(gear, numbers[4..]) == [Part(Number(617), [Point(0, 4), Point(1, 4), Point(2, 4)])]
  {
    assert numbers[4].points == [Point(0, 4), Point(1, 4), Point(2, 4)];
    SampleAdjacent3_4Touch4();
    AdjacentNumbersAdvance(gear, numbers, 4, [], [Part(Number(617), [Point(0, 4), Point(1, 4), Point(2, 4)])]);
  }

  lemma SampleAdjacent3_4Touch3()
    ensures !Touches([Point(3, 4)], [Point(6, 2), Point(7, 2), Point(8, 2)])
  {
  }

  lemma SampleAdjacent3_4At3(gear: Part, numbers: seq<Part>)
    requires 3 < |numbers| && numbers[3] == Part(Number(633), [Point(6, 2), Point(7, 2), Point(8, 2)])
    requires gear == Part(Symbol('*'), [Point(3, 4)])
    requires AdjacentNumbers(gear, numbers[4..]) == [Part(Number(617), [Point(0, 4), Point(1, 4), Point(2, 4)])]
    ensures AdjacentNumbers(gear, numbers[3..]) == [Part(Number(617), [Point(0, 4), Point(1, 4), Point(2, 4)])]
  {
    assert numbers[3].points == [Point(6, 2), Point(7, 2), Point(8, 2)];
    SampleAdjacent3_4Touch3();
    AdjacentNumbersAdvance(gear, numbers, 3, [Part(Number(617), [Point(0, 4), Point(1, 4), Point(2, 4)])], [Part(Number(617), [Point(0, 4), Point(1, 4), Point(2, 4)])]);
  }

  lemma SampleAdjacent3_4Touch2()
    ensures !Touches([Point(3, 4)], [Point(2, 2), Point(3, 2)])
  {
  }

  lemma SampleAdjacent3_4At2(gear: Part, numbers: seq<Part>)
    requires 2 < |numbers| && numbers[2] == Part(Number(35), [Point(2, 2), Point(3, 2)])
    requires gear == Part(Symbol('*'), [Point(3, 4)])
    requires AdjacentNumbers(gear, numbers[3..]) == [Part(Number(617), [Point(0, 4), Point(1, 4), Point(2, 4)])]
    ensures AdjacentNumbers(gear, numbers[2..]) == [Part(Number(617), [Point(0, 4), Point(1, 4), Point(2, 4)])]
  {
    assert numbers[2].points == [Point(2, 2), Point(3, 2)];
    SampleAdjacent3_4Touch2();
    AdjacentNumbersAdvance(gear, numbers, 2, [Part(Number(617), [Point(0, 4), Point(1, 4), Point(2, 4)])], [Part(Number(617), [Point(0, 4), Point(1, 4), Point(2, 4)])]);
  }

  lemma SampleAdjacent3_4Touch1()
    ensures !Touches([Point(3, 4)], [Point(5, 0), Point(6, 0), Point(7, 0)])
  {
  }

  lemma SampleAdjacent3_4At1(gear: Part, numbers: seq<Part>)
    requires 1 < |numbers| && numbers[1] == Part(Number(114), [Point(5, 0), Point(6, 0), Point(7, 0)])
    requires gear == Part(Symbol('*'), [Point(3, 4)])
    requires AdjacentNumbers(gear, numbers[2..]) == [Part(Number(617), [Point(0, 4), Point(1, 4), Point(2, 4)])]
    ensures AdjacentNumbers(gear, numbers[1..]) == [Part(Number(617), [Point(0, 4), Point(1, 4), Point(2, 4)])]
  {
    assert numbers[1].points == [Point(5, 0), Point(6, 0), Point(7, 0)];
    SampleAdjacent3_4Touch1();
    AdjacentNumbersAdvance(gear, numbers, 1, [Part(Number(617), [Point(0, 4), Point(1, 4), Point(2, 4)])], [Part(Number(617), [Point(0, 4), Point(1, 4), Point(2, 4)])]);
  }

  lemma SampleAdjacent3_4Touch0()
    ensures !Touches([Point(3, 4)], [Point(0, 0), Point(1, 0), Point(2, 0)])
  {
  }

  lemma SampleAdjacent3_4At0(gear: Part, numbers: seq<Part>)
    requires 0 < |numbers| && numbers[0] == Part(Number(467), [Point(0, 0), Point(1, 0), Point(2, 0)])
    requires gear == Part(Symbol('*'), [Point(3, 4)])
    requires AdjacentNumbers(gear, numbers[1..]) == [Part(Number(617), [Point(0, 4), Point(1, 4), Point(2, 4)])]
    ensures AdjacentNumbers(gear, numbers[0..]) == [Part(Number(617), [Point(0, 4), Point(1, 4), Point(2, 4)])]
  {
    assert numbers[0].points == [Point(0, 0), Point(1, 0), Point(2, 0)];
    SampleAdjacent3_4Touch0();
    AdjacentNumbersAdvance(gear, numbers, 0, [Part(Number(617), [Point(0, 4), Point(1, 4), Point(2, 4)])], [Part(Number(617), [Point(0, 4), Point(1, 4), Point(2, 4)])]);
  }

  /** The numbers touching the '*' on (3, 4). */
  lemma SampleAdjacent3_4(gear: Part, numbers: seq<Part>)
    requires |numbers| == 10 &&
             numbers[0] == Part(Number(467), [Point(0, 0), Point(1, 0), Point(2, 0)]) &&
             numbers[1] == Part(Number(114), [Point(5, 0), Point(6, 0), Point(7, 0)]) &&
             numbers[2] == Part(Number(35), [Point(2, 2), Point(3, 2)]) &&
             numbers[3] == Part(Number(633), [Point(6, 2), Point(7, 2), Point(8, 2)]) &&
             numbers[4] == Part(Number(617), [Point(0, 4), Point(1, 4), Point(2, 4)]) &&
             numbers[5] == Part(Number(58), [Point(7, 5), Point(8, 5)]) &&
             numbers[6] == Part(Number(592), [Point(2, 6), Point(3, 6), Point(4, 6)]) &&
             numbers[7] == Part(Number(755), [Point(6, 7), Point(7, 7), Point(8, 7)]) &&
             numbers[8] == Part(Number(664), [Point(1, 9), Point(2, 9), Point(3, 9)]) &&
             numbers[9] == Part(Number(598), [Point(5, 9), Point(6, 9), Point(7, 9)])
    requires gear == Part(Symbol('*'), [Point(3, 4)])
    ensures |AdjacentNumbers(gear, numbers)| == 1 &&
            AdjacentNumbers(gear, numbers)[0] == Part(Number(617), [Point(0, 4), Point(1, 4), Point(2, 4)])
  {
    assert numbers[10..] == [];
    SampleAdjacent3_4At9(gear, numbers);
    SampleAdjacent3_4At8(gear, numbers);
    SampleAdjacent3_4At7(gear, numbers);
    SampleAdjacent3_4At6(gear, numbers);
    SampleAdjacent3_4At5(gear, numbers);
    SampleAdjacent3_4At4(gear, numbers);
    SampleAdjacent3_4At3(gear, numbers);
    SampleAdjacent3_4At2(gear, numbers);
    SampleAdjacent3_4At1(gear, numbers);
    SampleAdjacent3_4At0(gear, numbers);
    assert numbers[0..] == numbers;
  }

  lemma SampleAdjacent5_8Touch9()
    ensures Touches([Point(5, 8)], [Point(5, 9), Point(6, 9), Point(7, 9)])
  {
  }

  lemma SampleAdjacent5_8At9(gear: Part, numbers: seq<Part>)
    requires 9 < |numbers| && numbers[9] == Part(Number(598), [Point(5, 9), Point(6, 9), Point(7, 9)])
    requires gear == Part(Symbol('*'), [Point(5, 8)])
    requires AdjacentNumbers(gear, numbers[10..]) == []
    ensures AdjacentNumbers(gear, numbers[9..]) == [Part(Number(598), [Point(5, 9), Point(6, 9), Point(7, 9)])]
  {
    assert numbers[9].points == [Point(5, 9), Point(6, 9), Point(7, 9)];
    SampleAdjacent5_8Touch9();
    AdjacentNumbersAdvance(gear, numbers, 9, [], [Part(Number(598), [Point(5, 9), Point(6, 9), Point(7, 9)])]);
  }

  lemma SampleAdjacent5_8Touch8()
    ensures !Touches([Point(5, 8)], [Point(1, 9), Point(2, 9), Point(3, 9)])
  {
  }

  lemma SampleAdjacent5_8At8(gear: Part, numbers: seq<Part>)
    requires 8 < |numbers| && numbers[8] == Part(Number(664), [Point(1, 9), Point(2, 9), Point(3, 9)])
    requires gear == Part(Symbol('*'), [Point(5, 8)])
    requires AdjacentNumbers(gear, numbers[9..]) == [Part(Number(598), [Point(5, 9), Point(6, 9), Point(7, 9)])]
    ensures AdjacentNumbers(gear, numbers[8..]) == [Part(Number(598), [Point(5, 9), Point(6, 9), Point(7, 9)])]
  {
    assert numbers[8].points == [Point(1, 9), Point(2, 9), Point(3, 9)];
    SampleAdjacent5_8Touch8();
    AdjacentNumbersAdvance(gear, numbers, 8, [Part(Number(598), [Point(5, 9), Point(6, 9), Point(7, 9)])], [Part(Number(598), [Point(5, 9), Point(6, 9), Point(7, 9)])]);
  }

  lemma SampleAdjacent5_8Touch7()
    ensures Touches([Point(5, 8)], [Point(6, 7), Point(7, 7), Point(8, 7)])
  {
  }

  lemma SampleAdjacent5_8At7(gear: Part, numbers: seq<Part>)
    requires 7 < |numbers| && numbers[7] == Part(Number(755), [Point(6, 7), Point(7, 7), Point(8, 7)])
    requires gear == Part(Symbol('*'), [Point(5, 8)])
    requires AdjacentNumbers(gear, numbers[8..]) == [Part(Number(598), [Point(5, 9), Point(6, 9), Point(7, 9)])]
    ensures AdjacentNumbers(gear, numbers[7..]) == [Part(Number(755), [Point(6, 7), Point(7, 7), Point(8, 7)]), Part(Number(598), [Point(5, 9), Point(6, 9), Point(7, 9)])]
  {
    assert numbers[7].points == [Point(6, 7), Point(7, 7), Point(8, 7)];
    SampleAdjacent5_8Touch7();
    AdjacentNumbersAdvance(gear, numbers, 7, [Part(Number(598), [Point(5, 9), Point(6, 9), Point(7, 9)])], [Part(Number(755), [Point(6, 7), Point(7, 7), Point(8, 7)]), Part(Number(598), [Point(5, 9), Point(6, 9), Point(7, 9)])]);
  }

  lemma SampleAdjacent5_8Touch6()
    ensures !Touches([Point(5, 8)], [Point(2, 6), Point(3, 6), Point(4, 6)])
  {
  }

  lemma SampleAdjacent5_8At6(gear: Part, numbers: seq<Part>)
    requires 6 < |numbers| && numbers[6] == Part(Number(592), [Point(2, 6), Point(3, 6), Point(4, 6)])
    requires gear == Part(Symbol('*'), [Point(5, 8)])
    requires AdjacentNumbers(gear, numbers[7..]) == [Part(Number(755), [Point(6, 7), Point(7, 7), Point(8, 7)]), Part(Number(598), [Point(5, 9), Point(6, 9), Point(7, 9)])]
    ensures AdjacentNumbers(gear, numbers[6..]) == [Part(Number(755), [Point(6, 7), Point(7, 7), Point(8, 7)]), Part(Number(598), [Point(5, 9), Point(6, 9), Point(7, 9)])]
  {
    assert numbers[6].points == [Point(2, 6), Point(3, 6), Point(4, 6)];
    SampleAdjacent5_8Touch6();
    AdjacentNumbersAdvance(gear, numbers, 6, [Part(Number(755), [Point(6, 7), Point(7, 7), Point(8, 7)]), Part(Number(598), [Point(5, 9), Point(6, 9), Point(7, 9)])], [Part(Number(755), [Point(6, 7), Point(7, 7), Point(8, 7)]), Part(Number(598), [Point(5, 9), Point(6, 9), Point(7, 9)])]);
  }

  lemma SampleAdjacent5_8Touch5()
    ensures !Touches([Point(5, 8)], [Point(7, 5), Point(8, 5)])
  {
  }

  lemma SampleAdjacent5_8At5(gear: Part, numbers: seq<Part>)
    requires 5 < |numbers| && numbers[5] == Part(Number(58), [Point(7, 5), Point(8, 5)])
    requires gear == Part(Symbol('*'), [Point(5, 8)])
    requires AdjacentNumbers(gear, numbers[6..]) == [Part(Number(755), [Point(6, 7), Point(7, 7), Point(8, 7)]), Part(Number(598), [Point(5, 9), Point(6, 9), Point(7, 9)])]
    ensures AdjacentNumbers(gear, numbers[5..]) == [Part(Number(755), [Point(6, 7), Point(7, 7), Point(8, 7)]), Part(Number(598), [Point(5, 9), Point(6, 9), Point(7, 9)])]
  {
    assert numbers[5].points == [Point(7, 5), Point(8, 5)];
    SampleAdjacent5_8Touch5();
    AdjacentNumbersAdvance(gear, numbers, 5, [Part(Number(755), [Point(6, 7), Point(7, 7), Point(8, 7)]), Part(Number(598), [Point(5, 9), Point(6, 9), Point(7, 9)])], [Part(Number(755), [Point(6, 7), Point(7, 7), Point(8, 7)]), Part(Number(598), [Point(5, 9), Point(6, 9), Point(7, 9)])]);
  }

  lemma SampleAdjacent5_8Touch4()
    ensures !Touches([Point(5, 8)], [Point(0, 4), Point(1, 4), Point(2, 4)])
  {
  }

  lemma SampleAdjacent5_8At4(gear: Part, numbers: seq<Part>)
    requires 4 < |numbers| && numbers[4] == Part(Number(617), [Point(0, 4), Point(1, 4), Point(2, 4)])
    requires gear == Part(Symbol('*'), [Point(5, 8)])
    requires AdjacentNumbers(gear, numbers[5..]) == [Part(Number(755), [Point(6, 7), Point(7, 7), Point(8, 7)]), Part(Number(598), [Point(5, 9), Point(6, 9), Point(7, 9)])]
    ensures AdjacentNumbers(gear, numbers[4..]) == [Part(Number(755), [Point(6, 7), Point(7, 7), Point(8, 7)]), Part(Number(598), [Point(5, 9), Point(6, 9), Point(7, 9)])]
  {
    assert numbers[4].points == [Point(0, 4), Point(1, 4), Point(2, 4)];
    SampleAdjacent5_8Touch4();
    AdjacentNumbersAdvance(gear, numbers, 4, [Part(Number(755), [Point(6, 7), Point(7, 7), Point(8, 7)]), Part(Number(598), [Point(5, 9), Point(6, 9), Point(7, 9)])], [Part(Number(755), [Point(6, 7), Point(7, 7), Point(8, 7)]), Part(Number(598), [Point(5, 9), Point(6, 9), Point(7, 9)])]);
  }

  lemma SampleAdjacent5_8Touch3()
    ensures !Touches([Point(5, 8)], [Point(6, 2), Point(7, 2), Point(8, 2)])
  {
  }

  lemma SampleAdjacent5_8At3(gear: Part, numbers: seq<Part>)
    requires 3 < |numbers| && numbers[3] == Part(Number(633), [Point(6, 2), Point(7, 2), Point(8, 2)])
    requires gear == Part(Symbol('*'), [Point(5, 8)])
    requires AdjacentNumbers(gear, numbers[4..]) == [Part(Number(755), [Point(6, 7), Point(7, 7), Point(8, 7)]), Part(Number(598), [Point(5, 9), Point(6, 9), Point(7, 9)])]
    ensures AdjacentNumbers(gear, numbers[3..]) == [Part(Number(755), [Point(6, 7), Point(7, 7), Point(8, 7)]), Part(Number(598), [Point(5, 9), Point(6, 9), Point(7, 9)])]
  {
    assert numbers[3].points == [Point(6, 2), Point(7, 2), Point(8, 2)];
    SampleAdjacent5_8Touch3();
    AdjacentNumbersAdvance(gear, numbers, 3, [Part(Number(755), [Point(6, 7), Point(7, 7), Point(8, 7)]), Part(Number(598), [Point(5, 9), Point(6, 9), Point(7, 9)])], [Part(Number(755), [Point(6, 7), Point(7, 7), Point(8, 7)]), Part(Number(598), [Point(5, 9), Point(6, 9), Point(7, 9)])]);
  }

  lemma SampleAdjacent5_8Touch2()
    ensures !Touches([Point(5, 8)], [Point(2, 2), Point(3, 2)])
  {
  }

  lemma SampleAdjacent5_8At2(gear: Part, numbers: seq<Part>)
    requires 2 < |numbers| && numbers[2] == Part(Number(35), [Point(2, 2), Point(3, 2)])
    requires gear == Part(Symbol('*'), [Point(5, 8)])
    requires AdjacentNumbers(gear, numbers[3..]) == [Part(Number(755), [Point(6, 7), Point(7, 7), Point(8, 7)]), Part(Number(598), [Point(5, 9), Point(6, 9), Point(7, 9)])]
    ensures AdjacentNumbers(gear, numbers[2..]) == [Part(Number(755), [Point(6, 7), Point(7, 7), Point(8, 7)]), Part(Number(598), [Point(5, 9), Point(6, 9), Point(7, 9)])]
  {
    assert numbers[2].points == [Point(2, 2), Point(3, 2)];
    SampleAdjacent5_8Touch2();
    AdjacentNumbersAdvance(gear, numbers, 2, [Part(Number(755), [Point(6, 7), Point(7, 7), Point(8, 7)]), Part(Number(598), [Point(5, 9), Point(6, 9), Point(7, 9)])], [Part(Number(755), [Point(6, 7), Point(7, 7), Point(8, 7)]), Part(Number(598), [Point(5, 9), Point(6, 9), Point(7, 9)])]);
  }

  lemma SampleAdjacent5_8Touch1()
    ensures !Touches([Point(5, 8)], [Point(5, 0), Point(6, 0), Point(7, 0)])
  {
  }

  lemma SampleAdjacent5_8At1(gear: Part, numbers: seq<Part>)
    requires 1 < |numbers| && numbers[1] == Part(Number(114), [Point(5, 0), Point(6, 0), Point(7, 0)])
    requires gear == Part(Symbol('*'), [Point(5, 8)])
    requires AdjacentNumbers(gear, numbers[2..]) == [Part(Number(755), [Point(6, 7), Point(7, 7), Point(8, 7)]), Part(Number(598), [Point(5, 9), Point(6, 9), Point(7, 9)])]
    ensures AdjacentNumbers(gear, numbers[1..]) == [Part(Number(755), [Point(6, 7), Point(7, 7), Point(8, 7)]), Part(Number(598), [Point(5, 9), Point(6, 9), Point(7, 9)])]
  {
    assert numbers[1].points == [Point(5, 0), Point(6, 0), Point(7, 0)];
    SampleAdjacent5_8Touch1();
    AdjacentNumbersAdvance(gear, numbers, 1, [Part(Number(755), [Point(6, 7), Point(7, 7), Point(8, 7)]), Part(Number(598), [Point(5, 9), Point(6, 9), Point(7, 9)])], [Part(Number(755), [Point(6, 7), Point(7, 7), Point(8, 7)]), Part(Number(598), [Point(5, 9), Point(6, 9), Point(7, 9)])]);
  }

  lemma SampleAdjacent5_8Touch0()
    ensures !Touches([Point(5, 8)], [Point(0, 0), Point(1, 0), Point(2, 0)])
  {
  }

  lemma SampleAdjacent5_8At0(gear: Part, numbers: seq<Part>)
    requires 0 < |numbers| && numbers[0] == Part(Number(467), [Point(0, 0), Point(1, 0), Point(2, 0)])
    requires gear == Part(Symbol('*'), [Point(5, 8)])
    requires AdjacentNumbers(gear, numbers[1..]) == [Part(Number(755), [Point(6, 7), Point(7, 7), Point(8, 7)]), Part(Number(598), [Point(5, 9), Point(6, 9), Point(7, 9)])]
    ensures AdjacentNumbers(gear, numbers[0..]) == [Part(Number(755), [Point(6, 7), Point(7, 7), Point(8, 7)]), Part(Number(598), [Point(5, 9), Point(6, 9), Point(7, 9)])]
  {
    assert numbers[0].points == [Point(0, 0), Point(1, 0), Point(2, 0)];
    SampleAdjacent5_8Touch0();
    AdjacentNumbersAdvance(gear, numbers, 0, [Part(Number(755), [Point(6, 7), Point(7, 7), Point(8, 7)]), Part(Number(598), [Point(5, 9), Point(6, 9), Point(7, 9)])], [Part(Number(755), [Point(6, 7), Point(7, 7), Point(8, 7)]), Part(Number(598), [Point(5, 9), Point(6, 9), Point(7, 9)])]);
  }

  /** The numbers touching the '*' on (5, 8). */
  lemma SampleAdjacent5_8(gear: Part, numbers: seq<Part>)
    requires |numbers| == 10 &&
             numbers[0] == Part(Number(467), [Point(0, 0), Point(1, 0), Point(2, 0)]) &&
             numbers[1] == Part(Number(114), [Point(5, 0), Point(6, 0), Point(7, 0)]) &&
             numbers[2] == Part(Number(35), [Point(2, 2), Point(3, 2)]) &&
             numbers[3] == Part(Number(633), [Point(6, 2), Point(7, 2), Point(8, 2)]) &&
             numbers[4] == Part(Number(617), [Point(0, 4), Point(1, 4), Point(2, 4)]) &&
             numbers[5] == Part(Number(58), [Point(7, 5), Point(8, 5)]) &&
             numbers[6] == Part(Number(592), [Point(2, 6), Point(3, 6), Point(4, 6)]) &&
             numbers[7] == Part(Number(755), [Point(6, 7), Point(7, 7), Point(8, 7)]) &&
             numbers[8] == Part(Number(664), [Point(1, 9), Point(2, 9), Point(3, 9)]) &&
             numbers[9] == Part(Number(598), [Point(5, 9), Point(6, 9), Point(7, 9)])
    requires gear == Part(Symbol('*'), [Point(5, 8)])
    ensures |AdjacentNumbers(gear, numbers)| == 2 &&
            AdjacentNumbers(gear, numbers)[0] == Part(Number(755), [Point(6, 7), Point(7, 7), Point(8, 7)]) &&
            AdjacentNumbers(gear, numbers)[1] == Part(Number(598), [Point(5, 9), Point(6, 9), Point(7, 9)])
  {
    assert numbers[10..] == [];
    SampleAdjacent5_8At9(gear, numbers);
    SampleAdjacent5_8At8(gear, numbers);
    SampleAdjacent5_8At7(gear, numbers);
    SampleAdjacent5_8At6(gear, numbers);
    SampleAdjacent5_8At5(gear, numbers);
    SampleAdjacent5_8At4(gear, numbers);
    SampleAdjacent5_8At3(gear, numbers);
    SampleAdjacent5_8At2(gear, numbers);
    SampleAdjacent5_8At1(gear, numbers);
    SampleAdjacent5_8At0(gear, numbers);
    assert numbers[0..] == numbers;
  }

  lemma SampleGearsAt15(parts: seq<Part>, numbers: seq<Part>)
    requires 15 < |parts| && parts[15] == Part(Number(598), [Point(5, 9), Point(6, 9), Point(7, 9)])
    requires |numbers| == 10 &&
               numbers[0] == Part(Number(467), [Point(0, 0), Point(1, 0), Point(2, 0)]) &&
               numbers[1] == Part(Number(114), [Point(5, 0), Point(6, 0), Point(7, 0)]) &&
               numbers[2] == Part(Number(35), [Point(2, 2), Point(3, 2)]) &&
               numbers[3] == Part(Number(633), [Point(6, 2), Point(7, 2), Point(8, 2)]) &&
               numbers[4] == Part(Number(617), [Point(0, 4), Point(1, 4), Point(2, 4)]) &&
               numbers[5] == Part(Number(58), [Point(7, 5), Point(8, 5)]) &&
               numbers[6] == Part(Number(592), [Point(2, 6), Point(3, 6), Point(4, 6)]) &&
               numbers[7] == Part(Number(755), [Point(6, 7), Point(7, 7), Point(8, 7)]) &&
               numbers[8] == Part(Number(664), [Point(1, 9), Point(2, 9), Point(3, 9)]) &&
               numbers[9] == Part(Number(598), [Point(5, 9), Point(6, 9), Point(7, 9)])
    requires Gears(parts[16..], numbers) == []
    ensures Gears(parts[15..], numbers) == []
  {
    GearsAdvance(numbers, parts, 15, [], []);
  }

  lemma SampleGearsAt14(parts: seq<Part>, numbers: seq<Part>)
    requires 14 < |parts| && parts[14] == Part(Number(664), [Point(1, 9), Point(2, 9), Point(3, 9)])
    requires |numbers| == 10 &&
               numbers[0] == Part(Number(467), [Point(0, 0), Point(1, 0), Point(2, 0)]) &&
               numbers[1] == Part(Number(114), [Point(5, 0), Point(6, 0), Point(7, 0)]) &&
               numbers[2] == Part(Number(35), [Point(2, 2), Point(3, 2)]) &&
               numbers[3] == Part(Number(633), [Point(6, 2), Point(7, 2), Point(8, 2)]) &&
               numbers[4] == Part(Number(617), [Point(0, 4), Point(1, 4), Point(2, 4)]) &&
               numbers[5] == Part(Number(58), [Point(7, 5), Point(8, 5)]) &&
               numbers[6] == Part(Number(592), [Point(2, 6), Point(3, 6), Point(4, 6)]) &&
               numbers[7] == Part(Number(755), [Point(6, 7), Point(7, 7), Point(8, 7)]) &&
               numbers[8] == Part(Number(664), [Point(1, 9), Point(2, 9), Point(3, 9)]) &&
               numbers[9] == Part(Number(598), [Point(5, 9), Point(6, 9), Point(7, 9)])
    requires Gears(parts[15..], numbers) == []
    ensures Gears(parts[14..], numbers) == []
  {
    GearsAdvance(numbers, parts, 14, [], []);
  }

  lemma SampleGearsAt13(parts: seq<Part>, numbers: seq<Part>)
    requires 13 < |parts| && parts[13] == Part(Symbol('*'), [Point(5, 8)])
    requires |numbers| == 10 &&
               numbers[0] == Part(Number(467), [Point(0, 0), Point(1, 0), Point(2, 0)]) &&
               numbers[1] == Part(Number(114), [Point(5, 0), Point(6, 0), Point(7, 0)]) &&
               numbers[2] == Part(Number(35), [Point(2, 2), Point(3, 2)]) &&
               numbers[3] == Part(Number(633), [Point(6, 2), Point(7, 2), Point(8, 2)]) &&
               numbers[4] == Part(Number(617), [Point(0, 4), Point(1, 4), Point(2, 4)]) &&
               numbers[5] == Part(Number(58), [Point(7, 5), Point(8, 5)]) &&
               numbers[6] == Part(Number(592), [Point(2, 6), Point(3, 6), Point(4, 6)]) &&
               numbers[7] == Part(Number(755), [Point(6, 7), Point(7, 7), Point(8, 7)]) &&
               numbers[8] == Part(Number(664), [Point(1, 9), Point(2, 9), Point(3, 9)]) &&
               numbers[9] == Part(Number(598), [Point(5, 9), Point(6, 9), Point(7, 9)])
    requires Gears(parts[14..], numbers) == []
    ensures Gears(parts[13..], numbers) == [Part(Symbol('*'), [Point(5, 8)])]
  {
    SampleAdjacent5_8(parts[13], numbers);
    GearsAdvance(numbers, parts, 13, [], [Part(Symbol('*'), [Point(5, 8)])]);
  }

  lemma SampleGearsAt12(parts: seq<Part>, numbers: seq<Part>)
    requires 12 < |parts| && parts[12] == Part(Symbol('$'), [Point(3, 8)])
    requires |numbers| == 10 &&
               numbers[0] == Part(Number(467), [Point(0, 0), Point(1, 0), Point(2, 0)]) &&
               numbers[1] == Part(Number(114), [Point(5, 0), Point(6, 0), Point(7, 0)]) &&
               numbers[2] == Part(Number(35), [Point(2, 2), Point(3, 2)]) &&
               numbers[3] == Part(Number(633), [Point(6, 2), Point(7, 2), Point(8, 2)]) &&
               numbers[4] == Part(Number(617), [Point(0, 4), Point(1, 4), Point(2, 4)]) &&
               numbers[5] == Part(Number(58), [Point(7, 5), Point(8, 5)]) &&
               numbers[6] == Part(Number(592), [Point(2, 6), Point(3, 6), Point(4, 6)]) &&
               numbers[7] == Part(Number(755), [Point(6, 7), Point(7, 7), Point(8, 7)]) &&
               numbers[8] == Part(Number(664), [Point(1, 9), Point(2, 9), Point(3, 9)]) &&
               numbers[9] == Part(Number(598), [Point(5, 9), Point(6, 9), Point(7, 9)])
    requires Gears(parts[13..], numbers) == [Part(Symbol('*'), [Point(5, 8)])]
    ensures Gears(parts[12..], numbers) == [Part(Symbol('*'), [Point(5, 8)])]
  {
    GearsAdvance(numbers, parts, 12, [Part(Symbol('*'), [Point(5, 8)])], [Part(Symbol('*'), [Point(5, 8)])]);
  }

  lemma SampleGearsAt11(parts: seq<Part>, numbers: seq<Part>)
    requires 11 < |parts| && parts[11] == Part(Number(755), [Point(6, 7), Point(7, 7), Point(8, 7)])
    requires |numbers| == 10 &&
               numbers[0] == Part(Number(467), [Point(0, 0), Point(1, 0), Point(2, 0)]) &&
               numbers[1] == Part(Number(114), [Point(5, 0), Point(6, 0), Point(7, 0)]) &&
               numbers[2] == Part(Number(35), [Point(2, 2), Point(3, 2)]) &&
               numbers[3] == Part(Number(633), [Point(6, 2), Point(7, 2), Point(8, 2)]) &&
               numbers[4] == Part(Number(617), [Point(0, 4), Point(1, 4), Point(2, 4)]) &&
               numbers[5] == Part(Number(58), [Point(7, 5), Point(8, 5)]) &&
               numbers[6] == Part(Number(592), [Point(2, 6), Point(3, 6), Point(4, 6)]) &&
               numbers[7] == Part(Number(755), [Point(6, 7), Point(7, 7), Point(8, 7)]) &&
               numbers[8] == Part(Number(664), [Point(1, 9), Point(2, 9), Point(3, 9)]) &&
               numbers[9] == Part(Number(598), [Point(5, 9), Point(6, 9), Point(7, 9)])
    requires Gears(parts[12..], numbers) == [Part(Symbol('*'), [Point(5, 8)])]
    ensures Gears(parts[11..], numbers) == [Part(Symbol('*'), [Point(5, 8)])]
  {
    GearsAdvance(numbers, parts, 11, [Part(Symbol('*'), [Point(5, 8)])], [Part(Symbol('*'), [Point(5, 8)])]);
  }

  lemma SampleGearsAt10(parts: seq<Part>, numbers: seq<Part>)
    requires 10 < |parts| && parts[10] == Part(Number(592), [Point(2, 6), Point(3, 6), Point(4, 6)])
    requires |numbers| == 10 &&
               numbers[0] == Part(Number(467), [Point(0, 0), Point(1, 0), Point(2, 0)]) &&
               numbers[1] == Part(Number(114), [Point(5, 0), Point(6, 0), Point(7, 0)]) &&
               numbers[2] == Part(Number(35), [Point(2, 2), Point(3, 2)]) &&
               numbers[3] == Part(Number(633), [Point(6, 2), Point(7, 2), Point(8, 2)]) &&
               numbers[4] == Part(Number(617), [Point(0, 4), Point(1, 4), Point(2, 4)]) &&
               numbers[5] == Part(Number(58), [Point(7, 5), Point(8, 5)]) &&
               numbers[6] == Part(Number(592), [Point(2, 6), Point(3, 6), Point(4, 6)]) &&
               numbers[7] == Part(Number(755), [Point(6, 7), Point(7, 7), Point(8, 7)]) &&
               numbers[8] == Part(Number(664), [Point(1, 9), Point(2, 9), Point(3, 9)]) &&
               numbers[9] == Part(Number(598), [Point(5, 9), Point(6, 9), Point(7, 9)])
    requires Gears(parts[11..], numbers) == [Part(Symbol('*'), [Point(5, 8)])]
    ensures Gears(parts[10..], numbers) == [Part(Symbol('*'), [Point(5, 8)])]
  {
    GearsAdvance(numbers, parts, 10, [Part(Symbol('*'), [Point(5, 8)])], [Part(Symbol('*'), [Point(5, 8)])]);
  }

  lemma SampleGearsAt9(parts: seq<Part>, numbers: seq<Part>)
    requires 9 < |parts| && parts[9] == Part(Number(58), [Point(7, 5), Point(8, 5)])
    requires |numbers| == 10 &&
               numbers[0] == Part(Number(467), [Point(0, 0), Point(1, 0), Point(2, 0)]) &&
               numbers[1] == Part(Number(114), [Point(5, 0), Point(6, 0), Point(7, 0)]) &&
               numbers[2] == Part(Number(35), [Point(2, 2), Point(3, 2)]) &&
               numbers[3] == Part(Number(633), [Point(6, 2), Point(7, 2), Point(8, 2)]) &&
               numbers[4] == Part(Number(617), [Point(0, 4), Point(1, 4), Point(2, 4)]) &&
               numbers[5] == Part(Number(58), [Point(7, 5), Point(8, 5)]) &&
               numbers[6] == Part(Number(592), [Point(2, 6), Point(3, 6), Point(4, 6)]) &&
               numbers[7] == Part(Number(755), [Point(6, 7), Point(7, 7), Point(8, 7)]) &&
               numbers[8] == Part(Number(664), [Point(1, 9), Point(2, 9), Point(3, 9)]) &&
               numbers[9] == Part(Number(598), [Point(5, 9), Point(6, 9), Point(7, 9)])
    requires Gears(parts[10..], numbers) == [Part(Symbol('*'), [Point(5, 8)])]
    ensures Gears(parts[9..], numbers) == [Part(Symbol('*'), [Point(5, 8)])]
  {
    GearsAdvance(numbers, parts, 9, [Part(Symbol('*'), [Point(5, 8)])], [Part(Symbol('*'), [Point(5, 8)])]);
  }

  lemma SampleGearsAt8(parts: seq<Part>, numbers: seq<Part>)
    requires 8 < |parts| && parts[8] == Part(Symbol('+'), [Point(5, 5)])
    requires |numbers| == 10 &&
               numbers[0] == Part(Number(467), [Point(0, 0), Point(1, 0), Point(2, 0)]) &&
               numbers[1] == Part(Number(114), [Point(5, 0), Point(6, 0), Point(7, 0)]) &&
               numbers[2] == Part(Number(35), [Point(2, 2), Point(3, 2)]) &&
               numbers[3] == Part(Number(633), [Point(6, 2), Point(7, 2), Point(8, 2)]) &&
               numbers[4] == Part(Number(617), [Point(0, 4), Point(1, 4), Point(2, 4)]) &&
               numbers[5] == Part(Number(58), [Point(7, 5), Point(8, 5)]) &&
               numbers[6] == Part(Number(592), [Point(2, 6), Point(3, 6), Point(4, 6)]) &&
               numbers[7] == Part(Number(755), [Point(6, 7), Point(7, 7), Point(8, 7)]) &&
               numbers[8] == Part(Number(664), [Point(1, 9), Point(2, 9), Point(3, 9)]) &&
               numbers[9] == Part(Number(598), [Point(5, 9), Point(6, 9), Point(7, 9)])
    requires Gears(parts[9..], numbers) == [Part(Symbol('*'), [Point(5, 8)])]
    ensures Gears(parts[8..], numbers) == [Part(Symbol('*'), [Point(5, 8)])]
  {
    GearsAdvance(numbers, parts, 8, [Part(Symbol('*'), [Point(5, 8)])], [Part(Symbol('*'), [Point(5, 8)])]);
  }

  lemma SampleGearsAt7(parts: seq<Part>, numbers: seq<Part>)
    requires 7 < |parts| && parts[7] == Part(Symbol('*'), [Point(3, 4)])
    requires |numbers| == 10 &&
               numbers[0] == Part(Number(467), [Point(0, 0), Point(1, 0), Point(2, 0)]) &&
               numbers[1] == Part(Number(114), [Point(5, 0), Point(6, 0), Point(7, 0)]) &&
               numbers[2] == Part(Number(35), [Point(2, 2), Point(3, 2)]) &&
               numbers[3] == Part(Number(633), [Point(6, 2), Point(7, 2), Point(8, 2)]) &&
               numbers[4] == Part(Number(617), [Point(0, 4), Point(1, 4), Point(2, 4)]) &&
               numbers[5] == Part(Number(58), [Point(7, 5), Point(8, 5)]) &&
               numbers[6] == Part(Number(592), [Point(2, 6), Point(3, 6), Point(4, 6)]) &&
               numbers[7] == Part(Number(755), [Point(6, 7), Point(7, 7), Point(8, 7)]) &&
               numbers[8] == Part(Number(664), [Point(1, 9), Point(2, 9), Point(3, 9)]) &&
               numbers[9] == Part(Number(598), [Point(5, 9), Point(6, 9), Point(7, 9)])
    requires Gears(parts[8..], numbers) == [Part(Symbol('*'), [Point(5, 8)])]
    ensures Gears(parts[7..], numbers) == [Part(Symbol('*'), [Point(5, 8)])]
  {
    SampleAdjacent3_4(parts[7], numbers);
    GearsAdvance(numbers, parts, 7, [Part(Symbol('*'), [Point(5, 8)])], [Part(Symbol('*'), [Point(5, 8)])]);
  }

  lemma SampleGearsAt6(parts: seq<Part>, numbers: seq<Part>)
    requires 6 < |parts| && parts[6] == Part(Number(617), [Point(0, 4), Point(1, 4), Point(2, 4)])
    requires |numbers| == 10 &&
               numbers[0] == Part(Number(467), [Point(0, 0), Point(1, 0), Point(2, 0)]) &&
               numbers[1] == Part(Number(114), [Point(5, 0), Point(6, 0), Point(7, 0)]) &&
               numbers[2] == Part(Number(35), [Point(2, 2), Point(3, 2)]) &&
               numbers[3] == Part(Number(633), [Point(6, 2), Point(7, 2), Point(8, 2)]) &&
               numbers[4] == Part(Number(617), [Point(0, 4), Point(1, 4), Point(2, 4)]) &&
               numbers[5] == Part(Number(58), [Point(7, 5), Point(8, 5)]) &&
               numbers[6] == Part(Number(592), [Point(2, 6), Point(3, 6), Point(4, 6)]) &&
               numbers[7] == Part(Number(755), [Point(6, 7), Point(7, 7), Point(8, 7)]) &&
               numbers[8] == Part(Number(664), [Point(1, 9), Point(2, 9), Point(3, 9)]) &&
               numbers[9] == Part(Number(598), [Point(5, 9), Point(6, 9), Point(7, 9)])
    requires Gears(parts[7..], numbers) == [Part(Symbol('*'), [Point(5, 8)])]
    ensures Gears(parts[6..], numbers) == [Part(Symbol('*'), [Point(5, 8)])]
  {
    GearsAdvance(numbers, parts, 6, [Part(Symbol('*'), [Point(5, 8)])], [Part(Symbol('*'), [Point(5, 8)])]);
  }

  lemma SampleGearsAt5(parts: seq<Part>, numbers: seq<Part>)
    requires 5 < |parts| && parts[5] == Part(Symbol('#'), [Point(6, 3)])
    requires |numbers| == 10 &&
               numbers[0] == Part(Number(467), [Point(0, 0), Point(1, 0), Point(2, 0)]) &&
               numbers[1] == Part(Number(114), [Point(5, 0), Point(6, 0), Point(7, 0)]) &&
               numbers[2] == Part(Number(35), [Point(2, 2), Point(3, 2)]) &&
               numbers[3] == Part(Number(633), [Point(6, 2), Point(7, 2), Point(8, 2)]) &&
               numbers[4] == Part(Number(617), [Point(0, 4), Point(1, 4), Point(2, 4)]) &&
               numbers[5] == Part(Number(58), [Point(7, 5), Point(8, 5)]) &&
               numbers[6] == Part(Number(592), [Point(2, 6), Point(3, 6), Point(4, 6)]) &&
               numbers[7] == Part(Number(755), [Point(6, 7), Point(7, 7), Point(8, 7)]) &&
               numbers[8] == Part(Number(664), [Point(1, 9), Point(2, 9), Point(3, 9)]) &&
               numbers[9] == Part(Number(598), [Point(5, 9), Point(6, 9), Point(7, 9)])
    requires Gears(parts[6..], numbers) == [Part(Symbol('*'), [Point(5, 8)])]
    ensures Gears(parts[5..], numbers) == [Part(Symbol('*'), [Point(5, 8)])]
  {
    GearsAdvance(numbers, parts, 5, [Part(Symbol('*'), [Point(5, 8)])], [Part(Symbol('*'), [Point(5, 8)])]);
  }

  lemma SampleGearsAt4(parts: seq<Part>, numbers: seq<Part>)
    requires 4 < |parts| && parts[4] == Part(Number(633), [Point(6, 2), Point(7, 2), Point(8, 2)])
    requires |numbers| == 10 &&
               numbers[0] == Part(Number(467), [Point(0, 0), Point(1, 0), Point(2, 0)]) &&
               numbers[1] == Part(Number(114), [Point(5, 0), Point(6, 0), Point(7, 0)]) &&
               numbers[2] == Part(Number(35), [Point(2, 2), Point(3, 2)]) &&
               numbers[3] == Part(Number(633), [Point(6, 2), Point(7, 2), Point(8, 2)]) &&
               numbers[4] == Part(Number(617), [Point(0, 4), Point(1, 4), Point(2, 4)]) &&
               numbers[5] == Part(Number(58), [Point(7, 5), Point(8, 5)]) &&
               numbers[6] == Part(Number(592), [Point(2, 6), Point(3, 6), Point(4, 6)]) &&
               numbers[7] == Part(Number(755), [Point(6, 7), Point(7, 7), Point(8, 7)]) &&
               numbers[8] == Part(Number(664), [Point(1, 9), Point(2, 9), Point(3, 9)]) &&
               numbers[9] == Part(Number(598), [Point(5, 9), Point(6, 9), Point(7, 9)])
    requires Gears(parts[5..], numbers) == [Part(Symbol('*'), [Point(5, 8)])]
    ensures Gears(parts[4..], numbers) == [Part(Symbol('*'), [Point(5, 8)])]
  {
    GearsAdvance(numbers, parts, 4, [Part(Symbol('*'), [Point(5, 8)])], [Part(Symbol('*'), [Point(5, 8)])]);
  }

  lemma SampleGearsAt3(parts: seq<Part>, numbers: seq<Part>)
    requires 3 < |parts| && parts[3] == Part(Number(35), [Point(2, 2), Point(3, 2)])
    requires |numbers| == 10 &&
               numbers[0] == Part(Number(467), [Point(0, 0), Point(1, 0), Point(2, 0)]) &&
               numbers[1] == Part(Number(114), [Point(5, 0), Point(6, 0), Point(7, 0)]) &&
               numbers[2] == Part(Number(35), [Point(2, 2), Point(3, 2)]) &&
               numbers[3] == Part(Number(633), [Point(6, 2), Point(7, 2), Point(8, 2)]) &&
               numbers[4] == Part(Number(617), [Point(0, 4), Point(1, 4), Point(2, 4)]) &&
               numbers[5] == Part(Number(58), [Point(7, 5), Point(8, 5)]) &&
               numbers[6] == Part(Number(592), [Point(2, 6), Point(3, 6), Point(4, 6)]) &&
               numbers[7] == Part(Number(755), [Point(6, 7), Point(7, 7), Point(8, 7)]) &&
               numbers[8] == Part(Number(664), [Point(1, 9), Point(2, 9), Point(3, 9)]) &&
               numbers[9] == Part(Number(598), [Point(5, 9), Point(6, 9), Point(7, 9)])
    requires Gears(parts[4..], numbers) == [Part(Symbol('*'), [Point(5, 8)])]
    ensures Gears(parts[3..], numbers) == [Part(Symbol('*'), [Point(5, 8)])]
  {
    GearsAdvance(numbers, parts, 3, [Part(Symbol('*'), [Point(5, 8)])], [Part(Symbol('*'), [Point(5, 8)])]);
  }

  lemma SampleGearsAt2(parts: seq<Part>, numbers: seq<Part>)
    requires 2 < |parts| && parts[2] == Part(Symbol('*'), [Point(3, 1)])
    requires |numbers| == 10 &&
               numbers[0] == Part(Number(467), [Point(0, 0), Point(1, 0), Point(2, 0)]) &&
               numbers[1] == Part(Number(114), [Point(5, 0), Point(6, 0), Point(7, 0)]) &&
               numbers[2] == Part(Number(35), [Point(2, 2), Point(3, 2)]) &&
               numbers[3] == Part(Number(633), [Point(6, 2), Point(7, 2), Point(8, 2)]) &&
               numbers[4] == Part(Number(617), [Point(0, 4), Point(1, 4), Point(2, 4)]) &&
               numbers[5] == Part(Number(58), [Point(7, 5), Point(8, 5)]) &&
               numbers[6] == Part(Number(592), [Point(2, 6), Point(3, 6), Point(4, 6)]) &&
               numbers[7] == Part(Number(755), [Point(6, 7), Point(7, 7), Point(8, 7)]) &&
               numbers[8] == Part(Number(664), [Point(1, 9), Point(2, 9), Point(3, 9)]) &&
               numbers[9] == Part(Number(598), [Point(5, 9), Point(6, 9), Point(7, 9)])
    requires Gears(parts[3..], numbers) == [Part(Symbol('*'), [Point(5, 8)])]
    ensures Gears(parts[2..], numbers) == [Part(Symbol('*'), [Point(3, 1)]), Part(Symbol('*'), [Point(5, 8)])]
  {
    SampleAdjacent3_1(parts[2], numbers);
    GearsAdvance(numbers, parts, 2, [Part(Symbol('*'), [Point(5, 8)])], [Part(Symbol('*'), [Point(3, 1)]), Part(Symbol('*'), [Point(5, 8)])]);
  }

  lemma SampleGearsAt1(parts: seq<Part>, numbers: seq<Part>)
    requires 1 < |parts| && parts[1] == Part(Number(114), [Point(5, 0), Point(6, 0), Point(7, 0)])
    requires |numbers| == 10 &&
               numbers[0] == Part(Number(467), [Point(0, 0), Point(1, 0), Point(2, 0)]) &&
               numbers[1] == Part(Number(114), [Point(5, 0), Point(6, 0), Point(7, 0)]) &&
               numbers[2] == Part(Number(35), [Point(2, 2), Point(3, 2)]) &&
               numbers[3] == Part(Number(633), [Point(6, 2), Point(7, 2), Point(8, 2)]) &&
               numbers[4] == Part(Number(617), [Point(0, 4), Point(1, 4), Point(2, 4)]) &&
               numbers[5] == Part(Number(58), [Point(7, 5), Point(8, 5)]) &&
               numbers[6] == Part(Number(592), [Point(2, 6), Point(3, 6), Point(4, 6)]) &&
               numbers[7] == Part(Number(755), [Point(6, 7), Point(7, 7), Point(8, 7)]) &&
               numbers[8] == Part(Number(664), [Point(1, 9), Point(2, 9), Point(3, 9)]) &&
               numbers[9] == Part(Number(598), [Point(5, 9), Point(6, 9), Point(7, 9)])
    requires Gears(parts[2..], numbers) == [Part(Symbol('*'), [Point(3, 1)]), Part(Symbol('*'), [Point(5, 8)])]
    ensures Gears(parts[1..], numbers) == [Part(Symbol('*'), [Point(3, 1)]), Part(Symbol('*'), [Point(5, 8)])]
  {
    GearsAdvance(numbers, parts, 1, [Part(Symbol('*'), [Point(3, 1)]), Part(Symbol('*'), [Point(5, 8)])], [Part(Symbol('*'), [Point(3, 1)]), Part(Symbol('*'), [Point(5, 8)])]);
  }

  lemma SampleGearsAt0(parts: seq<Part>, numbers: seq<Part>)
    requires 0 < |parts| && parts[0] == Part(Number(467), [Point(0, 0), Point(1, 0), Point(2, 0)])
    requires |numbers| == 10 &&
               numbers[0] == Part(Number(467), [Point(0, 0), Point(1, 0), Point(2, 0)]) &&
               numbers[1] == Part(Number(114), [Point(5, 0), Point(6, 0), Point(7, 0)]) &&
               numbers[2] == Part(Number(35), [Point(2, 2), Point(3, 2)]) &&
               numbers[3] == Part(Number(633), [Point(6, 2), Point(7, 2), Point(8, 2)]) &&
               numbers[4] == Part(Number(617), [Point(0, 4), Point(1, 4), Point(2, 4)]) &&
               numbers[5] == Part(Number(58), [Point(7, 5), Point(8, 5)]) &&
               numbers[6] == Part(Number(592), [Point(2, 6), Point(3, 6), Point(4, 6)]) &&
               numbers[7] == Part(Number(755), [Point(6, 7), Point(7, 7), Point(8, 7)]) &&
               numbers[8] == Part(Number(664), [Point(1, 9), Point(2, 9), Point(3, 9)]) &&
               numbers[9] == Part(Number(598), [Point(5, 9), Point(6, 9), Point(7, 9)])
    requires Gears(parts[1..], numbers) == [Part(Symbol('*'), [Point(3, 1)]), Part(Symbol('*'), [Point(5, 8)])]
    ensures Gears(parts[0..], numbers) == [Part(Symbol('*'), [Point(3, 1)]), Part(Symbol('*'), [Point(5, 8)])]
  {
    GearsAdvance(numbers, parts, 0, [Part(Symbol('*'), [Point(3, 1)]), Part(Symbol('*'), [Point(5, 8)])], [Part(Symbol('*'), [Point(3, 1)]), Part(Symbol('*'), [Point(5, 8)])]);
  }

  /** The sample's gears: the '*' on (3, 1) and the one on (5, 8); the '*' on (3, 4) touches only 617. */
  lemma SampleGears(parts: seq<Part>, numbers: seq<Part>)
    requires |parts| == 16 &&
             parts[0] == Part(Number(467), [Point(0, 0), Point(1, 0), Point(2, 0)]) &&
             parts[1] == Part(Number(114), [Point(5, 0), Point(6, 0), Point(7, 0)]) &&
             parts[2] == Part(Symbol('*'), [Point(3, 1)]) &&
             parts[3] == Part(Number(35), [Point(2, 2), Point(3, 2)]) &&
             parts[4] == Part(Number(633), [Point(6, 2), Point(7, 2), Point(8, 2)]) &&
             parts[5] == Part(Symbol('#'), [Point(6, 3)]) &&
             parts[6] == Part(Number(617), [Point(0, 4), Point(1, 4), Point(2, 4)]) &&
             parts[7] == Part(Symbol('*'), [Point(3, 4)]) &&
             parts[8] == Part(Symbol('+'), [Point(5, 5)]) &&
             parts[9] == Part(Number(58), [Point(7, 5), Point(8, 5)]) &&
             parts[10] == Part(Number(592), [Point(2, 6), Point(3, 6), Point(4, 6)]) &&
             parts[11] == Part(Number(755), [Point(6, 7), Point(7, 7), Point(8, 7)]) &&
             parts[12] == Part(Symbol('$'), [Point(3, 8)]) &&
             parts[13] == Part(Symbol('*'), [Point(5, 8)]) &&
             parts[14] == Part(Number(664), [Point(1, 9), Point(2, 9), Point(3, 9)]) &&
             parts[15] == Part(Number(598), [Point(5, 9), Point(6, 9), Point(7, 9)])
    requires |numbers| == 10 &&
               numbers[0] == Part(Number(467), [Point(0, 0), Point(1, 0), Point(2, 0)]) &&
               numbers[1] == Part(Number(114), [Point(5, 0), Point(6, 0), Point(7, 0)]) &&
               numbers[2] == Part(Number(35), [Point(2, 2), Point(3, 2)]) &&
               numbers[3] == Part(Number(633), [Point(6, 2), Point(7, 2), Point(8, 2)]) &&
               numbers[4] == Part(Number(617), [Point(0, 4), Point(1, 4), Point(2, 4)]) &&
               numbers[5] == Part(Number(58), [Point(7, 5), Point(8, 5)]) &&
               numbers[6] == Part(Number(592), [Point(2, 6), Point(3, 6), Point(4, 6)]) &&
               numbers[7] == Part(Number(755), [Point(6, 7), Point(7, 7), Point(8, 7)]) &&
               numbers[8] == Part(Number(664), [Point(1, 9), Point(2, 9), Point(3, 9)]) &&
               numbers[9] == Part(Number(598), [Point(5, 9), Point(6, 9), Point(7, 9)])
    ensures |Gears(parts, numbers)| == 2 &&
            Gears(parts, numbers)[0] == Part(Symbol('*'), [Point(3, 1)]) &&
            Gears(parts, numbers)[1] == Part(Symbol('*'), [Point(5, 8)])
  {
    assert parts[16..] == [];
    SampleGearsAt15(parts, numbers);
    SampleGearsAt14(parts, numbers);
    SampleGearsAt13(parts, numbers);
    SampleGearsAt12(parts, numbers);
    SampleGearsAt11(parts, numbers);
    SampleGearsAt10(parts, numbers);
    SampleGearsAt9(parts, numbers);
    SampleGearsAt8(parts, numbers);
    SampleGearsAt7(parts, numbers);
    SampleGearsAt6(parts, numbers);
    SampleGearsAt5(parts, numbers);
    SampleGearsAt4(parts, numbers);
    SampleGearsAt3(parts, numbers);
    SampleGearsAt2(parts, numbers);
    SampleGearsAt1(parts, numbers);
    SampleGearsAt0(parts, numbers);
    assert parts[0..] == parts;
  }

  lemma SampleRatiosAt1(gears: seq<Part>, numbers: seq<Part>)
    requires 1 < |gears| && gears[1] == Part(Symbol('*'), [Point(5, 8)])
    requires |numbers| == 10 &&
               numbers[0] == Part(Number(467), [Point(0, 0), Point(1, 0), Point(2, 0)]) &&
               numbers[1] == Part(Number(114), [Point(5, 0), Point(6, 0), Point(7, 0)]) &&
               numbers[2] == Part(Number(35), [Point(2, 2), Point(3, 2)]) &&
               numbers[3] == Part(Number(633), [Point(6, 2), Point(7, 2), Point(8, 2)]) &&
               numbers[4] == Part(Number(617), [Point(0, 4), Point(1, 4), Point(2, 4)]) &&
               numbers[5] == Part(Number(58), [Point(7, 5), Point(8, 5)]) &&
               numbers[6] == Part(Number(592), [Point(2, 6), Point(3, 6), Point(4, 6)]) &&
               numbers[7] == Part(Number(755), [Point(6, 7), Point(7, 7), Point(8, 7)]) &&
               numbers[8] == Part(Number(664), [Point(1, 9), Point(2, 9), Point(3, 9)]) &&
               numbers[9] == Part(Number(598), [Point(5, 9), Point(6, 9), Point(7, 9)])
    requires SumRatios(gears[2..], numbers) == 0
    ensures SumRatios(gears[1..], numbers) == 451490
  {
    SampleAdjacent5_8(gears[1], numbers);
    SumRatiosAdvance(numbers, gears, 1, 0, 451490);
  }

  lemma SampleRatiosAt0(gears: seq<Part>, numbers: seq<Part>)
    requires 0 < |gears| && gears[0] == Part(Symbol('*'), [Point(3, 1)])
    requires |numbers| == 10 &&
               numbers[0] == Part(Number(467), [Point(0, 0), Point(1, 0), Point(2, 0)]) &&
               numbers[1] == Part(Number(114), [Point(5, 0), Point(6, 0), Point(7, 0)]) &&
               numbers[2] == Part(Number(35), [Point(2, 2), Point(3, 2)]) &&
               numbers[3] == Part(Number(633), [Point(6, 2), Point(7, 2), Point(8, 2)]) &&
               numbers[4] == Part(Number(617), [Point(0, 4), Point(1, 4), Point(2, 4)]) &&
               numbers[5] == Part(Number(58), [Point(7, 5), Point(8, 5)]) &&
               numbers[6] == Part(Number(592), [Point(2, 6), Point(3, 6), Point(4, 6)]) &&
               numbers[7] == Part(Number(755), [Point(6, 7), Point(7, 7), Point(8, 7)]) &&
               numbers[8] == Part(Number(664), [Point(1, 9), Point(2, 9), Point(3, 9)]) &&
               numbers[9] == Part(Number(598), [Point(5, 9), Point(6, 9), Point(7, 9)])
    requires SumRatios(gears[1..], numbers) == 451490
    ensures SumRatios(gears[0..], numbers) == 467835
  {
    SampleAdjacent3_1(gears[0], numbers);
    SumRatiosAdvance(numbers, gears, 0, 451490, 467835);
  }

  /** The ratios of the sample's gears: 467 * 35 + 755 * 598. */
  lemma SampleRatios(gears: seq<Part>, numbers: seq<Part>)
    requires |gears| == 2 &&
             gears[0] == Part(Symbol('*'), [Point(3, 1)]) &&
             gears[1] == Part(Symbol('*'), [Point(5, 8)])
    requires |numbers| == 10 &&
               numbers[0] == Part(Number(467), [Point(0, 0), Point(1, 0), Point(2, 0)]) &&
               numbers[1] == Part(Number(114), [Point(5, 0), Point(6, 0), Point(7, 0)]) &&
               numbers[2] == Part(Number(35), [Point(2, 2), Point(3, 2)]) &&
               numbers[3] == Part(Number(633), [Point(6, 2), Point(7, 2), Point(8, 2)]) &&
               numbers[4] == Part(Number(617), [Point(0, 4), Point(1, 4), Point(2, 4)]) &&
               numbers[5] == Part(Number(58), [Point(7, 5), Point(8, 5)]) &&
               numbers[6] == Part(Number(592), [Point(2, 6), Point(3, 6), Point(4, 6)]) &&
               numbers[7] == Part(Number(755), [Point(6, 7), Point(7, 7), Point(8, 7)]) &&
               numbers[8] == Part(Number(664), [Point(1, 9), Point(2, 9), Point(3, 9)]) &&
               numbers[9] == Part(Number(598), [Point(5, 9), Point(6, 9), Point(7, 9)])
    ensures SumRatios(gears, numbers) == 467835
  {
    assert gears[2..] == [];
    SampleRatiosAt1(gears, numbers);
    SampleRatiosAt0(gears, numbers);
    assert gears[0..] == gears;
  }

  /** The Part 2 test `sample`: the answer is 467835. */
  lemma SamplePart2(lines: seq<string>)
    requires |lines| == 10 &&
             lines[0] == "467..114.." &&
             lines[1] == "...*......" &&
             lines[2] == "..35..633." &&
             lines[3] == "......#..." &&
             lines[4] == "617*......" &&
             lines[5] == ".....+.58." &&
             lines[6] == "..592....." &&
             lines[7] == "......755." &&
             lines[8] == "...$.*...." &&
             lines[9] == ".664.598.."
    ensures SumOfGearRatios(lines) == 467835
  {
    SampleScan(lines);
    var parts := Scan(lines);
    SampleNumbers(parts);
    var numbers := NumberParts(parts);
    SampleGears(parts, numbers);
    SampleRatios(Gears(parts, numbers), numbers);
  }
}
