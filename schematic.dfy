/**
 * Day 3: an engine schematic. `parse_input` scans the character grid row by
 * row and builds a list of parts: a run of digits becomes a number part, any
 * other character except '.' becomes a one-point symbol part. Part 1 sums the
 * numbers next to some symbol; Part 2 sums the products of the two numbers
 * next to each '*' that touches exactly two numbers.
 */
module Schematic {
  import Text

  /** A cell of the grid: column `x`, row `y`. */
  datatype Point = Point(x: nat, y: nat) {

    /** `Point::is_neighbour`: the Chebyshev distance is at most 1, so a
        point is its own neighbour and diagonal cells count. */
    predicate IsNeighbour(other: Point)
      ensures IsNeighbour(other) <==>
                x <= other.x + 1 && other.x <= x + 1 && y <= other.y + 1 && other.y <= y + 1
    {
      var dx := x as int - other.x as int;
      var dy := y as int - other.y as int;
      (if dx < 0 then -dx else dx) <= 1 && (if dy < 0 then -dy else dy) <= 1
    }

    /** `Point::is_neighbour_of_any`: `others.iter().any(..)`, so it holds
        exactly when some element is a neighbour. */
    predicate IsNeighbourOfAny(others: seq<Point>)
      ensures IsNeighbourOfAny(others) <==> exists j :: 0 <= j < |others| && IsNeighbour(others[j])
    {
      assert forall j :: 1 <= j < |others| ==> others[j] == others[1..][j - 1];
      others != [] && (IsNeighbour(others[0]) || IsNeighbourOfAny(others[1..]))
    }
  }

  /** The origin, `<&Point>::default()`. */
  function Origin(): Point {
    Point(0, 0)
  }

  /** `PartNumber`: `None` is the default. */
  datatype PartNumber = Number(n: nat) | Symbol(c: char) | None

  datatype Part = Part(number: PartNumber, points: seq<Point>)

  /** The empty part, `<&Part>::default()`. */
  function EmptyPart(): Part {
    Part(None, [])
  }

  lemma NeighbourSymmetric(p: Point, q: Point)
    ensures p.IsNeighbour(q) == q.IsNeighbour(p)
  {
  }

  lemma NeighbourReflexive(p: Point)
    ensures p.IsNeighbour(p)
  {
  }

  /** The unit tests: (0,0) touches (1,1) but not (2,2); so (0,0) touches some
      of [(1,1), (2,2)] and none of [(2,2), (3,3)]. */
  lemma NeighbourExamples()
    ensures Point(0, 0).IsNeighbour(Point(1, 1))
    ensures !Point(0, 0).IsNeighbour(Point(2, 2))
    ensures Point(0, 0).IsNeighbourOfAny([Point(1, 1), Point(2, 2)])
    ensures !Point(0, 0).IsNeighbourOfAny([Point(2, 2), Point(3, 3)])
  {
  }

  lemma NoNeighbourInEmpty(p: Point)
    ensures !p.IsNeighbourOfAny([])
  {
  }

  // ---------------------------------------------------------------------------
  // parse_input

  function LastPart(parts: seq<Part>): Part {
    if parts == [] then EmptyPart() else parts[|parts| - 1]
  }

  function LastPoint(points: seq<Point>): Point {
    if points == [] then Origin() else points[|points| - 1]
  }

  /** One character `c` at column `x` of row `y`: a digit extends the last part
      when that part is a number whose last point touches `(x, y)`, and starts a
      new number otherwise; '.' is skipped; anything else is a new symbol. */
  function Step(parts: seq<Part>, x: nat, y: nat, c: char): seq<Part> {
    var point := Point(x, y);
    if Text.IsDigit(c) then
      var last := LastPart(parts);
      if LastPoint(last.points).IsNeighbour(point) && last.number.Number? then
        parts[..|parts| - 1] + [Part(Number(last.number.n * 10 + Text.DigitValue(c)), last.points + [point])]
      else
        parts + [Part(Number(Text.DigitValue(c)), [point])]
    else if c != '.' then
      parts + [Part(Symbol(c), [point])]
    else
      parts
  }

  /** The parts after scanning `row` (row number `y`) from its left end. */
  function ScanRow(parts: seq<Part>, row: string, y: nat): seq<Part> {
    if row == [] then parts
    else Step(ScanRow(parts, row[..|row| - 1], y), |row| - 1, y, row[|row| - 1])
  }

  /** The specification of `parse_input`: every row scanned in order. The
      scan covers the grid: the points of the parts, read in order, are the
      non-'.' cells in row-major order. */
  function Scan(lines: seq<string>): (parts: seq<Part>)
    ensures Points(parts) == Cells(lines)
  {
    if lines == [] then []
    else
      var n := |lines| - 1;
      ScanRowPoints(Scan(lines[..n]), lines[n], n);
      ScanRow(Scan(lines[..n]), lines[n], n)
  }

  /** `parse_input`: nested loops over rows and characters that pop the last
      part and push it back extended, or push a new part. */
  method ParseInput(input: seq<string>) returns (parts: seq<Part>)
    ensures parts == Scan(input)
  {
    parts := [];
    assert input[..0] == [];
    for y := 0 to |input|
      invariant parts == Scan(input[..y])
    {
      var line := input[y];
      ghost var start := parts;
      assert line[..0] == [];
      for x := 0 to |line|
        invariant parts == ScanRow(start, line[..x], y)
      {
        var c := line[x];
        assert line[..x + 1][..x] == line[..x];
        if Text.IsDigit(c) {
          var number := Text.DigitValue(c);
          var lastPart := LastPart(parts);
          var points := lastPart.points;
          var point := Point(x, y);
          if LastPoint(points).IsNeighbour(point) && lastPart.number.Number? {
            lastPart := lastPart.(points := lastPart.points + [point]);
            var lastNumber := match lastPart.number
              case Number(n) => n
              case _ => 0;
            lastPart := lastPart.(number := Number(lastNumber * 10 + number));
            parts := parts[..|parts| - 1];
            parts := parts + [lastPart];
          } else {
            parts := parts + [Part(Number(number), [Point(x, y)])];
          }
        } else if c != '.' {
          parts := parts + [Part(Symbol(c), [Point(x, y)])];
        }
      }
      assert line[..|line|] == line;
      assert input[..y + 1][..y] == input[..y];
    }
    assert input[..|input|] == input;
  }

  // ---------------------------------------------------------------------------
  // Which cells the parts cover

  /** All points of all parts, part after part:
      `parts.iter().flat_map(|s| s.points.clone())`. */
  function Points(parts: seq<Part>): seq<Point> {
    if parts == [] then [] else Points(parts[..|parts| - 1]) + parts[|parts| - 1].points
  }

  lemma PointsSnoc(parts: seq<Part>, part: Part)
    ensures Points(parts + [part]) == Points(parts) + part.points
  {
    assert (parts + [part])[..|parts|] == parts;
  }

  /** A point is among `Points(parts)` exactly when some part has it. */
  lemma {:induction false} PointsMember(parts: seq<Part>, q: Point)
    ensures q in Points(parts) <==> exists i :: 0 <= i < |parts| && q in parts[i].points
  {
    if parts != [] {
      var n := |parts| - 1;
      PointsMember(parts[..n], q);
      assert forall i :: 0 <= i < n ==> parts[..n][i] == parts[i];
    }
  }

  /** The non-'.' cells of `row`, left to right. */
  function RowCells(row: string, y: nat): seq<Point> {
    if row == [] then []
    else RowCells(row[..|row| - 1], y) + if row[|row| - 1] != '.' then [Point(|row| - 1, y)] else []
  }

  /** The non-'.' cells of the grid in row-major order. */
  function Cells(lines: seq<string>): seq<Point> {
    if lines == [] then []
    else Cells(lines[..|lines| - 1]) + RowCells(lines[|lines| - 1], |lines| - 1)
  }

  /** A step adds the scanned point to the parts exactly when it is not '.'. */
  lemma StepPoints(parts: seq<Part>, x: nat, y: nat, c: char)
    ensures Points(Step(parts, x, y, c)) == Points(parts) + if c != '.' then [Point(x, y)] else []
  {
    var point := Point(x, y);
    if Text.IsDigit(c) {
      var last := LastPart(parts);
      if LastPoint(last.points).IsNeighbour(point) && last.number.Number? {
        var n := |parts| - 1;
        var front := parts[..n];
        assert parts == front + [last];
        PointsSnoc(front, last);
        PointsSnoc(front, Part(Number(last.number.n * 10 + Text.DigitValue(c)), last.points + [point]));
      } else {
        PointsSnoc(parts, Part(Number(Text.DigitValue(c)), [point]));
      }
    } else if c != '.' {
      PointsSnoc(parts, Part(Symbol(c), [point]));
    }
  }

  lemma {:induction false} ScanRowPoints(parts: seq<Part>, row: string, y: nat)
    ensures Points(ScanRow(parts, row, y)) == Points(parts) + RowCells(row, y)
  {
    if row != [] {
      var n := |row| - 1;
      ScanRowPoints(parts, row[..n], y);
      StepPoints(ScanRow(parts, row[..n], y), n, y, row[n]);
    }
  }

  predicate InGrid(lines: seq<string>, p: Point) {
    p.y < |lines| && p.x < |lines[p.y]|
  }

  function At(lines: seq<string>, p: Point): char
    requires InGrid(lines, p)
  {
    lines[p.y][p.x]
  }

  /** `p` precedes `q` in row-major order. */
  predicate Before(p: Point, q: Point) {
    p.y < q.y || (p.y == q.y && p.x < q.x)
  }

  /** The cells of a row are exactly its non-'.' positions, left to right. */
  lemma {:induction false} RowCellsSpec(row: string, y: nat)
    ensures forall p :: p in RowCells(row, y) <==> p.y == y && p.x < |row| && row[p.x] != '.'
    ensures forall i, j :: 0 <= i < j < |RowCells(row, y)| ==> RowCells(row, y)[i].x < RowCells(row, y)[j].x
  {
    if row != [] {
      var n := |row| - 1;
      RowCellsSpec(row[..n], y);
      assert forall k :: 0 <= k < n ==> row[..n][k] == row[k];
    }
  }

  /** The cells of the grid are exactly its non-'.' cells, each once, in
      row-major order. */
  lemma {:induction false} CellsSpec(lines: seq<string>)
    ensures forall p :: p in Cells(lines) <==> InGrid(lines, p) && At(lines, p) != '.'
    ensures forall i, j :: 0 <= i < j < |Cells(lines)| ==> Before(Cells(lines)[i], Cells(lines)[j])
  {
    if lines != [] {
      var n := |lines| - 1;
      var front := lines[..n];
      CellsSpec(front);
      RowCellsSpec(lines[n], n);
      assert forall k :: 0 <= k < n ==> front[k] == lines[k];
      var a, b := Cells(front), RowCells(lines[n], n);
      assert forall p :: p in a ==> p.y < n;
      assert forall i :: 0 <= i < |a| ==> a[i] in a;
      assert forall j :: 0 <= j < |b| ==> b[j] in b;
    }
  }

  // ---------------------------------------------------------------------------
  // What each part is

  /** The characters under `points`. */
  function CharsAt(lines: seq<string>, points: seq<Point>): string
    requires forall i :: 0 <= i < |points| ==> InGrid(lines, points[i])
  {
    if points == [] then []
    else CharsAt(lines, points[..|points| - 1]) + [At(lines, points[|points| - 1])]
  }

  lemma CharsAtSnoc(lines: seq<string>, points: seq<Point>, p: Point)
    requires forall i :: 0 <= i < |points| ==> InGrid(lines, points[i])
    requires InGrid(lines, p)
    ensures forall i :: 0 <= i < |points + [p]| ==> InGrid(lines, (points + [p])[i])
    ensures CharsAt(lines, points + [p]) == CharsAt(lines, points) + [At(lines, p)]
  {
    assert (points + [p])[..|points|] == points;
  }

  /** A part of the grid `lines`: it has a point; a symbol is a single cell
      holding that character, which is neither a digit nor '.'; a number's
      cells hold digits that read as its value, each cell touching the next. */
  predicate PartOk(lines: seq<string>, part: Part) {
    && |part.points| >= 1
    && (forall i :: 0 <= i < |part.points| ==> InGrid(lines, part.points[i]))
    && match part.number
       case Symbol(c) =>
         |part.points| == 1 && At(lines, part.points[0]) == c && c != '.' && !Text.IsDigit(c)
       case Number(n) =>
         && Text.AllDigits(CharsAt(lines, part.points))
         && n == Text.DecimalValue(CharsAt(lines, part.points))
         && (forall i :: 0 <= i < |part.points| - 1 ==> part.points[i].IsNeighbour(part.points[i + 1]))
       case None => false
  }

  predicate AllOk(lines: seq<string>, parts: seq<Part>) {
    forall i :: 0 <= i < |parts| ==> PartOk(lines, parts[i])
  }

  /** Appending a digit's point to a number part keeps it a number part. */
  lemma ExtendOk(lines: seq<string>, part: Part, p: Point)
    requires PartOk(lines, part) && part.number.Number?
    requires InGrid(lines, p) && Text.IsDigit(At(lines, p))
    requires LastPoint(part.points).IsNeighbour(p)
    ensures PartOk(lines, Part(Number(part.number.n * 10 + Text.DigitValue(At(lines, p))), part.points + [p]))
  {
    var pts := part.points;
    CharsAtSnoc(lines, pts, p);
    var s := CharsAt(lines, pts);
    var c := At(lines, p);
    assert (s + [c])[..|s|] == s;
    assert Text.DecimalValue(s + [c]) == Text.DecimalValue(s) * 10 + Text.DigitValue(c);
    var pts' := pts + [p];
    forall i | 0 <= i < |pts'| - 1 ensures pts'[i].IsNeighbour(pts'[i + 1]) {
      if i < |pts| - 1 {
        assert pts'[i] == pts[i] && pts'[i + 1] == pts[i + 1];
      }
    }
  }

  lemma AllOkSnoc(lines: seq<string>, parts: seq<Part>, part: Part)
    requires AllOk(lines, parts) && PartOk(lines, part)
    ensures AllOk(lines, parts + [part])
  {
    assert forall i :: 0 <= i < |parts| ==> (parts + [part])[i] == parts[i];
  }

  lemma AllOkReplaceLast(lines: seq<string>, parts: seq<Part>, part: Part)
    requires |parts| > 0 && AllOk(lines, parts) && PartOk(lines, part)
    ensures AllOk(lines, parts[..|parts| - 1] + [part])
  {
    var n := |parts| - 1;
    assert forall i :: 0 <= i < n ==> (parts[..n] + [part])[i] == parts[i];
  }

  /** A single digit is a number part of its own. */
  lemma DigitOk(lines: seq<string>, p: Point)
    requires InGrid(lines, p) && Text.IsDigit(At(lines, p))
    ensures PartOk(lines, Part(Number(Text.DigitValue(At(lines, p))), [p]))
  {
    var c := At(lines, p);
    CharsAtSnoc(lines, [], p);
    assert [] + [p] == [p];
    var s := CharsAt(lines, [p]);
    assert s == [c];
    assert s[..0] == [];
    assert Text.DecimalValue(s) == Text.DigitValue(c);
  }

  /** Extending the last part by a touching digit keeps every part a part of the grid. */
  lemma ExtendLastOk(lines: seq<string>, parts: seq<Part>, p: Point)
    requires AllOk(lines, parts) && InGrid(lines, p) && Text.IsDigit(At(lines, p))
    requires LastPoint(LastPart(parts).points).IsNeighbour(p) && LastPart(parts).number.Number?
    ensures var last := LastPart(parts);
            AllOk(lines, parts[..|parts| - 1] + [Part(Number(last.number.n * 10 + Text.DigitValue(At(lines, p))), last.points + [p])])
  {
    var last := LastPart(parts);
    assert PartOk(lines, parts[|parts| - 1]);
    ExtendOk(lines, last, p);
    AllOkReplaceLast(lines, parts, Part(Number(last.number.n * 10 + Text.DigitValue(At(lines, p))), last.points + [p]));
  }

  /** Each step keeps every part a part of the grid. */
  lemma StepOk(lines: seq<string>, parts: seq<Part>, p: Point)
    requires AllOk(lines, parts) && InGrid(lines, p)
    ensures AllOk(lines, Step(parts, p.x, p.y, At(lines, p)))
  {
    var c := At(lines, p);
    if Text.IsDigit(c) {
      var last := LastPart(parts);
      if LastPoint(last.points).IsNeighbour(p) && last.number.Number? {
        ExtendLastOk(lines, parts, p);
      } else {
        DigitOk(lines, p);
        AllOkSnoc(lines, parts, Part(Number(Text.DigitValue(c)), [p]));
      }
    } else if c != '.' {
      AllOkSnoc(lines, parts, Part(Symbol(c), [p]));
    }
  }

  lemma {:induction false} ScanRowOk(lines: seq<string>, parts: seq<Part>, y: nat, x: nat)
    requires AllOk(lines, parts)
    requires y < |lines| && x <= |lines[y]|
    ensures AllOk(lines, ScanRow(parts, lines[y][..x], y))
  {
    if x > 0 {
      var row := lines[y][..x];
      assert row[..x - 1] == lines[y][..x - 1];
      ScanRowOk(lines, parts, y, x - 1);
      StepOk(lines, ScanRow(parts, lines[y][..x - 1], y), Point(x - 1, y));
    }
  }

  lemma {:induction false} ScanOkPrefix(lines: seq<string>, k: nat)
    requires k <= |lines|
    ensures AllOk(lines, Scan(lines[..k]))
  {
    if k > 0 {
      var front := lines[..k];
      assert front[..k - 1] == lines[..k - 1];
      ScanOkPrefix(lines, k - 1);
      assert lines[k - 1][..|lines[k - 1]|] == lines[k - 1];
      ScanRowOk(lines, Scan(lines[..k - 1]), k - 1, |lines[k - 1]|);
    }
  }

  /** Every part `parse_input` produces is a symbol on its own cell or a
      number whose value is the digits under its points. */
  lemma ScanOk(lines: seq<string>)
    ensures AllOk(lines, Scan(lines))
  {
    ScanOkPrefix(lines, |lines|);
    assert lines[..|lines|] == lines;
  }

  // ---------------------------------------------------------------------------
  // Part 1

  /** `points.iter().any(|point| point.is_neighbour_of_any(others))`. */
  predicate Touches(points: seq<Point>, others: seq<Point>) {
    points != [] && (points[0].IsNeighbourOfAny(others) || Touches(points[1..], others))
  }

  lemma {:induction false} TouchesIff(points: seq<Point>, others: seq<Point>)
    ensures Touches(points, others) <==> exists i :: 0 <= i < |points| && points[i].IsNeighbourOfAny(others)
  {
    if points != [] {
      TouchesIff(points[1..], others);
      assert forall i :: 1 <= i < |points| ==> points[i] == points[1..][i - 1];
    }
  }

  /** Two lists of points touch exactly when some point of one neighbours
      some point of the other. */
  lemma TouchesPointwise(points: seq<Point>, others: seq<Point>)
    ensures Touches(points, others) <==>
              exists i, j :: 0 <= i < |points| && 0 <= j < |others| && points[i].IsNeighbour(others[j])
  {
    TouchesIff(points, others);
  }

  /** A neighbour of a concatenation is a neighbour of one of its halves. */
  lemma {:induction false} NeighbourOfAnyAppend(p: Point, a: seq<Point>, b: seq<Point>)
    ensures p.IsNeighbourOfAny(a + b) <==> p.IsNeighbourOfAny(a) || p.IsNeighbourOfAny(b)
  {
    if a != [] {
      assert (a + b)[1..] == a[1..] + b;
      NeighbourOfAnyAppend(p, a[1..], b);
    } else {
      assert a + b == b;
    }
  }

  /** Touching the flattened points of several parts is touching one of them. */
  lemma {:induction false} NearPoints(p: Point, parts: seq<Part>)
    ensures p.IsNeighbourOfAny(Points(parts)) <==>
              exists j :: 0 <= j < |parts| && p.IsNeighbourOfAny(parts[j].points)
  {
    if parts != [] {
      var n := |parts| - 1;
      NearPoints(p, parts[..n]);
      NeighbourOfAnyAppend(p, Points(parts[..n]), parts[n].points);
      assert forall j :: 0 <= j < n ==> parts[..n][j] == parts[j];
    }
  }

  predicate IsNumber(part: Part) {
    part.number.Number?
  }

  predicate IsSymbol(part: Part) {
    part.number.Symbol?
  }

  /** `.filter(..).collect()` of the symbol parts. */
  function SymbolParts(parts: seq<Part>): seq<Part> {
    if parts == [] then []
    else if IsSymbol(parts[0]) then [parts[0]] + SymbolParts(parts[1..])
    else SymbolParts(parts[1..])
  }

  /** The symbol list holds exactly the symbol parts. */
  lemma {:induction false} SymbolPartsSpec(parts: seq<Part>)
    ensures forall k :: 0 <= k < |SymbolParts(parts)| ==> SymbolParts(parts)[k] in parts && IsSymbol(SymbolParts(parts)[k])
    ensures forall i :: 0 <= i < |parts| && IsSymbol(parts[i]) ==> parts[i] in SymbolParts(parts)
  {
    if parts != [] {
      SymbolPartsSpec(parts[1..]);
      assert forall i :: 1 <= i < |parts| ==> parts[i] == parts[1..][i - 1];
    }
  }

  /** `part_1::number_has_neighbor_symbol`: the number's points touch the
      flattened points of the symbols, that is, one of its points neighbours
      one of the points of one of the symbols. */
  predicate NumberHasNeighborSymbol(number: Part, symbols: seq<Part>)
    ensures NumberHasNeighborSymbol(number, symbols) <==>
              exists i, j :: 0 <= i < |number.points| && 0 <= j < |symbols| &&
                             number.points[i].IsNeighbourOfAny(symbols[j].points)
  {
    assert Touches(number.points, Points(symbols)) <==>
             exists i, j :: 0 <= i < |number.points| && 0 <= j < |symbols| &&
                            number.points[i].IsNeighbourOfAny(symbols[j].points) by {
      TouchesIff(number.points, Points(symbols));
      forall i | 0 <= i < |number.points| {
        NearPoints(number.points[i], symbols);
      }
    }
    Touches(number.points, Points(symbols))
  }

  function Value(part: Part): nat {
    match part.number
    case Number(n) => n
    case _ => 0
  }

  /** The sum of the values of the number parts that touch a symbol. */
  function PartNumberSum(parts: seq<Part>, symbols: seq<Part>): nat {
    if parts == [] then 0
    else
      (if IsNumber(parts[0]) && NumberHasNeighborSymbol(parts[0], symbols) then Value(parts[0]) else 0)
        + PartNumberSum(parts[1..], symbols)
  }

  /** `part_1::sum_of_part_numbers`. */
  function SumOfPartNumbers(input: seq<string>): (sum: nat)
    ensures sum <= AllNumbers(Scan(input))
  {
    var parts := Scan(input);
    PartNumberSumBound(parts, SymbolParts(parts));
    PartNumberSum(parts, SymbolParts(parts))
  }

  /** The sum splits over a concatenation of part lists. */
  lemma {:induction false} PartNumberSumAppend(a: seq<Part>, b: seq<Part>, symbols: seq<Part>)
    ensures PartNumberSum(a + b, symbols) == PartNumberSum(a, symbols) + PartNumberSum(b, symbols)
  {
    if a == [] {
      assert a + b == b;
    } else {
      assert (a + b)[0] == a[0];
      assert (a + b)[1..] == a[1..] + b;
      PartNumberSumAppend(a[1..], b, symbols);
    }
  }

  /** No number counts without a symbol. */
  lemma {:induction false} PartNumberSumNoSymbols(parts: seq<Part>)
    ensures PartNumberSum(parts, []) == 0
  {
    if parts != [] {
      PartNumberSumNoSymbols(parts[1..]);
      TouchesIff(parts[0].points, []);
    }
  }

  /** The sum of every number part, adjacent or not. */
  function AllNumbers(parts: seq<Part>): nat {
    if parts == [] then 0 else Value(parts[0]) + AllNumbers(parts[1..])
  }

  /** Part 1 never exceeds the sum of all numbers, and reaches it when every
      number touches a symbol. */
  lemma {:induction false} PartNumberSumBound(parts: seq<Part>, symbols: seq<Part>)
    ensures PartNumberSum(parts, symbols) <= AllNumbers(parts)
    ensures (forall i :: 0 <= i < |parts| && IsNumber(parts[i]) ==> NumberHasNeighborSymbol(parts[i], symbols))
              ==> PartNumberSum(parts, symbols) == AllNumbers(parts)
  {
    if parts != [] {
      assert forall i :: 1 <= i < |parts| ==> parts[1..][i - 1] == parts[i];
      PartNumberSumBound(parts[1..], symbols);
    }
  }

  /** A number counts at most once however many symbols it touches, and more
      symbols never lower the sum. */
  lemma {:induction false} PartNumberSumMonotone(parts: seq<Part>, symbols: seq<Part>, more: seq<Part>)
    ensures PartNumberSum(parts, symbols) <= PartNumberSum(parts, symbols + more)
  {
    if parts != [] {
      PartNumberSumMonotone(parts[1..], symbols, more);
      var p := parts[0];
      if NumberHasNeighborSymbol(p, symbols) {
        var i, j :| 0 <= i < |p.points| && 0 <= j < |symbols| && p.points[i].IsNeighbourOfAny(symbols[j].points);
        assert (symbols + more)[j] == symbols[j];
      }
    }
  }

  // ---------------------------------------------------------------------------
  // Part 2

  /** The number parts, `parts.iter().filter(Number).collect()`. */
  function NumberParts(parts: seq<Part>): seq<Part> {
    if parts == [] then []
    else if IsNumber(parts[0]) then [parts[0]] + NumberParts(parts[1..])
    else NumberParts(parts[1..])
  }

  /** The number list holds exactly the number parts. */
  lemma {:induction false} NumberPartsSpec(parts: seq<Part>)
    ensures forall k :: 0 <= k < |NumberParts(parts)| ==> NumberParts(parts)[k] in parts && IsNumber(NumberParts(parts)[k])
    ensures forall i :: 0 <= i < |parts| && IsNumber(parts[i]) ==> parts[i] in NumberParts(parts)
  {
    if parts != [] {
      NumberPartsSpec(parts[1..]);
      assert forall i :: 1 <= i < |parts| ==> parts[i] == parts[1..][i - 1];
    }
  }

  /** The numbers that touch `gear`, in list order. */
  function AdjacentNumbers(gear: Part, numbers: seq<Part>): seq<Part> {
    if numbers == [] then []
    else if Touches(gear.points, numbers[0].points) then [numbers[0]] + AdjacentNumbers(gear, numbers[1..])
    else AdjacentNumbers(gear, numbers[1..])
  }

  /** The adjacent numbers are exactly the numbers some point of the gear
      touches. */
  lemma {:induction false} AdjacentNumbersSpec(gear: Part, numbers: seq<Part>)
    ensures |AdjacentNumbers(gear, numbers)| <= |numbers|
    ensures forall k :: 0 <= k < |AdjacentNumbers(gear, numbers)| ==>
              AdjacentNumbers(gear, numbers)[k] in numbers && Touches(gear.points, AdjacentNumbers(gear, numbers)[k].points)
    ensures forall i :: 0 <= i < |numbers| && Touches(gear.points, numbers[i].points) ==> numbers[i] in AdjacentNumbers(gear, numbers)
  {
    if numbers != [] {
      AdjacentNumbersSpec(gear, numbers[1..]);
      assert forall i :: 1 <= i < |numbers| ==> numbers[i] == numbers[1..][i - 1];
    }
  }

  /** Some point of the gear neighbours some point of entry `k`. */
  predicate TouchesAt(gear: Part, numbers: seq<Part>, k: int) {
    0 <= k < |numbers| && Touches(gear.points, numbers[k].points)
  }

  /** The gear touches no entry other than `i` and `j`. */
  ghost predicate TouchesOnly(gear: Part, numbers: seq<Part>, i: int, j: int) {
    forall k :: TouchesAt(gear, numbers, k) ==> k == i || k == j
  }

  /** Exactly one entry touches the gear. */
  ghost predicate OneTouches(gear: Part, numbers: seq<Part>) {
    exists i :: TouchesAt(gear, numbers, i) && TouchesOnly(gear, numbers, i, i)
  }

  /** Exactly two entries touch the gear. */
  ghost predicate TwoTouch(gear: Part, numbers: seq<Part>) {
    exists i, j :: i < j && TouchesAt(gear, numbers, i) && TouchesAt(gear, numbers, j) &&
                   TouchesOnly(gear, numbers, i, j)
  }

  /** `part_2::gear_has_two_neighbor_number`: the count of touching numbers
      is 2, that is, exactly two entries of `numbers` touch the gear. */
  function GearHasTwoNeighborNumber(gear: Part, numbers: seq<Part>): (b: bool)
    ensures b <==> TwoTouch(gear, numbers)
  {
    AdjacentCount(gear, numbers);
    |AdjacentNumbers(gear, numbers)| == 2
  }

  /** The adjacent numbers are none, one or two exactly when no entry, one
      entry or two entries touch the gear. */
  lemma {:induction false} AdjacentCount(gear: Part, numbers: seq<Part>)
    ensures |AdjacentNumbers(gear, numbers)| == 0 <==> forall k :: !TouchesAt(gear, numbers, k)
    ensures |AdjacentNumbers(gear, numbers)| == 1 <==> OneTouches(gear, numbers)
    ensures |AdjacentNumbers(gear, numbers)| == 2 <==> TwoTouch(gear, numbers)
  {
    if numbers == [] {
      assert forall k :: !TouchesAt(gear, numbers, k);
    } else {
      var rest := numbers[1..];
      AdjacentCount(gear, rest);
      TouchesShift(gear, numbers);
      if TouchesAt(gear, numbers, 0) {
        OneTouchesHead(gear, numbers);
        TwoTouchHead(gear, numbers);
      } else {
        NoneSkip(gear, numbers);
        OneTouchesSkip(gear, numbers);
        TwoTouchSkip(gear, numbers);
      }
    }
  }

  /** Entry `k` of the tail is entry `k + 1` of the list. */
  lemma TouchesShift(gear: Part, numbers: seq<Part>)
    requires numbers != []
    ensures forall k :: TouchesAt(gear, numbers[1..], k) <==> 0 <= k && TouchesAt(gear, numbers, k + 1)
  {
    forall k ensures TouchesAt(gear, numbers[1..], k) <==> 0 <= k && TouchesAt(gear, numbers, k + 1) {
      if 0 <= k < |numbers| - 1 {
        assert numbers[1..][k] == numbers[k + 1];
      }
    }
  }

  /** When the first entry touches, it is the only one exactly when no entry
      of the tail touches. */
  lemma OneTouchesHead(gear: Part, numbers: seq<Part>)
    requires numbers != [] && TouchesAt(gear, numbers, 0)
    ensures OneTouches(gear, numbers) <==> forall k :: !TouchesAt(gear, numbers[1..], k)
  {
    var rest := numbers[1..];
    TouchesShift(gear, numbers);
    if forall k :: !TouchesAt(gear, rest, k) {
      forall k | TouchesAt(gear, numbers, k) ensures k == 0 {
        if k != 0 {
          assert TouchesAt(gear, rest, k - 1);
        }
      }
      assert TouchesOnly(gear, numbers, 0, 0);
    } else {
      var k :| TouchesAt(gear, rest, k);
      assert TouchesAt(gear, numbers, k + 1);
      forall i | TouchesAt(gear, numbers, i) ensures !TouchesOnly(gear, numbers, i, i) {
        if i == 0 {
          assert TouchesAt(gear, numbers, k + 1);
        } else {
          assert TouchesAt(gear, numbers, 0);
        }
      }
    }
  }

  /** When the first entry touches, exactly two entries touch exactly when
      one entry of the tail does. */
  lemma TwoTouchHead(gear: Part, numbers: seq<Part>)
    requires numbers != [] && TouchesAt(gear, numbers, 0)
    ensures TwoTouch(gear, numbers) <==> OneTouches(gear, numbers[1..])
  {
    var rest := numbers[1..];
    TouchesShift(gear, numbers);
    if OneTouches(gear, rest) {
      var i :| TouchesAt(gear, rest, i) && TouchesOnly(gear, rest, i, i);
      assert TouchesAt(gear, numbers, i + 1);
      forall k | TouchesAt(gear, numbers, k) ensures k == 0 || k == i + 1 {
        if k != 0 {
          assert TouchesAt(gear, rest, k - 1);
        }
      }
      assert TouchesOnly(gear, numbers, 0, i + 1);
    }
    if TwoTouch(gear, numbers) {
      var i, j :| i < j && TouchesAt(gear, numbers, i) && TouchesAt(gear, numbers, j) &&
                  TouchesOnly(gear, numbers, i, j);
      assert i == 0;
      assert TouchesAt(gear, rest, j - 1);
      forall k | TouchesAt(gear, rest, k) ensures k == j - 1 {
        assert TouchesAt(gear, numbers, k + 1);
      }
      assert TouchesOnly(gear, rest, j - 1, j - 1);
    }
  }

  /** An entry that does not touch can be skipped when no entry touches. */
  lemma NoneSkip(gear: Part, numbers: seq<Part>)
    requires numbers != [] && !TouchesAt(gear, numbers, 0)
    ensures (forall k :: !TouchesAt(gear, numbers, k)) <==> forall k :: !TouchesAt(gear, numbers[1..], k)
  {
    TouchesShift(gear, numbers);
    if exists k :: TouchesAt(gear, numbers, k) {
      var k :| TouchesAt(gear, numbers, k);
      assert TouchesAt(gear, numbers[1..], k - 1);
    }
  }

  /** An entry that does not touch can be skipped when one entry touches. */
  lemma OneTouchesSkip(gear: Part, numbers: seq<Part>)
    requires numbers != [] && !TouchesAt(gear, numbers, 0)
    ensures OneTouches(gear, numbers) <==> OneTouches(gear, numbers[1..])
  {
    var rest := numbers[1..];
    TouchesShift(gear, numbers);
    if OneTouches(gear, rest) {
      var i :| TouchesAt(gear, rest, i) && TouchesOnly(gear, rest, i, i);
      assert TouchesAt(gear, numbers, i + 1);
      forall k | TouchesAt(gear, numbers, k) ensures k == i + 1 {
        assert TouchesAt(gear, rest, k - 1);
      }
      assert TouchesOnly(gear, numbers, i + 1, i + 1);
    }
    if OneTouches(gear, numbers) {
      var i :| TouchesAt(gear, numbers, i) && TouchesOnly(gear, numbers, i, i);
      assert TouchesAt(gear, rest, i - 1);
      forall k | TouchesAt(gear, rest, k) ensures k == i - 1 {
        assert TouchesAt(gear, numbers, k + 1);
      }
      assert TouchesOnly(gear, rest, i - 1, i - 1);
    }
  }

  /** An entry that does not touch can be skipped when two entries touch. */
  lemma TwoTouchSkip(gear: Part, numbers: seq<Part>)
    requires numbers != [] && !TouchesAt(gear, numbers, 0)
    ensures TwoTouch(gear, numbers) <==> TwoTouch(gear, numbers[1..])
  {
    var rest := numbers[1..];
    TouchesShift(gear, numbers);
    if TwoTouch(gear, rest) {
      var i, j :| i < j && TouchesAt(gear, rest, i) && TouchesAt(gear, rest, j) &&
                  TouchesOnly(gear, rest, i, j);
      assert TouchesAt(gear, numbers, i + 1) && TouchesAt(gear, numbers, j + 1);
      forall k | TouchesAt(gear, numbers, k) ensures k == i + 1 || k == j + 1 {
        assert TouchesAt(gear, rest, k - 1);
      }
      assert TouchesOnly(gear, numbers, i + 1, j + 1);
    }
    if TwoTouch(gear, numbers) {
      var i, j :| i < j && TouchesAt(gear, numbers, i) && TouchesAt(gear, numbers, j) &&
                  TouchesOnly(gear, numbers, i, j);
      assert TouchesAt(gear, rest, i - 1) && TouchesAt(gear, rest, j - 1);
      forall k | TouchesAt(gear, rest, k) ensures k == i - 1 || k == j - 1 {
        assert TouchesAt(gear, numbers, k + 1);
      }
      assert TouchesOnly(gear, rest, i - 1, j - 1);
    }
  }

  /** The value of a part in the product, 1 for anything but a number. */
  function Factor(part: Part): nat {
    match part.number
    case Number(n) => n
    case _ => 1
  }

  function Product(parts: seq<Part>): nat {
    if parts == [] then 1 else Factor(parts[0]) * Product(parts[1..])
  }

  /** `part_2::find_gear_ratio`: the product over the touching numbers. The
      ratio of a gear that touches exactly two numbers a and b is a * b, and
      the ratio of a part that touches none is 1. */
  function FindGearRatio(gear: Part, numbers: seq<Part>): (ratio: nat)
    ensures GearHasTwoNeighborNumber(gear, numbers) ==>
              var adjacent := AdjacentNumbers(gear, numbers);
              ratio == Factor(adjacent[0]) * Factor(adjacent[1])
    ensures AdjacentNumbers(gear, numbers) == [] ==> ratio == 1
  {
    var adjacent := AdjacentNumbers(gear, numbers);
    if |adjacent| == 2 then
      assert adjacent[1..][1..] == [];
      assert Product(adjacent[1..]) == Factor(adjacent[1]);
      Product(adjacent)
    else
      Product(adjacent)
  }

  predicate IsGear(part: Part, numbers: seq<Part>) {
    part.number == Symbol('*') && GearHasTwoNeighborNumber(part, numbers)
  }

  /** The '*' parts that pass `gear_has_two_neighbor_number`, in list order. */
  function Gears(parts: seq<Part>, numbers: seq<Part>): seq<Part> {
    if parts == [] then []
    else if IsGear(parts[0], numbers) then [parts[0]] + Gears(parts[1..], numbers)
    else Gears(parts[1..], numbers)
  }

  /** The gears are exactly the '*' parts touching two numbers. */
  lemma {:induction false} GearsSpec(parts: seq<Part>, numbers: seq<Part>)
    ensures forall k :: 0 <= k < |Gears(parts, numbers)| ==>
              Gears(parts, numbers)[k] in parts && IsGear(Gears(parts, numbers)[k], numbers)
    ensures forall i :: 0 <= i < |parts| && IsGear(parts[i], numbers) ==> parts[i] in Gears(parts, numbers)
  {
    if parts != [] {
      GearsSpec(parts[1..], numbers);
      assert forall i :: 1 <= i < |parts| ==> parts[i] == parts[1..][i - 1];
    }
  }

  function SumRatios(gears: seq<Part>, numbers: seq<Part>): nat {
    if gears == [] then 0 else FindGearRatio(gears[0], numbers) + SumRatios(gears[1..], numbers)
  }

  /** `part_2::sum_of_gear_ratios`: 0 when no part is a gear. */
  function SumOfGearRatios(input: seq<string>): (sum: nat)
    ensures (forall i :: 0 <= i < |Scan(input)| ==> !IsGear(Scan(input)[i], NumberParts(Scan(input))))
            ==> sum == 0
  {
    var parts := Scan(input);
    var numbers := NumberParts(parts);
    GearsSpec(parts, numbers);
    assert (forall i :: 0 <= i < |parts| ==> !IsGear(parts[i], numbers)) ==> Gears(parts, numbers) == [] by {
      if Gears(parts, numbers) != [] {
        assert Gears(parts, numbers)[0] in parts;
      }
    }
    SumRatios(Gears(parts, numbers), numbers)
  }

  /** The tests `single_gear_input` and `single_gear_ratio`: a '*' at (1, 0)
      between two 2s touches exactly two numbers, and its ratio is 4. */
  lemma SingleGear()
    ensures var gear := Part(Symbol('*'), [Point(1, 0)]);
            var numbers := [Part(Number(2), [Point(0, 0)]), Part(Number(2), [Point(2, 0)])];
            GearHasTwoNeighborNumber(gear, numbers) && FindGearRatio(gear, numbers) == 4
  {
    var gear := Part(Symbol('*'), [Point(1, 0)]);
    var numbers := [Part(Number(2), [Point(0, 0)]), Part(Number(2), [Point(2, 0)])];
    assert Touches(gear.points, numbers[0].points);
    assert Touches(gear.points, numbers[1].points);
    assert numbers[1..][1..] == [];
  }
}
