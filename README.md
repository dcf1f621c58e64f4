# Advent of Code 2023, days 1 to 5, in Dafny

This project models the five puzzle libraries of the repository, one Dafny
module per `lib.rs`, and proves what each of them computes:

- `Calibration` (day 1). It finds the first and last decimal digit of each
  line and sums `10 * first + last`. Part 2 first rewrites the spelled digit
  words at every position, so overlapping words both count.
- `CubeGame` and `CubeRender` (day 2). `build_game` reads
  `Game N: 3 blue, 4 red; ...` lines. `check_game` compares every round with a
  bag of cubes. `find_minimum_cubes` is the colour-wise maximum of the rounds.
  The two sums run over every line.
- `Schematic` (day 3). `parse_input` scans the grid. Each digit either extends
  the last number part or starts a new one, and every other character except
  `.` becomes a one-cell symbol part. Part 1 sums the numbers that touch a
  symbol. Part 2 multiplies the numbers around each `*` that touches exactly
  two of them.
- `Scratchcards` and `CardRender` (day 4). A card's matches and its
  `2^(matches-1)` score, the line parser, and the Part 2 cascade of copies
  over an array of counts.
- `Almanac` (day 5). A `Range` rule maps a value inside its source window.
  `convert_number` applies the first rule of a stage that accepts the value.
  `parse_input` groups the rule rows into seven stages, each closed by
  `Range::default()`. Part 1 is the least location of the seeds. Part 2 is
  the least location of every seed enumerated from the `(start, length)`
  pairs.
- `Text` holds the pieces of the Rust standard library the five libraries
  call: `str::split`, `trim`, `contains`, `starts_with`, `parse::<usize>`,
  `char::is_digit` and `to_digit`.

The loops of the source are methods proved against specification functions:
- both `find_calibration_value`, `slice_to_string` and `replace_didgets`;
- `check_game` and the round closure of `build_game`;
- both `parse_input` of days 3 and 4, and that of day 5;
- `convert_number`;
- the `counts` array of `sum_of_cards`.

Everything else is a function with lemmas.

Integers are unbounded. A panic of the source (`unwrap`, an index out of
range) is a precondition that names the well-formed input: `LinesOk`,
`GameOk`, `Parses`, `WinsFit`.

The unit tests of each library are proved as lemmas in the `*Sample` modules.
- In the day-2 and day-4 tests, each input line is written as the
  concatenation of its fields, the way the rendering functions of
  `CubeRender` and `CardRender` build it. A round-trip lemma then reads the
  line back.
- The day-1 and day-3 test lemmas, and the day-1 lemmas that value one
  test line, take their input lines as string literals. Only the helper
  lemmas that read one position at a time state single characters.
- The day-5 tests are stated on the seeds and stages the sample parses into.

Where the puzzle's own description and the code differ, the model follows the
code:
- `Range::map` accepts `value == source_start + length`, an inclusive upper
  bound.
- Day-3 `parse_input` merges a digit into the previous number part whenever
  the last point of that part neighbours it, even on the next row.
  `SchematicSample.CrossRowScan` shows `..5` over `.3.` read as the single
  number 53.
- `sum_of_invalid_games` sums the ids of the games that are possible, as the
  code does, despite its name.

## Model

| member | source | states |
|---|---|---|
| Text.DigitValue | day-1/src/lib.rs:5 | `to_digit(10)` of a decimal digit is at most 9 |
| Text.ParseUsize | day-4/src/lib.rs:56-59 | `parse::<usize>` succeeds on one or more digits with an optional leading `+`, and on nothing else; the value is the decimal value of the digits, with or without the sign (the `usize::MAX` bound is not modelled) |
| Text.DigitCharacters | day-3/src/lib.rs:63 | `is_digit(10)` holds exactly for the ten characters `0` to `9` |
| Text.TrimEnds | day-2/src/lib.rs:33 | what `trim` leaves is no longer than the text, and is empty or begins and ends with a non-whitespace character |
| Text.TrimStart | day-4/src/lib.rs:47 | the trimmed text is empty or starts with a non-whitespace character |
| Text.TrimEnd | day-4/src/lib.rs:47 | the trimmed text is empty or ends with a non-whitespace character |
| Text.TrimStartSuffix | day-4/src/lib.rs:54 | trimming the start drops a prefix made only of whitespace: the result is a suffix of the input and every dropped character is whitespace |
| Text.TrimEndPrefix | day-4/src/lib.rs:54 | trimming the end drops a suffix made only of whitespace: the result is a prefix of the input and every dropped character is whitespace |
| Text.TrimStartAppend | day-4/src/lib.rs:50 | text after the first non-whitespace character is not touched by trimming |
| Text.StartsWithAt | day-1/src/lib.rs:44-61 | `starts_with` holds exactly when the pattern is no longer than the text and agrees with it at every position of the pattern |
| Text.Differs | day-1/src/lib.rs:44-61 | `starts_with` fails as soon as one shared position differs |
| Text.ContainsAt | day-2/src/lib.rs:35-39 | `contains` holds exactly when the pattern starts at some position of the text |
| Text.ShortNoContains | day-2/src/lib.rs:35-39 | a text shorter than the pattern does not contain it |
| Text.ContainsSkip | day-2/src/lib.rs:35-39 | `contains` may skip a prefix in which the pattern's first character never occurs |
| Text.Find | day-2/src/lib.rs:16 | the position found holds the separator |
| Text.FindIsFirst | day-2/src/lib.rs:16 | no earlier position starts the separator; `None` exactly when no position does |
| Text.FindAbsent | day-2/src/lib.rs:16 | a character that does not occur is not found |
| Text.FindChar | day-4/src/lib.rs:41 | a character is found right after a stretch that does not hold it |
| Text.FindCharFirst | day-4/src/lib.rs:41 | a character that occurs is found at or before any occurrence, and nothing earlier holds it |
| Text.Split | day-4/src/lib.rs:41 | `split` always yields at least one piece |
| Text.JoinSplit | day-4/src/lib.rs:41 | gluing the pieces of `split` back together with the separator gives the text back |
| Text.SplitJoin | day-2/src/lib.rs:22-26 | splitting pieces joined by a character that none of them holds gives those pieces back |
| Text.SplitAbsent | day-2/src/lib.rs:22-26 | splitting on a character that does not occur yields the whole text |
| Text.SplitPieces | day-2/src/lib.rs:22-25 | there are two or more pieces exactly when the separator character occurs |
| Text.SplitChar | day-4/src/lib.rs:41 | splitting cuts at the first occurrence of the character: the text before it, then the pieces of the rest |
| Text.CutOnce | day-4/src/lib.rs:50 | a text with a single separator splits into its two sides |
| Text.SplitSnoc | day-4/src/lib.rs:55 | a trailing separator adds one empty piece at the end |
| Text.SplitSnocAt | day-4/src/lib.rs:55 | a split that cuts at a known first separator keeps cutting there when a separator is appended |
| Text.NatStringValue | day-4/src/lib.rs:56-59 | the decimal rendering of `n` is non-empty, all digits, and reads back as `n` |
| Calibration.Digits | day-1/src/lib.rs:3-6 | there are no more digit values than characters, and each is at most 9 |
| Calibration.DigitsAppend | day-1/src/lib.rs:3-6 | the digit values of a concatenation are those of its halves, in order |
| Calibration.DigitsEmpty | day-1/src/lib.rs:3-10 | a line has no digit values exactly when it has no digit character |
| Calibration.DigitsSingle | day-1/src/lib.rs:5 | a single character yields its value if it is a digit and nothing otherwise |
| Calibration.DigitsBracket | day-1/src/lib.rs:12-13 | a stretch that starts and ends with a digit has those digits first and last |
| Calibration.DigitsSurround | day-1/src/lib.rs:3-6 | stretches without digits around a stretch add no digit values |
| Calibration.HandelLine | day-1/src/lib.rs:2-16 | `handel_line` is at most 99 |
| Calibration.HandelLineNoDigits | day-1/src/lib.rs:8-10 | a line without digits is worth 0 |
| Calibration.HandelLineFirstLast | day-1/src/lib.rs:12-15 | the value is 10 times the first digit of the line plus its last digit |
| Calibration.HandelLineSingle | day-1/src/lib.rs:12-15 | a line with a single digit d is worth 11 * d |
| Calibration.SumLines | day-1/src/lib.rs:18-26 | Part 1 adds at most 99 per line |
| Calibration.SumLinesAppend | day-1/src/lib.rs:18-26 | the sum over a concatenation of inputs is the sum of the two sums |
| Calibration.FindCalibrationValue | day-1/src/lib.rs:18-26 | the loop returns the sum of `handel_line` over the lines |
| Calibration.SliceToString | day-1/src/lib.rs:30-36 | the characters pushed one by one give the slice back unchanged |
| Calibration.EmittedDigits | day-1/src/lib.rs:42-64 | each position emits at most one character, and it is a digit |
| Calibration.EmittedWord | day-1/src/lib.rs:44-61 | what `Emitted` pushes for one position: the first digit word the rest of the line starts with emits its digit |
| Calibration.EmittedNoWord | day-1/src/lib.rs:62-64 | without a digit word, `Emitted` at a position gives its own character exactly when that is a digit |
| Calibration.EmittedDigit | day-1/src/lib.rs:62-64 | a position holding a digit emits that digit |
| Calibration.ReplaceDidgets | day-1/src/lib.rs:38-67 | the loop returns what every position emits, in position order |
| Calibration.ReplacePrefixDigits | day-1/src/lib.rs:42-66 | after n positions, at most n characters are out, all of them digits |
| Calibration.ReplaceDigits | day-1/src/lib.rs:38-66 | the rewritten line is no longer than the line and holds only digits |
| Calibration.ReplacePrefixIdentity | day-1/src/lib.rs:62-64 | on a line of digits, the first n positions emit the first n characters |
| Calibration.ReplaceDigitsIdentity | day-1/src/lib.rs:62-64 | `replace_didgets` leaves a line of digits unchanged |
| Calibration.SumReplacedStep | day-1/src/lib.rs:73-75 | one more line adds `handel_line` of its rewriting |
| Calibration.SumReplacedDigits | day-1/src/lib.rs:69-78 | on lines of digits only, Part 2 equals Part 1 |
| Calibration.SumReplaced | day-1/src/lib.rs:69-78 | Part 2 adds at most 99 per line |
| Calibration.FindCalibrationValue2 | day-1/src/lib.rs:69-78 | the loop returns the sum of `handel_line(replace_didgets(line))` |
| CalibrationSample.Part1Sample | day-1/src/lib.rs:86-95 | the Part 1 sample sums to 142 |
| CalibrationSample.Part1None | day-1/src/lib.rs:97-106 | "trebuchet" gives 0 |
| CalibrationSample.Part1One | day-1/src/lib.rs:108-117 | "treb7uchet" gives 77 |
| CalibrationSample.Part1TwoSingle | day-1/src/lib.rs:119-128 | "pqr3stu8vwx" gives 38 |
| CalibrationSample.Part1TwoMany | day-1/src/lib.rs:130-139 | two lines give 50 |
| CalibrationSample.Part1ManyMany | day-1/src/lib.rs:141-150 | two lines with many digits give 30 |
| CalibrationSample.Part2SampleHead | day-1/src/lib.rs:157-173 | the first four sample lines add up to 29 + 83 + 13 + 24 |
| CalibrationSample.Part2SampleTail | day-1/src/lib.rs:157-173 | the last three sample lines add 42 + 14 + 76 to the first four |
| CalibrationSample.Part2Sample | day-1/src/lib.rs:156-173 | the Part 2 sample sums to 281 |
| CalibrationSample.Part2Empty | day-1/src/lib.rs:175-181 | no lines give 0 |
| CalibrationSample.Part2None | day-1/src/lib.rs:183-192 | "trebuchet" gives 0 |
| CalibrationSample.Part2OneNum | day-1/src/lib.rs:194-203 | "treb7uchet" gives 77 |
| CalibrationSample.Part2SingleDuplicate | day-1/src/lib.rs:205-214 | "threeightwothree" gives 33: overlapping words both count |
| CalibrationSample.Part2One | day-1/src/lib.rs:216-225 | "one" gives 11 |
| CalibrationSample.Part2Overlap | day-1/src/lib.rs:227-236 | "oneight" gives 18 |
| CubeGame.Game.CheckGame | day-2/src/lib.rs:55-63 | the loop accepts exactly when every round fits in the bag colour by colour, and accepts a game with no rounds |
| CubeGame.KindOfNamed | day-2/src/lib.rs:33-41 | the colour `KindOf` finds in an entry is named in the trimmed entry, and there is none exactly when no colour's name occurs in it |
| CubeGame.Set | day-2/src/lib.rs:36-40 | setting one colour's counter changes that colour only |
| CubeGame.RoundAbsent | day-2/src/lib.rs:28-30 | a colour no entry names stays 0 |
| CubeGame.RoundLastWins | day-2/src/lib.rs:32-42 | a colour named several times keeps the count of its last entry |
| CubeGame.EntriesOkPrefix | day-2/src/lib.rs:32-42 | every prefix of well-formed entries is well-formed |
| CubeGame.RoundFromStep | day-2/src/lib.rs:32-42 | one more entry applies to the round read so far |
| CubeGame.ParseRound | day-2/src/lib.rs:27-45 | the closure with its three mutable counters returns the round the entries describe |
| CubeGame.RoundsFrom | day-2/src/lib.rs:22-46 | one round per `;`-separated text, each read from its `,`-separated entries |
| CubeGame.GameOfNone | day-2/src/lib.rs:15-21 | `build_game` gives `None` exactly when the text before the first ':' has no space, so no second word |
| CubeGame.GameOf | day-2/src/lib.rs:14-48 | a game that is built has one round per ';'-separated piece after the first ':' |
| CubeGame.GameOfId | day-2/src/lib.rs:15-21 | the id is the decimal value of the second word when that word is all digits, and 0 when it does not parse |
| CubeGame.BuildGame | day-2/src/lib.rs:14-49 | the round-by-round reading of a line is `build_game` |
| CubeGame.FindMinimumCubes | day-2/src/lib.rs:84-109 | every round fits in the minimum bag |
| CubeGame.MinimumLeast | day-2/src/lib.rs:84-109 | any bag every round fits in also holds the minimum bag |
| CubeGame.MinimumAttained | day-2/src/lib.rs:84-109 | each colour of the minimum is 0 or shown by some round; no rounds give (0, 0, 0) |
| CubeGame.PossibleIffMinimum | day-2/src/lib.rs:55-63 | `check_game` accepts a bag exactly when the minimum bag fits in it |
| CubeGame.PossibleMonotone | day-2/src/lib.rs:55-63 | a larger bag accepts every game a smaller one does |
| CubeGame.LinesOkPrefix | day-2/src/lib.rs:67-74 | every prefix of lines that build is made of lines that build |
| CubeGame.Games | day-2/src/lib.rs:67-74 | one game per line |
| CubeGame.PossibleIdsBounds | day-2/src/lib.rs:75-77 | the sum of possible ids grows with the bag and never exceeds the sum of all ids, which it reaches when every game fits |
| CubeGame.SumOfInvalidGamesBounds | day-2/src/lib.rs:66-78 | Part 1 on the lines grows with the bag, is at most the sum of all ids, and reaches it when every game fits |
| CubeGame.SumOfInvalidGames | day-2/src/lib.rs:66-78 | Part 1 is at most the sum of the ids of all games |
| CubeGame.SumOfInvalidGamesSkips | day-2/src/lib.rs:69-74 | a line for which `build_game` gives `None` adds nothing |
| CubeGame.MinimumZero | day-2/src/lib.rs:84-109 | a colour of the minimum is 0 exactly when no round shows it |
| CubeGame.PowerZero | day-2/src/lib.rs:117-120 | a game's power is 0 exactly when some colour is never shown |
| CubeGame.Power | day-2/src/lib.rs:117-120 | the power of a round is 0 exactly when one of its colours is 0 |
| CubeGame.PowersEach | day-2/src/lib.rs:111-121 | every game's power is at most the sum of the powers |
| CubeGame.SumOfPower | day-2/src/lib.rs:111-121 | Part 2 is at least the power of every game on the lines |
| CubeRender.EntryPlain | day-2/src/lib.rs:32-33 | a rendered entry holds no separator character |
| CubeRender.EntryTexts | day-2/src/lib.rs:32 | one rendered text per entry |
| CubeRender.RoundTexts | day-2/src/lib.rs:26 | one rendered text per round |
| CubeRender.JoinAvoids | day-2/src/lib.rs:26 | joining texts that avoid a character avoids it |
| CubeRender.RedContains | day-2/src/lib.rs:35 | "red" contains "red" |
| CubeRender.GreenContains | day-2/src/lib.rs:35-37 | "green" contains "green" but not "red" |
| CubeRender.BlueContains | day-2/src/lib.rs:35-39 | "blue" contains "blue" but neither "red" nor "green" |
| CubeRender.EntryTrim | day-2/src/lib.rs:33 | trimming a rendered entry drops its leading space only |
| CubeRender.CoreContains | day-2/src/lib.rs:35-39 | a colour word is found in `<count> <name>` exactly when it is in the name |
| CubeRender.EntryKind | day-2/src/lib.rs:35-41 | the colour `build_game` finds in a rendered entry is the entry's own |
| CubeRender.EntryParses | day-2/src/lib.rs:35-41 | a rendered entry reads back as its colour and its count |
| CubeRender.RoundParses | day-2/src/lib.rs:27-45 | a rendered round splits into its entries and reads back as the round they describe |
| CubeRender.EntriesRead | day-2/src/lib.rs:32-42 | rendered entries read back as the round they describe |
| CubeRender.RoundsOfEntries | day-2/src/lib.rs:44 | one round per entry list |
| CubeRender.GameFields | day-2/src/lib.rs:15-25 | a rendered line has its first ':' right after the id, and its rounds joined by ';' after it |
| CubeRender.IdWords | day-2/src/lib.rs:18-19 | the id field is `Game` and the id's digits |
| CubeRender.RoundsRead | day-2/src/lib.rs:22-46 | the rendered rounds read back one by one |
| CubeRender.GameRoundTrip | day-2/src/lib.rs:14-49 | `build_game` reads a rendered game line back as that game |
| CubeRender.EntriesRound | day-2/src/lib.rs:44 | a round written with each colour once reads back as the round |
| CubeRender.BuildGameInvertsRendering | day-2/src/lib.rs:14-49 | every game with at least one round survives rendering and `build_game` |
| CubeGameSample.ValidGame | day-2/src/lib.rs:154-160 | game 1 of the sample fits in the bag (12, 13, 14) |
| CubeGameSample.InvalidGameRejected | day-2/src/lib.rs:162-168 | a round with 20 red does not fit in the bag |
| CubeGameSample.Part1Sample | day-2/src/lib.rs:138-152 | the Part 1 sample sums to 8 |
| CubeGameSample.Part2Sample | day-2/src/lib.rs:174-188 | the Part 2 sample's powers sum to 2286 |
| Schematic.Point.IsNeighbour | day-3/src/lib.rs:20-24 | `is_neighbour` holds exactly when both coordinates differ by at most 1 |
| Schematic.NeighbourSymmetric | day-3/src/lib.rs:20-24 | `is_neighbour` is symmetric |
| Schematic.NeighbourReflexive | day-3/src/lib.rs:20-24 | every point neighbours itself |
| Schematic.Point.IsNeighbourOfAny | day-3/src/lib.rs:26-28 | `is_neighbour_of_any` holds exactly when some element is a neighbour |
| Schematic.NoNeighbourInEmpty | day-3/src/lib.rs:26-28 | no point neighbours an empty list |
| Schematic.NeighbourOfAnyAppend | day-3/src/lib.rs:26-28 | a neighbour of a concatenation is a neighbour of one of its halves |
| Schematic.NeighbourExamples | day-3/src/lib.rs:171-197 | (0,0) touches (1,1) but not (2,2), touches [(1,1), (2,2)] and not [(2,2), (3,3)] |
| Schematic.ParseInput | day-3/src/lib.rs:59-98 | the nested loops that pop and push the last part return the scan of the grid |
| Schematic.PointsSnoc | day-3/src/lib.rs:105 | the points of one more part come after the others |
| Schematic.PointsMember | day-3/src/lib.rs:105 | a point is among the flattened points exactly when some part has it |
| Schematic.StepPoints | day-3/src/lib.rs:63-94 | `Step`, the body of the inner loop: one character adds its point to the parts exactly when it is not '.' |
| Schematic.ScanRowPoints | day-3/src/lib.rs:62-95 | scanning a row adds its non-'.' cells, left to right |
| Schematic.Scan | day-3/src/lib.rs:59-98 | the points of the parts, read in order, are the non-'.' cells of the grid in row-major order |
| Schematic.RowCellsSpec | day-3/src/lib.rs:62 | the cells of a row are its non-'.' positions, increasing |
| Schematic.CellsSpec | day-3/src/lib.rs:61-62 | the cells of the grid are its non-'.' cells, each once, in row-major order |
| Schematic.CharsAtSnoc | day-3/src/lib.rs:62 | the characters under one more point come last |
| Schematic.ExtendOk | day-3/src/lib.rs:75-80 | in `Step`, appending a digit's point to a number part keeps it a number of the grid |
| Schematic.AllOkSnoc | day-3/src/lib.rs:84-93 | pushing a part of the grid keeps every part a part of the grid |
| Schematic.AllOkReplaceLast | day-3/src/lib.rs:81-82 | popping and pushing a part of the grid keeps every part a part of the grid |
| Schematic.DigitOk | day-3/src/lib.rs:84-87 | a single digit is a number part of its own |
| Schematic.ExtendLastOk | day-3/src/lib.rs:69-82 | extending the last number by a touching digit keeps every part a part of the grid |
| Schematic.StepOk | day-3/src/lib.rs:63-94 | each character keeps every part a part of the grid |
| Schematic.ScanRowOk | day-3/src/lib.rs:62-95 | scanning part of a row keeps every part a part of the grid |
| Schematic.ScanOkPrefix | day-3/src/lib.rs:61-96 | scanning the first rows keeps every part a part of the grid |
| Schematic.ScanOk | day-3/src/lib.rs:60-97 | every part has a point inside the grid; a symbol is one non-'.' non-digit cell holding it; a number's points are digits whose decimal value is the number, each neighbouring the next |
| Schematic.TouchesIff | day-3/src/lib.rs:104-106 | two point lists touch exactly when some point of the first neighbours the second |
| Schematic.TouchesPointwise | day-3/src/lib.rs:132 | two point lists touch exactly when some pair of their points neighbour |
| Schematic.NearPoints | day-3/src/lib.rs:105 | touching the flattened points of several parts is touching one of them |
| Schematic.SymbolPartsSpec | day-3/src/lib.rs:111-118 | the symbol list holds exactly the symbol parts |
| Schematic.NumberHasNeighborSymbol | day-3/src/lib.rs:103-107 | a number has a neighbouring symbol exactly when one of its points neighbours one of the symbol's points |
| Schematic.PartNumberSumAppend | day-3/src/lib.rs:119-122 | the sum splits over a concatenation of part lists |
| Schematic.PartNumberSumNoSymbols | day-3/src/lib.rs:119-122 | without symbols no number counts |
| Schematic.PartNumberSumBound | day-3/src/lib.rs:119-122 | Part 1 is at most the sum of all numbers, and equal when every number touches a symbol |
| Schematic.SumOfPartNumbers | day-3/src/lib.rs:109-123 | Part 1 on the lines is at most the sum of every number in the grid |
| Schematic.PartNumberSumMonotone | day-3/src/lib.rs:119-122 | more symbols never lower the sum |
| Schematic.NumberPartsSpec | day-3/src/lib.rs:146-153 | the number list holds exactly the number parts |
| Schematic.GearHasTwoNeighborNumber | day-3/src/lib.rs:129-135 | the count of touching numbers is 2: true exactly when two different entries of the list touch the gear and no other entry does |
| Schematic.AdjacentCount | day-3/src/lib.rs:130-134 | the filtered numbers count 0, 1 or 2 exactly when no entry, exactly one entry or exactly two entries of the list touch the gear |
| Schematic.AdjacentNumbersSpec | day-3/src/lib.rs:130-132 | the adjacent numbers are exactly the numbers that touch the gear, and there are no more of them than numbers |
| Schematic.FindGearRatio | day-3/src/lib.rs:137-142 | a gear touching exactly two numbers has their product as its ratio; with no adjacent number the ratio is 1 |
| Schematic.GearsSpec | day-3/src/lib.rs:154-162 | the gears are exactly the '*' parts that touch two numbers |
| Schematic.SumOfGearRatios | day-3/src/lib.rs:144-164 | Part 2 is 0 when no part of the grid is a gear |
| Schematic.SingleGear | day-3/src/lib.rs:330-374 | a '*' between two 2s touches exactly two numbers, and its ratio is 4 |
| SchematicSample.SingleNumberScan | day-3/src/lib.rs:222-239 | "..592....." is one Number(592) at (2,0), (3,0), (4,0) |
| SchematicSample.SingleSymbolScan | day-3/src/lib.rs:241-254 | "..$......." is one Symbol('$') at (2,0) |
| SchematicSample.MultiSymbolScan | day-3/src/lib.rs:256-275 | "..$....#.." is Symbol('$') at (2,0), then Symbol('#') at (7,0) |
| SchematicSample.SymbolAndNumberScan | day-3/src/lib.rs:277-296 | "..$....4.." is Symbol('$') at (2,0), then Number(4) at (7,0) |
| SchematicSample.CrossRowScan | day-3/src/lib.rs:69-82 | a digit touching the previous row's last digit diagonally extends that number: `..5` over `.3.` is Number(53) |
| SchematicSample.OneNeighbor | day-3/src/lib.rs:298-304 | "467*......" gives 467 |
| SchematicSample.SamplePart1 | day-3/src/lib.rs:203-220 | the Part 1 sample sums to 4361 |
| SchematicSample.SamplePart2 | day-3/src/lib.rs:311-328 | the Part 2 sample's gear ratios sum to 467835 |
| Scratchcards.Card.Matches | day-4/src/lib.rs:21-26 | a card has at most as many matches as winning numbers |
| Scratchcards.Card.Score | day-4/src/lib.rs:28-35 | the score is 0 exactly when there is no match |
| Scratchcards.CountIn | day-4/src/lib.rs:21-26 | a card has at most as many matches as winning numbers |
| Scratchcards.CountInHits | day-4/src/lib.rs:21-26 | the matches are the number of winning positions whose number you have |
| Scratchcards.CountInNone | day-4/src/lib.rs:21-26 | no match exactly when no winning number is among the numbers you have |
| Scratchcards.CountInAll | day-4/src/lib.rs:21-26 | all winning numbers match exactly when the count is their number |
| Scratchcards.Pow2 | day-4/src/lib.rs:33-34 | a power of two is at least 1 |
| Scratchcards.Pow2Monotone | day-4/src/lib.rs:33-34 | powers of two grow with the exponent |
| Scratchcards.ScoreDoubles | day-4/src/lib.rs:28-35 | one more winning number leaves the score as it is if you do not have it; otherwise 0 becomes 1 and a positive score doubles |
| Scratchcards.ScoreBound | day-4/src/lib.rs:28-35 | a card scores at most 2^(winning numbers - 1) |
| Scratchcards.ParseAll | day-4/src/lib.rs:56-59 | one parse result per piece |
| Scratchcards.Somes | day-4/src/lib.rs:56-60 | `filter_map` keeps at most as many values as pieces |
| Scratchcards.SomesAppend | day-4/src/lib.rs:56-60 | `filter_map` over a concatenation is the concatenation of the two |
| Scratchcards.NumbersAppend | day-4/src/lib.rs:55-60 | reading two runs of pieces reads each in turn |
| Scratchcards.SomesInOrder | day-4/src/lib.rs:56-60 | when every piece parses, every value is kept, in place |
| Scratchcards.NumbersInOrder | day-4/src/lib.rs:55-60 | when every piece is a number, the numbers are read one for one, in textual order |
| Scratchcards.Cards | day-4/src/lib.rs:38-74 | one card per line |
| Scratchcards.CardOf | day-4/src/lib.rs:40-71 | each half of a line gives at most one number per space-separated piece; `CardRender.CardRoundTrip` states that a rendered card reads back |
| Scratchcards.CardsAt | day-4/src/lib.rs:40-71 | card i is read from line i |
| Scratchcards.ParseInput | day-4/src/lib.rs:38-74 | the loop that pushes one card per line returns the cards of the lines |
| Scratchcards.Points | day-4/src/lib.rs:81 | the points are 0 exactly when no card has a match |
| Scratchcards.SumOfPoints | day-4/src/lib.rs:79-82 | Part 1 on the lines is 0 exactly when no card has a match |
| Scratchcards.Wins | day-4/src/lib.rs:90-93 | one match count per card |
| Scratchcards.SumCopies | day-4/src/lib.rs:102 | every card counts at least its original |
| Scratchcards.Copies | day-4/src/lib.rs:94-102 | every card is held at least once |
| Scratchcards.TotalCards | day-4/src/lib.rs:88-103 | Part 2 is at least the number of cards, and exactly that when no card wins |
| Scratchcards.CountCards | day-4/src/lib.rs:94-102 | the nested loops over `counts` give the total copies of the cascade |
| Scratchcards.SumOfCards | day-4/src/lib.rs:88-103 | `sum_of_cards` is the total of the cascade over the cards' matches, at least the number of lines |
| Scratchcards.CopiesEarlier | day-4/src/lib.rs:96-100 | only the matches of earlier cards decide a card's copies, so `counts[index]` is final when its turn comes |
| Scratchcards.WonEarlier | day-4/src/lib.rs:96-100 | the copies won by the first cards depend on the earlier matches only |
| Scratchcards.WonMonotone | day-4/src/lib.rs:96-100 | the copies of a card never go down as more cards are processed |
| Scratchcards.NoWinsNoCopies | day-4/src/lib.rs:94-102 | without a match, every card stays a single copy |
| Scratchcards.NoWinsWon | day-4/src/lib.rs:96-100 | without a match, nothing is won |
| Scratchcards.NoMatchesNoCopies | day-4/src/lib.rs:79-103 | cards worth no points together win no copies: the total is the number of cards |
| Scratchcards.NoPointsNoCopies | day-4/src/lib.rs:79-103 | a hand worth no points ends with as many cards as lines |
| CardRender.FieldChars | day-4/src/lib.rs:55 | a rendered list of numbers is digits and spaces, non-empty, ending in a digit |
| CardRender.LeadingSpace | day-4/src/lib.rs:55-60 | a leading space adds an empty piece that is dropped |
| CardRender.TrailingSpace | day-4/src/lib.rs:55-60 | a trailing space adds an empty piece that is dropped |
| CardRender.NumbersTrimStart | day-4/src/lib.rs:54-60 | leading spaces do not change the numbers read |
| CardRender.NumbersTrimEnd | day-4/src/lib.rs:54-60 | trailing spaces do not change the numbers read |
| CardRender.NumbersTrim | day-4/src/lib.rs:54-60 | trimming does not change the numbers read |
| CardRender.DigitsRead | day-4/src/lib.rs:56-59 | the digits of n read back as n |
| CardRender.PadRead | day-4/src/lib.rs:55-60 | a right-aligned two-column number reads back as itself: the double space before a single digit is dropped |
| CardRender.PadSplit | day-4/src/lib.rs:55 | splitting a padded number followed by a space and more text cuts at that space: the pieces of the number, then those of the rest |
| CardRender.PadPieces | day-4/src/lib.rs:55 | a padded number splits into an empty piece when it has one digit, then its digits |
| CardRender.WordSplit | day-4/src/lib.rs:55 | a word without spaces before a space splits off whole |
| CardRender.SpacedSplit | day-4/src/lib.rs:55 | a padded number and a space split off in front of the rest |
| CardRender.LeadSplit | day-4/src/lib.rs:55 | a leading space splits off an empty piece |
| CardRender.NumbersField | day-4/src/lib.rs:55-60 | a rendered list of numbers reads back as the list |
| CardRender.SecondHalf | day-4/src/lib.rs:61-70 | the text after '|' reads back as the numbers you have |
| CardRender.FirstHalf | day-4/src/lib.rs:51-60 | the text before '|' reads back as the winning numbers |
| CardRender.TrimmedDigits | day-4/src/lib.rs:54 | trimming the start of digits and spaces leaves digits and spaces |
| CardRender.HeaderSplit | day-4/src/lib.rs:41 | a rendered line splits on ':' into its header and its body |
| CardRender.HeaderNoColon | day-4/src/lib.rs:41 | the header holds no ':' |
| CardRender.ColonSplit | day-4/src/lib.rs:41 | a text with one ':' splits into its two sides |
| CardRender.HeaderNumber | day-4/src/lib.rs:42-49 | the header after its first 4 characters, trimmed, parses as the card number |
| CardRender.TrimAround | day-4/src/lib.rs:50 | trimming a text whose two parts both end in a non-space only trims the start of the first part, as the rendered body after ':' is trimmed |
| CardRender.CutHalves | day-4/src/lib.rs:50 | the body splits on '\|' into its two halves |
| CardRender.BodyHalves | day-4/src/lib.rs:50 | the rendered body after ':', trimmed, cuts at '\|' into the winning half without its leading spaces and the half you have |
| CardRender.CardRoundTrip | day-4/src/lib.rs:38-74 | `parse_input` reads a rendered card line back as that card |
| CardRender.CardLine | day-4/src/lib.rs:38-74 | a line glued from a card's number and its two padded lists is one `parse_input` accepts, and it reads back as that card |
| ScratchcardsSample.ParseInputTest | day-4/src/lib.rs:112-124 | the first sample line is card 1 with its 5 winning numbers and 8 numbers you have, in order |
| ScratchcardsSample.ZeroPoints | day-4/src/lib.rs:140-150 | a card with winning numbers 31 18 13 56 72 and none of them in hand scores 0 |
| ScratchcardsSample.OnePoint | day-4/src/lib.rs:152-162 | card 4, with one match (84), scores 1 |
| ScratchcardsSample.TwoPoints | day-4/src/lib.rs:164-174 | card 2, with two matches (32 and 61), scores 2 |
| ScratchcardsSample.SampleInput | day-4/src/lib.rs:129-134 | the six sample lines read as the six sample cards |
| ScratchcardsSample.SampleCards | day-4/src/lib.rs:81 | the sample cards score 8, 2, 2, 1, 0 and 0, and have 4, 2, 2, 1, 0 and 0 matches |
| ScratchcardsSample.SampleCascade | day-4/src/lib.rs:94-102 | with those matches every card's winnings stay in range, and the copies add up to 30 |
| ScratchcardsSample.Part1Sample | day-4/src/lib.rs:126-138 | the Part 1 sample is worth 13 points |
| ScratchcardsSample.Part2Sample | day-4/src/lib.rs:180-192 | `sum_of_cards` may run on the sample and gives 30 |
| Almanac.Range.Map | day-5/src/lib.rs:21-29 | `map` succeeds exactly when source_start ≤ value ≤ source_start + length, with an inclusive upper bound, and then shifts the value by the same offset into the destination window |
| Almanac.Range.MapRange | day-5/src/lib.rs:15-19 | `map_range` succeeds exactly when both ends of the range's source window map; the result's destination is where the start maps, and, as written, its source start is the range's length and its length is kept |
| Almanac.DefaultMapsIdentity | day-5/src/lib.rs:48-56 | `Default`, the rule of `Range::default()`, maps every `usize` to itself |
| Almanac.FromVec | day-5/src/lib.rs:31-37 | `from_vec` takes destination, source and length from the first three numbers |
| Almanac.MapRoundTrip | day-5/src/lib.rs:21-29 | the rule read backwards maps the result back to the value |
| Almanac.ConvertIsFirstMatch | day-5/src/lib.rs:92-99 | `None` exactly when no rule accepts; otherwise the mapping of the first rule that accepts |
| Almanac.FirstMatchConverts | day-5/src/lib.rs:92-99 | the first accepting rule decides the conversion |
| Almanac.Convert | day-5/src/lib.rs:92-99 | a stage that ends in `Range::default()` converts every `usize` |
| Almanac.ConvertNumber | day-5/src/lib.rs:92-99 | the loop with its early return is the first-match conversion; `part_2::convert_number` at lines 120-127 is the same code |
| Almanac.LocateAppend | day-5/src/lib.rs:108-111 | folding through two lists of stages is folding through one and then the other |
| Almanac.LocateTrace | day-5/src/lib.rs:108-111 | the fold follows any trace of stage-by-stage conversions |
| Almanac.ConvertFits | day-5/src/lib.rs:25-28 | a closed stage whose rules stay within `usize` converts a `usize` to a `usize` |
| Almanac.Locate | day-5/src/lib.rs:108-111 | closed stages never make the `unwrap` panic and keep the seed within `usize` |
| Almanac.FoldMin | day-5/src/lib.rs:113 | the minimum fold is at most its seed and every value, and is one of them |
| Almanac.Locations | day-5/src/lib.rs:104-112 | one location per seed, that seed folded through the stages |
| Almanac.LowestLocation | day-5/src/lib.rs:104-113 | the result is at most every seed's location and is one of them, or `usize::MAX` |
| Almanac.SeedPairs | day-5/src/lib.rs:153-155 | the pairs are (seeds[2i], seeds[2i+1]) for i below half the seed count |
| Almanac.WindowMin | day-5/src/lib.rs:157-170 | the inner fold is at most every location of the window and is one of them or its seed |
| Almanac.SeedRangesCons | day-5/src/lib.rs:153-176 | the enumerated seeds are those of the first pair and those of the rest |
| Almanac.PairsMin | day-5/src/lib.rs:153-176 | the outer fold is at most every enumerated seed's location and is one of them, its seed or `usize::MAX` |
| Almanac.LowestRangedLocation | day-5/src/lib.rs:153-176 | the result is the least location over every seed enumerated from the pairs, or `usize::MAX` |
| Almanac.TrailingSeedIgnored | day-5/src/lib.rs:153 | an odd trailing seed is ignored by Part 2 |
| Almanac.ParseNumbers | day-5/src/lib.rs:75-77 | one number per token, each the token's parse |
| Almanac.BodyParsesPrefix | day-5/src/lib.rs:69-84 | every prefix of a body that parses parses |
| Almanac.HeadersPrefix | day-5/src/lib.rs:80-83 | a prefix has no more headers than the whole |
| Almanac.Sections | day-5/src/lib.rs:69-84 | one more group than header lines |
| Almanac.FlattenSnoc | day-5/src/lib.rs:79 | the rows of one more group come last |
| Almanac.FlattenExtendLast | day-5/src/lib.rs:79 | pushing a row onto the last group appends it to the flattened groups |
| Almanac.SectionsKeepRows | day-5/src/lib.rs:73-79 | grouping keeps every rule row, in input order |
| Almanac.OpenStagesRow | day-5/src/lib.rs:79 | a row is pushed onto the open stage |
| Almanac.OpenStagesHeader | day-5/src/lib.rs:80-83 | a header closes the open stage with `Range::default()` and opens the next one |
| Almanac.CloseStages | day-5/src/lib.rs:85 | the last stage is closed with `Range::default()` |
| Almanac.SectionsStep | day-5/src/lib.rs:69-84 | one more body line, grouped |
| Almanac.StepBlank | day-5/src/lib.rs:70-72 | a blank line changes nothing |
| Almanac.StepRow | day-5/src/lib.rs:73-79 | a rule row is pushed onto the open stage |
| Almanac.StepHeader | day-5/src/lib.rs:80-83 | a header closes the open stage and bumps the index, which stays below 7 |
| Almanac.ParseInput | day-5/src/lib.rs:58-87 | the loop over `input.iter().skip(3)` returns the seeds and the seven stages the lines describe |
| Almanac.AlmanacOf | day-5/src/lib.rs:58-86 | there are seven stages; those the input opened hold its rule rows in order and end in `Range::default()`, and the rest are empty |
| Almanac.SectionsFit | day-5/src/lib.rs:74-79 | every group holds rows within `usize` |
| Almanac.FlattenContains | day-5/src/lib.rs:79 | every row of a group is among the flattened rows |
| Almanac.ParsedAlmanacTotal | day-5/src/lib.rs:66-86 | with all seven headers, every stage is closed, so every seed gets a location |
| Almanac.FindClosestSeed | day-5/src/lib.rs:101-114 | Part 1 on the parsed lines fits a `usize` and is at most the location of every seed; `LowestLocation` states that it is attained |
| Almanac.FindClosestSeedRanged | day-5/src/lib.rs:130-177 | Part 2 on the parsed lines fits a `usize` and is at most the location of every seed enumerated from the pairs |
| AlmanacSample.SampleTrace | day-5/src/lib.rs:111 | the fold follows a trace of seven conversions |
| AlmanacSample.SampleRangedBound | day-5/src/lib.rs:230-269 | every seed of the sample's pairs has location at least 46 |
| AlmanacSample.SampleLowestLocation | day-5/src/lib.rs:185-224 | Part 1 on the sample's seeds and stages gives 35 |
| AlmanacSample.SampleLowestRangedLocation | day-5/src/lib.rs:230-269 | Part 2 on the sample's seeds and stages gives 46 |

## Left out

- The `main.rs` files read the input file, take command-line arguments and
  print. That is I/O, outside the libraries.
- day-1/src/test.rs calls a signature no module declares and is not compiled.
  It is not part of this model.
- The commented-out code at day-5/src/lib.rs:133-151 is not part of this model.
- Machine integers are not modelled, because every value is an unbounded
  `nat`:
  - the `u32` sums of day 1 and the `usize` sums and products of days 2
    to 5;
  - the `as i32` casts of `is_neighbour`;
  - `pow` in `Card::score`;
  - `usize::MAX` appears only as the seed of the two minimum folds and as
    the length of `Range::default()`. `ConvertFits` and `Locate` state
    the bound that keeps the day-5 fold within `usize`.
- Panics become preconditions. `LinesOk`, `GameOk`, `EntriesOk`, `Parses`,
  `BodyParses` and `WinsFit` name the inputs for which the source does not
  panic, and the model says nothing about the others.
- Text.ParseUsize: a string of digits whose value exceeds `usize::MAX` parses
  here, where `parse::<usize>` returns an overflow error. Every number the
  model reads is therefore unbounded.
- CubeGame.GameOfId: the same missing bound means an id above `usize::MAX`
  is read as its value, where the source's `unwrap_or(0)` gives 0.
- Scratchcards.CardOf: a line that does not satisfy `LineOk` gets a
  placeholder card. `parse_input` panics on such a line, and every member
  that reads lines requires `LineOk`.
- `char::is_digit`, `to_digit` and `is_whitespace` are modelled on ASCII
  only. `split_at(4)` counts characters, which equals bytes on ASCII.
- CardRender.CardRoundTrip: covers card lines with non-empty lists written in
  two-character columns after `Card <n>:`, the layout of the puzzle input.
  Other spacings are read by the same functions but are not proved to round
  trip.
- The day-5 sample lemmas start from the parsed seeds and stages. The reading
  of the sample's text by `parse_input` is not proved.
- `Range::new` is the datatype constructor. The `Default` impls for `&Point`
  and `&Part` are the origin point and the empty part that `parse_input` uses
  when there is no last part.
