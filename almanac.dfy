/**
 * Day 5: an almanac of seven mapping stages (seed-to-soil ... humidity-to-location).
 * Each stage is a list of `Range` rules tried in order; a single seed is folded
 * through every stage, and the answer is the smallest final location.
 * Part 2 reads the seed list as `(start, length)` pairs and enumerates every
 * seed of every pair.
 */
module Almanac {
  import opened Text

  /** `usize::MAX` on a 64-bit target. */
  const USIZE_MAX: nat := 0xFFFF_FFFF_FFFF_FFFF

  /** The number of stages `parse_input` allocates. */
  const STAGE_COUNT: nat := 7

  /** One rule row `destination_start source_start length`. */
  datatype Range = Range(destinationStart: nat, sourceStart: nat, length: nat) {

    /** `Range::map`. The window is checked with `value > source_start + length`,
        so the upper end `source_start + length` itself is accepted. */
    function Map(value: nat): (r: Option<nat>)
      ensures r.Some? <==> sourceStart <= value <= sourceStart + length
      ensures r.Some? ==> destinationStart <= r.value <= destinationStart + length
      ensures r.Some? ==> r.value - destinationStart == value - sourceStart
    {
      if value < sourceStart then None
      else if value > sourceStart + length then None
      else Some(destinationStart + (value - sourceStart))
    }

    /** `Range::map_range`: both ends of `range`'s source window must be
        accepted; the result is `Range::new(start, end - start, range.length)`. */
    function MapRange(range: Range): (r: Option<Range>)
      ensures r.Some? <==>
                Map(range.sourceStart).Some? && Map(range.sourceStart + range.length).Some?
      ensures r.Some? ==>
                && r.value.destinationStart == Map(range.sourceStart).value
                && r.value.sourceStart == range.length
                && r.value.length == range.length
    {
      match Map(range.sourceStart)
      case None => None
      case Some(start) =>
        match Map(range.sourceStart + range.length)
        case None => None
        case Some(end) => Some(Range(start, end - start, range.length))
    }

    /** The same rule read from destination back to source. */
    function Inverse(): Range {
      Range(sourceStart, destinationStart, length)
    }
  }

  /** `Range::default()`: destination 0, source 0, length `usize::MAX`. */
  function Default(): Range {
    Range(0, 0, USIZE_MAX)
  }

  /** The default rule maps every `usize` to itself, and nothing above. */
  lemma DefaultMapsIdentity(v: nat)
    ensures v <= USIZE_MAX ==> Default().Map(v) == Some(v)
    ensures v > USIZE_MAX ==> Default().Map(v) == None
  {
  }

  /** `Range::from_vec`: the first three numbers of a row. */
  function FromVec(v: seq<nat>): (r: Range)
    requires |v| >= 3
    ensures r.destinationStart == v[0] && r.sourceStart == v[1] && r.length == v[2]
  {
    Range(v[0], v[1], v[2])
  }

  /** Reading a rule backwards undoes it. */
  lemma MapRoundTrip(r: Range, value: nat)
    requires r.Map(value).Some?
    ensures r.Inverse().Map(r.Map(value).value) == Some(value)
  {
  }

  // ---------------------------------------------------------------------------
  // convert_number

  /** Rule `k` is the first rule of `stage` that accepts `value`. */
  predicate FirstMatch(stage: seq<Range>, value: nat, k: nat) {
    && k < |stage|
    && stage[k].Map(value).Some?
    && forall j :: 0 <= j < k ==> stage[j].Map(value).None?
  }

  /** `convert_number` as a value: the first accepting rule wins. A stage
      whose last rule is `Range::default()` accepts every `usize`. */
  function Convert(value: nat, stage: seq<Range>): (r: Option<nat>)
    ensures value <= USIZE_MAX && stage != [] && stage[|stage| - 1] == Default() ==> r.Some?
  {
    if stage == [] then None
    else match stage[0].Map(value)
      case Some(v) => Some(v)
      case None =>
        DefaultMapsIdentity(value);
        Convert(value, stage[1..])
  }

  /** `convert_number` returns the mapping of the first rule that accepts the
      value, and `None` exactly when no rule accepts it. */
  lemma {:induction false} ConvertIsFirstMatch(value: nat, stage: seq<Range>)
    ensures Convert(value, stage).None? <==>
              forall k :: 0 <= k < |stage| ==> stage[k].Map(value).None?
    ensures Convert(value, stage).Some? ==>
              exists k: nat :: FirstMatch(stage, value, k) && Convert(value, stage) == stage[k].Map(value)
  {
    if stage != [] && stage[0].Map(value).None? {
      var rest := stage[1..];
      ConvertIsFirstMatch(value, rest);
      assert forall k :: 1 <= k < |stage| ==> stage[k] == rest[k - 1];
      if Convert(value, rest).Some? {
        var k: nat :| FirstMatch(rest, value, k) && Convert(value, rest) == rest[k].Map(value);
        assert stage[k + 1] == rest[k];
        forall j | 0 <= j < k + 1 ensures stage[j].Map(value).None? {
          if j > 0 { assert stage[j] == rest[j - 1]; }
        }
        assert FirstMatch(stage, value, k + 1);
      }
    } else if stage != [] {
      assert FirstMatch(stage, value, 0);
    }
  }

  /** Conversely, the first accepting rule decides the conversion. */
  lemma {:induction false} FirstMatchConverts(value: nat, stage: seq<Range>, k: nat)
    requires FirstMatch(stage, value, k)
    ensures Convert(value, stage) == stage[k].Map(value)
    decreases k
  {
    if k > 0 {
      var rest := stage[1..];
      assert FirstMatch(rest, value, k - 1) by {
        forall j | 0 <= j < k - 1 ensures rest[j].Map(value).None? {
          assert rest[j] == stage[j + 1];
        }
      }
      FirstMatchConverts(value, rest, k - 1);
    }
  }

  /** `part_1::convert_number` (`part_2::convert_number` is the same code):
      a `for` loop over the rules that returns the first `Some`. */
  method ConvertNumber(input: nat, ranges: seq<Range>) returns (r: Option<nat>)
    ensures r == Convert(input, ranges)
  {
    for k := 0 to |ranges|
      invariant Convert(input, ranges) == Convert(input, ranges[k..])
    {
      assert ranges[k..][1..] == ranges[k + 1..];
      var result := ranges[k].Map(input);
      if result.Some? {
        return result;
      }
    }
    assert ranges[|ranges|..] == [];
    return None;
  }

  // ---------------------------------------------------------------------------
  // Folding a seed through the stages

  /** `range_store.iter().fold(seed, |acc, ranges| convert_number(acc, ranges).unwrap())`,
      with `None` where the source's `unwrap` would panic. Closed stages never
      make the `unwrap` panic, and map a `usize` seed to a `usize` location. */
  function Locate(seed: nat, stages: seq<seq<Range>>): (r: Option<nat>)
    ensures seed <= USIZE_MAX && ClosedStages(stages) ==> r.Some? && r.value <= USIZE_MAX
    decreases |stages|
  {
    if stages == [] then Some(seed)
    else
      var closed := seed <= USIZE_MAX && ClosedStages(stages);
      assert closed ==> Convert(seed, stages[0]).Some? && Convert(seed, stages[0]).value <= USIZE_MAX by {
        if closed {
          ConvertFits(seed, stages[0]);
        }
      }
      match Convert(seed, stages[0])
      case None => None
      case Some(v) =>
        assert closed ==> ClosedStages(stages[1..]) by {
          if closed {
            forall i | 0 <= i < |stages| - 1
              ensures stages[1..][i] != [] && stages[1..][i][|stages[1..][i]| - 1] == Default()
              ensures FitsUsize(stages[1..][i])
            {
              assert stages[1..][i] == stages[i + 1];
            }
          }
        }
        Locate(v, stages[1..])
  }

  /** Folding through two lists of stages is folding through the first, then
      through the second. */
  lemma {:induction false} LocateAppend(seed: nat, first: seq<seq<Range>>, second: seq<seq<Range>>)
    ensures Locate(seed, first + second) ==
              match Locate(seed, first)
              case None => None
              case Some(v) => Locate(v, second)
    decreases |first|
  {
    if first == [] {
      assert first + second == second;
    } else {
      assert (first + second)[0] == first[0];
      assert (first + second)[1..] == first[1..] + second;
      match Convert(seed, first[0])
      case None =>
      case Some(v) => LocateAppend(v, first[1..], second);
    }
  }

  /** The fold follows a trace: when stage `i` converts `trace[i]` to
      `trace[i + 1]` for every stage, the seed `trace[0]` ends at the last
      element of the trace. */
  lemma {:induction false} LocateTrace(stages: seq<seq<Range>>, trace: seq<nat>)
    requires |trace| == |stages| + 1
    requires forall i :: 0 <= i < |stages| ==> Convert(trace[i], stages[i]) == Some(trace[i + 1])
    ensures Locate(trace[0], stages) == Some(trace[|stages|])
    decreases |stages|
  {
    if stages != [] {
      assert Convert(trace[0], stages[0]) == Some(trace[1]);
      var rest, tail := stages[1..], trace[1..];
      assert forall i :: 0 <= i < |rest| ==> rest[i] == stages[i + 1] && tail[i] == trace[i + 1];
      LocateTrace(rest, tail);
    }
  }

  /** Every rule's destination window stays within `usize`. */
  predicate FitsUsize(stage: seq<Range>) {
    forall k :: 0 <= k < |stage| ==> stage[k].destinationStart + stage[k].length <= USIZE_MAX
  }

  /** A stage ending in `Range::default()` whose rules stay within `usize`
      maps every `usize` to a `usize`. */
  lemma ConvertFits(value: nat, stage: seq<Range>)
    requires value <= USIZE_MAX
    requires stage != [] && stage[|stage| - 1] == Default() && FitsUsize(stage)
    ensures Convert(value, stage).Some? && Convert(value, stage).value <= USIZE_MAX
  {
    ConvertIsFirstMatch(value, stage);
    var k: nat :| FirstMatch(stage, value, k) && Convert(value, stage) == stage[k].Map(value);
    assert Convert(value, stage).value <= stage[k].destinationStart + stage[k].length;
  }

  /** Every stage ends in `Range::default()` and stays within `usize`. */
  predicate ClosedStages(stages: seq<seq<Range>>) {
    forall i :: 0 <= i < |stages| ==>
      stages[i] != [] && stages[i][|stages[i]| - 1] == Default() && FitsUsize(stages[i])
  }

  // ---------------------------------------------------------------------------
  // Minima

  /** `.fold(acc, |acc, s| if s < acc { s } else { acc })`. */
  function FoldMin(acc: nat, xs: seq<nat>): (r: nat)
    ensures r <= acc
    ensures forall i :: 0 <= i < |xs| ==> r <= xs[i]
    ensures r == acc || exists i :: 0 <= i < |xs| && r == xs[i]
  {
    if xs == [] then acc
    else
      var r := FoldMin(if xs[0] < acc then xs[0] else acc, xs[1..]);
      assert forall i :: 1 <= i < |xs| ==> xs[1..][i - 1] == xs[i];
      r
  }

  /** The input after parsing: the seeds and the seven stages. */
  datatype Input = Input(seeds: seq<nat>, rangeStore: seq<seq<Range>>)

  predicate AllLocate(seeds: seq<nat>, stages: seq<seq<Range>>) {
    forall i :: 0 <= i < |seeds| ==> Locate(seeds[i], stages).Some?
  }

  /** The location of every seed, in seed order. */
  function Locations(seeds: seq<nat>, stages: seq<seq<Range>>): (ls: seq<nat>)
    requires AllLocate(seeds, stages)
    ensures |ls| == |seeds|
    ensures forall i :: 0 <= i < |seeds| ==> Some(ls[i]) == Locate(seeds[i], stages)
  {
    seq(|seeds|, i requires 0 <= i < |seeds| => Locate(seeds[i], stages).value)
  }

  /** The body of `part_1::find_closest_seed` after parsing: the least
      location of the listed seeds, or `usize::MAX` when there is none smaller. */
  function LowestLocation(input: Input): (r: nat)
    requires AllLocate(input.seeds, input.rangeStore)
    ensures r <= USIZE_MAX
    ensures forall i :: 0 <= i < |input.seeds| ==> Some(r) == Locate(input.seeds[i], input.rangeStore)
                                                   || r < Locate(input.seeds[i], input.rangeStore).value
    ensures r == USIZE_MAX ||
            exists i :: 0 <= i < |input.seeds| && Some(r) == Locate(input.seeds[i], input.rangeStore)
  {
    var ls := Locations(input.seeds, input.rangeStore);
    FoldMin(USIZE_MAX, ls)
  }

  /** Part 2 reads the seed list as `(seeds[2i], seeds[2i+1])` pairs; an odd
      trailing seed belongs to no pair. */
  function SeedPairs(seeds: seq<nat>): (pairs: seq<(nat, nat)>)
    ensures |pairs| == |seeds| / 2
    ensures forall i :: 0 <= i < |pairs| ==> pairs[i] == (seeds[2 * i], seeds[2 * i + 1])
  {
    seq(|seeds| / 2, i requires 0 <= i < |seeds| / 2 => (seeds[2 * i], seeds[2 * i + 1]))
  }

  /** `s` is enumerated by `seed_range_start..(seed_range_start + seed_range_len)`
      for some pair. */
  predicate InSeedRanges(pairs: seq<(nat, nat)>, s: nat) {
    exists i :: 0 <= i < |pairs| && pairs[i].0 <= s < pairs[i].0 + pairs[i].1
  }

  predicate WindowLocates(start: nat, len: nat, stages: seq<seq<Range>>) {
    forall s :: start <= s < start + len ==> Locate(s, stages).Some?
  }

  /** Some seed of the window `start <= s < start + len` has location `r`. */
  ghost predicate WindowAttains(r: nat, start: nat, len: nat, stages: seq<seq<Range>>) {
    exists s: nat :: start <= s < start + len && Some(r) == Locate(s, stages)
  }

  /** The inner fold of `part_2::find_closest_seed`: every seed
      `start <= s < start + len` is folded through the stages, in increasing order. */
  function WindowMin(acc: nat, start: nat, len: nat, stages: seq<seq<Range>>): (r: nat)
    requires WindowLocates(start, len, stages)
    ensures r <= acc
    ensures forall s :: start <= s < start + len ==> r <= Locate(s, stages).value
    ensures r == acc || WindowAttains(r, start, len, stages)
    decreases len
  {
    if len == 0 then acc
    else
      var here := Locate(start, stages).value;
      var acc' := if here < acc then here else acc;
      var m := WindowMin(acc', start + 1, len - 1, stages);
      assert m == acc || WindowAttains(m, start, len, stages) by {
        if m == acc' && here < acc {
          assert Some(m) == Locate(start, stages);
        } else if m != acc' {
          var s: nat :| start + 1 <= s < start + len && Some(m) == Locate(s, stages);
          assert start <= s;
        }
      }
      m
  }

  ghost predicate PairsLocate(pairs: seq<(nat, nat)>, stages: seq<seq<Range>>) {
    forall s :: InSeedRanges(pairs, s) ==> Locate(s, stages).Some?
  }

  /** Some enumerated seed has location `r`. */
  ghost predicate PairsAttain(r: nat, pairs: seq<(nat, nat)>, stages: seq<seq<Range>>) {
    exists s: nat :: InSeedRanges(pairs, s) && Some(r) == Locate(s, stages)
  }

  /** The seeds of `pairs` are those of its first pair and those of the rest. */
  lemma SeedRangesCons(pairs: seq<(nat, nat)>, s: nat)
    requires pairs != []
    ensures InSeedRanges(pairs, s) <==>
              (pairs[0].0 <= s < pairs[0].0 + pairs[0].1) || InSeedRanges(pairs[1..], s)
  {
    var rest := pairs[1..];
    if InSeedRanges(rest, s) {
      var i :| 0 <= i < |rest| && rest[i].0 <= s < rest[i].0 + rest[i].1;
      assert pairs[i + 1] == rest[i];
    }
    if InSeedRanges(pairs, s) {
      var i :| 0 <= i < |pairs| && pairs[i].0 <= s < pairs[i].0 + pairs[i].1;
      if i > 0 { assert rest[i - 1] == pairs[i]; }
    }
  }

  /** The outer fold of `part_2::find_closest_seed`: one `WindowMin` from
      `usize::MAX` per pair, combined with the running minimum. */
  function PairsMin(acc: nat, pairs: seq<(nat, nat)>, stages: seq<seq<Range>>): (r: nat)
    requires PairsLocate(pairs, stages)
    ensures r <= acc
    ensures forall s :: InSeedRanges(pairs, s) ==> r <= Locate(s, stages).value
    ensures r == acc || r == USIZE_MAX || PairsAttain(r, pairs, stages)
  {
    if pairs == [] then acc
    else
      var (start, len) := pairs[0];
      var rest := pairs[1..];
      assert WindowLocates(start, len, stages) by {
        forall s | start <= s < start + len ensures Locate(s, stages).Some? {
          SeedRangesCons(pairs, s);
        }
      }
      assert PairsLocate(rest, stages) by {
        forall s | InSeedRanges(rest, s) ensures Locate(s, stages).Some? {
          SeedRangesCons(pairs, s);
        }
      }
      var next := WindowMin(USIZE_MAX, start, len, stages);
      var acc' := if next < acc then next else acc;
      var m := PairsMin(acc', rest, stages);
      assert forall s :: InSeedRanges(pairs, s) ==> m <= Locate(s, stages).value by {
        forall s | InSeedRanges(pairs, s) ensures m <= Locate(s, stages).value {
          SeedRangesCons(pairs, s);
        }
      }
      assert m == acc || m == USIZE_MAX || PairsAttain(m, pairs, stages) by {
        if m == acc' && next < acc && next != USIZE_MAX {
          var s: nat :| start <= s < start + len && Some(next) == Locate(s, stages);
          SeedRangesCons(pairs, s);
        } else if m != acc' && m != USIZE_MAX {
          var s: nat :| InSeedRanges(rest, s) && Some(m) == Locate(s, stages);
          SeedRangesCons(pairs, s);
        }
      }
      m
  }

  /** The body of `part_2::find_closest_seed` after parsing: the least location
      over every enumerated seed, or `usize::MAX` when there is none smaller. */
  function LowestRangedLocation(input: Input): (r: nat)
    requires PairsLocate(SeedPairs(input.seeds), input.rangeStore)
    ensures r <= USIZE_MAX
    ensures forall s :: InSeedRanges(SeedPairs(input.seeds), s) ==> r <= Locate(s, input.rangeStore).value
    ensures r == USIZE_MAX || PairsAttain(r, SeedPairs(input.seeds), input.rangeStore)
  {
    PairsMin(USIZE_MAX, SeedPairs(input.seeds), input.rangeStore)
  }

  /** An odd trailing seed is ignored by Part 2. */
  lemma TrailingSeedIgnored(seeds: seq<nat>, extra: nat)
    requires |seeds| % 2 == 0
    ensures SeedPairs(seeds + [extra]) == SeedPairs(seeds)
  {
    var a, b := SeedPairs(seeds + [extra]), SeedPairs(seeds);
    assert |a| == |b|;
    forall i | 0 <= i < |a| ensures a[i] == b[i] {
      assert (seeds + [extra])[2 * i] == seeds[2 * i];
      assert (seeds + [extra])[2 * i + 1] == seeds[2 * i + 1];
    }
  }

  // ---------------------------------------------------------------------------
  // parse_input

  /** A rule row: a non-empty line whose first character is a digit. */
  predicate IsRowLine(line: string) {
    line != [] && IsDigit(line[0])
  }

  /** A header: a non-empty line whose first character is not a digit. */
  predicate IsHeaderLine(line: string) {
    line != [] && !IsDigit(line[0])
  }

  /** Every token passes `parse::<usize>().unwrap()`. */
  predicate AllParse(tokens: seq<string>) {
    forall i :: 0 <= i < |tokens| ==> ParseUsize(tokens[i]).Some?
  }

  /** `.map(|s| s.parse::<usize>().unwrap()).collect()`. */
  function ParseNumbers(tokens: seq<string>): (ns: seq<nat>)
    requires AllParse(tokens)
    ensures |ns| == |tokens|
    ensures forall i :: 0 <= i < |tokens| ==> ParseUsize(tokens[i]) == Some(ns[i])
  {
    seq(|tokens|, i requires 0 <= i < |tokens| => ParseUsize(tokens[i]).value)
  }

  /** The space-separated numbers of a row parse and there are at least three. */
  predicate RowParses(line: string) {
    var tokens := Split(line, " ");
    AllParse(tokens) && |tokens| >= 3
  }

  /** The rule a row line denotes. */
  function RowOf(line: string): Range
    requires RowParses(line)
  {
    FromVec(ParseNumbers(Split(line, " ")))
  }

  /** Every rule row among `body` can be read without a panic. */
  predicate BodyParses(body: seq<string>) {
    forall i :: 0 <= i < |body| && IsRowLine(body[i]) ==> RowParses(body[i])
  }

  lemma BodyParsesPrefix(body: seq<string>, k: nat)
    requires BodyParses(body) && k <= |body|
    ensures BodyParses(body[..k])
  {
    assert forall i :: 0 <= i < k ==> body[..k][i] == body[i];
  }

  /** The lines `input.iter().skip(3)` yields. */
  function Body(lines: seq<string>): seq<string> {
    if |lines| <= 3 then [] else lines[3..]
  }

  /** The number of header lines. */
  function Headers(body: seq<string>): nat {
    if body == [] then 0
    else Headers(body[..|body| - 1]) + if IsHeaderLine(body[|body| - 1]) then 1 else 0
  }

  lemma {:induction false} HeadersPrefix(body: seq<string>, k: nat)
    requires k <= |body|
    ensures Headers(body[..k]) <= Headers(body)
    decreases |body| - k
  {
    if k < |body| {
      HeadersPrefix(body, k + 1);
      assert body[..k + 1][..k] == body[..k];
    } else {
      assert body[..k] == body;
    }
  }

  /** The rule rows of `body`, in input order. */
  function Rows(body: seq<string>): seq<Range>
    requires BodyParses(body)
  {
    if body == [] then []
    else
      BodyParsesPrefix(body, |body| - 1);
      var line := body[|body| - 1];
      Rows(body[..|body| - 1]) + if IsRowLine(line) then [RowOf(line)] else []
  }

  /** The rule rows of `body` grouped by the header lines between them: one
      group before the first header and one after each header. */
  function Sections(body: seq<string>): (sections: seq<seq<Range>>)
    requires BodyParses(body)
    ensures |sections| == Headers(body) + 1
  {
    if body == [] then [[]]
    else
      BodyParsesPrefix(body, |body| - 1);
      var prev := Sections(body[..|body| - 1]);
      var line := body[|body| - 1];
      if line == [] then prev
      else if IsDigit(line[0]) then prev[..|prev| - 1] + [prev[|prev| - 1] + [RowOf(line)]]
      else prev + [[]]
  }

  function Flatten(groups: seq<seq<Range>>): seq<Range> {
    if groups == [] then [] else Flatten(groups[..|groups| - 1]) + groups[|groups| - 1]
  }

  lemma FlattenSnoc(groups: seq<seq<Range>>, g: seq<Range>)
    ensures Flatten(groups + [g]) == Flatten(groups) + g
  {
    assert (groups + [g])[..|groups|] == groups;
  }

  /** Appending a row to the last group appends it to the flattened groups. */
  lemma FlattenExtendLast(groups: seq<seq<Range>>, row: Range)
    requires groups != []
    ensures var n := |groups| - 1;
            Flatten(groups[..n] + [groups[n] + [row]]) == Flatten(groups) + [row]
  {
    var n := |groups| - 1;
    assert groups == groups[..n] + [groups[n]];
    FlattenSnoc(groups[..n], groups[n]);
    FlattenSnoc(groups[..n], groups[n] + [row]);
  }

  /** Grouping keeps every rule row, in input order: the groups read one after
      another are the rows of the body. */
  lemma {:induction false} SectionsKeepRows(body: seq<string>)
    requires BodyParses(body)
    ensures Flatten(Sections(body)) == Rows(body)
  {
    if body != [] {
      var prefix := body[..|body| - 1];
      BodyParsesPrefix(body, |body| - 1);
      SectionsKeepRows(prefix);
      var line := body[|body| - 1];
      if IsRowLine(line) {
        FlattenExtendLast(Sections(prefix), RowOf(line));
      } else if line != [] {
        FlattenSnoc(Sections(prefix), []);
      }
    }
  }

  /** The seven stages `parse_input` leaves: each group closed with
      `Range::default()`, and the stages no header reached left empty. */
  function StagesOf(sections: seq<seq<Range>>): seq<seq<Range>>
    requires |sections| <= STAGE_COUNT
  {
    seq(STAGE_COUNT, i requires 0 <= i < STAGE_COUNT =>
      if i < |sections| then sections[i] + [Default()] else [])
  }

  /** `input[0].split(": ").nth(1).unwrap()` exists and each of its
      space-separated seeds parses. */
  predicate SeedsParse(line: string) {
    var pieces := Split(line, ": ");
    |pieces| >= 2 && AllParse(Split(pieces[1], " "))
  }

  function SeedsOf(line: string): seq<nat>
    requires SeedsParse(line)
  {
    ParseNumbers(Split(Split(line, ": ")[1], " "))
  }

  /** What `parse_input` needs of its input not to panic: a seed line whose
      numbers parse, rule rows of at least three numbers, and at most six
      headers after the first three lines (one more would index stage 7). */
  predicate Parses(lines: seq<string>) {
    && |lines| >= 1
    && SeedsParse(lines[0])
    && BodyParses(Body(lines))
    && Headers(Body(lines)) < STAGE_COUNT
  }

  /** The specification of `parse_input`. There are seven stages; the first
      `headers + 1` are the groups of rule rows in input order, each closed
      with `Range::default()`, and the rest are empty. */
  function AlmanacOf(lines: seq<string>): (input: Input)
    requires Parses(lines)
    ensures var stages := input.rangeStore;
            var sections := Sections(Body(lines));
            && |stages| == STAGE_COUNT
            && (forall i :: 0 <= i < |sections| ==>
                  stages[i] == sections[i] + [Default()] && stages[i][|stages[i]| - 1] == Default())
            && (forall i :: |sections| <= i < STAGE_COUNT ==> stages[i] == [])
            && Flatten(sections) == Rows(Body(lines))
  {
    SectionsKeepRows(Body(lines));
    Input(SeedsOf(lines[0]), StagesOf(Sections(Body(lines))))
  }

  /** The stage store while the loop is at a given point: the groups already
      closed by a header end in `Range::default()`, the current one is open. */
  function OpenStages(sections: seq<seq<Range>>): seq<seq<Range>>
    requires 1 <= |sections| <= STAGE_COUNT
  {
    seq(STAGE_COUNT, i requires 0 <= i < STAGE_COUNT =>
      if i < |sections| - 1 then sections[i] + [Default()]
      else if i == |sections| - 1 then sections[i]
      else [])
  }

  lemma OpenStagesRow(sections: seq<seq<Range>>, range: Range)
    requires 1 <= |sections| <= STAGE_COUNT
    ensures var n := |sections| - 1;
            OpenStages(sections[..n] + [sections[n] + [range]]) ==
              OpenStages(sections)[n := OpenStages(sections)[n] + [range]]
  {
  }

  lemma OpenStagesHeader(sections: seq<seq<Range>>)
    requires 1 <= |sections| < STAGE_COUNT
    ensures var n := |sections| - 1;
            OpenStages(sections + [[]]) == OpenStages(sections)[n := OpenStages(sections)[n] + [Default()]]
  {
  }

  lemma CloseStages(sections: seq<seq<Range>>)
    requires 1 <= |sections| <= STAGE_COUNT
    ensures var n := |sections| - 1;
            StagesOf(sections) == OpenStages(sections)[n := OpenStages(sections)[n] + [Default()]]
  {
  }

  /** One more line of the body, as the specification groups it. */
  lemma SectionsStep(body: seq<string>, k: nat)
    requires BodyParses(body) && k < |body|
    ensures BodyParses(body[..k]) && BodyParses(body[..k + 1])
    ensures var prev := Sections(body[..k]);
            var line := body[k];
            Sections(body[..k + 1]) ==
              if line == [] then prev
              else if IsDigit(line[0]) then prev[..|prev| - 1] + [prev[|prev| - 1] + [RowOf(line)]]
              else prev + [[]]
    ensures Headers(body[..k + 1]) == Headers(body[..k]) + if IsHeaderLine(body[k]) then 1 else 0
  {
    BodyParsesPrefix(body, k);
    BodyParsesPrefix(body, k + 1);
    assert body[..k + 1][..k] == body[..k];
  }

  /** A blank line changes nothing. */
  lemma StepBlank(body: seq<string>, k: nat)
    requires BodyParses(body) && k < |body| && body[k] == []
    ensures BodyParses(body[..k + 1])
    ensures Headers(body[..k + 1]) == Headers(body[..k])
    ensures Sections(body[..k + 1]) == Sections(body[..k])
  {
    SectionsStep(body, k);
  }

  /** A rule row is pushed onto the open stage. */
  lemma StepRow(body: seq<string>, k: nat)
    requires BodyParses(body) && k < |body| && IsRowLine(body[k])
    requires Headers(body[..k]) < STAGE_COUNT
    ensures BodyParses(body[..k]) && BodyParses(body[..k + 1]) && RowParses(body[k])
    ensures Headers(body[..k + 1]) == Headers(body[..k])
    ensures var open := OpenStages(Sections(body[..k]));
            var n := Headers(body[..k]);
            OpenStages(Sections(body[..k + 1])) == open[n := open[n] + [RowOf(body[k])]]
  {
    SectionsStep(body, k);
    OpenStagesRow(Sections(body[..k]), RowOf(body[k]));
  }

  /** A header closes the open stage with `Range::default()` and opens the next. */
  lemma StepHeader(body: seq<string>, k: nat)
    requires BodyParses(body) && k < |body| && IsHeaderLine(body[k])
    requires Headers(body) < STAGE_COUNT
    ensures BodyParses(body[..k]) && BodyParses(body[..k + 1])
    ensures Headers(body[..k + 1]) == Headers(body[..k]) + 1 < STAGE_COUNT
    ensures var open := OpenStages(Sections(body[..k]));
            var n := Headers(body[..k]);
            OpenStages(Sections(body[..k + 1])) == open[n := open[n] + [Default()]]
  {
    SectionsStep(body, k);
    HeadersPrefix(body, k + 1);
    OpenStagesHeader(Sections(body[..k]));
  }

  /** `parse_input`: the loop over `input.iter().skip(3)` that pushes rule rows
      onto `range_store[index]`, closes the stage with `Range::default()` and
      bumps `index` at each header, and closes the last stage at the end. */
  method ParseInput(input: seq<string>) returns (r: Input)
    requires Parses(input)
    ensures r == AlmanacOf(input)
  {
    var seeds := SeedsOf(input[0]);
    var rangeStore: seq<seq<Range>> := seq(STAGE_COUNT, _ => []);
    var index := 0;
    var body := Body(input);
    assert body[..0] == [];
    assert rangeStore == OpenStages(Sections(body[..0]));
    for k := 0 to |body|
      invariant index == Headers(body[..k]) < STAGE_COUNT
      invariant rangeStore == OpenStages(Sections(body[..k]))
    {
      var line := body[k];
      if line == [] {
        StepBlank(body, k);
        continue;
      }
      if IsDigit(line[0]) {
        StepRow(body, k);
        var range := RowOf(line);
        rangeStore := rangeStore[index := rangeStore[index] + [range]];
      } else {
        StepHeader(body, k);
        rangeStore := rangeStore[index := rangeStore[index] + [Default()]];
        index := index + 1;
      }
    }
    assert body[..|body|] == body;
    CloseStages(Sections(body));
    rangeStore := rangeStore[index := rangeStore[index] + [Default()]];
    return Input(seeds, rangeStore);
  }

  /** Every rule row stays within `usize`. */
  predicate RowsFit(body: seq<string>)
    requires BodyParses(body)
  {
    FitsUsize(Rows(body))
  }

  lemma {:induction false} SectionsFit(body: seq<string>)
    requires BodyParses(body) && RowsFit(body)
    ensures forall i :: 0 <= i < |Sections(body)| ==> FitsUsize(Sections(body)[i])
  {
    var sections := Sections(body);
    SectionsKeepRows(body);
    forall i | 0 <= i < |sections| ensures FitsUsize(sections[i]) {
      FlattenContains(sections, i);
    }
  }

  lemma {:induction false} FlattenContains(groups: seq<seq<Range>>, i: nat)
    requires i < |groups|
    ensures forall k :: 0 <= k < |groups[i]| ==> groups[i][k] in Flatten(groups)
  {
    var last := |groups| - 1;
    if i < last {
      FlattenContains(groups[..last], i);
      assert groups[..last][i] == groups[i];
    }
  }

  /** An input with all seven headers (six after the skipped lines), rule rows
      within `usize` and `usize` seeds never makes `find_closest_seed` panic:
      every seed folds through all seven stages. */
  lemma ParsedAlmanacTotal(lines: seq<string>)
    requires Parses(lines) && Headers(Body(lines)) == STAGE_COUNT - 1
    requires RowsFit(Body(lines))
    requires forall i :: 0 <= i < |AlmanacOf(lines).seeds| ==> AlmanacOf(lines).seeds[i] <= USIZE_MAX
    ensures AllLocate(AlmanacOf(lines).seeds, AlmanacOf(lines).rangeStore)
  {
    var input := AlmanacOf(lines);
    var sections := Sections(Body(lines));
    SectionsFit(Body(lines));
    assert ClosedStages(input.rangeStore) by {
      forall i | 0 <= i < |input.rangeStore|
        ensures input.rangeStore[i] != [] && input.rangeStore[i][|input.rangeStore[i]| - 1] == Default()
        ensures FitsUsize(input.rangeStore[i])
      {
        assert input.rangeStore[i] == sections[i] + [Default()];
      }
    }
  }

  /** `part_1::find_closest_seed`. */
  function FindClosestSeed(lines: seq<string>): (r: nat)
    requires Parses(lines)
    requires AllLocate(AlmanacOf(lines).seeds, AlmanacOf(lines).rangeStore)
    ensures r <= USIZE_MAX
    ensures forall i :: 0 <= i < |AlmanacOf(lines).seeds| ==>
              r <= Locate(AlmanacOf(lines).seeds[i], AlmanacOf(lines).rangeStore).value
  {
    LowestLocation(AlmanacOf(lines))
  }

  /** `part_2::find_closest_seed`. */
  function FindClosestSeedRanged(lines: seq<string>): (r: nat)
    requires Parses(lines)
    requires PairsLocate(SeedPairs(AlmanacOf(lines).seeds), AlmanacOf(lines).rangeStore)
    ensures r <= USIZE_MAX
    ensures forall s :: InSeedRanges(SeedPairs(AlmanacOf(lines).seeds), s) ==>
              r <= Locate(s, AlmanacOf(lines).rangeStore).value
  {
    LowestRangedLocation(AlmanacOf(lines))
  }
}
