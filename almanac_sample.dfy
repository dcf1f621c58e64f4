/**
 * The puzzle's sample almanac after parsing: seeds `79 14 55 13` and the seven
 * maps of the sample. The lowest location is 35 for Part 1 and 46 for Part 2.
 * Both answers are proved below through the model, under the inclusive upper
 * bound of `Range::map`.
 */
module AlmanacSample {
  import opened Text
  import opened Almanac

  function SampleSeeds(): seq<nat> { [79, 14, 55, 13] }

  function SeedToSoil(): seq<Range> {
    [Range(50, 98, 2), Range(52, 50, 48), Default()]
  }
  function SoilToFertilizer(): seq<Range> {
    [Range(0, 15, 37), Range(37, 52, 2), Range(39, 0, 15), Default()]
  }
  function FertilizerToWater(): seq<Range> {
    [Range(49, 53, 8), Range(0, 11, 42), Range(42, 0, 7), Range(57, 7, 4), Default()]
  }
  function WaterToLight(): seq<Range> {
    [Range(88, 18, 7), Range(18, 25, 70), Default()]
  }
  function LightToTemperature(): seq<Range> {
    [Range(45, 77, 23), Range(81, 45, 19), Range(68, 64, 13), Default()]
  }
  function TemperatureToHumidity(): seq<Range> {
    [Range(0, 69, 1), Range(1, 0, 69), Default()]
  }
  function HumidityToLocation(): seq<Range> {
    [Range(60, 56, 37), Range(56, 93, 4), Default()]
  }

  /** The seven stages `parse_input` builds from the sample. */
  predicate IsSample(stages: seq<seq<Range>>) {
    && |stages| == STAGE_COUNT
    && stages[0] == SeedToSoil() && stages[1] == SoilToFertilizer()
    && stages[2] == FertilizerToWater() && stages[3] == WaterToLight()
    && stages[4] == LightToTemperature() && stages[5] == TemperatureToHumidity()
    && stages[6] == HumidityToLocation()
  }

  // ---------------------------------------------------------------------------
  // What each sample map does on the windows the seeds pass through

  lemma SeedToSoilKeep(stage: seq<Range>, v: nat)
    requires stage == SeedToSoil() && v < 50
    ensures Convert(v, stage) == Some(v)
  {
    assert stage[0] == Range(50, 98, 2);
    assert stage[1] == Range(52, 50, 48);
    assert stage[2] == Default();
    assert stage[0].Map(v).None?;
    assert stage[1].Map(v).None?;
    assert stage[2].Map(v) == Some(v);
    FirstMatchConverts(v, stage, 2);
  }

  lemma SeedToSoilShift(stage: seq<Range>, v: nat)
    requires stage == SeedToSoil() && 50 <= v < 98
    ensures Convert(v, stage) == Some(v + 2)
  {
    assert stage[0] == Range(50, 98, 2);
    assert stage[1] == Range(52, 50, 48);
    assert stage[0].Map(v).None?;
    assert stage[1].Map(v) == Some(v + 2);
    FirstMatchConverts(v, stage, 1);
  }

  lemma SoilToFertilizerLow(stage: seq<Range>, v: nat)
    requires stage == SoilToFertilizer() && v <= 14
    ensures Convert(v, stage) == Some(v + 39)
  {
    assert stage[0] == Range(0, 15, 37);
    assert stage[1] == Range(37, 52, 2);
    assert stage[2] == Range(39, 0, 15);
    assert stage[0].Map(v).None?;
    assert stage[1].Map(v).None?;
    assert stage[2].Map(v) == Some(v + 39);
    FirstMatchConverts(v, stage, 2);
  }

  lemma SoilToFertilizerKeep(stage: seq<Range>, v: nat)
    requires stage == SoilToFertilizer() && 55 <= v <= USIZE_MAX
    ensures Convert(v, stage) == Some(v)
  {
    assert stage[0] == Range(0, 15, 37);
    assert stage[1] == Range(37, 52, 2);
    assert stage[2] == Range(39, 0, 15);
    assert stage[3] == Default();
    assert stage[0].Map(v).None?;
    assert stage[1].Map(v).None?;
    assert stage[2].Map(v).None?;
    assert stage[3].Map(v) == Some(v);
    FirstMatchConverts(v, stage, 3);
  }

  lemma FertilizerToWaterMid(stage: seq<Range>, v: nat)
    requires stage == FertilizerToWater() && 11 <= v <= 52
    ensures Convert(v, stage) == Some(v - 11)
  {
    assert stage[0] == Range(49, 53, 8);
    assert stage[1] == Range(0, 11, 42);
    assert stage[0].Map(v).None?;
    assert stage[1].Map(v) == Some(v - 11);
    FirstMatchConverts(v, stage, 1);
  }

  lemma FertilizerToWaterShift(stage: seq<Range>, v: nat)
    requires stage == FertilizerToWater() && 53 <= v <= 61
    ensures Convert(v, stage) == Some(v - 4)
  {
    assert stage[0] == Range(49, 53, 8);
    assert stage[0].Map(v) == Some(v - 4);
    FirstMatchConverts(v, stage, 0);
  }

  lemma FertilizerToWaterKeep(stage: seq<Range>, v: nat)
    requires stage == FertilizerToWater() && 62 <= v <= USIZE_MAX
    ensures Convert(v, stage) == Some(v)
  {
    assert stage[0] == Range(49, 53, 8);
    assert stage[1] == Range(0, 11, 42);
    assert stage[2] == Range(42, 0, 7);
    assert stage[3] == Range(57, 7, 4);
    assert stage[4] == Default();
    assert stage[0].Map(v).None?;
    assert stage[1].Map(v).None?;
    assert stage[2].Map(v).None?;
    assert stage[3].Map(v).None?;
    assert stage[4].Map(v) == Some(v);
    FirstMatchConverts(v, stage, 4);
  }

  /** 25 itself is taken by the first rule, whose window ends at 18 + 7. */
  lemma WaterToLightShift(stage: seq<Range>, v: nat)
    requires stage == WaterToLight() && 26 <= v <= 95
    ensures Convert(v, stage) == Some(v - 7)
  {
    assert stage[0] == Range(88, 18, 7);
    assert stage[1] == Range(18, 25, 70);
    assert stage[0].Map(v).None?;
    assert stage[1].Map(v) == Some(v - 7);
    FirstMatchConverts(v, stage, 1);
  }

  lemma LightToTemperatureKeep(stage: seq<Range>, v: nat)
    requires stage == LightToTemperature() && v < 45
    ensures Convert(v, stage) == Some(v)
  {
    assert stage[0] == Range(45, 77, 23);
    assert stage[1] == Range(81, 45, 19);
    assert stage[2] == Range(68, 64, 13);
    assert stage[3] == Default();
    assert stage[0].Map(v).None?;
    assert stage[1].Map(v).None?;
    assert stage[2].Map(v).None?;
    assert stage[3].Map(v) == Some(v);
    FirstMatchConverts(v, stage, 3);
  }

  lemma LightToTemperatureLow(stage: seq<Range>, v: nat)
    requires stage == LightToTemperature() && 45 <= v <= 64
    ensures Convert(v, stage) == Some(v + 36)
  {
    assert stage[0] == Range(45, 77, 23);
    assert stage[1] == Range(81, 45, 19);
    assert stage[0].Map(v).None?;
    assert stage[1].Map(v) == Some(v + 36);
    FirstMatchConverts(v, stage, 1);
  }

  lemma LightToTemperatureMid(stage: seq<Range>, v: nat)
    requires stage == LightToTemperature() && 65 <= v < 77
    ensures Convert(v, stage) == Some(v + 4)
  {
    assert stage[0] == Range(45, 77, 23);
    assert stage[1] == Range(81, 45, 19);
    assert stage[2] == Range(68, 64, 13);
    assert stage[0].Map(v).None?;
    assert stage[1].Map(v).None?;
    assert stage[2].Map(v) == Some(v + 4);
    FirstMatchConverts(v, stage, 2);
  }

  lemma LightToTemperatureHigh(stage: seq<Range>, v: nat)
    requires stage == LightToTemperature() && 77 <= v <= 100
    ensures Convert(v, stage) == Some(v - 32)
  {
    assert stage[0] == Range(45, 77, 23);
    assert stage[0].Map(v) == Some(v - 32);
    FirstMatchConverts(v, stage, 0);
  }

  lemma TemperatureToHumidityShift(stage: seq<Range>, v: nat)
    requires stage == TemperatureToHumidity() && v <= 68
    ensures Convert(v, stage) == Some(v + 1)
  {
    assert stage[0] == Range(0, 69, 1);
    assert stage[1] == Range(1, 0, 69);
    assert stage[0].Map(v).None?;
    assert stage[1].Map(v) == Some(v + 1);
    FirstMatchConverts(v, stage, 1);
  }

  lemma TemperatureToHumidityKeep(stage: seq<Range>, v: nat)
    requires stage == TemperatureToHumidity() && 71 <= v <= USIZE_MAX
    ensures Convert(v, stage) == Some(v)
  {
    assert stage[0] == Range(0, 69, 1);
    assert stage[1] == Range(1, 0, 69);
    assert stage[2] == Default();
    assert stage[0].Map(v).None?;
    assert stage[1].Map(v).None?;
    assert stage[2].Map(v) == Some(v);
    FirstMatchConverts(v, stage, 2);
  }

  lemma HumidityToLocationLow(stage: seq<Range>, v: nat)
    requires stage == HumidityToLocation() && v < 56
    ensures Convert(v, stage) == Some(v)
  {
    assert stage[0] == Range(60, 56, 37);
    assert stage[1] == Range(56, 93, 4);
    assert stage[2] == Default();
    assert stage[0].Map(v).None?;
    assert stage[1].Map(v).None?;
    assert stage[2].Map(v) == Some(v);
    FirstMatchConverts(v, stage, 2);
  }

  lemma HumidityToLocationMid(stage: seq<Range>, v: nat)
    requires stage == HumidityToLocation() && 56 <= v <= 93
    ensures Convert(v, stage) == Some(v + 4)
  {
    assert stage[0] == Range(60, 56, 37);
    assert stage[0].Map(v) == Some(v + 4);
    FirstMatchConverts(v, stage, 0);
  }

  lemma HumidityToLocationHigh(stage: seq<Range>, v: nat)
    requires stage == HumidityToLocation() && 94 <= v <= 97
    ensures Convert(v, stage) == Some(v - 37)
  {
    assert stage[0] == Range(60, 56, 37);
    assert stage[1] == Range(56, 93, 4);
    assert stage[0].Map(v).None?;
    assert stage[1].Map(v) == Some(v - 37);
    FirstMatchConverts(v, stage, 1);
  }

  lemma HumidityToLocationTop(stage: seq<Range>, v: nat)
    requires stage == HumidityToLocation() && 98 <= v <= USIZE_MAX
    ensures Convert(v, stage) == Some(v)
  {
    assert stage[0] == Range(60, 56, 37);
    assert stage[1] == Range(56, 93, 4);
    assert stage[2] == Default();
    assert stage[0].Map(v).None?;
    assert stage[1].Map(v).None?;
    assert stage[2].Map(v) == Some(v);
    FirstMatchConverts(v, stage, 2);
  }

  /** A seed followed stage by stage through seven stages. */
  lemma SampleTrace(stages: seq<seq<Range>>, t: seq<nat>)
    requires |stages| == STAGE_COUNT && |t| == STAGE_COUNT + 1
    requires Convert(t[0], stages[0]) == Some(t[1])
    requires Convert(t[1], stages[1]) == Some(t[2])
    requires Convert(t[2], stages[2]) == Some(t[3])
    requires Convert(t[3], stages[3]) == Some(t[4])
    requires Convert(t[4], stages[4]) == Some(t[5])
    requires Convert(t[5], stages[5]) == Some(t[6])
    requires Convert(t[6], stages[6]) == Some(t[7])
    ensures Locate(t[0], stages) == Some(t[7])
  {
    forall i | 0 <= i < |stages| ensures Convert(t[i], stages[i]) == Some(t[i + 1]) {
      if i == 0 {} else if i == 1 {} else if i == 2 {} else if i == 3 {}
      else if i == 4 {} else if i == 5 {} else {}
    }
    LocateTrace(stages, t);
  }

  // ---------------------------------------------------------------------------
  // Part 1: seeds 79, 14, 55 and 13

  lemma Seed14(stages: seq<seq<Range>>)
    requires IsSample(stages)
    ensures Locate(14, stages) == Some(43)
  {
    var t := [14, 14, 53, 49, 42, 42, 43, 43];
    assert Convert(t[0], stages[0]) == Some(t[1]) by { SeedToSoilKeep(stages[0], t[0]); }
    assert Convert(t[1], stages[1]) == Some(t[2]) by { SoilToFertilizerLow(stages[1], t[1]); }
    assert Convert(t[2], stages[2]) == Some(t[3]) by { FertilizerToWaterShift(stages[2], t[2]); }
    assert Convert(t[3], stages[3]) == Some(t[4]) by { WaterToLightShift(stages[3], t[3]); }
    assert Convert(t[4], stages[4]) == Some(t[5]) by { LightToTemperatureKeep(stages[4], t[4]); }
    assert Convert(t[5], stages[5]) == Some(t[6]) by { TemperatureToHumidityShift(stages[5], t[5]); }
    assert Convert(t[6], stages[6]) == Some(t[7]) by { HumidityToLocationLow(stages[6], t[6]); }
    assert Locate(t[0], stages) == Some(t[7]) by { SampleTrace(stages, t); }
  }

  lemma Seed13(stages: seq<seq<Range>>)
    requires IsSample(stages)
    ensures Locate(13, stages) == Some(35)
  {
    var t := [13, 13, 52, 41, 34, 34, 35, 35];
    assert Convert(t[0], stages[0]) == Some(t[1]) by { SeedToSoilKeep(stages[0], t[0]); }
    assert Convert(t[1], stages[1]) == Some(t[2]) by { SoilToFertilizerLow(stages[1], t[1]); }
    assert Convert(t[2], stages[2]) == Some(t[3]) by { FertilizerToWaterMid(stages[2], t[2]); }
    assert Convert(t[3], stages[3]) == Some(t[4]) by { WaterToLightShift(stages[3], t[3]); }
    assert Convert(t[4], stages[4]) == Some(t[5]) by { LightToTemperatureKeep(stages[4], t[4]); }
    assert Convert(t[5], stages[5]) == Some(t[6]) by { TemperatureToHumidityShift(stages[5], t[5]); }
    assert Convert(t[6], stages[6]) == Some(t[7]) by { HumidityToLocationLow(stages[6], t[6]); }
    assert Locate(t[0], stages) == Some(t[7]) by { SampleTrace(stages, t); }
  }

  // ---------------------------------------------------------------------------
  // Part 2: the seed windows [79, 93) and [55, 68), cut where a stage changes rule

  lemma Window79(stages: seq<seq<Range>>, s: nat)
    requires IsSample(stages) && 79 <= s <= 81
    ensures Locate(s, stages) == Some(s + 3)
  {
    var t := [s, s + 2, s + 2, s + 2, s - 5, s - 1, s - 1, s + 3];
    assert Convert(t[0], stages[0]) == Some(t[1]) by { SeedToSoilShift(stages[0], t[0]); }
    assert Convert(t[1], stages[1]) == Some(t[2]) by { SoilToFertilizerKeep(stages[1], t[1]); }
    assert Convert(t[2], stages[2]) == Some(t[3]) by { FertilizerToWaterKeep(stages[2], t[2]); }
    assert Convert(t[3], stages[3]) == Some(t[4]) by { WaterToLightShift(stages[3], t[3]); }
    assert Convert(t[4], stages[4]) == Some(t[5]) by { LightToTemperatureMid(stages[4], t[4]); }
    assert Convert(t[5], stages[5]) == Some(t[6]) by { TemperatureToHumidityKeep(stages[5], t[5]); }
    assert Convert(t[6], stages[6]) == Some(t[7]) by { HumidityToLocationMid(stages[6], t[6]); }
    assert Locate(t[0], stages) == Some(t[7]) by { SampleTrace(stages, t); }
  }

  lemma Window82(stages: seq<seq<Range>>, s: nat)
    requires IsSample(stages) && 82 <= s <= 91
    ensures Locate(s, stages) == Some(s - 36)
  {
    var t := [s, s + 2, s + 2, s + 2, s - 5, s - 37, s - 36, s - 36];
    assert Convert(t[0], stages[0]) == Some(t[1]) by { SeedToSoilShift(stages[0], t[0]); }
    assert Convert(t[1], stages[1]) == Some(t[2]) by { SoilToFertilizerKeep(stages[1], t[1]); }
    assert Convert(t[2], stages[2]) == Some(t[3]) by { FertilizerToWaterKeep(stages[2], t[2]); }
    assert Convert(t[3], stages[3]) == Some(t[4]) by { WaterToLightShift(stages[3], t[3]); }
    assert Convert(t[4], stages[4]) == Some(t[5]) by { LightToTemperatureHigh(stages[4], t[4]); }
    assert Convert(t[5], stages[5]) == Some(t[6]) by { TemperatureToHumidityShift(stages[5], t[5]); }
    assert Convert(t[6], stages[6]) == Some(t[7]) by { HumidityToLocationLow(stages[6], t[6]); }
    assert Locate(t[0], stages) == Some(t[7]) by { SampleTrace(stages, t); }
  }

  lemma Window92(stages: seq<seq<Range>>)
    requires IsSample(stages)
    ensures Locate(92, stages) == Some(60)
  {
    var t := [92, 94, 94, 94, 87, 55, 56, 60];
    assert Convert(t[0], stages[0]) == Some(t[1]) by { SeedToSoilShift(stages[0], t[0]); }
    assert Convert(t[1], stages[1]) == Some(t[2]) by { SoilToFertilizerKeep(stages[1], t[1]); }
    assert Convert(t[2], stages[2]) == Some(t[3]) by { FertilizerToWaterKeep(stages[2], t[2]); }
    assert Convert(t[3], stages[3]) == Some(t[4]) by { WaterToLightShift(stages[3], t[3]); }
    assert Convert(t[4], stages[4]) == Some(t[5]) by { LightToTemperatureHigh(stages[4], t[4]); }
    assert Convert(t[5], stages[5]) == Some(t[6]) by { TemperatureToHumidityShift(stages[5], t[5]); }
    assert Convert(t[6], stages[6]) == Some(t[7]) by { HumidityToLocationMid(stages[6], t[6]); }
    assert Locate(t[0], stages) == Some(t[7]) by { SampleTrace(stages, t); }
  }

  lemma Window55(stages: seq<seq<Range>>, s: nat)
    requires IsSample(stages) && 55 <= s <= 59
    ensures Locate(s, stages) == Some(s + 31)
  {
    var t := [s, s + 2, s + 2, s - 2, s - 9, s + 27, s + 27, s + 31];
    assert Convert(t[0], stages[0]) == Some(t[1]) by { SeedToSoilShift(stages[0], t[0]); }
    assert Convert(t[1], stages[1]) == Some(t[2]) by { SoilToFertilizerKeep(stages[1], t[1]); }
    assert Convert(t[2], stages[2]) == Some(t[3]) by { FertilizerToWaterShift(stages[2], t[2]); }
    assert Convert(t[3], stages[3]) == Some(t[4]) by { WaterToLightShift(stages[3], t[3]); }
    assert Convert(t[4], stages[4]) == Some(t[5]) by { LightToTemperatureLow(stages[4], t[4]); }
    assert Convert(t[5], stages[5]) == Some(t[6]) by { TemperatureToHumidityKeep(stages[5], t[5]); }
    assert Convert(t[6], stages[6]) == Some(t[7]) by { HumidityToLocationMid(stages[6], t[6]); }
    assert Locate(t[0], stages) == Some(t[7]) by { SampleTrace(stages, t); }
  }

  lemma Window60(stages: seq<seq<Range>>, s: nat)
    requires IsSample(stages) && 60 <= s <= 62
    ensures Locate(s, stages) == Some(s + 35)
  {
    var t := [s, s + 2, s + 2, s + 2, s - 5, s + 31, s + 31, s + 35];
    assert Convert(t[0], stages[0]) == Some(t[1]) by { SeedToSoilShift(stages[0], t[0]); }
    assert Convert(t[1], stages[1]) == Some(t[2]) by { SoilToFertilizerKeep(stages[1], t[1]); }
    assert Convert(t[2], stages[2]) == Some(t[3]) by { FertilizerToWaterKeep(stages[2], t[2]); }
    assert Convert(t[3], stages[3]) == Some(t[4]) by { WaterToLightShift(stages[3], t[3]); }
    assert Convert(t[4], stages[4]) == Some(t[5]) by { LightToTemperatureLow(stages[4], t[4]); }
    assert Convert(t[5], stages[5]) == Some(t[6]) by { TemperatureToHumidityKeep(stages[5], t[5]); }
    assert Convert(t[6], stages[6]) == Some(t[7]) by { HumidityToLocationMid(stages[6], t[6]); }
    assert Locate(t[0], stages) == Some(t[7]) by { SampleTrace(stages, t); }
  }

  lemma Window63(stages: seq<seq<Range>>, s: nat)
    requires IsSample(stages) && 63 <= s <= 66
    ensures Locate(s, stages) == Some(s - 6)
  {
    var t := [s, s + 2, s + 2, s + 2, s - 5, s + 31, s + 31, s - 6];
    assert Convert(t[0], stages[0]) == Some(t[1]) by { SeedToSoilShift(stages[0], t[0]); }
    assert Convert(t[1], stages[1]) == Some(t[2]) by { SoilToFertilizerKeep(stages[1], t[1]); }
    assert Convert(t[2], stages[2]) == Some(t[3]) by { FertilizerToWaterKeep(stages[2], t[2]); }
    assert Convert(t[3], stages[3]) == Some(t[4]) by { WaterToLightShift(stages[3], t[3]); }
    assert Convert(t[4], stages[4]) == Some(t[5]) by { LightToTemperatureLow(stages[4], t[4]); }
    assert Convert(t[5], stages[5]) == Some(t[6]) by { TemperatureToHumidityKeep(stages[5], t[5]); }
    assert Convert(t[6], stages[6]) == Some(t[7]) by { HumidityToLocationHigh(stages[6], t[6]); }
    assert Locate(t[0], stages) == Some(t[7]) by { SampleTrace(stages, t); }
  }

  lemma Window67(stages: seq<seq<Range>>)
    requires IsSample(stages)
    ensures Locate(67, stages) == Some(98)
  {
    var t := [67, 69, 69, 69, 62, 98, 98, 98];
    assert Convert(t[0], stages[0]) == Some(t[1]) by { SeedToSoilShift(stages[0], t[0]); }
    assert Convert(t[1], stages[1]) == Some(t[2]) by { SoilToFertilizerKeep(stages[1], t[1]); }
    assert Convert(t[2], stages[2]) == Some(t[3]) by { FertilizerToWaterKeep(stages[2], t[2]); }
    assert Convert(t[3], stages[3]) == Some(t[4]) by { WaterToLightShift(stages[3], t[3]); }
    assert Convert(t[4], stages[4]) == Some(t[5]) by { LightToTemperatureLow(stages[4], t[4]); }
    assert Convert(t[5], stages[5]) == Some(t[6]) by { TemperatureToHumidityKeep(stages[5], t[5]); }
    assert Convert(t[6], stages[6]) == Some(t[7]) by { HumidityToLocationTop(stages[6], t[6]); }
    assert Locate(t[0], stages) == Some(t[7]) by { SampleTrace(stages, t); }
  }

  /** Every seed Part 2 enumerates reaches a location of at least 46. */
  lemma SampleRangedBound(stages: seq<seq<Range>>, s: nat)
    requires IsSample(stages)
    requires InSeedRanges(SeedPairs(SampleSeeds()), s)
    ensures Locate(s, stages).Some? && Locate(s, stages).value >= 46
  {
    var pairs := SeedPairs(SampleSeeds());
    assert pairs == [(79, 14), (55, 13)];
    if 79 <= s <= 81 { Window79(stages, s); }
    else if 82 <= s <= 91 { Window82(stages, s); }
    else if s == 92 { Window92(stages); }
    else if 55 <= s <= 59 { Window55(stages, s); }
    else if 60 <= s <= 62 { Window60(stages, s); }
    else if 63 <= s <= 66 { Window63(stages, s); }
    else { Window67(stages); }
  }

  /** `part_1::find_closest_seed` on the sample: 35. */
  lemma SampleLowestLocation(stages: seq<seq<Range>>)
    requires IsSample(stages)
    ensures AllLocate(SampleSeeds(), stages)
    ensures LowestLocation(Input(SampleSeeds(), stages)) == 35
  {
    var seeds := SampleSeeds();
    Window79(stages, 79);
    Seed14(stages);
    Window55(stages, 55);
    Seed13(stages);
    assert forall i :: 0 <= i < |seeds| ==> Locate(seeds[i], stages).value >= 35;
    assert Locate(seeds[3], stages) == Some(35);
  }

  /** `part_2::find_closest_seed` on the sample: 46, reached by seed 82. */
  lemma SampleLowestRangedLocation(stages: seq<seq<Range>>)
    requires IsSample(stages)
    ensures PairsLocate(SeedPairs(SampleSeeds()), stages)
    ensures LowestRangedLocation(Input(SampleSeeds(), stages)) == 46
  {
    var pairs := SeedPairs(SampleSeeds());
    forall s | InSeedRanges(pairs, s) ensures Locate(s, stages).Some? && Locate(s, stages).value >= 46 {
      SampleRangedBound(stages, s);
    }
    Window82(stages, 82);
    assert pairs[0] == (79, 14);
    assert InSeedRanges(pairs, 82);
    var r := LowestRangedLocation(Input(SampleSeeds(), stages));
    if r != USIZE_MAX {
      var s: nat :| InSeedRanges(pairs, s) && Some(r) == Locate(s, stages);
      SampleRangedBound(stages, s);
    }
  }
}
