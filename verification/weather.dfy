/**
  The field interpreter of the `weather` package (WeatherForecasts/weather/weather.go):
  the forecast entry record, the six lookup tables with their getters, and the
  string renderings of an entry's fields.

  Every getter is total over the integers. Dense code ranges use a slice behind the
  bounds-checked `MappedValue`; sparse ones (lifted index, relative humidity) use a
  map. Any code with no band gives the sentinel `Undefined`.
 */
module Weather {
  import opened Options
  import Decimal

  datatype Wind10m = Wind10m(direction: string, speed: int)

  /** One entry of the forecast series, as decoded from the provider's JSON. */
  datatype DataSeries = DataSeries(
    timepoint: int,
    cloudCover: int,
    seeing: int,
    transparency: int,
    liftedIndex: int,
    rh2m: int,
    wind10m: Wind10m,
    temp2m: int,
    precType: string)

  datatype ApiResponse = ApiResponse(product: string, init: string, dataSeries: seq<DataSeries>)

  const Undefined: string := "undefined"

  /** The index-to-key view of a slice: key k holds `t[k]` for every valid index. */
  ghost function SliceAsMap(t: seq<string>): (m: map<int, string>)
    ensures forall k :: k in m <==> 0 <= k < |t|
    ensures forall k :: 0 <= k < |t| ==> m[k] == t[k]
  {
    map k | 0 <= k < |t| :: t[k]
  }

  /** Lookup with the sentinel for absent keys; the shape of the two sparse getters. */
  function Lookup(key: int, m: map<int, string>): (r: string)
    ensures key in m ==> r == m[key]
    ensures key !in m ==> r == Undefined
  {
    if key in m then m[key] else Undefined
  }

  /** `getMappedValue`: a slice entry for an in-range key, the sentinel otherwise. */
  function MappedValue(key: int, valueMap: seq<string>): (r: string)
    ensures 0 <= key < |valueMap| ==> r == valueMap[key]
    ensures key < 0 || key >= |valueMap| ==> r == Undefined
  {
    if key >= 0 && key < |valueMap| then valueMap[key] else Undefined
  }

  /** The dense and sparse lookups agree: a slice is the map from its indices. */
  lemma MappedValueIsLookup(key: int, valueMap: seq<string>)
    ensures MappedValue(key, valueMap) == Lookup(key, SliceAsMap(valueMap))
  {
  }

  const CloudCoverMap: seq<string> := [
    "undefined", "0-6 %", "6-19 %", "19-31 %", "31-44 %", "44-56 %", "56-69 %", "69-81 %", "81-94 %", "94-100 %"
  ]

  const SeeingMap: seq<string> := [
    "undefined", "<0.5", "0.5-0.75", "0.75-1", "1-1.25", "1.25-1.5", "1.5-2", "2-2.5", ">2.5"
  ]

  const TransparencyMap: seq<string> := [
    "undefined", "<0.3", "0.3-0.4", "0.4-0.5", "0.5-0.6", "0.6-0.7", "0.7-0.85", "0.85-1", ">1"
  ]

  const LiftedIndexMap: map<int, string> := map[
    -10 := "below -7",
    -6 := "-7 to -5",
    -4 := "-5 to -3",
    -1 := "-3 to 0",
    2 := "0 to 4",
    6 := "4 to 8",
    10 := "8 to 11",
    15 := "over 11"
  ]

  const WindSpeedMap: seq<string> := [
    "undefined", "Below 0.3m/s (calm)", "0.3-3.4m/s (light)", "3.4-8.0m/s (moderate)", "8.0-10.8m/s (fresh)",
    "10.8-17.2m/s (strong)", "17.2-24.5m/s (gale)", "24.5-32.6m/s (storm)", "Over 32.6m/s (hurricane)"
  ]

  const RelativeHumidityMap: map<int, string> := map[
    -4 := "0-5 %", -3 := "5-10 %", -2 := "10-15 %", -1 := "15-20 %",
    0 := "20-25 %", 1 := "25-30 %", 2 := "30-35 %", 3 := "35-40 %",
    4 := "40-45 %", 5 := "45-50 %", 6 := "50-55 %", 7 := "55-60 %",
    8 := "60-65 %", 9 := "65-70 %", 10 := "70-75 %", 11 := "75-80 %",
    12 := "80-85 %", 13 := "85-90 %", 14 := "90-95 %", 15 := "95-99 %",
    16 := "100 %"
  ]

  /** The lifted-index codes the provider documents. */
  const LiftedIndexCodes: set<int> := {-10, -6, -4, -1, 2, 6, 10, 15}

  function GetCloudCover(cloudCover: int): (r: string)
    ensures r != Undefined <==> 1 <= cloudCover <= 9
    ensures 0 <= cloudCover < 10 ==> r == CloudCoverMap[cloudCover]
    ensures r in CloudCoverMap
  {
    MappedValue(cloudCover, CloudCoverMap)
  }

  function GetSeeing(seeing: int): (r: string)
    ensures r != Undefined <==> 1 <= seeing <= 8
    ensures 0 <= seeing < 9 ==> r == SeeingMap[seeing]
    ensures r in SeeingMap
  {
    MappedValue(seeing, SeeingMap)
  }

  function GetTransparency(transparency: int): (r: string)
    ensures r != Undefined <==> 1 <= transparency <= 8
    ensures 0 <= transparency < 9 ==> r == TransparencyMap[transparency]
    ensures r in TransparencyMap
  {
    MappedValue(transparency, TransparencyMap)
  }

  function GetLiftedIndex(liftedIndex: int): (r: string)
    ensures r != Undefined <==> liftedIndex in LiftedIndexCodes
    ensures r == Undefined || r in LiftedIndexMap.Values
  {
    Lookup(liftedIndex, LiftedIndexMap)
  }

  function GetWindSpeed(windSpeed: int): (r: string)
    ensures r != Undefined <==> 1 <= windSpeed <= 8
    ensures 0 <= windSpeed < 9 ==> r == WindSpeedMap[windSpeed]
    ensures r in WindSpeedMap
  {
    MappedValue(windSpeed, WindSpeedMap)
  }

  function GetRelativeHumidity(relHum: int): (r: string)
    ensures r != Undefined <==> -4 <= relHum <= 16
    ensures r == Undefined || r in RelativeHumidityMap.Values
  {
    Lookup(relHum, RelativeHumidityMap)
  }

  /*
    Independent reference definitions of the bands of all six tables. The provider
    documents each code as a range; these rebuild the table strings from the range
    bounds, so every table is shown to be contiguous: adjacent bands share a bound.
    For the numeric bounds (cloud cover, lifted index) `BoundsAscend` also shows the
    bands are ordered; the seeing, transparency and wind bounds are decimal texts.
   */

  /** "<lo>-<hi> %", the shape of every cloud-cover and humidity band but the last. */
  ghost function PercentBand(lo: int, hi: int): string {
    Decimal.FromInt(lo) + "-" + Decimal.FromInt(hi) + " %"
  }

  /** Consecutive cloud-cover bounds; band c spans bounds c-1 to c. */
  const CloudCoverBounds: seq<int> := [0, 6, 19, 31, 44, 56, 69, 81, 94, 100]

  ghost function CloudCoverBand(c: int): string
    requires 1 <= c <= 9
  {
    PercentBand(CloudCoverBounds[c - 1], CloudCoverBounds[c])
  }

  /** Humidity code k (k in -4..14) spans the 5 % step starting at 5 * (k + 4). */
  ghost function HumidityBand(k: int): string
    requires -4 <= k <= 16
  {
    if k <= 14 then PercentBand(5 * (k + 4), 5 * (k + 5))
    else if k == 15 then PercentBand(95, 99)
    else "100 %"
  }

  /** The documented lifted-index codes in ascending order, and the bounds between bands. */
  const LiftedIndexCodeList: seq<int> := [-10, -6, -4, -1, 2, 6, 10, 15]
  const LiftedIndexBounds: seq<int> := [-7, -5, -3, 0, 4, 8, 11]

  /** Band i: open below the first bound, open above the last, "<lo> to <hi>" between. */
  ghost function LiftedIndexBand(i: int): string
    requires 0 <= i < |LiftedIndexCodeList|
  {
    if i == 0 then "below " + Decimal.FromInt(LiftedIndexBounds[0])
    else if i == 7 then "over " + Decimal.FromInt(LiftedIndexBounds[6])
    else Decimal.FromInt(LiftedIndexBounds[i - 1]) + " to " + Decimal.FromInt(LiftedIndexBounds[i])
  }

  /** Seeing bounds in arcseconds; band c (2..7) spans bounds c-2 to c-1. */
  const SeeingBounds: seq<string> := ["0.5", "0.75", "1", "1.25", "1.5", "2", "2.5"]

  /** Transparency bounds in magnitudes; band c (2..7) spans bounds c-2 to c-1. */
  const TransparencyBounds: seq<string> := ["0.3", "0.4", "0.5", "0.6", "0.7", "0.85", "1"]

  /**
    Band c of an eight-band scale over seven ascending bounds: "<" the first bound,
    then "<lo>-<hi>" between consecutive bounds, then ">" the last bound.
   */
  ghost function ScaleBand(bounds: seq<string>, c: int): string
    requires |bounds| == 7 && 1 <= c <= 8
  {
    if c == 1 then "<" + bounds[0]
    else if c == 8 then ">" + bounds[6]
    else bounds[c - 2] + "-" + bounds[c - 1]
  }

  /** Wind-speed bounds in m/s, and the Beaufort-style name of each of the eight bands. */
  const WindSpeedBounds: seq<string> := ["0.3", "3.4", "8.0", "10.8", "17.2", "24.5", "32.6"]
  const WindSpeedNames: seq<string> := ["calm", "light", "moderate", "fresh", "strong", "gale", "storm", "hurricane"]

  /** Wind band c: its speed range in m/s, open below the first and above the last bound, then its name. */
  ghost function WindSpeedBand(c: int): string
    requires 1 <= c <= 8
  {
    var range :=
      if c == 1 then "Below " + WindSpeedBounds[0]
      else if c == 8 then "Over " + WindSpeedBounds[6]
      else WindSpeedBounds[c - 2] + "-" + WindSpeedBounds[c - 1];
    range + "m/s (" + WindSpeedNames[c - 1] + ")"
  }

  /** The numeric bounds strictly ascend, so the bands between them are ordered and disjoint. */
  lemma BoundsAscend()
    ensures forall i :: 0 < i < |CloudCoverBounds| ==> CloudCoverBounds[i - 1] < CloudCoverBounds[i]
    ensures forall i :: 0 < i < |LiftedIndexBounds| ==> LiftedIndexBounds[i - 1] < LiftedIndexBounds[i]
  {
  }

  lemma CloudCoverBands1To2()
    ensures GetCloudCover(1) == CloudCoverBand(1)
    ensures GetCloudCover(2) == CloudCoverBand(2)
  {
    assert CloudCoverBand(1) == "0-6 %";
    assert CloudCoverBand(2) == "6-19 %";
  }

  lemma CloudCoverBands3To4()
    ensures GetCloudCover(3) == CloudCoverBand(3)
    ensures GetCloudCover(4) == CloudCoverBand(4)
  {
    assert CloudCoverBand(3) == "19-31 %";
    assert CloudCoverBand(4) == "31-44 %";
  }

  lemma CloudCoverBands5To6()
    ensures GetCloudCover(5) == CloudCoverBand(5)
    ensures GetCloudCover(6) == CloudCoverBand(6)
  {
    assert CloudCoverBand(5) == "44-56 %";
    assert CloudCoverBand(6) == "56-69 %";
  }

  lemma CloudCoverBands7To9()
    ensures GetCloudCover(7) == CloudCoverBand(7)
    ensures GetCloudCover(8) == CloudCoverBand(8)
    ensures GetCloudCover(9) == CloudCoverBand(9)
  {
    assert CloudCoverBand(7) == "69-81 %";
    assert CloudCoverBand(8) == "81-94 %";
    assert CloudCoverBand(9) == "94-100 %";
  }

  /** Cloud-cover codes 1..9 are consecutive percentage bands between the bounds. */
  lemma CloudCoverBands(c: int)
    requires 1 <= c <= 9
    ensures GetCloudCover(c) == CloudCoverBand(c)
  {
    if 1 <= c <= 2 {
      CloudCoverBands1To2();
      assert c == 1 || c == 2;
    } else if 3 <= c <= 4 {
      CloudCoverBands3To4();
      assert c == 3 || c == 4;
    } else if 5 <= c <= 6 {
      CloudCoverBands5To6();
      assert c == 5 || c == 6;
    } else if 7 <= c <= 9 {
      CloudCoverBands7To9();
      assert c == 7 || c == 8 || c == 9;
    }
  }

  lemma RelativeHumidityBandsMinus4ToMinus1()
    ensures GetRelativeHumidity(-4) == HumidityBand(-4)
    ensures GetRelativeHumidity(-3) == HumidityBand(-3)
    ensures GetRelativeHumidity(-2) == HumidityBand(-2)
    ensures GetRelativeHumidity(-1) == HumidityBand(-1)
  {
    assert HumidityBand(-4) == "0-5 %";
    assert HumidityBand(-3) == "5-10 %";
    assert HumidityBand(-2) == "10-15 %";
    assert HumidityBand(-1) == "15-20 %";
  }

  lemma RelativeHumidityBands0To3()
    ensures GetRelativeHumidity(0) == HumidityBand(0)
    ensures GetRelativeHumidity(1) == HumidityBand(1)
    ensures GetRelativeHumidity(2) == HumidityBand(2)
    ensures GetRelativeHumidity(3) == HumidityBand(3)
  {
    assert HumidityBand(0) == "20-25 %";
    assert HumidityBand(1) == "25-30 %";
    assert HumidityBand(2) == "30-35 %";
    assert HumidityBand(3) == "35-40 %";
  }

  lemma RelativeHumidityBands4To7()
    ensures GetRelativeHumidity(4) == HumidityBand(4)
    ensures GetRelativeHumidity(5) == HumidityBand(5)
    ensures GetRelativeHumidity(6) == HumidityBand(6)
    ensures GetRelativeHumidity(7) == HumidityBand(7)
  {
    assert HumidityBand(4) == "40-45 %";
    assert HumidityBand(5) == "45-50 %";
    assert HumidityBand(6) == "50-55 %";
    assert HumidityBand(7) == "55-60 %";
  }

  lemma RelativeHumidityBands8To11()
    ensures GetRelativeHumidity(8) == HumidityBand(8)
    ensures GetRelativeHumidity(9) == HumidityBand(9)
    ensures GetRelativeHumidity(10) == HumidityBand(10)
    ensures GetRelativeHumidity(11) == HumidityBand(11)
  {
    assert HumidityBand(8) == "60-65 %";
    assert HumidityBand(9) == "65-70 %";
    assert HumidityBand(10) == "70-75 %";
    assert HumidityBand(11) == "75-80 %";
  }

  lemma RelativeHumidityBands12To14()
    ensures GetRelativeHumidity(12) == HumidityBand(12)
    ensures GetRelativeHumidity(13) == HumidityBand(13)
    ensures GetRelativeHumidity(14) == HumidityBand(14)
  {
    assert HumidityBand(12) == "80-85 %";
    assert HumidityBand(13) == "85-90 %";
    assert HumidityBand(14) == "90-95 %";
  }

  lemma RelativeHumidityBands15To16()
    ensures GetRelativeHumidity(15) == HumidityBand(15)
    ensures GetRelativeHumidity(16) == HumidityBand(16)
  {
    assert HumidityBand(15) == "95-99 %";
    assert HumidityBand(16) == "100 %";
  }

  /** Humidity bands are the 5 % steps from 0 to 95, then 95-99 and 100. */
  lemma RelativeHumidityBands(k: int)
    ensures GetRelativeHumidity(k) == if -4 <= k <= 16 then HumidityBand(k) else Undefined
  {
    if -4 <= k <= -1 {
      RelativeHumidityBandsMinus4ToMinus1();
      assert k == -4 || k == -3 || k == -2 || k == -1;
    } else if 0 <= k <= 3 {
      RelativeHumidityBands0To3();
      assert k == 0 || k == 1 || k == 2 || k == 3;
    } else if 4 <= k <= 7 {
      RelativeHumidityBands4To7();
      assert k == 4 || k == 5 || k == 6 || k == 7;
    } else if 8 <= k <= 11 {
      RelativeHumidityBands8To11();
      assert k == 8 || k == 9 || k == 10 || k == 11;
    } else if 12 <= k <= 14 {
      RelativeHumidityBands12To14();
      assert k == 12 || k == 13 || k == 14;
    } else if 15 <= k <= 16 {
      RelativeHumidityBands15To16();
      assert k == 15 || k == 16;
    }
  }

  lemma LiftedIndexBands0To3()
    ensures GetLiftedIndex(-10) == LiftedIndexBand(0)
    ensures GetLiftedIndex(-6) == LiftedIndexBand(1)
    ensures GetLiftedIndex(-4) == LiftedIndexBand(2)
    ensures GetLiftedIndex(-1) == LiftedIndexBand(3)
  {
    assert LiftedIndexBand(0) == "below -7";
    assert LiftedIndexBand(1) == "-7 to -5";
    assert LiftedIndexBand(2) == "-5 to -3";
    assert LiftedIndexBand(3) == "-3 to 0";
  }

  lemma LiftedIndexBands4To7()
    ensures GetLiftedIndex(2) == LiftedIndexBand(4)
    ensures GetLiftedIndex(6) == LiftedIndexBand(5)
    ensures GetLiftedIndex(10) == LiftedIndexBand(6)
    ensures GetLiftedIndex(15) == LiftedIndexBand(7)
  {
    assert LiftedIndexBand(4) == "0 to 4";
    assert LiftedIndexBand(5) == "4 to 8";
    assert LiftedIndexBand(6) == "8 to 11";
    assert LiftedIndexBand(7) == "over 11";
  }

  /** Each lifted-index code names its band and lies inside it. */
  lemma LiftedIndexBands(i: int)
    requires 0 <= i < |LiftedIndexCodeList|
    ensures GetLiftedIndex(LiftedIndexCodeList[i]) == LiftedIndexBand(i)
    ensures i > 0 ==> LiftedIndexBounds[i - 1] <= LiftedIndexCodeList[i]
    ensures i < 7 ==> LiftedIndexCodeList[i] <= LiftedIndexBounds[i]
  {
    if i <= 3 {
      LiftedIndexBands0To3();
      assert i == 0 || i == 1 || i == 2 || i == 3;
    } else {
      LiftedIndexBands4To7();
      assert i == 4 || i == 5 || i == 6 || i == 7;
    }
  }

  /** Seeing codes 1..8 are the eight bands over the seeing bounds; every other code is undefined. */
  lemma SeeingBands(c: int)
    ensures GetSeeing(c) == if 1 <= c <= 8 then ScaleBand(SeeingBounds, c) else Undefined
  {
    if 1 <= c <= 8 {
      assert c == 1 || c == 2 || c == 3 || c == 4 || c == 5 || c == 6 || c == 7 || c == 8;
    }
  }

  /** Transparency codes 1..8 are the eight bands over the transparency bounds; every other code is undefined. */
  lemma TransparencyBands(c: int)
    ensures GetTransparency(c) == if 1 <= c <= 8 then ScaleBand(TransparencyBounds, c) else Undefined
  {
    if 1 <= c <= 8 {
      assert c == 1 || c == 2 || c == 3 || c == 4 || c == 5 || c == 6 || c == 7 || c == 8;
    }
  }

  lemma WindSpeedBands1To2()
    ensures GetWindSpeed(1) == WindSpeedBand(1)
    ensures GetWindSpeed(2) == WindSpeedBand(2)
  {
    assert WindSpeedBand(1) == "Below 0.3m/s (calm)";
    assert WindSpeedBand(2) == "0.3-3.4m/s (light)";
  }

  lemma WindSpeedBands3To4()
    ensures GetWindSpeed(3) == WindSpeedBand(3)
    ensures GetWindSpeed(4) == WindSpeedBand(4)
  {
    assert WindSpeedBand(3) == "3.4-8.0m/s (moderate)";
    assert WindSpeedBand(4) == "8.0-10.8m/s (fresh)";
  }

  lemma WindSpeedBands5To6()
    ensures GetWindSpeed(5) == WindSpeedBand(5)
    ensures GetWindSpeed(6) == WindSpeedBand(6)
  {
    assert WindSpeedBand(5) == "10.8-17.2m/s (strong)";
    assert WindSpeedBand(6) == "17.2-24.5m/s (gale)";
  }

  lemma WindSpeedBands7To8()
    ensures GetWindSpeed(7) == WindSpeedBand(7)
    ensures GetWindSpeed(8) == WindSpeedBand(8)
  {
    assert WindSpeedBand(7) == "24.5-32.6m/s (storm)";
    assert WindSpeedBand(8) == "Over 32.6m/s (hurricane)";
  }

  /** Wind-speed codes 1..8 are the named bands over the wind-speed bounds; every other code is undefined. */
  lemma WindSpeedBands(c: int)
    ensures GetWindSpeed(c) == if 1 <= c <= 8 then WindSpeedBand(c) else Undefined
  {
    if 1 <= c <= 2 {
      WindSpeedBands1To2();
      assert c == 1 || c == 2;
    } else if 3 <= c <= 4 {
      WindSpeedBands3To4();
      assert c == 3 || c == 4;
    } else if 5 <= c <= 6 {
      WindSpeedBands5To6();
      assert c == 5 || c == 6;
    } else if 7 <= c <= 8 {
      WindSpeedBands7To8();
      assert c == 7 || c == 8;
    }
  }

  /** The code list behind the lifted-index bands holds exactly the documented codes, in ascending order. */
  lemma LiftedIndexCodesListed()
    ensures forall x :: x in LiftedIndexCodes <==> x in LiftedIndexCodeList
    ensures forall i, j :: 0 <= i < j < |LiftedIndexCodeList| ==> LiftedIndexCodeList[i] < LiftedIndexCodeList[j]
  {
  }

  /*
    The string renderings of an entry's fields (the `DataSeries` methods). The coded
    fields go through their getter, the temperature through the decimal rendering.
   */

  function CloudCoverString(ds: DataSeries): (r: string)
    ensures r != Undefined <==> 1 <= ds.cloudCover <= 9
  {
    GetCloudCover(ds.cloudCover)
  }

  function SeeingString(ds: DataSeries): (r: string)
    ensures r != Undefined <==> 1 <= ds.seeing <= 8
  {
    GetSeeing(ds.seeing)
  }

  function TransparencyString(ds: DataSeries): (r: string)
    ensures r != Undefined <==> 1 <= ds.transparency <= 8
  {
    GetTransparency(ds.transparency)
  }

  function LiftedIndexString(ds: DataSeries): (r: string)
    ensures r != Undefined <==> ds.liftedIndex in LiftedIndexCodes
  {
    GetLiftedIndex(ds.liftedIndex)
  }

  function HumidityString(ds: DataSeries): (r: string)
    ensures r != Undefined <==> -4 <= ds.rh2m <= 16
  {
    GetRelativeHumidity(ds.rh2m)
  }

  /** Splits at the first space: the text before it, and the text after it. */
  ghost function SplitAtFirstSpace(s: string): (string, string)
  {
    if |s| == 0 then ("", "")
    else if s[0] == ' ' then ("", s[1..])
    else
      var (head, tail) := SplitAtFirstSpace(s[1..]);
      ([s[0]] + head, tail)
  }

  lemma {:induction false} SplitJoined(head: string, tail: string)
    requires ' ' !in head
    ensures SplitAtFirstSpace(head + " " + tail) == (head, tail)
  {
    if |head| == 0 {
      assert head + " " + tail == [' '] + tail;
    } else {
      assert head[0] != ' ' && ' ' !in head[1..] by {
        assert head[0] in head;
        assert forall c :: c in head[1..] ==> c in head;
      }
      SplitJoined(head[1..], tail);
      var joined := head + " " + tail;
      assert joined[0] == head[0];
      assert joined[1..] == head[1..] + " " + tail;
      assert [head[0]] + head[1..] == head;
    }
  }

  /**
    The compass direction, one space, then the speed band. Provider directions
    ("SE", "NW", ...) hold no space, so the two parts can be split apart again.
   */
  function WindSpeedString(ds: DataSeries): (r: string)
    ensures |r| > |ds.wind10m.direction| && r[|ds.wind10m.direction|] == ' '
    ensures r[..|ds.wind10m.direction|] == ds.wind10m.direction
    ensures r[|ds.wind10m.direction| + 1..] == GetWindSpeed(ds.wind10m.speed)
    ensures ' ' !in ds.wind10m.direction ==>
              SplitAtFirstSpace(r) == (ds.wind10m.direction, GetWindSpeed(ds.wind10m.speed))
  {
    var r := ds.wind10m.direction + " " + GetWindSpeed(ds.wind10m.speed);
    assert ' ' !in ds.wind10m.direction ==>
             SplitAtFirstSpace(r) == (ds.wind10m.direction, GetWindSpeed(ds.wind10m.speed)) by {
      if ' ' !in ds.wind10m.direction {
        SplitJoined(ds.wind10m.direction, GetWindSpeed(ds.wind10m.speed));
      }
    }
    r
  }

  /** Reads a temperature field back: an `Itoa` rendering followed by " C". */
  ghost function ParseTemperature(s: string): (r: Option<int>)
  {
    if |s| >= 2 && s[|s| - 2..] == " C" then Decimal.ParseInt(s[..|s| - 2]) else None
  }

  /** The decimal rendering of `temp2m`, sign kept, followed by " C". */
  function TemperatureString(ds: DataSeries): (r: string)
    ensures |r| >= 3 && r[|r| - 2..] == " C"
    ensures r[0] == '-' <==> ds.temp2m < 0
    ensures ParseTemperature(r) == Some(ds.temp2m)
  {
    var digits := Decimal.FromInt(ds.temp2m);
    var r := digits + " C";
    assert r[..|r| - 2] == digits;
    Decimal.ParseFromInt(ds.temp2m);
    r
  }

  /** Every string the temperature parser accepts is the rendering of its value. */
  lemma TemperatureStringParse(s: string, ds: DataSeries)
    requires ParseTemperature(s) == Some(ds.temp2m)
    ensures TemperatureString(ds) == s
  {
    Decimal.FromIntParse(s[..|s| - 2], ds.temp2m);
    assert s == s[..|s| - 2] + " C";
  }

  /** The provider's documented sample entry. */
  const Sample: DataSeries := DataSeries(72, 9, 3, 4, 2, 11, Wind10m("SE", 2), 9, "none")

  /** The sample entry's coded fields, as their bands. */
  lemma SampleEntry()
    ensures CloudCoverString(Sample) == "94-100 %"
    ensures SeeingString(Sample) == "0.75-1"
    ensures TransparencyString(Sample) == "0.5-0.6"
    ensures LiftedIndexString(Sample) == "0 to 4"
    ensures HumidityString(Sample) == "75-80 %"
  {
  }

  /** The sample entry's temperature, as rendered text. */
  lemma SampleTemperature()
    ensures TemperatureString(Sample) == "9 C"
  {
  }

  /** The sample entry's wind (south-east, code 2), as rendered text; it holds for any entry with that wind. */
  lemma SampleWind(ds: DataSeries)
    requires ds.wind10m == Sample.wind10m
    ensures WindSpeedString(ds) == "SE 0.3-3.4m/s (light)"
  {
  }

  /** Cloud-cover code 0 is itself a table entry reading "undefined". */
  lemma SampleCodes()
    ensures GetCloudCover(0) == Undefined && GetCloudCover(5) == "44-56 %"
    ensures GetRelativeHumidity(16) == "100 %" && GetLiftedIndex(0) == Undefined
  {
  }
}
