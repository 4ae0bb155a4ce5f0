/**
  The earlier draft of the field interpreter inlined in WeatherForecasts/main.go:
  its own copies of `getMappedValue`, the five tables and their getters, the
  `DataSeries` string methods, the rows `printWeatherDataToCSV` writes and the
  console summary `printWeatherData` prints.

  The draft's `DataSeries`, `Wind10m` and `ApiResponse` structs have the same
  fields as the package's, so the model reuses `Weather`'s datatypes. Its tables
  and getters are kept as separate definitions; each contract states that the
  copy agrees with the package on every input.
 */
module Draft {
  import opened Options
  import Weather
  import opened Columns
  import Decimal

  const Undefined: string := "undefined"

  function MappedValue(key: int, valueMap: seq<string>): string
  {
    if key >= 0 && key < |valueMap| then valueMap[key] else Undefined
  }

  const CloudCoverMap: seq<string> := [
    "undefined", "0-6 %", "6-19 %", "19-31 %", "31-44 %", "44-56 %", "56-69 %", "69-81 %", "81-94 %", "94-100 %"
  ]

  const SeeingMap: seq<string> := [
    "undefined", "<0.5", "0.5-0.75", "0.75-1", "1-1.25", "1.25-1.5", "1.5-2", "2-2.5", ">2.5"
  ]

  const TransparencyMap: seq<string> := [
    "undefined", "<0.3", "0.3-0.4", "0.4-0.5", "0.5-0.6", "0.6-0.7", "0.7-0.85", "0.85-1", ">1"
  ]

  const LiftedIndexMap: map<int, string> := map[
    -10 := "below -7",
    -6 := "-7 to -5",
    -4 := "-5 to -3",
    -1 := "-3 to 0",
    2 := "0 to 4",
    6 := "4 to 8",
    10 := "8 to 11",
    15 := "over 11"
  ]

  const WindSpeedMap: seq<string> := [
    "undefined", "Below 0.3m/s (calm)", "0.3-3.4m/s (light)", "3.4-8.0m/s (moderate)", "8.0-10.8m/s (fresh)",
    "10.8-17.2m/s (strong)", "17.2-24.5m/s (gale)", "24.5-32.6m/s (storm)", "Over 32.6m/s (hurricane)"
  ]

  const RelativeHumidityMap: map<int, string> := map[
    -4 := "0-5 %", -3 := "5-10 %", -2 := "10-15 %", -1 := "15-20 %",
    0 := "20-25 %", 1 := "25-30 %", 2 := "30-35 %", 3 := "35-40 %",
    4 := "40-45 %", 5 := "45-50 %", 6 := "50-55 %", 7 := "55-60 %",
    8 := "60-65 %", 9 := "65-70 %", 10 := "70-75 %", 11 := "75-80 %",
    12 := "80-85 %", 13 := "85-90 %", 14 := "90-95 %", 15 := "95-99 %",
    16 := "100 %"
  ]

  function GetCloudCover(cloudCover: int): string
  {
    MappedValue(cloudCover, CloudCoverMap)
  }

  function GetSeeing(seeing: int): string
  {
    MappedValue(seeing, SeeingMap)
  }

  function GetTransparency(transparency: int): string
  {
    MappedValue(transparency, TransparencyMap)
  }

  function GetLiftedIndex(liftedIndex: int): string
  {
    if liftedIndex in LiftedIndexMap then LiftedIndexMap[liftedIndex] else Undefined
  }

  function GetWindSpeed(windSpeed: int): string
  {
    MappedValue(windSpeed, WindSpeedMap)
  }

  function GetRelativeHumidity(relHum: int): string
  {
    if relHum in RelativeHumidityMap then RelativeHumidityMap[relHum] else Undefined
  }

  function CloudCoverString(ds: Weather.DataSeries): string
  {
    GetCloudCover(ds.cloudCover)
  }

  function SeeingString(ds: Weather.DataSeries): string
  {
    GetSeeing(ds.seeing)
  }

  function TransparencyString(ds: Weather.DataSeries): string
  {
    GetTransparency(ds.transparency)
  }

  function LiftedIndexString(ds: Weather.DataSeries): string
  {
    GetLiftedIndex(ds.liftedIndex)
  }

  function WindSpeedString(ds: Weather.DataSeries): string
  {
    ds.wind10m.direction + " " + GetWindSpeed(ds.wind10m.speed)
  }

  function HumidityString(ds: Weather.DataSeries): string
  {
    GetRelativeHumidity(ds.rh2m)
  }

  function TemperatureString(ds: Weather.DataSeries): string
  {
    Decimal.FromInt(ds.temp2m) + " C"
  }

  /** The draft's `getMappedValue` applies the package's bounds check. */
  lemma MappedValueAgrees(key: int, valueMap: seq<string>)
    ensures MappedValue(key, valueMap) == Weather.MappedValue(key, valueMap)
  {
  }

  /** The draft's tables and getters agree with the package's on every integer, for all six fields. */
  lemma GettersAgree(k: int)
    ensures GetCloudCover(k) == Weather.GetCloudCover(k)
    ensures GetSeeing(k) == Weather.GetSeeing(k)
    ensures GetTransparency(k) == Weather.GetTransparency(k)
    ensures GetLiftedIndex(k) == Weather.GetLiftedIndex(k)
    ensures GetWindSpeed(k) == Weather.GetWindSpeed(k)
    ensures GetRelativeHumidity(k) == Weather.GetRelativeHumidity(k)
  {
  }

  /** Hence the draft's `DataSeries` methods render every entry exactly as the package's do. */
  lemma FieldStringsAgree(ds: Weather.DataSeries)
    ensures CloudCoverString(ds) == Weather.CloudCoverString(ds)
    ensures SeeingString(ds) == Weather.SeeingString(ds)
    ensures TransparencyString(ds) == Weather.TransparencyString(ds)
    ensures LiftedIndexString(ds) == Weather.LiftedIndexString(ds)
    ensures WindSpeedString(ds) == Weather.WindSpeedString(ds)
    ensures HumidityString(ds) == Weather.HumidityString(ds)
    ensures TemperatureString(ds) == Weather.TemperatureString(ds)
  {
    GettersAgree(ds.cloudCover);
    GettersAgree(ds.seeing);
    GettersAgree(ds.transparency);
    GettersAgree(ds.liftedIndex);
    GettersAgree(ds.wind10m.speed);
    GettersAgree(ds.rh2m);
  }

  /** The draft's column order: temperature comes fourth, after the lifted index. */
  const ColumnOrder: seq<Field> := [
    Timepoint, CloudCover, LiftedIndex, Temperature, Seeing,
    Transparency, Humidity, Precipitation, Wind
  ]

  lemma ColumnOrderIsPermutation()
    ensures multiset(ColumnOrder) == AllFields
  {
  }

  /** One data row of `printWeatherDataToCSV`, built from the draft's own methods. */
  function DataRow(e: Weather.DataSeries): (r: seq<string>)
    ensures |r| == 9
  {
    [
      Decimal.FromInt(e.timepoint), CloudCoverString(e), LiftedIndexString(e),
      TemperatureString(e), SeeingString(e), TransparencyString(e),
      HumidityString(e), e.precType, WindSpeedString(e)
    ]
  }

  /** The package's texts of an entry's fields, in the draft's column order. */
  function PackageTexts(e: Weather.DataSeries): seq<string> {
    [
      Decimal.FromInt(e.timepoint), Weather.CloudCoverString(e), Weather.LiftedIndexString(e),
      Weather.TemperatureString(e), Weather.SeeingString(e), Weather.TransparencyString(e),
      Weather.HumidityString(e), e.precType, Weather.WindSpeedString(e)
    ]
  }

  lemma DataRowIsPackageTexts(e: Weather.DataSeries)
    ensures DataRow(e) == PackageTexts(e)
  {
    FieldStringsAgree(e);
  }

  lemma ColumnOrderRendersPackageTexts(e: Weather.DataSeries)
    ensures RenderRow(e, ColumnOrder) == PackageTexts(e)
  {
  }

  /** The draft's row is its column order rendered with the package's field texts. */
  lemma DataRowRenders(e: Weather.DataSeries)
    ensures DataRow(e) == RenderRow(e, ColumnOrder)
  {
    DataRowIsPackageTexts(e);
    ColumnOrderRendersPackageTexts(e);
  }

  /** The rows `printWeatherDataToCSV` writes: five header rows, then the data rows, no column titles. */
  method WriteCsvRows(data: Weather.ApiResponse, lat: string, lng: string) returns (rows: seq<seq<string>>)
    ensures |rows| == 5 + |data.dataSeries|
    ensures rows[0] == ["Weather forecasts data for"]
    ensures rows[1] == ["latitude", lat] && rows[2] == ["longitude", lng]
    ensures rows[3] == ["Initial timestamp", data.init] && rows[4] == ["Product", data.product]
    ensures forall i :: 0 <= i < |data.dataSeries| ==> rows[5 + i] == DataRow(data.dataSeries[i])
    ensures forall i :: 5 <= i < |rows| ==> |rows[i]| == 9
  {
    rows := [
      ["Weather forecasts data for"],
      ["latitude", lat],
      ["longitude", lng],
      ["Initial timestamp", data.init],
      ["Product", data.product]
    ];
    var headers := rows;
    var i := 0;
    while i < |data.dataSeries|
      invariant 0 <= i <= |data.dataSeries|
      invariant |rows| == 5 + i
      invariant forall k :: 0 <= k < 5 ==> rows[k] == headers[k]
      invariant forall k :: 0 <= k < i ==> rows[5 + k] == DataRow(data.dataSeries[k])
    {
      rows := rows + [DataRow(data.dataSeries[i])];
      i := i + 1;
    }
    forall k | 5 <= k < |rows|
      ensures |rows[k]| == 9
    {
      assert rows[5 + (k - 5)] == DataRow(data.dataSeries[k - 5]);
    }
  }

  /** The label each summary line puts before a field, in the draft's column order. */
  const SummaryLabels: seq<string> := [
    "Timepoint ", "Cloud Cover: ", "Lifted Index ", "Temperature 2 meters ", "Seeing range: ",
    "Transparency range: ", "Relative humidity 2 meters ", "Precipitation type ", "Wind "
  ]

  /**
    The lines `printWeatherData` prints (each `Println` operand separated by one
    space). Only the first entry is read, so the series must not be empty.
   */
  function Summary(data: Weather.ApiResponse): (lines: seq<string>)
    requires |data.dataSeries| > 0
    ensures |lines| == 12
    ensures lines[1] == "Initial timestamp: " + data.init && lines[2] == "Product: " + data.product
  {
    var first := data.dataSeries[0];
    [
      "Printing Weather Forecast for Location:",
      "Initial timestamp: " + data.init,
      "Product: " + data.product,
      "Timepoint " + Decimal.FromInt(first.timepoint) + " hours",
      "Cloud Cover: " + CloudCoverString(first),
      "Lifted Index " + LiftedIndexString(first),
      "Temperature 2 meters " + TemperatureString(first),
      "Seeing range: " + SeeingString(first),
      "Transparency range: " + TransparencyString(first),
      "Relative humidity 2 meters " + HumidityString(first),
      "Precipitation type " + first.precType,
      "Wind " + WindSpeedString(first)
    ]
  }

  /** The summary shows the first entry's fields in the draft's column order, as its first CSV row does. */
  lemma SummaryShowsFirstRow(data: Weather.ApiResponse)
    requires |data.dataSeries| > 0
    ensures Summary(data)[3] == SummaryLabels[0] + DataRow(data.dataSeries[0])[0] + " hours"
    ensures forall j :: 1 <= j < 9 ==> Summary(data)[3 + j] == SummaryLabels[j] + DataRow(data.dataSeries[0])[j]
  {
    var first := data.dataSeries[0];
    assert DataRow(first) == [
      Decimal.FromInt(first.timepoint), CloudCoverString(first), LiftedIndexString(first),
      TemperatureString(first), SeeingString(first), TransparencyString(first),
      HumidityString(first), first.precType, WindSpeedString(first)
    ];
  }
}
