/**
  The row sequence `WriteToCSV` (WeatherForecasts/iohelper/file.go) hands to the
  CSV writer: six header rows, the last of them the column titles, then one
  nine-field row per forecast entry in series order. File creation, quoting and
  flushing belong to the CSV library and are not modelled.
 */
module IoHelper {
  import opened Options
  import opened Weather
  import opened Columns
  import Decimal

  const ColumnTitles: seq<string> := [
    "Timepoint", "Temperature 2m", "Cloud Cover", "Lifted Index", "Seeing",
    "Transparency", "Humidity", "Precipitation", "Wind 10m"
  ]

  /** The field each data-row column holds, as the row literal lists them. */
  const ColumnOrder: seq<Field> := [
    Timepoint, Temperature, CloudCover, LiftedIndex, Seeing,
    Transparency, Humidity, Precipitation, Wind
  ]

  /** The title that names a field's column. */
  function Title(f: Field): string {
    match f
    case Timepoint => "Timepoint"
    case Temperature => "Temperature 2m"
    case CloudCover => "Cloud Cover"
    case LiftedIndex => "Lifted Index"
    case Seeing => "Seeing"
    case Transparency => "Transparency"
    case Humidity => "Humidity"
    case Precipitation => "Precipitation"
    case Wind => "Wind 10m"
  }

  /** The data rows show every field exactly once. */
  lemma ColumnOrderIsPermutation()
    ensures multiset(ColumnOrder) == AllFields
  {
  }

  /** The title row names each field above the column that holds it. */
  lemma TitlesLabelColumns()
    ensures |ColumnTitles| == |ColumnOrder|
    ensures forall j :: 0 <= j < |ColumnOrder| ==> ColumnTitles[j] == Title(ColumnOrder[j])
  {
  }

  /** No two fields share a title. */
  lemma TitleInjective(f: Field, g: Field)
    requires Title(f) == Title(g)
    ensures f == g
  {
  }

  /** Whichever column a field's title heads, the data row holds that field's text there. */
  lemma DataRowByTitle(e: DataSeries, j: int, f: Field)
    requires 0 <= j < |ColumnTitles| && ColumnTitles[j] == Title(f)
    ensures DataRow(e)[j] == Render(e, f)
  {
    TitlesLabelColumns();
    TitleInjective(ColumnOrder[j], f);
  }

  /**
    The header block: a one-cell label row, four label-value rows carrying the
    coordinates and the response's init time and product verbatim, then the titles.
   */
  function HeaderRows(data: ApiResponse, lat: string, lng: string): (r: seq<seq<string>>)
    ensures |r| == 6 && |r[0]| == 1 && r[5] == ColumnTitles
    ensures forall i :: 1 <= i < 5 ==> |r[i]| == 2
    ensures r[1][1] == lat && r[2][1] == lng && r[3][1] == data.init && r[4][1] == data.product
  {
    [
      ["Weather forecasts data for"],
      ["Latitude", lat],
      ["Longitude", lng],
      ["Initial Timestamp", data.init],
      ["Product", data.product],
      ColumnTitles
    ]
  }

  /** One entry's row: its fields in the order of the column titles. */
  function DataRow(e: DataSeries): (r: seq<string>)
    ensures |r| == |ColumnTitles|
    ensures forall j :: 0 <= j < |r| ==> r[j] == Render(e, ColumnOrder[j])
  {
    RenderRow(e, ColumnOrder)
  }

  /** The row is the one `WriteToCSV` lists field by field. */
  lemma DataRowIsLiteral(e: DataSeries)
    ensures DataRow(e) == [
      Decimal.FromInt(e.timepoint), TemperatureString(e), CloudCoverString(e),
      LiftedIndexString(e), SeeingString(e), TransparencyString(e),
      HumidityString(e), e.precType, WindSpeedString(e)
    ]
  {
  }

  /**
    What a row carries back: the timepoint and the temperature parse to the entry's
    values, the precipitation type is the entry's own, and the wind column splits
    into the entry's direction and speed band.
   */
  lemma DataRowFields(e: DataSeries)
    ensures Decimal.ParseInt(DataRow(e)[0]) == Some(e.timepoint)
    ensures ParseTemperature(DataRow(e)[1]) == Some(e.temp2m)
    ensures DataRow(e)[7] == e.precType
    ensures ' ' !in e.wind10m.direction ==>
              SplitAtFirstSpace(DataRow(e)[8]) == (e.wind10m.direction, GetWindSpeed(e.wind10m.speed))
  {
    Decimal.ParseFromInt(e.timepoint);
  }

  /** The rows `WriteToCSV` writes, in writing order. */
  method WriteToCsv(data: ApiResponse, lat: string, lng: string) returns (rows: seq<seq<string>>)
    ensures |rows| == 6 + |data.dataSeries|
    ensures rows[0] == ["Weather forecasts data for"]
    ensures rows[1] == ["Latitude", lat] && rows[2] == ["Longitude", lng]
    ensures rows[3] == ["Initial Timestamp", data.init] && rows[4] == ["Product", data.product]
    ensures rows[5] == ColumnTitles
    ensures forall i :: 0 <= i < |data.dataSeries| ==> rows[6 + i] == DataRow(data.dataSeries[i])
    ensures forall i :: 5 <= i < |rows| ==> |rows[i]| == 9
  {
    var headers := HeaderRows(data, lat, lng);
    rows := headers;
    var n := 0;
    while n < |data.dataSeries|
      invariant 0 <= n <= |data.dataSeries|
      invariant |rows| == 6 + n
      invariant forall i :: 0 <= i < 6 ==> rows[i] == headers[i]
      invariant forall i :: 0 <= i < n ==> rows[6 + i] == DataRow(data.dataSeries[i])
    {
      rows := rows + [DataRow(data.dataSeries[n])];
      n := n + 1;
    }
    forall i | 6 <= i < |rows|
      ensures |rows[i]| == 9
    {
      assert rows[6 + (i - 6)] == DataRow(data.dataSeries[i - 6]);
    }
  }
}
