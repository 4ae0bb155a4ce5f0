/**
  The two CSV writers side by side: `WriteToCSV` of the iohelper package and the
  draft's `printWeatherDataToCSV` emit the same nine fields per entry, and differ
  only in where the temperature column sits.
 */
module Variants {
  import Weather
  import Columns
  import IoHelper
  import Draft

  /** Column j of the draft's row is column `DraftFromPackage[j]` of the package's row. */
  const DraftFromPackage: seq<nat> := [0, 2, 3, 1, 4, 5, 6, 7, 8]

  /** The draft's row is the package's row with the temperature moved from second to fourth place. */
  lemma DraftRowReordersPackageRow(e: Weather.DataSeries)
    ensures |Draft.DataRow(e)| == |IoHelper.DataRow(e)| == |DraftFromPackage|
    ensures forall j :: 0 <= j < |DraftFromPackage| ==>
              DraftFromPackage[j] < |IoHelper.DataRow(e)| &&
              Draft.DataRow(e)[j] == IoHelper.DataRow(e)[DraftFromPackage[j]]
  {
    Draft.DataRowRenders(e);
    assert IoHelper.DataRow(e) == Columns.RenderRow(e, IoHelper.ColumnOrder);
    Columns.RenderRowReorders(e, Draft.ColumnOrder, IoHelper.ColumnOrder, DraftFromPackage);
  }
}
