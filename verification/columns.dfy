/**
  The nine fields a forecast data row can show, and what each one shows for an
  entry. Both CSV writers emit these nine fields, in different orders; stating
  each writer's order as a list of fields lets the model say that a row lines up
  with its column titles and that the two writers differ only by a permutation.
 */
module Columns {
  import opened Weather
  import Decimal

  datatype Field =
    | Timepoint | Temperature | CloudCover | LiftedIndex | Seeing
    | Transparency | Humidity | Precipitation | Wind

  /** Each field once. */
  const AllFields: multiset<Field> := multiset{
    Timepoint, Temperature, CloudCover, LiftedIndex, Seeing,
    Transparency, Humidity, Precipitation, Wind
  }

  /** The text shown for field `f` of entry `e`; the precipitation type is passed through unmapped. */
  function Render(e: DataSeries, f: Field): string {
    match f
    case Timepoint => Decimal.FromInt(e.timepoint)
    case Temperature => TemperatureString(e)
    case CloudCover => CloudCoverString(e)
    case LiftedIndex => LiftedIndexString(e)
    case Seeing => SeeingString(e)
    case Transparency => TransparencyString(e)
    case Humidity => HumidityString(e)
    case Precipitation => e.precType
    case Wind => WindSpeedString(e)
  }

  /** One data row: the entry's fields, rendered in the given column order. */
  function RenderRow(e: DataSeries, order: seq<Field>): (r: seq<string>)
    ensures |r| == |order|
  {
    seq(|order|, j requires 0 <= j < |order| => Render(e, order[j]))
  }

  /** Rendering commutes with reordering: column j of `a` is column `p[j]` of `b`, so the rows agree the same way. */
  lemma RenderRowReorders(e: DataSeries, a: seq<Field>, b: seq<Field>, p: seq<nat>)
    requires |p| == |a|
    requires forall j :: 0 <= j < |p| ==> p[j] < |b| && a[j] == b[p[j]]
    ensures forall j :: 0 <= j < |p| ==> p[j] < |RenderRow(e, b)| && RenderRow(e, a)[j] == RenderRow(e, b)[p[j]]
  {
  }
}
