/**
 * The processed NDVI table the models read (`processed_ndvi_data.csv`):
 * one row per region and date. Selecting a region's rows sorted by date and
 * listing the regions in order of appearance are shared by the predictors
 * and the validator.
 */
module ProcessedData {
  import opened Seqs
  import opened Sorting

  /** A row of the processed historical data; the date is a day number. */
  datatype Observation = Observation(region: string, date: int, ndvi: real)

  predicate DateLe(a: Observation, b: Observation)
  {
    a.date <= b.date
  }

  lemma DateLeTotalPreorder()
    ensures TotalPreorder(DateLe)
  {
  }

  function RegionTest(region: string): Observation -> bool
  {
    (o: Observation) => o.region == region
  }

  /** The rows of one region, sorted by date. */
  function SortedRegionRows(hist: seq<Observation>, region: string): (rows: seq<Observation>)
    ensures forall i :: 0 <= i < |rows| ==> rows[i] in hist && rows[i].region == region
    ensures forall i :: 0 <= i < |hist| && hist[i].region == region ==> hist[i] in rows
  {
    var f := Filter(hist, RegionTest(region));
    SortSameElements(f, DateLe);
    var rows := Sort(f, DateLe);
    assert forall i :: 0 <= i < |rows| ==> rows[i] in f;
    assert forall i :: 0 <= i < |f| ==> f[i] in rows;
    rows
  }

  /** The regions of the historical data in order of first appearance (`unique()`). */
  function Regions(hist: seq<Observation>): (regions: seq<string>)
    ensures Unique(regions)
    ensures forall i :: 0 <= i < |hist| ==> hist[i].region in regions
    ensures forall i :: 0 <= i < |regions| ==> exists j :: 0 <= j < |hist| && hist[j].region == regions[i]
  {
    var names := seq(|hist|, i requires 0 <= i < |hist| => hist[i].region);
    var regions := Distinct(names);
    assert forall i :: 0 <= i < |hist| ==> names[i] == hist[i].region;
    assert forall i :: 0 <= i < |regions| ==> regions[i] in names;
    regions
  }

  /** Rows sorted by `DateLe` have non-decreasing dates. */
  lemma SortedDates(rows: seq<Observation>)
    requires Sorted(rows, DateLe)
    ensures forall i, j :: 0 <= i <= j < |rows| ==> rows[i].date <= rows[j].date
  {
    forall i, j | 0 <= i < j < |rows|
      ensures rows[i].date <= rows[j].date
    {
      assert DateLe(rows[i], rows[j]);
    }
  }

  /** A region's rows are in date order, so the first has the least date and the last the greatest. */
  lemma SortedRegionRowsOrdered(hist: seq<Observation>, region: string)
    ensures var rows := SortedRegionRows(hist, region);
      forall i, j :: 0 <= i <= j < |rows| ==> rows[i].date <= rows[j].date
  {
    var f := Filter(hist, RegionTest(region));
    DateLeTotalPreorder();
    SortSorted(f, DateLe);
    SortedDates(Sort(f, DateLe));
  }
}
