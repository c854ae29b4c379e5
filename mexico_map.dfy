/**
 * The Monterrey bloom-map view: intensity colours and labels, the legend,
 * the year and zone filter, the fixed marker layout and the selection state.
 */
module MexicoMap {
  import opened Wrappers
  import opened Strings
  import opened Seqs
  import opened MockData

  /** `getIntensityColor`: the marker colour class of an intensity. */
  function IntensityColor(intensity: int): (c: string)
    ensures c == "bg-red-500" <==> 80 <= intensity
    ensures c == "bg-orange-500" <==> 60 <= intensity < 80
    ensures c == "bg-yellow-500" <==> 40 <= intensity < 60
    ensures c == "bg-green-500" <==> intensity < 40
  {
    if intensity >= 80 then "bg-red-500"
    else if intensity >= 60 then "bg-orange-500"
    else if intensity >= 40 then "bg-yellow-500"
    else "bg-green-500"
  }

  /** `getIntensityLabel`: the tier name of an intensity. */
  function IntensityLabel(intensity: int): (l: string)
    ensures l == "Very High" <==> 80 <= intensity
    ensures l == "High" <==> 60 <= intensity < 80
    ensures l == "Medium" <==> 40 <= intensity < 60
    ensures l == "Low" <==> intensity < 40
  {
    if intensity >= 80 then "Very High"
    else if intensity >= 60 then "High"
    else if intensity >= 40 then "Medium"
    else "Low"
  }

  /** The position of a tier name in the order Low < Medium < High < Very High. */
  function LabelRank(l: string): int
  {
    if l == "Very High" then 3 else if l == "High" then 2 else if l == "Medium" then 1 else 0
  }

  /** The colour and the label always name the same tier. */
  lemma ColorMatchesLabel(intensity: int)
    ensures IntensityColor(intensity) == "bg-red-500" <==> IntensityLabel(intensity) == "Very High"
    ensures IntensityColor(intensity) == "bg-orange-500" <==> IntensityLabel(intensity) == "High"
    ensures IntensityColor(intensity) == "bg-yellow-500" <==> IntensityLabel(intensity) == "Medium"
    ensures IntensityColor(intensity) == "bg-green-500" <==> IntensityLabel(intensity) == "Low"
  {
  }

  /** A higher intensity never gets a lower tier. */
  lemma LabelMonotone(a: int, b: int)
    requires a <= b
    ensures LabelRank(IntensityLabel(a)) <= LabelRank(IntensityLabel(b))
  {
  }

  /** The values on either side of each threshold. */
  lemma LabelBoundaries()
    ensures IntensityLabel(80) == "Very High" && IntensityLabel(79) == "High"
    ensures IntensityLabel(60) == "High" && IntensityLabel(59) == "Medium"
    ensures IntensityLabel(40) == "Medium" && IntensityLabel(39) == "Low"
    ensures IntensityLabel(100) == "Very High" && IntensityLabel(150) == "Very High"
    ensures IntensityLabel(0) == "Low" && IntensityLabel(-5) == "Low"
  {
  }

  /** One legend entry: a colour, a tier name and the intensity range it stands for. */
  datatype LegendBand = LegendBand(color: string, name: string, lo: int, hi: Option<int>)

  /** `intensity` falls in the range of `b`; a band without an upper end is open. */
  predicate InBand(b: LegendBand, intensity: int)
  {
    b.lo <= intensity && (b.hi.None? || intensity <= b.hi.value)
  }

  /** The text of a legend entry, "Very High (80%+)" or "High (60-79%)". */
  function LegendText(b: LegendBand): string
    requires b.lo >= 0 && (b.hi.Some? ==> b.hi.value >= 0)
  {
    b.name + " (" + DecimalString(b.lo)
      + (if b.hi.None? then "%+" else "-" + DecimalString(b.hi.value) + "%") + ")"
  }

  /** Some band of `legend` holds `intensity`. */
  predicate Covered(legend: seq<LegendBand>, intensity: int)
  {
    exists k :: 0 <= k < |legend| && InBand(legend[k], intensity)
  }

  /**
   * The bands run from the top down without gap or overlap: the first is open
   * above, each next one ends just below where the previous one starts, and
   * the last starts at 0.
   */
  predicate ContiguousDescending(legend: seq<LegendBand>)
  {
    && |legend| > 0
    && legend[0].hi.None?
    && legend[|legend| - 1].lo == 0
    && forall k :: 0 <= k < |legend| - 1 ==> legend[k + 1].hi == Some(legend[k].lo - 1) && legend[k + 1].lo <= legend[k].lo - 1
  }

  /** The legend drawn under the map. */
  const Legend: seq<LegendBand> := [
    LegendBand("bg-red-500", "Very High", 80, None),
    LegendBand("bg-orange-500", "High", 60, Some(79)),
    LegendBand("bg-yellow-500", "Medium", 40, Some(59)),
    LegendBand("bg-green-500", "Low", 0, Some(39))
  ]

  /** The legend's text is the one the view shows. */
  lemma LegendTexts()
    ensures LegendText(Legend[0]) == "Very High (80%+)"
    ensures LegendText(Legend[1]) == "High (60-79%)"
    ensures LegendText(Legend[2]) == "Medium (40-59%)"
    ensures LegendText(Legend[3]) == "Low (0-39%)"
  {
  }

  /**
   * The legend agrees with the classifier: its bands are contiguous, and every
   * intensity in a band gets that band's colour and name. Negative
   * intensities fall outside every band and are coloured as Low.
   */
  lemma LegendMatchesClassifier()
    ensures ContiguousDescending(Legend)
    ensures forall k, i :: 0 <= k < |Legend| && InBand(Legend[k], i) ==>
      IntensityColor(i) == Legend[k].color && IntensityLabel(i) == Legend[k].name
    ensures forall i :: i >= 0 ==> Covered(Legend, i)
  {
    forall i | i >= 0
      ensures Covered(Legend, i)
    {
      var k := if i >= 80 then 0 else if i >= 60 then 1 else if i >= 40 then 2 else 3;
      assert InBand(Legend[k], i);
    }
  }

  /** `data.find(d => d.year === year)`. */
  function SnapshotFor(data: seq<YearlyData>, year: Option<int>): (r: Option<YearlyData>)
    ensures r.Some? ==> year.Some? && r.value in data && r.value.year == year.value
    ensures r.None? <==> year.None? || forall k :: 0 <= k < |data| ==> data[k].year != year.value
  {
    match year
    case None => None
    case Some(y) => Find(data, (d: YearlyData) => d.year == y)
  }

  /** The zone filter: the lower-cased name contains the lower-cased label. */
  predicate MatchesZone(r: RegionData, zone: string)
  {
    Includes(ToLower(r.name), ToLower(zone))
  }

  /**
   * `filteredRegions`: nothing without a snapshot for the year, the whole
   * snapshot for "All", and otherwise the regions matching the label, in order.
   * The year is `None` when the selected text did not parse (`NaN`).
   */
  function FilteredRegions(data: seq<YearlyData>, year: Option<int>, zone: string): (r: seq<RegionData>)
    ensures SnapshotFor(data, year).None? ==> r == []
    ensures SnapshotFor(data, year).Some? && zone == "All" ==> r == SnapshotFor(data, year).value.regions
    ensures SnapshotFor(data, year).Some? && zone != "All" ==>
      var rs := SnapshotFor(data, year).value.regions;
      (forall i :: 0 <= i < |r| ==> r[i] in rs && MatchesZone(r[i], zone))
      && (forall i :: 0 <= i < |rs| && MatchesZone(rs[i], zone) ==> rs[i] in r)
  {
    match SnapshotFor(data, year)
    case None => []
    case Some(yd) =>
      if zone == "All" then yd.regions
      else Filter(yd.regions, (r: RegionData) => MatchesZone(r, zone))
  }

  /** The filter keeps the order of the snapshot: it distributes over any split of it. */
  lemma FilterKeepsOrder(a: seq<RegionData>, b: seq<RegionData>, zone: string)
    ensures Filter(a + b, (r: RegionData) => MatchesZone(r, zone))
         == Filter(a, (r: RegionData) => MatchesZone(r, zone)) + Filter(b, (r: RegionData) => MatchesZone(r, zone))
  {
    FilterAppend(a, b, (r: RegionData) => MatchesZone(r, zone));
  }

  /** The 2024 snapshot is the first one. */
  lemma Snapshot2024()
    ensures SnapshotFor(MonterreyZonesData, Some(2024)) == Some(YearlyData(2024, Regions2024))
  {
    assert MonterreyZonesData[0].year == 2024;
  }

  /** What the 2024 view shows for a label: the matching regions of the 2024 snapshot. */
  lemma Shown2024(zone: string, r: RegionData)
    requires zone != "All"
    ensures r in FilteredRegions(MonterreyZonesData, Some(2024), zone) <==> r in Regions2024 && MatchesZone(r, zone)
  {
    Snapshot2024();
    var shown := FilteredRegions(MonterreyZonesData, Some(2024), zone);
    if r in shown {
      var i :| 0 <= i < |shown| && shown[i] == r;
    }
    if r in Regions2024 && MatchesZone(r, zone) {
      var i :| 0 <= i < |Regions2024| && Regions2024[i] == r;
    }
  }

  /** The three 2024 zone names that contain "east", ignoring case. */
  lemma EastMatchesIn()
    ensures MatchesZone(Northeast2024, "East")
    ensures MatchesZone(Southeast2024, "East")
    ensures MatchesZone(East2024, "East")
  {
    assert ToLower("east") == ToLower("East");
    LoweredIncludes(Northeast2024.name, "North", "east", " Monterrey", "East");
    LoweredIncludes(Southeast2024.name, "South", "east", " Monterrey", "East");
    LoweredIncludes(East2024.name, "", "East", " Monterrey", "East");
  }

  /** The filter matches substrings: "East" keeps Northeast, Southeast and East Monterrey. */
  lemma EastFilter()
    ensures Northeast2024 in FilteredRegions(MonterreyZonesData, Some(2024), "East")
    ensures Southeast2024 in FilteredRegions(MonterreyZonesData, Some(2024), "East")
    ensures East2024 in FilteredRegions(MonterreyZonesData, Some(2024), "East")
  {
    EastMatchesIn();
    assert Regions2024[1] == Northeast2024 && Regions2024[4] == Southeast2024 && Regions2024[6] == East2024;
    Shown2024("East", Northeast2024);
    Shown2024("East", Southeast2024);
    Shown2024("East", East2024);
  }

  /** "North" keeps North, Northeast and Northwest Monterrey. */
  lemma NorthFilter()
    ensures North2024 in FilteredRegions(MonterreyZonesData, Some(2024), "North")
    ensures Northeast2024 in FilteredRegions(MonterreyZonesData, Some(2024), "North")
    ensures Northwest2024 in FilteredRegions(MonterreyZonesData, Some(2024), "North")
  {
    LoweredIncludes(North2024.name, "", "North", " Monterrey", "North");
    LoweredIncludes(Northeast2024.name, "", "North", "east Monterrey", "North");
    LoweredIncludes(Northwest2024.name, "", "North", "west Monterrey", "North");
    assert Regions2024[0] == North2024 && Regions2024[1] == Northeast2024 && Regions2024[2] == Northwest2024;
    Shown2024("North", North2024);
    Shown2024("North", Northeast2024);
    Shown2024("North", Northwest2024);
  }

  /** The zone-count badge: shown unless the label is "All", with the number of zones listed. */
  function BadgeCount(data: seq<YearlyData>, year: Option<int>, zone: string): (n: Option<nat>)
    ensures n.None? <==> zone == "All"
    ensures n.Some? ==> n.value == |FilteredRegions(data, year, zone)|
  {
    if zone == "All" then None else Some(|FilteredRegions(data, year, zone)|)
  }

  /** A point of the 400 by 400 drawing. */
  datatype Point = Point(x: int, y: int)

  const Centre := Point(200, 200)

  /** The eight direction ids that have a place on the map. */
  const DirectionIds: seq<string> := ["north", "northeast", "east", "southeast", "south", "southwest", "west", "northwest"]

  /** The marker position of a zone id; any other id is drawn at the centre. */
  function ZonePosition(id: string): (p: Point)
    ensures id !in DirectionIds ==> p == Centre
    ensures id in DirectionIds ==> 9800 <= DistanceSquared(p) <= 10000
    ensures p.y < Centre.y <==> id in ["north", "northeast", "northwest"]
    ensures p.y > Centre.y <==> id in ["south", "southeast", "southwest"]
    ensures p.x > Centre.x <==> id in ["east", "northeast", "southeast"]
    ensures p.x < Centre.x <==> id in ["west", "northwest", "southwest"]
  {
    match id
    case "north" => Point(200, 100)
    case "northeast" => Point(270, 130)
    case "east" => Point(300, 200)
    case "southeast" => Point(270, 270)
    case "south" => Point(200, 300)
    case "southwest" => Point(130, 270)
    case "west" => Point(100, 200)
    case "northwest" => Point(130, 130)
    case _ => Centre
  }

  /** Squared distance from the centre. */
  function DistanceSquared(p: Point): int
  {
    (p.x - Centre.x) * (p.x - Centre.x) + (p.y - Centre.y) * (p.y - Centre.y)
  }

  /** The positions of the eight directions, clockwise from north. */
  function DirectionPoints(): (ps: seq<Point>)
    ensures |ps| == |DirectionIds|
  {
    seq(|DirectionIds|, k requires 0 <= k < |DirectionIds| => ZonePosition(DirectionIds[k]))
  }

  lemma DirectionPointsValue()
    ensures DirectionPoints() == [Point(200, 100), Point(270, 130), Point(300, 200), Point(270, 270),
                                  Point(200, 300), Point(130, 270), Point(100, 200), Point(130, 130)]
  {
    assert DirectionPoints() == seq(8, k requires 0 <= k < 8 => ZonePosition(DirectionIds[k]));
  }

  /** A direction and the one four steps round, its opposite, sum to (400, 400). */
  lemma OppositesSymmetric(k: int)
    requires 0 <= k < 8
    ensures DirectionPoints()[k].x + DirectionPoints()[(k + 4) % 8].x == 400
    ensures DirectionPoints()[k].y + DirectionPoints()[(k + 4) % 8].y == 400
  {
    DirectionPointsValue();
    if k < 4 {
      assert (k + 4) % 8 == k + 4;
    } else {
      assert (k + 4) % 8 == k - 4;
    }
  }

  /** Every direction lies inside the radius-150 outline, away from the centre, and no two share a point. */
  lemma DirectionsInsideOutline()
    ensures forall k :: 0 <= k < 8 ==> 0 < DistanceSquared(DirectionPoints()[k]) <= 150 * 150
    ensures forall k, l :: 0 <= k < l < 8 ==> DirectionPoints()[k] != DirectionPoints()[l]
  {
    DirectionPointsValue();
  }

  /** The mock zones are all laid out on the compass points. */
  lemma MockZonesHavePlaces()
    ensures forall i :: 0 <= i < |ZoneIds| ==> ZoneIds[i] in DirectionIds
  {
  }

  /** One row of the historical panel. */
  datatype HistoryRow = HistoryRow(year: int, region: RegionData)

  /**
   * The historical panel: for each snapshot in order, the record of the
   * selected id, found with `find`; snapshots without that id give no row.
   */
  function HistoricalRows(data: seq<YearlyData>, id: string): (rows: seq<HistoryRow>)
    ensures |rows| <= |data|
    ensures forall k :: 0 <= k < |rows| ==> rows[k].region.id == id
  {
    if data == [] then [] else SnapshotRow(data[0], id) + HistoricalRows(data[1..], id)
  }

  /** The row one snapshot contributes: its year with its first record of the id, if any. */
  function SnapshotRow(d: YearlyData, id: string): (rows: seq<HistoryRow>)
    ensures |rows| <= 1
    ensures |rows| == 1 <==> exists j :: 0 <= j < |d.regions| && d.regions[j].id == id
    ensures forall k :: 0 <= k < |rows| ==> rows[k].year == d.year && rows[k].region.id == id
  {
    match Find(d.regions, (r: RegionData) => r.id == id)
    case None => []
    case Some(r) => [HistoryRow(d.year, r)]
  }

  /** The panel has a row for a snapshot exactly when the snapshot holds the id, in snapshot order. */
  lemma {:induction false} HistoricalRowsSplit(a: seq<YearlyData>, b: seq<YearlyData>, id: string)
    ensures HistoricalRows(a + b, id) == HistoricalRows(a, id) + HistoricalRows(b, id)
  {
    if a == [] {
      assert a + b == b;
    } else {
      assert (a + b)[0] == a[0];
      assert (a + b)[1..] == a[1..] + b;
      HistoricalRowsSplit(a[1..], b, id);
    }
  }

  /** A snapshot holds the id: it gives the row of its year with its first record of the id. */
  lemma {:induction false} HistoricalRowsFull(data: seq<YearlyData>, id: string)
    requires forall k :: 0 <= k < |data| ==> id in Ids(data[k].regions)
    ensures |HistoricalRows(data, id)| == |data|
    ensures forall k :: 0 <= k < |data| ==> HistoricalRows(data, id)[k].year == data[k].year
  {
    if data != [] {
      var i :| 0 <= i < |Ids(data[0].regions)| && Ids(data[0].regions)[i] == id;
      assert data[0].regions[i].id == id;
      HistoricalRowsFull(data[1..], id);
    }
  }

  /** A snapshot without the id gives no row. */
  lemma HistoricalRowsSkip(d: YearlyData, id: string)
    requires id !in Ids(d.regions)
    ensures HistoricalRows([d], id) == []
  {
    assert [d][1..] == [];
    forall j | 0 <= j < |d.regions|
      ensures d.regions[j].id != id
    {
      assert Ids(d.regions)[j] == d.regions[j].id;
    }
  }

  /** Every id of the mock data has one row per year, newest first. */
  lemma HistoryOfMockZones(i: int)
    requires 0 <= i < |ZoneIds|
    ensures |HistoricalRows(MonterreyZonesData, ZoneIds[i])| == 3
    ensures forall k :: 0 <= k < 3 ==> HistoricalRows(MonterreyZonesData, ZoneIds[i])[k].year == AvailableYears[k]
  {
    SameIdsEveryYear();
    AvailableYearsValue();
    HistoricalRowsFull(MonterreyZonesData, ZoneIds[i]);
  }

  /** A marker or an overview row is highlighted when its id is the selected one. */
  predicate Highlighted(selected: Option<RegionData>, r: RegionData)
  {
    selected.Some? && selected.value.id == r.id
  }

  /** Since ids are unique within a snapshot, at most one of its zones is highlighted. */
  lemma AtMostOneHighlighted(selected: Option<RegionData>, rs: seq<RegionData>, i: int, j: int)
    requires Unique(Ids(rs))
    requires 0 <= i < |rs| && 0 <= j < |rs|
    requires Highlighted(selected, rs[i]) && Highlighted(selected, rs[j])
    ensures i == j
  {
    assert Ids(rs)[i] == Ids(rs)[j];
  }

  /** The state of the view: the selected region, year and zone label. */
  class MexicoMapView {
    var selectedRegion: Option<RegionData>
    /** The selected year; `None` when the chosen text is not a number (`NaN`). */
    var selectedYear: Option<int>
    var selectedZone: string

    /** Nothing selected, the first available year, every zone. */
    constructor()
      ensures selectedRegion == None
      ensures selectedYear == Some(AvailableYears[0])
      ensures selectedZone == "All"
    {
      selectedRegion := None;
      selectedYear := Some(AvailableYears[0]);
      selectedZone := "All";
    }

    /** The regions the map and the overview list show. */
    function Shown(): seq<RegionData>
      reads this
    {
      FilteredRegions(MonterreyZonesData, selectedYear, selectedZone)
    }

    /** Clicking a marker or an overview row selects that region; clicking it again keeps it. */
    method SelectRegion(r: RegionData)
      modifies this
      ensures selectedRegion == Some(r)
      ensures selectedYear == old(selectedYear) && selectedZone == old(selectedZone)
      ensures Highlighted(selectedRegion, r)
    {
      selectedRegion := Some(r);
    }

    /** The year select hands over the option's text; it is read with `parseInt`. */
    method SelectYear(value: string)
      modifies this
      ensures selectedYear == ParseInt(value)
      ensures selectedRegion == old(selectedRegion) && selectedZone == old(selectedZone)
    {
      selectedYear := ParseInt(value);
    }

    /** The zone select sets the label. */
    method SelectZone(zone: string)
      modifies this
      ensures selectedZone == zone
      ensures selectedRegion == old(selectedRegion) && selectedYear == old(selectedYear)
    {
      selectedZone := zone;
    }
  }

  /** Choosing the option of an available year selects that very year. */
  lemma YearOptionRoundTrip(k: int)
    requires 0 <= k < |AvailableYears|
    ensures ParseInt(DecimalString(AvailableYears[k])) == Some(AvailableYears[k])
  {
    AvailableYearsValue();
    ParseIntOfDecimal(AvailableYears[k]);
  }
}
