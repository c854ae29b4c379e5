/**
 * The client bloom-map page: eight zones placed round a circle by index,
 * coloured to match the intensity legend, and a single selected zone.
 */
module ClientBloomMap {
  import opened Wrappers
  import MexicoMap

  /** A zone of the page's table; the fields are the ones the page declares. */
  datatype Zone = Zone(name: string, percentage: int, color: string, dominantFlowers: string)

  const Zones: seq<Zone> := [
    Zone("North", 78, "bg-orange-500", "Jacaranda, Orange Blossom"),
    Zone("Northeast", 85, "bg-red-500", "Bougainvillea, Hibiscus"),
    Zone("East", 80, "bg-red-500", "Desert Marigold, Palo Verde"),
    Zone("Southeast", 88, "bg-red-500", "Wild Lupine, Mexican Buckeye"),
    Zone("South", 92, "bg-red-500", "Flamboyant, Royal Poinciana"),
    Zone("Southwest", 65, "bg-orange-500", "Desert Marigold, Palo Verde"),
    Zone("West", 75, "bg-orange-500", "Jacaranda, Orange Blossom"),
    Zone("Northwest", 72, "bg-orange-500", "Desert Marigold, Palo Verde")
  ]

  /** An entry of `intensityLegend` as the page writes it. */
  datatype LegendItem = LegendItem(color: string, text: string)

  const IntensityLegend: seq<LegendItem> := [
    LegendItem("bg-red-500", "Very High (80%+)"),
    LegendItem("bg-orange-500", "High (60-79%)"),
    LegendItem("bg-yellow-500", "Medium (40-59%)"),
    LegendItem("bg-green-500", "Low (0-39%)")
  ]

  /** The ranges the legend's texts spell out. */
  const LegendBands: seq<MexicoMap.LegendBand> := [
    MexicoMap.LegendBand("bg-red-500", "Very High", 80, None),
    MexicoMap.LegendBand("bg-orange-500", "High", 60, Some(79)),
    MexicoMap.LegendBand("bg-yellow-500", "Medium", 40, Some(59)),
    MexicoMap.LegendBand("bg-green-500", "Low", 0, Some(39))
  ]

  /** The legend lists contiguous bands from the top down, and its texts are exactly those ranges. */
  lemma LegendIsContiguous()
    ensures MexicoMap.ContiguousDescending(LegendBands)
    ensures |IntensityLegend| == |LegendBands|
    ensures forall k :: 0 <= k < |LegendBands| ==>
      IntensityLegend[k].color == LegendBands[k].color && IntensityLegend[k].text == MexicoMap.LegendText(LegendBands[k])
  {
    MexicoMap.LegendTexts();
    assert LegendBands == MexicoMap.Legend;
  }

  /** The angle in degrees of the marker at position `index`. */
  function Angle(index: nat): (a: nat)
    ensures a % 45 == 0 && a / 45 == index
  {
    index * 45
  }

  /** A marker of the page: the zone's name and its angle. */
  datatype Placed = Placed(name: string, angle: nat)

  /** Where each zone goes: its name with the angle of its position. */
  function Placement(zones: seq<Zone>): (ps: seq<Placed>)
    ensures |ps| == |zones|
    ensures forall i :: 0 <= i < |zones| ==> ps[i].name == zones[i].name && ps[i].angle == Angle(i)
  {
    seq(|zones|, i requires 0 <= i < |zones| => Placed(zones[i].name, Angle(i)))
  }

  /** The eight markers get eight distinct angles below a full turn. */
  lemma AnglesDistinct()
    ensures forall i, j :: 0 <= i < j < |Zones| ==> Angle(i) != Angle(j)
    ensures forall i :: 0 <= i < |Zones| ==> Angle(i) < 360
  {
  }

  /**
   * The angle depends on the position only: reordering the zones moves each
   * zone to the angle of its new position, and the angles stay as they were.
   */
  lemma PlacementFollowsOrder(a: seq<Zone>, b: seq<Zone>, perm: seq<nat>)
    requires |a| == |b| == |perm|
    requires forall i :: 0 <= i < |b| ==> perm[i] < |a| && b[i] == a[perm[i]]
    ensures forall i :: 0 <= i < |b| ==>
      Placement(b)[i] == Placed(a[perm[i]].name, Angle(i)) && Placement(b)[i].angle == Placement(a)[i].angle
  {
  }

  /** The colour of the legend band that holds a percentage. */
  predicate ColorOfBand(color: string, percentage: int)
  {
    exists k :: 0 <= k < |LegendBands| && MexicoMap.InBand(LegendBands[k], percentage) && LegendBands[k].color == color
  }

  /** Every zone is coloured as the legend band of its percentage. */
  lemma ZoneColorsMatchLegend()
    ensures forall i :: 0 <= i < |Zones| ==> ColorOfBand(Zones[i].color, Zones[i].percentage)
  {
    forall i | 0 <= i < |Zones|
      ensures ColorOfBand(Zones[i].color, Zones[i].percentage)
    {
      var k := if Zones[i].percentage >= 80 then 0 else 1;
      assert MexicoMap.InBand(LegendBands[k], Zones[i].percentage);
    }
  }

  /** Zone names are unique. */
  lemma ZoneNamesUnique()
    ensures forall i, j :: 0 <= i < j < |Zones| ==> Zones[i].name != Zones[j].name
  {
  }

  /** A row is highlighted when its name is the selected one. */
  predicate Highlighted(selected: Option<string>, z: Zone)
  {
    selected == Some(z.name)
  }

  /** At most one row is highlighted. */
  lemma AtMostOneHighlighted(selected: Option<string>, i: int, j: int)
    requires 0 <= i < |Zones| && 0 <= j < |Zones|
    requires Highlighted(selected, Zones[i]) && Highlighted(selected, Zones[j])
    ensures i == j
  {
    ZoneNamesUnique();
  }

  /** The page's state: the selected zone name, if any. */
  class ClientBloomMapView {
    var selectedZone: Option<string>

    constructor()
      ensures selectedZone == None
    {
      selectedZone := None;
    }

    /**
     * Clicking a marker or a row selects the zone by name. There is no
     * toggle: clicking the selected zone again leaves the selection as it is.
     */
    method SelectZone(z: Zone)
      modifies this
      ensures selectedZone == Some(z.name)
      ensures old(selectedZone) == Some(z.name) ==> selectedZone == old(selectedZone)
      ensures Highlighted(selectedZone, z)
    {
      selectedZone := Some(z.name);
    }
  }
}
