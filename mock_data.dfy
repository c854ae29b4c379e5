/**
 * The mock data tables of the web front end: three yearly snapshots of the
 * eight Monterrey zones, the list of years and zone labels offered by the
 * filters, and the health-impact cards.
 */
module MockData {
  import opened Strings
  import opened Seqs

  /** The severity of a health impact; the type admits exactly these three. */
  datatype Severity = Low | Medium | High

  datatype HealthImpact = HealthImpact(
    id: string,
    condition: string,
    severity: Severity,
    affectedPopulation: string,
    description: string,
    tips: seq<string>)

  /** One zone in one year; `bloomingIntensity` is meant to lie in 0..100. */
  datatype RegionData = RegionData(
    id: string,
    name: string,
    bloomingIntensity: int,
    dominantFlowers: seq<string>,
    latitude: real,
    longitude: real)

  datatype YearlyData = YearlyData(year: int, regions: seq<RegionData>)

  const HealthImpacts: seq<HealthImpact> := [
    HealthImpact("1", "Seasonal Allergies", High, "25% of population",
      "Tree pollen from Jacaranda and other blooming trees can trigger severe allergic reactions.",
      ["Keep windows closed during peak bloom times", "Use air purifiers indoors",
       "Take antihistamines as prescribed", "Limit outdoor activities during morning hours"]),
    HealthImpact("2", "Asthma Exacerbation", Medium, "8% of population",
      "Increased pollen levels can worsen asthma symptoms and trigger breathing difficulties.",
      ["Carry rescue inhalers at all times", "Monitor local pollen forecasts",
       "Wear masks when outdoors", "Consider increasing controller medications"]),
    HealthImpact("3", "Hay Fever", Medium, "15% of population",
      "Grass and flower pollen contribute to classic hay fever symptoms.",
      ["Shower after outdoor activities", "Change clothes when returning indoors",
       "Use saline nasal rinses", "Keep humidity levels optimal (30-50%)"])
  ]

  const North2024: RegionData :=
    RegionData("north", "North Monterrey", 78, ["Jacaranda", "Orange Blossom"], 25.7617, -100.2722)

  const Northeast2024: RegionData :=
    RegionData("northeast", "Northeast Monterrey", 85, ["Bougainvillea", "Hibiscus"], 25.7500, -100.2500)

  const Northwest2024: RegionData :=
    RegionData("northwest", "Northwest Monterrey", 72, ["Desert Marigold", "Palo Verde"], 25.7500, -100.3500)

  const South2024: RegionData :=
    RegionData("south", "South Monterrey", 92, ["Flamboyant", "Royal Poinciana"], 25.6000, -100.2722)

  const Southeast2024: RegionData :=
    RegionData("southeast", "Southeast Monterrey", 88, ["Wild Lupine", "Mexican Buckeye"], 25.6200, -100.2200)

  const Southwest2024: RegionData :=
    RegionData("southwest", "Southwest Monterrey", 65, ["Cenizo", "Retama"], 25.6200, -100.3200)

  const East2024: RegionData :=
    RegionData("east", "East Monterrey", 80, ["Esperanza", "Mexican Honeysuckle"], 25.6722, -100.2000)

  const West2024: RegionData :=
    RegionData("west", "West Monterrey", 75, ["Texas Sage", "Desert Willow"], 25.6722, -100.3500)

  /** The 2024 snapshot, in table order. */
  const Regions2024: seq<RegionData> :=
    [North2024, Northeast2024, Northwest2024, South2024, Southeast2024, Southwest2024, East2024, West2024]

  const North2023: RegionData :=
    RegionData("north", "North Monterrey", 82, ["Jacaranda", "Orange Blossom"], 25.7617, -100.2722)

  const Northeast2023: RegionData :=
    RegionData("northeast", "Northeast Monterrey", 79, ["Bougainvillea", "Hibiscus"], 25.7500, -100.2500)

  const Northwest2023: RegionData :=
    RegionData("northwest", "Northwest Monterrey", 68, ["Desert Marigold", "Palo Verde"], 25.7500, -100.3500)

  const South2023: RegionData :=
    RegionData("south", "South Monterrey", 95, ["Flamboyant", "Royal Poinciana"], 25.6000, -100.2722)

  const Southeast2023: RegionData :=
    RegionData("southeast", "Southeast Monterrey", 85, ["Wild Lupine", "Mexican Buckeye"], 25.6200, -100.2200)

  const Southwest2023: RegionData :=
    RegionData("southwest", "Southwest Monterrey", 62, ["Cenizo", "Retama"], 25.6200, -100.3200)

  const East2023: RegionData :=
    RegionData("east", "East Monterrey", 77, ["Esperanza", "Mexican Honeysuckle"], 25.6722, -100.2000)

  const West2023: RegionData :=
    RegionData("west", "West Monterrey", 71, ["Texas Sage", "Desert Willow"], 25.6722, -100.3500)

  /** The 2023 snapshot, in table order. */
  const Regions2023: seq<RegionData> :=
    [North2023, Northeast2023, Northwest2023, South2023, Southeast2023, Southwest2023, East2023, West2023]

  const North2022: RegionData :=
    RegionData("north", "North Monterrey", 75, ["Jacaranda", "Orange Blossom"], 25.7617, -100.2722)

  const Northeast2022: RegionData :=
    RegionData("northeast", "Northeast Monterrey", 73, ["Bougainvillea", "Hibiscus"], 25.7500, -100.2500)

  const Northwest2022: RegionData :=
    RegionData("northwest", "Northwest Monterrey", 65, ["Desert Marigold", "Palo Verde"], 25.7500, -100.3500)

  const South2022: RegionData :=
    RegionData("south", "South Monterrey", 89, ["Flamboyant", "Royal Poinciana"], 25.6000, -100.2722)

  const Southeast2022: RegionData :=
    RegionData("southeast", "Southeast Monterrey", 81, ["Wild Lupine", "Mexican Buckeye"], 25.6200, -100.2200)

  const Southwest2022: RegionData :=
    RegionData("southwest", "Southwest Monterrey", 58, ["Cenizo", "Retama"], 25.6200, -100.3200)

  const East2022: RegionData :=
    RegionData("east", "East Monterrey", 74, ["Esperanza", "Mexican Honeysuckle"], 25.6722, -100.2000)

  const West2022: RegionData :=
    RegionData("west", "West Monterrey", 68, ["Texas Sage", "Desert Willow"], 25.6722, -100.3500)

  /** The 2022 snapshot, in table order. */
  const Regions2022: seq<RegionData> :=
    [North2022, Northeast2022, Northwest2022, South2022, Southeast2022, Southwest2022, East2022, West2022]

  /** `monterreyZonesData`: the snapshots, newest first. */
  const MonterreyZonesData: seq<YearlyData> :=
    [YearlyData(2024, Regions2024), YearlyData(2023, Regions2023), YearlyData(2022, Regions2022)]

  /** The year of each snapshot, in table order (`data.map(d => d.year)`). */
  function Years(data: seq<YearlyData>): (ys: seq<int>)
    ensures |ys| == |data|
    ensures forall i :: 0 <= i < |data| ==> ys[i] == data[i].year
  {
    if data == [] then [] else [data[0].year] + Years(data[1..])
  }

  /** `availableYears`. */
  const AvailableYears: seq<int> := Years(MonterreyZonesData)

  /** `availableZones`: the zone filter labels. */
  const AvailableZones: seq<string> :=
    ["All", "North", "Northeast", "Northwest", "South", "Southeast", "Southwest", "East", "West"]

  /** The zone ids every snapshot lists, in their table order. */
  const ZoneIds: seq<string> :=
    ["north", "northeast", "northwest", "south", "southeast", "southwest", "east", "west"]

  /** The ids of a list of regions, in order. */
  function Ids(rs: seq<RegionData>): (ids: seq<string>)
    ensures |ids| == |rs|
    ensures forall i :: 0 <= i < |rs| ==> ids[i] == rs[i].id
  {
    if rs == [] then [] else [rs[0].id] + Ids(rs[1..])
  }

  /** Two records of the same zone agree on everything but the intensity. */
  predicate SameZone(a: RegionData, b: RegionData)
  {
    a.id == b.id && a.name == b.name && a.dominantFlowers == b.dominantFlowers
    && a.latitude == b.latitude && a.longitude == b.longitude
  }

  lemma AvailableYearsValue()
    ensures AvailableYears == [2024, 2023, 2022]
    ensures AvailableYears[0] == 2024
  {
  }

  /** Every intensity in every snapshot lies in 0..100. */
  lemma IntensitiesInRange()
    ensures forall k, i | 0 <= k < |MonterreyZonesData| && 0 <= i < |MonterreyZonesData[k].regions| ::
      0 <= MonterreyZonesData[k].regions[i].bloomingIntensity <= 100
  {
  }

  /** The zone ids are pairwise distinct. */
  lemma ZoneIdsUnique()
    ensures Unique(ZoneIds)
  {
  }

  /** A list whose ids are, position by position, those of `ZoneIds`. */
  lemma IdsAreZoneIds(rs: seq<RegionData>)
    requires |rs| == |ZoneIds|
    requires forall i :: 0 <= i < |rs| ==> rs[i].id == ZoneIds[i]
    ensures Ids(rs) == ZoneIds
  {
  }

  lemma Ids2024()
    ensures Ids(Regions2024) == ZoneIds
  {
    IdsAreZoneIds(Regions2024);
  }

  lemma Ids2023()
    ensures Ids(Regions2023) == ZoneIds
  {
    IdsAreZoneIds(Regions2023);
  }

  lemma Ids2022()
    ensures Ids(Regions2022) == ZoneIds
  {
    IdsAreZoneIds(Regions2022);
  }

  /** Each snapshot lists the same eight ids in the same order, each once. */
  lemma SameIdsEveryYear()
    ensures Unique(ZoneIds)
    ensures forall k :: 0 <= k < |MonterreyZonesData| ==> Ids(MonterreyZonesData[k].regions) == ZoneIds
  {
    ZoneIdsUnique();
    forall k | 0 <= k < |MonterreyZonesData|
      ensures Ids(MonterreyZonesData[k].regions) == ZoneIds
    {
      if k == 0 {
        Ids2024();
      } else if k == 1 {
        Ids2023();
      } else {
        Ids2022();
      }
    }
  }

  /** Every snapshot describes the zones of `base`, position by position. */
  predicate Aligned(data: seq<YearlyData>, base: seq<RegionData>)
  {
    forall k :: 0 <= k < |data| ==>
      |data[k].regions| == |base| && forall i :: 0 <= i < |base| ==> SameZone(data[k].regions[i], base[i])
  }

  /** Records with the same id describe the same zone, whatever the snapshot. */
  predicate StableById(data: seq<YearlyData>)
  {
    forall k1, k2, i, j ::
      0 <= k1 < |data| && 0 <= k2 < |data| &&
      0 <= i < |data[k1].regions| && 0 <= j < |data[k2].regions| &&
      data[k1].regions[i].id == data[k2].regions[j].id
      ==> SameZone(data[k1].regions[i], data[k2].regions[j])
  }

  /** The snapshots line up with the 2024 one. */
  lemma SnapshotsAlign()
    ensures Aligned(MonterreyZonesData, Regions2024)
  {
  }

  /** Aligned snapshots over distinct ids keep each zone's attributes. */
  lemma {:induction false} AlignedIsStable(data: seq<YearlyData>, base: seq<RegionData>)
    requires Aligned(data, base)
    requires Unique(Ids(base))
    ensures StableById(data)
  {
    forall k1, k2, i, j |
      0 <= k1 < |data| && 0 <= k2 < |data| &&
      0 <= i < |data[k1].regions| && 0 <= j < |data[k2].regions| &&
      data[k1].regions[i].id == data[k2].regions[j].id
      ensures SameZone(data[k1].regions[i], data[k2].regions[j])
    {
      assert SameZone(data[k1].regions[i], base[i]);
      assert SameZone(data[k2].regions[j], base[j]);
      assert Ids(base)[i] == Ids(base)[j];
    }
  }

  /** A zone id names the same zone, apart from its intensity, in every year. */
  lemma ZoneAttributesStable()
    ensures StableById(MonterreyZonesData)
  {
    SnapshotsAlign();
    Ids2024();
    ZoneIdsUnique();
    AlignedIsStable(MonterreyZonesData, Regions2024);
  }

  /** The region of the first snapshot whose lower-cased name contains `zone`. */
  predicate LabelMatchesSomeZone(zone: string)
  {
    exists i :: 0 <= i < |Regions2024| && Includes(ToLower(Regions2024[i].name), ToLower(zone))
  }

  /** Each label after "All" is the name of the zone at the position before it, less " Monterrey". */
  lemma NamesExtendLabels()
    ensures forall k :: 1 <= k < |AvailableZones| ==> Regions2024[k - 1].name == AvailableZones[k] + " Monterrey"
  {
    assert North2024.name == AvailableZones[1] + " Monterrey";
    assert Northeast2024.name == AvailableZones[2] + " Monterrey";
    assert Northwest2024.name == AvailableZones[3] + " Monterrey";
    assert South2024.name == AvailableZones[4] + " Monterrey";
    assert Southeast2024.name == AvailableZones[5] + " Monterrey";
    assert Southwest2024.name == AvailableZones[6] + " Monterrey";
    assert East2024.name == AvailableZones[7] + " Monterrey";
    assert West2024.name == AvailableZones[8] + " Monterrey";
  }

  /** The filter offers "All" first, and every other label occurs in some zone name. */
  lemma ZoneLabelsMatchZones()
    ensures AvailableZones[0] == "All"
    ensures forall k :: 1 <= k < |AvailableZones| ==> LabelMatchesSomeZone(AvailableZones[k])
  {
    forall k | 1 <= k < |AvailableZones|
      ensures LabelMatchesSomeZone(AvailableZones[k])
    {
      NamesExtendLabels();
      IncludesLoweredPrefix(AvailableZones[k], " Monterrey");
    }
  }
}
