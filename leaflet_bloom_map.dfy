/**
 * The Leaflet map of Monterrey: nine zones with a marker and a popup, nine
 * polygons drawn in their zone's colour, a polygon selection, a marker
 * selection and a year select.
 */
module LeafletBloomMap {
  import opened Wrappers
  import opened Seqs

  /** A map position: latitude and longitude in degrees. */
  datatype LatLng = LatLng(lat: real, lng: real)

  /** A zone of the map: its marker position, colour, bloom level and popup contents. */
  datatype Zona = Zona(
    id: string, name: string, center: LatLng, color: string, bloomLevel: nat,
    description: string, emoji: string, species: seq<string>,
    riskLevel: string, temperature: string, humidity: string, windSpeed: string, lastUpdate: string,
    alerts: seq<string>)

  const NoroesteZona: Zona :=
    Zona("noroeste", "Noroeste", LatLng(25.7600, -100.3800), "#ff6b6b", 82,
      "Cerro de las Mitras - Zona monta\U{F1}osa con especies adaptadas",
      "\U{1F3D4}\U{FE0F}", ["Pine", "Oak", "Cedar", "Agave"],
      "Low", "21\U{B0}C", "58%", "12 km/h", "3 hours ago",
      ["Mountain species blooming"])

  const NoresteZona: Zona :=
    Zona("noreste", "Noreste", LatLng(25.7800, -100.2200), "#4ecdc4", 89,
      "Cerro del Topo Chico - Alta diversidad floral urbana",
      "\U{1F338}", ["Jacaranda", "Flamboyant", "Bougainvillea", "Tabebuia"],
      "High", "25\U{B0}C", "72%", "6 km/h", "1 hour ago",
      ["Peak urban bloom", "High pollen activity"])

  const CentroZona: Zona :=
    Zona("centro", "Centro", LatLng(25.6700, -100.3100), "#9b59b6", 95,
      "Centro Hist\U{F3}rico - M\U{E1}xima concentraci\U{F3}n floral urbana",
      "\U{1F33A}", ["Jacaranda", "Plumeria", "Bougainvillea", "Royal Poinciana"],
      "High", "27\U{B0}C", "75%", "4 km/h", "30 min ago",
      ["Peak bloom period", "Urban heat island effect"])

  const SuroesteZona: Zona :=
    Zona("suroeste", "Suroeste", LatLng(25.6200, -100.3800), "#e67e22", 76,
      "Cerro del Mirador - Zona residencial con jardines",
      "\U{1F33B}", ["Rose", "Gardenia", "Hibiscus", "Marigold"],
      "Low", "23\U{B0}C", "62%", "10 km/h", "4 hours ago",
      ["Residential gardens blooming"])

  const SuresteZona: Zona :=
    Zona("sureste", "Sureste", LatLng(25.6200, -100.2200), "#ff8e53", 87,
      "Cerro de la Silla - Zona emblem\U{E1}tica con flora nativa",
      "\U{1F337}", ["Mexican Sunflower", "Cosmos", "Wild Lupine", "Desert Marigold"],
      "Medium", "24\U{B0}C", "68%", "8 km/h", "2 hours ago",
      ["Native species peak", "Cerro de la Silla blooming"])

  const NorteZona: Zona :=
    Zona("norte", "Norte", LatLng(25.7500, -100.3100), "#3498db", 84,
      "Zona Norte - \U{C1}rea residencial con parques urbanos",
      "\U{1F333}", ["Jacaranda", "Oak", "Eucalyptus", "Bougainvillea"],
      "Medium", "23\U{B0}C", "64%", "9 km/h", "2 hours ago",
      ["Urban parks blooming"])

  const SurZona: Zona :=
    Zona("sur", "Sur", LatLng(25.5800, -100.3100), "#27ae60", 79,
      "Zona Sur - \U{C1}rea residencial con jardines privados",
      "\U{1F33F}", ["Rose", "Gardenia", "Hibiscus", "Lavender"],
      "Low", "22\U{B0}C", "61%", "11 km/h", "3 hours ago",
      ["Private gardens active"])

  const EsteZona: Zona :=
    Zona("este", "Este", LatLng(25.6700, -100.1800), "#8e44ad", 86,
      "Zona Este - \U{C1}rea industrial con espacios verdes",
      "\U{1F3ED}", ["Mexican Sunflower", "Marigold", "Zinnia", "Cosmos"],
      "Medium", "24\U{B0}C", "66%", "7 km/h", "2 hours ago",
      ["Industrial green spaces blooming"])

  const OesteZona: Zona :=
    Zona("oeste", "Oeste", LatLng(25.6700, -100.4400), "#95a5a6", 73,
      "Zona Oeste - \U{C1}rea monta\U{F1}osa con especies nativas",
      "\U{26F0}\U{FE0F}", ["Cactus Flower", "Agave", "Desert Marigold", "Yucca"],
      "Low", "20\U{B0}C", "52%", "14 km/h", "4 hours ago",
      ["Desert species blooming"])

  /** `ZONAS_MONTERREY`, in table order. */
  const Zonas: seq<Zona> := [NoroesteZona, NoresteZona, CentroZona, SuroesteZona, SuresteZona, NorteZona, SurZona, EsteZona, OesteZona]

  /** A polygon outlining a zone, as its vertices. */
  datatype ZonaPolygon = ZonaPolygon(id: string, coordinates: seq<LatLng>)

  const Polygons: seq<ZonaPolygon> := [
    ZonaPolygon("noroeste", [LatLng(25.8000, -100.4500), LatLng(25.8000, -100.3100), LatLng(25.7200, -100.3100), LatLng(25.7200, -100.4500)]),
    ZonaPolygon("noreste", [LatLng(25.8000, -100.3100), LatLng(25.8000, -100.1300), LatLng(25.7200, -100.1300), LatLng(25.7200, -100.3100)]),
    ZonaPolygon("centro", [LatLng(25.7200, -100.3800), LatLng(25.7200, -100.2400), LatLng(25.6200, -100.2400), LatLng(25.6200, -100.3800)]),
    ZonaPolygon("suroeste", [LatLng(25.6200, -100.4500), LatLng(25.6200, -100.3100), LatLng(25.5400, -100.3100), LatLng(25.5400, -100.4500)]),
    ZonaPolygon("sureste", [LatLng(25.6200, -100.3100), LatLng(25.6200, -100.1300), LatLng(25.5400, -100.1300), LatLng(25.5400, -100.3100)]),
    ZonaPolygon("norte", [LatLng(25.7800, -100.3800), LatLng(25.7800, -100.2400), LatLng(25.7200, -100.2400), LatLng(25.7200, -100.3800)]),
    ZonaPolygon("sur", [LatLng(25.6200, -100.3800), LatLng(25.6200, -100.2400), LatLng(25.5400, -100.2400), LatLng(25.5400, -100.3800)]),
    ZonaPolygon("este", [LatLng(25.7200, -100.2400), LatLng(25.7200, -100.1200), LatLng(25.6200, -100.1200), LatLng(25.6200, -100.2400)]),
    ZonaPolygon("oeste", [LatLng(25.7200, -100.4800), LatLng(25.7200, -100.3800), LatLng(25.6200, -100.3800), LatLng(25.6200, -100.4800)])
  ]

  const ZonaIds: seq<string> := ["noroeste", "noreste", "centro", "suroeste", "sureste", "norte", "sur", "este", "oeste"]

  /** The ids of a list of zones, in order. */
  function ZonaIdsOf(zs: seq<Zona>): (ids: seq<string>)
    ensures |ids| == |zs|
    ensures forall i :: 0 <= i < |zs| ==> ids[i] == zs[i].id
  {
    if zs == [] then [] else [zs[0].id] + ZonaIdsOf(zs[1..])
  }

  /** The `k`-th polygon outlines the `k`-th zone. */
  predicate Outlines(ps: seq<ZonaPolygon>, zs: seq<Zona>)
  {
    |ps| == |zs| && forall k :: 0 <= k < |ps| ==> ps[k].id == zs[k].id
  }

  /** The options of the year select. */
  const Years: seq<string> := ["2022", "2023", "2024", "2025"]

  lemma ZonaIdsValue()
    ensures ZonaIdsOf(Zonas) == ZonaIds
  {
  }

  lemma ZonaIdsUnique()
    ensures Unique(ZonaIds)
  {
  }

  /** The polygons come in the order of the zones, one per zone. */
  lemma PolygonsOutlineZonas()
    ensures Outlines(Polygons, Zonas)
  {
  }

  /** Every polygon is a quadrilateral. */
  lemma PolygonsHaveFourVertices()
    ensures forall k :: 0 <= k < |Polygons| ==> |Polygons[k].coordinates| == 4
  {
  }

  /** `ZONAS_MONTERREY.find(z => z.id === id)`: the first zone with that id. */
  function ZonaFor(zs: seq<Zona>, id: string): (r: Option<Zona>)
    ensures r.Some? ==> r.value in zs && r.value.id == id
    ensures r.None? ==> forall k :: 0 <= k < |zs| ==> zs[k].id != id
  {
    if zs == [] then None
    else if zs[0].id == id then Some(zs[0])
    else ZonaFor(zs[1..], id)
  }

  /** With unique ids, looking up a zone's id finds that zone. */
  lemma {:induction false} ZonaForUnique(zs: seq<Zona>, k: int)
    requires Unique(ZonaIdsOf(zs))
    requires 0 <= k < |zs|
    ensures ZonaFor(zs, zs[k].id) == Some(zs[k])
  {
    if k > 0 {
      var ids := ZonaIdsOf(zs);
      assert ids[0] == zs[0].id && ids[k] == zs[k].id;
      assert ZonaIdsOf(zs[1..]) == ids[1..];
      ZonaForUnique(zs[1..], k - 1);
    }
  }

  /** The colour fallback of a polygon whose zone is missing or has no colour. */
  const FallbackColor := "#ff6b6b"

  /** `zona?.color || '#ff6b6b'`: the zone's colour if there is one and it is not empty. */
  function PolygonColor(zs: seq<Zona>, id: string): (c: string)
    ensures |c| > 0
    ensures ZonaFor(zs, id).None? ==> c == FallbackColor
    ensures ZonaFor(zs, id).Some? ==> c == (if |ZonaFor(zs, id).value.color| == 0 then FallbackColor else ZonaFor(zs, id).value.color)
  {
    match ZonaFor(zs, id)
    case None => FallbackColor
    case Some(z) => if |z.color| == 0 then FallbackColor else z.color
  }

  /** A zone's colour, read off the table. */
  lemma ZonaColorsValue()
    ensures forall k :: 0 <= k < |Zonas| ==> |Zonas[k].color| > 0
  {
  }

  /**
   * When polygons and zones list the same unique ids in the same order, and
   * every zone has a colour, the `k`-th polygon finds the `k`-th zone and is
   * painted in its colour.
   */
  lemma PolygonsMatchZones(zs: seq<Zona>, ps: seq<ZonaPolygon>, k: int)
    requires Outlines(ps, zs) && Unique(ZonaIdsOf(zs))
    requires forall i :: 0 <= i < |zs| ==> |zs[i].color| > 0
    requires 0 <= k < |ps|
    ensures ZonaFor(zs, ps[k].id) == Some(zs[k])
    ensures PolygonColor(zs, ps[k].id) == zs[k].color
  {
    ZonaForUnique(zs, k);
  }

  /** Every polygon of the map has a zone and is painted in its colour. */
  lemma PolygonsTakeZoneColors(k: int)
    requires 0 <= k < |Polygons|
    ensures ZonaFor(Zonas, Polygons[k].id) == Some(Zonas[k])
    ensures PolygonColor(Zonas, Polygons[k].id) == Zonas[k].color
  {
    ZonaIdsValue();
    ZonaIdsUnique();
    PolygonsOutlineZonas();
    ZonaColorsValue();
    PolygonsMatchZones(Zonas, Polygons, k);
  }

  /** The Leaflet path options of a polygon. */
  datatype PathStyle = PathStyle(
    fillColor: string, fillOpacity: real, color: string, weight: nat, opacity: real, dashArray: string)

  /** The style of a polygon; `emphasised` when it is the selected one. */
  function StyleFor(color: string, emphasised: bool): (st: PathStyle)
    ensures st.fillColor == color && st.color == color
    ensures emphasised ==> st.fillOpacity == 0.4 && st.weight == 4 && st.opacity == 0.8 && st.dashArray == "10, 10"
    ensures !emphasised ==> st.fillOpacity == 0.15 && st.weight == 2 && st.opacity == 0.5 && st.dashArray == "5, 5"
  {
    if emphasised then PathStyle(color, 0.4, color, 4, 0.8, "10, 10")
    else PathStyle(color, 0.15, color, 2, 0.5, "5, 5")
  }

  /** The two styles differ in every option but the colours, so the selected polygon stands out. */
  lemma StylesDistinguishable(color: string)
    ensures StyleFor(color, true).fillOpacity > StyleFor(color, false).fillOpacity
    ensures StyleFor(color, true).weight > StyleFor(color, false).weight
    ensures StyleFor(color, true).opacity > StyleFor(color, false).opacity
    ensures StyleFor(color, true).dashArray != StyleFor(color, false).dashArray
  {
  }

  /** The path options the map passes for polygon `p` under the current selection. */
  function PolygonStyle(zs: seq<Zona>, selected: Option<string>, p: ZonaPolygon): (st: PathStyle)
    ensures st.fillColor == PolygonColor(zs, p.id) && st.color == PolygonColor(zs, p.id)
    ensures selected == Some(p.id) ==>
      st.fillOpacity == 0.4 && st.weight == 4 && st.opacity == 0.8 && st.dashArray == "10, 10"
    ensures selected != Some(p.id) ==>
      st.fillOpacity == 0.15 && st.weight == 2 && st.opacity == 0.5 && st.dashArray == "5, 5"
    ensures st.weight == 4 <==> selected == Some(p.id)
  {
    StyleFor(PolygonColor(zs, p.id), selected == Some(p.id))
  }

  /** The styles of all polygons, in drawing order. */
  function Styles(selected: Option<string>): (sts: seq<PathStyle>)
    ensures |sts| == |Polygons|
    ensures forall k :: 0 <= k < |Polygons| ==> sts[k] == PolygonStyle(Zonas, selected, Polygons[k])
  {
    seq(|Polygons|, k requires 0 <= k < |Polygons| => PolygonStyle(Zonas, selected, Polygons[k]))
  }

  /** Polygon ids are unique, so at most one polygon is drawn in the selected style. */
  lemma AtMostOneEmphasised(selected: Option<string>, i: int, j: int)
    requires 0 <= i < |Polygons| && 0 <= j < |Polygons|
    requires Styles(selected)[i].weight == 4 && Styles(selected)[j].weight == 4
    ensures i == j
  {
    ZonaIdsValue();
    ZonaIdsUnique();
    PolygonsOutlineZonas();
    assert ZonaIdsOf(Zonas)[i] == ZonaIdsOf(Zonas)[j];
  }

  /** Selecting a polygon's id draws exactly that polygon in the selected style. */
  lemma SelectedPolygonEmphasised(k: int)
    requires 0 <= k < |Polygons|
    ensures Styles(Some(Polygons[k].id))[k].weight == 4
    ensures forall j :: 0 <= j < |Polygons| && j != k ==> Styles(Some(Polygons[k].id))[j].weight == 2
  {
    forall j | 0 <= j < |Polygons| && j != k
      ensures Styles(Some(Polygons[k].id))[j].weight == 2
    {
      ZonaIdsValue();
      ZonaIdsUnique();
      PolygonsOutlineZonas();
      assert ZonaIdsOf(Zonas)[j] != ZonaIdsOf(Zonas)[k];
    }
  }

  /** The class of the health-risk badge in the popup. */
  function RiskBadge(riskLevel: string): (cls: string)
    ensures riskLevel == "High" <==> cls == "bg-red-100 text-red-700"
    ensures riskLevel == "Medium" <==> cls == "bg-yellow-100 text-yellow-700"
    ensures riskLevel != "High" && riskLevel != "Medium" <==> cls == "bg-green-100 text-green-700"
  {
    if riskLevel == "High" then "bg-red-100 text-red-700"
    else if riskLevel == "Medium" then "bg-yellow-100 text-yellow-700"
    else "bg-green-100 text-green-700"
  }

  /** Clicking polygon `id`: the selected one is cleared, any other replaces the selection. */
  function Toggle(selected: Option<string>, id: string): (r: Option<string>)
    ensures r.None? <==> selected == Some(id)
    ensures r.Some? ==> r.value == id
  {
    if selected == Some(id) then None else Some(id)
  }

  /** Clicking marker `z`: a marker with the same id is closed, otherwise `z` is opened. */
  function ToggleMarker(selected: Option<Zona>, z: Zona): (r: Option<Zona>)
    ensures r.None? <==> selected.Some? && selected.value.id == z.id
    ensures r.Some? ==> r.value == z
  {
    if selected.Some? && selected.value.id == z.id then None else Some(z)
  }

  /** From nothing selected, two clicks on the same polygon select and then clear it. */
  lemma ToggleTwice(selected: Option<string>, id: string)
    requires selected == None || selected == Some(id)
    ensures Toggle(Toggle(selected, id), id) == selected
  {
  }

  /** The same for markers, by id. */
  lemma ToggleMarkerTwice(z: Zona)
    ensures ToggleMarker(None, z) == Some(z)
    ensures ToggleMarker(ToggleMarker(None, z), z) == None
  {
  }

  /** The zone select's `onChange`: `''` (All Zones) clears the selection. */
  function ZoneFromSelect(value: string): (r: Option<string>)
    ensures r.None? <==> value == ""
    ensures r.Some? ==> r.value == value
  {
    if value == "" then None else Some(value)
  }

  /** The zone select's `value`: `selectedZone || ''`. */
  function SelectValue(selected: Option<string>): (v: string)
    ensures selected.None? ==> v == ""
    ensures selected.Some? ==> v == selected.value
  {
    if selected.None? || selected.value == "" then "" else selected.value
  }

  /** The select shows what it last set, and setting what it shows changes nothing. */
  lemma SelectRoundTrip(value: string, selected: Option<string>)
    ensures SelectValue(ZoneFromSelect(value)) == value
    ensures selected != Some("") ==> ZoneFromSelect(SelectValue(selected)) == selected
  {
  }

  /** The state of the map component. */
  class BloomMapView {
    var selectedZone: Option<string>
    var selectedYear: string
    var selectedMarker: Option<Zona>

    /** No polygon, year 2024, no popup. */
    constructor()
      ensures selectedZone == None && selectedYear == "2024" && selectedMarker == None
    {
      selectedZone := None;
      selectedYear := "2024";
      selectedMarker := None;
    }

    /** What the map draws: the polygon styles and the popup. */
    function Drawn(): (seq<PathStyle>, Option<Zona>)
      reads this
    {
      (Styles(selectedZone), selectedMarker)
    }

    method ClickPolygon(id: string)
      modifies this
      ensures selectedZone == Toggle(old(selectedZone), id)
      ensures selectedMarker == old(selectedMarker) && selectedYear == old(selectedYear)
    {
      selectedZone := if selectedZone == Some(id) then None else Some(id);
    }

    method ClickMarker(z: Zona)
      modifies this
      ensures selectedMarker == ToggleMarker(old(selectedMarker), z)
      ensures selectedZone == old(selectedZone) && selectedYear == old(selectedYear)
    {
      selectedMarker := if selectedMarker.Some? && selectedMarker.value.id == z.id then None else Some(z);
    }

    /** The popup's close button. */
    method CloseMarker()
      modifies this
      ensures selectedMarker == None
      ensures selectedZone == old(selectedZone) && selectedYear == old(selectedYear)
    {
      selectedMarker := None;
    }

    method ChooseZone(value: string)
      modifies this
      ensures selectedZone == ZoneFromSelect(value)
      ensures selectedMarker == old(selectedMarker) && selectedYear == old(selectedYear)
    {
      selectedZone := if value == "" then None else Some(value);
    }

    /** The year is read by its own select only: nothing drawn changes. */
    method ChooseYear(value: string)
      modifies this
      ensures selectedYear == value
      ensures selectedZone == old(selectedZone) && selectedMarker == old(selectedMarker)
      ensures Drawn() == old(Drawn())
    {
      selectedYear := value;
    }
  }
}
