/**
 * The bloom-map page with two drop-downs: a region list and a year list
 * from 2020 to 2030. A year after the current one is flagged as a
 * prediction, and the side panel appears once a region is chosen.
 */
module BloomMapPage {
  import opened Wrappers
  import opened Strings

  /** The regions offered by the region drop-down. */
  const Regions: seq<string> := [
    "Monterrey Norte",
    "Monterrey Noreste",
    "Monterrey Noroeste",
    "Monterrey Este",
    "Monterrey Oeste",
    "Monterrey Sur",
    "Monterrey Sureste",
    "Monterrey Suroeste"
  ]

  /** `Array.from({ length: 11 }, (_, i) => 2020 + i)`. */
  function Years(): (ys: seq<nat>)
    ensures |ys| == 11
    ensures forall i :: 0 <= i < |ys| ==> ys[i] == 2020 + i
  {
    seq(11, i requires 0 <= i < 11 => 2020 + i)
  }

  /** The year list is exactly 2020..2030, strictly ascending. */
  lemma YearsAreTheDecade()
    ensures Years()[0] == 2020 && Years()[|Years()| - 1] == 2030
    ensures forall i, j :: 0 <= i < j < |Years()| ==> Years()[i] < Years()[j]
    ensures forall y :: y in Years() <==> 2020 <= y <= 2030
  {
    forall y | 2020 <= y <= 2030
      ensures y in Years()
    {
      assert Years()[y - 2020] == y;
    }
  }

  /**
   * `parseInt(selectedYear) > currentYear`; a text that is not a number
   * parses to `NaN`, and `NaN > currentYear` is false.
   */
  predicate IsFutureYear(selectedYear: string, currentYear: int)
  {
    match ParseInt(selectedYear)
    case None => false
    case Some(y) => y > currentYear
  }

  /** The "Prediction" tag next to a year of the list. */
  predicate IsPredictionTag(year: int, currentYear: int)
  {
    year > currentYear
  }

  /** Choosing a year of the list raises the warning exactly when its item carries the tag. */
  lemma WarningMatchesTag(k: int, currentYear: int)
    requires 0 <= k < |Years()|
    ensures IsFutureYear(DecimalString(Years()[k]), currentYear) <==> IsPredictionTag(Years()[k], currentYear)
  {
    ParseIntOfDecimal(Years()[k]);
  }

  /** The initial year `'2024'` is flagged exactly when the current year is before 2024. */
  lemma InitialYearFlag(currentYear: int)
    ensures IsFutureYear("2024", currentYear) <==> currentYear < 2024
  {
    assert DecimalString(2024) == "2024";
    ParseIntOfDecimal(2024);
  }

  /** The map card's heading. */
  function Heading(selectedRegion: string, selectedYear: string): (h: string)
    ensures |selectedRegion| > 0 ==> h == selectedRegion + " - " + selectedYear
    ensures |selectedRegion| == 0 ==> h == "Monterrey Zone Blooming Activity"
  {
    if |selectedRegion| > 0 then selectedRegion + " - " + selectedYear
    else "Monterrey Zone Blooming Activity"
  }

  /** The map card's subtitle; the suffix marks a prediction. */
  function Subtitle(selectedRegion: string, selectedYear: string, future: bool): (t: string)
    ensures |selectedRegion| > 0 ==>
      t == "Viewing data for " + selectedRegion + " in " + selectedYear + (if future then " (Prediction)" else "")
    ensures |selectedRegion| == 0 ==> t == "Select a region and year to view detailed blooming information"
  {
    if |selectedRegion| > 0 then
      "Viewing data for " + selectedRegion + " in " + selectedYear + (if future then " (Prediction)" else "")
    else "Select a region and year to view detailed blooming information"
  }

  /** The side panel of the selected region. */
  datatype Panel = Panel(region: string, year: string, note: string)

  function SidePanel(selectedRegion: string, selectedYear: string, future: bool): (p: Option<Panel>)
    ensures p.Some? <==> |selectedRegion| > 0
    ensures p.Some? ==> p.value.region == selectedRegion && p.value.year == selectedYear
    ensures p.Some? ==> p.value.note == (if future then "Prediction data will be displayed here" else "Historical data will be displayed here")
  {
    if |selectedRegion| > 0 then
      Some(Panel(selectedRegion, selectedYear,
        if future then "Prediction data will be displayed here" else "Historical data will be displayed here"))
    else None
  }

  /** The region-specific heading names the region exactly when the side panel is shown. */
  lemma HeadingsFollowPanel(selectedRegion: string, selectedYear: string, future: bool)
    ensures SidePanel(selectedRegion, selectedYear, future).Some? <==> IsPrefix(selectedRegion, Heading(selectedRegion, selectedYear)) && |selectedRegion| > 0
    ensures SidePanel(selectedRegion, selectedYear, future).Some? ==> IsPrefix("Viewing data for " + selectedRegion, Subtitle(selectedRegion, selectedYear, future))
  {
    if |selectedRegion| > 0 {
      var h := Heading(selectedRegion, selectedYear);
      assert h[..|selectedRegion|] == selectedRegion;
      var t := Subtitle(selectedRegion, selectedYear, future);
      var p := "Viewing data for " + selectedRegion;
      assert t == p + (" in " + selectedYear + (if future then " (Prediction)" else ""));
      assert t[..|p|] == p;
    }
  }

  /** The page's state: the two selections and the two open flags. */
  class BloomMapPageView {
    var selectedRegion: string
    var selectedYear: string
    var showRegionDropdown: bool
    var showYearDropdown: bool

    /** No region, year 2024, both drop-downs closed. */
    constructor()
      ensures selectedRegion == "" && selectedYear == "2024"
      ensures !showRegionDropdown && !showYearDropdown
    {
      selectedRegion := "";
      selectedYear := "2024";
      showRegionDropdown := false;
      showYearDropdown := false;
    }

    /** Whether the prediction warning shows, for the given current year. */
    predicate Future(currentYear: int)
      reads this
    {
      IsFutureYear(selectedYear, currentYear)
    }

    /** The region button opens or closes the region list only. */
    method ToggleRegionDropdown()
      modifies this
      ensures showRegionDropdown == !old(showRegionDropdown)
      ensures showYearDropdown == old(showYearDropdown)
      ensures selectedRegion == old(selectedRegion) && selectedYear == old(selectedYear)
    {
      showRegionDropdown := !showRegionDropdown;
    }

    /** The year button opens or closes the year list only. */
    method ToggleYearDropdown()
      modifies this
      ensures showYearDropdown == !old(showYearDropdown)
      ensures showRegionDropdown == old(showRegionDropdown)
      ensures selectedRegion == old(selectedRegion) && selectedYear == old(selectedYear)
    {
      showYearDropdown := !showYearDropdown;
    }

    /** The `k`-th item of the region list: it is selected and the list closes. */
    method ChooseRegion(k: nat)
      requires k < |Regions|
      modifies this
      ensures selectedRegion == Regions[k] && !showRegionDropdown
      ensures selectedYear == old(selectedYear) && showYearDropdown == old(showYearDropdown)
    {
      selectedRegion := Regions[k];
      showRegionDropdown := false;
    }

    /** The `k`-th item of the year list: `year.toString()` is selected and the list closes. */
    method ChooseYear(k: nat)
      requires k < |Years()|
      modifies this
      ensures selectedYear == DecimalString(Years()[k]) && !showYearDropdown
      ensures selectedRegion == old(selectedRegion) && showRegionDropdown == old(showRegionDropdown)
    {
      selectedYear := DecimalString(Years()[k]);
      showYearDropdown := false;
    }
  }
}
