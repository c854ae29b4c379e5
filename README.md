# Monterrey bloom map and NDVI pipeline, modelled in Dafny

This project models the exact, discrete rules of the Monterrey bloom-map
application and of its Python NDVI forecasting pipeline, and proves
properties of them.

- **The bloom-map views and their data tables:**
  - the four-tier intensity classifier and its legend;
  - the zone filter by label;
  - marker placement on the compass points and on 45° angles;
  - the polygon and marker selection toggles, and the selection-dependent path style;
  - the region/year dropdown state of the bloom-map page;
  - the invariants of the mock zone snapshots.
- **The NDVI pipeline:**
  - the data loader: region names from file names, the load loop, the range filter, months to seasons, combine and sort;
  - the model validator: the last-k validation split, nearest-date alignment within 8 days, per-region validation, best model and ranking, export;
  - the linear and seasonal-naive predictor: the 80/20 split, future dates and indices, the month lookup, method dispatch and collection;
  - the ARIMA predictor: the bounded differencing loop, the first-minimum grid search over orders, order adjustment, and collection over regions;
  - the prediction analyzer: the season columns, the merge of the two forecasts, the method comparison, the 2025 scenario thresholds and the periods count.

Dates are integer day numbers counted from 1970-01-01. Month and year are
derived with the civil-from-days algorithm. NDVI values and the error
metrics are `real`s that are only compared. Every numerical library the
pipeline calls is a function-typed parameter, an "oracle":

- interpolation;
- the least-squares fit;
- means and error metrics;
- the stationarity test;
- the ARIMA fit with its AIC;
- the ARIMA forecast.

Reading a file is a parameter too: the loaded content, or `None` when the
read fails. The current date is a parameter as well.

One Dafny module per source file:

| module | file |
|---|---|
| `MexicoMap` | `app/frontend/src/components/MexicoMap.tsx` |
| `ClientBloomMap` | `App/frontend/client/app/bloom-map/page.tsx` |
| `LeafletBloomMap` | `app/frontend/src/components/BloomMap.tsx` |
| `MockData` | `app/frontend/src/data/mockData.ts` |
| `BloomMapPage` | `app/frontend/bloom-map/page.tsx` |
| `DataLoader` | `models/data_loader.py` |
| `ModelValidation` | `models/model_validator.py` |
| `NdviPrediction` | `models/ndvi_predictor.py` |
| `ArimaPrediction` | `models/arima_predictor.py` |
| `PredictionAnalysis` | `models/prediction_analyzer.py` |

Shared modules are `Wrappers` (Option, Result), `Seqs` (find, filter,
`unique`), `Strings` (ASCII lower-casing, `includes`, `str.replace(x, "")`,
`parseInt`), `Sorting` (a stable insertion sort standing in for
`sort_values` and `list.sort`), `Calendar` (day numbers to months and
seasons) and `ProcessedData` (the processed-data rows the predictors read).

State that the source updates in place is a class with `modifies` clauses:

- the React state hooks of the views;
- the `self.…` fields of the Python classes.

Each method of such a class is specified against a function of the inputs
and the old state; the lemmas about that function state what the source
promises.

## Model

| member | source | states |
|---|---|---|
| MexicoMap.IntensityColor | app/frontend/src/components/MexicoMap.tsx:26-31 | red exactly from 80 up, orange exactly on 60..79, yellow exactly on 40..59, green exactly below 40, negatives included |
| MexicoMap.IntensityLabel | app/frontend/src/components/MexicoMap.tsx:33-38 | Very High exactly from 80, High on 60..79, Medium on 40..59, Low below 40 |
| MexicoMap.ColorMatchesLabel | app/frontend/src/components/MexicoMap.tsx:26-38 | colour and label name the same tier, in both directions, for every intensity |
| MexicoMap.LabelMonotone | app/frontend/src/components/MexicoMap.tsx:33-38 | a ≤ b implies tier(a) ≤ tier(b) in the order Low < Medium < High < Very High |
| MexicoMap.LabelBoundaries | app/frontend/src/components/MexicoMap.tsx:33-38 | 80/79, 60/59, 40/39 fall on either side of the thresholds; 150 stays Very High, -5 stays Low |
| MexicoMap.LegendTexts | app/frontend/src/components/MexicoMap.tsx:212-231 | the four legend entries read "Very High (80%+)", "High (60-79%)", "Medium (40-59%)", "Low (0-39%)" |
| MexicoMap.LegendMatchesClassifier | app/frontend/src/components/MexicoMap.tsx:212-231 | the legend bands are contiguous and descending, each band's colour and label are those the classifier gives its values, and every non-negative intensity is covered |
| MexicoMap.SnapshotFor | app/frontend/src/components/MexicoMap.tsx:16 | `find` by year: a result is a snapshot of that year; none exactly when no snapshot has the year (or the year is NaN) |
| MexicoMap.FilteredRegions | app/frontend/src/components/MexicoMap.tsx:18-24 | no snapshot gives []; "All" gives the snapshot's regions unchanged; otherwise the order-preserving subsequence whose lower-cased name contains the lower-cased label |
| MexicoMap.FilterKeepsOrder | app/frontend/src/components/MexicoMap.tsx:21-23 | the filter distributes over concatenation, so it keeps the snapshot's order |
| MexicoMap.Snapshot2024 | app/frontend/src/components/MexicoMap.tsx:16 | the 2024 lookup in the mock data finds the first snapshot |
| MexicoMap.Shown2024 | app/frontend/src/components/MexicoMap.tsx:18-24 | in 2024 a region is shown for a label exactly when it is a 2024 region that matches the label |
| MexicoMap.EastMatchesIn | app/frontend/src/components/MexicoMap.tsx:21-23 | "East" matches Northeast, Southeast and East Monterrey by substring, ignoring case |
| MexicoMap.EastFilter | app/frontend/src/components/MexicoMap.tsx:21-23 | the 2024 "East" view shows Northeast, Southeast and East Monterrey |
| MexicoMap.NorthFilter | app/frontend/src/components/MexicoMap.tsx:21-23 | the 2024 "North" view shows North, Northeast and Northwest Monterrey |
| MexicoMap.BadgeCount | app/frontend/src/components/MexicoMap.tsx:88-91 | the badge is shown exactly when the label is not "All", and then counts the filtered regions |
| MexicoMap.ZonePosition | app/frontend/src/components/MexicoMap.tsx:129-156 | any id that is not one of the eight directions is placed at the centre (200, 200); each direction lies on a ring round the centre (squared distance 9800 to 10000), above the centre exactly for the three northern ids, below it for the three southern ones, right of it for the three eastern ones and left of it for the three western ones |
| MexicoMap.DirectionPoints | app/frontend/src/components/MexicoMap.tsx:129-153 | one point per direction id, in compass order |
| MexicoMap.DirectionPointsValue | app/frontend/src/components/MexicoMap.tsx:129-153 | the eight points are those of the switch, north to northwest |
| MexicoMap.OppositesSymmetric | app/frontend/src/components/MexicoMap.tsx:129-153 | a direction and its opposite sum to (400, 400) |
| MexicoMap.DirectionsInsideOutline | app/frontend/src/components/MexicoMap.tsx:115-153 | every direction point lies inside the radius-150 circle round (200, 200), off the centre, and no two coincide |
| MexicoMap.MockZonesHavePlaces | app/frontend/src/components/MexicoMap.tsx:129-153 | every mock zone id is one of the eight direction ids |
| MexicoMap.HistoricalRows | app/frontend/src/components/MexicoMap.tsx:353-356 | at most one row per snapshot, each for the selected id |
| MexicoMap.SnapshotRow | app/frontend/src/components/MexicoMap.tsx:354-355 | a snapshot gives one row exactly when it holds the id, with its year and a record of that id, and no row otherwise |
| MexicoMap.HistoricalRowsSplit | app/frontend/src/components/MexicoMap.tsx:353-356 | rows follow snapshot order: the rows of a + b are the rows of a, then those of b |
| MexicoMap.HistoricalRowsFull | app/frontend/src/components/MexicoMap.tsx:353-356 | when every snapshot holds the id, there is one row per snapshot with that snapshot's year |
| MexicoMap.HistoricalRowsSkip | app/frontend/src/components/MexicoMap.tsx:354-355 | a snapshot without the id gives no row |
| MexicoMap.HistoryOfMockZones | app/frontend/src/components/MexicoMap.tsx:353-356 | every mock zone has three rows, for 2024, 2023 and 2022 in that order |
| MexicoMap.AtMostOneHighlighted | app/frontend/src/components/MexicoMap.tsx:165-167 | with unique ids, at most one zone of a snapshot is highlighted |
| MexicoMap.MexicoMapView.constructor | app/frontend/src/components/MexicoMap.tsx:11-13 | nothing selected, the first available year, zone "All" |
| MexicoMap.MexicoMapView.SelectRegion | app/frontend/src/components/MexicoMap.tsx:169-176 | the clicked region becomes the selection (no toggle) and is highlighted; year and zone unchanged |
| MexicoMap.MexicoMapView.SelectYear | app/frontend/src/components/MexicoMap.tsx:58 | the year is `parseInt` of the option text; other fields unchanged |
| MexicoMap.MexicoMapView.SelectZone | app/frontend/src/components/MexicoMap.tsx:74 | the zone label is set; other fields unchanged |
| MexicoMap.YearOptionRoundTrip | app/frontend/src/components/MexicoMap.tsx:58-64 | `parseInt(year.toString())` gives back each available year |
| ClientBloomMap.LegendIsContiguous | App/frontend/client/app/bloom-map/page.tsx:21-26 | the legend's bands are contiguous and descending (80+, 60-79, 40-59, 0-39), one per legend entry, each text spelling its band |
| ClientBloomMap.Angle | App/frontend/client/app/bloom-map/page.tsx:75 | the angle is a multiple of 45 whose quotient by 45 is the index |
| ClientBloomMap.Placement | App/frontend/client/app/bloom-map/page.tsx:74-78 | one marker per zone, with the zone's name and the angle of its position |
| ClientBloomMap.AnglesDistinct | App/frontend/client/app/bloom-map/page.tsx:74-75 | the eight angles are pairwise distinct and below 360 |
| ClientBloomMap.PlacementFollowsOrder | App/frontend/client/app/bloom-map/page.tsx:74-78 | the angle depends on the position only: permuting the zones moves each name to the angle of its new position |
| ClientBloomMap.ZoneColorsMatchLegend | App/frontend/client/app/bloom-map/page.tsx:10-26 | every hard-coded zone colour is the legend colour of the band its percentage falls in |
| ClientBloomMap.ZoneNamesUnique | App/frontend/client/app/bloom-map/page.tsx:10-19 | the zone names are pairwise distinct |
| ClientBloomMap.AtMostOneHighlighted | App/frontend/client/app/bloom-map/page.tsx:139-143 | at most one row is highlighted |
| ClientBloomMap.ClientBloomMapView.constructor | App/frontend/client/app/bloom-map/page.tsx:8 | no zone is selected at first |
| ClientBloomMap.ClientBloomMapView.SelectZone | App/frontend/client/app/bloom-map/page.tsx:83-144 | a click selects the zone's name, clicking it again keeps it (no toggle), and its row is highlighted |
| LeafletBloomMap.ZonaIdsOf | app/frontend/src/components/BloomMap.tsx:10-155 | the ids of the zones, one per zone, in table order |
| LeafletBloomMap.ZonaIdsValue | app/frontend/src/components/BloomMap.tsx:10-155 | the zone ids are noroeste, noreste, centro, suroeste, sureste, norte, sur, este, oeste in that order |
| LeafletBloomMap.ZonaIdsUnique | app/frontend/src/components/BloomMap.tsx:10-155 | the zone ids are pairwise distinct |
| LeafletBloomMap.PolygonsOutlineZonas | app/frontend/src/components/BloomMap.tsx:158-240 | the k-th polygon has the id of the k-th zone, one polygon per zone |
| LeafletBloomMap.PolygonsHaveFourVertices | app/frontend/src/components/BloomMap.tsx:158-240 | every polygon has exactly four vertices |
| LeafletBloomMap.ZonaFor | app/frontend/src/components/BloomMap.tsx:422 | `find` by id: a result is a zone of the table with that id; none exactly when no zone has it |
| LeafletBloomMap.ZonaForUnique | app/frontend/src/components/BloomMap.tsx:422 | with unique ids, looking up the k-th id finds the k-th zone |
| LeafletBloomMap.PolygonColor | app/frontend/src/components/BloomMap.tsx:428-430 | the zone's colour when the zone exists and its colour is non-empty, '#ff6b6b' otherwise; never empty |
| LeafletBloomMap.ZonaColorsValue | app/frontend/src/components/BloomMap.tsx:10-155 | every zone of the table has a non-empty colour |
| LeafletBloomMap.PolygonsMatchZones | app/frontend/src/components/BloomMap.tsx:421-430 | for polygons aligned with uniquely-identified, coloured zones, each polygon finds its own zone and takes its colour |
| LeafletBloomMap.PolygonsTakeZoneColors | app/frontend/src/components/BloomMap.tsx:421-430 | every polygon of the map has a zone, and is painted in that zone's colour, never in the fallback |
| LeafletBloomMap.StyleFor | app/frontend/src/components/BloomMap.tsx:427-434 | selected: fillOpacity 0.4, weight 4, opacity 0.8, dash '10, 10'; otherwise 0.15, 2, 0.5, '5, 5'; both colours are the given one |
| LeafletBloomMap.StylesDistinguishable | app/frontend/src/components/BloomMap.tsx:427-434 | the selected style is larger in fill opacity, weight and opacity, and has another dash pattern |
| LeafletBloomMap.PolygonStyle | app/frontend/src/components/BloomMap.tsx:427-434 | fill and stroke take the zone's colour; the selected polygon has fill opacity 0.4, weight 4, opacity 0.8 and dashes "10, 10", every other one 0.15, 2, 0.5 and "5, 5"; the weight is 4 exactly when the polygon's id is the selected zone |
| LeafletBloomMap.Styles | app/frontend/src/components/BloomMap.tsx:421-434 | one style per polygon, in drawing order |
| LeafletBloomMap.AtMostOneEmphasised | app/frontend/src/components/BloomMap.tsx:427-434 | at most one polygon is drawn in the selected style |
| LeafletBloomMap.SelectedPolygonEmphasised | app/frontend/src/components/BloomMap.tsx:427-436 | selecting a polygon's id emphasises that polygon and no other |
| LeafletBloomMap.RiskBadge | app/frontend/src/components/BloomMap.tsx:344-348 | 'High' exactly gives red, 'Medium' exactly yellow, and anything else green |
| LeafletBloomMap.Toggle | app/frontend/src/components/BloomMap.tsx:436 | the result is cleared exactly when the clicked id was selected, and is the clicked id otherwise |
| LeafletBloomMap.ToggleMarker | app/frontend/src/components/BloomMap.tsx:282-284 | the popup closes exactly when a marker with the clicked id is open, and shows the clicked zone otherwise |
| LeafletBloomMap.ToggleTwice | app/frontend/src/components/BloomMap.tsx:436 | from no selection or that polygon's, two clicks on a polygon give back the original selection |
| LeafletBloomMap.ToggleMarkerTwice | app/frontend/src/components/BloomMap.tsx:282-284 | a click opens a zone's popup; a second click closes it |
| LeafletBloomMap.ZoneFromSelect | app/frontend/src/components/BloomMap.tsx:379 | '' (All Zones) gives no zone; any other value gives that id |
| LeafletBloomMap.SelectValue | app/frontend/src/components/BloomMap.tsx:378 | no zone shows ''; a zone shows its id, the empty id included |
| LeafletBloomMap.SelectRoundTrip | app/frontend/src/components/BloomMap.tsx:378-379 | the select shows the value it last set, and setting the shown value changes no selection |
| LeafletBloomMap.BloomMapView.constructor | app/frontend/src/components/BloomMap.tsx:276-278 | no zone, year '2024', no popup |
| LeafletBloomMap.BloomMapView.ClickPolygon | app/frontend/src/components/BloomMap.tsx:436 | toggles the zone selection and leaves the marker and the year alone |
| LeafletBloomMap.BloomMapView.ClickMarker | app/frontend/src/components/BloomMap.tsx:282-284 | toggles the popup by id and leaves the zone and the year alone |
| LeafletBloomMap.BloomMapView.CloseMarker | app/frontend/src/components/BloomMap.tsx:300 | the close button always clears the popup; nothing else changes |
| LeafletBloomMap.BloomMapView.ChooseZone | app/frontend/src/components/BloomMap.tsx:379 | sets the zone from the select; marker and year unchanged |
| LeafletBloomMap.BloomMapView.ChooseYear | app/frontend/src/components/BloomMap.tsx:391-393 | sets the year only; no polygon style and no popup changes |
| MockData.Years | app/frontend/src/data/mockData.ts:317 | one year per snapshot, in table order |
| MockData.Ids | app/frontend/src/data/mockData.ts:20-27 | one id per region record, in order |
| MockData.AvailableYearsValue | app/frontend/src/data/mockData.ts:317 | `availableYears` is [2024, 2023, 2022], so its first entry is 2024 |
| MockData.IntensitiesInRange | app/frontend/src/data/mockData.ts:23 | every `bloomingIntensity` of every snapshot lies in 0..100, as the field's comment declares |
| MockData.ZoneIdsUnique | app/frontend/src/data/mockData.ts:107-315 | the eight zone ids are pairwise distinct |
| MockData.Ids2024 | app/frontend/src/data/mockData.ts:108-176 | the 2024 snapshot lists the eight zone ids in table order |
| MockData.Ids2023 | app/frontend/src/data/mockData.ts:177-245 | the 2023 snapshot lists the same ids in the same order |
| MockData.Ids2022 | app/frontend/src/data/mockData.ts:246-314 | the 2022 snapshot lists the same ids in the same order |
| MockData.SameIdsEveryYear | app/frontend/src/data/mockData.ts:107-315 | every snapshot has the same eight ids in the same order, each once |
| MockData.SnapshotsAlign | app/frontend/src/data/mockData.ts:107-315 | position by position, every snapshot describes the zones of the 2024 one |
| MockData.AlignedIsStable | app/frontend/src/data/mockData.ts:107-315 | snapshots aligned with a list of distinct ids agree, for each id, on everything but the intensity |
| MockData.ZoneAttributesStable | app/frontend/src/data/mockData.ts:107-315 | an id keeps its name, latitude, longitude and dominant flowers in every year |
| MockData.NamesExtendLabels | app/frontend/src/data/mockData.ts:318 | each label after "All" is a zone name with " Monterrey" removed |
| MockData.ZoneLabelsMatchZones | app/frontend/src/data/mockData.ts:318 | the labels start with "All", and every other label is a case-insensitive substring of some zone name |
| BloomMapPage.Years | app/frontend/bloom-map/page.tsx:26 | eleven years, the i-th being 2020 + i |
| BloomMapPage.YearsAreTheDecade | app/frontend/bloom-map/page.tsx:26 | the list runs from 2020 to 2030, strictly ascending, and holds exactly the years 2020..2030 |
| BloomMapPage.WarningMatchesTag | app/frontend/bloom-map/page.tsx:28-106 | choosing a listed year raises the prediction warning exactly when that year's item carries the "Prediction" tag |
| BloomMapPage.InitialYearFlag | app/frontend/bloom-map/page.tsx:9-28 | the initial year '2024' is flagged exactly when the current year is before 2024 |
| BloomMapPage.Heading | app/frontend/bloom-map/page.tsx:137 | "region - year" when a region is selected, the generic title otherwise |
| BloomMapPage.Subtitle | app/frontend/bloom-map/page.tsx:140-143 | "Viewing data for region in year", with " (Prediction)" exactly for a future year, when a region is selected; the prompt otherwise |
| BloomMapPage.SidePanel | app/frontend/bloom-map/page.tsx:179-198 | the panel shows exactly when a region is selected, with the region, the year, and the prediction or historical note |
| BloomMapPage.HeadingsFollowPanel | app/frontend/bloom-map/page.tsx:137-179 | the headings name the region exactly when the side panel is shown |
| BloomMapPage.BloomMapPageView.constructor | app/frontend/bloom-map/page.tsx:8-11 | no region, year '2024', both dropdowns closed |
| BloomMapPage.BloomMapPageView.ToggleRegionDropdown | app/frontend/bloom-map/page.tsx:54 | flips the region flag only |
| BloomMapPage.BloomMapPageView.ToggleYearDropdown | app/frontend/bloom-map/page.tsx:87 | flips the year flag only |
| BloomMapPage.BloomMapPageView.ChooseRegion | app/frontend/bloom-map/page.tsx:68-71 | selects the chosen region and closes its list; year and year list unchanged |
| BloomMapPage.BloomMapPageView.ChooseYear | app/frontend/bloom-map/page.tsx:99-102 | selects the chosen year's decimal text and closes its list; region and region list unchanged |
| DataLoader.RegionName | models/data_loader.py:37 | the region name is never longer than the stem |
| DataLoader.RemoveAllTrailing | models/data_loader.py:37 | removing a pattern that occurs only at the very end of r + pattern leaves r |
| DataLoader.ShiftOccurrences | models/data_loader.py:37 | dropping the first character moves every occurrence of the pattern one place to the left |
| DataLoader.StripBoth | models/data_loader.py:37 | removing a prefix that occurs only at the front, then a suffix that occurs only at the end, leaves the middle |
| DataLoader.RegionNameOfStem | models/data_loader.py:37 | for "monterrey_" + R + "_NDVI_clean", with the prefix only at the front and the suffix only at the end, the region name is R |
| DataLoader.RegionNamedMonterrey | models/data_loader.py:37 | every "monterrey_" is removed, not only the leading one: a region called "monterrey" comes out as "NDVI_clean" |
| DataLoader.LoadFile | models/data_loader.py:41-54 | a file that fails to read leaves the store unchanged; a readable one is stored under its region name, replacing an earlier entry |
| DataLoader.LoadFileWellOrdered | models/data_loader.py:41-54 | one pass keeps the key order distinct and equal to the keys |
| DataLoader.LoadFilesWellOrdered | models/data_loader.py:35-54 | the whole loop keeps the key order distinct and equal to the keys |
| DataLoader.LoadFilesKeys | models/data_loader.py:35-54 | a region is loaded exactly when it was there before or some readable file has its name |
| DataLoader.LoadFilesLastWins | models/data_loader.py:41-54 | the last readable file of a region gives the rows stored for it |
| DataLoader.LoadFiles | models/data_loader.py:35-54 | loading never drops a region that was loaded; no files leave the store unchanged |
| DataLoader.Derive | models/data_loader.py:91-98 | the record keeps the row's date, NDVI and EVI, gets the region, and its month lies in 1..12 with the season of that month |
| DataLoader.DeriveAll | models/data_loader.py:91-98 | one derived record per row, in order |
| DataLoader.Clean | models/data_loader.py:76-98 | cleaning never adds rows |
| DataLoader.CleanAppend | models/data_loader.py:76-81 | cleaning distributes over concatenation, so the kept rows keep file order |
| DataLoader.CleanKeeps | models/data_loader.py:76-81 | every row with NDVI and EVI in [0, 1] (bounds included) is kept |
| DataLoader.CleanInRange | models/data_loader.py:76-81 | every kept record belongs to the region and has NDVI and EVI in [0, 1] |
| DataLoader.CombineLength | models/data_loader.py:104-107 | the combined length is the sum of the cleaned lengths of the regions |
| DataLoader.Combine | models/data_loader.py:104-107 | every combined record belongs to a loaded region and has NDVI and EVI in [0, 1] |
| DataLoader.RecordLeTotalPreorder | models/data_loader.py:110 | ordering by region, then date, is a total preorder, so the sort is well defined |
| DataLoader.Summaries | models/data_loader.py:130-134 | one summary exactly for each region with a record |
| DataLoader.SummaryCount | models/data_loader.py:131 | a region's NDVI count is the number of its records |
| DataLoader.SummaryBounds | models/data_loader.py:131-133 | the NDVI minimum and maximum and the Date minimum and maximum bound every record of the region |
| DataLoader.SummaryAttained | models/data_loader.py:131-133 | each of those four bounds is the value of one of the region's records |
| DataLoader.NdviDataLoader.constructor | models/data_loader.py:12-21 | the folder is kept; no data and no prepared data |
| DataLoader.NdviDataLoader.LoadAllCsvFiles | models/data_loader.py:23-57 | an empty folder is a FileNotFoundError and nothing is loaded; otherwise the store is the result of the load loop over the files in order |
| DataLoader.NdviDataLoader.PrepareData | models/data_loader.py:59-116 | with no region, pd.concat raises ValueError; otherwise the prepared data is the combined frames sorted by (Region, Date): sorted, a permutation of the combined rows, of the summed cleaned length |
| DataLoader.NdviDataLoader.GetDataSummary | models/data_loader.py:118-151 | ValueError before the data is prepared; otherwise the per-region summary: count, NDVI range and Date range |
| DataLoader.NdviDataLoader.ExportProcessedData | models/data_loader.py:222-232 | ValueError before the data is prepared; otherwise the output path |
| ModelValidation.CreateHistoricalValidationSet | models/model_validator.py:64-71 | for k ≥ 1, validation is the last min(k, n) date-sorted rows, training the first max(n - k, 0), and together they are the sorted rows; k = 0 gives two empty sets |
| ModelValidation.ValidationFollowsTraining | models/model_validator.py:64-71 | both sets hold rows of the region only, validation is in date order, and no training row is later than a validation row |
| ModelValidation.Closest | models/model_validator.py:104-105 | `np.argmin`: an index of a prediction with the least day gap, and every earlier one is strictly farther |
| ModelValidation.ActualFor | models/model_validator.py:109 | the observed value is the NDVI of a validation row with the same date |
| ModelValidation.ActualForOwnRow | models/model_validator.py:109 | where no other validation row shares the date, the observed value is the row's own NDVI |
| ModelValidation.PredictionsFor | models/model_validator.py:108 | one prediction per accepted observation |
| ModelValidation.ActualsFor | models/model_validator.py:109 | one observed value per accepted observation |
| ModelValidation.PredictionsForValues | models/model_validator.py:105-108 | the i-th chosen prediction is the one nearest to the i-th observation's date |
| ModelValidation.ActualsForValues | models/model_validator.py:109 | the i-th observed value is the NDVI of the first validation row with the i-th observation's date |
| ModelValidation.AcceptedRowsStep | models/model_validator.py:102-109 | one more observation adds one accepted row exactly when its nearest prediction is within 8 days |
| ModelValidation.AlignStep | models/model_validator.py:102-109 | one more observation extends both aligned lists exactly when it is accepted |
| ModelValidation.AlignPredictions | models/model_validator.py:99-109 | the aligned lists are, for each validation date in order, the nearest prediction (first on ties) and the observed value, kept only within ±8 days; the two lists have equal length; no prediction with a date to align is the argmin error |
| ModelValidation.AlignedPredicted | models/model_validator.py:102-109 | one aligned prediction per validation row within the tolerance |
| ModelValidation.AlignedActual | models/model_validator.py:102-109 | one aligned observed value per validation row within the tolerance |
| ModelValidation.AlignedPredictedValues | models/model_validator.py:102-108 | in order, each aligned prediction is the prediction nearest to the date of its accepted validation row |
| ModelValidation.AlignedActualValues | models/model_validator.py:102-109 | in order, each aligned observed value is the one looked up for its accepted validation row, which is a validation row |
| ModelValidation.AlignNextPredicted | models/model_validator.py:102-108 | one validation row more appends its nearest prediction exactly when it is within the tolerance |
| ModelValidation.AlignNextActual | models/model_validator.py:102-109 | one validation row more appends its observed value when it is within the tolerance and nothing otherwise |
| ModelValidation.AlignUpToPredicted | models/model_validator.py:102-108 | the predictions collected by the loop after i rows are the aligned predictions of the first i rows |
| ModelValidation.AlignUpToActual | models/model_validator.py:102-109 | the observed values collected by the loop after i rows are the aligned observed values of the first i rows |
| ModelValidation.RegionPredictions | models/model_validator.py:91-92 | only the model's rows of that region |
| ModelValidation.ValidateModel | models/model_validator.py:73-150 | a model that was not loaded is a KeyError; the argmin error exactly when the region has no prediction but a validation row; `None` exactly when there is no validation row or nothing aligns; otherwise Samples_Used is the number of aligned pairs, predicted and actual have that length, and the statistics are those of actual against predicted |
| ModelValidation.AlignedLengths | models/model_validator.py:99-113 | with predictions, the aligned predicted and actual columns have the same length, and no validation row aligns nothing |
| ModelValidation.NothingAlignedIsNone | models/model_validator.py:111-113 | when no validation date has a prediction within 8 days, the result is `None` |
| ModelValidation.MetricsErrorStops | models/model_validator.py:172-175 | an error in a region's model loop ends it with that error |
| ModelValidation.RegionsErrorStops | models/model_validator.py:168-175 | an error in the region loop ends it with that error |
| ModelValidation.RegionsStep | models/model_validator.py:168-175 | one region more: its error ends the outer loop; otherwise its entry is appended |
| ModelValidation.CollectMetrics | models/model_validator.py:172-175 | a region's loop fails exactly when some model's validation fails, with the error of the first failing model |
| ModelValidation.CollectRegions | models/model_validator.py:168-175 | the outer loop fails exactly when some region's loop fails, with the error of the first failing region |
| ModelValidation.EveryRegionHasEntry | models/model_validator.py:168-170 | every region gets an entry, in order, holding that region's results |
| ModelValidation.EntriesCarryMetrics | models/model_validator.py:172-175 | every stored entry is a model of the list with its own non-`None` metrics |
| ModelValidation.MetricsHaveEntries | models/model_validator.py:172-175 | every model whose metrics are not `None` is stored |
| ModelValidation.ReadAll | models/model_validator.py:32-37 | the prediction map exists exactly when all four files read, and then maps each model name to its file's rows |
| ModelValidation.ModelValidator.constructor | models/model_validator.py:12-18 | no data, no predictions, no results |
| ModelValidation.ModelValidator.LoadData | models/model_validator.py:20-51 | true exactly when everything reads; the historical data is kept once read; the predictions are replaced only when all files read |
| ModelValidation.ModelValidator.ValidateModelPerformance | models/model_validator.py:73-150 | the result is that of `ValidateModel` on the loaded data |
| ModelValidation.ModelValidator.ValidateRegionModels | models/model_validator.py:170-175 | the inner loop equals the model collection for the region |
| ModelValidation.ModelValidator.ValidateAllModels | models/model_validator.py:152-178 | the result is the region collection over the regions of the data; the results are stored only when nothing raised |
| ModelValidation.ModelValidator.ExportValidationResults | models/model_validator.py:340-369 | no file without results; otherwise one row per stored (region, model) pair |
| ModelValidation.FirstMinimumUnique | models/model_validator.py:259-265 | there is at most one first minimum of the RMSEs |
| ModelValidation.BestModel | models/model_validator.py:259-265 | none for no model; otherwise the first model with the least RMSE (strict `<`) and its RMSE |
| ModelValidation.ReportBestModels | models/model_validator.py:255-267 | the per-region report fails exactly when some region stored no model (`None.upper()` raises), naming the first such region; otherwise one line per region with its first model of least RMSE |
| ModelValidation.EntryRows | models/model_validator.py:352-363 | one row per model of the region |
| ModelValidation.OneRowPerPair | models/model_validator.py:351-363 | the export has one row per stored (region, model) pair and no other row |
| ModelValidation.ModelColumnMembers | models/model_validator.py:195-196 | the model column of the nested loop holds exactly the models stored for some region |
| ModelValidation.SummaryModels | models/model_validator.py:195-198 | the summary holds each model once, and exactly the models stored for some region |
| ModelValidation.SummaryModelsOrder | models/model_validator.py:195-198 | a model listed earlier in the summary is met by the nested loop before every occurrence of one listed later, as dict insertion order gives |
| ModelValidation.Rankings | models/model_validator.py:229-245 | one ranking per summary model, the k-th ranking for the k-th model of the summary |
| ModelValidation.RankModels | models/model_validator.py:248 | the ranking is sorted by composite score and is a permutation of the rankings |
| ModelValidation.RankModelsSpec | models/model_validator.py:248 | the ranking is sorted by composite score, a permutation of the input, and stable: tied models keep their order |
| NdviPrediction.DateGrid | models/ndvi_predictor.py:112-114 | `pd.date_range(min, max, freq='16D')`: starts at the first date, steps by 16 days, and its last date is within 16 days below the end |
| NdviPrediction.PrepareTimeSeries | models/ndvi_predictor.py:94-119 | EmptySeries exactly when the region has no rows; DuplicateDates exactly when it has rows and two of them share a date (`reindex` on a repeated index raises); otherwise a series from the region's first date, spaced 16 days apart |
| NdviPrediction.TrainSize | models/ndvi_predictor.py:160 | `int(n * 0.8)` as the integer t with 5t ≤ 4n < 5t + 5; t ≤ n, and t = 0 exactly when n < 2 |
| NdviPrediction.TrainTestSplit | models/ndvi_predictor.py:160-162 | train is the first `TrainSize(n)` points, test the rest, and train + test is the series |
| NdviPrediction.FutureDates | models/ndvi_predictor.py:183-186 | exactly `periods` dates, the first 16 days after the last observed date, then every 16 days |
| NdviPrediction.FutureIndices | models/ndvi_predictor.py:176 | exactly `periods` indices, from len(train) upwards by one |
| NdviPrediction.LinearTrend | models/ndvi_predictor.py:144-198 | fails exactly when fewer than two points leave an empty training set for `polyfit`; otherwise `periods` values at the future dates, and the metrics are those of the training values against the fitted line at the training indices 0, 1, … |
| NdviPrediction.LinearTrendIgnoresTest | models/ndvi_predictor.py:161-180 | two series with the same training part and the same last date give the same forecast and metrics: the test split is unused |
| NdviPrediction.LinearTrendContinuesTraining | models/ndvi_predictor.py:165-177 | the i-th future value is the training fit evaluated at len(train) + i, continuing from the end of training, not of the series |
| NdviPrediction.SeasonalPattern | models/ndvi_predictor.py:221-224 | the months of the pattern are exactly the training months, each mapped to the mean of its training values |
| NdviPrediction.LookupMonths | models/ndvi_predictor.py:238-241 | succeeds exactly when every date's month is in the pattern, giving each date its month's value |
| NdviPrediction.LookupMonthsError | models/ndvi_predictor.py:238-241 | a failed lookup is the KeyError of the first date whose month is missing |
| NdviPrediction.SeasonalLookup | models/ndvi_predictor.py:238-241 | the lookup loop computes `LookupMonths` |
| NdviPrediction.LookupErrorStops | models/ndvi_predictor.py:238-241 | a KeyError on a prefix of the dates is the KeyError of the whole loop |
| NdviPrediction.SeasonalNaive | models/ndvi_predictor.py:200-256 | a forecast has the future dates and `periods` values; each value is the training mean of its date's month; the metrics are those of the training values against the in-sample month means; two dates of the same month get the same value |
| NdviPrediction.InSampleFit | models/ndvi_predictor.py:227-230 | one fitted value per training row: the pattern value of the row's month |
| NdviPrediction.InSampleLookup | models/ndvi_predictor.py:227-230 | a successful lookup of the training dates finds every training month and gives exactly the in-sample fit |
| NdviPrediction.SeasonalNaiveIgnoresTest | models/ndvi_predictor.py:213-241 | the test points are never read: two series with the same training part and the same last date get the same seasonal forecast |
| NdviPrediction.TrainingMonthsPresent | models/ndvi_predictor.py:227-230 | the in-sample lookup never fails: every training month is in the pattern |
| NdviPrediction.SeasonalNaiveFailsOnMissingMonth | models/ndvi_predictor.py:224-241 | the forecast fails exactly when some future month has no training point |
| NdviPrediction.RegionForecast | models/ndvi_predictor.py:277-282 | any method other than 'linear' or 'seasonal' is a ValueError; 'linear' is LinearTrend and 'seasonal' is SeasonalNaive of the prepared series, whose error passes through; a forecast has `periods` dates and values |
| NdviPrediction.ForecastRows | models/ndvi_predictor.py:188-192 | one row per date, with its value and the region |
| NdviPrediction.FirstErrorStops | models/ndvi_predictor.py:274-282 | an error for the first region is the error of the whole loop |
| NdviPrediction.CollectErrorStops | models/ndvi_predictor.py:274-285 | an error on a prefix of the regions is the error of the whole loop |
| NdviPrediction.CollectForecasts | models/ndvi_predictor.py:274-285 | the loop fails exactly when some region's forecast fails, and then with the error of the first failing region |
| NdviPrediction.CollectForecastsStep | models/ndvi_predictor.py:274-285 | a region that forecasts adds its rows and its metrics to what the earlier regions collected |
| NdviPrediction.CollectForecastsFails | models/ndvi_predictor.py:274-285 | the first region whose forecast fails decides the error of the whole loop |
| NdviPrediction.PredictAllNeedsKnownMethod | models/ndvi_predictor.py:274-291 | an unsupported method raises ValueError, or, with no region at all, `pd.concat([])` does |
| NdviPrediction.CollectForecastsMetrics | models/ndvi_predictor.py:274-285 | with distinct regions, the metrics have one entry per region, each that region's forecast metrics |
| NdviPrediction.CollectForecastsRows | models/ndvi_predictor.py:284-291 | `periods` rows per region, every row of a listed region |
| NdviPrediction.RowRegions | models/ndvi_predictor.py:191 | the Region column, one entry per row |
| NdviPrediction.CollectForecastsCovers | models/ndvi_predictor.py:284-291 | with at least one period, every region has rows in the concatenation |
| NdviPrediction.PredictAll | models/ndvi_predictor.py:258-296 | succeeds exactly when the data has a region and every region's forecast succeeds; with no region, `pd.concat` of nothing is the ValueError |
| NdviPrediction.PredictAllShape | models/ndvi_predictor.py:258-296 | one metrics entry per region of the data with its forecast metrics, |regions| × periods rows, each of a region of the data, and every region present when periods > 0 |
| NdviPrediction.RegionDateLeTotalPreorder | models/ndvi_predictor.py:33 | ordering by region, then date, is a total preorder |
| NdviPrediction.NdviPredictor.constructor | models/ndvi_predictor.py:12-22 | the file is kept and no data is loaded |
| NdviPrediction.NdviPredictor.LoadData | models/ndvi_predictor.py:24-43 | a failed read raises and keeps the data; otherwise the data is the rows sorted by (Region, Date), a sorted permutation of what was read |
| NdviPrediction.NdviPredictor.AnalyzeTemporalPatterns | models/ndvi_predictor.py:45-65 | ValueError before loading; otherwise one trend per region of the data, the correlation oracle on its date-sorted rows |
| NdviPrediction.NdviPredictor.SeasonalNaivePrediction | models/ndvi_predictor.py:213-256 | the future loop computes `SeasonalNaive` |
| NdviPrediction.NdviPredictor.ForecastRegion | models/ndvi_predictor.py:277-282 | the dispatch computes `RegionForecast` on the loaded data |
| NdviPrediction.NdviPredictor.PredictAllRegions | models/ndvi_predictor.py:258-296 | the region loop computes `PredictAll`; no data is NotLoaded |
| ProcessedData.DateLeTotalPreorder | models/ndvi_predictor.py:106 | ordering by date is a total preorder |
| ProcessedData.SortedRegionRows | models/ndvi_predictor.py:105-106 | only rows of the region, and every row of the region |
| ProcessedData.Regions | models/ndvi_predictor.py:274 | `unique()`: distinct, every row's region appears, and nothing else |
| ProcessedData.SortedRegionRowsOrdered | models/ndvi_predictor.py:105-106 | the region's rows are in date order and all belong to it |
| ProcessedData.SortedDates | models/ndvi_predictor.py:106 | rows sorted by date have non-decreasing dates, pair by pair |
| Calendar.MarchMonthIndex | models/data_loader.py:92 | the month index, counted from March, of a day of the year lies in 0..11 and brackets the day between its month's first day and the next's |
| Calendar.CivilFromDays | models/data_loader.py:91-92 | the month of a day number lies in 1..12 and its day in 1 up to the length of that month, 29 in the February of a leap year |
| Calendar.MonthOf | models/data_loader.py:92 | `dt.month` lies in 1..12 |
| Calendar.YearOf | models/data_loader.py:91 | `dt.year` is the year of a valid calendar date that names the day |
| Calendar.YearOfEra | models/data_loader.py:91-92 | an era's day splits into the year of the era and the March-based day of that year, within bounds; day 365 only in a leap year |
| Calendar.CivilOfParts | models/data_loader.py:91-92 | era, year of the era and day of the year give a month in 1..12 and a day in 1..31 |
| Calendar.DaysInMonth | models/data_loader.py:91-92 | a month has 28 to 31 days |
| Calendar.MonthStartFormula | models/data_loader.py:91-92 | `(153 * mp + 2) / 5` is the table of March-based month starts |
| Calendar.YearOfEraDays | models/data_loader.py:91-92 | the days before a year of the era are `365 * yoe + yoe / 4 - yoe / 100` |
| Calendar.LeapYearOfEra | models/data_loader.py:91-92 | a year of the era that has a day 365 is a Gregorian leap year |
| Calendar.DayWithinMonth | models/data_loader.py:91-92 | the day of the split date is at most the length of its month |
| Calendar.PartsRoundTrip | models/data_loader.py:91-92 | counting the days of the split date back gives the day number it came from |
| Calendar.CivilRoundTrip | models/data_loader.py:91-92 | the day count of the date of a day number is that number, for every day number |
| Calendar.CivilFromDaysInjective | models/data_loader.py:91-92 | distinct day numbers have distinct dates |
| Calendar.EpochDate | models/data_loader.py:73 | day 0 is 1970-01-01 |
| Calendar.LeapDay2024 | models/data_loader.py:73 | day 19782 is 2024-02-29 |
| Calendar.NewYear2025 | models/data_loader.py:73 | day 20089 is 2025-01-01 |
| Calendar.SeasonOf | models/data_loader.py:93-98 | the map is defined exactly on 1..12: Dec-Feb Winter, Mar-May Spring, Jun-Aug Summer, Sep-Nov Fall, each in both directions |
| Calendar.SeasonsPartitionYear | models/data_loader.py:93-98 | each season has exactly three months, the four sets are those of the table, and every date's month has a season |
| ArimaPrediction.Diff | models/arima_predictor.py:119 | `diff().dropna()` drops one leading element and holds consecutive differences |
| ArimaPrediction.DiffN | models/arima_predictor.py:119-120 | k differencings leave max(n - k, 0) values |
| ArimaPrediction.DiffCount | models/arima_predictor.py:110-122 | the count lies in 0..3; below 3 the series it returns passed the test; every earlier series failed it |
| ArimaPrediction.DiffCountFirstPass | models/arima_predictor.py:113-117 | the count is the first number of differencings that passes, or 3 |
| ArimaPrediction.MakeStationary | models/arima_predictor.py:99-122 | the while loop returns that count and the series differenced that many times |
| ArimaPrediction.QRow | models/arima_predictor.py:144 | `max_q + 1` orders for one (p, d) |
| ArimaPrediction.QRowMembers | models/arima_predictor.py:144 | a q row holds exactly the orders (p, d, q) with q below its bound |
| ArimaPrediction.DBlockMembers | models/arima_predictor.py:143-144 | a d block holds exactly the orders (p, d, q) with d and q below their bounds |
| ArimaPrediction.GridMembers | models/arima_predictor.py:142-144 | the grid holds exactly the orders with p, d, q below their bounds |
| ArimaPrediction.AscendingConcat | models/arima_predictor.py:142-144 | two ascending runs, the first wholly below the second, make an ascending run |
| ArimaPrediction.DBlockAscending | models/arima_predictor.py:143-144 | a d block is in lexicographic order |
| ArimaPrediction.GridBeforeBlock | models/arima_predictor.py:142-144 | every order of p < n comes before every order with p = n |
| ArimaPrediction.GridAscending | models/arima_predictor.py:142-144 | the grid is visited in lexicographic order, p outermost, each order once |
| ArimaPrediction.SearchStep | models/arima_predictor.py:145-154 | a visited order replaces the best only when its fit succeeds with a strictly smaller AIC |
| ArimaPrediction.SearchSpec | models/arima_predictor.py:137-157 | about `Search`, the loop over the grid: no successful fit gives (0, 0, 0); otherwise the result is the first order with the least AIC |
| ArimaPrediction.SearchInGrid | models/arima_predictor.py:137-157 | the result is (0, 0, 0) or an order of the grid |
| ArimaPrediction.FindBestArimaParams | models/arima_predictor.py:124-157 | the triple loop computes the search over the grid |
| ArimaPrediction.SearchBlock | models/arima_predictor.py:143-154 | the d loop extends the search by one d block |
| ArimaPrediction.SearchRow | models/arima_predictor.py:144-154 | the q loop extends the search by one q row |
| ArimaPrediction.SelectOrder | models/arima_predictor.py:180-188 | manual mode is (1, 1, 1); auto mode is the grid search's order on the series differenced `diff_count` times, with d raised by `diff_count`; so p ≤ 3, q ≤ 3 and `diff_count` ≤ d ≤ 2 + 3 |
| ArimaPrediction.SelectOrderFirstBest | models/arima_predictor.py:124-188 | in auto mode the order is (0, `diff_count`, 0) when no order of the grid fits; otherwise the first order of least AIC, with d raised by `diff_count` |
| ArimaPrediction.SearchShifted | models/arima_predictor.py:137-157 | for any grid, AIC function and shift k: the shifted search result is (0, k, 0) when nothing fits, otherwise the first order of least AIC with d raised by k |
| ArimaPrediction.ChooseOrder | models/arima_predictor.py:180-188 | computes `SelectOrder` |
| ArimaPrediction.ForecastSteps | models/arima_predictor.py:196 | `steps` values, the i-th the forecast oracle's i-th step |
| ArimaPrediction.FitSeries | models/arima_predictor.py:172-229 | a fit exists exactly when the final fit on the training part succeeds; then train and test are the values of the 80/20 split, each test prediction is the forecast oracle's value at its step for the fit of train with the selected order, AIC and BIC are those of that fit, and the errors are those of test against predictions |
| ArimaPrediction.FitSeriesModel | models/arima_predictor.py:172-229 | computes `FitSeries` |
| ArimaPrediction.SeriesError | models/arima_predictor.py:54-78 | the empty-series error stays the empty-series error, and the `reindex` error of repeated dates becomes DuplicateDates |
| ArimaPrediction.FitRegion | models/arima_predictor.py:159-229 | fails with EmptySeries exactly when the region has no rows and with DuplicateDates exactly when its dates repeat; succeeds exactly when its series exists |
| ArimaPrediction.ParamsLabel | models/arima_predictor.py:273 | the label starts with "ARIMA(" and ends with ")" |
| ArimaPrediction.ParamsLabelInjective | models/arima_predictor.py:273 | distinct orders get distinct labels, so the Params cell identifies the order |
| ArimaPrediction.SeriesFuture | models/arima_predictor.py:245-278 | fails exactly when the final fit on the whole series with the auto order fails; otherwise `periods` rows at the future dates, for the region, labelled 'ARIMA', each value the forecast oracle's at its step and each params cell the label of that order |
| ArimaPrediction.ForecastSeries | models/arima_predictor.py:245-278 | computes `SeriesFuture` |
| ArimaPrediction.FutureRows | models/arima_predictor.py:268-274 | one row per date with its value, the region, 'ARIMA' and the order label |
| ArimaPrediction.PredictFuture | models/arima_predictor.py:231-278 | a region without rows fails with EmptySeries and one with repeated dates with DuplicateDates; a forecast has `periods` rows |
| ArimaPrediction.ListedRegionHasSeries | models/arima_predictor.py:295-305 | a region of the data never has the empty series |
| ArimaPrediction.CollectArimaSkips | models/arima_predictor.py:299-301 | a region whose fit is `None` adds nothing |
| ArimaPrediction.CollectArimaFits | models/arima_predictor.py:301-306 | a fitted region adds its metrics and one frame of future rows |
| ArimaPrediction.ArimaErrorStops | models/arima_predictor.py:295-306 | an error on a prefix of the regions is the error of the whole loop |
| ArimaPrediction.CollectArimaMetrics | models/arima_predictor.py:295-306 | metrics exactly for the regions that fitted, from their fits; no frame exactly when none fitted |
| ArimaPrediction.PredictAllArimaSpec | models/arima_predictor.py:280-320 | `None` exactly when no region fits; otherwise metrics for exactly the regions that fitted |
| ArimaPrediction.CollectArimaFails | models/arima_predictor.py:301-306 | a fitted region whose forecast raises ends the whole loop with that error |
| ArimaPrediction.CollectArimaFitFails | models/arima_predictor.py:299-301 | a region whose fit raises ends the loop with that error |
| ArimaPrediction.CollectArima | models/arima_predictor.py:295-306 | the loop fails exactly when some region's fit raises or its fit succeeds and its forecast raises, with the first such region's error; a success has at most one frame per region |
| ArimaPrediction.PredictAllArima | models/arima_predictor.py:280-320 | fails exactly when some region's fit or forecast raises; a result that is not `None` has between 1 and one-per-region frames |
| ArimaPrediction.FitRegionModel | models/arima_predictor.py:159-229 | computes `FitRegion` |
| ArimaPrediction.ForecastRegionFuture | models/arima_predictor.py:231-278 | computes `PredictFuture` |
| ArimaPrediction.CollectArimaLoop | models/arima_predictor.py:295-306 | the region loop computes `CollectArima` over the regions in order of appearance |
| ArimaPrediction.ArimaPredictor.constructor | models/arima_predictor.py:22-32 | the file is kept and no data is loaded |
| ArimaPrediction.ArimaPredictor.LoadData | models/arima_predictor.py:34-52 | a failed read raises and keeps the data; otherwise the rows sorted by (Region, Date) |
| ArimaPrediction.ArimaPredictor.FitArimaModel | models/arima_predictor.py:159-229 | computes `FitRegion` on the loaded data |
| ArimaPrediction.ArimaPredictor.PredictFutureRegion | models/arima_predictor.py:231-278 | computes `PredictFuture` on the loaded data |
| ArimaPrediction.ArimaPredictor.PredictAllRegions | models/arima_predictor.py:280-320 | computes `PredictAllArima` on the loaded data: `None` when no region was fitted; no data is NotLoaded |
| PredictionAnalysis.Annotate | models/prediction_analyzer.py:108-114 | a row keeps its date, value and region and gains the month of its date and that month's meteorological season |
| PredictionAnalysis.AnnotateAll | models/prediction_analyzer.py:108-114 | the columns are added row by row, the rows kept in order |
| PredictionAnalysis.AnnotatedSeasons | models/prediction_analyzer.py:109-114 | every annotated row has a season, since every month of the map is listed |
| PredictionAnalysis.Matches | models/prediction_analyzer.py:142-147 | a linear row pairs with exactly the seasonal rows of the same date and region |
| PredictionAnalysis.MergeSpec | models/prediction_analyzer.py:142-150 | the inner merge on Date and Region holds exactly the pairs with equal keys, and every Difference is seasonal minus linear |
| PredictionAnalysis.Merge | models/prediction_analyzer.py:142-147 | the inner join has at most one row per pair of a linear and a seasonal row |
| PredictionAnalysis.Higher | models/prediction_analyzer.py:168-171 | the seasonal method is reported higher exactly when the mean difference is positive, the linear one otherwise |
| PredictionAnalysis.ComparisonRegions | models/prediction_analyzer.py:155 | the Region column of the merged frame, in order |
| PredictionAnalysis.RegionDifferences | models/prediction_analyzer.py:156-158 | at most one difference per merged row |
| PredictionAnalysis.RegionDifferencesFilter | models/prediction_analyzer.py:156-158 | the differences of a region are exactly the Difference values of its merge rows, in order |
| PredictionAnalysis.MethodVerdicts | models/prediction_analyzer.py:153-171 | one verdict per distinct region in order of appearance, with the mean of its differences and the verdict of its sign |
| PredictionAnalysis.TrendOf | models/prediction_analyzer.py:213-218 | increase above 5 %, decrease below -5 %, stable in between, both bounds included |
| PredictionAnalysis.ChangeTrend | models/prediction_analyzer.py:206-218 | the trend of the percentage change against the historical mean; a zero historical mean follows the sign of the floating-point infinity |
| PredictionAnalysis.Rows2025 | models/prediction_analyzer.py:181-183 | exactly the seasonal rows dated in 2025 |
| PredictionAnalysis.Rows2025Append | models/prediction_analyzer.py:181-183 | the year filter distributes over concatenation, keeping order |
| PredictionAnalysis.AnalyzedRegions | models/prediction_analyzer.py:189 | the Region column of the 2025 rows, in order |
| PredictionAnalysis.RegionValuesFilter | models/prediction_analyzer.py:190-193 | a region's 2025 values are exactly the Predicted_NDVI of its 2025 rows, in order |
| PredictionAnalysis.HistoricalValuesFilter | models/prediction_analyzer.py:205-206 | a region's historical values are exactly the NDVI of its historical rows, in order |
| PredictionAnalysis.Scenarios | models/prediction_analyzer.py:180-218 | one scenario per distinct region with 2025 rows, with the 2025 mean, the historical mean and their trend; a region without historical rows has a `NaN` change, which both comparisons reject, so its trend is stable |
| PredictionAnalysis.ScenarioRegionsHave2025Rows | models/prediction_analyzer.py:189-190 | every scenario region has a seasonal row dated in 2025 |
| PredictionAnalysis.ScenarioAt | models/prediction_analyzer.py:189-218 | the k-th scenario holds the k-th region, its 2025 mean, its historical mean and their trend, stable when the region has no historical rows |
| PredictionAnalysis.PeriodsPredicted | models/prediction_analyzer.py:231 | the floor division of the row count by the region count; an empty frame divides by zero |
| PredictionAnalysis.PeriodsOfUniformFrame | models/prediction_analyzer.py:231 | a frame of `periods` rows per region reports `periods` |
| PredictionAnalysis.DistinctRowRegions | models/prediction_analyzer.py:230 | the distinct regions of rows drawn from a list of unique regions, each present, are as many as that list |
| PredictionAnalysis.PeriodsOfPredictAll | models/prediction_analyzer.py:231 | a linear prediction frame of `periods` dates per region reports exactly `periods` |
| PredictionAnalysis.VerdictsLoop | models/prediction_analyzer.py:155-171 | the region loop computes `MethodVerdicts` |
| PredictionAnalysis.ScenariosLoop | models/prediction_analyzer.py:189-218 | the region loop computes `Scenarios` |
| PredictionAnalysis.PredictionAnalyzer.constructor | models/prediction_analyzer.py:12-18 | the three frames start empty |
| PredictionAnalysis.PredictionAnalyzer.LoadPredictions | models/prediction_analyzer.py:20-47 | true exactly when all three reads succeed; the frames read before a failing read stay assigned |
| PredictionAnalysis.PredictionAnalyzer.AnalyzeSeasonalPatterns | models/prediction_analyzer.py:100-114 | adds Month and Season to the seasonal frame and changes nothing else |
| PredictionAnalysis.PredictionAnalyzer.CompareMethods | models/prediction_analyzer.py:134-171 | the verdicts of the merged frames; a frame not loaded is an error |
| PredictionAnalysis.PredictionAnalyzer.AnalyzeFutureScenarios | models/prediction_analyzer.py:173-218 | the scenarios of the loaded frames; a frame not loaded is an error |
| PredictionAnalysis.PredictionAnalyzer.GenerateSummaryReport | models/prediction_analyzer.py:220-231 | the number of periods predicted of the linear frame |
| Sorting.Insert | models/data_loader.py:110 | inserting keeps every element and adds one |
| Sorting.Sort | models/data_loader.py:110 | `sort_values` returns a permutation of the rows |
| Sorting.SortSameElements | models/data_loader.py:110 | sorting keeps exactly the elements it was given, no more and no fewer |
| Sorting.InsertSorted | models/data_loader.py:110 | inserting into a sorted sequence keeps it sorted |
| Sorting.SortSorted | models/data_loader.py:110 | under a total preorder the result is sorted |
| Sorting.Ties | models/ndvi_predictor.py:60 | the elements equivalent to a value are drawn from the sequence |
| Sorting.TiesCons | models/ndvi_predictor.py:60 | the equivalent elements of a sequence are those of its head and its tail |
| Sorting.NotBothTies | models/ndvi_predictor.py:60 | two elements out of order under a total preorder are not both equivalent to one value |
| Sorting.TiesInsertStep | models/ndvi_predictor.py:60 | passing one non-equivalent element keeps the equivalent elements in order |
| Sorting.TiesInsert | models/ndvi_predictor.py:60 | inserting into a sorted sequence puts the new element first among those equivalent to it, ahead of the old ones in their order |
| Sorting.SortStable | models/ndvi_predictor.py:60 | the sort is stable: each class of equivalent rows keeps its input order |
| Strings.ToLower | app/frontend/src/components/MexicoMap.tsx:22 | `toLowerCase` keeps the length |
| Strings.ToLowerSpec | app/frontend/src/components/MexicoMap.tsx:22 | no upper-case letter stays and every other character is unchanged |
| Strings.ToLowerIdempotent | app/frontend/src/components/MexicoMap.tsx:22 | lowering twice is lowering once |
| Strings.IncludesStep | app/frontend/src/components/MexicoMap.tsx:22 | a string includes a substring exactly when it starts with it or its tail includes it |
| Strings.IncludesSuffix | app/frontend/src/components/MexicoMap.tsx:22 | a string includes what it ends with |
| Strings.IncludesLoweredPrefix | app/frontend/src/components/MexicoMap.tsx:22 | a lowered name includes its lowered prefix |
| Strings.LoweredIncludes | app/frontend/src/components/MexicoMap.tsx:22 | a name that holds a case variant of the search matches the case-insensitive filter |
| Strings.RemoveAll | models/data_loader.py:37 | `replace(pat, "")` never lengthens the string |
| Strings.RemoveAllAbsent | models/data_loader.py:37 | replacing an absent pattern leaves the string unchanged |
| Strings.RemoveAllLeading | models/data_loader.py:37 | a leading occurrence of the pattern is removed |
| Strings.TrimLeadingSpace | app/frontend/bloom-map/page.tsx:28 | `parseInt` skips the ECMAScript white space and line terminators: the rest does not start with one |
| Strings.LeadingDigits | app/frontend/bloom-map/page.tsx:28 | the longest prefix of decimal digits |
| Strings.DigitValue | app/frontend/bloom-map/page.tsx:28 | a digit's value is below 10 |
| Strings.DigitChar | app/frontend/src/components/MexicoMap.tsx:58 | the digit character of a value below 10, whose value is that number |
| Strings.DecimalString | app/frontend/src/components/MexicoMap.tsx:58 | `toString` of a natural number: digits only, and no leading zero except for 0 |
| Strings.DigitsValueOfDecimal | app/frontend/src/components/MexicoMap.tsx:58 | the decimal digits of n have the value n |
| Strings.LeadingDigitsStop | app/frontend/bloom-map/page.tsx:28 | the digit run of digits followed by a non-digit is those digits |
| Strings.ParseInt | app/frontend/src/components/MexicoMap.tsx:58 | a number exactly when a digit follows the leading white space and an optional sign; a negative number only after '-' |
| Strings.ParseIntIgnoresTrailing | app/frontend/src/components/MexicoMap.tsx:58 | the decimal digits of n followed by a non-digit read as n |
| Strings.ParseIntOfDecimal | app/frontend/src/components/MexicoMap.tsx:58 | `parseInt(n.toString())` is n |
| Strings.DecimalStringInjective | app/frontend/src/components/MexicoMap.tsx:58 | distinct numbers have distinct decimal strings |
| Strings.LexLeTotal | models/ndvi_predictor.py:33 | any two region names are ordered one way or the other |
| Strings.LexLeAntisymmetric | models/ndvi_predictor.py:33 | names ordered both ways are equal |
| Strings.LexLeTransitive | models/ndvi_predictor.py:33 | the name order is transitive |
| Seqs.FindIndex | app/frontend/src/components/MexicoMap.tsx:354 | the first index whose element satisfies the test, or none when no element does |
| Seqs.Find | app/frontend/src/components/MexicoMap.tsx:16 | `find` gives the first element that satisfies the test, and nothing exactly when none does |
| Seqs.Filter | app/frontend/src/components/MexicoMap.tsx:21 | `filter` keeps exactly the elements that satisfy the test |
| Seqs.FilterAppend | app/frontend/src/components/MexicoMap.tsx:21 | filtering distributes over concatenation |
| Seqs.FilterAll | app/frontend/src/components/MexicoMap.tsx:21 | a test every element passes keeps the whole sequence |
| Seqs.Distinct | models/ndvi_predictor.py:274 | `unique()` lists each element once and exactly the elements present |
| Seqs.DistinctFirstAppearance | models/ndvi_predictor.py:274 | `unique()` keeps the order of first appearance: an element listed earlier occurs before every occurrence of one listed later |
| Seqs.UniqueCard | models/ndvi_predictor.py:274 | a sequence without repeats has as many elements as its set |
| Seqs.UniqueSameLength | models/ndvi_predictor.py:274 | two repeat-free sequences with the same elements have the same length |

## Left out

- Floating-point arithmetic: NDVI values, means, standard deviations, error metrics (MAE, MSE, RMSE, MAPE, R²), `polyfit` and correlation are not computed. They are `real`s that are only compared, or the results of oracle parameters.
- Library behaviour: pandas `reindex`/`interpolate`, numpy, and statsmodels `adfuller`, `ARIMA.fit` and `forecast` are oracle parameters. Nothing is assumed about them beyond their types. The ARIMA forecast oracle gives one value per step index.
- `models/prophet_predictor.py` is not part of this model. It wraps a forecasting library, and its 80/20 split is the one of `models/ndvi_predictor.py`.
- CSV reading and writing: a read is a parameter, its table or `None` when it raises. An export is modelled as the rows it would write.
- Console output, `matplotlib`, and `visualize_data`, which uses `plt` without importing it.
- The extractors, the backend server and the endpoint scripts: network and file I/O only. `models/run_data_loader.py` only calls the data loader in sequence.
- React rendering, JSX, CSS, the Leaflet map and tiles, and the SVG/base64 icons. Kept: the state the handlers change and the values the markup is computed from.
- `Math.cos`/`Math.sin` pixel offsets of the radial layout: only the integer angle in degrees is modelled.
- `new Date()` and a directory listing are both parameters: the current year, and the list of file stems with their read results.
- MexicoMap.IntensityColor: `bloomingIntensity` is a TypeScript `number` but is modelled as an integer. As the thresholds 80, 60 and 40 are integers, the tier of a fractional x is the tier of ⌊x⌋; a `NaN` intensity fails every `>=` test and gets green. Every intensity in the mock table is an integer literal.
- MexicoMap.IntensityLabel: the same integer intensity; a fractional x gets the label of ⌊x⌋, and a `NaN` intensity gets "Low".
- Strings.ToLower: lower-cases ASCII letters only. JavaScript's full Unicode case mapping is not modelled; every name in the tables is ASCII.
- Strings.ParseInt: models decimal `parseInt` with an optional sign. Hexadecimal `0x` prefixes and other radices are not modelled; the select values are decimal years.
- NdviPrediction.TrainTestSplit: `int(len * 0.8)` is written as `(4 * len) / 5`. The two agree unless floating-point rounding of `len * 0.8` lands just below an integer.
- Sorting.Sort: pandas `sort_values` uses an unstable quicksort by default for a single key. The model uses a stable insertion sort, which is one result pandas may return. The sort on two keys and Python's `sorted` are stable in the source as well.
- `NaN` from an empty mean or a failed `parseInt` is `None` or an explicit case where the source's branch depends on it. Otherwise it stays inside the oracles.
- ArimaPrediction.ArimaPredictor.FitArimaModel, ArimaPrediction.ArimaPredictor.PredictFutureRegion, NdviPrediction.NdviPredictor.ForecastRegion, ModelValidation.ModelValidator.ValidateModelPerformance and ModelValidation.ModelValidator.ValidateRegionModels require loaded data. On `None` the source raises an `AttributeError`/`TypeError` before any logic of its own runs.
- ArimaPrediction.DiffN: assumes a NaN-free input, so each differencing drops exactly one leading value.
- `adfuller` raising on a very short series is not modelled: the stationarity oracle is total. In the source `test_stationarity` is called from `make_stationary` (models/arima_predictor.py:113) outside any `try`, so such a raise escapes `fit_arima_model` and `predict_all_regions`.
- The unused `models` and `predictions` fields of the ARIMA predictor are not modelled.
- `analyze_prediction_trends` of the prediction analyzer prints only, and is not modelled. So are the print-only parts of the other methods: the per-season and peak-month `groupby` tables, the variability ranking of the summary report, and `Difference_pct`.
- `export_predictions` of the predictors only writes CSV.
- `identify_model_strengths_weaknesses` of the model validator prints threshold messages only.
- DataLoader.NdviDataLoader.GetDataSummary: the NDVI mean and standard deviation, the EVI mean and standard deviation and `round(4)` are floating point and are not in the summary; the overall date range is printed only.
- ModelValidation.Rankings: states one ranking per summary model, in summary order. The composite score is a `real` expression of oracle means, not a further property; ModelValidation.RankModelsSpec states the ordering.
- MockData: the health-impact severity is checked by its type alone, a datatype of exactly three values; the snapshots' other invariants are lemmas.
