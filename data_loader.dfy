/**
 * The NDVI data loader: one CSV file per region is read into a table keyed
 * by region name; preparing the data keeps the rows whose NDVI and EVI lie
 * in [0, 1], adds the calendar columns, concatenates the regions and sorts
 * the result by region and date.
 */
module DataLoader {
  import opened Wrappers
  import opened Strings
  import opened Seqs
  import opened Sorting
  import opened Calendar

  /** A row of a region's CSV file; the date is a day number. */
  datatype RawRow = RawRow(date: int, ndvi: real, evi: real, pixelReliability: int)

  /** A CSV file found in the data folder: its stem, and its rows unless reading it fails. */
  datatype CsvFile = CsvFile(stem: string, rows: Option<seq<RawRow>>)

  /** A prepared record: the renamed columns plus Region, Year, Month and Season. */
  datatype Record = Record(
    region: string, date: int, ndvi: real, evi: real, pixelReliability: int,
    year: int, month: int, season: Option<Season>)

  datatype LoadError = FileNotFoundError | ValueError

  const StemPrefix := "monterrey_"
  const StemSuffix := "_NDVI_clean"

  /** `stem.replace("monterrey_", "").replace("_NDVI_clean", "")`. */
  function RegionName(stem: string): (name: string)
    ensures |name| <= |stem|
  {
    RemoveAll(RemoveAll(stem, StemPrefix), StemSuffix)
  }

  /** Removing a pattern that occurs only at the end of `r + pat` leaves `r`. */
  lemma {:induction false} RemoveAllTrailing(r: string, pat: string)
    requires |pat| > 0
    requires forall i :: OccursAt(r + pat, pat, i) ==> i == |r|
    ensures RemoveAll(r + pat, pat) == r
    decreases |r|
  {
    var s := r + pat;
    if r == [] {
      assert s == pat + [];
      RemoveAllLeading(pat, []);
    } else {
      assert !OccursAt(s, pat, 0);
      assert s[..|pat|] != pat;
      assert RemoveAll(s, pat) == [s[0]] + RemoveAll(s[1..], pat);
      assert s[1..] == r[1..] + pat;
      ShiftOccurrences(r, pat);
      RemoveAllTrailing(r[1..], pat);
      assert r == [r[0]] + r[1..];
    }
  }

  /** Occurrences in `r[1..] + pat` are occurrences in `r + pat`, one place to the left. */
  lemma ShiftOccurrences(r: string, pat: string)
    requires r != []
    requires forall i :: OccursAt(r + pat, pat, i) ==> i == |r|
    ensures forall i :: OccursAt(r[1..] + pat, pat, i) ==> i == |r| - 1
  {
    var s := r + pat;
    forall i | OccursAt(r[1..] + pat, pat, i)
      ensures i == |r| - 1
    {
      assert s[i + 1..i + 1 + |pat|] == (r[1..] + pat)[i..i + |pat|];
      assert OccursAt(s, pat, i + 1);
    }
  }

  /**
   * Removing every `pre` and then every `suf` from `pre + r + suf` leaves `r`
   * when `pre` occurs only at the front and `suf` only at the end.
   */
  lemma StripBoth(pre: string, r: string, suf: string)
    requires |pre| > 0 && |suf| > 0
    requires forall i :: OccursAt(pre + r + suf, pre, i) ==> i == 0
    requires forall i :: OccursAt(pre + r + suf, suf, i) ==> i == |pre| + |r|
    ensures RemoveAll(RemoveAll(pre + r + suf, pre), suf) == r
  {
    var stem := pre + r + suf;
    var rest := r + suf;
    assert stem == pre + rest;
    RemoveAllLeading(pre, rest);
    forall i | OccursAt(rest, pre, i)
      ensures false
    {
      assert stem[i + |pre|..i + |pre| + |pre|] == rest[i..i + |pre|];
      assert OccursAt(stem, pre, i + |pre|);
    }
    RemoveAllAbsent(rest, pre);
    forall i | OccursAt(rest, suf, i)
      ensures i == |r|
    {
      assert stem[i + |pre|..i + |pre| + |suf|] == rest[i..i + |suf|];
      assert OccursAt(stem, suf, i + |pre|);
    }
    RemoveAllTrailing(r, suf);
  }

  /**
   * For a stem `"monterrey_" + R + "_NDVI_clean"` in which the prefix occurs
   * only at the front and the suffix only at the end, the region name is `R`.
   */
  lemma RegionNameOfStem(r: string)
    requires forall i :: OccursAt(StemPrefix + r + StemSuffix, StemPrefix, i) ==> i == 0
    requires forall i :: OccursAt(StemPrefix + r + StemSuffix, StemSuffix, i) ==> i == |StemPrefix| + |r|
    ensures RegionName(StemPrefix + r + StemSuffix) == r
  {
    StripBoth(StemPrefix, r, StemSuffix);
  }

  /**
   * A region called `monterrey`: its stem holds the prefix twice, both are
   * removed, and the name comes out as `NDVI_clean`.
   */
  lemma RegionNamedMonterrey()
    ensures RegionName(StemPrefix + "monterrey" + StemSuffix) == "NDVI_clean"
  {
    var stem := StemPrefix + "monterrey" + StemSuffix;
    assert stem == StemPrefix + (StemPrefix + "NDVI_clean");
    RemoveAllLeading(StemPrefix, StemPrefix + "NDVI_clean");
    RemoveAllLeading(StemPrefix, "NDVI_clean");
    var name := "NDVI_clean";
    assert name[..|StemPrefix|] != StemPrefix by {
      assert name[0] != StemPrefix[0];
    }
    assert name == [name[0]] + name[1..];
    assert RemoveAll(name, StemPrefix) == name;
    assert RemoveAll(name, StemSuffix) == name;
  }

  /**
   * The regions loaded so far, keyed by name, and the order in which the
   * names first appeared (the order of a Python dict).
   */
  datatype Store = Store(data: map<string, seq<RawRow>>, order: seq<string>)

  /** The names in `order` are distinct and are exactly the keys of `data`. */
  predicate WellOrdered(s: Store)
  {
    Unique(s.order) && s.data.Keys == set k | k in s.order
  }

  /** One pass of the load loop: a readable file is stored under its region name, replacing an earlier one. */
  function LoadFile(s: Store, f: CsvFile): (t: Store)
    ensures f.rows.None? ==> t == s
    ensures f.rows.Some? ==> t.data == s.data[RegionName(f.stem) := f.rows.value]
  {
    match f.rows
    case None => s
    case Some(rows) =>
      var k := RegionName(f.stem);
      Store(s.data[k := rows], if k in s.data then s.order else s.order + [k])
  }

  /** The store after loading `files` in order. */
  function LoadFiles(s: Store, files: seq<CsvFile>): (t: Store)
    ensures forall k :: k in s.data ==> k in t.data
    ensures files == [] ==> t == s
  {
    if files == [] then s else LoadFile(LoadFiles(s, files[..|files| - 1]), files[|files| - 1])
  }

  lemma LoadFileWellOrdered(s: Store, f: CsvFile)
    requires WellOrdered(s)
    ensures WellOrdered(LoadFile(s, f))
  {
  }

  lemma {:induction false} LoadFilesWellOrdered(s: Store, files: seq<CsvFile>)
    requires WellOrdered(s)
    ensures WellOrdered(LoadFiles(s, files))
  {
    if files != [] {
      LoadFilesWellOrdered(s, files[..|files| - 1]);
      LoadFileWellOrdered(LoadFiles(s, files[..|files| - 1]), files[|files| - 1]);
    }
  }

  /** A file that can be read and whose region name is `k`. */
  predicate Provides(f: CsvFile, k: string)
  {
    f.rows.Some? && RegionName(f.stem) == k
  }

  /** A region is loaded exactly when it was there before or some readable file provides it. */
  lemma {:induction false} LoadFilesKeys(s: Store, files: seq<CsvFile>, k: string)
    ensures k in LoadFiles(s, files).data <==> k in s.data || exists j :: 0 <= j < |files| && Provides(files[j], k)
  {
    if files != [] {
      var init := files[..|files| - 1];
      LoadFilesKeys(s, init, k);
      if exists j :: 0 <= j < |init| && Provides(init[j], k) {
        var j :| 0 <= j < |init| && Provides(init[j], k);
        assert files[j] == init[j];
      }
      if exists j :: 0 <= j < |files| && Provides(files[j], k) {
        var j :| 0 <= j < |files| && Provides(files[j], k);
        if j < |init| {
          assert init[j] == files[j];
        }
      }
    }
  }

  /** The last readable file of a region wins: its rows are the ones stored. */
  lemma {:induction false} LoadFilesLastWins(s: Store, files: seq<CsvFile>, j: int)
    requires 0 <= j < |files| && files[j].rows.Some?
    requires forall i :: j < i < |files| ==> !Provides(files[i], RegionName(files[j].stem))
    ensures RegionName(files[j].stem) in LoadFiles(s, files).data
    ensures LoadFiles(s, files).data[RegionName(files[j].stem)] == files[j].rows.value
  {
    var init := files[..|files| - 1];
    if j < |files| - 1 {
      forall i | j < i < |init|
        ensures !Provides(init[i], RegionName(init[j].stem))
      {
        assert init[i] == files[i];
      }
      LoadFilesLastWins(s, init, j);
    }
  }

  /** NDVI and EVI both lie in [0, 1], bounds included. */
  predicate InRange(row: RawRow)
  {
    0.0 <= row.ndvi <= 1.0 && 0.0 <= row.evi <= 1.0
  }

  /** A kept row with the region and the calendar columns of its date. */
  function Derive(region: string, row: RawRow): (r: Record)
    ensures r.region == region && r.date == row.date && r.ndvi == row.ndvi && r.evi == row.evi
    ensures 1 <= r.month <= 12 && r.season.Some?
    ensures r.season == SeasonOf(r.month)
  {
    var month := MonthOf(row.date);
    Record(region, row.date, row.ndvi, row.evi, row.pixelReliability, YearOf(row.date), month, SeasonOf(month))
  }

  function DeriveAll(region: string, rows: seq<RawRow>): (rs: seq<Record>)
    ensures |rs| == |rows|
    ensures forall i :: 0 <= i < |rows| ==> rs[i] == Derive(region, rows[i])
  {
    if rows == [] then [] else [Derive(region, rows[0])] + DeriveAll(region, rows[1..])
  }

  /** The cleaned frame of one region: the rows in range, in file order, with the derived columns. */
  function Clean(region: string, rows: seq<RawRow>): (rs: seq<Record>)
    ensures |rs| <= |rows|
  {
    DeriveAll(region, Filter(rows, InRange))
  }

  /** Cleaning distributes over concatenation, so the kept rows stay in file order. */
  lemma CleanAppend(region: string, a: seq<RawRow>, b: seq<RawRow>)
    ensures Clean(region, a + b) == Clean(region, a) + Clean(region, b)
  {
    FilterAppend(a, b, InRange);
    var fa, fb := Filter(a, InRange), Filter(b, InRange);
    assert DeriveAll(region, fa + fb) == DeriveAll(region, fa) + DeriveAll(region, fb);
  }

  /** Every row in range is kept. */
  lemma CleanKeeps(region: string, rows: seq<RawRow>, i: int)
    requires 0 <= i < |rows| && InRange(rows[i])
    ensures Derive(region, rows[i]) in Clean(region, rows)
  {
    var f := Filter(rows, InRange);
    var j :| 0 <= j < |f| && f[j] == rows[i];
    assert Clean(region, rows)[j] == Derive(region, rows[i]);
  }

  /** Every kept record belongs to the region and has NDVI and EVI in [0, 1]. */
  lemma CleanInRange(region: string, rows: seq<RawRow>, r: Record)
    requires r in Clean(region, rows)
    ensures r.region == region && 0.0 <= r.ndvi <= 1.0 && 0.0 <= r.evi <= 1.0
  {
    var f := Filter(rows, InRange);
    var j :| 0 <= j < |f| && Clean(region, rows)[j] == r;
    assert f[j] in rows && InRange(f[j]);
  }

  /** The frames of the regions of `order`, cleaned and concatenated in that order. */
  function Combine(data: map<string, seq<RawRow>>, order: seq<string>): (rs: seq<Record>)
    requires forall k :: k in order ==> k in data
    ensures forall i :: 0 <= i < |rs| ==> rs[i].region in order && 0.0 <= rs[i].ndvi <= 1.0 && 0.0 <= rs[i].evi <= 1.0
  {
    if order == [] then []
    else
      var init, last := order[..|order| - 1], order[|order| - 1];
      assert forall k :: k in init ==> k in order;
      var c := Clean(last, data[last]);
      forall r | r in c
        ensures r.region == last && 0.0 <= r.ndvi <= 1.0 && 0.0 <= r.evi <= 1.0
      {
        CleanInRange(last, data[last], r);
      }
      Combine(data, init) + c
  }

  /** The sum of the cleaned lengths of the regions of `order`. */
  function CleanedTotal(data: map<string, seq<RawRow>>, order: seq<string>): nat
    requires forall k :: k in order ==> k in data
  {
    if order == [] then 0
    else CleanedTotal(data, order[..|order| - 1]) + |Clean(order[|order| - 1], data[order[|order| - 1]])|
  }

  /** Concatenation loses and adds no row. */
  lemma {:induction false} CombineLength(data: map<string, seq<RawRow>>, order: seq<string>)
    requires forall k :: k in order ==> k in data
    ensures |Combine(data, order)| == CleanedTotal(data, order)
  {
    if order != [] {
      CombineLength(data, order[..|order| - 1]);
    }
  }

  /** `sort_values(['Region', 'Date'])`: by region name, then by date. */
  predicate RecordLe(x: Record, y: Record)
  {
    if x.region != y.region then LexLe(x.region, y.region) else x.date <= y.date
  }

  lemma RecordLeTotalPreorder()
    ensures TotalPreorder(RecordLe)
  {
    forall x: Record, y: Record
      ensures RecordLe(x, y) || RecordLe(y, x)
    {
      LexLeTotal(x.region, y.region);
    }
    forall x: Record, y: Record, z: Record | RecordLe(x, y) && RecordLe(y, z)
      ensures RecordLe(x, z)
    {
      if x.region != y.region && y.region != z.region {
        LexLeTransitive(x.region, y.region, z.region);
        if x.region == z.region {
          LexLeAntisymmetric(x.region, y.region);
        }
      }
    }
  }

  /**
   * One row of the summary: the region's record count, its NDVI minimum
   * and maximum and its first and last date.
   */
  datatype RegionSummary = RegionSummary(count: nat, ndviMin: real, ndviMax: real, dateMin: int, dateMax: int)

  function RecordOfRegion(k: string): Record -> bool
  {
    (x: Record) => x.region == k
  }

  /** The summary of a region with the one record `x`. */
  function FirstSummary(x: Record): RegionSummary
  {
    RegionSummary(1, x.ndvi, x.ndvi, x.date, x.date)
  }

  /** The summary `s` once the record `x` is added to it. */
  function AddToSummary(s: RegionSummary, x: Record): RegionSummary
  {
    RegionSummary(
      s.count + 1,
      if x.ndvi < s.ndviMin then x.ndvi else s.ndviMin,
      if x.ndvi > s.ndviMax then x.ndvi else s.ndviMax,
      if x.date < s.dateMin then x.date else s.dateMin,
      if x.date > s.dateMax then x.date else s.dateMax)
  }

  /** `groupby('Region')`: a summary for each region that has records. */
  function Summaries(rs: seq<Record>): (m: map<string, RegionSummary>)
    ensures forall k :: k in m <==> exists i :: 0 <= i < |rs| && rs[i].region == k
  {
    if rs == [] then map[]
    else
      var m := Summaries(rs[..|rs| - 1]);
      var x := rs[|rs| - 1];
      assert forall i :: 0 <= i < |rs| - 1 ==> rs[..|rs| - 1][i] == rs[i];
      m[x.region := if x.region in m then AddToSummary(m[x.region], x) else FirstSummary(x)]
  }

  /** A region's count is the number of its records. */
  lemma {:induction false} SummaryCount(rs: seq<Record>, k: string)
    requires k in Summaries(rs)
    ensures Summaries(rs)[k].count == |Filter(rs, RecordOfRegion(k))|
  {
    var init, x := rs[..|rs| - 1], rs[|rs| - 1];
    assert rs == init + [x];
    FilterAppend(init, [x], RecordOfRegion(k));
    assert [x][1..] == [];
    if k in Summaries(init) {
      SummaryCount(init, k);
    } else {
      FilterNone(init, RecordOfRegion(k));
    }
  }

  /** A region's NDVI and Date ranges hold every one of its records. */
  lemma {:induction false} SummaryBounds(rs: seq<Record>, k: string)
    requires k in Summaries(rs)
    ensures var s := Summaries(rs)[k];
      forall i :: 0 <= i < |rs| && rs[i].region == k ==>
        s.ndviMin <= rs[i].ndvi <= s.ndviMax && s.dateMin <= rs[i].date <= s.dateMax
  {
    var init := rs[..|rs| - 1];
    assert forall i :: 0 <= i < |rs| - 1 ==> init[i] == rs[i];
    if k in Summaries(init) {
      SummaryBounds(init, k);
      if rs[|rs| - 1].region == k {
        assert Summaries(rs)[k] == AddToSummary(Summaries(init)[k], rs[|rs| - 1]);
      }
    }
  }

  /** Each end of a region's NDVI and Date ranges is the value of one of its records. */
  lemma {:induction false} SummaryAttained(rs: seq<Record>, k: string)
    requires k in Summaries(rs)
    ensures var s := Summaries(rs)[k];
      (exists i :: 0 <= i < |rs| && rs[i].region == k && rs[i].ndvi == s.ndviMin) &&
      (exists i :: 0 <= i < |rs| && rs[i].region == k && rs[i].ndvi == s.ndviMax) &&
      (exists i :: 0 <= i < |rs| && rs[i].region == k && rs[i].date == s.dateMin) &&
      (exists i :: 0 <= i < |rs| && rs[i].region == k && rs[i].date == s.dateMax)
  {
    var init := rs[..|rs| - 1];
    assert forall i :: 0 <= i < |rs| - 1 ==> init[i] == rs[i];
    if k in Summaries(init) {
      SummaryAttained(init, k);
    }
  }

  /** The loader: the data folder, the loaded regions and the prepared data once there is some. */
  class NdviDataLoader {
    var dataFolder: string
    var data: map<string, seq<RawRow>>
    var order: seq<string>
    var combinedData: Option<seq<Record>>

    predicate Valid()
      reads this
    {
      WellOrdered(Store(data, order))
    }

    constructor(dataFolder: string)
      ensures this.dataFolder == dataFolder
      ensures data == map[] && order == [] && combinedData == None
      ensures Valid()
    {
      this.dataFolder := dataFolder;
      data := map[];
      order := [];
      combinedData := None;
    }

    /**
     * `load_all_csv_files`, given the files the folder holds: with none it
     * raises `FileNotFoundError` and loads nothing; otherwise every readable
     * file is stored under its region name and an unreadable one is skipped.
     */
    method LoadAllCsvFiles(files: seq<CsvFile>) returns (r: Result<map<string, seq<RawRow>>, LoadError>)
      requires Valid()
      modifies this
      ensures Valid()
      ensures files == [] ==> r == Err(FileNotFoundError) && data == old(data) && order == old(order)
      ensures files != [] ==> Store(data, order) == LoadFiles(Store(old(data), old(order)), files) && r == Ok(data)
      ensures dataFolder == old(dataFolder) && combinedData == old(combinedData)
    {
      if files == [] {
        return Err(FileNotFoundError);
      }
      ghost var s0 := Store(data, order);
      for i := 0 to |files|
        invariant Store(data, order) == LoadFiles(s0, files[..i])
        invariant dataFolder == old(dataFolder) && combinedData == old(combinedData)
      {
        assert files[..i + 1][..i] == files[..i];
        match files[i].rows {
          case None =>
          case Some(rows) =>
            var name := RegionName(files[i].stem);
            if name !in data {
              order := order + [name];
            }
            data := data[name := rows];
        }
      }
      assert files[..|files|] == files;
      LoadFilesWellOrdered(s0, files);
      r := Ok(data);
    }

    /**
     * `prepare_data`: the regions' cleaned frames, concatenated in load
     * order and sorted by region and date. With no region loaded,
     * `pd.concat` of nothing raises `ValueError`.
     */
    method PrepareData() returns (r: Result<seq<Record>, LoadError>)
      requires Valid()
      modifies this
      ensures Valid()
      ensures data == old(data) && order == old(order) && dataFolder == old(dataFolder)
      ensures order == [] ==> r == Err(ValueError) && combinedData == old(combinedData)
      ensures order != [] ==> r == Ok(Sort(Combine(data, order), RecordLe)) && combinedData == Some(r.value)
      ensures r.Ok? ==> Sorted(r.value, RecordLe) && multiset(r.value) == multiset(Combine(data, order))
      ensures r.Ok? ==> |r.value| == CleanedTotal(data, order)
    {
      var allFrames: seq<Record> := [];
      for i := 0 to |order|
        invariant allFrames == Combine(data, order[..i])
      {
        assert order[..i + 1][..i] == order[..i];
        allFrames := allFrames + Clean(order[i], data[order[i]]);
      }
      assert order[..|order|] == order;
      if order == [] {
        return Err(ValueError);
      }
      RecordLeTotalPreorder();
      SortSorted(allFrames, RecordLe);
      CombineLength(data, order);
      var sorted := Sort(allFrames, RecordLe);
      combinedData := Some(sorted);
      r := Ok(sorted);
    }

    /**
     * `get_data_summary`: `ValueError` before the data is prepared, else per
     * region the record count, the NDVI range and the Date range.
     */
    method GetDataSummary() returns (r: Result<map<string, RegionSummary>, LoadError>)
      ensures combinedData.None? ==> r == Err(ValueError)
      ensures combinedData.Some? ==> r == Ok(Summaries(combinedData.value))
    {
      if combinedData.None? {
        return Err(ValueError);
      }
      r := Ok(Summaries(combinedData.value));
    }

    /** `export_processed_data`: `ValueError` before the data is prepared, else the output path. */
    method ExportProcessedData(outputFile: string) returns (r: Result<string, LoadError>)
      ensures combinedData.None? ==> r == Err(ValueError)
      ensures combinedData.Some? ==> r == Ok(outputFile)
    {
      if combinedData.None? {
        return Err(ValueError);
      }
      r := Ok(outputFile);
    }
  }
}
