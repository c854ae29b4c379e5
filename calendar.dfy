/**
 * Dates as day numbers (days since 1970-01-01, proleptic Gregorian), the
 * calendar fields pandas derives from them (`.dt.year`, `.dt.month`) and
 * the month-to-season table of the pipeline.
 */
module Calendar {
  import opened Wrappers

  /** A calendar date. */
  datatype Civil = Civil(year: int, month: int, day: int)

  /** Day of the year at which each month starts, for a year that begins on 1 March. */
  const MarchMonthStarts: seq<int> := [0, 31, 61, 92, 122, 153, 184, 214, 245, 275, 306, 337, 366]

  /** The month (0 = March, ..., 11 = February) holding day `doy` of a March-based year. */
  function MarchMonthIndex(doy: int): (mp: int)
    requires 0 <= doy <= 365
    ensures 0 <= mp < 12
    ensures MarchMonthStarts[mp] <= doy < MarchMonthStarts[mp + 1]
  {
    if doy < 153 then
      if doy < 61 then (if doy < 31 then 0 else 1)
      else if doy < 92 then 2 else if doy < 122 then 3 else 4
    else if doy < 245 then
      if doy < 184 then 5 else if doy < 214 then 6 else 7
    else if doy < 306 then
      if doy < 275 then 8 else 9
    else if doy < 337 then 10 else 11
  }

  /** A day of a 400-year era as a year of the era (March-based) and a day of that year. */
  datatype EraDay = EraDay(yoe: int, doy: int)

  /**
   * The year of the era and the day of the year of day `doe` of an era.
   * Within an era come centuries of 36524 days (the last has one more),
   * four-year blocks of 1461 days and years of 365 days (a leap day ends a
   * block). Day 365 of a year only exists in a leap year: the fourth year
   * of a block, and of the last century when the block ends one.
   */
  function YearOfEra(doe: int): (e: EraDay)
    requires 0 <= doe < 146097
    ensures 0 <= e.yoe <= 399 && 0 <= e.doy <= 365
    ensures doe == e.yoe * 365 + e.yoe / 4 - e.yoe / 100 + e.doy
    ensures e.doy == 365 ==> (e.yoe + 1) % 4 == 0 && ((e.yoe + 1) % 100 != 0 || e.yoe == 399)
  {
    var c0 := doe / 36524;
    var cent := if c0 == 4 then 3 else c0;
    var r1 := doe - cent * 36524;
    assert 0 <= r1 <= 36524;
    var quad := r1 / 1461;
    var r2 := r1 - quad * 1461;
    var y0 := r2 / 365;
    var yr := if y0 == 4 then 3 else y0;
    var doy := r2 - yr * 365;
    YearOfEraDays(cent, quad, yr);
    EraDay(cent * 100 + quad * 4 + yr, doy)
  }

  /** The date of day `doy` of year `yoe` of era `era`; January and February close the March-based year. */
  function CivilOfParts(era: int, yoe: int, doy: int): (c: Civil)
    requires 0 <= doy <= 365
    ensures 1 <= c.month <= 12
    ensures 1 <= c.day <= 31
  {
    var mp := MarchMonthIndex(doy);
    var m := if mp < 10 then mp + 3 else mp - 9;
    Civil(era * 400 + yoe + (if m <= 2 then 1 else 0), m, doy - MarchMonthStarts[mp] + 1)
  }

  /** The calendar date of a day number: the era of 146097 days, then the date within it. */
  function CivilFromDays(days: int): (c: Civil)
    ensures 1 <= c.month <= 12
    ensures 1 <= c.day <= DaysInMonth(c.year, c.month)
  {
    var z := days + 719468;
    var e := YearOfEra(z % 146097);
    DayWithinMonth(z / 146097, e.yoe, e.doy);
    CivilOfParts(z / 146097, e.yoe, e.doy)
  }

  /** The Gregorian leap-year rule. */
  predicate IsLeapYear(y: int)
  {
    y % 4 == 0 && (y % 100 != 0 || y % 400 == 0)
  }

  /** The number of days of month `m` (1..12) of year `y`. */
  function DaysInMonth(y: int, m: int): (n: int)
    requires 1 <= m <= 12
    ensures 28 <= n <= 31
  {
    if m == 2 then (if IsLeapYear(y) then 29 else 28)
    else if m == 4 || m == 6 || m == 9 || m == 11 then 30
    else 31
  }

  /**
   * The day number of a date: whole 400-year eras of 146097 days, then the
   * days of the year of the era (365 a year, plus a leap day every fourth
   * year except every hundredth), then the day of the March-based year,
   * whose months start at `(153 * mp + 2) / 5`.
   */
  function DaysFromCivil(c: Civil): int
    requires 1 <= c.month <= 12
  {
    var y := if c.month <= 2 then c.year - 1 else c.year;
    var era := y / 400;
    var yoe := y - era * 400;
    var mp := if c.month > 2 then c.month - 3 else c.month + 9;
    var doy := (153 * mp + 2) / 5 + c.day - 1;
    var doe := yoe * 365 + yoe / 4 - yoe / 100 + doy;
    era * 146097 + doe - 719468
  }

  /** The month-start formula agrees with the table. */
  lemma MonthStartFormula(mp: int)
    requires 0 <= mp < 12
    ensures (153 * mp + 2) / 5 == MarchMonthStarts[mp]
  {
  }

  /** The day count of a year of an era: whole centuries, four-year blocks and years. */
  lemma YearOfEraDays(cent: int, quad: int, yr: int)
    requires 0 <= cent <= 3 && 0 <= quad <= 24 && 0 <= yr <= 3
    ensures var yoe := cent * 100 + quad * 4 + yr;
      yoe * 365 + yoe / 4 - yoe / 100 == cent * 36524 + quad * 1461 + yr * 365
  {
    var yoe := cent * 100 + quad * 4 + yr;
    assert yoe == 4 * (cent * 25 + quad) + yr;
    assert yoe / 4 == cent * 25 + quad;
    assert yoe == 100 * cent + (quad * 4 + yr) && quad * 4 + yr < 100;
    assert yoe / 100 == cent;
  }

  /** The year that ends on day 365 of a March-based year of the era is a leap year. */
  lemma LeapYearOfEra(era: int, yoe: int)
    requires 0 <= yoe <= 399
    requires (yoe + 1) % 4 == 0 && ((yoe + 1) % 100 != 0 || yoe == 399)
    ensures IsLeapYear(era * 400 + yoe + 1)
  {
    ShiftMod(era * 100, yoe + 1, 4);
    ShiftMod(era * 4, yoe + 1, 100);
    ShiftMod(era + 1, 0, 400);
  }

  /** Adding whole multiples of `n` leaves the remainder mod `n` unchanged. */
  lemma ShiftMod(k: int, a: int, n: int)
    requires n == 4 || n == 100 || n == 400
    ensures (n * k + a) % n == a % n
  {
  }

  /** The date of a March-based day keeps within the length of its month. */
  lemma DayWithinMonth(era: int, yoe: int, doy: int)
    requires 0 <= yoe <= 399 && 0 <= doy <= 365
    requires doy == 365 ==> (yoe + 1) % 4 == 0 && ((yoe + 1) % 100 != 0 || yoe == 399)
    ensures var c := CivilOfParts(era, yoe, doy); c.day <= DaysInMonth(c.year, c.month)
  {
    var mp := MarchMonthIndex(doy);
    var c := CivilOfParts(era, yoe, doy);
    assert c.day == doy - MarchMonthStarts[mp] + 1;
    if mp == 11 {
      assert c.month == 2 && c.year == era * 400 + yoe + 1;
      if doy == 365 {
        LeapYearOfEra(era, yoe);
      }
    } else {
      assert c.day <= MarchMonthStarts[mp + 1] - MarchMonthStarts[mp];
    }
  }

  /** Counting the days of a date gives back its day within the era. */
  lemma PartsRoundTrip(era: int, yoe: int, doy: int)
    requires 0 <= yoe <= 399 && 0 <= doy <= 365
    ensures DaysFromCivil(CivilOfParts(era, yoe, doy)) == era * 146097 + yoe * 365 + yoe / 4 - yoe / 100 + doy - 719468
  {
    var mp := MarchMonthIndex(doy);
    MonthStartFormula(mp);
    assert (era * 400 + yoe) / 400 == era;
  }

  /** Counting the days of a date gives back the day number the date was computed from. */
  lemma CivilRoundTrip(days: int)
    ensures DaysFromCivil(CivilFromDays(days)) == days
  {
    var z := days + 719468;
    var e := YearOfEra(z % 146097);
    PartsRoundTrip(z / 146097, e.yoe, e.doy);
  }

  /** Distinct day numbers are distinct dates. */
  lemma CivilFromDaysInjective(a: int, b: int)
    requires a != b
    ensures CivilFromDays(a) != CivilFromDays(b)
  {
    CivilRoundTrip(a);
    CivilRoundTrip(b);
  }

  /** `date.month`, in 1..12. */
  function MonthOf(day: int): (m: int)
    ensures 1 <= m <= 12
  {
    CivilFromDays(day).month
  }

  /** `date.year`: the year of the calendar date that names `day`. */
  function YearOf(day: int): (y: int)
    ensures exists m, d :: 1 <= m <= 12 && 1 <= d <= DaysInMonth(y, m) && DaysFromCivil(Civil(y, m, d)) == day
  {
    var c := CivilFromDays(day);
    CivilRoundTrip(day);
    assert 1 <= c.month <= 12 && 1 <= c.day <= DaysInMonth(c.year, c.month) && DaysFromCivil(Civil(c.year, c.month, c.day)) == day;
    c.year
  }

  /** Day 0 is 1 January 1970. */
  lemma EpochDate()
    ensures CivilFromDays(0) == Civil(1970, 1, 1)
  {
    assert 719468 / 146097 == 4 && 719468 % 146097 == 135080;
    assert 135080 / 36524 == 3 && 25508 / 1461 == 17 && 671 / 365 == 1;
    assert MarchMonthIndex(306) == 10;
  }

  /** The leap day of 2024 is day 19782. */
  lemma LeapDay2024()
    ensures CivilFromDays(19782) == Civil(2024, 2, 29)
  {
    assert 739250 / 146097 == 5 && 739250 % 146097 == 8765;
    assert 8765 / 36524 == 0 && 8765 / 1461 == 5 && 1460 / 365 == 4;
    assert MarchMonthIndex(365) == 11;
  }

  /** 1 January 2025 is day 20089. */
  lemma NewYear2025()
    ensures CivilFromDays(20089) == Civil(2025, 1, 1)
  {
    assert 739557 / 146097 == 5 && 739557 % 146097 == 9072;
    assert 9072 / 36524 == 0 && 9072 / 1461 == 6 && 306 / 365 == 0;
    assert MarchMonthIndex(306) == 10;
  }

  datatype Season = Winter | Spring | Summer | Fall

  /**
   * The month-to-season map: December to February is Winter, March to May
   * Spring, June to August Summer, September to November Fall. A key
   * outside 1..12 is absent from the map (pandas gives NaN), here `None`.
   */
  function SeasonOf(month: int): (s: Option<Season>)
    ensures s.Some? <==> 1 <= month <= 12
    ensures s == Some(Winter) <==> month == 12 || month == 1 || month == 2
    ensures s == Some(Spring) <==> 3 <= month <= 5
    ensures s == Some(Summer) <==> 6 <= month <= 8
    ensures s == Some(Fall) <==> 9 <= month <= 11
  {
    if month == 12 || month == 1 || month == 2 then Some(Winter)
    else if 3 <= month <= 5 then Some(Spring)
    else if 6 <= month <= 8 then Some(Summer)
    else if 9 <= month <= 11 then Some(Fall)
    else None
  }

  /** The months that map to a season. */
  function MonthsOf(season: Season): set<int>
  {
    set m | 1 <= m <= 12 && SeasonOf(m) == Some(season)
  }

  /** Every season covers exactly three months, and every date has a season. */
  lemma SeasonsPartitionYear()
    ensures MonthsOf(Winter) == {12, 1, 2}
    ensures MonthsOf(Spring) == {3, 4, 5}
    ensures MonthsOf(Summer) == {6, 7, 8}
    ensures MonthsOf(Fall) == {9, 10, 11}
    ensures forall s :: |MonthsOf(s)| == 3
    ensures forall day :: SeasonOf(MonthOf(day)).Some?
  {
    forall s ensures |MonthsOf(s)| == 3 {
      match s
      case Winter => assert MonthsOf(s) == {12, 1, 2};
      case Spring => assert MonthsOf(s) == {3, 4, 5};
      case Summer => assert MonthsOf(s) == {6, 7, 8};
      case Fall => assert MonthsOf(s) == {9, 10, 11};
    }
  }
}
