/** The time trends tab: activity per day and per (day, hour), weekday versus
    weekend behavior, and the hourly buy/pv conversion rate. Rendering the tab
    writes five derived columns into the caller's frame. */
module TimeTrends {
  import opened Events
  import opened Seqs
  import opened Grouping
  import opened Rates
  import Overview

  function DayHourOf(e: Event): (int, int) { (DayOf(e.timestamp), HourOf(e.timestamp)) }

  /** `df.groupby(["Day", "Hour"]).size()`: one row per (day, hour) that
      occurs, with its number of rows; hours are between 0 and 23 and the
      counts add up to the number of rows. */
  function DayHourCounts(t: Table): (g: seq<((int, int), nat)>)
    ensures NoDup(KeysOf(g))
    ensures forall i :: 0 <= i < |g| ==> g[i].0 in Map(t, DayHourOf) && g[i].1 == multiset(Map(t, DayHourOf))[g[i].0]
    ensures forall i :: 0 <= i < |g| ==> 0 <= g[i].0.1 < 24
    ensures SumCounts(g) == |t|
  {
    var xs := Map(t, DayHourOf);
    var g := GroupCounts(xs);
    forall i | 0 <= i < |g| ensures 0 <= g[i].0.1 < 24 {
      var j :| 0 <= j < |xs| && xs[j] == g[i].0;
      assert g[i].0.1 == HourOf(t[j].timestamp);
    }
    g
  }

  /** The two values of the DayType column. */
  datatype DayType = Weekday | Weekend

  function DayTypeName(d: DayType): string
  {
    match d
    case Weekday => "Weekday"
    case Weekend => "Weekend"
  }

  /** `"Weekend" if x >= 5 else "Weekday"` on a `dt.dayofweek` value. */
  function DayTypeOf(weekday: int): DayType
  {
    if weekday >= 5 then Weekend else Weekday
  }

  /** Saturday and Sunday are the weekend: 2017-11-25 (day 17495) was a
      Saturday, and a week later is again the same day type. */
  lemma WeekendDays(day: int)
    ensures DayTypeOf(DayOfWeek(day)) == Weekend <==> DayOfWeek(day) == 5 || DayOfWeek(day) == 6
    ensures DayTypeOf(DayOfWeek(day + 7)) == DayTypeOf(DayOfWeek(day))
    ensures DayOfWeek(17495) == 5 && DayOfWeek(17496) == 6 && DayOfWeek(17497) == 0
  {
  }

  function DayTypeBehaviorOf(e: Event): (DayType, Behavior)
  {
    (DayTypeOf(DayOfWeek(DayOf(e.timestamp))), e.behavior)
  }

  /** `df.groupby(["DayType", "BehaviorType"]).size()`: the (day type,
      behavior) groups partition the rows. */
  function DayTypeCounts(t: Table): (g: seq<((DayType, Behavior), nat)>)
    ensures NoDup(KeysOf(g))
    ensures forall i :: 0 <= i < |t| ==> DayTypeBehaviorOf(t[i]) in KeysOf(g)
    ensures forall i :: 0 <= i < |g| ==> g[i].1 == multiset(Map(t, DayTypeBehaviorOf))[g[i].0]
    ensures SumCounts(g) == |t|
  {
    var xs := Map(t, DayTypeBehaviorOf);
    assert forall i :: 0 <= i < |t| ==> xs[i] == DayTypeBehaviorOf(t[i]);
    GroupCounts(xs)
  }

  function HourBehaviorOf(e: Event): (int, Behavior) { (HourOf(e.timestamp), e.behavior) }

  /** One point of the conversion line: an hour and its ConversionRate. */
  datatype HourRate = HourRate(hour: int, rate: Pct)

  function RateHour(r: HourRate): int { r.hour }

  /** Rows at hour `h` of behavior `b`: a cell of the unstacked (Hour, BehaviorType) table. */
  function HourCount(t: Table, h: int, b: Behavior): nat
  {
    multiset(Map(t, HourBehaviorOf))[(h, b)]
  }

  /** `hourly_behavior.get("pv", 1)` at hour `h`: the unstacked table has a pv
      column only when some row of the whole table is a pv. */
  function PvDenominator(t: Table, h: int): nat
  {
    if Pv in Map(t, BehaviorOf) then HourCount(t, h, Pv) else 1
  }

  /** `hourly_behavior.get("buy", 0)` at hour `h`. */
  function BuyNumerator(t: Table, h: int): nat
  {
    if Buy in Map(t, BehaviorOf) then HourCount(t, h, Buy) else 0
  }

  /** Falling back to 0 when there is no buy column agrees with the (empty)
      buy count of every hour. */
  lemma BuyNumeratorIsCount(t: Table, h: int)
    ensures BuyNumerator(t, h) == HourCount(t, h, Buy)
  {
  }

  /** The ConversionRate of hour `h`: buys over page views, as a percentage. */
  function HourRateOf(t: Table, h: int): (r: HourRate)
    ensures r.hour == h
    ensures r.rate == Percent(HourCount(t, h, Buy), PvDenominator(t, h))
  {
    BuyNumeratorIsCount(t, h);
    HourRate(h, Percent(BuyNumerator(t, h), PvDenominator(t, h)))
  }

  /** The conversion points of the hours `hours`, in that order. */
  function RatesFor(t: Table, hours: seq<int>): (r: seq<HourRate>)
    ensures Map(r, RateHour) == hours
    ensures forall i :: 0 <= i < |r| ==> r[i] == HourRateOf(t, r[i].hour)
  {
    if hours == [] then [] else [HourRateOf(t, hours[0])] + RatesFor(t, hours[1..])
  }

  /** `hourly_behavior["ConversionRate"]`: one point per hour that occurs, in
      ascending order, every hour between 0 and 23. */
  function HourlyConversion(t: Table): (r: seq<HourRate>)
    ensures Increasing(Map(r, RateHour))
    ensures forall h :: h in Map(r, RateHour) <==> h in Map(t, HourOfEvent)
    ensures forall i :: 0 <= i < |r| ==> 0 <= r[i].hour < 24 && r[i] == HourRateOf(t, r[i].hour)
  {
    var hours := SortedDistinct(Map(t, HourOfEvent));
    var r := RatesFor(t, hours);
    forall i | 0 <= i < |r| ensures 0 <= r[i].hour < 24 {
      assert r[i].hour == Map(r, RateHour)[i] == hours[i];
      assert hours[i] in Map(t, HourOfEvent);
    }
    r
  }

  /** The default denominator of 1 applies only when the table has no pv row
      at all: once it has one, an hour with buys but no page views gets an
      infinite rate, and an hour with neither gets NaN. */
  lemma PvDefaultOnlyWithoutPvColumn(t: Table, h: int)
    requires Pv in Map(t, BehaviorOf) && HourCount(t, h, Pv) == 0
    ensures HourCount(t, h, Buy) > 0 ==> HourRateOf(t, h).rate == Infinite
    ensures HourCount(t, h, Buy) == 0 ==> HourRateOf(t, h).rate == NotANumber
  {
  }

  /** Without a pv row, each hour's rate is 100 times its buy count. */
  lemma NoPvColumnRate(t: Table, h: int)
    requires Pv !in Map(t, BehaviorOf)
    ensures HourRateOf(t, h).rate == Finite(100.0 * HourCount(t, h, Buy) as real)
  {
    PercentOverOne(HourCount(t, h, Buy));
  }

  // The derived columns written into the caller's frame.
  function DateCell(e: Event): Cell { IntCell(DayOf(e.timestamp)) }
  function HourCell(e: Event): Cell { IntCell(HourOf(e.timestamp)) }
  function WeekdayCell(e: Event): Cell { IntCell(DayOfWeek(DayOf(e.timestamp))) }

  /** The DayType lambda applied to a Weekday cell. */
  function DayTypeCell(c: Cell): Cell
  {
    TextCell(DayTypeName(DayTypeOf(if c.IntCell? then c.n else 0)))
  }

  /** A row's DayType cell reads "Weekend" exactly when its date is a Saturday or a Sunday. */
  lemma DayTypeColumnMeaning(t: Table, i: nat)
    requires i < |t|
    ensures Map(Map(t, WeekdayCell), DayTypeCell)[i] == TextCell("Weekend") <==>
      DayOfWeek(DayOf(t[i].timestamp)) == 5 || DayOfWeek(DayOf(t[i].timestamp)) == 6
  {
    WeekendDays(DayOf(t[i].timestamp));
  }

  /** Aggregates shown by the tab. */
  datatype TimeTrendsData = TimeTrendsData(daily: seq<(int, nat)>, dayHour: seq<((int, int), nat)>,
                                           dayType: seq<((DayType, Behavior), nat)>, conversion: seq<HourRate>)

  /** `render_time_trends_tab(df)`: adds the Date, Hour, Day, Weekday and
      DayType columns to the caller's frame, in that order (Hour is written a
      second time, with the same values, before the conversion rate), keeping
      its rows and every other column, and computes the tab's aggregates. */
  method RenderTimeTrends(df: Frame) returns (data: TimeTrendsData)
    requires df.Valid()
    modifies df
    ensures df.Valid()
    ensures df.events == old(df.events)
    ensures df.columns == old(df.columns)["Date" := Map(df.events, DateCell)]["Hour" := Map(df.events, HourCell)]
      ["Day" := Map(df.events, DateCell)]["Weekday" := Map(df.events, WeekdayCell)]
      ["DayType" := Map(Map(df.events, WeekdayCell), DayTypeCell)]["Hour" := Map(df.events, HourCell)]
    ensures forall name :: name in old(df.columns) && name !in ["Date", "Hour", "Day", "Weekday", "DayType"] ==>
      name in df.columns && df.columns[name] == old(df.columns)[name]
    ensures data == TimeTrendsData(Overview.DailyActivity(df.events), DayHourCounts(df.events),
                                   DayTypeCounts(df.events), HourlyConversion(df.events))
  {
    df.SetColumn("Date", Map(df.events, DateCell));
    var daily := Overview.DailyActivity(df.events);
    df.SetColumn("Hour", Map(df.events, HourCell));
    df.SetColumn("Day", Map(df.events, DateCell));
    var dayHour := DayHourCounts(df.events);
    df.SetColumn("Weekday", Map(df.events, WeekdayCell));
    df.SetColumn("DayType", Map(df.columns["Weekday"], DayTypeCell));
    var dayType := DayTypeCounts(df.events);
    df.SetColumn("Hour", Map(df.events, HourCell));
    data := TimeTrendsData(daily, dayHour, dayType, HourlyConversion(df.events));
  }
}
