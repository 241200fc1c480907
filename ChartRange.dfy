/**
 * Chart planning in src/main.rs: the `--interval` presets and their start
 * dates, the range label shown above a chart, the number of days fetched
 * from providers that only take a day count, and the checks `run` makes on
 * the chart dates and on fiat chart requests. The current date ("today")
 * is a parameter.
 */
module ChartRange {
  import opened Wrappers
  import opened Errors
  import opened Text
  import opened Calendar
  import opened Calc
  import opened Provider

  /** `MAX_CHART_FETCH_DAYS`. */
  const MaxChartFetchDays: nat := 36500

  const SecondsPerDay: int := 86400

  /** The `--interval` presets. */
  datatype ChartRangeArg = OneDay | FiveDays | OneMonth | SixMonths | Ytd | OneYear | FiveYears | All

  /** `ChartRangeArg::label`, which is also the value name the command line accepts. */
  function Label(r: ChartRangeArg): string {
    match r
    case OneDay => "1D"
    case FiveDays => "5D"
    case OneMonth => "1M"
    case SixMonths => "6M"
    case Ytd => "YTD"
    case OneYear => "1Y"
    case FiveYears => "5Y"
    case All => "ALL"
  }

  /** The preset whose command-line value name is `s`. */
  function ParseLabel(s: string): (r: Option<ChartRangeArg>)
    ensures r.Some? ==> Label(r.value) == s
  {
    match s
    case "1D" => Some(OneDay)
    case "5D" => Some(FiveDays)
    case "1M" => Some(OneMonth)
    case "6M" => Some(SixMonths)
    case "YTD" => Some(Ytd)
    case "1Y" => Some(OneYear)
    case "5Y" => Some(FiveYears)
    case "ALL" => Some(All)
    case _ => None
  }

  /** Every preset reads back from its label, so distinct presets have distinct labels. */
  lemma LabelRoundTrip(r: ChartRangeArg)
    ensures ParseLabel(Label(r)) == Some(r)
    ensures 2 <= |Label(r)| <= 3 && '.' !in Label(r)
  {
  }

  /** `Option::or`: the first option when it holds a value, else the second. */
  function Or(a: Option<Date>, b: Option<Date>): (r: Option<Date>)
    ensures a.Some? ==> r == a
    ensures a.None? ==> r == b
  {
    if a.Some? then a else b
  }

  /** `NaiveDate::from_ymd_opt`: the date when it exists. */
  function FromYmd(y: int, m: int, d: int): (r: Option<Date>)
    ensures r.Some? <==> Valid(Date(y, m, d))
    ensures r.Some? ==> r.value == Date(y, m, d)
  {
    if Valid(Date(y, m, d)) then Some(Date(y, m, d)) else None
  }

  /** The calendar months a month-based preset goes back, and its whole-day fallback. */
  function PresetMonths(r: ChartRangeArg): (nat, nat)
    requires r == OneMonth || r == SixMonths || r == OneYear || r == FiveYears
  {
    match r
    case OneMonth => (1, 30)
    case SixMonths => (6, 182)
    case OneYear => (12, 365)
    case FiveYears => (60, 365 * 5)
  }

  /** `ChartRangeArg::start_date`: where the preset's window begins for a window ending on `end`. */
  function StartDate(r: ChartRangeArg, end: Date): (s: Option<Date>)
    requires Valid(end)
    ensures s.Some? ==> Valid(s.value)
  {
    match r
    case OneDay => Some(SubDays(end, 1))
    case FiveDays => Some(SubDays(end, 5))
    case Ytd => FromYmd(end.year, 1, 1)
    case All => None
    case _ =>
      var (months, days) := PresetMonths(r);
      CheckedSubMonthsSpec(end, months);
      Or(CheckedSubMonths(end, months), Some(SubDays(end, days)))
  }

  /**
   * What each preset yields: `ALL` has no start, `YTD` starts on January 1
   * of the end's year, `1D` and `5D` go back 1 and 5 days, and the month
   * presets go back 1, 6, 12 and 60 calendar months (their whole-day
   * fallbacks are never taken, since month subtraction always succeeds
   * here). Every start is on or before the end, and strictly before it
   * except for `YTD` on January 1.
   */
  lemma StartDateSpec(r: ChartRangeArg, end: Date)
    requires Valid(end)
    ensures StartDate(r, end).None? <==> r == All
    ensures r == Ytd ==> StartDate(r, end) == Some(Date(end.year, 1, 1))
    ensures r == OneDay ==> DayNumber(StartDate(r, end).value) == DayNumber(end) - 1
    ensures r == FiveDays ==> DayNumber(StartDate(r, end).value) == DayNumber(end) - 5
    ensures r == OneMonth || r == SixMonths || r == OneYear || r == FiveYears ==>
      StartDate(r, end) == CheckedSubMonths(end, PresetMonths(r).0)
    ensures StartDate(r, end).Some? ==> !Before(end, StartDate(r, end).value)
    ensures StartDate(r, end).Some? && r != Ytd ==> Before(StartDate(r, end).value, end)
  {
    var s := StartDate(r, end);
    match r {
      case Ytd =>
        assert Valid(Date(end.year, 1, 1));
        DayNumberOrder(Date(end.year, 1, 1), end);
      case All =>
      case OneDay =>
        DayNumberOrder(s.value, end);
      case FiveDays =>
        DayNumberOrder(s.value, end);
      case _ =>
        CheckedSubMonthsSpec(end, PresetMonths(r).0);
        DayNumberOrder(s.value, end);
    }
  }

  /** A preset start never lies after the end it is measured from. */
  lemma PresetStartNotAfterEnd(r: ChartRangeArg, end: Date)
    requires Valid(end)
    ensures StartDate(r, end).Some? ==> !Before(end, StartDate(r, end).value)
  {
    StartDateSpec(r, end);
  }

  // ---------------------------------------------------------------------
  // The range label
  // ---------------------------------------------------------------------

  /** `format_chart_range_label`: `start..end` when there is a start, else the preset's label. */
  function FormatChartRangeLabel(start: Option<Date>, end: Date, fallback: ChartRangeArg): string
    requires Valid(end)
    requires start.Some? ==> Valid(start.value)
  {
    match start
    case Some(s) => FormatDate(s) + ".." + FormatDate(end)
    case None => Label(fallback)
  }

  /**
   * Without a start the label is the preset's; with one (years 0 to 9999)
   * it is the 22 characters `YYYY-MM-DD..YYYY-MM-DD`, so it is never a preset label.
   */
  lemma FormatChartRangeLabelSpec(start: Option<Date>, end: Date, fallback: ChartRangeArg)
    requires Valid(end) && 0 <= end.year <= 9999
    requires start.Some? ==> Valid(start.value) && 0 <= start.value.year <= 9999
    ensures start.None? ==> FormatChartRangeLabel(start, end, fallback) == Label(fallback)
    ensures start.Some? ==>
      var l := FormatChartRangeLabel(start, end, fallback);
      && |l| == 22 && l[..10] == FormatDate(start.value) && l[10..12] == ".." && l[12..] == FormatDate(end)
  {
    if start.Some? {
      var a := FormatDate(start.value);
      var b := FormatDate(end);
      FormatDateLength(start.value);
      FormatDateLength(end);
      var l := a + ".." + b;
      assert l[..10] == a;
      assert l[10..12] == "..";
      assert l[12..] == b;
    }
  }

  /** A dated label names its two dates unambiguously (years 0 to 9999). */
  lemma FormatChartRangeLabelInjective(a: Date, b: Date, endA: Date, endB: Date, f: ChartRangeArg, g: ChartRangeArg)
    requires Valid(a) && 0 <= a.year <= 9999 && Valid(b) && 0 <= b.year <= 9999
    requires Valid(endA) && 0 <= endA.year <= 9999 && Valid(endB) && 0 <= endB.year <= 9999
    requires FormatChartRangeLabel(Some(a), endA, f) == FormatChartRangeLabel(Some(b), endB, g)
    ensures a == b && endA == endB
  {
    FormatChartRangeLabelSpec(Some(a), endA, f);
    FormatChartRangeLabelSpec(Some(b), endB, g);
    FormatDateInjective(a, b);
    FormatDateInjective(endA, endB);
  }

  // ---------------------------------------------------------------------
  // Days to fetch
  // ---------------------------------------------------------------------

  /** `x as u32` for an `i64`: the low 32 bits. */
  function AsU32(x: int): (r: nat)
    ensures r < 0x1_0000_0000
    ensures 0 <= x < 0x1_0000_0000 ==> r == x
  {
    x % 0x1_0000_0000
  }

  /**
   * `compute_chart_fetch_days`: the whole days from the start to today, at
   * least 1, truncated to `u32` and capped at `MAX_CHART_FETCH_DAYS`; the
   * cap itself when there is no start.
   */
  function ComputeChartFetchDays(start: Option<Date>, today: Date): (r: nat)
    requires Valid(today)
    requires start.Some? ==> Valid(start.value)
    ensures r <= MaxChartFetchDays
    ensures start.None? ==> r == MaxChartFetchDays
  {
    match start
    case None => MaxChartFetchDays
    case Some(s) =>
      var days := DayNumber(today) - DayNumber(s);
      var atLeastOne := if days < 1 then 1 else days;
      var truncated := AsU32(atLeastOne);
      if truncated < MaxChartFetchDays then truncated else MaxChartFetchDays
  }

  /**
   * As long as the span fits in 32 bits the count is at least 1: it is the
   * span itself when that lies in [1, 36500], 1 for a start on or after
   * today, and 36500 for longer spans.
   */
  lemma FetchDaysSpec(start: Date, today: Date)
    requires Valid(start) && Valid(today)
    requires DayNumber(today) - DayNumber(start) < 0x1_0000_0000
    ensures 1 <= ComputeChartFetchDays(Some(start), today) <= MaxChartFetchDays
    ensures var span := DayNumber(today) - DayNumber(start);
      && (1 <= span <= MaxChartFetchDays ==> ComputeChartFetchDays(Some(start), today) == span)
      && (span < 1 ==> ComputeChartFetchDays(Some(start), today) == 1)
      && (span > MaxChartFetchDays ==> ComputeChartFetchDays(Some(start), today) == MaxChartFetchDays)
  {
  }

  /** A date's day number lies within its year: at least the year's first, at most 365 more. */
  lemma DayNumberBounds(d: Date)
    requires Valid(d)
    ensures DaysBeforeYear(d.year) <= DayNumber(d) <= DaysBeforeYear(d.year) + 365
  {
    NextMonthStart(d.year, d.month);
    DaysBeforeDecember(d.year);
    if d.month < 12 {
      EarlierMonthEndsBefore(d.year, d.month, d.year, 12);
    }
    if d.month > 1 {
      EarlierMonthEndsBefore(d.year, 1, d.year, d.month);
    }
  }

  /**
   * chrono's dates have years between -262143 and 262142, and two such
   * dates are less than 2^32 days apart, so inside chrono's range the
   * fetch count is always in [1, 36500].
   */
  lemma FetchDaysInChronoRange(start: Date, today: Date)
    requires Valid(start) && Valid(today)
    requires -262143 <= start.year <= 262142 && -262143 <= today.year <= 262142
    ensures 1 <= ComputeChartFetchDays(Some(start), today) <= MaxChartFetchDays
  {
    DayNumberBounds(start);
    DayNumberBounds(today);
    FetchDaysSpec(start, today);
  }

  // ---------------------------------------------------------------------
  // The checks of `run` on the chart dates
  // ---------------------------------------------------------------------

  const NoSymbolsMessage: string := "no symbols provided -- usage: cryptoprice btc eth"
  const FutureEndMessage: string := "chart end date cannot be in the future"
  const StartAfterEndMessage: string := "chart start date cannot be after chart end date"

  /** The window `run` settles on before fetching anything. */
  datatype ChartPlan = ChartPlan(
    start: Option<Date>,
    end: Date,
    rangeLabel: string,
    startTs: Option<int>,
    endTs: int,
    fetchDays: nat)

  /** Midnight at the start of `d`, in seconds from 0001-01-01T00:00:00Z. */
  function DayStart(d: Date): int
    requires Valid(d)
  {
    DayNumber(d) * SecondsPerDay
  }

  /**
   * The part of `run` between the symbol check and the mode dispatch: no
   * symbols is an error; the end date defaults to today and may not lie
   * after it; an explicit `--start-date` overrides the preset and may not
   * lie after the end; the window then runs from midnight of the start to
   * 23:59:59 of the end.
   */
  function PlanChart(symbols: seq<string>, endArg: Option<Date>, startArg: Option<Date>,
                     interval: ChartRangeArg, today: Date): (r: Result<ChartPlan>)
    requires Valid(today)
    requires endArg.Some? ==> Valid(endArg.value)
    requires startArg.Some? ==> Valid(startArg.value)
    ensures r.Ok? ==> Valid(r.value.end) && (r.value.start.Some? ==> Valid(r.value.start.value))
  {
    if symbols == [] then Err(Config(NoSymbolsMessage))
    else
      var end := if endArg.Some? then endArg.value else today;
      if Before(today, end) then Err(Config(FutureEndMessage))
      else
        var start := if startArg.Some? then startArg else StartDate(interval, end);
        if start.Some? && Before(end, start.value) then Err(Config(StartAfterEndMessage))
        else
          Ok(ChartPlan(
            start, end,
            FormatChartRangeLabel(start, end, interval),
            if start.Some? then Some(DayStart(start.value)) else None,
            DayStart(end) + SecondsPerDay - 1,
            ComputeChartFetchDays(start, today)))
  }

  /**
   * The plan fails on no symbols, on an end after today, and on a start
   * after the end, with that precedence and the source's messages.
   */
  lemma PlanChartErrors(symbols: seq<string>, endArg: Option<Date>, startArg: Option<Date>,
                        interval: ChartRangeArg, today: Date)
    requires Valid(today)
    requires endArg.Some? ==> Valid(endArg.value)
    requires startArg.Some? ==> Valid(startArg.value)
    ensures symbols == [] ==> PlanChart(symbols, endArg, startArg, interval, today) == Err(Config(NoSymbolsMessage))
    ensures symbols != [] && Before(today, endArg.UnwrapOr(today)) ==>
      PlanChart(symbols, endArg, startArg, interval, today) == Err(Config(FutureEndMessage))
    ensures symbols != [] && !Before(today, endArg.UnwrapOr(today)) && startArg.Some?
            && Before(endArg.UnwrapOr(today), startArg.value) ==>
      PlanChart(symbols, endArg, startArg, interval, today) == Err(Config(StartAfterEndMessage))
  {
  }

  /** The plan fails on nothing else: a preset start never lies after the end. */
  lemma PlanChartSucceeds(symbols: seq<string>, endArg: Option<Date>, startArg: Option<Date>,
                          interval: ChartRangeArg, today: Date)
    requires Valid(today)
    requires endArg.Some? ==> Valid(endArg.value)
    requires startArg.Some? ==> Valid(startArg.value)
    ensures PlanChart(symbols, endArg, startArg, interval, today).Ok? <==>
      symbols != [] && !Before(today, endArg.UnwrapOr(today))
      && !(startArg.Some? && Before(endArg.UnwrapOr(today), startArg.value))
  {
    var end := endArg.UnwrapOr(today);
    if symbols != [] && !Before(today, end) && startArg.None? {
      PresetStartNotAfterEnd(interval, end);
    }
  }

  /**
   * A plan that succeeds ends on the requested end date (or today), starts
   * at the explicit start when one is given and otherwise at the preset's
   * start, and counts the days to fetch back from today.
   */
  lemma PlanChartDates(symbols: seq<string>, endArg: Option<Date>, startArg: Option<Date>,
                       interval: ChartRangeArg, today: Date)
    requires Valid(today)
    requires endArg.Some? ==> Valid(endArg.value)
    requires startArg.Some? ==> Valid(startArg.value)
    requires PlanChart(symbols, endArg, startArg, interval, today).Ok?
    ensures var p := PlanChart(symbols, endArg, startArg, interval, today).value;
      p.end == endArg.UnwrapOr(today)
    ensures var p := PlanChart(symbols, endArg, startArg, interval, today).value;
      p.start == (if startArg.Some? then startArg else StartDate(interval, p.end))
    ensures var p := PlanChart(symbols, endArg, startArg, interval, today).value;
      p.fetchDays == ComputeChartFetchDays(p.start, today)
  {
  }

  /**
   * The window of a plan that succeeds runs from the first second of the
   * start day to the last second of the end day, and starts before it ends.
   */
  lemma PlanChartWindow(symbols: seq<string>, endArg: Option<Date>, startArg: Option<Date>,
                        interval: ChartRangeArg, today: Date)
    requires Valid(today)
    requires endArg.Some? ==> Valid(endArg.value)
    requires startArg.Some? ==> Valid(startArg.value)
    requires PlanChart(symbols, endArg, startArg, interval, today).Ok?
    ensures var p := PlanChart(symbols, endArg, startArg, interval, today).value;
      p.endTs == DayStart(p.end) + SecondsPerDay - 1
    ensures var p := PlanChart(symbols, endArg, startArg, interval, today).value;
      p.start.Some? ==> DayNumber(p.start.value) <= DayNumber(p.end)
    ensures var p := PlanChart(symbols, endArg, startArg, interval, today).value;
      p.start.Some? ==> p.startTs == Some(DayStart(p.start.value)) && p.startTs.value < p.endTs
    ensures var p := PlanChart(symbols, endArg, startArg, interval, today).value;
      p.start.None? ==> p.startTs == None
  {
    var p := PlanChart(symbols, endArg, startArg, interval, today).value;
    if p.start.Some? {
      DayNumberOrder(p.start.value, p.end);
    }
  }

  // ---------------------------------------------------------------------
  // The checks of `run` on a fiat chart request
  // ---------------------------------------------------------------------

  const FiatChartNeedsTargetMessage: string :=
    "fiat chart mode requires a base and at least one target currency -- usage: cryptoprice --chart usd eur"
  const FiatChartOnlyFiatMessage: string :=
    "fiat chart mode only supports fiat currency codes (example: usd eur gbp)"
  const FiatChartDailyOnlyMessage: string :=
    "fiat chart mode supports daily history only -- use --sampling auto or --sampling daily"

  /** Every code in `codes` is a fiat code in some case. */
  predicate AllKnownFiat(codes: seq<string>) {
    forall i :: 0 <= i < |codes| ==> IsKnownFiat(codes[i])
  }

  /** The targets of a fiat chart: the symbols after the base, upper-cased. */
  function FiatChartTargets(symbols: seq<string>): (t: seq<string>)
    requires |symbols| > 0
    ensures |t| == |symbols| - 1
    ensures forall i :: 0 <= i < |t| ==> t[i] == Upper(symbols[i + 1])
  {
    seq(|symbols| - 1, i requires 0 <= i < |symbols| - 1 => Upper(symbols[i + 1]))
  }

  /**
   * `--chart` with a fiat code first: the upper-cased base and targets, or
   * the Config error for no targets, a non-fiat target, or hourly sampling,
   * checked in that order.
   */
  function FiatChartRequest(symbols: seq<string>, sampling: HistoryInterval): Result<(string, seq<string>)>
    requires |symbols| > 0 && IsKnownFiat(symbols[0])
  {
    var targets := FiatChartTargets(symbols);
    if targets == [] then Err(Config(FiatChartNeedsTargetMessage))
    else if !AllKnownFiat(targets) then Err(Config(FiatChartOnlyFiatMessage))
    else if sampling == Hourly then Err(Config(FiatChartDailyOnlyMessage))
    else Ok((Upper(symbols[0]), targets))
  }

  /** Upper-casing the targets does not change which of them are fiat codes. */
  lemma FiatChartTargetsKnown(symbols: seq<string>)
    requires |symbols| > 0
    ensures AllKnownFiat(FiatChartTargets(symbols)) <==> forall i :: 1 <= i < |symbols| ==> IsKnownFiat(symbols[i])
  {
    var t := FiatChartTargets(symbols);
    forall i | 0 <= i < |t|
      ensures IsKnownFiat(t[i]) <==> IsKnownFiat(symbols[i + 1])
    {
      UpperIdempotent(symbols[i + 1]);
    }
    if !AllKnownFiat(t) {
      var i :| 0 <= i < |t| && !IsKnownFiat(t[i]);
      assert !IsKnownFiat(symbols[i + 1]);
    } else {
      forall i | 1 <= i < |symbols|
        ensures IsKnownFiat(symbols[i])
      {
        assert IsKnownFiat(t[i - 1]);
      }
    }
  }

  /**
   * The request is accepted exactly when there is a target, every target is
   * a fiat code in some case, and sampling is not hourly; the base and the
   * targets are then upper-case fiat codes in input order.
   */
  lemma FiatChartRequestSpec(symbols: seq<string>, sampling: HistoryInterval)
    requires |symbols| > 0 && IsKnownFiat(symbols[0])
    ensures var r := FiatChartRequest(symbols, sampling);
      && (|symbols| == 1 ==> r == Err(Config(FiatChartNeedsTargetMessage)))
      && (|symbols| > 1 && !(forall i :: 1 <= i < |symbols| ==> IsKnownFiat(symbols[i])) ==>
            r == Err(Config(FiatChartOnlyFiatMessage)))
      && (r.Ok? <==> |symbols| > 1 && (forall i :: 1 <= i < |symbols| ==> IsKnownFiat(symbols[i])) && sampling != Hourly)
      && (r.Ok? ==> r.value == (Upper(symbols[0]), FiatChartTargets(symbols)))
      && (r.Ok? ==> IsKnownFiat(r.value.0) && AllKnownFiat(r.value.1))
  {
    FiatChartTargetsKnown(symbols);
    UpperIdempotent(symbols[0]);
  }
}
