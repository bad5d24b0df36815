/**
 The reporting rules of the overview page (app/dashboard/page.tsx): the period and year
 selectors decide which argument the statistic queries get, which `YYYY-MM-DD` window
 the outflow and withdrawal queries cover, and which statistic item each summary card
 shows. The current month and year come from the clock and are parameters here.
 */
module Dashboard {
  import opened Text
  import opened Wallet
  import Paging

  /** The period selector; the page tests `period === "monthly"` and treats anything else as yearly. */
  datatype Period = Monthly | Yearly

  // ---------------------------------------------------------------------------
  // Statistic queries
  // ---------------------------------------------------------------------------

  /**
   The argument of the booking, booking-revenue and trip statistic queries: the selected
   year for the monthly view (figures per month of that year), the empty string for the
   yearly view (figures per year).
   */
  function StatisticArgument(period: Period, year: string): (arg: string)
    ensures period.Yearly? ==> arg == []
    ensures period.Monthly? ==> arg == year
    ensures arg == [] <==> (period.Yearly? || year == [])
  {
    if period.Monthly? then year else ""
  }

  // ---------------------------------------------------------------------------
  // Date window
  // ---------------------------------------------------------------------------

  datatype CalendarDate = CalendarDate(year: string, month: nat, day: nat)

  /** `${year}-${MM}-${DD}` with a two-digit month and day. */
  function FormatDate(d: CalendarDate): (s: string)
    requires d.month < 100 && d.day < 100
    ensures |s| == |d.year| + 6
  {
    d.year + "-" + TwoDigits(d.month) + "-" + TwoDigits(d.day)
  }

  /** The value of the two decimal digits at `s[i]`, `s[i + 1]`. */
  function DigitPairAt(s: string, i: nat): nat
    requires i + 1 < |s| && IsDigit(s[i]) && IsDigit(s[i + 1])
  {
    DigitValue(s[i]) * 10 + DigitValue(s[i + 1])
  }

  /** Reads a `…-MM-DD` string back from its end; everything before the month is the year. */
  function ParseDate(s: string): Option<CalendarDate>
  {
    var n := |s|;
    if n >= 6 && s[n - 6] == '-' && s[n - 3] == '-'
       && IsDigit(s[n - 5]) && IsDigit(s[n - 4]) && IsDigit(s[n - 2]) && IsDigit(s[n - 1])
    then Some(CalendarDate(s[..n - 6], DigitPairAt(s, n - 5), DigitPairAt(s, n - 2)))
    else None
  }

  /** Formatting a date and reading it back gives the same year, month and day. */
  lemma ParseFormatDate(d: CalendarDate)
    requires d.month < 100 && d.day < 100
    ensures ParseDate(FormatDate(d)) == Some(d)
  {
    var mm, dd := TwoDigits(d.month), TwoDigits(d.day);
    var s := FormatDate(d);
    var n := |s|;
    SplitDate(d.year, mm, dd);
    assert IsDigit(mm[0]) && IsDigit(mm[1]) && IsDigit(dd[0]) && IsDigit(dd[1]);
    TwoDigitsValue(d.month);
    TwoDigitsValue(d.day);
    assert DigitPairAt(s, n - 5) == d.month;
    assert DigitPairAt(s, n - 2) == d.day;
    assert s[..n - 6] == d.year;
  }

  lemma SplitDate(y: string, mm: string, dd: string)
    requires |mm| == 2 && |dd| == 2
    ensures var s := y + "-" + mm + "-" + dd;
      |s| == |y| + 6 && s[|s| - 6] == '-' && s[|s| - 3] == '-' && s[..|s| - 6] == y &&
      s[|s| - 5] == mm[0] && s[|s| - 4] == mm[1] && s[|s| - 2] == dd[0] && s[|s| - 1] == dd[1]
  {
  }

  datatype DateRange = DateRange(startDate: string, endDate: string)

  /** First day of the window: the current month in the monthly view, January otherwise. */
  function WindowStart(period: Period, year: string, currentMonth: nat): (d: CalendarDate)
    requires 1 <= currentMonth <= 12
    ensures d.year == year && d.day == 1
    ensures d.month == if period.Monthly? then currentMonth else 1
  {
    CalendarDate(year, if period.Monthly? then currentMonth else 1, 1)
  }

  /** Last day of the window: always day 31, of the current month or of December. */
  function WindowEnd(period: Period, year: string, currentMonth: nat): (d: CalendarDate)
    requires 1 <= currentMonth <= 12
    ensures d.year == year && d.day == 31
    ensures d.month == if period.Monthly? then currentMonth else 12
  {
    CalendarDate(year, if period.Monthly? then currentMonth else 12, 31)
  }

  /**
   The window the outflow and withdrawal queries cover, as two `YYYY-MM-DD` strings. Read
   back, they run from day 01 to day 31 of the current month (whatever that month's
   length) in the monthly view, and from January 1st to December 31st otherwise.
   */
  function ReportingRange(period: Period, year: string, currentMonth: nat): (r: DateRange)
    requires 1 <= currentMonth <= 12
    ensures period.Monthly? ==> ParseDate(r.startDate) == Some(CalendarDate(year, currentMonth, 1))
    ensures period.Monthly? ==> ParseDate(r.endDate) == Some(CalendarDate(year, currentMonth, 31))
    ensures period.Yearly? ==> ParseDate(r.startDate) == Some(CalendarDate(year, 1, 1))
    ensures period.Yearly? ==> ParseDate(r.endDate) == Some(CalendarDate(year, 12, 31))
    ensures |r.startDate| == |r.endDate| == |year| + 6
  {
    var first := WindowStart(period, year, currentMonth);
    var last := WindowEnd(period, year, currentMonth);
    ParseFormatDate(first);
    ParseFormatDate(last);
    DateRange(FormatDate(first), FormatDate(last))
  }

  /**
   The window strings spelled out: `{year}-{MM}-01` to `{year}-{MM}-31` in the monthly view,
   where MM is the current month as two digits (`TwoDigitsIsPadStart` relates this to
   `String(month).padStart(2, "0")`), and `{year}-01-01` to `{year}-12-31` otherwise.
   */
  lemma MonthlyRangeSpelling(year: string, currentMonth: nat)
    requires 1 <= currentMonth <= 12
    ensures ReportingRange(Monthly, year, currentMonth)
         == DateRange(year + "-" + TwoDigits(currentMonth) + "-01", year + "-" + TwoDigits(currentMonth) + "-31")
  {
    assert TwoDigits(1) == "01" && TwoDigits(31) == "31";
  }

  lemma YearlyRangeSpelling(year: string, currentMonth: nat)
    requires 1 <= currentMonth <= 12
    ensures ReportingRange(Yearly, year, currentMonth) == DateRange(year + "-01-01", year + "-12-31")
  {
    assert TwoDigits(1) == "01" && TwoDigits(12) == "12" && TwoDigits(31) == "31";
  }

  datatype TransferType = In | Out

  /** `getTransactionStatistic` parameters (the outflow total card). */
  datatype TransactionStatisticQuery = TransactionStatisticQuery(
    range: DateRange, transferTypes: seq<TransferType>)

  /** `geTransaction` parameters (the outflow table). */
  datatype TransactionQuery = TransactionQuery(
    range: DateRange, transferTypes: seq<TransferType>, pageIndex: int, keyword: string, pageSize: nat)

  /** `getWalletCommandStatistic` parameters (the withdrawal total card). */
  datatype WalletCommandStatisticQuery = WalletCommandStatisticQuery(
    range: DateRange, actions: seq<WalletAction>, statuses: seq<WalletCommandStatus>)

  function TotalOutQuery(period: Period, year: string, currentMonth: nat): (q: TransactionStatisticQuery)
    requires 1 <= currentMonth <= 12
    ensures q.range == ReportingRange(period, year, currentMonth)
    ensures q.transferTypes == [Out]
  {
    TransactionStatisticQuery(ReportingRange(period, year, currentMonth), [Out])
  }

  function TransactionsOutQuery(period: Period, year: string, currentMonth: nat, keyword: string, page: int)
    : (q: TransactionQuery)
    requires 1 <= currentMonth <= 12
    ensures q.range == ReportingRange(period, year, currentMonth)
    ensures q.transferTypes == [Out] && q.pageSize == 10
    ensures q.pageIndex == page && q.keyword == keyword
  {
    TransactionQuery(ReportingRange(period, year, currentMonth), [Out], page, keyword, 10)
  }

  function TotalCommandOutQuery(period: Period, year: string, currentMonth: nat): (q: WalletCommandStatisticQuery)
    requires 1 <= currentMonth <= 12
    ensures q.range == ReportingRange(period, year, currentMonth)
    ensures q.actions == [Withdraw] && q.statuses == [Success]
  {
    WalletCommandStatisticQuery(ReportingRange(period, year, currentMonth), [Withdraw], [Success])
  }

  /** The three outflow queries always cover one and the same window. */
  lemma OutflowQueriesShareWindow(period: Period, year: string, currentMonth: nat, keyword: string, page: int)
    requires 1 <= currentMonth <= 12
    ensures TotalOutQuery(period, year, currentMonth).range
         == TransactionsOutQuery(period, year, currentMonth, keyword, page).range
         == TotalCommandOutQuery(period, year, currentMonth).range
  {
  }

  /**
   The statistics and the date window speak of the same year: in the monthly view the
   statistic argument is the year both window dates read back as; in the yearly view the
   window still lies in the selected year while the statistics get no year at all.
   */
  lemma StatisticArgumentIsWindowYear(period: Period, year: string, currentMonth: nat)
    requires 1 <= currentMonth <= 12
    ensures period.Monthly? ==>
              StatisticArgument(period, year) == ParseDate(ReportingRange(period, year, currentMonth).startDate).value.year
              == ParseDate(ReportingRange(period, year, currentMonth).endDate).value.year
    ensures period.Yearly? ==>
              StatisticArgument(period, year) == [] && ParseDate(ReportingRange(period, year, currentMonth).startDate).value.year == year
  {
  }

  // ---------------------------------------------------------------------------
  // Summary cards
  // ---------------------------------------------------------------------------

  /** One point of a statistic series (`StatisticResponse`). */
  datatype StatItem = StatItem(key: string, value: int)

  /** `Array.prototype.findIndex` by key: the first item carrying `key`. */
  function FindIndex(items: seq<StatItem>, key: string): (r: Option<nat>)
    ensures r.Some? ==> r.value < |items| && items[r.value].key == key
    ensures r.Some? ==> forall j :: 0 <= j < r.value ==> items[j].key != key
    ensures r.None? ==> forall j :: 0 <= j < |items| ==> items[j].key != key
    decreases |items|
  {
    if items == [] then None
    else if items[0].key == key then Some(0)
    else match FindIndex(items[1..], key)
      case None => None
      case Some(i) => Some(i + 1)
  }

  /**
   The key the summary cards look up: the current month number, unpadded, in the monthly
   view; the selected year in the yearly view.
   */
  function SummaryKey(period: Period, year: string, currentMonth: nat): (key: string)
    requires 1 <= currentMonth <= 12
    ensures period == Yearly ==> key == year
    ensures period == Monthly ==> AllDigits(key) && DigitsValue(key) == currentMonth && key[0] != '0'
  {
    if period == Monthly then
      NatToStringValue(currentMonth);
      NatToString(currentMonth)
    else year
  }

  /**
   `stats?.data.find(item => item.key === key)?.value`: the value of the first item with
   the summary key, absent when the statistics have not arrived or hold no such item.
   */
  function SummaryValue(stats: Option<seq<StatItem>>, period: Period, year: string, currentMonth: nat)
    : (v: Option<int>)
    requires 1 <= currentMonth <= 12
    ensures v.Some? <==> stats.Some? && exists i :: 0 <= i < |stats.value| && stats.value[i].key == SummaryKey(period, year, currentMonth)
    ensures v.Some? ==>
              exists i :: 0 <= i < |stats.value|
                && stats.value[i].key == SummaryKey(period, year, currentMonth)
                && stats.value[i].value == v.value
                && (forall j :: 0 <= j < i ==> stats.value[j].key != SummaryKey(period, year, currentMonth))
  {
    if stats.None? then None
    else match FindIndex(stats.value, SummaryKey(period, year, currentMonth))
      case None => None
      case Some(i) => Some(stats.value[i].value)
  }

  /**
   In the monthly view, months one to nine are looked up as "1" … "9", while the date
   window of the same month is written with a leading zero.
   */
  lemma MonthKeyIsUnpadded(year: string, currentMonth: nat)
    requires 1 <= currentMonth <= 9
    ensures SummaryKey(Monthly, year, currentMonth) != TwoDigits(currentMonth)
  {
    assert |SummaryKey(Monthly, year, currentMonth)| == 1;
  }

  /** `(total?.data?.value || 0)`: the outflow and withdrawal totals show 0 until a value arrives. */
  function DisplayedTotal(v: Option<int>): (shown: int)
    ensures v.None? ==> shown == 0
    ensures v.Some? ==> shown == v.value
  {
    if v.Some? && v.value != 0 then v.value else 0
  }

  // ---------------------------------------------------------------------------
  // Year selector and pagination
  // ---------------------------------------------------------------------------

  const FirstYear: int := 2020

  /**
   The years offered by the year selector: `Array.from({ length: currentYear - 2019 + 2 },
   (_, i) => 2020 + i)`, that is every year from 2020 up to two years after the current
   one, in increasing order (none at all before 2018, where the length is not positive).
   */
  method YearOptions(currentYear: int) returns (years: seq<int>)
    ensures |years| == if currentYear - 2019 + 2 > 0 then currentYear - 2019 + 2 else 0
    ensures forall i :: 0 <= i < |years| ==> years[i] == FirstYear + i
    ensures forall y :: y in years <==> FirstYear <= y <= currentYear + 2
  {
    // `Array.from` clamps a negative length to zero
    var length := if currentYear - 2019 + 2 > 0 then currentYear - 2019 + 2 else 0;
    years := [];
    var i := 0;
    while i < length
      invariant 0 <= i <= length
      invariant |years| == i
      invariant forall k :: 0 <= k < i ==> years[k] == FirstYear + k
      invariant forall y :: y in years <==> FirstYear <= y < FirstYear + i
    {
      years := years + [FirstYear + i];
      i := i + 1;
    }
  }

  /** The outflow table's page count, with ten rows a page when the server gives no size. */
  function OutflowTotalPages(total: Option<nat>, pageSize: Option<nat>): (pages: nat)
    ensures pages >= 1
    ensures (pages - 1) * Paging.OrElse(pageSize, 10) < Paging.OrElse(total, 1)
    ensures Paging.OrElse(total, 1) <= pages * Paging.OrElse(pageSize, 10)
  {
    Paging.TotalPages(total, pageSize, 10)
  }
}
