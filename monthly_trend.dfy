/**
 * The income-versus-expenses trend line: the six months ending with the
 * current one, and one income and one expense total per month.
 */
module MonthlyTrend {
  import opened Dates
  import opened Sorting
  import opened Ledger
  import opened Months

  /**
   * The window and the two series: each holds exactly one value per window
   * month, the total of that month's lines of its own list only.
   */
  method TrendSeries(expenses: seq<Line>, incomes: seq<Line>, now: MonthKey)
    returns (months: seq<MonthKey>, expenseData: seq<real>, incomeData: seq<real>)
    requires ValidMonth(now)
    ensures |months| == 6 && months[5] == now
    ensures forall j :: 0 <= j < 6 ==> ValidMonth(months[j]) && MonthIndex(months[j]) == MonthIndex(now) - 5 + j
    ensures forall i, j :: 0 <= i < j < 6 ==> months[i] != months[j]
    ensures |expenseData| == 6 && |incomeData| == 6
    ensures forall j :: 0 <= j < 6 ==> expenseData[j] == SumWhere(expenses, DatedIn(months[j]))
    ensures forall j :: 0 <= j < 6 ==> incomeData[j] == SumWhere(incomes, DatedIn(months[j]))
  {
    months := TrailingMonths(now);
    expenseData := MonthSeries(expenses, months);
    incomeData := MonthSeries(incomes, months);
  }

  /** A month of the window without lines plots 0. */
  lemma EmptyMonthIsZero(lines: seq<Line>, m: MonthKey)
    requires forall i :: 0 <= i < |lines| ==> !InMonth(lines[i].date, m)
    ensures SumWhere(lines, DatedIn(m)) == 0.0
  {
    SumWhereNone(lines, DatedIn(m));
  }

  /**
   * A series over the window sums to the lines dated inside it: those
   * before the end of `now` less those before the window's first month.
   */
  lemma WindowSeriesTotal(lines: seq<Line>, now: MonthKey, months: seq<MonthKey>, series: seq<real>)
    requires ValidMonth(now) && |months| == 6 && |series| == 6
    requires forall j :: 0 <= j < 6 ==> ValidMonth(months[j]) && MonthIndex(months[j]) == MonthIndex(now) - 5 + j
    requires forall j :: 0 <= j < 6 ==> series[j] == SumWhere(lines, DatedIn(months[j]))
    ensures SumBy(series, Id) == SumWhere(lines, Before(MonthIndex(now) + 1)) - SumWhere(lines, Before(MonthIndex(now) - 5))
  {
    var first := MonthIndex(now) - 5;
    forall j | 0 <= j < 6
      ensures series[j] == SumWhere(lines, DatedIn(MonthAt(first + j)))
    {
      MonthAtIndex(months[j]);
    }
    SeriesTotal(lines, first, series);
    MonthsSplit(lines, first, 6);
  }

  /** Lines dated outside the window, or not at all, change no value of a series. */
  lemma OutsideWindowIgnored(lines: seq<Line>, extra: seq<Line>, now: MonthKey, m: MonthKey)
    requires ValidMonth(m) && MonthIndex(now) - 5 <= MonthIndex(m) <= MonthIndex(now)
    requires forall i :: 0 <= i < |extra| ==>
      !HasMonth(extra[i].date) || MonthIndex(MonthOf(extra[i].date)) < MonthIndex(now) - 5 || MonthIndex(MonthOf(extra[i].date)) > MonthIndex(now)
    ensures SumWhere(lines + extra, DatedIn(m)) == SumWhere(lines, DatedIn(m))
  {
    OutsideAddsNothing(lines, extra, m);
  }
}
