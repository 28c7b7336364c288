/**
 * The monthly summary table: the six months ending with the current one,
 * each with its income, expense and net, a starting balance made of
 * everything dated before the window, and a closing balance carried from
 * month to month.
 */
module MonthlySummary {
  import opened Dates
  import opened Sorting
  import opened Ledger
  import opened Home
  import opened Months

  /** One line of the table. */
  datatype MonthRow = MonthRow(month: MonthKey, income: real, expense: real, net: real, closing: real)

  function Net(r: MonthRow): real { r.net }

  /**
   * Income minus expense over the lines dated strictly before the first day
   * of month `first` (an invalid date compares false and is left out).
   */
  function StartingBalance(expenses: seq<Line>, incomes: seq<Line>, first: MonthKey): real
  {
    SumWhere(incomes, Before(MonthIndex(first))) - SumWhere(expenses, Before(MonthIndex(first)))
  }

  /** A month's line of the table before its closing balance is known. */
  function MonthFigures(expenses: seq<Line>, incomes: seq<Line>, m: MonthKey): (r: MonthRow)
    ensures r.month == m && r.net == r.income - r.expense
    ensures r.income == SumWhere(incomes, DatedIn(m)) && r.expense == SumWhere(expenses, DatedIn(m))
  {
    var income := SumWhere(incomes, DatedIn(m));
    var expense := SumWhere(expenses, DatedIn(m));
    MonthRow(m, income, expense, income - expense, 0.0)
  }

  /**
   * `monthlyData.forEach(data => { runningBalance += data.net; data.closingBalance = runningBalance })`:
   * each row's closing balance is the start plus the nets up to and including it.
   */
  method CloseBalances(start: real, rows: seq<MonthRow>) returns (closed: seq<MonthRow>)
    ensures |closed| == |rows|
    ensures forall j :: 0 <= j < |rows| ==> closed[j] == rows[j].(closing := start + SumBy(rows[..j + 1], Net))
  {
    closed := rows;
    var running := start;
    for j := 0 to |rows|
      invariant |closed| == |rows|
      invariant running == start + SumBy(rows[..j], Net)
      invariant forall i :: 0 <= i < j ==> closed[i] == rows[i].(closing := start + SumBy(rows[..i + 1], Net))
      invariant forall i :: j <= i < |rows| ==> closed[i] == rows[i]
    {
      assert rows[..j + 1][..j] == rows[..j];
      running := running + closed[j].net;
      closed := closed[j := closed[j].(closing := running)];
    }
  }

  /** The window's nets add up to the income totals minus the expense totals of its months. */
  lemma {:induction false} NetsTotal(expenses: seq<Line>, incomes: seq<Line>, first: int, rows: seq<MonthRow>)
    requires forall j :: 0 <= j < |rows| ==> rows[j] == MonthFigures(expenses, incomes, MonthAt(first + j)).(closing := rows[j].closing)
    ensures SumBy(rows, Net) == MonthSums(incomes, first, |rows|) - MonthSums(expenses, first, |rows|)
  {
    if rows != [] {
      NetsTotal(expenses, incomes, first, rows[..|rows| - 1]);
    }
  }

  /**
   * The starting balance plus the nets of `n` months from `first` is income
   * minus expense over everything dated before the month after them.
   */
  lemma WindowBalance(expenses: seq<Line>, incomes: seq<Line>, first: int, rows: seq<MonthRow>)
    requires forall j :: 0 <= j < |rows| ==> rows[j] == MonthFigures(expenses, incomes, MonthAt(first + j)).(closing := rows[j].closing)
    ensures StartingBalance(expenses, incomes, MonthAt(first)) + SumBy(rows, Net)
      == SumWhere(incomes, Before(first + |rows|)) - SumWhere(expenses, Before(first + |rows|))
  {
    NetsTotal(expenses, incomes, first, rows);
    MonthsSplit(incomes, first, |rows|);
    MonthsSplit(expenses, first, |rows|);
  }

  /** The current balance under the table: the last closing balance, or 0 for an empty table. */
  function CurrentBalance(rows: seq<MonthRow>): real
  {
    if rows == [] then 0.0 else rows[|rows| - 1].closing
  }

  /**
   * The whole table for the month `now`: six rows oldest first ending with
   * `now`, each month's sums and net, closing balances carried from the
   * starting balance, and a current balance that is income minus expense
   * over every line dated up to the end of `now`.
   */
  method SummaryTable(expenses: seq<Line>, incomes: seq<Line>, now: MonthKey) returns (start: real, rows: seq<MonthRow>)
    requires ValidMonth(now)
    ensures |rows| == 6 && rows[5].month == now
    ensures forall j :: 0 <= j < 6 ==> ValidMonth(rows[j].month) && MonthIndex(rows[j].month) == MonthIndex(now) - 5 + j
    ensures start == StartingBalance(expenses, incomes, rows[0].month)
    ensures forall j :: 0 <= j < 6 ==>
      && rows[j].income == SumWhere(incomes, DatedIn(rows[j].month))
      && rows[j].expense == SumWhere(expenses, DatedIn(rows[j].month))
      && rows[j].net == rows[j].income - rows[j].expense
      && rows[j].closing == start + SumBy(rows[..j + 1], Net)
    ensures CurrentBalance(rows) == SumWhere(incomes, Before(MonthIndex(now) + 1)) - SumWhere(expenses, Before(MonthIndex(now) + 1))
  {
    var months := TrailingMonths(now);
    start := StartingBalance(expenses, incomes, months[0]);
    var figures := seq(6, j requires 0 <= j < 6 => MonthFigures(expenses, incomes, months[j]));
    rows := CloseBalances(start, figures);
    forall k | 0 <= k <= 6
      ensures SumBy(figures[..k], Net) == SumBy(rows[..k], Net)
    {
      NetsAgree(figures[..k], rows[..k]);
    }
    LastClosing(expenses, incomes, now, months, start, rows);
  }

  /** Setting closing balances leaves the nets, hence their sums, as they were. */
  lemma {:induction false} NetsAgree(a: seq<MonthRow>, b: seq<MonthRow>)
    requires |a| == |b| && forall j :: 0 <= j < |a| ==> a[j].net == b[j].net
    ensures SumBy(a, Net) == SumBy(b, Net)
  {
    if a != [] {
      NetsAgree(a[..|a| - 1], b[..|b| - 1]);
    }
  }

  /** The last closing balance of the window is income minus expense up to the end of its last month. */
  lemma LastClosing(expenses: seq<Line>, incomes: seq<Line>, now: MonthKey, months: seq<MonthKey>, start: real, rows: seq<MonthRow>)
    requires |months| == 6 && |rows| == 6
    requires forall j :: 0 <= j < 6 ==> ValidMonth(months[j]) && MonthIndex(months[j]) == MonthIndex(now) - 5 + j
    requires start == StartingBalance(expenses, incomes, months[0])
    requires forall j :: 0 <= j < 6 ==>
      rows[j] == MonthFigures(expenses, incomes, months[j]).(closing := start + SumBy(rows[..j + 1], Net))
    ensures CurrentBalance(rows) == SumWhere(incomes, Before(MonthIndex(now) + 1)) - SumWhere(expenses, Before(MonthIndex(now) + 1))
  {
    var first := MonthIndex(months[0]);
    MonthAtIndex(months[0]);
    forall j | 0 <= j < 6
      ensures rows[j] == MonthFigures(expenses, incomes, MonthAt(first + j)).(closing := rows[j].closing)
    {
      MonthAtIndex(months[j]);
    }
    assert rows[..6] == rows;
    WindowBalance(expenses, incomes, first, rows);
  }

  /**
   * Lines without a date or dated after `now` change neither the starting
   * balance nor any month of the window.
   */
  lemma LaterLinesIgnored(lines: seq<Line>, extra: seq<Line>, now: MonthKey, m: MonthKey)
    requires ValidMonth(m) && MonthIndex(m) <= MonthIndex(now)
    requires forall i :: 0 <= i < |extra| ==> !HasMonth(extra[i].date) || MonthIndex(MonthOf(extra[i].date)) > MonthIndex(now)
    ensures SumWhere(lines + extra, DatedIn(m)) == SumWhere(lines, DatedIn(m))
    ensures SumWhere(lines + extra, Before(MonthIndex(m))) == SumWhere(lines, Before(MonthIndex(m)))
  {
    OutsideAddsNothing(lines, extra, m);
    SumWhereAppend(lines, extra, Before(MonthIndex(m)));
    SumWhereNone(extra, Before(MonthIndex(m)));
  }

  /**
   * When no line is undated or dated after `now`, the table's current
   * balance is the Balance card: total income minus total expenses.
   */
  lemma CurrentBalanceIsBalance(expenses: seq<Line>, incomes: seq<Line>, now: MonthKey)
    requires forall i :: 0 <= i < |expenses| ==> HasMonth(expenses[i].date) && MonthIndex(MonthOf(expenses[i].date)) <= MonthIndex(now)
    requires forall i :: 0 <= i < |incomes| ==> HasMonth(incomes[i].date) && MonthIndex(MonthOf(incomes[i].date)) <= MonthIndex(now)
    ensures SumWhere(incomes, Before(MonthIndex(now) + 1)) - SumWhere(expenses, Before(MonthIndex(now) + 1)) == Balance(expenses, incomes)
  {
    SumWhereSame(incomes, Before(MonthIndex(now) + 1), Always);
    SumWhereSame(expenses, Before(MonthIndex(now) + 1), Always);
  }
}
