/**
 * The all-months trend line: every month from the one holding the earliest
 * valid date to the one holding the latest, over expenses and incomes
 * together, with one income and one expense total per month.
 */
module AllMonthsTrend {
  import opened Dates
  import opened Sorting
  import opened Ledger
  import opened Months

  /** The month indices the dates span: none, or the earliest and the latest. */
  datatype Span = NoDates | Span(lo: int, hi: int)

  /** What the chart shows: the no-data message, or the months and the two series. */
  datatype Chart = NoTrendData | Chart(months: seq<MonthKey>, expenseData: seq<real>, incomeData: seq<real>)

  function IndexOf(l: Line): int
    requires HasMonth(l.date)
  {
    MonthIndex(MonthOf(l.date))
  }

  /** `lo` and `hi` bound the month indices of the dated lines among the first `n` and are met by two of them. */
  ghost predicate Spans(lines: seq<Line>, n: nat, s: Span)
    requires n <= |lines|
  {
    && (s.NoDates? <==> forall i :: 0 <= i < n ==> !HasMonth(lines[i].date))
    && (s.Span? ==> forall i :: 0 <= i < n && HasMonth(lines[i].date) ==> s.lo <= IndexOf(lines[i]) <= s.hi)
    && (s.Span? ==> exists i :: 0 <= i < n && HasMonth(lines[i].date) && IndexOf(lines[i]) == s.lo)
    && (s.Span? ==> exists i :: 0 <= i < n && HasMonth(lines[i].date) && IndexOf(lines[i]) == s.hi)
  }

  /**
   * `Math.min(...allDates)` and `Math.max(...allDates)` over the valid dates,
   * read as month indices: none when no line is dated.
   */
  method DateSpan(lines: seq<Line>) returns (s: Span)
    ensures s.NoDates? <==> forall i :: 0 <= i < |lines| ==> !HasMonth(lines[i].date)
    ensures s.Span? ==> s.lo <= s.hi
    ensures s.Span? ==> forall i :: 0 <= i < |lines| && HasMonth(lines[i].date) ==> s.lo <= IndexOf(lines[i]) <= s.hi
    ensures s.Span? ==> exists i :: 0 <= i < |lines| && HasMonth(lines[i].date) && IndexOf(lines[i]) == s.lo
    ensures s.Span? ==> exists i :: 0 <= i < |lines| && HasMonth(lines[i].date) && IndexOf(lines[i]) == s.hi
  {
    s := NoDates;
    for n := 0 to |lines|
      invariant Spans(lines, n, s)
      invariant s.Span? ==> s.lo <= s.hi
    {
      if HasMonth(lines[n].date) {
        var k := IndexOf(lines[n]);
        if s.NoDates? {
          s := Span(k, k);
        } else {
          s := Span(if k < s.lo then k else s.lo, if k > s.hi then k else s.hi);
        }
      }
    }
  }

  /** `while (current <= last) { months.push(current); current.setMonth(current.getMonth() + 1) }`. */
  method MonthRange(lo: int, hi: int) returns (months: seq<MonthKey>)
    requires lo <= hi
    ensures |months| == hi - lo + 1
    ensures forall j :: 0 <= j < |months| ==> months[j] == MonthAt(lo + j)
  {
    months := [];
    var current := lo;
    while current <= hi
      invariant lo <= current <= hi + 1 && |months| == current - lo
      invariant forall j :: 0 <= j < |months| ==> months[j] == MonthAt(lo + j)
    {
      months := months + [MonthAt(current)];
      current := current + 1;
    }
  }

  /** A dated line never lies before the window's first month, nor after its last. */
  lemma RangeHoldsAll(lines: seq<Line>, lo: int, n: nat)
    requires forall i :: 0 <= i < |lines| && HasMonth(lines[i].date) ==> lo <= IndexOf(lines[i]) < lo + n
    ensures SumWhere(lines, Before(lo)) == 0.0
    ensures SumWhere(lines, Before(lo + n)) == SumWhere(lines, Dated)
  {
    SumWhereNone(lines, Before(lo));
    SumWhereSame(lines, Before(lo + n), Dated);
  }

  /** A series over a run of consecutive months holding every dated line sums to all dated lines. */
  lemma RangeSeriesTotal(lines: seq<Line>, lo: int, months: seq<MonthKey>, series: seq<real>)
    requires |series| == |months|
    requires forall j :: 0 <= j < |months| ==> months[j] == MonthAt(lo + j)
    requires forall j :: 0 <= j < |months| ==> series[j] == SumWhere(lines, DatedIn(months[j]))
    requires forall i :: 0 <= i < |lines| && HasMonth(lines[i].date) ==> lo <= IndexOf(lines[i]) < lo + |months|
    ensures SumBy(series, Id) == SumWhere(lines, Dated)
  {
    var n := |series|;
    SeriesTotal(lines, lo, series);
    assert SumBy(series, Id) == MonthSums(lines, lo, n);
    MonthsSplit(lines, lo, n);
    assert SumWhere(lines, Before(lo + n)) == SumWhere(lines, Before(lo)) + MonthSums(lines, lo, n);
    RangeHoldsAll(lines, lo, n);
  }

  /**
   * The chart: no data when neither list has a dated line; otherwise the
   * consecutive months from the earliest dated line to the latest, every
   * dated line's month among them, each series value the month's total, and
   * each series summing to all dated amounts of its list.
   */
  method AllMonthsChart(expenses: seq<Line>, incomes: seq<Line>) returns (c: Chart)
    ensures c.NoTrendData? <==> forall i :: 0 <= i < |expenses + incomes| ==> !HasMonth((expenses + incomes)[i].date)
    ensures c.Chart? ==> |c.months| >= 1 && |c.expenseData| == |c.months| && |c.incomeData| == |c.months|
    ensures c.Chart? ==> forall j :: 0 <= j < |c.months| ==> ValidMonth(c.months[j]) && MonthIndex(c.months[j]) == MonthIndex(c.months[0]) + j
    ensures c.Chart? ==> exists i :: 0 <= i < |expenses + incomes| && InMonth((expenses + incomes)[i].date, c.months[0])
    ensures c.Chart? ==> exists i :: 0 <= i < |expenses + incomes| && InMonth((expenses + incomes)[i].date, c.months[|c.months| - 1])
    ensures c.Chart? ==> forall i :: 0 <= i < |expenses + incomes| && HasMonth((expenses + incomes)[i].date) ==>
      MonthOf((expenses + incomes)[i].date) in c.months
    ensures c.Chart? ==> forall j :: 0 <= j < |c.months| ==>
      c.expenseData[j] == SumWhere(expenses, DatedIn(c.months[j])) && c.incomeData[j] == SumWhere(incomes, DatedIn(c.months[j]))
    ensures c.Chart? ==> SumBy(c.expenseData, Id) == SumWhere(expenses, Dated) && SumBy(c.incomeData, Id) == SumWhere(incomes, Dated)
  {
    var all := expenses + incomes;
    var s := DateSpan(all);
    if s.NoDates? {
      return NoTrendData;
    }
    c := RangeChart(expenses, incomes, s.lo, s.hi);
  }

  /** The chart over the months from index `lo` to index `hi`, which the dated lines span. */
  method RangeChart(expenses: seq<Line>, incomes: seq<Line>, lo: int, hi: int) returns (c: Chart)
    requires lo <= hi
    requires forall i :: 0 <= i < |expenses + incomes| && HasMonth((expenses + incomes)[i].date) ==>
      lo <= IndexOf((expenses + incomes)[i]) <= hi
    requires exists i :: 0 <= i < |expenses + incomes| && HasMonth((expenses + incomes)[i].date) && IndexOf((expenses + incomes)[i]) == lo
    requires exists i :: 0 <= i < |expenses + incomes| && HasMonth((expenses + incomes)[i].date) && IndexOf((expenses + incomes)[i]) == hi
    ensures c.Chart? && |c.months| >= 1 && |c.expenseData| == |c.months| && |c.incomeData| == |c.months|
    ensures forall j :: 0 <= j < |c.months| ==> ValidMonth(c.months[j]) && MonthIndex(c.months[j]) == MonthIndex(c.months[0]) + j
    ensures exists i :: 0 <= i < |expenses + incomes| && InMonth((expenses + incomes)[i].date, c.months[0])
    ensures exists i :: 0 <= i < |expenses + incomes| && InMonth((expenses + incomes)[i].date, c.months[|c.months| - 1])
    ensures forall i :: 0 <= i < |expenses + incomes| && HasMonth((expenses + incomes)[i].date) ==>
      MonthOf((expenses + incomes)[i].date) in c.months
    ensures forall j :: 0 <= j < |c.months| ==>
      c.expenseData[j] == SumWhere(expenses, DatedIn(c.months[j])) && c.incomeData[j] == SumWhere(incomes, DatedIn(c.months[j]))
    ensures SumBy(c.expenseData, Id) == SumWhere(expenses, Dated) && SumBy(c.incomeData, Id) == SumWhere(incomes, Dated)
  {
    var months := MonthRange(lo, hi);
    var expenseData := MonthSeries(expenses, months);
    var incomeData := MonthSeries(incomes, months);
    c := Chart(months, expenseData, incomeData);
    ChartFacts(expenses, incomes, lo, hi, c);
  }

  /** The chart built over the month range from the earliest dated line to the latest meets the chart's contract. */
  lemma ChartFacts(expenses: seq<Line>, incomes: seq<Line>, lo: int, hi: int, c: Chart)
    requires c.Chart? && lo <= hi && |c.months| == hi - lo + 1
    requires forall j :: 0 <= j < |c.months| ==> c.months[j] == MonthAt(lo + j)
    requires forall i :: 0 <= i < |expenses + incomes| && HasMonth((expenses + incomes)[i].date) ==>
      lo <= IndexOf((expenses + incomes)[i]) <= hi
    requires exists i :: 0 <= i < |expenses + incomes| && HasMonth((expenses + incomes)[i].date) && IndexOf((expenses + incomes)[i]) == lo
    requires exists i :: 0 <= i < |expenses + incomes| && HasMonth((expenses + incomes)[i].date) && IndexOf((expenses + incomes)[i]) == hi
    requires |c.expenseData| == |c.months| && |c.incomeData| == |c.months|
    requires forall j :: 0 <= j < |c.months| ==> c.expenseData[j] == SumWhere(expenses, DatedIn(c.months[j]))
    requires forall j :: 0 <= j < |c.months| ==> c.incomeData[j] == SumWhere(incomes, DatedIn(c.months[j]))
    ensures forall j :: 0 <= j < |c.months| ==> ValidMonth(c.months[j]) && MonthIndex(c.months[j]) == MonthIndex(c.months[0]) + j
    ensures exists i :: 0 <= i < |expenses + incomes| && InMonth((expenses + incomes)[i].date, c.months[0])
    ensures exists i :: 0 <= i < |expenses + incomes| && InMonth((expenses + incomes)[i].date, c.months[|c.months| - 1])
    ensures forall i :: 0 <= i < |expenses + incomes| && HasMonth((expenses + incomes)[i].date) ==>
      MonthOf((expenses + incomes)[i].date) in c.months
    ensures SumBy(c.expenseData, Id) == SumWhere(expenses, Dated) && SumBy(c.incomeData, Id) == SumWhere(incomes, Dated)
  {
    SpanCovers(expenses, incomes, lo, hi, c.months);
    RangeSeriesTotal(expenses, lo, c.months, c.expenseData);
    RangeSeriesTotal(incomes, lo, c.months, c.incomeData);
  }

  /** The facts about the month range that the chart's contract needs, spelt out for each list. */
  lemma SpanCovers(expenses: seq<Line>, incomes: seq<Line>, lo: int, hi: int, months: seq<MonthKey>)
    requires lo <= hi && |months| == hi - lo + 1
    requires forall j :: 0 <= j < |months| ==> months[j] == MonthAt(lo + j)
    requires forall i :: 0 <= i < |expenses + incomes| && HasMonth((expenses + incomes)[i].date) ==>
      lo <= IndexOf((expenses + incomes)[i]) <= hi
    requires exists i :: 0 <= i < |expenses + incomes| && HasMonth((expenses + incomes)[i].date) && IndexOf((expenses + incomes)[i]) == lo
    requires exists i :: 0 <= i < |expenses + incomes| && HasMonth((expenses + incomes)[i].date) && IndexOf((expenses + incomes)[i]) == hi
    ensures forall j :: 0 <= j < |months| ==> ValidMonth(months[j]) && MonthIndex(months[j]) == MonthIndex(months[0]) + j
    ensures exists i :: 0 <= i < |expenses + incomes| && InMonth((expenses + incomes)[i].date, months[0])
    ensures exists i :: 0 <= i < |expenses + incomes| && InMonth((expenses + incomes)[i].date, months[|months| - 1])
    ensures forall i :: 0 <= i < |expenses + incomes| && HasMonth((expenses + incomes)[i].date) ==>
      MonthOf((expenses + incomes)[i].date) in months
    ensures forall i :: 0 <= i < |expenses| && HasMonth(expenses[i].date) ==> lo <= IndexOf(expenses[i]) < lo + |months|
    ensures forall i :: 0 <= i < |incomes| && HasMonth(incomes[i].date) ==> lo <= IndexOf(incomes[i]) < lo + |months|
  {
    var all := expenses + incomes;
    var a :| 0 <= a < |all| && HasMonth(all[a].date) && IndexOf(all[a]) == lo;
    MonthAtIndex(MonthOf(all[a].date));
    var b :| 0 <= b < |all| && HasMonth(all[b].date) && IndexOf(all[b]) == hi;
    MonthAtIndex(MonthOf(all[b].date));
    forall i | 0 <= i < |all| && HasMonth(all[i].date)
      ensures MonthOf(all[i].date) in months
    {
      MonthAtIndex(MonthOf(all[i].date));
      assert months[IndexOf(all[i]) - lo] == MonthOf(all[i].date);
    }
    forall i | 0 <= i < |expenses| && HasMonth(expenses[i].date)
      ensures lo <= IndexOf(expenses[i]) < lo + |months|
    {
      assert all[i] == expenses[i];
    }
    forall i | 0 <= i < |incomes| && HasMonth(incomes[i].date)
      ensures lo <= IndexOf(incomes[i]) < lo + |months|
    {
      assert all[|expenses| + i] == incomes[i];
    }
  }
}
