/**
 * The four summary cards: savings rate with its trend label, average daily
 * spending over the last thirty days, the largest expense category, and the
 * net flow with its surplus or deficit label.
 */
module SummaryCards {
  import opened Wrappers
  import opened Dates
  import opened SheetApi
  import opened Sorting
  import opened Ledger
  import opened Home
  import opened CategoryCharts

  /** `netFlow = totalIncome - totalExpenses`. */
  function NetFlow(totalIncome: real, totalExpenses: real): real
  {
    totalIncome - totalExpenses
  }

  /** The net flow over the totals of all rows is the dashboard's balance. */
  lemma NetFlowIsBalance(expenses: seq<Line>, incomes: seq<Line>)
    ensures NetFlow(Total(incomes), Total(expenses)) == Balance(expenses, incomes)
  {
  }

  /**
   * `x.toFixed(1)` read back as a number: the nearest multiple of 0.1, a tie
   * going away from zero.
   */
  function Round1(x: real): (r: real)
    ensures (r * 10.0).Floor as real == r * 10.0
    ensures x - 0.05 <= r <= x + 0.05
    ensures x >= 0.0 ==> r >= 0.0
  {
    if x >= 0.0 then Tenths(x)
    else
      var t := Tenths(-x);
      assert (-t * 10.0).Floor == -((t * 10.0).Floor);
      -t
  }

  /** A non-negative value rounded half up to a multiple of 0.1. */
  function Tenths(y: real): (r: real)
    requires y >= 0.0
    ensures (r * 10.0).Floor as real == r * 10.0
    ensures y - 0.05 <= r <= y + 0.05 && r >= 0.0
  {
    var f := (y * 10.0 + 0.5).Floor;
    assert f as real <= y * 10.0 + 0.5 < f as real + 1.0;
    assert (f as real / 10.0) * 10.0 == f as real;
    f as real / 10.0
  }

  /** `savingsRate`: the share of income not spent, in percent to one decimal, and 0 without income. */
  function SavingsRate(totalIncome: real, totalExpenses: real): real
  {
    if totalIncome > 0.0 then Round1(NetFlow(totalIncome, totalExpenses) / totalIncome * 100.0) else 0.0
  }

  datatype Trend = Good | Improve

  /** `savingsRate > 20 ? "Good" : "Improve"`, on the rounded rate. */
  function SavingsTrend(totalIncome: real, totalExpenses: real): Trend
  {
    if SavingsRate(totalIncome, totalExpenses) > 20.0 then Good else Improve
  }

  /** Rounding to one decimal lands above 20 exactly from 20.05 on. */
  lemma Round1Above20(x: real)
    ensures Round1(x) > 20.0 <==> x >= 20.05
  {
    if x >= 0.0 {
      var f := (x * 10.0 + 0.5).Floor;
      assert f as real <= x * 10.0 + 0.5 < f as real + 1.0;
      if x >= 20.05 {
        assert x * 10.0 + 0.5 >= 201.0;
        assert f >= 201;
      }
      if Round1(x) > 20.0 {
        assert f > 200;
      }
    }
  }

  /**
   * The trend is "Good" exactly when there is income and at least 20.05 % of
   * it is left after spending: the comparison is made after `toFixed(1)`.
   */
  lemma SavingsTrendGood(totalIncome: real, totalExpenses: real)
    ensures SavingsTrend(totalIncome, totalExpenses) == Good
      <==> totalIncome > 0.0 && NetFlow(totalIncome, totalExpenses) / totalIncome * 100.0 >= 20.05
  {
    if totalIncome > 0.0 {
      Round1Above20(NetFlow(totalIncome, totalExpenses) / totalIncome * 100.0);
    }
  }

  /**
   * "Now" as days since 1970-01-01 and the time of day as a fraction of a day;
   * `thirtyDaysAgo` keeps that time of day.
   */
  datatype Instant = Instant(day: int, fraction: real)

  predicate ValidInstant(now: Instant) { 0.0 <= now.fraction < 1.0 }

  /** `new Date(row[1]) >= thirtyDaysAgo`: a date-only row stands for midnight of its day; no date compares false. */
  function Recent(now: Instant): Line -> bool
  {
    (l: Line) => ValidDate(l.date) && DayNumber(l.date.year, l.date.month, l.date.day) as real >= (now.day - 30) as real + now.fraction
  }

  /** `recentTotal / 30` (displayed with `toFixed(0)`). */
  function AverageDaily(expenses: seq<Line>, now: Instant): real
  {
    SumWhere(expenses, Recent(now)) / 30.0
  }

  /**
   * The last thirty days, by calendar day: a row of the last 29 days or of
   * today counts, a row 31 or more days old does not, and a row exactly 30
   * days old counts only when "now" is exactly midnight.
   */
  lemma RecentDays(now: Instant, l: Line)
    requires ValidInstant(now) && ValidDate(l.date)
    ensures var n := DayNumber(l.date.year, l.date.month, l.date.day);
      Recent(now)(l) <==> n > now.day - 30 || (n == now.day - 30 && now.fraction == 0.0)
  {
  }

  /** Expenses with no parseable date never enter the average. */
  lemma AverageIgnoresUndated(expenses: seq<Line>, now: Instant)
    requires forall i :: 0 <= i < |expenses| ==> !ValidDate(expenses[i].date)
    ensures AverageDaily(expenses, now) == 0.0
  {
    SumWhereNone(expenses, Recent(now));
  }

  /** `Object.entries(categoryTotals).sort(...)[0]`, over every amount of every expense. */
  method TopCategory(rows: seq<Row>) returns (top: Option<Entry>)
    ensures top.None? <==> rows == []
    ensures top.Some? ==> SeenCategory(Lines(rows), false, top.value.name)
    ensures top.Some? ==> top.value.value == SumWhere(Lines(rows), InCategory(top.value.name, false))
    ensures top.Some? ==> forall k :: SeenCategory(Lines(rows), false, k) ==>
      SumWhere(Lines(rows), InCategory(k, false)) <= top.value.value
  {
    var lines := Lines(rows);
    var keys, totals := GroupTotals(lines, false);
    var sorted := SortDesc(Entries(keys, totals), Value);
    SortedEntries(keys, totals);
    HeadIsLargest(lines, keys, totals, sorted);
    top := if |sorted| == 0 then None else Some(sorted[0]);
  }

  /** The head of the sorted category totals is the largest total, and there is one exactly when there are lines. */
  lemma HeadIsLargest(lines: seq<Line>, keys: seq<string>, totals: map<string, real>, sorted: seq<Entry>)
    requires forall k :: k in totals <==> k in keys
    requires forall k :: k in keys <==> SeenCategory(lines, false, k)
    requires forall k :: k in totals ==> totals[k] == SumWhere(lines, InCategory(k, false))
    requires |sorted| == |keys|
    requires forall x :: x in sorted <==> x.name in keys && x.value == totals[x.name]
    requires Descending(sorted, Value)
    ensures |sorted| == 0 <==> lines == []
    ensures |sorted| > 0 ==>
      && SeenCategory(lines, false, sorted[0].name)
      && sorted[0].value == SumWhere(lines, InCategory(sorted[0].name, false))
      && forall k :: SeenCategory(lines, false, k) ==> SumWhere(lines, InCategory(k, false)) <= sorted[0].value
  {
    if lines != [] {
      assert Counted(lines[0], false);
      assert lines[0].category in keys;
    }
    if |sorted| > 0 {
      assert sorted[0] in sorted;
      assert SeenCategory(lines, false, keys[0]);
      forall k | SeenCategory(lines, false, k)
        ensures SumWhere(lines, InCategory(k, false)) <= sorted[0].value
      {
        var e := Entry(k, totals[k]);
        assert e in sorted;
      }
    }
  }

  /** The "Top Category" card: the category's name, or "N/A" without expenses. */
  function TopCategoryLabel(top: Option<Entry>): (s: string)
    ensures top.None? ==> s == "N/A"
    ensures top.Some? ==> s == top.value.name
  {
    if top.Some? then top.value.name else "N/A"
  }

  datatype Flow = Surplus | Deficit

  /** `netFlow >= 0 ? "Surplus" : "Deficit"`. */
  function FlowTrend(netFlow: real): Flow
  {
    if netFlow >= 0.0 then Surplus else Deficit
  }

  /** `Math.abs(netFlow)`, the figure on the card. */
  function FlowShown(netFlow: real): (v: real)
    ensures v >= 0.0
  {
    if netFlow >= 0.0 then netFlow else -netFlow
  }

  /** The card loses nothing: its label and figure give back the net flow. */
  lemma FlowCardRecovers(netFlow: real)
    ensures netFlow == if FlowTrend(netFlow) == Surplus then FlowShown(netFlow) else -FlowShown(netFlow)
    ensures FlowTrend(netFlow) == Surplus <==> netFlow >= 0.0
  {
  }
}
