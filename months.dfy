/**
 * Month arithmetic shared by the monthly table and the two trend charts:
 * the trailing six-month window, the per-month totals dictionary filled row
 * by row, series read off that dictionary, and sums over runs of
 * consecutive months.
 */
module Months {
  import opened Dates
  import opened Sorting
  import opened Ledger

  /** A date that names a calendar month (what `!isNaN(date.getTime())` guarantees for a parsed date). */
  predicate HasMonth(d: Date)
  {
    d.Day? && 1 <= d.month <= 12
  }

  /** A parsed date always names its month. */
  lemma ParsedHasMonth(s: string)
    ensures ParseDate(s).Day? ==> HasMonth(ParseDate(s))
  {
  }

  /** Lines dated in a month whose index is below `idx`, that is before the first day of month `idx`. */
  function Before(idx: int): Line -> bool
  {
    (l: Line) => HasMonth(l.date) && MonthIndex(MonthOf(l.date)) < idx
  }

  /** A line with a date. */
  function Dated(l: Line): bool
  {
    HasMonth(l.date)
  }

  /**
   * `for (let i = 5; i >= 0; i--) months.push(new Date(y, m - i, 1))`: the six
   * months ending with `now`, oldest first, a month apart.
   */
  method TrailingMonths(now: MonthKey) returns (months: seq<MonthKey>)
    requires ValidMonth(now)
    ensures |months| == 6 && months[5] == now
    ensures forall j :: 0 <= j < 6 ==> ValidMonth(months[j]) && MonthIndex(months[j]) == MonthIndex(now) - 5 + j
  {
    months := [];
    var i := 5;
    while i >= 0
      invariant -1 <= i <= 5 && |months| == 5 - i
      invariant forall j :: 0 <= j < |months| ==> ValidMonth(months[j]) && MonthIndex(months[j]) == MonthIndex(now) - 5 + j
    {
      months := months + [MonthAt(MonthIndex(now) - i)];
      i := i - 1;
    }
    MonthAtIndex(now);
  }

  /** Months a fixed distance apart are different, and so are their `YYYY-MM` keys. */
  lemma WindowKeysDistinct(a: MonthKey, b: MonthKey)
    requires ValidMonth(a) && ValidMonth(b) && a.year >= 0 && b.year >= 0
    ensures a != b <==> KeyString(a) != KeyString(b)
    ensures MonthIndex(a) != MonthIndex(b) ==> a != b
  {
    MonthFilterRoundTrip(a);
    MonthFilterRoundTrip(b);
  }

  /** `byMonth` holds the months of the dated lines among the first `n`, each with its total. */
  ghost predicate Tallied(lines: seq<Line>, n: nat, byMonth: map<MonthKey, real>)
    requires n <= |lines|
  {
    && (forall k :: k in byMonth <==> exists i :: 0 <= i < n && HasMonth(lines[i].date) && MonthOf(lines[i].date) == k)
    && (forall k :: k in byMonth ==> byMonth[k] == SumWhere(lines[..n], DatedIn(k)))
  }

  /** A line without a date leaves the tally as it is. */
  lemma TallySkip(lines: seq<Line>, n: nat, byMonth: map<MonthKey, real>)
    requires n < |lines| && Tallied(lines, n, byMonth) && !HasMonth(lines[n].date)
    ensures Tallied(lines, n + 1, byMonth)
  {
    SumWhereStep(lines, n);
    forall k | k in byMonth
      ensures exists i :: 0 <= i < n + 1 && HasMonth(lines[i].date) && MonthOf(lines[i].date) == k
    {
      var i :| 0 <= i < n && HasMonth(lines[i].date) && MonthOf(lines[i].date) == k;
    }
  }

  /** A dated line of a month already met adds its amount to that month. */
  lemma TallyAdd(lines: seq<Line>, n: nat, byMonth: map<MonthKey, real>)
    requires n < |lines| && Tallied(lines, n, byMonth) && HasMonth(lines[n].date)
    requires MonthOf(lines[n].date) in byMonth
    ensures var k := MonthOf(lines[n].date);
      Tallied(lines, n + 1, byMonth[k := byMonth[k] + lines[n].amount])
  {
    SumWhereStep(lines, n);
    forall k | k in byMonth
      ensures exists i :: 0 <= i < n + 1 && HasMonth(lines[i].date) && MonthOf(lines[i].date) == k
    {
      var i :| 0 <= i < n && HasMonth(lines[i].date) && MonthOf(lines[i].date) == k;
    }
  }

  /** A dated line of a new month starts that month's total. */
  lemma TallyNew(lines: seq<Line>, n: nat, byMonth: map<MonthKey, real>)
    requires n < |lines| && Tallied(lines, n, byMonth) && HasMonth(lines[n].date)
    requires MonthOf(lines[n].date) !in byMonth
    ensures var k := MonthOf(lines[n].date);
      Tallied(lines, n + 1, byMonth[k := lines[n].amount])
  {
    var k0 := MonthOf(lines[n].date);
    SumWhereStep(lines, n);
    forall i | 0 <= i < n
      ensures !DatedIn(k0)(lines[..n][i])
    {
      assert lines[..n][i] == lines[i];
    }
    SumWhereNone(lines[..n], DatedIn(k0));
    forall k | k in byMonth
      ensures exists i :: 0 <= i < n + 1 && HasMonth(lines[i].date) && MonthOf(lines[i].date) == k
    {
      var i :| 0 <= i < n && HasMonth(lines[i].date) && MonthOf(lines[i].date) == k;
    }
  }

  /**
   * `lines.forEach(row => { byMonth[key] = (byMonth[key] || 0) + amount })`,
   * lines without a date left out: every month met gets the total of its lines.
   */
  method MonthTotals(lines: seq<Line>) returns (byMonth: map<MonthKey, real>)
    ensures forall k :: k in byMonth <==> exists i :: 0 <= i < |lines| && HasMonth(lines[i].date) && MonthOf(lines[i].date) == k
    ensures forall k :: k in byMonth ==> byMonth[k] == SumWhere(lines, DatedIn(k))
  {
    byMonth := map[];
    for n := 0 to |lines|
      invariant Tallied(lines, n, byMonth)
    {
      var date := lines[n].date;
      if HasMonth(date) {
        var k := MonthOf(date);
        if k in byMonth {
          TallyAdd(lines, n, byMonth);
          byMonth := byMonth[k := byMonth[k] + lines[n].amount];
        } else {
          TallyNew(lines, n, byMonth);
          byMonth := byMonth[k := lines[n].amount];
        }
      } else {
        TallySkip(lines, n, byMonth);
      }
    }
    assert lines[..|lines|] == lines;
  }

  /** `months.map(m => byMonth[m.key] || 0)`: one total per month, 0 for a month without lines. */
  method MonthSeries(lines: seq<Line>, months: seq<MonthKey>) returns (series: seq<real>)
    requires forall j :: 0 <= j < |months| ==> ValidMonth(months[j])
    ensures |series| == |months|
    ensures forall j :: 0 <= j < |months| ==> series[j] == SumWhere(lines, DatedIn(months[j]))
  {
    var byMonth := MonthTotals(lines);
    series := seq(|months|, j requires 0 <= j < |months| => if months[j] in byMonth then byMonth[months[j]] else 0.0);
    forall j | 0 <= j < |months| && months[j] !in byMonth
      ensures SumWhere(lines, DatedIn(months[j])) == 0.0
    {
      assert forall i :: 0 <= i < |lines| ==> !DatedIn(months[j])(lines[i]);
      SumWhereNone(lines, DatedIn(months[j]));
    }
  }

  /** The totals of the `n` consecutive months starting at index `first`. */
  function MonthSums(lines: seq<Line>, first: int, n: nat): real
  {
    if n == 0 then 0.0 else MonthSums(lines, first, n - 1) + SumWhere(lines, DatedIn(MonthAt(first + n - 1)))
  }

  /** What was dated before a month plus the totals of the `n` months from it is what was dated before the month `n` later. */
  lemma {:induction false} MonthsSplit(lines: seq<Line>, first: int, n: nat)
    ensures SumWhere(lines, Before(first + n)) == SumWhere(lines, Before(first)) + MonthSums(lines, first, n)
  {
    if n > 0 {
      MonthsSplit(lines, first, n - 1);
      var k := MonthAt(first + n - 1);
      forall i | 0 <= i < |lines|
        ensures Before(first + n)(lines[i]) == (Before(first + n - 1)(lines[i]) || DatedIn(k)(lines[i]))
      {
        if HasMonth(lines[i].date) {
          MonthAtIndex(MonthOf(lines[i].date));
        }
      }
      SumWhereSplit(lines, Before(first + n), Before(first + n - 1), DatedIn(k));
    }
  }

  function Id(x: real): real { x }

  /** A series of consecutive month totals sums to the totals of those months. */
  lemma {:induction false} SeriesTotal(lines: seq<Line>, first: int, series: seq<real>)
    requires forall j :: 0 <= j < |series| ==> series[j] == SumWhere(lines, DatedIn(MonthAt(first + j)))
    ensures SumBy(series, Id) == MonthSums(lines, first, |series|)
  {
    if series != [] {
      SeriesTotal(lines, first, series[..|series| - 1]);
    }
  }

  /** Lines dated outside every month of a window add nothing to its series. */
  lemma OutsideAddsNothing(lines: seq<Line>, extra: seq<Line>, k: MonthKey)
    requires forall i :: 0 <= i < |extra| ==> !InMonth(extra[i].date, k)
    ensures SumWhere(lines + extra, DatedIn(k)) == SumWhere(lines, DatedIn(k))
  {
    SumWhereAppend(lines, extra, DatedIn(k));
    SumWhereNone(extra, DatedIn(k));
  }
}
