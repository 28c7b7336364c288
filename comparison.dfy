/**
 * The category comparison table: for every expense category, its overall
 * total, its average per month with data, and its total for the current
 * month, largest overall first, each row coloured by how this month
 * compares with the average.
 */
module CategoryComparison {
  import opened Wrappers
  import opened Dates
  import opened SheetApi
  import opened Sorting
  import opened Ledger
  import opened CategoryCharts
  import opened Months

  /** `list.find(c => c.name === catName)?.icon`, searched from the front; "" when nothing matches. */
  function FindIcon(list: seq<Category>, name: string): (icon: string)
    ensures (forall i :: 0 <= i < |list| ==> list[i].name != name) ==> icon == ""
    ensures (exists i :: 0 <= i < |list| && list[i].name == name) ==>
      exists i :: 0 <= i < |list| && list[i].name == name && icon == list[i].icon
        && forall j :: 0 <= j < i ==> list[j].name != name
  {
    if list == [] then ""
    else if list[0].name == name then list[0].icon
    else
      var icon := FindIcon(list[1..], name);
      assert forall i :: 1 <= i < |list| ==> list[i] == list[1..][i - 1];
      icon
  }

  /** `getIcon`: the icon of the first expense category of that exact name; "" without a list. */
  function GetIcon(categories: Option<CategoryLists>, name: string): (icon: string)
    ensures categories.None? ==> icon == ""
    ensures categories.Some? ==> icon == FindIcon(categories.value.expenses, name)
    ensures categories.Some? && (forall i :: 0 <= i < |categories.value.expenses| ==> categories.value.expenses[i].name != name) ==> icon == ""
  {
    if categories.None? then "" else FindIcon(categories.value.expenses, name)
  }

  /** The months, as (year, month), of the dated lines. */
  function MonthsOf(lines: seq<Line>): set<MonthKey>
  {
    set i | 0 <= i < |lines| && HasMonth(lines[i].date) :: MonthOf(lines[i].date)
  }

  /** `allMonths`: the set of months met, filled line by line; no larger than the number of lines. */
  method DistinctMonths(lines: seq<Line>) returns (months: set<MonthKey>)
    ensures months == MonthsOf(lines)
    ensures |months| <= |lines|
  {
    months := {};
    for n := 0 to |lines|
      invariant months == MonthsOf(lines[..n])
      invariant |months| <= n
    {
      assert lines[..n + 1] == lines[..n] + [lines[n]];
      if HasMonth(lines[n].date) {
        months := months + {MonthOf(lines[n].date)};
      }
      assert months == MonthsOf(lines[..n + 1]) by {
        forall k | k in MonthsOf(lines[..n + 1])
          ensures k in months
        {
          var i :| 0 <= i < n + 1 && HasMonth(lines[..n + 1][i].date) && MonthOf(lines[..n + 1][i].date) == k;
          if i < n {
            assert lines[..n + 1][i] == lines[..n][i];
          }
        }
        forall k | k in months
          ensures k in MonthsOf(lines[..n + 1])
        {
          if k in MonthsOf(lines[..n]) {
            var i :| 0 <= i < n && HasMonth(lines[..n][i].date) && MonthOf(lines[..n][i].date) == k;
            assert lines[..n + 1][i] == lines[..n][i];
          } else {
            assert lines[..n + 1][n] == lines[n];
          }
        }
      }
    }
    assert lines[..|lines|] == lines;
  }

  /** `allMonths.size || 1`: the number of months with data, at least one. */
  method TotalMonthsCount(lines: seq<Line>) returns (count: nat)
    ensures count == if MonthsOf(lines) == {} then 1 else |MonthsOf(lines)|
    ensures 1 <= count && (lines != [] ==> count <= |lines|)
    ensures (forall i :: 0 <= i < |lines| ==> !HasMonth(lines[i].date)) ==> count == 1
  {
    var months := DistinctMonths(lines);
    count := if |months| == 0 then 1 else |months|;
    if months != {} {
      var k :| k in months;
      var i :| 0 <= i < |lines| && HasMonth(lines[i].date) && MonthOf(lines[i].date) == k;
    }
  }

  /** The lines of category `cat` dated in month `now`. */
  function InCategoryIn(cat: string, now: MonthKey): Line -> bool
  {
    (l: Line) => l.category == cat && InMonth(l.date, now)
  }

  /** `categoryThisMonthTotal[cat] || 0`. */
  function TotalOr0(totals: map<string, real>, cat: string): real
  {
    if cat in totals then totals[cat] else 0.0
  }

  /**
   * `if (monthKey === currentMonthKey) categoryThisMonthTotal[category] += amount`
   * over the lines in order: read with a default of 0, every category holds
   * its total over the current month.
   */
  method ThisMonthTotals(lines: seq<Line>, now: MonthKey) returns (totals: map<string, real>)
    ensures forall cat :: TotalOr0(totals, cat) == SumWhere(lines, InCategoryIn(cat, now))
  {
    totals := map[];
    for n := 0 to |lines|
      invariant forall cat :: TotalOr0(totals, cat) == SumWhere(lines[..n], InCategoryIn(cat, now))
    {
      SumWhereStep(lines, n);
      var l := lines[n];
      if InMonth(l.date, now) {
        totals := totals[l.category := TotalOr0(totals, l.category) + l.amount];
      }
    }
    assert lines[..|lines|] == lines;
  }

  /** One row of the table. */
  datatype Comparison = Comparison(category: string, overallTotal: real, overallAvg: real, thisMonth: real)

  function Overall(c: Comparison): real { c.overallTotal }

  /** The row built from one sorted overall entry. */
  function RowOf(e: Entry, count: nat, thisMonth: map<string, real>): (c: Comparison)
    requires count >= 1
    ensures c.category == e.name && c.overallTotal == e.value && c.overallAvg * count as real == e.value
  {
    Comparison(e.name, e.value, e.value / count as real, TotalOr0(thisMonth, e.name))
  }

  /** Rows built entry by entry sum to the entries' sum. */
  lemma {:induction false} RowsSum(sorted: seq<Entry>, rows: seq<Comparison>)
    requires |rows| == |sorted| && forall i :: 0 <= i < |rows| ==> rows[i].overallTotal == sorted[i].value
    ensures SumBy(rows, Overall) == SumBy(sorted, Value)
  {
    if rows != [] {
      RowsSum(sorted[..|sorted| - 1], rows[..|rows| - 1]);
    }
  }

  /** The categories of the rows, in order. */
  function Names(rows: seq<Comparison>): (ns: seq<string>)
    ensures |ns| == |rows| && forall i :: 0 <= i < |rows| ==> ns[i] == rows[i].category
  {
    seq(|rows|, i requires 0 <= i < |rows| => rows[i].category)
  }

  /**
   * The table: one row per category met (a missing category is "Others"),
   * no category twice, in non-increasing order of overall total; each row's
   * overall total, average over the months with data, and this month's
   * total; the overall column adds up to the total of every amount.
   */
  method CompareCategories(lines: seq<Line>, now: MonthKey) returns (count: nat, rows: seq<Comparison>)
    ensures count == if MonthsOf(lines) == {} then 1 else |MonthsOf(lines)|
    ensures forall k :: k in Names(rows) <==> SeenCategory(lines, false, k)
    ensures forall i, j :: 0 <= i < j < |rows| ==> rows[i].category != rows[j].category
    ensures forall i, j :: 0 <= i < j < |rows| ==> rows[i].overallTotal >= rows[j].overallTotal
    ensures forall i :: 0 <= i < |rows| ==>
      && rows[i].overallTotal == SumWhere(lines, InCategory(rows[i].category, false))
      && rows[i].overallAvg == rows[i].overallTotal / count as real
      && rows[i].thisMonth == SumWhere(lines, InCategoryIn(rows[i].category, now))
    ensures SumBy(rows, Overall) == Total(lines)
  {
    count := TotalMonthsCount(lines);
    var keys, overall := GroupTotals(lines, false);
    var thisMonth := ThisMonthTotals(lines, now);
    rows := BuildRows(SortDesc(Entries(keys, overall), Value), count, thisMonth);
    TableRows(lines, now, keys, overall, thisMonth, count, rows);
  }

  /** `sorted.map(([category, total]) => ({ category, overallTotal, overallAvg, thisMonth }))`. */
  function BuildRows(sorted: seq<Entry>, count: nat, thisMonth: map<string, real>): (rows: seq<Comparison>)
    requires count >= 1
    ensures |rows| == |sorted| && forall i :: 0 <= i < |sorted| ==> rows[i] == RowOf(sorted[i], count, thisMonth)
  {
    seq(|sorted|, i requires 0 <= i < |sorted| => RowOf(sorted[i], count, thisMonth))
  }

  /** The facts about the rows built from the sorted overall entries that the table relies on. */
  lemma TableRows(lines: seq<Line>, now: MonthKey, keys: seq<string>, overall: map<string, real>,
                  thisMonth: map<string, real>, count: nat, rows: seq<Comparison>)
    requires count >= 1
    requires Distinct(keys)
    requires forall k :: k in overall <==> k in keys
    requires forall k :: k in keys <==> exists i :: 0 <= i < |lines| && Counted(lines[i], false) && lines[i].category == k
    requires forall k :: k in overall ==> overall[k] == SumWhere(lines, InCategory(k, false))
    requires SumBy(Entries(keys, overall), Value) == SumWhere(lines, CountedLines(false))
    requires forall cat :: TotalOr0(thisMonth, cat) == SumWhere(lines, InCategoryIn(cat, now))
    requires rows == BuildRows(SortDesc(Entries(keys, overall), Value), count, thisMonth)
    ensures forall k :: k in Names(rows) <==> SeenCategory(lines, false, k)
    ensures forall i, j :: 0 <= i < j < |rows| ==> rows[i].category != rows[j].category
    ensures forall i, j :: 0 <= i < j < |rows| ==> rows[i].overallTotal >= rows[j].overallTotal
    ensures forall i :: 0 <= i < |rows| ==>
      && rows[i].overallTotal == SumWhere(lines, InCategory(rows[i].category, false))
      && rows[i].overallAvg == rows[i].overallTotal / count as real
      && rows[i].thisMonth == SumWhere(lines, InCategoryIn(rows[i].category, now))
    ensures SumBy(rows, Overall) == Total(lines)
  {
    TableNames(lines, keys, overall, count, thisMonth, rows);
    TableOrder(keys, overall, count, thisMonth, rows);
    TableValues(lines, now, keys, overall, count, thisMonth, rows);
    TableSum(lines, keys, overall, count, thisMonth, rows);
  }

  /** Each row carries its category's overall total, its average and this month's total. */
  lemma TableValues(lines: seq<Line>, now: MonthKey, keys: seq<string>, overall: map<string, real>,
                    count: nat, thisMonth: map<string, real>, rows: seq<Comparison>)
    requires count >= 1
    requires Distinct(keys)
    requires forall k :: k in keys ==> k in overall
    requires forall k :: k in overall ==> overall[k] == SumWhere(lines, InCategory(k, false))
    requires forall cat :: TotalOr0(thisMonth, cat) == SumWhere(lines, InCategoryIn(cat, now))
    requires rows == BuildRows(SortDesc(Entries(keys, overall), Value), count, thisMonth)
    ensures forall i :: 0 <= i < |rows| ==>
      && rows[i].overallTotal == SumWhere(lines, InCategory(rows[i].category, false))
      && rows[i].overallAvg == rows[i].overallTotal / count as real
      && rows[i].thisMonth == SumWhere(lines, InCategoryIn(rows[i].category, now))
  {
    var sorted := SortDesc(Entries(keys, overall), Value);
    SortedEntries(keys, overall);
    forall i | 0 <= i < |rows|
      ensures rows[i].overallTotal == SumWhere(lines, InCategory(rows[i].category, false))
    {
      assert sorted[i] in sorted;
    }
  }

  /** The rows name exactly the categories met. */
  lemma TableNames(lines: seq<Line>, keys: seq<string>, overall: map<string, real>,
                   count: nat, thisMonth: map<string, real>, rows: seq<Comparison>)
    requires count >= 1
    requires Distinct(keys)
    requires forall k :: k in overall <==> k in keys
    requires forall k :: k in keys <==> SeenCategory(lines, false, k)
    requires rows == BuildRows(SortDesc(Entries(keys, overall), Value), count, thisMonth)
    ensures forall k :: k in Names(rows) <==> SeenCategory(lines, false, k)
  {
    var sorted := SortDesc(Entries(keys, overall), Value);
    SortedEntries(keys, overall);
    RowNames(lines, keys, overall, sorted, count, thisMonth, rows);
  }

  /** Rows built one per sorted entry name the entries' keys. */
  lemma RowNames(lines: seq<Line>, keys: seq<string>, overall: map<string, real>, sorted: seq<Entry>,
                 count: nat, thisMonth: map<string, real>, rows: seq<Comparison>)
    requires count >= 1
    requires forall k :: k in overall <==> k in keys
    requires forall k :: k in keys <==> SeenCategory(lines, false, k)
    requires forall x :: x in sorted <==> x.name in keys && x.value == overall[x.name]
    requires |rows| == |sorted| && forall i :: 0 <= i < |sorted| ==> rows[i] == RowOf(sorted[i], count, thisMonth)
    ensures forall k :: k in Names(rows) <==> SeenCategory(lines, false, k)
  {
    forall k
      ensures k in Names(rows) <==> SeenCategory(lines, false, k)
    {
      if SeenCategory(lines, false, k) {
        assert Entry(k, overall[k]) in sorted;
        var i :| 0 <= i < |sorted| && sorted[i] == Entry(k, overall[k]);
        assert Names(rows)[i] == k;
      }
      if k in Names(rows) {
        var i :| 0 <= i < |rows| && Names(rows)[i] == k;
        assert sorted[i] in sorted;
      }
    }
  }

  /** No category twice, and the overall totals do not increase down the table. */
  lemma TableOrder(keys: seq<string>, overall: map<string, real>,
                   count: nat, thisMonth: map<string, real>, rows: seq<Comparison>)
    requires count >= 1
    requires Distinct(keys)
    requires forall k :: k in keys ==> k in overall
    requires rows == BuildRows(SortDesc(Entries(keys, overall), Value), count, thisMonth)
    ensures forall i, j :: 0 <= i < j < |rows| ==> rows[i].category != rows[j].category
    ensures forall i, j :: 0 <= i < j < |rows| ==> rows[i].overallTotal >= rows[j].overallTotal
  {
    SortedEntries(keys, overall);
  }

  /** The overall column adds up to the total of every amount. */
  lemma TableSum(lines: seq<Line>, keys: seq<string>, overall: map<string, real>,
                 count: nat, thisMonth: map<string, real>, rows: seq<Comparison>)
    requires count >= 1
    requires forall k :: k in keys ==> k in overall
    requires SumBy(Entries(keys, overall), Value) == SumWhere(lines, CountedLines(false))
    requires rows == BuildRows(SortDesc(Entries(keys, overall), Value), count, thisMonth)
    ensures SumBy(rows, Overall) == Total(lines)
  {
    var sorted := SortDesc(Entries(keys, overall), Value);
    SortSum(Entries(keys, overall), Value);
    RowsSum(sorted, rows);
    SumWhereSame(lines, CountedLines(false), Always);
  }

  /** The colour of a row. */
  datatype Shade = Red | Green | Neutral

  /** `getRowColor`: red above 120% of the average, green below 80%, neutral otherwise. */
  function RowColor(thisMonth: real, avg: real): Shade
  {
    if thisMonth > avg * 1.2 then Red
    else if thisMonth < avg * 0.8 then Green
    else Neutral
  }

  /** With a non-negative average the three colours are three bands around it. */
  lemma RowColorBands(thisMonth: real, avg: real)
    requires avg >= 0.0
    ensures RowColor(thisMonth, avg) == Neutral <==> avg * 0.8 <= thisMonth <= avg * 1.2
    ensures RowColor(thisMonth, avg) == Green <==> thisMonth < avg * 0.8
    ensures RowColor(thisMonth, avg) == Red <==> thisMonth > avg * 1.2
    ensures RowColor(avg, avg) == Neutral
  {
  }

  /** With a negative average (refunds outweigh spending) no row is neutral: the bands cross. */
  lemma NegativeAverageNeverNeutral(thisMonth: real, avg: real)
    requires avg < 0.0
    ensures RowColor(thisMonth, avg) != Neutral
    ensures RowColor(avg, avg) == Red
  {
  }
}
