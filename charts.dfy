/**
 * The category charts: the expense and income doughnuts (one slice per
 * category of positive amounts, largest first, with the total of all
 * amounts in the centre) and the bar chart of the five largest expense
 * categories.
 */
module CategoryCharts {
  import opened Wrappers
  import opened SheetApi
  import opened Sorting
  import opened Ledger

  /** What a doughnut shows: the no-data message, or the centre total and the slices in drawing order. */
  datatype Doughnut = NoData | Doughnut(total: real, slices: seq<Entry>)

  /**
   * The expense doughnut and the income doughnut (the two components run the
   * same code): no data for a missing or empty list; otherwise the total of
   * every amount, and one slice per category of positive amounts holding
   * their sum, in non-increasing order.
   */
  method CategoryDoughnut(rows: Option<seq<Row>>) returns (d: Doughnut)
    ensures d.NoData? <==> rows.None? || rows.value == []
    ensures d.Doughnut? ==> d.total == Total(Lines(rows.value))
    ensures d.Doughnut? ==> Descending(d.slices, Value) && DistinctLabels(d.slices)
    ensures d.Doughnut? ==> forall e :: e in d.slices ==>
      e.value == SumWhere(Lines(rows.value), InCategory(e.name, true)) && e.value > 0.0
    ensures d.Doughnut? ==> forall k :: k in Labels(d.slices) <==> SeenCategory(Lines(rows.value), true, k)
    ensures d.Doughnut? ==> SumBy(d.slices, Value) == SumWhere(Lines(rows.value), CountedLines(true))
    ensures d.Doughnut? ==> d.total <= SumBy(d.slices, Value)
  {
    if rows.None? || rows.value == [] {
      return NoData;
    }
    var lines := Lines(rows.value);
    var keys, totals := GroupTotals(lines, true);
    var es := Entries(keys, totals);
    EntriesLabels(keys, totals);
    var slices := SortDesc(es, Value);
    SortedLabelsDistinct(es);
    SortSum(es, Value);
    TotalAtMostPositive(lines);
    forall e | e in slices
      ensures e.value == SumWhere(lines, InCategory(e.name, true)) && e.value > 0.0
    {
      EntriesMember(keys, totals, e);
      CategoryTotalPositive(lines, e.name);
    }
    forall k
      ensures k in Labels(slices) <==> SeenCategory(lines, true, k)
    {
      SlicesLabels(keys, totals, k);
    }
    d := Doughnut(Total(lines), slices);
  }

  /** A key is a label of the sorted entries exactly when it is a key. */
  lemma SlicesLabels(keys: seq<string>, totals: map<string, real>, k: string)
    requires forall x :: x in keys ==> x in totals
    ensures k in Labels(SortDesc(Entries(keys, totals), Value)) <==> k in keys
  {
    var es := Entries(keys, totals);
    var slices := SortDesc(es, Value);
    EntriesMember(keys, totals, Entry(k, if k in totals then totals[k] else 0.0));
    if k in Labels(slices) {
      var i :| 0 <= i < |slices| && Labels(slices)[i] == k;
      EntriesMember(keys, totals, slices[i]);
    }
    if k in keys {
      var e := Entry(k, totals[k]);
      assert e in slices;
      var i :| 0 <= i < |slices| && slices[i] == e;
      assert Labels(slices)[i] == k;
    }
  }

  /** `Object.entries(totals).sort(...).slice(0, 5)` over every amount of every expense. */
  method TopCategories(rows: seq<Row>) returns (top: seq<Entry>)
    ensures |top| <= 5
    ensures top == [] <==> rows == []
    ensures Descending(top, Value) && DistinctLabels(top)
    ensures forall e :: e in top ==>
      SeenCategory(Lines(rows), false, e.name) && e.value == SumWhere(Lines(rows), InCategory(e.name, false))
    ensures forall k :: SeenCategory(Lines(rows), false, k) && k !in Labels(top) ==>
      |top| == 5 && forall e :: e in top ==> SumWhere(Lines(rows), InCategory(k, false)) <= e.value
  {
    var lines := Lines(rows);
    var keys, totals := GroupTotals(lines, false);
    var sorted := SortDesc(Entries(keys, totals), Value);
    SortedEntries(keys, totals);
    var n := if |sorted| < 5 then |sorted| else 5;
    top := sorted[..n];
    TopKept(lines, keys, totals, sorted, n);
  }

  /** The sorted entries: one per key, carrying its total, in non-increasing order with distinct labels. */
  lemma SortedEntries(keys: seq<string>, totals: map<string, real>)
    requires Distinct(keys)
    requires forall k :: k in keys ==> k in totals
    ensures var sorted := SortDesc(Entries(keys, totals), Value);
      && |sorted| == |keys|
      && (forall x :: x in sorted <==> x.name in keys && x.value == totals[x.name])
      && Descending(sorted, Value) && DistinctLabels(sorted)
  {
    var es := Entries(keys, totals);
    EntriesLabels(keys, totals);
    SortedLabelsDistinct(es);
    forall x
      ensures x in SortDesc(es, Value) <==> x.name in keys && x.value == totals[x.name]
    {
      EntriesMember(keys, totals, x);
    }
  }

  /** The facts about the first `n` sorted category totals that the bar chart relies on. */
  lemma TopKept(lines: seq<Line>, keys: seq<string>, totals: map<string, real>, sorted: seq<Entry>, n: nat)
    requires forall k :: k in totals <==> k in keys
    requires forall k :: k in keys <==> SeenCategory(lines, false, k)
    requires forall k :: k in totals ==> totals[k] == SumWhere(lines, InCategory(k, false))
    requires |sorted| == |keys|
    requires forall x :: x in sorted <==> x.name in keys && x.value == totals[x.name]
    requires Descending(sorted, Value) && DistinctLabels(sorted)
    requires n == if |keys| < 5 then |keys| else 5
    ensures var top := sorted[..n];
      && (top == [] <==> lines == [])
      && Descending(top, Value) && DistinctLabels(top)
      && (forall e :: e in top ==> SeenCategory(lines, false, e.name) && e.value == SumWhere(lines, InCategory(e.name, false)))
      && (forall k :: SeenCategory(lines, false, k) && k !in Labels(top) ==>
            n == 5 && forall e :: e in top ==> SumWhere(lines, InCategory(k, false)) <= e.value)
  {
    TopEmpty(lines, keys, n);
    TopMembers(lines, keys, totals, sorted, n);
    TopDropped(lines, keys, totals, sorted, n);
  }

  /** The kept entries are none exactly when there are no lines. */
  lemma TopEmpty(lines: seq<Line>, keys: seq<string>, n: nat)
    requires forall k :: k in keys <==> SeenCategory(lines, false, k)
    requires n == if |keys| < 5 then |keys| else 5
    ensures n == 0 <==> lines == []
  {
    if lines != [] {
      assert Counted(lines[0], false);
      assert lines[0].category in keys;
    }
    if |keys| > 0 {
      assert SeenCategory(lines, false, keys[0]);
    }
  }

  /** Every kept entry is a category met, carrying its total. */
  lemma TopMembers(lines: seq<Line>, keys: seq<string>, totals: map<string, real>, sorted: seq<Entry>, n: nat)
    requires forall k :: k in totals <==> k in keys
    requires forall k :: k in keys <==> SeenCategory(lines, false, k)
    requires forall k :: k in totals ==> totals[k] == SumWhere(lines, InCategory(k, false))
    requires forall x :: x in sorted <==> x.name in keys && x.value == totals[x.name]
    requires n <= |sorted|
    ensures forall e :: e in sorted[..n] ==> SeenCategory(lines, false, e.name) && e.value == SumWhere(lines, InCategory(e.name, false))
  {
    forall e | e in sorted[..n]
      ensures SeenCategory(lines, false, e.name) && e.value == SumWhere(lines, InCategory(e.name, false))
    {
      assert e in sorted;
    }
  }

  /** A category met but not kept means five were kept, each with at least its total. */
  lemma TopDropped(lines: seq<Line>, keys: seq<string>, totals: map<string, real>, sorted: seq<Entry>, n: nat)
    requires forall k :: k in totals <==> k in keys
    requires forall k :: k in keys <==> SeenCategory(lines, false, k)
    requires forall k :: k in totals ==> totals[k] == SumWhere(lines, InCategory(k, false))
    requires |sorted| == |keys|
    requires forall x :: x in sorted <==> x.name in keys && x.value == totals[x.name]
    requires Descending(sorted, Value)
    requires n == if |keys| < 5 then |keys| else 5
    ensures forall k :: SeenCategory(lines, false, k) && k !in Labels(sorted[..n]) ==>
      n == 5 && forall e :: e in sorted[..n] ==> SumWhere(lines, InCategory(k, false)) <= e.value
  {
    forall k | SeenCategory(lines, false, k) && k !in Labels(sorted[..n])
      ensures n == 5 && forall e :: e in sorted[..n] ==> SumWhere(lines, InCategory(k, false)) <= e.value
    {
      Dropped(sorted, n, Entry(k, totals[k]));
    }
  }

  /** An entry missing from the first `n` of a sorted sequence sits further down, so every kept entry is at least its value. */
  lemma Dropped(sorted: seq<Entry>, n: nat, e: Entry)
    requires Descending(sorted, Value) && e in sorted && n <= |sorted|
    requires e.name !in Labels(sorted[..n])
    ensures n < |sorted|
    ensures forall x :: x in sorted[..n] ==> e.value <= x.value
  {
    var j :| 0 <= j < |sorted| && sorted[j] == e;
    forall x | x in sorted[..n]
      ensures e.value <= x.value
    {
      var i :| 0 <= i < n && sorted[..n][i] == x;
      assert sorted[i] == x;
    }
  }
}
