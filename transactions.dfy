/**
 * The transactions page: expenses and incomes merged into one list tagged
 * with their kind, sorted newest first in place, then filtered by kind and
 * by a `YYYY-MM` month.
 */
module TransactionList {
  import opened Wrappers
  import opened Dates
  import opened SheetApi
  import opened Months

  /** `expenses.map(e => ({ ...e, _type: kind }))`: the same rows, all of one kind. */
  function Retag(txns: seq<Txn>, kind: Kind): (r: seq<Txn>)
    ensures |r| == |txns|
    ensures forall i :: 0 <= i < |txns| ==> r[i] == Txn(txns[i].row, kind)
  {
    seq(|txns|, i requires 0 <= i < |txns| => Txn(txns[i].row, kind))
  }

  /** The combined list: every expense tagged expense, then every income tagged income. */
  function Merge(expenses: seq<Txn>, incomes: seq<Txn>): (all: seq<Txn>)
    ensures |all| == |expenses| + |incomes|
    ensures forall i :: 0 <= i < |all| ==>
      if i < |expenses| then all[i] == Txn(expenses[i].row, Expense) else all[i] == Txn(incomes[i - |expenses|].row, Income)
  {
    Retag(expenses, Expense) + Retag(incomes, Income)
  }

  /** When a transaction happened: its day number, or nothing for a date that does not parse. */
  datatype Stamp = Undated | On(day: int)

  function StampOf(t: Txn): (s: Stamp)
    ensures s.On? <==> ParseDate(t.row.date).Day?
  {
    var d := ParseDate(t.row.date);
    if d.Day? then On(DayNumber(d.year, d.month, d.day)) else Undated
  }

  /** `a` comes no later than `b` in the newest-first order; undated items go last. */
  predicate NewerOrSame(a: Stamp, b: Stamp)
  {
    b.Undated? || (a.On? && a.day >= b.day)
  }

  /** The order is total and transitive, so "newest first" is a consistent ordering. */
  lemma NewerOrSameOrder(a: Stamp, b: Stamp, c: Stamp)
    ensures NewerOrSame(a, b) || NewerOrSame(b, a)
    ensures NewerOrSame(a, b) && NewerOrSame(b, c) ==> NewerOrSame(a, c)
    ensures NewerOrSame(a, a)
  {
  }

  /** Every item is at least as new as every later one, by the given stamps. */
  predicate Ordered(s: seq<Txn>, stamp: Txn -> Stamp)
  {
    forall i, j :: 0 <= i < j < |s| ==> NewerOrSame(stamp(s[i]), stamp(s[j]))
  }

  /** Newest first by the transactions' own dates. */
  predicate NewestFirst(s: seq<Txn>)
  {
    Ordered(s, StampOf)
  }

  /** The first `i` items are in order. */
  ghost predicate SortedBelow(s: seq<Txn>, i: nat, stamp: Txn -> Stamp)
    requires i <= |s|
  {
    forall p, q :: 0 <= p < q < i ==> NewerOrSame(stamp(s[p]), stamp(s[q]))
  }

  /**
   * Item `i` is being moved down to position `j`: the first `i + 1` items
   * other than the one at `j` are in order, and it is at least as new as
   * every item after it.
   */
  ghost predicate Sinking(s: seq<Txn>, i: nat, j: nat, stamp: Txn -> Stamp)
  {
    && j <= i < |s|
    && (forall p, q :: 0 <= p < q <= i && p != j && q != j ==> NewerOrSame(stamp(s[p]), stamp(s[q])))
    && (forall q :: j < q <= i ==> NewerOrSame(stamp(s[j]), stamp(s[q])))
  }

  lemma SinkStart(s: seq<Txn>, i: nat, stamp: Txn -> Stamp)
    requires i < |s| && SortedBelow(s, i, stamp)
    ensures Sinking(s, i, i, stamp)
  {
  }

  /** Swapping the moving item with a strictly older one in front of it keeps the invariant, one place down. */
  lemma SinkStep(s: seq<Txn>, i: nat, j: nat, stamp: Txn -> Stamp)
    requires Sinking(s, i, j, stamp) && 0 < j && !NewerOrSame(stamp(s[j - 1]), stamp(s[j]))
    ensures Sinking(s[j - 1 := s[j]][j := s[j - 1]], i, j - 1, stamp)
    ensures multiset(s[j - 1 := s[j]][j := s[j - 1]]) == multiset(s)
  {
    var t := s[j - 1 := s[j]][j := s[j - 1]];
    forall q | j - 1 < q <= i
      ensures NewerOrSame(stamp(t[j - 1]), stamp(t[q]))
    {
      if q > j {
        NewerOrSameOrder(stamp(s[j]), stamp(s[j - 1]), stamp(s[q]));
      }
    }
    assert s == s[..j - 1] + [s[j - 1], s[j]] + s[j + 1..];
    assert t == s[..j - 1] + [s[j], s[j - 1]] + s[j + 1..];
  }

  /** The moving item has stopped behind an item at least as new: the first `i + 1` items are in order. */
  lemma SinkDone(s: seq<Txn>, i: nat, j: nat, stamp: Txn -> Stamp)
    requires Sinking(s, i, j, stamp) && (j == 0 || NewerOrSame(stamp(s[j - 1]), stamp(s[j])))
    ensures SortedBelow(s, i + 1, stamp)
  {
    forall p | 0 <= p < j
      ensures NewerOrSame(stamp(s[p]), stamp(s[j]))
    {
      NewerOrSameOrder(stamp(s[p]), stamp(s[j - 1]), stamp(s[j]));
    }
  }

  /**
   * `allTransactions.sort((a, b) => new Date(b.raw[1]) - new Date(a.raw[1]))`:
   * an insertion sort in place, moving each item towards the front past
   * every strictly older one.
   */
  method SortNewestFirst(a: array<Txn>, stamp: Txn -> Stamp)
    modifies a
    ensures multiset(a[..]) == multiset(old(a[..]))
    ensures Ordered(a[..], stamp)
  {
    for i := 0 to a.Length
      invariant multiset(a[..]) == multiset(old(a[..]))
      invariant SortedBelow(a[..], i, stamp)
    {
      SinkStart(a[..], i, stamp);
      var j := i;
      while j > 0 && !NewerOrSame(stamp(a[j - 1]), stamp(a[j]))
        invariant multiset(a[..]) == multiset(old(a[..]))
        invariant Sinking(a[..], i, j, stamp)
      {
        ghost var s := a[..];
        SinkStep(s, i, j, stamp);
        a[j - 1], a[j] := a[j], a[j - 1];
        assert a[..] == s[j - 1 := s[j]][j := s[j - 1]];
        j := j - 1;
      }
      SinkDone(a[..], i, j, stamp);
    }
  }

  /** The name a kind carries in the type filter. */
  function KindName(k: Kind): string
  {
    match k
    case Expense => "expense"
    case Income => "income"
  }

  /** `filterType === "all" || item._type === filterType`. */
  predicate MatchesType(filterType: string, t: Txn)
  {
    filterType == "all" || KindName(t.kind) == filterType
  }

  /**
   * An empty month filter keeps everything; otherwise the date's year and
   * month must equal both parts of the filter read by `parseInt`, which never
   * holds for a date that does not parse or a part that is not a number.
   */
  predicate MatchesMonth(dateFilter: string, t: Txn)
  {
    dateFilter == "" ||
    (var k := ParseMonthFilter(dateFilter); k.Some? && InMonth(ParseDate(t.row.date), k.value))
  }

  function Matches(filterType: string, dateFilter: string): Txn -> bool
  {
    (t: Txn) => MatchesType(filterType, t) && MatchesMonth(dateFilter, t)
  }

  /** `items.filter(p)`. */
  function Filter(items: seq<Txn>, p: Txn -> bool): (r: seq<Txn>)
    ensures |r| <= |items|
    ensures forall x :: x in r <==> x in items && p(x)
  {
    if items == [] then []
    else
      var init := Filter(items[..|items| - 1], p);
      var last := items[|items| - 1];
      assert forall x :: x in items <==> x in items[..|items| - 1] || x == last by {
        assert items == items[..|items| - 1] + [last];
      }
      if p(last) then init + [last] else init
  }

  /** Filtering a concatenation filters each part and keeps them in order. */
  lemma {:induction false} FilterAppend(a: seq<Txn>, b: seq<Txn>, p: Txn -> bool)
    ensures Filter(a + b, p) == Filter(a, p) + Filter(b, p)
  {
    if b == [] {
      assert a + b == a;
    } else {
      var init := b[..|b| - 1];
      FilterAppend(a, init, p);
      assert (a + b)[..|a + b| - 1] == a + init;
    }
  }

  /** Each item is kept as often as it occurs, when it passes the filter, and not at all otherwise. */
  lemma {:induction false} FilterCounts(items: seq<Txn>, p: Txn -> bool, x: Txn)
    ensures multiset(Filter(items, p))[x] == if p(x) then multiset(items)[x] else 0
  {
    if items != [] {
      var init := items[..|items| - 1];
      FilterCounts(init, p, x);
      assert items == init + [items[|items| - 1]];
    }
  }

  /** A filtered newest-first list is still newest first. */
  lemma {:induction false} FilterKeepsOrder(items: seq<Txn>, p: Txn -> bool)
    requires NewestFirst(items)
    ensures NewestFirst(Filter(items, p))
  {
    if items != [] {
      var init := items[..|items| - 1];
      var last := items[|items| - 1];
      FilterKeepsOrder(init, p);
      if p(last) {
        var r := Filter(init, p);
        forall i | 0 <= i < |r|
          ensures NewerOrSame(StampOf(r[i]), StampOf(last))
        {
          assert r[i] in init;
          var k :| 0 <= k < |init| && init[k] == r[i];
          assert items[k] == r[i];
        }
      }
    }
  }

  /** Filter "all" with no month keeps the whole list. */
  lemma {:induction false} FilterAllKeepsAll(items: seq<Txn>)
    ensures Filter(items, Matches("all", "")) == items
  {
    if items != [] {
      var init, last := items[..|items| - 1], items[|items| - 1];
      FilterAllKeepsAll(init);
      assert Matches("all", "")(last);
      assert items == init + [last];
    }
  }

  /**
   * The page's list: the merged items sorted newest first (same items, same
   * multiplicities) and the items shown, which are the sorted items that pass
   * both filters, in the sorted order.
   */
  method TransactionPage(expenses: seq<Txn>, incomes: seq<Txn>, filterType: string, dateFilter: string)
    returns (sorted: seq<Txn>, shown: seq<Txn>)
    ensures multiset(sorted) == multiset(Merge(expenses, incomes))
    ensures NewestFirst(sorted) && NewestFirst(shown)
    ensures shown == Filter(sorted, Matches(filterType, dateFilter))
    ensures forall x :: x in shown <==> x in Merge(expenses, incomes) && MatchesType(filterType, x) && MatchesMonth(dateFilter, x)
  {
    var all := Merge(expenses, incomes);
    var a := new Txn[|all|](i requires 0 <= i < |all| => all[i]);
    assert a[..] == all;
    SortNewestFirst(a, StampOf);
    sorted := a[..];
    shown := Filter(sorted, Matches(filterType, dateFilter));
    FilterKeepsOrder(sorted, Matches(filterType, dateFilter));
    forall x
      ensures x in sorted <==> x in all
    {
      assert x in sorted <==> x in multiset(sorted);
      assert x in all <==> x in multiset(all);
    }
  }
}
