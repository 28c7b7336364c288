/**
 * The aggregation every dashboard component repeats inline: a row read as
 * its parsed amount, date and category, filtered sums over rows, and the
 * per-category `categoryTotals` dictionary filled row by row.
 */
module Ledger {
  import opened Text
  import opened Amounts
  import opened Dates
  import opened SheetApi
  import opened Sorting

  /**
   * A sheet row as the dashboards read it: `parseVal(row[2])`,
   * `new Date(row[1])` and `row[4] || "Others"`.
   */
  datatype Line = Line(amount: real, date: Date, category: string)

  /** `row[4] || "Others"`: a missing or empty category is "Others". */
  function CategoryOf(r: Row): (c: string)
    ensures c != ""
    ensures r.category != "" ==> c == r.category
    ensures r.category == "" ==> c == "Others"
  {
    if r.category == "" then "Others" else r.category
  }

  function LineOf(r: Row): Line
  {
    Line(ParseVal(r.amount), ParseDate(r.date), CategoryOf(r))
  }

  /** Every row of a sheet read as a line, in order. */
  function Lines(rows: seq<Row>): (ls: seq<Line>)
    ensures |ls| == |rows| && forall i :: 0 <= i < |rows| ==> ls[i] == LineOf(rows[i])
  {
    seq(|rows|, i requires 0 <= i < |rows| => LineOf(rows[i]))
  }

  function Amount(l: Line): real { l.amount }

  /** A line dated in month `k`; a line without a date is in no month. */
  function DatedIn(k: MonthKey): Line -> bool
  {
    (l: Line) => InMonth(l.date, k)
  }

  /** `String(row[4] || "").toLowerCase() === name`: a case-insensitive but exact category match. */
  predicate CategoryIs(l: Line, name: string)
  {
    ToLower(l.category) == name
  }

  /**
   * Matching the category a line carries is matching the row's own cell: a
   * missing category reads as "Others", and neither "" nor "others" is a name
   * the components look for.
   */
  lemma CategoryIsRow(r: Row, name: string)
    requires name != "" && name != "others"
    ensures CategoryIs(LineOf(r), name) <==> ToLower(r.category) == name
  {
    if r.category == "" {
      assert ToLower("Others") == "others";
    }
  }

  /** The sum of the amounts of the lines that satisfy `p`, as a `filter`/`reduce` chain computes it. */
  function SumWhere(lines: seq<Line>, p: Line -> bool): real
  {
    if lines == [] then 0.0
    else SumWhere(lines[..|lines| - 1], p) + (if p(lines[|lines| - 1]) then Amount(lines[|lines| - 1]) else 0.0)
  }

  predicate Always(r: Line) { true }

  /** `lines.reduce((sum, line) => sum + parseVal(line[2]), 0)`. */
  function Total(lines: seq<Line>): real { SumWhere(lines, Always) }

  /** Sums over a concatenation add up. */
  lemma {:induction false} SumWhereAppend(a: seq<Line>, b: seq<Line>, p: Line -> bool)
    ensures SumWhere(a + b, p) == SumWhere(a, p) + SumWhere(b, p)
  {
    if b == [] {
      assert a + b == a;
    } else {
      var init := b[..|b| - 1];
      SumWhereAppend(a, init, p);
      assert (a + b)[..|a + b| - 1] == a + init;
    }
  }

  /** A filter no line passes sums to zero. */
  lemma {:induction false} SumWhereNone(lines: seq<Line>, p: Line -> bool)
    requires forall i :: 0 <= i < |lines| ==> !p(lines[i])
    ensures SumWhere(lines, p) == 0.0
  {
    if lines != [] {
      SumWhereNone(lines[..|lines| - 1], p);
    }
  }

  /** Filters that agree on every line give the same sum. */
  lemma {:induction false} SumWhereSame(lines: seq<Line>, p: Line -> bool, q: Line -> bool)
    requires forall i :: 0 <= i < |lines| ==> p(lines[i]) == q(lines[i])
    ensures SumWhere(lines, p) == SumWhere(lines, q)
  {
    if lines != [] {
      SumWhereSame(lines[..|lines| - 1], p, q);
    }
  }

  /** A filter that is the disjoint union of two others sums to the sum of their sums. */
  lemma {:induction false} SumWhereSplit(lines: seq<Line>, p: Line -> bool, q: Line -> bool, r: Line -> bool)
    requires forall i :: 0 <= i < |lines| ==> p(lines[i]) == (q(lines[i]) || r(lines[i]))
    requires forall i :: 0 <= i < |lines| ==> !(q(lines[i]) && r(lines[i]))
    ensures SumWhere(lines, p) == SumWhere(lines, q) + SumWhere(lines, r)
  {
    if lines != [] {
      SumWhereSplit(lines[..|lines| - 1], p, q, r);
    }
  }

  /** A filter that keeps only positive amounts sums to a non-negative value. */
  lemma {:induction false} SumWherePositive(lines: seq<Line>, p: Line -> bool)
    requires forall i :: 0 <= i < |lines| ==> p(lines[i]) ==> Amount(lines[i]) > 0.0
    ensures SumWhere(lines, p) >= 0.0
    ensures SumWhere(lines, p) == 0.0 <==> forall i :: 0 <= i < |lines| ==> !p(lines[i])
  {
    if lines != [] {
      var init := lines[..|lines| - 1];
      SumWherePositive(init, p);
      if forall i :: 0 <= i < |init| ==> !p(init[i]) {
        if !p(lines[|lines| - 1]) {
          assert forall i :: 0 <= i < |lines| ==> !p(lines[i]) by {
            forall i | 0 <= i < |lines| ensures !p(lines[i]) {
              if i < |init| { assert lines[i] == init[i]; }
            }
          }
        }
      } else {
        var i :| 0 <= i < |init| && p(init[i]);
        assert lines[i] == init[i];
      }
    }
  }

  // ---------------------------------------------------------------- category totals

  /** Whether a line enters the category totals: every line, or only those with a positive amount. */
  predicate Counted(r: Line, positiveOnly: bool)
  {
    !positiveOnly || Amount(r) > 0.0
  }

  /** The lines of category `cat` that are counted. */
  function InCategory(cat: string, positiveOnly: bool): Line -> bool
  {
    r => Counted(r, positiveOnly) && r.category == cat
  }

  /** The category of some line that enters the totals. */
  ghost predicate SeenCategory(lines: seq<Line>, positiveOnly: bool, k: string)
  {
    exists i :: 0 <= i < |lines| && Counted(lines[i], positiveOnly) && lines[i].category == k
  }

  /** All counted lines. */
  function CountedLines(positiveOnly: bool): Line -> bool
  {
    r => Counted(r, positiveOnly)
  }

  /** One `[label, value]` pair of `Object.entries`. */
  datatype Entry = Entry(name: string, value: real)

  function Value(e: Entry): real { e.value }

  /** `Object.entries(totals)` when `keys` is the order the keys were first set in. */
  function Entries(keys: seq<string>, totals: map<string, real>): (es: seq<Entry>)
    requires forall k :: k in keys ==> k in totals
    ensures |es| == |keys|
    ensures forall i :: 0 <= i < |keys| ==> es[i] == Entry(keys[i], totals[keys[i]])
  {
    seq(|keys|, i requires 0 <= i < |keys| => Entry(keys[i], totals[keys[i]]))
  }

  /** Labels of the entries, in order. */
  function Labels(es: seq<Entry>): (ls: seq<string>)
    ensures |ls| == |es| && forall i :: 0 <= i < |es| ==> ls[i] == es[i].name
  {
    seq(|es|, i requires 0 <= i < |es| => es[i].name)
  }

  /** No label occurs twice. */
  predicate DistinctLabels(es: seq<Entry>)
  {
    forall i, j :: 0 <= i < j < |es| ==> es[i].name != es[j].name
  }

  /** Entries with distinct labels are distinct, and a permutation without repeats keeps labels distinct. */
  lemma SortedLabelsDistinct(es: seq<Entry>)
    requires DistinctLabels(es)
    ensures DistinctLabels(SortDesc(es, Value))
  {
    assert Distinct(es);
    var r := SortDesc(es, Value);
    forall i, j | 0 <= i < j < |r|
      ensures r[i].name != r[j].name
    {
      assert r[i] in es && r[j] in es;
      var a :| 0 <= a < |es| && es[a] == r[i];
      var b :| 0 <= b < |es| && es[b] == r[j];
      assert r[i] != r[j];
      assert a != b;
    }
  }

  lemma EntriesUpdate(keys: seq<string>, totals: map<string, real>, j: nat, v: real)
    requires forall k :: k in keys ==> k in totals
    requires Distinct(keys) && j < |keys|
    ensures Entries(keys, totals[keys[j] := v]) == Entries(keys, totals)[j := Entry(keys[j], v)]
  {
  }

  lemma EntriesAppend(keys: seq<string>, totals: map<string, real>, k: string, v: real)
    requires forall x :: x in keys ==> x in totals
    requires k !in keys
    ensures Entries(keys + [k], totals[k := v]) == Entries(keys, totals) + [Entry(k, v)]
  {
  }

  /** One more line adds its amount to every filter it passes. */
  lemma SumWhereStep(lines: seq<Line>, n: nat)
    requires n < |lines|
    ensures forall p: Line -> bool {:trigger SumWhere(lines[..n + 1], p)} ::
      SumWhere(lines[..n + 1], p) == SumWhere(lines[..n], p) + (if p(lines[n]) then Amount(lines[n]) else 0.0)
  {
    assert lines[..n + 1][..n] == lines[..n];
  }

  /** `keys` holds exactly the categories of the counted lines among the first `n`. */
  ghost predicate KeysSeen(lines: seq<Line>, n: nat, positiveOnly: bool, keys: seq<string>)
    requires n <= |lines|
  {
    forall k :: k in keys <==> exists i :: 0 <= i < n && Counted(lines[i], positiveOnly) && lines[i].category == k
  }

  /** Every category in `totals` maps to the sum of its counted lines among the first `n`. */
  ghost predicate TotalsSoFar(lines: seq<Line>, n: nat, positiveOnly: bool, totals: map<string, real>)
    requires n <= |lines|
  {
    forall k :: k in totals ==> totals[k] == SumWhere(lines[..n], InCategory(k, positiveOnly))
  }

  /**
   * The state of the grouping loop after the first `n` lines: `keys` holds each
   * counted category once, in first-seen order, and `totals` the sum of each.
   */
  ghost predicate Grouped(lines: seq<Line>, n: nat, positiveOnly: bool, keys: seq<string>, totals: map<string, real>)
    requires n <= |lines|
  {
    && Distinct(keys)
    && (forall k :: k in totals <==> k in keys)
    && KeysSeen(lines, n, positiveOnly, keys)
    && TotalsSoFar(lines, n, positiveOnly, totals)
    && SumBy(Entries(keys, totals), Value) == SumWhere(lines[..n], CountedLines(positiveOnly))
  }

  /** The seen categories after one more line: the same, or with the new line's category appended. */
  lemma KeysStep(lines: seq<Line>, n: nat, positiveOnly: bool, keys: seq<string>, keys': seq<string>)
    requires n < |lines| && KeysSeen(lines, n, positiveOnly, keys)
    requires keys' == (if Counted(lines[n], positiveOnly) && lines[n].category !in keys then keys + [lines[n].category] else keys)
    ensures KeysSeen(lines, n + 1, positiveOnly, keys')
  {
    forall k | k in keys'
      ensures exists i :: 0 <= i < n + 1 && Counted(lines[i], positiveOnly) && lines[i].category == k
    {
      if k in keys {
        var i :| 0 <= i < n && Counted(lines[i], positiveOnly) && lines[i].category == k;
      } else {
        assert k == lines[n].category;
      }
    }
  }

  /** A line that is not counted changes no category's total. */
  lemma TotalsSkip(lines: seq<Line>, n: nat, positiveOnly: bool, totals: map<string, real>)
    requires n < |lines| && TotalsSoFar(lines, n, positiveOnly, totals)
    requires !Counted(lines[n], positiveOnly)
    ensures TotalsSoFar(lines, n + 1, positiveOnly, totals)
  {
    SumWhereStep(lines, n);
  }

  /** A counted line of a category already met grows that category's total by its amount. */
  lemma TotalsAdd(lines: seq<Line>, n: nat, positiveOnly: bool, totals: map<string, real>)
    requires n < |lines| && TotalsSoFar(lines, n, positiveOnly, totals)
    requires Counted(lines[n], positiveOnly) && lines[n].category in totals
    ensures TotalsSoFar(lines, n + 1, positiveOnly, totals[lines[n].category := totals[lines[n].category] + lines[n].amount])
  {
    SumWhereStep(lines, n);
  }

  /** A counted line of a new category starts that category's total at its amount. */
  lemma TotalsNew(lines: seq<Line>, n: nat, positiveOnly: bool, keys: seq<string>, totals: map<string, real>)
    requires n < |lines| && KeysSeen(lines, n, positiveOnly, keys)
    requires (forall k :: k in totals <==> k in keys) && TotalsSoFar(lines, n, positiveOnly, totals)
    requires Counted(lines[n], positiveOnly) && lines[n].category !in totals
    ensures TotalsSoFar(lines, n + 1, positiveOnly, totals[lines[n].category := lines[n].amount])
  {
    SumWhereStep(lines, n);
    NewCategory(lines, n, keys, positiveOnly);
  }

  /** The counted lines among the first `n + 1`: those among the first `n`, and line `n` when it is counted. */
  lemma CountedStep(lines: seq<Line>, n: nat, positiveOnly: bool)
    requires n < |lines|
    ensures SumWhere(lines[..n + 1], CountedLines(positiveOnly)) ==
      SumWhere(lines[..n], CountedLines(positiveOnly)) + (if Counted(lines[n], positiveOnly) then Amount(lines[n]) else 0.0)
  {
    assert lines[..n + 1][..n] == lines[..n];
  }

  /** Adding `a` to the total of a category already listed adds `a` to the sum over the entries. */
  lemma EntriesSumAdd(keys: seq<string>, totals: map<string, real>, j: nat, a: real)
    requires Distinct(keys) && (forall k :: k in keys ==> k in totals) && j < |keys|
    ensures SumBy(Entries(keys, totals[keys[j] := totals[keys[j]] + a]), Value) == SumBy(Entries(keys, totals), Value) + a
  {
    var es, v := Entries(keys, totals), totals[keys[j]] + a;
    EntriesUpdate(keys, totals, j, v);
    SumByUpdate(es, j, Entry(keys[j], v), Value);
  }

  /** Listing a new category with total `a` adds `a` to the sum over the entries. */
  lemma EntriesSumNew(keys: seq<string>, totals: map<string, real>, c: string, a: real)
    requires (forall k :: k in totals <==> k in keys) && c !in totals
    ensures SumBy(Entries(keys + [c], totals[c := a]), Value) == SumBy(Entries(keys, totals), Value) + a
  {
    EntriesAppend(keys, totals, c, a);
    assert (Entries(keys, totals) + [Entry(c, a)])[..|keys|] == Entries(keys, totals);
  }

  /** A line that is not counted leaves the grouping as it is. */
  lemma GroupSkip(lines: seq<Line>, n: nat, positiveOnly: bool, keys: seq<string>, totals: map<string, real>)
    requires n < |lines| && Grouped(lines, n, positiveOnly, keys, totals)
    requires !Counted(lines[n], positiveOnly)
    ensures Grouped(lines, n + 1, positiveOnly, keys, totals)
  {
    KeysStep(lines, n, positiveOnly, keys, keys);
    TotalsSkip(lines, n, positiveOnly, totals);
    CountedStep(lines, n, positiveOnly);
  }

  /** A counted line of a category already met adds its amount to that category. */
  lemma GroupAdd(lines: seq<Line>, n: nat, positiveOnly: bool, keys: seq<string>, totals: map<string, real>)
    requires n < |lines| && Grouped(lines, n, positiveOnly, keys, totals)
    requires Counted(lines[n], positiveOnly) && lines[n].category in totals
    ensures Grouped(lines, n + 1, positiveOnly, keys, totals[lines[n].category := totals[lines[n].category] + lines[n].amount])
  {
    KeysStep(lines, n, positiveOnly, keys, keys);
    TotalsAdd(lines, n, positiveOnly, totals);
    EntriesAfterAdd(lines, n, positiveOnly, keys, totals);
  }

  /** The sum over the entries once a counted line of a category already met is added. */
  lemma EntriesAfterAdd(lines: seq<Line>, n: nat, positiveOnly: bool, keys: seq<string>, totals: map<string, real>)
    requires n < |lines| && Distinct(keys) && (forall k :: k in totals <==> k in keys)
    requires Counted(lines[n], positiveOnly) && lines[n].category in totals
    requires SumBy(Entries(keys, totals), Value) == SumWhere(lines[..n], CountedLines(positiveOnly))
    ensures SumBy(Entries(keys, totals[lines[n].category := totals[lines[n].category] + lines[n].amount]), Value)
      == SumWhere(lines[..n + 1], CountedLines(positiveOnly))
  {
    CountedStep(lines, n, positiveOnly);
    var j :| 0 <= j < |keys| && keys[j] == lines[n].category;
    EntriesSumAdd(keys, totals, j, lines[n].amount);
  }

  /** A counted line of a new category appends that category with the line's amount. */
  lemma GroupNew(lines: seq<Line>, n: nat, positiveOnly: bool, keys: seq<string>, totals: map<string, real>)
    requires n < |lines| && Grouped(lines, n, positiveOnly, keys, totals)
    requires Counted(lines[n], positiveOnly) && lines[n].category !in totals
    ensures Grouped(lines, n + 1, positiveOnly, keys + [lines[n].category], totals[lines[n].category := lines[n].amount])
  {
    var c := lines[n].category;
    var totals' := totals[c := lines[n].amount];
    assert KeysSeen(lines, n + 1, positiveOnly, keys + [c]) by {
      KeysStep(lines, n, positiveOnly, keys, keys + [c]);
    }
    TotalsNew(lines, n, positiveOnly, keys, totals);
    assert SumBy(Entries(keys + [c], totals'), Value) == SumWhere(lines[..n + 1], CountedLines(positiveOnly)) by {
      CountedStep(lines, n, positiveOnly);
      EntriesSumNew(keys, totals, c, lines[n].amount);
    }
    assert Distinct(keys + [c]);
  }

  /**
   * `rows.forEach(row => { if (counted) totals[category] = (totals[category] || 0) + amount })`.
   * `keys` is the order in which categories were first met.
   */
  method GroupTotals(lines: seq<Line>, positiveOnly: bool) returns (keys: seq<string>, totals: map<string, real>)
    ensures Distinct(keys)
    ensures forall k :: k in totals <==> k in keys
    ensures forall k :: k in keys <==> exists i :: 0 <= i < |lines| && Counted(lines[i], positiveOnly) && lines[i].category == k
    ensures forall k :: k in totals ==> totals[k] == SumWhere(lines, InCategory(k, positiveOnly))
    ensures SumBy(Entries(keys, totals), Value) == SumWhere(lines, CountedLines(positiveOnly))
  {
    keys, totals := [], map[];
    for n := 0 to |lines|
      invariant Grouped(lines, n, positiveOnly, keys, totals)
    {
      keys, totals := Tally(lines, n, positiveOnly, keys, totals);
    }
    GroupedAll(lines, positiveOnly, keys, totals);
  }

  /** The loop body for line `n`: a counted line adds its amount to its category, listing the category when new. */
  method Tally(lines: seq<Line>, n: nat, positiveOnly: bool, keys: seq<string>, totals: map<string, real>)
    returns (keys': seq<string>, totals': map<string, real>)
    requires n < |lines| && Grouped(lines, n, positiveOnly, keys, totals)
    ensures Grouped(lines, n + 1, positiveOnly, keys', totals')
  {
    var amount := lines[n].amount;
    var category := lines[n].category;
    keys', totals' := keys, totals;
    if !positiveOnly || amount > 0.0 {
      if category in totals {
        GroupAdd(lines, n, positiveOnly, keys, totals);
        totals' := totals[category := totals[category] + amount];
      } else {
        GroupNew(lines, n, positiveOnly, keys, totals);
        keys' := keys + [category];
        totals' := totals[category := amount];
      }
    } else {
      GroupSkip(lines, n, positiveOnly, keys, totals);
    }
  }

  /** After the last line the grouping covers the whole list. */
  lemma GroupedAll(lines: seq<Line>, positiveOnly: bool, keys: seq<string>, totals: map<string, real>)
    requires Grouped(lines, |lines|, positiveOnly, keys, totals)
    ensures Distinct(keys)
    ensures forall k :: k in totals <==> k in keys
    ensures forall k :: k in keys <==> exists i :: 0 <= i < |lines| && Counted(lines[i], positiveOnly) && lines[i].category == k
    ensures forall k :: k in totals ==> totals[k] == SumWhere(lines, InCategory(k, positiveOnly))
    ensures SumBy(Entries(keys, totals), Value) == SumWhere(lines, CountedLines(positiveOnly))
  {
    assert lines[..|lines|] == lines;
  }

  /** A category met for the first time has summed to nothing so far. */
  lemma NewCategory(lines: seq<Line>, n: nat, keys: seq<string>, positiveOnly: bool)
    requires n <= |lines|
    requires forall k :: k in keys <==> exists i :: 0 <= i < n && Counted(lines[i], positiveOnly) && lines[i].category == k
    requires n < |lines| && lines[n].category !in keys
    ensures SumWhere(lines[..n], InCategory(lines[n].category, positiveOnly)) == 0.0
  {
    var c := lines[n].category;
    forall i | 0 <= i < n
      ensures !InCategory(c, positiveOnly)(lines[..n][i])
    {
      assert lines[..n][i] == lines[i];
    }
    SumWhereNone(lines[..n], InCategory(c, positiveOnly));
  }

  /** An entry of `Object.entries(totals)` is a key with its total. */
  lemma EntriesMember(keys: seq<string>, totals: map<string, real>, e: Entry)
    requires forall k :: k in keys ==> k in totals
    ensures e in Entries(keys, totals) <==> e.name in keys && e.value == totals[e.name]
  {
    var es := Entries(keys, totals);
    if e.name in keys && e.value == totals[e.name] {
      var j :| 0 <= j < |keys| && keys[j] == e.name;
      assert es[j] == e;
    }
  }

  /** The labels of the entries are the keys. */
  lemma EntriesLabels(keys: seq<string>, totals: map<string, real>)
    requires forall k :: k in keys ==> k in totals
    ensures Labels(Entries(keys, totals)) == keys
  {
  }

  /** A category that met a positive amount, grouped over positive amounts only, has a positive total. */
  lemma CategoryTotalPositive(lines: seq<Line>, k: string)
    requires exists i :: 0 <= i < |lines| && Counted(lines[i], true) && lines[i].category == k
    ensures SumWhere(lines, InCategory(k, true)) > 0.0
  {
    var i :| 0 <= i < |lines| && Counted(lines[i], true) && lines[i].category == k;
    assert InCategory(k, true)(lines[i]);
    SumWherePositive(lines, InCategory(k, true));
  }

  /** A filter that keeps only non-positive amounts sums to a non-positive value. */
  lemma {:induction false} SumWhereNonPositive(lines: seq<Line>, p: Line -> bool)
    requires forall i :: 0 <= i < |lines| ==> p(lines[i]) ==> Amount(lines[i]) <= 0.0
    ensures SumWhere(lines, p) <= 0.0
  {
    if lines != [] {
      SumWhereNonPositive(lines[..|lines| - 1], p);
    }
  }

  /** The total of all amounts is at most the total of the positive ones, and equal when none is negative. */
  lemma TotalAtMostPositive(lines: seq<Line>)
    ensures Total(lines) <= SumWhere(lines, CountedLines(true))
    ensures (forall i :: 0 <= i < |lines| ==> Amount(lines[i]) >= 0.0) ==> Total(lines) == SumWhere(lines, CountedLines(true))
  {
    var notPositive := (l: Line) => Amount(l) <= 0.0;
    SumWhereSplit(lines, Always, CountedLines(true), notPositive);
    SumWhereNonPositive(lines, notPositive);
    if forall i :: 0 <= i < |lines| ==> Amount(lines[i]) >= 0.0 {
      var zero := (l: Line) => Amount(l) <= 0.0 && Amount(l) >= 0.0;
      SumWhereSame(lines, notPositive, zero);
      SumWhereZero(lines, zero);
    }
  }

  /** A filter that only keeps zero amounts sums to zero. */
  lemma {:induction false} SumWhereZero(lines: seq<Line>, p: Line -> bool)
    requires forall i :: 0 <= i < |lines| ==> p(lines[i]) ==> Amount(lines[i]) == 0.0
    ensures SumWhere(lines, p) == 0.0
  {
    if lines != [] {
      SumWhereZero(lines[..|lines| - 1], p);
    }
  }
}
