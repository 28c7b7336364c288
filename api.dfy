/**
 * The client-side sheet service: amount and date normalisation, tagging the
 * rows read from the Expenditure and Income tabs, reading the Categories tab,
 * and the append / delete-by-id / edit-by-id operations on a tab. A tab is an
 * in-memory sequence of data rows (the rows from A2 down); the Sheets API
 * calls that carry them are not modelled.
 */
module SheetApi {
  import opened Wrappers
  import opened Text
  import opened Dates

  /** A data row `[ID, Date, Amount, Description, Category]`; an absent cell reads as "". */
  datatype Row = Row(id: string, date: string, amount: string, desc: string, category: string)

  /** The two transaction kinds; each lives on its own tab. */
  datatype Kind = Expense | Income

  /** `type === "expense" ? "Expenditure" : "Income"`: anything but "expense" means income. */
  function KindOf(t: string): (k: Kind)
    ensures k == Expense <==> t == "expense"
  {
    if t == "expense" then Expense else Income
  }

  /** A row as `getExpenses`/`getIncomes` return it, with the kind as a sixth cell. */
  datatype Txn = Txn(row: Row, kind: Kind)

  /** The fields a form submits: `{date, amount, description, category}`. */
  datatype TxnData = TxnData(date: string, amount: string, description: string, category: string)

  // ---------------------------------------------------------------- dates

  /**
   * `toISODate`: "" stays "", a trimmed `dddd-dd-dd` is kept, a trimmed
   * string with exactly three `/`-separated parts `d/m/y` becomes
   * `y-mm-dd` (each part trimmed, day and month left-padded to two digits);
   * anything else comes back trimmed.
   */
  function ToISODate(s: string): (r: string)
    ensures s == "" ==> r == ""
    ensures IsIsoShape(Trim(s)) ==> r == Trim(s)
    ensures '/' !in Trim(s) ==> r == Trim(s)
    ensures s != "" && '/' in Trim(s) && |Split(Trim(s), '/')| != 3 ==> r == Trim(s)
    ensures s != "" && '/' in Trim(s) && |Split(Trim(s), '/')| == 3 ==>
      r == FromDayFirst(Split(Trim(s), '/')[0], Split(Trim(s), '/')[1], Split(Trim(s), '/')[2])
  {
    if s == "" then ""
    else
      var clean := Trim(s);
      assert '/' in clean ==> !IsIsoShape(clean) by {
        if '/' in clean { SlashNotShape(clean); }
      }
      NormalizeTrimmed(clean)
  }

  /** The conversion applied to the trimmed date. */
  function NormalizeTrimmed(clean: string): string
  {
    if IsIsoShape(clean) then clean
    else if '/' in clean then
      var parts := Split(clean, '/');
      if |parts| == 3 then FromDayFirst(parts[0], parts[1], parts[2]) else clean
    else clean
  }

  /** `${year.trim()}-${month.trim().padStart(2,'0')}-${day.trim().padStart(2,'0')}` */
  function FromDayFirst(day: string, month: string, year: string): string
  {
    Trim(year) + "-" + PadStart2(Trim(month)) + "-" + PadStart2(Trim(day))
  }

  /**
   * `toIndianDate`: "" stays "", a string with exactly three `-`-separated
   * parts `y-m-d` becomes `d/m/y`, anything else is returned unchanged.
   */
  function ToIndianDate(s: string): (r: string)
    ensures s == "" ==> r == ""
    ensures |Split(s, '-')| != 3 ==> r == s
    ensures IsIsoShape(s) ==> r == s[8..] + "/" + s[5..7] + "/" + s[..4]
  {
    if s == "" then ""
    else
      var parts := Split(s, '-');
      assert IsIsoShape(s) ==> parts == [s[..4], s[5..7], s[8..]] by {
        if IsIsoShape(s) { IsoParts(s); }
      }
      if |parts| == 3 then parts[2] + "/" + parts[1] + "/" + parts[0] else s
  }

  lemma ShapeHasNoSlash(s: string)
    requires IsIsoShape(s)
    ensures '/' !in s
  {
    forall i | 0 <= i < |s|
      ensures s[i] != '/'
    {
      if i < 4 {
        assert s[..4][i] == s[i];
      } else if 4 < i < 7 {
        assert s[5..7][i - 5] == s[i];
      } else if i > 7 {
        assert s[8..][i - 8] == s[i];
      }
    }
  }

  lemma SlashNotShape(s: string)
    requires '/' in s
    ensures !IsIsoShape(s)
  {
    if IsIsoShape(s) {
      ShapeHasNoSlash(s);
    }
  }

  lemma DigitsNoSpace(s: string)
    requires AllDigits(s)
    ensures Trim(s) == s
  {
    if s != [] {
      assert IsDigit(s[0]) && IsDigit(s[|s| - 1]);
    }
    TrimNoop(s);
  }

  lemma DigitsHaveNo(s: string, c: char)
    requires AllDigits(s) && !IsDigit(c)
    ensures c !in s
  {
  }

  /**
   * A day-first date `d/m/y` of digit parts (y non-empty) becomes `y-mm-dd`:
   * the day-first reading is unconditional.
   */
  lemma DayFirstSplit(d: string, m: string, y: string)
    requires AllDigits(d) && AllDigits(m) && AllDigits(y)
    ensures Split(d + "/" + m + "/" + y, '/') == [d, m, y]
  {
    Join3(d, m, y, '/');
    DigitsHaveNo(d, '/');
    DigitsHaveNo(m, '/');
    DigitsHaveNo(y, '/');
    SplitJoin([d, m, y], '/');
  }

  lemma DayFirstTrimmed(d: string, m: string, y: string)
    requires AllDigits(d) && AllDigits(y) && y != []
    ensures Trim(d + "/" + m + "/" + y) == d + "/" + m + "/" + y
  {
    var s := d + "/" + m + "/" + y;
    assert s[|s| - 1] == y[|y| - 1];
    assert s[0] == '/' || s[0] == d[0];
    TrimNoop(s);
  }

  lemma DayFirstSlash(d: string, m: string, y: string)
    ensures var s := d + "/" + m + "/" + y; s != [] && '/' in s && !IsIsoShape(s)
  {
    var s := d + "/" + m + "/" + y;
    assert s[|d|] == '/';
    SlashNotShape(s);
  }

  lemma TrimmedStep(s: string)
    requires s != [] && Trim(s) == s
    ensures ToISODate(s) == NormalizeTrimmed(s)
  {
  }

  lemma SplitStep(s: string, d: string, m: string, y: string)
    requires !IsIsoShape(s) && '/' in s && Split(s, '/') == [d, m, y]
    ensures NormalizeTrimmed(s) == FromDayFirst(d, m, y)
  {
  }

  lemma DigitsStep(d: string, m: string, y: string)
    requires AllDigits(d) && AllDigits(m) && AllDigits(y)
    ensures FromDayFirst(d, m, y) == y + "-" + PadStart2(m) + "-" + PadStart2(d)
  {
    DigitsNoSpace(d);
    DigitsNoSpace(m);
    DigitsNoSpace(y);
  }

  /**
   * A day-first date `d/m/y` of digit parts (y non-empty) becomes `y-mm-dd`:
   * the day-first reading is unconditional.
   */
  lemma {:induction false} ToISODateDayFirst(d: string, m: string, y: string)
    requires AllDigits(d) && AllDigits(m) && AllDigits(y) && y != []
    ensures ToISODate(d + "/" + m + "/" + y) == y + "-" + PadStart2(m) + "-" + PadStart2(d)
  {
    var s := d + "/" + m + "/" + y;
    DayFirstSplit(d, m, y);
    DayFirstTrimmed(d, m, y);
    DayFirstSlash(d, m, y);
    TrimmedStep(s);
    SplitStep(s, d, m, y);
    DigitsStep(d, m, y);
  }

  lemma IsoParts(s: string)
    requires IsIsoShape(s)
    ensures Split(s, '-') == [s[..4], s[5..7], s[8..]]
    ensures s == s[..4] + "-" + s[5..7] + "-" + s[8..]
  {
    DigitsHaveNo(s[..4], '-');
    DigitsHaveNo(s[5..7], '-');
    DigitsHaveNo(s[8..], '-');
    Join3(s[..4], s[5..7], s[8..], '-');
    assert s == s[..4] + "-" + s[5..7] + "-" + s[8..];
    SplitJoin([s[..4], s[5..7], s[8..]], '-');
  }

  /** Storing an ISO date in day-first form and normalising it back gives the same ISO date. */
  lemma IndianIsoRoundTrip(s: string)
    requires IsIsoShape(s)
    ensures ToISODate(ToIndianDate(s)) == s
  {
    var y, m, d := s[..4], s[5..7], s[8..];
    IsoParts(s);
    assert ToIndianDate(s) == d + "/" + m + "/" + y;
    assert ToISODate(d + "/" + m + "/" + y) == y + "-" + m + "-" + d by {
      ToISODateDayFirst(d, m, y);
    }
  }

  /** A trimmed result has no space at either end. */
  lemma TrimEnds(s: string)
    ensures var t := Trim(s); t == [] || (!IsSpace(t[0]) && !IsSpace(t[|t| - 1]))
  {
    var u := TrimStart(s);
    var t := TrimEnd(u);
    if t != [] {
      assert t[0] == u[0];
    }
  }

  lemma PadEndNotSpace(t: string)
    requires t == [] || !IsSpace(t[|t| - 1])
    ensures var p := PadStart2(t); !IsSpace(p[|p| - 1])
  {
    var p := PadStart2(t);
    if |t| == 0 {
      assert p[1] == '0';
    } else if |t| == 1 {
      assert p[1..] == t;
      assert p[1] == t[0];
    }
  }

  lemma FromDayFirstNoSlash(day: string, month: string, year: string)
    requires '/' !in day && '/' !in month && '/' !in year
    ensures '/' !in FromDayFirst(day, month, year)
  {
    TrimSubstring(year);
    TrimSubstring(month);
    TrimSubstring(day);
    PadKeeps(Trim(month), '/');
    PadKeeps(Trim(day), '/');
  }

  lemma JoinedTrimmed(y: string, m: string, d: string)
    requires y == [] || !IsSpace(y[0])
    requires d != [] && !IsSpace(d[|d| - 1])
    ensures Trim(y + "-" + m + "-" + d) == y + "-" + m + "-" + d
  {
    var r := y + "-" + m + "-" + d;
    assert r[0] == if y == [] then '-' else y[0];
    assert r[|r| - 1] == d[|d| - 1];
    TrimNoop(r);
  }

  lemma FromDayFirstTrimmed(day: string, month: string, year: string)
    ensures Trim(FromDayFirst(day, month, year)) == FromDayFirst(day, month, year)
  {
    TrimEnds(year);
    TrimEnds(day);
    PadEndNotSpace(Trim(day));
    JoinedTrimmed(Trim(year), PadStart2(Trim(month)), PadStart2(Trim(day)));
  }

  /** A trimmed string is already in its final form once it is normalised. */
  lemma NormalizedFixed(clean: string)
    requires Trim(clean) == clean
    ensures ToISODate(NormalizeTrimmed(clean)) == NormalizeTrimmed(clean)
  {
    if !IsIsoShape(clean) && '/' in clean {
      var parts := Split(clean, '/');
      if |parts| == 3 {
        var r := FromDayFirst(parts[0], parts[1], parts[2]);
        FromDayFirstNoSlash(parts[0], parts[1], parts[2]);
        FromDayFirstTrimmed(parts[0], parts[1], parts[2]);
      }
    }
  }

  /** Normalising twice is normalising once. */
  lemma ToISODateIdempotent(s: string)
    ensures ToISODate(ToISODate(s)) == ToISODate(s)
  {
    if s != "" {
      TrimIdempotent(s);
      NormalizedFixed(Trim(s));
    }
  }

  lemma TrimSubstring(s: string)
    ensures forall c :: c in Trim(s) ==> c in s
  {
    var u := TrimStart(s);
    assert forall c :: c in Trim(s) ==> c in u;
  }

  lemma PadKeeps(s: string, c: char)
    requires c != '0' && c !in s
    ensures c !in PadStart2(s)
  {
  }

  // ---------------------------------------------------------------- reading

  /** One data row as the readers return it: the date normalised, every other cell kept. */
  function Normalize(r: Row): Row
  {
    r.(date := ToISODate(r.date))
  }

  /**
   * `getExpenses` / `getIncomes`: one tagged row per data row, in order; only
   * the date is rewritten and the kind is attached.
   */
  function Tag(rows: seq<Row>, kind: Kind): (txns: seq<Txn>)
    ensures |txns| == |rows|
    ensures forall i :: 0 <= i < |rows| ==>
      && txns[i].kind == kind
      && txns[i].row.date == ToISODate(rows[i].date)
      && txns[i].row == rows[i].(date := txns[i].row.date)
  {
    seq(|rows|, i requires 0 <= i < |rows| => Txn(Normalize(rows[i]), kind))
  }

  function Rows(txns: seq<Txn>): (rows: seq<Row>)
    ensures |rows| == |txns| && forall i :: 0 <= i < |txns| ==> rows[i] == txns[i].row
  {
    seq(|txns|, i requires 0 <= i < |txns| => txns[i].row)
  }

  /** Reading rows that were already read changes nothing: the normalised dates are stable. */
  lemma TagStable(rows: seq<Row>, kind: Kind)
    ensures Tag(Rows(Tag(rows, kind)), kind) == Tag(rows, kind)
  {
    var once := Tag(rows, kind);
    var twice := Tag(Rows(once), kind);
    forall i | 0 <= i < |rows| ensures twice[i] == once[i] {
      ToISODateIdempotent(rows[i].date);
    }
  }

  // ---------------------------------------------------------------- categories

  /** A Categories-tab row `[Category, Icon, Type]`. */
  datatype CategoryRow = CategoryRow(name: string, icon: string, typ: string)

  datatype Category = Category(name: string, icon: string)

  datatype CategoryLists = CategoryLists(expenses: seq<Category>, incomes: seq<Category>)

  /** The rows of an exact type, in sheet order, as `{name, icon}`. */
  function OfType(rows: seq<CategoryRow>, t: string): (cats: seq<Category>)
    ensures |cats| <= |rows|
  {
    if rows == [] then []
    else
      var last := rows[|rows| - 1];
      OfType(rows[..|rows| - 1], t) + (if last.typ == t then [Category(last.name, last.icon)] else [])
  }

  /** The list a type yields holds exactly the rows of that type. */
  lemma {:induction false} OfTypeMembers(rows: seq<CategoryRow>, t: string, c: Category)
    ensures c in OfType(rows, t) <==> CategoryRow(c.name, c.icon, t) in rows
  {
    if rows != [] {
      var init := rows[..|rows| - 1];
      OfTypeMembers(init, t, c);
      assert rows == init + [rows[|rows| - 1]];
    }
  }

  /** The list of a concatenation is the concatenation of the lists. */
  lemma {:induction false} OfTypeAppend(a: seq<CategoryRow>, b: seq<CategoryRow>, t: string)
    ensures OfType(a + b, t) == OfType(a, t) + OfType(b, t)
  {
    if b != [] {
      var init := b[..|b| - 1];
      OfTypeAppend(a, init, t);
      assert (a + b)[..|a + b| - 1] == a + init;
    } else {
      assert a + b == a;
    }
  }

  /** When every row has the type, every row is listed. */
  lemma {:induction false} OfTypeAll(rows: seq<CategoryRow>, t: string)
    requires forall i :: 0 <= i < |rows| ==> rows[i].typ == t
    ensures |OfType(rows, t)| == |rows|
  {
    if rows != [] {
      OfTypeAll(rows[..|rows| - 1], t);
    }
  }

  /** When no row has the type, nothing is listed. */
  lemma {:induction false} OfTypeNone(rows: seq<CategoryRow>, t: string)
    requires forall i :: 0 <= i < |rows| ==> rows[i].typ != t
    ensures OfType(rows, t) == []
  {
    if rows != [] {
      OfTypeNone(rows[..|rows| - 1], t);
    }
  }

  /** Expense and income lists together never hold more entries than the sheet has rows. */
  lemma {:induction false} OfTypeCounts(rows: seq<CategoryRow>)
    ensures |OfType(rows, "expense")| + |OfType(rows, "income")| <= |rows|
  {
    if rows != [] {
      OfTypeCounts(rows[..|rows| - 1]);
    }
  }

  /** The fallback when the tab holds no expense and no income category. */
  const FallbackCategories := CategoryLists([Category("Food", "🍔")], [Category("Salary", "💰")])

  /**
   * `getCategories`: `read` is the Categories tab from A2 down, or None when
   * the request failed (the error is caught and two empty lists come back).
   */
  method GetCategories(read: Option<seq<CategoryRow>>) returns (lists: CategoryLists)
    ensures read.None? ==> lists == CategoryLists([], [])
    ensures read.Some? ==>
      var e, i := OfType(read.value, "expense"), OfType(read.value, "income");
      lists == if e == [] && i == [] then FallbackCategories else CategoryLists(e, i)
  {
    if read.None? {
      return CategoryLists([], []);
    }
    var rows := read.value;
    var expenses: seq<Category> := [];
    var incomes: seq<Category> := [];
    for n := 0 to |rows|
      invariant expenses == OfType(rows[..n], "expense")
      invariant incomes == OfType(rows[..n], "income")
    {
      assert rows[..n + 1][..n] == rows[..n];
      var row := rows[n];
      if row.typ == "expense" { expenses := expenses + [Category(row.name, row.icon)]; }
      if row.typ == "income" { incomes := incomes + [Category(row.name, row.icon)]; }
    }
    assert rows[..|rows|] == rows;
    if |expenses| == 0 && |incomes| == 0 {
      return FallbackCategories;
    }
    lists := CategoryLists(expenses, incomes);
  }

  // ---------------------------------------------------------------- rows by id

  /** `findIndex(row => row[0] === id)`: the first row with that id, or -1. */
  function FindIndex(rows: seq<Row>, id: string): (k: int)
    ensures -1 <= k < |rows|
    ensures k == -1 <==> forall j :: 0 <= j < |rows| ==> rows[j].id != id
    ensures k >= 0 ==> rows[k].id == id && forall j :: 0 <= j < k ==> rows[j].id != id
  {
    if rows == [] then -1
    else if rows[0].id == id then 0
    else
      var k := FindIndex(rows[1..], id);
      if k == -1 then -1 else k + 1
  }

  /** The A1-notation row number of data row `k` (row 1 is the header): `rowIndex + 2`. */
  function A1RowNumber(k: nat): nat { k + 2 }

  /**
   * A `deleteDimension` of grid rows [start, start + 1): grid indices are
   * 0-based and grid row 0 is the header, so grid row `g` holds data row
   * `g - 1`. Grid rows below the data are blank, and deleting one leaves the
   * data as it was.
   */
  function DeleteGridRow(rows: seq<Row>, start: nat): seq<Row>
    requires start >= 1
  {
    var k := start - 1;
    if k < |rows| then rows[..k] + rows[k + 1..] else rows
  }

  /** The 0-based grid index of data row `k`, which a delete request must name. */
  function GridIndex(k: nat): nat { k + 1 }

  /** `deleteRowById` as written: the request names grid row `rowIndex + 2`. */
  function DeleteByIdAsWritten(rows: seq<Row>, id: string): seq<Row>
  {
    var k := FindIndex(rows, id);
    if k == -1 then rows else DeleteGridRow(rows, A1RowNumber(k))
  }

  /**
   * As written, the row found is kept: the row after it is removed instead,
   * and when the row found is the last one nothing is removed at all.
   */
  lemma DeleteAsWrittenMissesTarget(rows: seq<Row>, id: string)
    requires FindIndex(rows, id) >= 0
    ensures var k := FindIndex(rows, id);
      k + 1 < |rows| ==> DeleteByIdAsWritten(rows, id) == rows[..k + 1] + rows[k + 2..]
    ensures FindIndex(rows, id) == |rows| - 1 ==> DeleteByIdAsWritten(rows, id) == rows
    ensures FindIndex(DeleteByIdAsWritten(rows, id), id) == FindIndex(rows, id)
  {
    var k := FindIndex(rows, id);
    var r := DeleteByIdAsWritten(rows, id);
    assert r[..k + 1] == rows[..k + 1];
    assert r[k].id == id;
  }

  /** `deleteRowById` as intended: the first row with the id is removed, or nothing when none has it. */
  function DeleteById(rows: seq<Row>, id: string): (r: seq<Row>)
    ensures FindIndex(rows, id) == -1 ==> r == rows
    ensures FindIndex(rows, id) >= 0 ==>
      var k := FindIndex(rows, id); |r| == |rows| - 1 && r == rows[..k] + rows[k + 1..]
  {
    var k := FindIndex(rows, id);
    if k == -1 then rows else DeleteGridRow(rows, GridIndex(k))
  }

  /** Deleting removes exactly one row holding the id, and keeps every other row. */
  lemma DeleteRemovesOne(rows: seq<Row>, id: string)
    requires FindIndex(rows, id) >= 0
    ensures var k := FindIndex(rows, id);
      multiset(DeleteById(rows, id)) + multiset{rows[k]} == multiset(rows) && rows[k].id == id
  {
    var k := FindIndex(rows, id);
    assert DeleteById(rows, id) == rows[..k] + rows[k + 1..];
    RemoveAtCounts(rows, k);
  }

  /** Removing the element at `k` lowers its count by one and keeps every other count. */
  lemma RemoveAtCounts(rows: seq<Row>, k: nat)
    requires k < |rows|
    ensures multiset(rows[..k] + rows[k + 1..]) + multiset{rows[k]} == multiset(rows)
  {
    var front, back := rows[..k], rows[k + 1..];
    assert rows == front + [rows[k]] + back;
    assert multiset(rows) == multiset(front) + multiset{rows[k]} + multiset(back);
  }

  /** `editTransaction`'s replacement: the first row with the id becomes the new data under the same id. */
  function EditById(rows: seq<Row>, id: string, data: TxnData): (r: seq<Row>)
    ensures |r| == |rows|
    ensures FindIndex(rows, id) == -1 ==> r == rows
    ensures FindIndex(rows, id) >= 0 ==>
      var k := FindIndex(rows, id);
      r[k] == Row(id, data.date, data.amount, data.description, data.category)
      && forall j :: 0 <= j < |rows| && j != k ==> r[j] == rows[j]
  {
    var k := FindIndex(rows, id);
    if k == -1 then rows
    else rows[k := Row(id, data.date, data.amount, data.description, data.category)]
  }

  /** Editing keeps every row's id, so the edited row is still found at the same place. */
  lemma EditKeepsIds(rows: seq<Row>, id: string, data: TxnData, other: string)
    ensures FindIndex(EditById(rows, id, data), other) == FindIndex(rows, other)
  {
    var r := EditById(rows, id, data);
    assert forall j :: 0 <= j < |rows| ==> r[j].id == rows[j].id;
    FindIndexSameIds(rows, r, other);
  }

  lemma {:induction false} FindIndexSameIds(a: seq<Row>, b: seq<Row>, id: string)
    requires |a| == |b| && forall j :: 0 <= j < |a| ==> a[j].id == b[j].id
    ensures FindIndex(a, id) == FindIndex(b, id)
  {
    if a != [] && a[0].id != id {
      FindIndexSameIds(a[1..], b[1..], id);
    }
  }

  /** A row appended under a fresh id is found at the end, and deleting it restores the tab. */
  lemma AppendThenDelete(rows: seq<Row>, r: Row)
    requires forall j :: 0 <= j < |rows| ==> rows[j].id != r.id
    ensures FindIndex(rows + [r], r.id) == |rows|
    ensures DeleteById(rows + [r], r.id) == rows
  {
    var all := rows + [r];
    assert all[|rows|].id == r.id;
    assert forall j :: 0 <= j < |rows| ==> all[j].id != r.id;
    assert all[..|rows|] == rows;
  }

  /**
   * The spreadsheet's three tabs. Each method changes one tab the way the
   * corresponding service call does.
   */
  class Workbook {
    var expenditure: seq<Row>
    var income: seq<Row>
    var categories: seq<CategoryRow>

    constructor (expenditure: seq<Row>, income: seq<Row>, categories: seq<CategoryRow>)
      ensures this.expenditure == expenditure && this.income == income
      ensures this.categories == categories
    {
      this.expenditure := expenditure;
      this.income := income;
      this.categories := categories;
    }

    function Tab(kind: Kind): seq<Row>
      reads this
    {
      if kind == Expense then expenditure else income
    }

    /**
     * `addRow`: append `[freshId, date, amount, description, category]` and
     * return the id; `freshId` stands for `crypto.randomUUID()`.
     */
    method AddRow(kind: Kind, date: string, amount: string, desc: string, category: string, freshId: string)
      returns (id: string)
      modifies this
      ensures id == freshId
      ensures Tab(kind) == old(Tab(kind)) + [Row(freshId, date, amount, desc, category)]
      ensures kind == Expense ==> income == old(income)
      ensures kind == Income ==> expenditure == old(expenditure)
      ensures categories == old(categories)
    {
      var row := Row(freshId, date, amount, desc, category);
      if kind == Expense {
        expenditure := expenditure + [row];
      } else {
        income := income + [row];
      }
      id := freshId;
    }

    /** `addExpense` / `addIncome`: the date is stored day-first. */
    method Add(kind: Kind, data: TxnData, freshId: string)
      modifies this
      ensures Tab(kind) == old(Tab(kind))
        + [Row(freshId, ToIndianDate(data.date), data.amount, data.description, data.category)]
      ensures kind == Expense ==> income == old(income)
      ensures kind == Income ==> expenditure == old(expenditure)
      ensures categories == old(categories)
    {
      var _ := AddRow(kind, ToIndianDate(data.date), data.amount, data.description, data.category, freshId);
    }

    /**
     * `deleteTransaction(type, id)` with the corrected delete request: the row
     * is addressed by its own grid index. The request as written addresses
     * the next row; `DeleteAsWrittenMissesTarget` states what that does.
     */
    method DeleteTransaction(t: string, id: string)
      modifies this
      ensures Tab(KindOf(t)) == DeleteById(old(Tab(KindOf(t))), id)
      ensures KindOf(t) == Expense ==> income == old(income)
      ensures KindOf(t) == Income ==> expenditure == old(expenditure)
      ensures categories == old(categories)
    {
      var kind := KindOf(t);
      var rows := Tab(kind);
      var k := FindIndex(rows, id);
      if k == -1 {
        return;
      }
      var updated := DeleteGridRow(rows, GridIndex(k));
      if kind == Expense {
        expenditure := updated;
      } else {
        income := updated;
      }
    }

    /** `editTransaction(type, id, data)`: overwrite row A{rowIndex+2}:E{rowIndex+2}, keeping the id. */
    method EditTransaction(t: string, id: string, data: TxnData)
      modifies this
      ensures Tab(KindOf(t)) == EditById(old(Tab(KindOf(t))), id, data)
      ensures KindOf(t) == Expense ==> income == old(income)
      ensures KindOf(t) == Income ==> expenditure == old(expenditure)
      ensures categories == old(categories)
    {
      var kind := KindOf(t);
      var rows := Tab(kind);
      var k := FindIndex(rows, id);
      if k == -1 {
        return;
      }
      var updated := rows[k := Row(id, data.date, data.amount, data.description, data.category)];
      if kind == Expense {
        expenditure := updated;
      } else {
        income := updated;
      }
    }

    /** `addCategory(type, category, icon)`: append `[category, icon, type]` to the Categories tab. */
    method AddCategory(t: string, name: string, icon: string)
      modifies this
      ensures categories == old(categories) + [CategoryRow(name, icon, t)]
      ensures expenditure == old(expenditure) && income == old(income)
    {
      categories := categories + [CategoryRow(name, icon, t)];
    }
  }

  /** A transaction added through the form reads back with the date it was entered with. */
  lemma AddedReadsBack(rows: seq<Row>, kind: Kind, data: TxnData, freshId: string)
    requires IsIsoShape(data.date)
    ensures var txns := Tag(rows + [Row(freshId, ToIndianDate(data.date), data.amount, data.description, data.category)], kind);
      txns[|rows|] == Txn(Row(freshId, data.date, data.amount, data.description, data.category), kind)
  {
    IndianIsoRoundTrip(data.date);
  }
}
