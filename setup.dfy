/**
 * Spreadsheet discovery, creation and repair. The Drive and Sheets calls are
 * not modelled; instead the methods here compute the requests the service
 * sends, from the tab titles and cell values it has read, and from the ids
 * `crypto.randomUUID()` would produce, which are passed in.
 */
module SheetSetup {
  import opened Wrappers
  import opened Text
  import opened SheetApi

  /** The cell grid of one tab, row 0 being the header row; a row may be shorter than the tab. */
  type Grid = seq<seq<string>>

  const SpreadsheetName := "My_Finance_Data"

  const TxnHeaders: seq<string> := ["ID", "Date", "Amount", "Description", "Category"]
  const CategoryHeaders: seq<string> := ["Category", "Icon", "Type"]

  /** The categories a new spreadsheet starts with: the expense ones, then the income ones. */
  const DefaultExpenseCategories: seq<CategoryRow> := [
    CategoryRow("Food", "🍔", "expense"),
    CategoryRow("Transport", "🚗", "expense"),
    CategoryRow("Shopping", "🛍️", "expense"),
    CategoryRow("Entertainment", "🎬", "expense"),
    CategoryRow("Bills", "💡", "expense"),
    CategoryRow("Health", "💊", "expense"),
    CategoryRow("Investments", "📈", "expense"),
    CategoryRow("Lend", "🤝", "expense")
  ]

  const DefaultIncomeCategories: seq<CategoryRow> := [
    CategoryRow("Salary", "💰", "income"),
    CategoryRow("Business", "💼", "income"),
    CategoryRow("Freelance", "💻", "income"),
    CategoryRow("Investments", "📈", "income"),
    CategoryRow("Return(Lend)", "🤝", "income")
  ]

  const DefaultCategories: seq<CategoryRow> := DefaultExpenseCategories + DefaultIncomeCategories

  /** The default set: 13 rows, 8 expense and 5 income, with the lending pair on both sides. */
  lemma DefaultCategoryCounts()
    ensures |DefaultCategories| == 13
    ensures |OfType(DefaultCategories, "expense")| == 8
    ensures |OfType(DefaultCategories, "income")| == 5
    ensures CategoryRow("Lend", "🤝", "expense") in DefaultCategories
    ensures CategoryRow("Return(Lend)", "🤝", "income") in DefaultCategories
  {
    var front, back := DefaultExpenseCategories, DefaultIncomeCategories;
    OfTypeAppend(front, back, "expense");
    OfTypeAppend(front, back, "income");
    OfTypeAll(front, "expense");
    OfTypeNone(front, "income");
    OfTypeAll(back, "income");
    OfTypeNone(back, "expense");
    assert front[7] == CategoryRow("Lend", "🤝", "expense");
    assert back[4] == CategoryRow("Return(Lend)", "🤝", "income");
    assert DefaultCategories[7] == front[7] && DefaultCategories[12] == back[4];
  }

  /** Category rows as the cell values written to the sheet: `[name, icon, type]`. */
  function CategoryCells(rows: seq<CategoryRow>): (cells: Grid)
    ensures |cells| == |rows|
    ensures forall i :: 0 <= i < |rows| ==> cells[i] == [rows[i].name, rows[i].icon, rows[i].typ]
  {
    seq(|rows|, i requires 0 <= i < |rows| => [rows[i].name, rows[i].icon, rows[i].typ])
  }

  /** One entry of a `values.batchUpdate`: a range in A1 notation and the rows written there. */
  datatype ValueRange = ValueRange(range: string, values: Grid)

  /** A request the service sends: `addSheet` requests in one `batchUpdate`, or a `values.batchUpdate`. */
  datatype Call = AddSheets(titles: seq<string>) | WriteValues(data: seq<ValueRange>)

  /** The `values.batchUpdate` that follows `spreadsheets.create`. */
  const CreateWrites: seq<ValueRange> := [
    ValueRange("Expenditure!A1:E1", [TxnHeaders]),
    ValueRange("Income!A1:E1", [TxnHeaders]),
    ValueRange("Categories!A1:C1", [CategoryHeaders]),
    ValueRange("Categories!A2:C15", CategoryCells(DefaultCategories))
  ]

  datatype RequiredSheet = RequiredSheet(title: string, headers: seq<string>)

  /** The three tabs the app needs, in the order they are checked. */
  const RequiredSheets: seq<RequiredSheet> := [
    RequiredSheet("Expenditure", TxnHeaders),
    RequiredSheet("Income", TxnHeaders),
    RequiredSheet("Categories", CategoryHeaders)
  ]

  /** The titles of the required tabs that are not among the existing titles, in order. */
  function MissingTitles(sheets: seq<RequiredSheet>, existing: seq<string>): seq<string>
  {
    if sheets == [] then []
    else
      var last := sheets[|sheets| - 1];
      MissingTitles(sheets[..|sheets| - 1], existing) + (if last.title in existing then [] else [last.title])
  }

  /** The header row of each missing tab, and the default categories right after the Categories header. */
  function HeaderWrites(sheets: seq<RequiredSheet>, existing: seq<string>): seq<ValueRange>
  {
    if sheets == [] then []
    else
      var last := sheets[|sheets| - 1];
      HeaderWrites(sheets[..|sheets| - 1], existing) + TabWrites(last, existing)
  }

  /** What creating one tab writes: its header row and, for Categories, the default categories. */
  function TabWrites(sheet: RequiredSheet, existing: seq<string>): seq<ValueRange>
  {
    if sheet.title in existing then []
    else
      [ValueRange(sheet.title + "!A1", [sheet.headers])]
      + (if sheet.title == "Categories" then [ValueRange("Categories!A2", CategoryCells(DefaultCategories))] else [])
  }

  /** A title is planned for creation exactly when a required tab has it and no existing tab does. */
  lemma {:induction false} MissingTitlesSpec(sheets: seq<RequiredSheet>, existing: seq<string>, t: string)
    ensures t in MissingTitles(sheets, existing) <==> t !in existing && exists s :: s in sheets && s.title == t
  {
    if sheets != [] {
      var init := sheets[..|sheets| - 1];
      MissingTitlesSpec(init, existing, t);
      assert sheets == init + [sheets[|sheets| - 1]];
    }
  }

  /** Nothing is written exactly when nothing is missing. */
  lemma {:induction false} NothingMissing(sheets: seq<RequiredSheet>, existing: seq<string>)
    ensures MissingTitles(sheets, existing) == [] <==> HeaderWrites(sheets, existing) == []
  {
    if sheets != [] {
      NothingMissing(sheets[..|sheets| - 1], existing);
    }
  }

  /** Different titles have different header cells, and none is the default-categories cell. */
  lemma HeaderCellsDistinct(a: string, b: string)
    requires a != b
    ensures a + "!A1" != b + "!A1" && a + "!A1" != "Categories!A2"
  {
    var x, y := a + "!A1", b + "!A1";
    assert x[..|a|] == a && y[..|b|] == b;
    assert x[|x| - 1] == '1';
    assert "Categories!A2"[12] == '2';
  }

  /** A tab that is not among the required ones never gets a header write. */
  lemma {:induction false} NoHeaderFor(sheets: seq<RequiredSheet>, existing: seq<string>, title: string, v: Grid)
    requires forall i :: 0 <= i < |sheets| ==> sheets[i].title != title
    ensures ValueRange(title + "!A1", v) !in HeaderWrites(sheets, existing)
  {
    if sheets != [] {
      var last := sheets[|sheets| - 1];
      NoHeaderFor(sheets[..|sheets| - 1], existing, title, v);
      HeaderCellsDistinct(title, last.title);
    }
  }

  /** A header row is written for a required tab exactly when that tab is missing. */
  lemma {:induction false} HeaderWritesSpec(sheets: seq<RequiredSheet>, existing: seq<string>, s: RequiredSheet)
    requires forall i, j :: 0 <= i < j < |sheets| ==> sheets[i].title != sheets[j].title
    requires s in sheets
    ensures ValueRange(s.title + "!A1", [s.headers]) in HeaderWrites(sheets, existing) <==> s.title !in existing
  {
    var init := sheets[..|sheets| - 1];
    var last := sheets[|sheets| - 1];
    assert sheets == init + [last];
    if s == last {
      NoHeaderFor(init, existing, s.title, [s.headers]);
    } else {
      var k :| 0 <= k < |init| && init[k] == s;
      assert sheets[k] == s;
      HeaderCellsDistinct(s.title, last.title);
      HeaderWritesSpec(init, existing, s);
    }
  }

  /** The plan for the three required tabs, one tab after the other. */
  lemma RequiredWrites(existing: seq<string>)
    ensures HeaderWrites(RequiredSheets, existing) ==
      TabWrites(RequiredSheets[0], existing) + TabWrites(RequiredSheets[1], existing) + TabWrites(RequiredSheets[2], existing)
  {
    var e, i, c := RequiredSheets[0], RequiredSheets[1], RequiredSheets[2];
    assert RequiredSheets[..1][..0] == [];
    assert HeaderWrites(RequiredSheets[..1], existing) == TabWrites(e, existing);
    assert RequiredSheets[..2][..1] == RequiredSheets[..1];
    assert HeaderWrites(RequiredSheets[..2], existing) == TabWrites(e, existing) + TabWrites(i, existing);
    assert RequiredSheets[..3][..2] == RequiredSheets[..2];
    assert RequiredSheets[..3] == RequiredSheets;
  }

  /** For the three required tabs: what is created and what is written, given the existing titles. */
  lemma RequiredPlan(existing: seq<string>)
    ensures forall t :: t in MissingTitles(RequiredSheets, existing) <==>
      t !in existing && (t == "Expenditure" || t == "Income" || t == "Categories")
    ensures ValueRange("Categories!A2", CategoryCells(DefaultCategories)) in HeaderWrites(RequiredSheets, existing)
      <==> "Categories" !in existing
  {
    forall t
      ensures t in MissingTitles(RequiredSheets, existing) <==>
        t !in existing && (t == "Expenditure" || t == "Income" || t == "Categories")
    {
      MissingTitlesSpec(RequiredSheets, existing, t);
      if t in MissingTitles(RequiredSheets, existing) {
        var s :| s in RequiredSheets && s.title == t;
        assert s == RequiredSheets[0] || s == RequiredSheets[1] || s == RequiredSheets[2];
      }
      if t == "Expenditure" || t == "Income" || t == "Categories" {
        var k := if t == "Expenditure" then 0 else if t == "Income" then 1 else 2;
        assert RequiredSheets[k].title == t;
      }
    }
    RequiredWrites(existing);
    var d := ValueRange("Categories!A2", CategoryCells(DefaultCategories));
    HeaderCellsDistinct("Expenditure", "Categories");
    HeaderCellsDistinct("Income", "Categories");
    assert d !in TabWrites(RequiredSheets[0], existing);
    assert d !in TabWrites(RequiredSheets[1], existing);
  }

  /**
   * The structural half of `checkAndFixSheetIds`: one `addSheet` request per
   * missing tab, then, only if any was created, its header row and (for
   * Categories) the default categories.
   */
  method PlanStructure(existing: seq<string>) returns (requests: seq<string>, dataUpdates: seq<ValueRange>)
    ensures requests == MissingTitles(RequiredSheets, existing)
    ensures dataUpdates == HeaderWrites(RequiredSheets, existing)
  {
    requests := [];
    for n := 0 to |RequiredSheets|
      invariant requests == MissingTitles(RequiredSheets[..n], existing)
    {
      assert RequiredSheets[..n + 1][..n] == RequiredSheets[..n];
      var sheet := RequiredSheets[n];
      if sheet.title !in existing {
        requests := requests + [sheet.title];
      }
    }
    assert RequiredSheets[..|RequiredSheets|] == RequiredSheets;
    dataUpdates := [];
    if |requests| > 0 {
      for n := 0 to |RequiredSheets|
        invariant dataUpdates == HeaderWrites(RequiredSheets[..n], existing)
      {
        assert RequiredSheets[..n + 1][..n] == RequiredSheets[..n];
        var sheet := RequiredSheets[n];
        if sheet.title !in existing {
          var header := ValueRange(sheet.title + "!A1", [sheet.headers]);
          if sheet.title == "Categories" {
            var defaults := ValueRange("Categories!A2", CategoryCells(DefaultCategories));
            assert dataUpdates + [header] + [defaults] == dataUpdates + ([header] + [defaults]);
            dataUpdates := dataUpdates + [header];
            dataUpdates := dataUpdates + [defaults];
          } else {
            dataUpdates := dataUpdates + [header];
          }
        }
      }
      assert RequiredSheets[..|RequiredSheets|] == RequiredSheets;
    } else {
      NothingMissing(RequiredSheets, existing);
    }
  }

  /** Repairing a spreadsheet that has no tabs writes what creating one writes. */
  lemma RepairOfEmptyMatchesCreate()
    ensures var w := HeaderWrites(RequiredSheets, []);
      |w| == |CreateWrites| && forall i :: 0 <= i < |w| ==> w[i].values == CreateWrites[i].values
  {
    RequiredWrites([]);

  }

  // ---------------------------------------------------------------- ids

  /** `!row[0] || row[0] === ""`: the row has no first cell or it is empty. */
  predicate MissingId(row: seq<string>)
  {
    row == [] || row[0] == ""
  }

  /** The A1 cell of the id of grid row `i`: `${sheet}!A${i + 1}`. */
  function IdCell(sheet: string, i: nat): string
  {
    sheet + "!A" + NatToString(i + 1)
  }

  /** Distinct rows have distinct id cells. */
  lemma IdCellInjective(sheet: string, i: nat, j: nat)
    requires IdCell(sheet, i) == IdCell(sheet, j)
    ensures i == j
  {
    var p := sheet + "!A";
    assert IdCell(sheet, i)[|p|..] == NatToString(i + 1);
    assert IdCell(sheet, j)[|p|..] == NatToString(j + 1);
  }

  /**
   * The data rows below `i` (row 0 is the header) that lack an id, in the
   * order the `for` loop meets them.
   */
  function MissingIdRows(rows: Grid, i: nat): seq<nat>
    requires i <= |rows|
  {
    if i <= 1 then [] else MissingIdRows(rows, i - 1) + (if MissingId(rows[i - 1]) then [i - 1] else [])
  }

  /** The rows listed are exactly the data rows below `i` without an id, in ascending order. */
  lemma {:induction false} MissingIdRowsSpec(rows: Grid, i: nat)
    requires i <= |rows|
    ensures forall k :: 0 <= k < |MissingIdRows(rows, i)| ==>
      1 <= MissingIdRows(rows, i)[k] < i && MissingId(rows[MissingIdRows(rows, i)[k]])
    ensures forall j :: 1 <= j < i && MissingId(rows[j]) ==> j in MissingIdRows(rows, i)
    ensures forall k, l :: 0 <= k < l < |MissingIdRows(rows, i)| ==> MissingIdRows(rows, i)[k] < MissingIdRows(rows, i)[l]
  {
    if i > 1 {
      MissingIdRowsSpec(rows, i - 1);
      var before := MissingIdRows(rows, i - 1);
      var fixed := MissingIdRows(rows, i);
      assert fixed == before + (if MissingId(rows[i - 1]) then [i - 1] else []);
      forall k | 0 <= k < |fixed|
        ensures 1 <= fixed[k] < i && MissingId(rows[fixed[k]])
      {
        if k < |before| {
          assert fixed[k] == before[k] && 1 <= before[k] < i - 1;
        } else {
          assert fixed[k] == i - 1;
        }
      }
      forall j | 1 <= j < i && MissingId(rows[j])
        ensures j in fixed
      {
        if j == i - 1 {
          assert fixed[|before|] == j;
        } else {
          assert j in before;
        }
      }
      forall k, l | 0 <= k < l < |fixed|
        ensures fixed[k] < fixed[l]
      {
        assert fixed[k] == before[k];
      }
    }
  }

  /** One write per listed row: its id cell `A{i+1}` gets the fresh id. */
  function IdWrites(sheet: string, fixed: seq<nat>, newId: nat -> string): (w: seq<ValueRange>)
    ensures |w| == |fixed|
    ensures forall k :: 0 <= k < |fixed| ==> w[k] == ValueRange(IdCell(sheet, fixed[k]), [[newId(fixed[k])]])
  {
    seq(|fixed|, k requires 0 <= k < |fixed| => ValueRange(IdCell(sheet, fixed[k]), [[newId(fixed[k])]]))
  }

  /** The rows of one tab whose id is repaired: none without values or with only the header row. */
  function IdRepairRows(read: Option<Grid>): seq<nat>
  {
    if read.None? || |read.value| <= 1 then [] else MissingIdRows(read.value, |read.value|)
  }

  /** The id writes of one tab. */
  function IdUpdates(sheet: string, read: Option<Grid>, newId: nat -> string): seq<ValueRange>
  {
    IdWrites(sheet, IdRepairRows(read), newId)
  }

  /** A tab needs no id write exactly when it has no values or every data row has an id. */
  lemma NoIdRepairNeeded(sheet: string, read: Option<Grid>, newId: nat -> string)
    ensures IdUpdates(sheet, read, newId) == [] <==>
      read.None? || forall i :: 1 <= i < |read.value| ==> !MissingId(read.value[i])
  {
    var fixed := IdRepairRows(read);
    assert |IdUpdates(sheet, read, newId)| == |fixed|;
    if read.Some? && |read.value| > 1 {
      var rows := read.value;
      assert fixed == MissingIdRows(rows, |rows|);
      MissingIdRowsSpec(rows, |rows|);
      if fixed != [] {
        assert 1 <= fixed[0] < |rows| && MissingId(rows[fixed[0]]);
      } else {
        assert forall i :: 1 <= i < |rows| ==> !MissingId(rows[i]);
      }
    }
  }

  /**
   * The id half of `checkAndFixSheetIds` for one tab: `read` is the A:E
   * range, None when the response holds no values. Returns the data rows
   * that lack an id, in order, and the cell writes that give each of them
   * the fresh id `newId(i)`.
   */
  method PlanIdRepair(sheet: string, read: Option<Grid>, newId: nat -> string)
    returns (fixed: seq<nat>, updates: seq<ValueRange>)
    ensures fixed == IdRepairRows(read) && updates == IdUpdates(sheet, read, newId)
    ensures read.None? || |read.value| <= 1 ==> fixed == []
    ensures read.Some? ==>
      && (forall k :: 0 <= k < |fixed| ==> 1 <= fixed[k] < |read.value| && MissingId(read.value[fixed[k]]))
      && (forall i :: 1 <= i < |read.value| && MissingId(read.value[i]) ==> i in fixed)
    ensures forall k, l :: 0 <= k < l < |fixed| ==> fixed[k] < fixed[l]
    ensures |updates| == |fixed|
    ensures forall k :: 0 <= k < |fixed| ==> updates[k] == ValueRange(IdCell(sheet, fixed[k]), [[newId(fixed[k])]])
  {
    fixed, updates := [], [];
    if read.None? || |read.value| <= 1 {
      return;
    }
    var rows := read.value;
    for i := 1 to |rows|
      invariant fixed == MissingIdRows(rows, i)
      invariant updates == IdWrites(sheet, fixed, newId)
    {
      var row := rows[i];
      if |row| == 0 || row[0] == "" {
        fixed := fixed + [i];
        updates := updates + [ValueRange(IdCell(sheet, i), [[newId(i)]])];
      }
    }
    MissingIdRowsSpec(rows, |rows|);
  }

  /** The grid after the id writes: each fixed row gets its fresh id in column A. */
  function ApplyIdFixes(rows: Grid, fixed: seq<nat>, newId: nat -> string): (r: Grid)
    ensures |r| == |rows|
  {
    seq(|rows|, i requires 0 <= i < |rows| =>
      if i in fixed then [newId(i)] + (if rows[i] == [] then [] else rows[i][1..]) else rows[i])
  }

  /**
   * After the repair every data row has a non-empty id when the fresh ids
   * are non-empty, rows that had an id are unchanged, and no cell other
   * than an id changes.
   */
  lemma RepairComplete(rows: Grid, fixed: seq<nat>, newId: nat -> string)
    requires forall k :: 0 <= k < |fixed| ==> 1 <= fixed[k] < |rows| && MissingId(rows[fixed[k]])
    requires forall i :: 1 <= i < |rows| && MissingId(rows[i]) ==> i in fixed
    requires forall i :: newId(i) != ""
    ensures var r := ApplyIdFixes(rows, fixed, newId);
      && (|rows| >= 1 ==> r[0] == rows[0])
      && (forall i :: 1 <= i < |rows| ==> !MissingId(r[i]))
      && (forall i :: 0 <= i < |rows| && !MissingId(rows[i]) ==> r[i] == rows[i])
      && (forall i :: 0 <= i < |rows| ==> |r[i]| >= 1 || r[i] == rows[i])
      && (forall i, c :: 0 <= i < |rows| && 1 <= c < |rows[i]| ==> r[i][c] == rows[i][c])
  {
    var r := ApplyIdFixes(rows, fixed, newId);
    if |rows| >= 1 {
      assert 0 !in fixed;
    }
  }

  /** The two tabs whose ids are repaired, in order. */
  const SheetsToFix: seq<string> := ["Expenditure", "Income"]

  /**
   * The structural half of the repair: the `addSheet` batch when a tab is
   * missing, then the header and default-category writes when there are any.
   */
  function StructureCalls(existing: seq<string>): seq<Call>
  {
    Batches(MissingTitles(RequiredSheets, existing), HeaderWrites(RequiredSheets, existing))
  }

  /** The `addSheet` batch and the value batch, each only when non-empty. */
  function Batches(titles: seq<string>, writes: seq<ValueRange>): seq<Call>
  {
    (if titles == [] then [] else [AddSheets(titles)]) + (if writes == [] then [] else [WriteValues(writes)])
  }

  /** The id batch of one tab, sent only when it holds a write. */
  function IdCall(sheet: string, read: Option<Grid>, newId: nat -> string): seq<Call>
  {
    var updates := IdUpdates(sheet, read, newId);
    if updates == [] then [] else [WriteValues(updates)]
  }

  /** The id batches of the given tabs, in order. */
  function IdCalls(sheets: seq<string>, read: string -> Option<Grid>, newId: string -> nat -> string): seq<Call>
  {
    if sheets == [] then []
    else
      var last := sheets[|sheets| - 1];
      IdCalls(sheets[..|sheets| - 1], read, newId) + IdCall(last, read(last), newId(last))
  }

  /** Appending batch by batch builds the same request list as appending them together. */
  lemma ConcatAssoc(a: seq<Call>, b: seq<Call>, c: seq<Call>)
    ensures a + b + c == a + (b + c)
  {
  }

  /** One more tab appends that tab's id batch. */
  lemma IdCallsStep(sheets: seq<string>, n: nat, read: string -> Option<Grid>, newId: string -> nat -> string)
    requires n < |sheets|
    ensures IdCalls(sheets[..n + 1], read, newId) == IdCalls(sheets[..n], read, newId) + IdCall(sheets[n], read(sheets[n]), newId(sheets[n]))
  {
    assert sheets[..n + 1][..n] == sheets[..n];
  }

  /** Over the two tabs, the id batches are Expenditure's and then Income's. */
  lemma BothIdCalls(read: string -> Option<Grid>, newId: string -> nat -> string)
    ensures IdCalls(SheetsToFix, read, newId)
      == IdCall("Expenditure", read("Expenditure"), newId("Expenditure")) + IdCall("Income", read("Income"), newId("Income"))
  {
    IdCallsStep(SheetsToFix, 0, read, newId);
    IdCallsStep(SheetsToFix, 1, read, newId);
    assert SheetsToFix[..0] == [];
    assert SheetsToFix[..2] == SheetsToFix;
  }

  /**
   * Whatever the id batches, the structural batches come first, an
   * `addSheet` batch appears only when a tab is missing, no batch is empty
   * and at most four requests are sent.
   */
  lemma RequestsShape(titles: seq<string>, writes: seq<ValueRange>, first: seq<Call>, second: seq<Call>)
    requires titles == [] <==> writes == []
    requires first == [] || (|first| == 1 && first[0].WriteValues? && first[0].data != [])
    requires second == [] || (|second| == 1 && second[0].WriteValues? && second[0].data != [])
    ensures var calls := Batches(titles, writes) + first + second;
      && (titles == [] ==> forall c :: c in calls ==> c.WriteValues?)
      && (titles != [] ==> |calls| >= 2 && calls[..2] == [AddSheets(titles), WriteValues(writes)])
      && (forall c :: c in calls && c.AddSheets? ==> c.titles != [])
      && (forall c :: c in calls && c.WriteValues? ==> c.data != [])
      && |calls| <= 4
  {
    var structure := Batches(titles, writes);
    var calls := structure + first + second;
    assert forall c :: c in calls ==> c in structure || c in first || c in second;
    if titles != [] {
      assert calls[..2] == structure;
    }
  }

  /**
   * `checkAndFixSheetIds`: the requests sent, in order. `existing` are the
   * titles read first; `read(t)` is what reading tab `t` returns afterwards
   * and `newId(t)(i)` the id generated for row `i` of tab `t`. Empty batches
   * are never sent.
   */
  method CheckAndFixSheetIds(existing: seq<string>, read: string -> Option<Grid>, newId: string -> nat -> string)
    returns (calls: seq<Call>)
    ensures calls == StructureCalls(existing)
      + IdCall("Expenditure", read("Expenditure"), newId("Expenditure"))
      + IdCall("Income", read("Income"), newId("Income"))
    ensures MissingTitles(RequiredSheets, existing) == [] ==> forall c :: c in calls ==> c.WriteValues?
    ensures MissingTitles(RequiredSheets, existing) != [] ==>
      (|calls| >= 2 && calls[..2] == [AddSheets(MissingTitles(RequiredSheets, existing)), WriteValues(HeaderWrites(RequiredSheets, existing))])
    ensures forall c :: c in calls && c.AddSheets? ==> c.titles != []
    ensures forall c :: c in calls && c.WriteValues? ==> c.data != []
    ensures |calls| <= 4
  {
    var requests, dataUpdates := PlanStructure(existing);
    calls := [];
    if |requests| > 0 {
      calls := calls + [AddSheets(requests)];
    }
    if |dataUpdates| > 0 {
      calls := calls + [WriteValues(dataUpdates)];
    }
    assert calls == StructureCalls(existing);
    var idCalls := RepairIdBatches(read, newId);
    ConcatAssoc(calls, IdCall("Expenditure", read("Expenditure"), newId("Expenditure")), IdCall("Income", read("Income"), newId("Income")));
    calls := calls + idCalls;
    NothingMissing(RequiredSheets, existing);
    RequestsShape(requests, dataUpdates, IdCall("Expenditure", read("Expenditure"), newId("Expenditure")),
      IdCall("Income", read("Income"), newId("Income")));
  }

  /** The loop over the two tabs: one id batch per tab that needs one, in tab order. */
  method RepairIdBatches(read: string -> Option<Grid>, newId: string -> nat -> string) returns (calls: seq<Call>)
    ensures calls == IdCall("Expenditure", read("Expenditure"), newId("Expenditure")) + IdCall("Income", read("Income"), newId("Income"))
  {
    calls := [];
    assert SheetsToFix[..0] == [];
    for n := 0 to |SheetsToFix|
      invariant calls == IdCalls(SheetsToFix[..n], read, newId)
    {
      var sheet := SheetsToFix[n];
      var fixed, updates := PlanIdRepair(sheet, read(sheet), newId(sheet));
      IdCallsStep(SheetsToFix, n, read, newId);
      if |updates| > 0 {
        calls := calls + [WriteValues(updates)];
      }
    }
    assert SheetsToFix[..|SheetsToFix|] == SheetsToFix;
    BothIdCalls(read, newId);
  }

  // ---------------------------------------------------------------- locating

  /**
   * `findExpenseSheet` with its `localStorage` cache. `stillExists` is
   * whether the Drive lookup of the cached id succeeds; `search` is the
   * Drive search result (the ids found, oldest query order) or Failure when
   * the search throws, which the caller sees as a thrown error.
   */
  class SheetLocator {
    var stored: Option<string>

    constructor (stored: Option<string>)
      ensures this.stored == stored
    {
      this.stored := stored;
    }

    method FindExpenseSheet(stillExists: bool, search: Result<seq<string>>) returns (r: Result<Option<string>>)
      modifies this
      ensures old(stored).Some? && old(stored).value != "" && stillExists ==>
        r == Success(Some(old(stored).value)) && stored == old(stored)
      ensures old(stored).Some? && old(stored).value != "" && !stillExists ==> stored == None
      ensures (old(stored).None? || old(stored).value == "") ==> stored == old(stored)
      ensures !(old(stored).Some? && old(stored).value != "" && stillExists) ==>
        r == match search
          case Failure => Failure
          case Success(ids) => Success(if ids == [] then None else Some(ids[0]))
    {
      if stored.Some? && stored.value != "" {
        if stillExists {
          return Success(Some(stored.value));
        }
        stored := None;
      }
      match search {
        case Failure =>
          r := Failure;
        case Success(ids) =>
          if |ids| > 0 {
            r := Success(Some(ids[0]));
          } else {
            r := Success(None);
          }
      }
    }
  }
}
