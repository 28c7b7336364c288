/**
 * The lending summary: money lent is recorded as an expense in category
 * "Lend", money paid back as an income in category "Return(Lend)", and the
 * card shows what is still owed.
 */
module LendingSummary {
  import opened Text
  import opened Dates
  import opened Ledger
  import opened Home

  /** A line whose category is `name`, in any letter case. */
  function WithCategory(name: string): Line -> bool
  {
    (l: Line) => CategoryIs(l, name)
  }

  /** A line whose category is not `name`. */
  function WithoutCategory(name: string): Line -> bool
  {
    (l: Line) => !CategoryIs(l, name)
  }

  /** `totalLent`: the expenses in category "lend". */
  function TotalLent(expenses: seq<Line>): real
  {
    SumWhere(expenses, WithCategory("lend"))
  }

  /** `totalReturned`: the incomes in category "return(lend)". */
  function TotalReturned(incomes: seq<Line>): real
  {
    SumWhere(incomes, WithCategory("return(lend)"))
  }

  /** `remaining`: what is lent and not yet returned. */
  function Outstanding(expenses: seq<Line>, incomes: seq<Line>): real
  {
    TotalLent(expenses) - TotalReturned(incomes)
  }

  /** The "To be recovered" note is shown exactly when something is still owed. */
  predicate ShowsRecoveryNote(expenses: seq<Line>, incomes: seq<Line>)
  {
    Outstanding(expenses, incomes) > 0.0
  }

  /**
   * The balance splits into ordinary income, less ordinary spending, less what
   * is still owed: lending moves money out and repayments bring it back.
   */
  lemma BalanceWithLending(expenses: seq<Line>, incomes: seq<Line>)
    ensures Balance(expenses, incomes)
      == SumWhere(incomes, WithoutCategory("return(lend)")) - SumWhere(expenses, WithoutCategory("lend"))
         - Outstanding(expenses, incomes)
  {
    SumWhereSplit(expenses, Always, WithoutCategory("lend"), WithCategory("lend"));
    SumWhereSplit(incomes, Always, WithoutCategory("return(lend)"), WithCategory("return(lend)"));
  }

  /** The note is shown exactly when more was lent than has been returned. */
  lemma RecoveryNoteIff(expenses: seq<Line>, incomes: seq<Line>)
    ensures ShowsRecoveryNote(expenses, incomes) <==> TotalLent(expenses) > TotalReturned(incomes)
  {
  }

  /**
   * One more expense adds its amount to what is lent exactly when its
   * category lower-cases to "lend": "Lend" and "LEND" count, while "Lending"
   * or "lend " (any other length) never do.
   */
  lemma LentGrowsOnlyByLend(expenses: seq<Line>, l: Line)
    ensures ToLower(l.category) == "lend" ==> TotalLent(expenses + [l]) == TotalLent(expenses) + l.amount
    ensures ToLower(l.category) != "lend" ==> TotalLent(expenses + [l]) == TotalLent(expenses)
    ensures |l.category| != 4 ==> TotalLent(expenses + [l]) == TotalLent(expenses)
  {
    assert (expenses + [l])[..|expenses|] == expenses;
  }

  /** Likewise, only an income whose category lower-cases to "return(lend)" counts as returned. */
  lemma ReturnedGrowsOnlyByReturn(incomes: seq<Line>, l: Line)
    ensures ToLower(l.category) == "return(lend)" ==> TotalReturned(incomes + [l]) == TotalReturned(incomes) + l.amount
    ensures ToLower(l.category) != "return(lend)" ==> TotalReturned(incomes + [l]) == TotalReturned(incomes)
  {
    assert (incomes + [l])[..|incomes|] == incomes;
  }

  /** With nothing lent and nothing returned, nothing is owed and no note is shown. */
  lemma NothingLent(expenses: seq<Line>, incomes: seq<Line>)
    requires forall i :: 0 <= i < |expenses| ==> !CategoryIs(expenses[i], "lend")
    requires forall i :: 0 <= i < |incomes| ==> !CategoryIs(incomes[i], "return(lend)")
    ensures Outstanding(expenses, incomes) == 0.0 && !ShowsRecoveryNote(expenses, incomes)
  {
    SumWhereNone(expenses, WithCategory("lend"));
    SumWhereNone(incomes, WithCategory("return(lend)"));
  }
}
