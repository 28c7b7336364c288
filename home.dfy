/**
 * The dashboard's stat cards: the balance over all rows, and this month's
 * expenses and income, which leave out money lent and money returned from
 * a loan.
 */
module Home {
  import opened Text
  import opened Dates
  import opened SheetApi
  import opened Ledger

  /** An expense dated in month `now` that is not a loan (`category !== "lend"`). */
  function SpentThisMonth(now: MonthKey): Line -> bool
  {
    (l: Line) => InMonth(l.date, now) && !CategoryIs(l, "lend")
  }

  /** An income dated in month `now` that is not a loan repayment (`category !== "return(lend)"`). */
  function EarnedThisMonth(now: MonthKey): Line -> bool
  {
    (l: Line) => InMonth(l.date, now) && !CategoryIs(l, "return(lend)")
  }

  /** A line of month `now` whose category is `name`. */
  function DatedInWithCategory(now: MonthKey, name: string): Line -> bool
  {
    (l: Line) => InMonth(l.date, now) && CategoryIs(l, name)
  }

  /** The "This Month Expenses" card. */
  function MonthExpenses(expenses: seq<Line>, now: MonthKey): real
  {
    SumWhere(expenses, SpentThisMonth(now))
  }

  /** The "This Month Income" card. */
  function MonthIncome(incomes: seq<Line>, now: MonthKey): real
  {
    SumWhere(incomes, EarnedThisMonth(now))
  }

  /** The "Balance" card: all income less all expenses. */
  function Balance(expenses: seq<Line>, incomes: seq<Line>): real
  {
    Total(incomes) - Total(expenses)
  }

  /** This month's expenses are everything dated this month less what was lent this month. */
  lemma MonthExpensesSplit(expenses: seq<Line>, now: MonthKey)
    ensures SumWhere(expenses, DatedIn(now)) == MonthExpenses(expenses, now) + SumWhere(expenses, DatedInWithCategory(now, "lend"))
  {
    SumWhereSplit(expenses, DatedIn(now), SpentThisMonth(now), DatedInWithCategory(now, "lend"));
  }

  /** This month's income is everything dated this month less loan repayments received this month. */
  lemma MonthIncomeSplit(incomes: seq<Line>, now: MonthKey)
    ensures SumWhere(incomes, DatedIn(now)) == MonthIncome(incomes, now) + SumWhere(incomes, DatedInWithCategory(now, "return(lend)"))
  {
    SumWhereSplit(incomes, DatedIn(now), EarnedThisMonth(now), DatedInWithCategory(now, "return(lend)"));
  }

  /** Rows from other months, and rows whose date does not parse, add nothing to either monthly card. */
  lemma MonthCardsIgnoreOtherMonths(expenses: seq<Line>, incomes: seq<Line>, now: MonthKey)
    requires forall i :: 0 <= i < |expenses| ==> !InMonth(expenses[i].date, now)
    requires forall i :: 0 <= i < |incomes| ==> !InMonth(incomes[i].date, now)
    ensures MonthExpenses(expenses, now) == 0.0 && MonthIncome(incomes, now) == 0.0
  {
    SumWhereNone(expenses, SpentThisMonth(now));
    SumWhereNone(incomes, EarnedThisMonth(now));
  }

  /**
   * Read from the sheet row itself: an expense counts this month exactly when
   * its date parses into month `now` and its lower-cased category cell is not
   * "lend"; a row without a category counts.
   */
  lemma SpentThisMonthRow(r: Row, now: MonthKey)
    ensures SpentThisMonth(now)(LineOf(r)) <==> InMonth(ParseDate(r.date), now) && ToLower(r.category) != "lend"
    ensures r.category == "" && InMonth(ParseDate(r.date), now) ==> SpentThisMonth(now)(LineOf(r))
  {
    CategoryIsRow(r, "lend");
    assert ToLower("") == "";
  }

  /** The same for income and the "return(lend)" category. */
  lemma EarnedThisMonthRow(r: Row, now: MonthKey)
    ensures EarnedThisMonth(now)(LineOf(r)) <==> InMonth(ParseDate(r.date), now) && ToLower(r.category) != "return(lend)"
    ensures r.category == "" && InMonth(ParseDate(r.date), now) ==> EarnedThisMonth(now)(LineOf(r))
  {
    CategoryIsRow(r, "return(lend)");
    assert ToLower("") == "";
  }
}
