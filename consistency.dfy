/**
 * What the recording pages and the dashboard promise together: a row
 * stamped by the clock counts toward exactly its own month, logged
 * expenses never lower the expense total, and the figures the dashboard
 * shows for a few concrete sheets.
 */
module Consistency {
  import opened Text
  import opened Clock
  import opened Records
  import opened Dashboard

  /**
   * A sale recorded at moment `t` raises the sales total the dashboard
   * shows at moment `u` by its charge when both moments fall in the same
   * month, and leaves it unchanged otherwise.
   */
  lemma RecordedSaleCountsInItsMonth(sales: seq<Sale>, t: Moment, u: Moment, item: string, qty: int, price: int)
    requires ValidMoment(t) && ValidMoment(u)
    ensures SalesTotal(sales + [Sale(Stamp(t), item, qty, price, qty * price)], MonthKey(u))
         == SalesTotal(sales, MonthKey(u)) + (if t.year == u.year && t.month == u.month then (qty * price) as real else 0.0)
  {
    MonthTotalAppend(sales, Sale(Stamp(t), item, qty, price, qty * price), SaleDate, SaleAmount, MonthKey(u));
    StampInMonthIff(t, u);
  }

  /**
   * An expense saved at moment `t` raises the expense total the dashboard
   * shows at moment `u` by its cost when both moments fall in the same
   * month, and leaves it unchanged otherwise.
   */
  lemma SavedExpenseCountsInItsMonth(expenses: seq<Expense>, t: Moment, u: Moment, category: Category, item: string, cost: real)
    requires ValidMoment(t) && ValidMoment(u)
    ensures ExpenseTotal(expenses + [Expense(Stamp(t), CategoryName(category), item, cost)], MonthKey(u))
         == ExpenseTotal(expenses, MonthKey(u)) + (if t.year == u.year && t.month == u.month then cost else 0.0)
  {
    MonthTotalAppend(expenses, Expense(Stamp(t), CategoryName(category), item, cost), ExpenseDate, ExpenseAmount, MonthKey(u));
    StampInMonthIff(t, u);
  }

  /** Expenses that passed the save guard give a month total that is never negative. */
  lemma LoggedExpensesNonNegative(expenses: seq<Expense>, key: string)
    requires forall i :: 0 <= i < |expenses| ==> Acceptable(expenses[i].item, expenses[i].cost)
    ensures ExpenseTotal(expenses, key) >= 0.0
  {
    MonthTotalNonNegative(expenses, ExpenseDate, ExpenseAmount, key);
  }

  /**
   * The price field has no lower bound, so a consistent sale can carry a
   * negative charge and pull the month's sales total below zero.
   */
  lemma SalesTotalMayBeNegative()
    ensures ConsistentSale(Sale("2024-05-01 09:00", "Latte", 1, -150, -150))
    ensures SalesTotal([Sale("2024-05-01 09:00", "Latte", 1, -150, -150)], "2024-05") == -150.0
  {
    var s := Sale("2024-05-01 09:00", "Latte", 1, -150, -150);
    assert OccursAt(s.date, "2024-05", 0);
    MonthTotalAppend([], s, SaleDate, SaleAmount, "2024-05");
    assert [] + [s] == [s];
  }

  /** Net profit is not clamped: a month with only an expense shows a loss. */
  lemma NetMayBeNegative()
    ensures Summarize([], [Expense("2024-05-02 10:30", "Beans", "House blend", 50.0)], "2024-05").net == -50.0
  {
    var e := Expense("2024-05-02 10:30", "Beans", "House blend", 50.0);
    assert OccursAt(e.date, "2024-05", 0);
    MonthTotalAppend([], e, ExpenseDate, ExpenseAmount, "2024-05");
    assert [] + [e] == [e];
  }

  /** Two May sales and one June sale: the May total counts only the first two. */
  lemma MayTotalExample(ta: Moment, tb: Moment, tc: Moment, u: Moment)
    requires ta == Moment(2024, 5, 1, 8, 0) && tb == Moment(2024, 5, 15, 9, 30)
    requires tc == Moment(2024, 6, 1, 7, 45) && u == Moment(2024, 5, 20, 12, 0)
    ensures SalesTotal([Sale(Stamp(ta), "Latte", 1, 100, 100),
                        Sale(Stamp(tb), "Cookie", 1, 50, 50),
                        Sale(Stamp(tc), "Pourover", 2, 100, 200)], MonthKey(u)) == 150.0
  {
    var key := MonthKey(u);
    var a := Sale(Stamp(ta), "Latte", 1, 100, 100);
    var b := Sale(Stamp(tb), "Cookie", 1, 50, 50);
    var c := Sale(Stamp(tc), "Pourover", 2, 100, 200);
    MonthTotalAppend([], a, SaleDate, SaleAmount, key);
    RecordedSaleCountsInItsMonth([], ta, u, "Latte", 1, 100);
    assert [] + [a] == [a];
    RecordedSaleCountsInItsMonth([a], tb, u, "Cookie", 1, 50);
    assert [a] + [b] == [a, b];
    RecordedSaleCountsInItsMonth([a, b], tc, u, "Pourover", 2, 100);
    assert [a, b] + [c] == [a, b, c];
  }

  /** Empty worksheets: every figure is zero and both tables are empty. */
  lemma EmptyExample(key: string)
    ensures Summarize([], [], key) == Summary(0.0, 0.0, 0.0, [], [])
  {
  }

  /** Six expenses: the table shows the last five, newest first. */
  lemma RecentExpensesExample()
    ensures var es := seq(6, i requires 0 <= i < 6 => Expense("2024-05-0" + [Digit(i + 1)] + " 08:00", "Other", "Supplies", (30 + 10 * i) as real));
            seq(5, i requires 0 <= i < 5 => RecentExpenses(es)[i].cost) == [80.0, 70.0, 60.0, 50.0, 40.0]
  {
  }
}
