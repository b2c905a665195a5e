/**
 * The dashboard's numbers: month-to-date sales and expense totals, net
 * profit, and the five newest rows of each worksheet. Everything here is a
 * pure function of the two record sequences and the month key.
 */
module Dashboard {
  import opened Text
  import opened Records

  function Min(a: int, b: int): int {
    if a <= b then a else b
  }

  /**
   * The rows whose date string contains the month key, in sheet order:
   * `df[df['Date'].str.contains(key)]`.
   */
  function InMonth<R(==)>(rows: seq<R>, date: R -> string, key: string): (r: seq<R>)
    ensures |r| <= |rows|
    ensures forall x :: x in r ==> x in rows && Contains(date(x), key)
    ensures forall i :: 0 <= i < |rows| && Contains(date(rows[i]), key) ==> rows[i] in r
  {
    if rows == [] then []
    else
      var last := rows[|rows| - 1];
      InMonth(rows[..|rows| - 1], date, key) + (if Contains(date(last), key) then [last] else [])
  }

  /**
   * The filter keeps every row whose date contains the key as many times as
   * it occurs, and no other row.
   */
  lemma {:induction false} InMonthMultiplicity<R>(rows: seq<R>, date: R -> string, key: string)
    ensures multiset(InMonth(rows, date, key)) <= multiset(rows)
    ensures forall i :: 0 <= i < |rows| ==>
      multiset(InMonth(rows, date, key))[rows[i]] == if Contains(date(rows[i]), key) then multiset(rows)[rows[i]] else 0
  {
    if rows != [] {
      var init, last := rows[..|rows| - 1], rows[|rows| - 1];
      assert rows == init + [last];
      InMonthMultiplicity(init, date, key);
    }
  }

  /** The sum of a money column (`.sum()`, 0 for no rows). */
  function Sum<R>(rows: seq<R>, amount: R -> real): real {
    if rows == [] then 0.0 else Sum(rows[..|rows| - 1], amount) + amount(rows[|rows| - 1])
  }

  /**
   * The month total of a money column: the sum over the rows whose date
   * contains the key. When no row matches (in particular for an empty
   * worksheet) it is 0.
   */
  function MonthTotal<R(==)>(rows: seq<R>, date: R -> string, amount: R -> real, key: string): (total: real)
    ensures (forall i :: 0 <= i < |rows| ==> !Contains(date(rows[i]), key)) ==> total == 0.0
  {
    var matching := InMonth(rows, date, key);
    assert (forall i :: 0 <= i < |rows| ==> !Contains(date(rows[i]), key)) ==> matching == [] by {
      if matching != [] {
        assert matching[0] in matching;
      }
    }
    Sum(matching, amount)
  }

  /**
   * Independent statement of the month total: every row contributes its
   * amount when its date contains the key and nothing otherwise.
   */
  function MaskedSum<R>(rows: seq<R>, date: R -> string, amount: R -> real, key: string): real {
    if rows == [] then 0.0
    else (if Contains(date(rows[0]), key) then amount(rows[0]) else 0.0) + MaskedSum(rows[1..], date, amount, key)
  }

  lemma {:induction false} SumConcat<R>(a: seq<R>, b: seq<R>, amount: R -> real)
    ensures Sum(a + b, amount) == Sum(a, amount) + Sum(b, amount)
  {
    if b != [] {
      var b' := b[..|b| - 1];
      assert (a + b)[..|a + b| - 1] == a + b';
      SumConcat(a, b', amount);
    } else {
      assert a + b == a;
    }
  }

  lemma {:induction false} InMonthConcat<R>(a: seq<R>, b: seq<R>, date: R -> string, key: string)
    ensures InMonth(a + b, date, key) == InMonth(a, date, key) + InMonth(b, date, key)
  {
    if b != [] {
      var b' := b[..|b| - 1];
      assert (a + b)[..|a + b| - 1] == a + b';
      InMonthConcat(a, b', date, key);
    } else {
      assert a + b == a;
    }
  }

  /** The month total of two stretches of rows is the sum of their month totals. */
  lemma MonthTotalConcat<R>(a: seq<R>, b: seq<R>, date: R -> string, amount: R -> real, key: string)
    ensures MonthTotal(a + b, date, amount, key) == MonthTotal(a, date, amount, key) + MonthTotal(b, date, amount, key)
  {
    InMonthConcat(a, b, date, key);
    SumConcat(InMonth(a, date, key), InMonth(b, date, key), amount);
  }

  /**
   * Appending one row adds its amount to the month total when its date
   * contains the key, and leaves the total unchanged otherwise.
   */
  lemma MonthTotalAppend<R>(rows: seq<R>, x: R, date: R -> string, amount: R -> real, key: string)
    ensures MonthTotal(rows + [x], date, amount, key)
         == MonthTotal(rows, date, amount, key) + (if Contains(date(x), key) then amount(x) else 0.0)
  {
    MonthTotalConcat(rows, [x], date, amount, key);
    assert [x][..0] == [];
  }

  /** Rows outside the month contribute nothing, wherever they sit. */
  lemma MonthTotalIgnoresOtherMonths<R>(a: seq<R>, b: seq<R>, c: seq<R>, date: R -> string, amount: R -> real, key: string)
    requires forall i :: 0 <= i < |b| ==> !Contains(date(b[i]), key)
    ensures MonthTotal(a + b + c, date, amount, key) == MonthTotal(a + c, date, amount, key)
  {
    MonthTotalConcat(a + b, c, date, amount, key);
    MonthTotalConcat(a, b, date, amount, key);
    MonthTotalConcat(a, c, date, amount, key);
  }

  /** The filter-then-sum total equals the masked sum over every row. */
  lemma {:induction false} MonthTotalIsMaskedSum<R>(rows: seq<R>, date: R -> string, amount: R -> real, key: string)
    ensures MonthTotal(rows, date, amount, key) == MaskedSum(rows, date, amount, key)
  {
    if rows != [] {
      assert rows == [rows[0]] + rows[1..];
      MonthTotalConcat([rows[0]], rows[1..], date, amount, key);
      MonthTotalAppend([], rows[0], date, amount, key);
      assert [] + [rows[0]] == [rows[0]];
      MonthTotalIsMaskedSum(rows[1..], date, amount, key);
    }
  }

  /** With no negative amounts the month total is not negative. */
  lemma {:induction false} MonthTotalNonNegative<R>(rows: seq<R>, date: R -> string, amount: R -> real, key: string)
    requires forall i :: 0 <= i < |rows| ==> amount(rows[i]) >= 0.0
    ensures MonthTotal(rows, date, amount, key) >= 0.0
  {
    if rows != [] {
      var init := rows[..|rows| - 1];
      assert rows == init + [rows[|rows| - 1]];
      MonthTotalAppend(init, rows[|rows| - 1], date, amount, key);
      MonthTotalNonNegative(init, date, amount, key);
    }
  }

  function SaleDate(s: Sale): string { s.date }
  function SaleAmount(s: Sale): real { s.total as real }
  function ExpenseDate(e: Expense): string { e.date }
  function ExpenseAmount(e: Expense): real { e.cost }

  /**
   * The month's sales: every sale whose date contains the key adds its
   * Total, every other sale adds nothing.
   */
  function SalesTotal(sales: seq<Sale>, key: string): (total: real)
    ensures total == MaskedSum(sales, SaleDate, SaleAmount, key)
  {
    MonthTotalIsMaskedSum(sales, SaleDate, SaleAmount, key);
    MonthTotal(sales, SaleDate, SaleAmount, key)
  }

  /**
   * The month's expenses: every expense whose date contains the key adds
   * its Cost, every other expense adds nothing.
   */
  function ExpenseTotal(expenses: seq<Expense>, key: string): (total: real)
    ensures total == MaskedSum(expenses, ExpenseDate, ExpenseAmount, key)
  {
    MonthTotalIsMaskedSum(expenses, ExpenseDate, ExpenseAmount, key);
    MonthTotal(expenses, ExpenseDate, ExpenseAmount, key)
  }

  /** `s` read back to front. */
  function Reverse<T>(s: seq<T>): (r: seq<T>)
    ensures |r| == |s|
    ensures forall i :: 0 <= i < |s| ==> r[i] == s[|s| - 1 - i]
  {
    if s == [] then [] else [s[|s| - 1]] + Reverse(s[..|s| - 1])
  }

  /** `tail(n).iloc[::-1]`: the last `n` rows (all of them when fewer), newest first. */
  function Newest<T>(s: seq<T>, n: nat): (r: seq<T>)
    ensures |r| == Min(n, |s|)
    ensures forall i :: 0 <= i < |r| ==> r[i] == s[|s| - 1 - i]
  {
    Reverse(s[|s| - Min(n, |s|)..])
  }

  /** The columns shown in the "Last 5 Sales" table. */
  datatype SaleLine = SaleLine(date: string, item: string, total: int)

  /** The columns shown in the "Last 5 Expenses" table. */
  datatype ExpenseLine = ExpenseLine(date: string, item: string, cost: real)

  function SaleLineOf(s: Sale): SaleLine { SaleLine(s.date, s.item, s.total) }
  function ExpenseLineOf(e: Expense): ExpenseLine { ExpenseLine(e.date, e.item, e.cost) }

  /** `df_s[['Date', 'Item', 'Total']].tail(5).iloc[::-1]`, over the whole sheet, not only the month. */
  function RecentSales(sales: seq<Sale>): (r: seq<SaleLine>)
    ensures |r| == Min(5, |sales|)
    ensures forall i :: 0 <= i < |r| ==> r[i] == SaleLineOf(sales[|sales| - 1 - i])
  {
    Newest(seq(|sales|, i requires 0 <= i < |sales| => SaleLineOf(sales[i])), 5)
  }

  /** `df_e[['Date', 'Item', 'Cost']].tail(5).iloc[::-1]`, over the whole sheet, not only the month. */
  function RecentExpenses(expenses: seq<Expense>): (r: seq<ExpenseLine>)
    ensures |r| == Min(5, |expenses|)
    ensures forall i :: 0 <= i < |r| ==> r[i] == ExpenseLineOf(expenses[|expenses| - 1 - i])
  {
    Newest(seq(|expenses|, i requires 0 <= i < |expenses| => ExpenseLineOf(expenses[i])), 5)
  }

  /** What the dashboard page shows. */
  datatype Summary = Summary(
    salesTotal: real, expenseTotal: real, net: real,
    recentSales: seq<SaleLine>, recentExpenses: seq<ExpenseLine>)

  /**
   * The dashboard for month `key`. An empty worksheet skips the filter and
   * gives 0; the totals agree with the month totals either way, and net
   * profit is their plain difference, negative when expenses exceed sales.
   */
  function Summarize(sales: seq<Sale>, expenses: seq<Expense>, key: string): (r: Summary)
    ensures r.salesTotal == SalesTotal(sales, key)
    ensures r.expenseTotal == ExpenseTotal(expenses, key)
    ensures r.net == r.salesTotal - r.expenseTotal
    ensures sales == [] ==> r.salesTotal == 0.0 && r.recentSales == []
    ensures expenses == [] ==> r.expenseTotal == 0.0 && r.recentExpenses == []
    ensures r.recentSales == RecentSales(sales) && r.recentExpenses == RecentExpenses(expenses)
  {
    var salesTotal := if sales == [] then 0.0 else SalesTotal(sales, key);
    var expenseTotal := if expenses == [] then 0.0 else ExpenseTotal(expenses, key);
    Summary(salesTotal, expenseTotal, salesTotal - expenseTotal,
            if sales == [] then [] else RecentSales(sales),
            if expenses == [] then [] else RecentExpenses(expenses))
  }
}
