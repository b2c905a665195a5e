/**
 * The two record kinds the cafe logs, the header rows of their worksheets,
 * and the cell rows that `append_row` sends and the dashboard reads back.
 */
module Records {
  import opened Options

  /** The fixed menu and its default prices; the price field starts at these but may be edited. */
  const Menu: map<string, int> := map[
    "Espresso" := 120, "Americano" := 120, "Latte" := 150, "Cappuccino" := 150,
    "Spanish Latte" := 170, "Cold Brew" := 160, "Pourover" := 180, "Cookie" := 80]

  /** The expense categories offered by the selector. */
  datatype Category = Beans | Milk | Ice | Cups | Other

  function CategoryName(c: Category): string {
    match c
    case Beans => "Beans"
    case Milk => "Milk"
    case Ice => "Ice"
    case Cups => "Cups"
    case Other => "Other"
  }

  /** One row of the Sales worksheet. Quantity, price and total are Python ints. */
  datatype Sale = Sale(date: string, item: string, qty: int, price: int, total: int)

  /** One row of the Expenses worksheet. The category is stored as its name; the cost is a float. */
  datatype Expense = Expense(date: string, category: string, item: string, cost: real)

  /** A sale as the order page writes it: at least one unit, charged quantity times price. */
  predicate ConsistentSale(s: Sale) {
    s.qty >= 1 && s.total == s.qty * s.price
  }

  /** The expense page's guard: an item description and a positive cost. */
  predicate Acceptable(item: string, cost: real) {
    item != "" && cost > 0.0
  }

  const SalesHeader: seq<string> := ["Date", "Item", "Qty", "Price", "Total"]
  const ExpensesHeader: seq<string> := ["Date", "Category", "Item", "Cost"]

  /** A spreadsheet cell value as the app writes it. */
  datatype Cell = Text(text: string) | Integer(whole: int) | Float(number: real)

  /**
   * The value in column `name` of a data row, read against the header row
   * as `get_all_records` pairs them up; absent when the header lacks the
   * name or the row stops short of it.
   */
  function Column(header: seq<string>, row: seq<Cell>, name: string): Option<Cell> {
    if header == [] || row == [] then None
    else if header[0] == name then Some(row[0])
    else Column(header[1..], row[1..], name)
  }

  /** Column `name` is the cell under the first header entry that carries that name. */
  lemma {:induction false} ColumnAt(header: seq<string>, row: seq<Cell>, name: string, i: nat)
    requires i < |header| && i < |row| && header[i] == name
    requires forall j :: 0 <= j < i ==> header[j] != name
    ensures Column(header, row, name) == Some(row[i])
  {
    if i > 0 {
      assert header[0] != name;
      ColumnAt(header[1..], row[1..], name, i - 1);
    }
  }

  /** A sale read back from a Sales data row by column name. */
  function ReadSale(header: seq<string>, row: seq<Cell>): Option<Sale> {
    match (Column(header, row, "Date"), Column(header, row, "Item"), Column(header, row, "Qty"),
           Column(header, row, "Price"), Column(header, row, "Total"))
    case (Some(Text(d)), Some(Text(i)), Some(Integer(q)), Some(Integer(p)), Some(Integer(t))) =>
      Some(Sale(d, i, q, p, t))
    case _ => None
  }

  /** An expense read back from an Expenses data row by column name. */
  function ReadExpense(header: seq<string>, row: seq<Cell>): Option<Expense> {
    match (Column(header, row, "Date"), Column(header, row, "Category"), Column(header, row, "Item"),
           Column(header, row, "Cost"))
    case (Some(Text(d)), Some(Text(c)), Some(Text(i)), Some(Float(x))) => Some(Expense(d, c, i, x))
    case _ => None
  }

  /**
   * The list handed to `append_row` for a sale: one cell per Sales column,
   * in header order, so reading it back by column name gives the sale.
   */
  function SaleRow(s: Sale): (r: seq<Cell>)
    ensures |r| == |SalesHeader|
    ensures ReadSale(SalesHeader, r) == Some(s)
  {
    var r := [Text(s.date), Text(s.item), Integer(s.qty), Integer(s.price), Integer(s.total)];
    ColumnAt(SalesHeader, r, "Date", 0);
    ColumnAt(SalesHeader, r, "Item", 1);
    ColumnAt(SalesHeader, r, "Qty", 2);
    ColumnAt(SalesHeader, r, "Price", 3);
    ColumnAt(SalesHeader, r, "Total", 4);
    r
  }

  /**
   * The list handed to `append_row` for an expense: one cell per Expenses
   * column, in header order, so reading it back by column name gives the
   * expense.
   */
  function ExpenseRow(e: Expense): (r: seq<Cell>)
    ensures |r| == |ExpensesHeader|
    ensures ReadExpense(ExpensesHeader, r) == Some(e)
  {
    var r := [Text(e.date), Text(e.category), Text(e.item), Float(e.cost)];
    ColumnAt(ExpensesHeader, r, "Date", 0);
    ColumnAt(ExpensesHeader, r, "Category", 1);
    ColumnAt(ExpensesHeader, r, "Item", 2);
    ColumnAt(ExpensesHeader, r, "Cost", 3);
    r
  }
}
