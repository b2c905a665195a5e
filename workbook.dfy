/**
 * The "Coffee Tracker" spreadsheet as the app changes it: opening (and if
 * need be creating) its two worksheets, and appending one row per recorded
 * sale or saved expense. Appends only ever add at the end; nothing is
 * updated or deleted.
 */
module Workbook {
  import opened Options
  import opened Records
  import opened Dashboard

  /** A worksheet: its header row and the data rows beneath it. */
  datatype Worksheet<R> = Worksheet(header: seq<string>, rows: seq<R>)

  /** What the "Save Expense" button leads to. */
  datatype ExpenseOutcome =
    | Saved       // the row was appended
    | Incomplete  // the guard failed: the warning is shown and nothing is written
    | Failed      // the append raised: the error is shown and nothing is written

  /** Every row of a Sales worksheet is a sale the order page could have written. */
  predicate SalesWritten(ws: Option<Worksheet<Sale>>) {
    ws.Some? ==> forall i :: 0 <= i < |ws.value.rows| ==> ConsistentSale(ws.value.rows[i])
  }

  /** Every row of an Expenses worksheet passed the expense page's guard. */
  predicate ExpensesWritten(ws: Option<Worksheet<Expense>>) {
    ws.Some? ==> forall i :: 0 <= i < |ws.value.rows| ==> Acceptable(ws.value.rows[i].item, ws.value.rows[i].cost)
  }

  class Spreadsheet {
    /** The "Sales" worksheet, or None while it does not exist. */
    var sales: Option<Worksheet<Sale>>
    /** The "Expenses" worksheet, or None while it does not exist. */
    var expenses: Option<Worksheet<Expense>>

    /** Every row the app wrote: sales are consistent, expenses passed the guard. */
    ghost predicate Valid()
      reads this
    {
      SalesWritten(sales) && ExpensesWritten(expenses)
    }

    /** The spreadsheet as opened, holding only rows the app itself wrote. */
    constructor (sales: Option<Worksheet<Sale>>, expenses: Option<Worksheet<Expense>>)
      requires SalesWritten(sales) && ExpensesWritten(expenses)
      ensures Valid()
      ensures this.sales == sales && this.expenses == expenses
    {
      this.sales := sales;
      this.expenses := expenses;
    }

    /**
     * Startup: a missing worksheet is created holding only its header row;
     * one that exists is left exactly as it is, so a second run changes
     * nothing.
     */
    method OpenWorksheets()
      requires Valid()
      modifies this
      ensures Valid()
      ensures sales == if old(sales).Some? then old(sales) else Some(Worksheet(SalesHeader, []))
      ensures expenses == if old(expenses).Some? then old(expenses) else Some(Worksheet(ExpensesHeader, []))
    {
      if sales.None? {
        sales := Some(Worksheet(SalesHeader, []));
      }
      if expenses.None? {
        expenses := Some(Worksheet(ExpensesHeader, []));
      }
    }

    /**
     * "Record Sale": the charge is quantity times price; one row
     * [timestamp, item, qty, price, total] goes to the end of Sales unless
     * the append fails (`appendOk` false), in which case nothing changes.
     * Expenses is never touched.
     */
    method RecordSale(timestamp: string, item: string, qty: int, price: int, appendOk: bool)
        returns (total: int, recorded: bool)
      requires Valid() && sales.Some?
      requires item in Menu && qty >= 1
      modifies this
      ensures Valid()
      ensures total == qty * price && recorded == appendOk
      ensures sales.Some? && sales.value.header == old(sales.value.header)
      ensures sales.value.rows == old(sales.value.rows) + (if recorded then [Sale(timestamp, item, qty, price, total)] else [])
      ensures expenses == old(expenses)
    {
      total := qty * price;
      recorded := appendOk;
      if recorded {
        var row := Sale(timestamp, item, qty, price, total);
        sales := Some(sales.value.(rows := sales.value.rows + [row]));
      }
    }

    /**
     * "Save Expense": without an item description or with a cost that is
     * not positive nothing is written; otherwise one row
     * [timestamp, category, item, cost] goes to the end of Expenses unless
     * the append fails. Sales is never touched.
     */
    method SaveExpense(timestamp: string, category: Category, item: string, cost: real, appendOk: bool)
        returns (outcome: ExpenseOutcome)
      requires Valid() && expenses.Some?
      modifies this
      ensures Valid()
      ensures outcome == if !Acceptable(item, cost) then Incomplete else if appendOk then Saved else Failed
      ensures expenses.Some? && expenses.value.header == old(expenses.value.header)
      ensures expenses.value.rows == old(expenses.value.rows)
                + (if outcome == Saved then [Expense(timestamp, CategoryName(category), item, cost)] else [])
      ensures sales == old(sales)
      ensures forall key :: ExpenseTotal(expenses.value.rows, key) >= 0.0
    {
      if item != "" && cost > 0.0 {
        if appendOk {
          var row := Expense(timestamp, CategoryName(category), item, cost);
          expenses := Some(expenses.value.(rows := expenses.value.rows + [row]));
          outcome := Saved;
        } else {
          outcome := Failed;
        }
      } else {
        outcome := Incomplete;
      }
      forall key: string ensures ExpenseTotal(expenses.value.rows, key) >= 0.0 {
        MonthTotalNonNegative(expenses.value.rows, ExpenseDate, ExpenseAmount, key);
      }
    }
  }
}
