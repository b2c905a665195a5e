# Cafe POS and expense log: a Dafny model of its record keeping

The cafe app (`app.py`) keeps two worksheets in one spreadsheet. "Sales" has the columns
Date, Item, Qty, Price and Total. "Expenses" has the columns Date, Category, Item and Cost.
The order page appends one sale row. The expense page appends one expense row, but only
after a guard passes. At startup the app creates each worksheet that is missing, with its
header row. The dashboard filters both worksheets by the current month, sums the money
columns, takes the difference as net profit, and lists the five newest rows of each sheet.

The project has seven modules:

- `Options` (options.dfy): the `Option` datatype.
- `Text` (text.dfy): the substring test the dashboard uses (`Contains`) next to a prefix test.
- `Clock` (clock.dfy): the two `strftime` formats, `%Y-%m-%d %H:%M` for stamps and `%Y-%m`
  for month keys, for a given moment. The clock itself is a parameter.
- `Records` (records.dfy): the sale and expense records, the header rows, the cell rows
  given to `append_row`, and reading a row back by column name.
- `Dashboard` (dashboard.dfy): month filter, month totals, net profit and the last-five
  tables, all as pure functions over `seq<Sale>` and `seq<Expense>` with the month key as
  a parameter.
- `Workbook` (workbook.dfy): class `Spreadsheet`. Its two fields are the worksheets.
  Its methods open the worksheets, record a sale and save an expense.
- `Consistency` (consistency.dfy): lemmas that join the pages. A stamped row counts toward
  exactly its own month. It also holds worked examples.

Money is modelled with unbounded numbers. Quantity, price and total are `int`, as the number inputs return
Python ints there. Cost is `real`. The dashboard sums both sides as `real`.

Three points where the code is easy to misread:

- The month filter is `str.contains`, a substring test, not a prefix test.
  `Clock.KeyOnlyAtStart` shows that the two agree on well-formed stamps and keys.
  `Text.ContainedNotPrefix` shows that they differ on other date strings.
- The price input has no lower bound, so a sale's price and total may be negative
  (`Consistency.SalesTotalMayBeNegative`).
- `append_row` never compares a row with the header row, so the model makes no such check.

## Model

| member | source | states |
|---|---|---|
| `Text.PrefixIsContained` | app.py:115 | a date that starts with the month key passes the substring filter |
| `Text.ContainedNotPrefix` | app.py:115 | the filter also admits a date that carries the key after other text, so it is not a prefix test |
| `Clock.Pad2` | app.py:72 | `%m`, `%d`, `%H`, `%M`: two decimal digits whose value is the number |
| `Clock.Pad4` | app.py:109 | `%Y` for a four-digit year: four decimal digits whose value is the year |
| `Clock.MonthKey` | app.py:109 | the month key is a well-formed `YYYY-MM` string whose year and month parts are the padded year and month |
| `Clock.Stamp` | app.py:72 | a row's timestamp is a well-formed `YYYY-MM-DD HH:MM` string that begins with the month key of the same moment and carries the padded day, hour and minute at indices 8-9, 11-12 and 14-15 |
| `Clock.KeyOnlyAtStart` | app.py:115 | in a well-formed stamp, a well-formed month key can only occur at index 0, so substring and prefix tests agree there |
| `Clock.StampInMonthIff` | app.py:89 | a row stamped at moment t passes the filter for the month key of moment u if and only if t and u have the same year and month |
| `Records.ColumnAt` | app.py:105-106 | reading a data row by column name yields the cell under the first header entry with that name |
| `Records.SaleRow` | app.py:73 | the list given to `append_row` for a sale has exactly one cell per Sales header column, in header order, and reading it back by column name gives the sale that was written |
| `Records.ExpenseRow` | app.py:90 | the list given to `append_row` for an expense has exactly one cell per Expenses header column, in header order, and reading it back gives the expense |
| `Dashboard.InMonth` | app.py:115 | the filtered rows are at most as many as the rows; they are rows whose date contains the key, and every such row is kept (multiplicity is in `Dashboard.InMonthMultiplicity`, order in `Dashboard.InMonthConcat`) |
| `Dashboard.InMonthMultiplicity` | app.py:115 | the boolean mask keeps every row whose date contains the key as many times as it occurs, and no other row |
| `Dashboard.MonthTotal` | app.py:111-120 | the month total is 0 when no row's date contains the key, in particular for an empty sheet |
| `Dashboard.SalesTotal` | app.py:115 | the month's sales total is the sum over all sales of Total where the date contains the key and 0 elsewhere |
| `Dashboard.ExpenseTotal` | app.py:120 | the month's expense total is the sum over all expenses of Cost where the date contains the key and 0 elsewhere |
| `Dashboard.SumConcat` | app.py:115 | the column sum of two stretches of rows is the sum of their sums |
| `Dashboard.InMonthConcat` | app.py:115 | filtering two stretches of rows is filtering each one, in order |
| `Dashboard.MonthTotalConcat` | app.py:115 | the month total of two stretches of rows is the sum of their month totals |
| `Dashboard.MonthTotalAppend` | app.py:115 | appending a row adds its amount to the month total if its date contains the key, and adds nothing otherwise |
| `Dashboard.MonthTotalIgnoresOtherMonths` | app.py:120 | rows outside the month, wherever they sit, do not change the month total |
| `Dashboard.MonthTotalIsMaskedSum` | app.py:115 | filter-then-sum equals an independent masked sum over every row (amount if the date contains the key, else 0) |
| `Dashboard.MonthTotalNonNegative` | app.py:120 | with no negative amounts, the month total is not negative |
| `Dashboard.Reverse` | app.py:137 | `iloc[::-1]` keeps the length and puts element i at position n-1-i |
| `Dashboard.Newest` | app.py:137 | `tail(n).iloc[::-1]` has min(n, len) elements, and element i is row len-1-i |
| `Dashboard.RecentSales` | app.py:137 | the Last 5 Sales table has min(5, n) lines; line i shows Date, Item and Total of sheet row n-1-i; it is taken over the whole sheet, not the month |
| `Dashboard.RecentExpenses` | app.py:142 | the Last 5 Expenses table has min(5, n) lines; line i shows Date, Item and Cost of sheet row n-1-i; it is taken over the whole sheet |
| `Dashboard.Summarize` | app.py:111-122 | the dashboard totals equal the month totals (0 for an empty sheet, which skips the filter); net profit is exactly sales total minus expense total; both tables are the last-five views |
| `Workbook.Spreadsheet.constructor` | app.py:24 | the opened spreadsheet holds the worksheets it was given, whose rows are all ones the app could have written, so the row invariant holds |
| `Workbook.Spreadsheet.OpenWorksheets` | app.py:30-39 | a missing worksheet is created holding only its header; an existing one is left exactly as it was, so a second run changes nothing; the row invariant is kept |
| `Workbook.Spreadsheet.RecordSale` | app.py:62-76 | the total is qty × price with qty ≥ 1; if the append succeeds exactly one row [timestamp, item, qty, price, total] is added at the end of Sales, otherwise Sales is unchanged; Expenses is never touched |
| `Workbook.Spreadsheet.SaveExpense` | app.py:86-95 | with an empty item or cost ≤ 0 the outcome is Incomplete and nothing changes; otherwise exactly one row [timestamp, category, item, cost] is added at the end of Expenses if the append succeeds; Sales is never touched; every month's expense total stays ≥ 0 |
| `Consistency.RecordedSaleCountsInItsMonth` | app.py:72-73 | a sale recorded at t raises the sales total shown at u by qty × price exactly when t and u are in the same month |
| `Consistency.SavedExpenseCountsInItsMonth` | app.py:89-90 | an expense saved at t raises the expense total shown at u by its cost exactly when t and u are in the same month |
| `Consistency.LoggedExpensesNonNegative` | app.py:87 | expenses that passed the guard give a month expense total ≥ 0 |
| `Consistency.SalesTotalMayBeNegative` | app.py:64 | a consistent sale with a negative price yields a negative sales total |
| `Consistency.NetMayBeNegative` | app.py:122 | net profit is not clamped: expenses alone give a negative net |
| `Consistency.MayTotalExample` | app.py:115 | with sales of 100 and 50 in May and 200 in June, the May total is 150 |
| `Consistency.EmptyExample` | app.py:111-118 | empty sheets give totals of 0, net 0 and empty tables |
| `Consistency.RecentExpensesExample` | app.py:142 | of six expenses costing 30 to 80, the table shows 80, 70, 60, 50, 40 |

## Left out

- The Streamlit page layer is UI and is not modelled: page config, sidebar navigation,
  headers, metrics, toasts, warnings, the "Refresh Data" button with
  `st.cache_data.clear()`, and currency formatting with `f"P{...:,.2f}"`.
- Credentials, `gspread` authorisation, opening the spreadsheet by name, and the
  connection-error `st.stop()` are network I/O. The spreadsheet is the `Spreadsheet`
  object handed to the methods.
- `datetime.now()` is replaced by the timestamp and month-key parameters. `Clock` models
  the two formats only for years 1000 to 9999, because `%Y` does not pad smaller years.
- An `append_row` that raises is modelled by the `appendOk` parameter. The exception's
  kind and message are not modelled.
- The worksheet lookup's bare `except` sends any error, not only a missing worksheet, to
  the create branch. The model only distinguishes "exists" from "missing".
- The grid size given to `add_worksheet` (1000 rows, 4 or 5 columns) is not modelled.
- Worksheets that exist when the app starts are assumed to hold only rows the app wrote:
  sales with qty ≥ 1 and total = qty × price, and expenses that passed the guard. The
  source appends to whatever an existing worksheet holds.
- Worksheet rows are typed records. Rows already in an existing worksheet are assumed to
  hold a sale or an expense. Cells of other types and `get_all_records`'s conversion of
  numeric text are not modelled, and neither is its handling of duplicate header names.
- pandas mechanics are not modelled: DataFrame construction, `astype(str)` on dates, and
  `na=False`. `str.contains` treats its key as a regular expression. The model uses a
  literal substring test, which is the same for keys made of digits and `-` such as a
  `%Y-%m` month key.
- Floating-point rounding and integer width are not modelled: money is `int` or `real`. The
  source sums an int column as 64-bit integers and the sheet stores numbers as doubles, so
  totals far beyond a cafe's scale would wrap or round there.
- `Dashboard.Summarize`: the sales total is `real` in the model. It is a Python int in the
  source, and the values are equal because integers embed exactly.
- The menu's prices are only the default of the price input. The model takes the price as
  a parameter and only requires the item to be on the menu.
