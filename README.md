# Budget builder core (Montagem de Orçamento) in Dafny

This project models the logic behind a small Streamlit app (`main.py`).
The app loads a base spreadsheet of priced items and derives a unit price for each item.
A user then assembles a budget ("CO") of lines and sees a table that ends in a grand-total row.
Three parts of that logic are modelled and proved:

- **Catalog ingestion** (`catalog.dfy`, module `Catalog`).
  - The workbook is modelled as an ordered sequence of sheets. Each sheet has already been parsed with its header on the sixth row, or has failed to parse.
  - `FindSheet` is the sheet loop. It skips sheets whose read fails and stops at the first sheet whose columns include `Item`, `un`, `Quantidade Total` and `Valor Total`.
  - `Classify` and `Derive` model the row pipeline:
    - drop rows with a missing `Item`, `Quantidade Total` or `Valor Total`;
    - turn a zero quantity into NA;
    - divide the total by the quantity;
    - drop rows whose quotient is NA.
  - `LoadBaseTable` composes these steps, and `BuildBaseDict` folds the priced rows into the item lookup map.
- **Budget table** (`budget.dfy`, module `Budget`). `BudgetTable` gives the lines in order plus a trailing `TOTAL GERAL` row, or an empty table when there are no lines.
- **Session state** (`budget.dfy`). `Session` is a class with the four session keys: base table, base dict, budget lines and the "CO generated" flag.
  - Each key is a `Slot`, either absent or present with a value.
  - `Init`, `StartBudget` and `AddLine` update the fields in place. Each is specified by a pure function on a `SessionView` snapshot (`Initialized`, `Started`, `WithLine`), and the lemmas are stated about those functions.

Modelling choices:
- Numbers are exact `real`s. A missing cell (pandas NA/NaN) is `None`. A cell holds either a number or text.
  - Booleans are `Num(1.0)` and `Num(0.0)`. Python treats them as numbers in `/`, in `replace(0, …)` and as dict keys.
  - Dates and other non-numeric cells are `Text`. Dividing by them, or dividing them, raises as it does for text.
- The pandas column operations are element-wise, so they are modelled one row at a time.
- One effect is not element-wise. Dividing text by a number, or a number by text, raises a `TypeError`, which fails the whole load. `Derive` returns `None` for this, and `LoadBaseTable` reports it as `Unreadable`, as the source's outer `except` does. Dividing by NA gives NA even when the other operand is text. So a row whose zero quantity became NA is only dropped, never an error.

Behaviour fixed by the code:
- **Duplicate items.** A later row with the same `Item` replaces the value of the earlier one (`main.py:86-91`). The key keeps the position of its first row, as Python dicts keep insertion order. `BuildBaseDict` states both.
- **Header position.** The header row is always the sixth (`header=5`, `main.py:37`). Only the sheets are searched.

## Model

| member | source | states |
|---|---|---|
| `Catalog.FindSheet` | main.py:33-44 | The returned index is the first sheet, in file order, that parsed and has all four expected columns, so no later sheet is chosen. Nothing is returned exactly when no sheet matches; sheets whose read fails never match. |
| `Catalog.Classify` | main.py:59-72 | A row is kept exactly when it has an item, a numeric non-zero quantity and a numeric total. It makes the division raise exactly when it passes the NA mask, its quantity is not zero, and an operand is text. A kept row has unit price = total / quantity and equals the sheet row it came from. |
| `Catalog.Derive` | main.py:59-72 | The load fails exactly when some row makes the division raise. Otherwise the retained rows are exactly the sheet's usable rows, in order, so a usable row is never dropped. Every retained row has a non-zero quantity and unit price = total / quantity. |
| `Catalog.UsableRowsInOrder` | main.py:59-72 | The retained rows are an order-preserving subsequence of the sheet's rows. |
| `Catalog.UsableRowsMembership` | main.py:59-72 | A row is retained if and only if it occurs in the sheet and has an item, a numeric non-zero quantity and a numeric total. |
| `Catalog.LoadBaseTable` | main.py:18-81 | A file that cannot be opened gives `Unreadable`. No matching sheet gives `NoMatchingSheet`, and only then. A raising division in the first matching sheet gives `Unreadable`. The load succeeds exactly when the file opens, some sheet matches and the first matching sheet's division does not raise. Success names the first matching sheet (index and name) and carries exactly that sheet's derived rows. |
| `Catalog.BuildBaseDict` | main.py:84-92 | The key set is exactly the set of `Item` values of the rows. Each key maps to the `un` and unit price of the last row with that item. The returned key order holds exactly the keys, sorted by the index of each item's first row, so each item appears once in the order it first appears. |
| `Budget.GrandTotalAppend` | main.py:117 | Appending a line adds exactly its line total to the sum of line totals. |
| `Budget.BudgetTable` | main.py:112-128 | No lines give an empty table. Otherwise the table has n+1 rows: the n lines in order and unchanged, then one `TOTAL GERAL` row with blank unit, price and quantity, whose total is the sum of the line totals. |
| `Budget.TotalRowIsColumnSum` | main.py:116-128 | In a non-empty budget table, the total row's total equals the sum of the total column over the rows above it. |
| `Budget.LineRowsSum` | main.py:116-117 | The total column of the line rows sums to the grand total of the lines. |
| `Budget.Initialized` | main.py:7-15 | After initialisation every key is present. A key that was present keeps its value. An absent key gets its default: table None, empty dict, no lines, not generated. |
| `Budget.InitializedIdempotent` | main.py:7-15 | Initialising twice is the same as initialising once. |
| `Budget.Session.constructor` | main.py:7-8 | A fresh session holds none of the four keys. |
| `Budget.Session.Init` | main.py:7-15 | Updates the session in place to `Initialized` of its previous state. |
| `Budget.Started` | main.py:95-97 | Starting a budget leaves no lines and sets the generated flag. It leaves the loaded table and dict untouched. |
| `Budget.StartedIdempotent` | main.py:95-97 | Starting a budget twice is the same as starting it once. |
| `Budget.Session.StartBudget` | main.py:95-97 | Updates the session in place to `Started` of its previous state, changing only the lines and the flag. |
| `Budget.WithLine` | main.py:100-109 | Adding a line grows the list by exactly one and leaves earlier lines unchanged. The new last line has no item, unit `""`, and price, quantity and total 0. Other keys are untouched. |
| `Budget.AddLineKeepsGrandTotal` | main.py:100-117 | Adding a placeholder line does not change the grand total. |
| `Budget.Session.AddLine` | main.py:100-109 | Updates the session in place to `WithLine` of its previous state, changing only the lines. |

## Left out

- Streamlit UI and session plumbing are not modelled: `main()` (main.py:140 onward), error and sidebar messages, buttons, and `st.session_state` as a global. The session is an explicit `Session` object instead. The step in `main()` that stores a loaded table and its dict in the session is UI wiring and is not modelled either.
- The per-line editing and render loop is not modelled (main.py:203 onward). Its text is incomplete, so item binding, quantity handling and the recomputation of `total_linha` there cannot be stated.
- Excel I/O is not modelled: `pd.ExcelFile` and `pd.read_excel` (main.py:27, 37) and `gerar_excel_download` (main.py:131-136). The parsed workbook is an input (`Workbook`). Parsing is foreign library code.
- Columns other than the four catalog columns travel with each pandas row but are not modelled. The model does not use them.
- The `float()` conversion (main.py:90) and floating-point rounding are not modelled. Prices are exact reals.
- The empty `pd.DataFrame()` has no columns as well as no rows. `BudgetTable` represents it as an empty sequence, so that difference is not visible.
- `Budget.Session.AddLine`: requires the lines key to be present. The source would raise `KeyError` otherwise, and its only caller runs after the keys are initialised.
- Column names are taken as given strings. pandas renames duplicate or blank headers, and that renaming is part of parsing, which is not modelled.
