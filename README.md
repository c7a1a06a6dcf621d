# Sales statistics core, modelled in Dafny

This project models the computational core of a small sales-statistics
service:

- `metrics.dfy` (module `Metrics`) models `analisar` from
  `src/core/metrics.py`. It is a filter, map and reduce pipeline over a
  list of integers. It keeps the even values strictly above `limite` and
  squares them. It folds the squares from `(0, 0)` into
  `(soma_quadrados, contagem)` and returns the floor mean, or 0 when
  nothing was kept. It is written as recursive functions: `Filter`,
  `Squares`, `Reduce` with the step `Acumulador`, and `Analisar`. They are
  proved equal to two reference definitions that do not call `Filter`,
  `Squares` or `Reduce`: `SelectedIndices`, the set of selected positions,
  and `SelectedSquareSum`, a recursive sum of the squares of the selected
  elements.
- `models.dfy` (module `Models`) models `src/core/models.py`:
  - `DataLoader`: the ordered list of missing required columns
    (`preco`, `qtd`), the validation built on it, and how `load` maps a read
    result to its exceptions. The file read itself is a `ReadOutcome`
    parameter.
  - `StatsService`: a class whose field `df` is its own `DataFrame` object.
    The constructor copies the caller's table into that field.
    `PrepareData` adds the derived `receita` column to the copy.
  - The getters for total quantity, total revenue and the quantity-weighted
    average price.
  - `RunFpChallenge`, which hands one integer-converted column to
    `Analisar`.

Prices and revenues are exact `real`s, and quantities are `int`s.
`astype(int)` is modelled as truncation toward zero (`Trunc`).

Python's `x % 2` and Dafny's `%` agree for every sign of `x`. Python's `//`
and Dafny's `/` agree whenever the divisor is positive. `analisar` divides
only by a positive count, so both operators are used directly.

The model follows what the code does, including these points where the
behaviour is easy to misread:

- A table missing a required column does not surface as the `ValueError`
  that the docstring of `load` announces (src/core/models.py:28-30).
  `load` re-raises it as a generic `Exception` wrapping the `ValueError`
  (`Unexpected(MissingColumns(..))`).
- An unparseable file is likewise wrapped in a generic `Exception`
  (`Unexpected(UnreadableTable)`). It is not a distinct format error.
- Prices and quantities are not checked to be non-negative. The average
  price is 0 whenever the total quantity is not positive, negative totals
  included.
- `DataLoader` keeps the parsed table in its `dataframe` field before
  validating it. A table that fails validation stays stored there.
- `StatsService` overwrites a `receita` column that the input table already
  has, keeping its position. Otherwise the new column is appended last.

## Model

| member | source | states |
|---|---|---|
| `Metrics.Filter` | src/core/metrics.py:25 | the result is no longer than the list, and a value occurs in it iff it occurs in the list and is even and strictly greater than `limite` |
| `Metrics.Squares` | src/core/metrics.py:28 | same length as the input, and each position holds the square of the input value at that position |
| `Metrics.Acumulador` | src/core/metrics.py:31-34 | one fold step: adds the value to `soma` and 1 to `contagem` |
| `Metrics.Reduce` | src/core/metrics.py:31-37 | the left-to-right fold of `acumulador` adds the sum of the values to `soma` and their number to `contagem`, whatever the start pair |
| `Metrics.SelectedSquareSum` | src/core/metrics.py:25-37 | reference sum of x*x over the selected elements, read straight off the list; never negative |
| `Metrics.Analisar` | src/core/metrics.py:7-46 | `contagem` is the number of positions holding an even value strictly above `limite`, and `soma_quadrados` is the reference sum of their squares. The count lies in [0, len], the sum is non-negative, and `media_inteira * contagem <= soma_quadrados < (media_inteira + 1) * contagem` when the count is positive. With a zero count, mean and sum are 0 and no division happens. The empty list gives (0, 0, 0) |
| `Metrics.FilterAppend` | src/core/metrics.py:25 | filtering `a + b` is filtering `a` followed by filtering `b`, order kept |
| `Metrics.FilterCount` | src/core/metrics.py:25 | the filter keeps exactly as many values as there are selected positions |
| `Metrics.SelectedIndicesSnoc` | src/core/metrics.py:25 | appending a value adds one selected position iff that value passes the filter |
| `Metrics.FilterSquareSum` | src/core/metrics.py:25-37 | summing the squares of the filtered values equals the reference sum |
| `Metrics.FloorDivBounds` | src/core/metrics.py:40 | for a positive count, the floor quotient `q` satisfies `q*c <= s < (q+1)*c` |
| `Metrics.SelectedSquareSumAppend` | src/core/metrics.py:25-37 | the reference sum of `a + b` is the sum of those of `a` and of `b` |
| `Metrics.FoldAdditive` | src/core/metrics.py:31-37 | the `(soma, contagem)` of `a + b` is the component-wise sum of those of `a` and `b` |
| `Metrics.NotSelectedIgnored` | src/core/metrics.py:25 | inserting an odd value, or one not above the limit (the limit itself included), anywhere in the list leaves the whole result unchanged |
| `Metrics.SelectedCounted` | src/core/metrics.py:25 | inserting an even value above the limit, negative ones included, adds its square to the sum and 1 to the count |
| `Metrics.ExampleOneToSix` | src/core/metrics.py:7-46 | `[1..6]` with limit 2 gives sum 52, count 2, mean 26 |
| `Models.Absent` | src/core/models.py:47 | a name is in the result iff it is required and absent from the header |
| `Models.MissingRequired` | src/core/models.py:46-47 | the missing list is exactly `preco` if absent, followed by `qtd` if absent |
| `Models.ValidateColumns` | src/core/models.py:44-49 | fails iff `preco` or `qtd` is absent from the header. The error is the missing-columns error, naming a non-empty list that holds exactly the absent required columns, each once, `preco` before `qtd` (the list `MissingRequired` gives) |
| `Models.LoadError` | src/core/models.py:35-42 | a missing file gives FileNotFoundError with the path. An unparseable file gives a generic Exception wrapping the parse error. A table fails iff a required column is absent, and then the error is a generic Exception wrapping the missing-columns error, never a bare ValueError. No other kind of error is produced |
| `Models.DataLoader.constructor` | src/core/models.py:14-22 | the loader keeps the path and starts with no table |
| `Models.DataLoader.Load` | src/core/models.py:24-42 | fails exactly when `LoadError` reports an error, with that error. A parsed table is stored in a fresh `dataframe` even if validation then fails. Otherwise `dataframe` is unchanged. On success the stored object is returned |
| `Models.DataFrame.Copy` | src/core/models.py:65 | `copy()` returns a fresh object with the same table |
| `Models.AveragePrice` | src/core/models.py:83-89 | with positive total quantity, `average * total_quantity == total_revenue` exactly. Otherwise the average is 0 |
| `Models.StoredRevenue` | src/core/models.py:81 | the sum of the stored `receita` cells, which `GetTotalRevenue` returns |
| `Models.StoredRevenueIsTotal` | src/core/models.py:71 | when every row's `receita` equals `preco * qtd`, the sum of the `receita` column equals the sum of `preco * qtd` |
| `Models.AddRevenue` | src/core/models.py:71 | same number of rows in the same order, each with `receita := preco * qtd` and nothing else changed |
| `Models.WithRevenue` | src/core/models.py:68-73 | the prepared table keeps row count and order, and each row's `preco` and `qtd`. Each row's cells are those of the input row plus `receita`, every cell of every other column unchanged. Every row's `receita` is `preco * qtd`, and both totals are those of the input rows. `receita` is appended to the header unless already there |
| `Models.AddRevenueWellFormed` | src/core/models.py:71 | after adding `receita`, every row still has a cell for every non-required column of the new header |
| `Models.AddRevenueKeepsTotals` | src/core/models.py:71 | adding `receita` leaves total quantity and total revenue unchanged |
| `Models.ColumnAsInts` | src/core/models.py:106 | one integer per row: each cell truncated toward zero. The `qtd` column is kept exactly |
| `Models.Trunc` | src/core/models.py:106 | rounds toward zero: for `x >= 0`, `0 <= r <= x < r + 1`; for `x < 0`, `r - 1 < x <= r <= 0` |
| `Models.StatsService.constructor` | src/core/models.py:56-65 | the working copy is a fresh object holding the caller's table |
| `Models.StatsService.PrepareData` | src/core/models.py:68-73 | fails, changing nothing, iff `preco` or `qtd` is missing. Otherwise the working copy becomes `WithRevenue` of itself and the service is valid |
| `Models.StatsService.Create` | src/core/models.py:56-73 | construction fails iff `preco` or `qtd` is missing. The caller's table is unchanged either way. On success the service and its table object are fresh, so they never alias the caller's, and the service holds `WithRevenue` of the caller's table |
| `Models.StatsService.GetTotalQuantity` | src/core/models.py:75-77 | the sum of `qtd` over the working copy's rows |
| `Models.StatsService.GetTotalRevenue` | src/core/models.py:79-81 | summing the stored `receita` column gives the sum of `preco * qtd` over the rows |
| `Models.StatsService.GetAveragePrice` | src/core/models.py:83-89 | with positive total quantity, `average * total_quantity == total_revenue`. Otherwise 0 |
| `Models.StatsService.RunFpChallenge` | src/core/models.py:91-109 | a column absent from the working copy (which includes `receita`) is an error naming it. Otherwise the result is exactly `Analisar` of the column converted to integers, with the given limit |
| `Models.RevenueBetween` | src/core/models.py:75-81 | with non-negative quantities and prices in `[lo, hi]`, the revenue lies between `lo` and `hi` times the total quantity |
| `Models.WeightedAverageBounds` | src/core/models.py:83-89 | the quantity-weighted average of such rows lies between the lowest and highest price |
| `Models.ExampleTwoRows` | src/core/models.py:75-89 | rows (10.0, 2) and (5.0, 4) give quantity 6, revenue 40.0, average 40/6 |
| `Models.ReadTwice` | src/core/models.py:75-89 | calling each getter twice on the same service gives identical answers |

## Left out

- Reading the CSV file (`pd.read_csv`) is not modelled. `DataLoader.Load` takes the outcome of the read as a parameter. The outcomes are: no file, not a table, or a table.
- Exception messages are structured `Error` values, not formatted strings.
- Floating point is not modelled. Prices, revenues and the average are exact reals, so the rounding of float sums and of `float(...)` is not captured.
- TotalQuantity, AddRevenue and ColumnAsInts: fixed-width pandas integers are not modelled. `qtd` (and `preco` when every price is whole) is int64 in pandas, so the `qtd` sum, `preco * qtd` and `astype(int)` can wrap around on overflow; the model's `int` and `real` are unbounded. Every column is numeric too (`extra: map<string, real>`), so the error `astype(int)` raises on a text column is not modelled either.
- Missing cells (NaN), dtype inference and pandas' renaming of duplicate column names are not modelled. Every table is rectangular: the `Table` type requires a cell for every column in every row.
- The `TypeError` for a constructor argument that is not a DataFrame is not modelled. The Dafny parameter type already rules that argument out.
- src/make_stats.py is not part of this model. It is orchestration: fixed paths, `round(..., 2)`, JSON output and error printing.
- src/app.py (HTTP endpoints) and ui/app.py (dashboard) are not part of this model. They do I/O and presentation only.
