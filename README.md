# Cost basis and holdings of a stock portfolio tracker

This project models, in Dafny, the two functions of `data_processing.py` that hold the
tracker's logic, and proves properties of the model.

- `calculate_vwap` walks the transaction rows in datetime order. It keeps two dictionaries
  keyed by product name (not by ISIN, despite the variable names): the running
  volume-weighted average price (VWAP) and the net position. Each row goes through four cases:
  - a sell while flat makes the VWAP `None`;
  - a buy while flat restarts the VWAP at the buy price;
  - a buy on a non-zero position updates the VWAP to the quantity-weighted mean;
  - a sell on a non-zero position lowers the position and keeps the VWAP.

  One snapshot is appended per row. The result per product is pandas'
  `groupby('product').last()` of those snapshots, which skips nulls: it is the last
  snapshot that is not `None`, or `None` if every snapshot was `None`.
  Modelled in `vwap.dfy` (module `Vwap`). `Step` is one iteration of the loop, `RunFrom`/`Run`
  the whole loop as a fold, `LastDefined`/`LastPerProduct` the `last()` call, and
  `VwapPerProduct` the function's result. `CalculateVwap` is the loop itself, written as an
  imperative method over two maps and a snapshot list. `ProcessRow` is one iteration of that
  loop, proved to do what `Step` says. `CalculateVwap`'s postcondition says it returns
  `VwapPerProduct`.
- `calculate_holdings` fills a missing fx rate with 1 and a missing transaction cost with 0.
  It sums quantity and transaction cost per (product, isin, currency) group, drops the groups
  whose total quantity is 0, and attaches each group's product VWAP from `calculate_vwap`.
  Modelled in `holdings.dfy` (module `Holdings`) as pure functions: `FillDefaults`,
  `GroupSums` (a one-pass fold into a map of running totals) and `CalculateHoldings`.
  `CalculateHoldings` returns a map from group key to holding.

Prices and quantities are exact `real`s. An undefined VWAP is `Option<real>`. The two
dictionaries are `map<string, …>`. The input sequence is taken as already sorted by datetime.

Two inputs make the source's loop raise. The model returns an explicit error for each
(`Vwap.Failure`) rather than a value:
- `NoCostBasis`: a buy on a non-zero position whose VWAP is `None`. This happens after a
  sell while flat. The source evaluates `None * position` (data_processing.py:89).
- `ZeroPosition`: a buy that brings a short position to exactly 0. The source divides by the
  new position (data_processing.py:90-91). With numpy scalars this division may yield
  `inf`/`nan` with a warning instead of raising; the model treats it as an error either way.

The error stops the whole computation, as an uncaught exception does. `CalculateHoldings` fails
exactly when the VWAP loop fails.

Two behaviours of the code are worth stating plainly:
- A sell that lands exactly on 0 keeps the VWAP defined (`SellOnOpenPosition`). The next row
  of the product either restarts it (a buy, `BuyWhileFlat`) or clears it to `None` (a sell,
  `SellWhileFlat`).
- Two currencies of one product give two separate rows, not an error
  (`MixedCurrenciesAreSeparateRows`).

## Model

| member | source | states |
|---|---|---|
| `Vwap.Step` | data_processing.py:73-95 | One row moves its product's position by the row's signed quantity and leaves every other product's position and VWAP unchanged. It fails exactly on a buy on a non-zero position whose VWAP is undefined or whose new position would be 0, and the error names the row's product. |
| `Vwap.RunFrom` | data_processing.py:68-98 | A successful run emits exactly one snapshot per input row. |
| `Vwap.Run` | data_processing.py:64-98 | A definition: the loop from empty dictionaries, with one snapshot per row. `SnapshotPerRow` gives the snapshots their meaning and `PositionIsNetQuantity` gives the positions theirs. |
| `Vwap.RunFromKeys` | data_processing.py:74-75 | Every product a run sees gets a position entry, and nothing else is added. An error names a product of the rows. |
| `Vwap.LastDefined` | data_processing.py:104 | A definition of pandas' null-skipping `last()`: a defined result is one of the snapshots. `LastDefinedIsLastNonNone` gives it its meaning. |
| `Vwap.LastPerProduct` | data_processing.py:104 | The result has one entry per product that occurs in the input. |
| `Vwap.VwapPerProduct` | data_processing.py:55-104 | A definition of `calculate_vwap`'s result: the loop's error exactly when the loop raises, otherwise one entry per product of the input. `VwapPerProductMeaning` gives the entries their meaning. |
| `Vwap.RunErrorPersists` | data_processing.py:68-95 | Once a prefix of the rows raises, the whole loop raises the same error. |
| `Vwap.ProcessRow` | data_processing.py:69-95 | One iteration of the loop, on the two dictionaries. It returns exactly the new dictionaries that `Step` gives, or the failure where `Step` fails. |
| `Vwap.CalculateVwap` | data_processing.py:55-104 | The imperative loop over the two dictionaries and the snapshot list returns exactly `VwapPerProduct`: the per-product last defined snapshot, or the error of the first raising row. |
| `VwapProperties.BuyWhileFlat` | data_processing.py:82-86 | A buy while the position is 0 sets the VWAP to the buy price and the position to the bought quantity, whatever came before. |
| `VwapProperties.BuyOnOpenPosition` | data_processing.py:87-91 | A buy on a non-zero position with a defined VWAP that does not land on 0 adds the quantity to the position. The VWAP becomes the quantity-weighted mean of the old VWAP over the old position and the buy price over the bought quantity. |
| `VwapProperties.BuyAddsBoughtValue` | data_processing.py:89-91 | After such a buy, VWAP × position grows by exactly price × quantity. |
| `VwapProperties.SellOnOpenPosition` | data_processing.py:93-95 | A sell on a non-zero position keeps the VWAP and lowers the position by the sold quantity. A sell landing exactly on 0 leaves a defined VWAP defined. |
| `VwapProperties.SellWhileFlat` | data_processing.py:78-95 | A sell while flat sets the VWAP to `None` and leaves the position at minus the sold quantity. |
| `VwapProperties.ZeroQuantityRow` | data_processing.py:74-95 | A zero-quantity row changes no product's position or VWAP. |
| `VwapProperties.RunFromAppend` | data_processing.py:68-98 | Running `a` and then `b` is running `a + b`, with the snapshots concatenated. |
| `VwapProperties.PositionIsNetQuantityFrom` | data_processing.py:74-95 | After a run, every product's position is its starting position plus the sum of its signed quantities in the run. |
| `VwapProperties.PositionIsNetQuantity` | data_processing.py:74-95 | After the loop, every product's position equals the sum of its signed quantities. |
| `VwapProperties.LongPositionHasVwap` | data_processing.py:78-91 | After a successful run from empty dictionaries, every product with a positive position has a defined VWAP. |
| `VwapProperties.BuyOnLongPositionSucceeds` | data_processing.py:87-91 | A buy of a product held long never raises. So both raising paths, including a missing dictionary key at line 89, are reachable only from a short position. |
| `VwapProperties.RunPrefix` | data_processing.py:68-98 | A successful run succeeds on every prefix, and the prefix's snapshots are the first snapshots of the whole run. |
| `VwapProperties.SnapshotPerRow` | data_processing.py:97-98 | There are as many snapshots as rows, in row order. Snapshot `k` is the VWAP of row `k`'s product in the state right after row `k`. |
| `VwapProperties.BuysFromFlat` | data_processing.py:82-91 | From a flat position, a run of buys of one product never fails. It ends with position Σqty > 0 and VWAP Σ(price·qty)/Σqty. |
| `VwapProperties.BuyOnlyHistory` | data_processing.py:82-91 | For a buy-only history of one product, the VWAP is Σ(price·qty)/Σqty. |
| `VwapProperties.ReopenedPositionRestarts` | data_processing.py:82-86 | After any history that leaves the product flat, a run of buys gives the VWAP of those buys alone: the earlier cost basis is forgotten. |
| `VwapProperties.UndefinedUntilBuy` | data_processing.py:78-98 | Once a product's VWAP is `None`, it stays `None` until a buy of that product, even with other products' rows in between. Any failure belongs to another product. Every snapshot of the product is `None`. A run of only that product's sells and zero rows never fails. |
| `VwapProperties.StepIsLocal` | data_processing.py:74-95 | A row has the same effect on its product in any two states that agree on that product. |
| `VwapProperties.ProductsAreIndependent` | data_processing.py:64-95 | When the loop succeeds, running only one product's rows succeeds and leaves that product in the same position and VWAP. |
| `VwapProperties.LastDefinedIsLastNonNone` | data_processing.py:104 | The per-product value is `None` exactly when all of the product's snapshots are `None`. Otherwise it is the snapshot of a row of the product after which all of its snapshots are `None`. |
| `VwapProperties.VwapPerProductMeaning` | data_processing.py:100-104 | The result has an entry for a product exactly when the product occurs in the input. The entry is `None` exactly when all of the product's snapshots are `None`. |
| `VwapProperties.WorkedExample` | data_processing.py:82-95 | Buys 10@100 and 10@200, then a sell of 15, give snapshots 100, 150, 150 and a final position of 5. |
| `VwapProperties.ShortFromFlatExample` | data_processing.py:78-95 | A single sell of 5 while flat gives snapshot `None` and position -5. |
| `VwapProperties.BuyWhileShortFails` | data_processing.py:87-89 | A buy after a sell while flat raises, because the VWAP is `None` while the position is non-zero. |
| `VwapProperties.CoverToZeroFails` | data_processing.py:89-91 | Buy 10@100, sell 15, buy 5 raises: the last buy makes the new position 0 before the division. |
| `Holdings.FillDefaults` | data_processing.py:115-117 | Every row ends up with an fx rate and a transaction cost. A missing fx rate becomes 1 and a missing cost becomes 0. Present values and all other fields are kept. |
| `Holdings.FillDefaultsIdempotent` | data_processing.py:116-117 | Filling the defaults twice is the same as filling them once. |
| `Holdings.GroupSums` | data_processing.py:124-127 | The group-and-sum pass yields exactly the (product, isin, currency) groups of the input. Each group holds the sum of its quantities and the sum of its transaction costs (a missing cost counts as 0). |
| `Holdings.CalculateHoldings` | data_processing.py:108-138 | It fails exactly when the VWAP loop fails, with the same error. Otherwise a group appears exactly when it occurs in the input and its total quantity is not 0. Each holding carries the group's total quantity, its total transaction cost and its product's result from `calculate_vwap`. |
| `Holdings.TotalsIgnoreDefaults` | data_processing.py:116-127 | Defaulting changes neither the set of groups nor any group's quantity or cost sum. |
| `Holdings.RunIgnoresDefaults` | data_processing.py:68-95 | The VWAP loop reads only product, quantity and price, so defaulting does not change its run. |
| `Holdings.VwapIgnoresDefaults` | data_processing.py:133 | `calculate_vwap` on the defaulted rows equals `calculate_vwap` on the raw rows. |
| `Holdings.HoldingsOfDefaultedRows` | data_processing.py:116-117 | Rows that are already defaulted give the same holdings as the raw rows. |
| `Holdings.MixedCurrenciesAreSeparateRows` | data_processing.py:124-130 | One product and isin traded in two currencies gives two distinct holdings when neither group nets to 0. It is not an error. |
| `Holdings.SingleGroupSumsNetQuantity` | data_processing.py:124-126 | When all rows of a product fall into one group, that group's total quantity is the product's net quantity. |
| `Holdings.HoldingQuantityIsEnginePosition` | data_processing.py:124-133 | For a product traded in one group only, the holding's total quantity equals the position the VWAP loop ends with. |
| `Holdings.OneGroupKeys` | data_processing.py:124-130 | Rows forming a single group with a non-zero total give a holding for that group and no other. |
| `Holdings.OneGroupHoldings` | data_processing.py:124-136 | Such rows give exactly one holding: the group's total quantity, its total cost and its product's VWAP. |
| `Holdings.WorkedHoldingExample` | data_processing.py:108-138 | Buys of 10 at 100 and 10 at 200, then a sell of 15, all in one group with no costs, leave one holding: 5 units at a VWAP of 150 with cost 0. |

## Left out

- `preprocess_data` and `reorder_columns` (data_processing.py:3-53): column renaming and date/time parsing done by pandas. This is library plumbing, not logic.
- Sorting by datetime (data_processing.py:61): the input is taken as already ordered. The model does not capture pandas' unstable sort or its placing of unparseable dates last.
- `is_buy`, `is_sell`, `purchase_value` and `adjusted_purchase_value` (data_processing.py:112-113, 120-121): computed but never used in the result.
- The in-place side effects of `calculate_holdings` on the caller's table (added columns, `fillna(inplace=True)`): the model returns values and has no shared table.
- Row order of the holdings table and of the VWAP series: pandas sorts by group key. The model returns maps, so order is not captured.
- pandas dropping rows whose product, isin or currency is missing when grouping: keys are plain strings in the model.
- IEEE floating point (rounding, NaN comparisons and NaN propagation): the model uses exact real arithmetic.
- The VWAP's actual display type (`NaN` rather than `None` for a product without a defined snapshot): both are modelled as `None`.
- `main.py` (the Streamlit page and CSV upload) and `app/__init__.py` (web app wiring): user interface and I/O.