# Order warehouse ETL: transform and load

This project models the transform-and-load stage of an e-commerce order
pipeline that loads a flat file into a MySQL star schema
(`Practica/etl/funciones.py`). It covers eight load steps:

- the **staging writer** `insert_into_temp_table`, which validates raw rows
  and appends them to `temp_orders`;
- the **cleaner** `clean_and_transform_data`, which reads staging back,
  coerces the date and the three measures, drops rows whose measures do not
  parse, and fills defaults (`'Desconocido'`, `0`);
- the five **dimension loaders** (customers, products, dates, payment
  methods, shipping regions); each derives candidate tuples and bulk-upserts
  them with `INSERT ... ON DUPLICATE KEY UPDATE`;
- the **fact loader** `insert_into_fact_orders`, which reads the dimensions
  into lookup maps, resolves each cleaned row, counts skipped rows and
  upserts the facts by `order_id`.

The warehouse is the class `Warehouse.Store`. It holds staging as a
sequence of tuples, `dim_customers` and `fact_orders` as maps keyed by
their natural key, and the four surrogate-keyed dimensions as a `Dim`. A
`Dim` is a map from natural key to (surrogate id, attributes) plus an
auto-increment counter. Each loader is a method that reassigns its table.
A loop method runs `executemany`: `Tables.UpsertMany` for a `Dim`,
`Tables.PutMany` for a map. Each loop is proved equal to a recursive
specification function, `Tables.Upsert` or `Tables.Put`. The properties
are proved as lemmas about those functions and about the pure
derivations: the cleaner, the candidate tuples and the fact batch.

Modules, following the pipeline:

- `Common`: cells, dates, abstract parsers, filter.
- `Tables`: upsert semantics.
- `Staging`: the staging writer's row logic.
- `Cleaner`, `Dimensions`, `Facts`.
- `Warehouse`: the store, its invariant, the eight load steps and the
  rerun lemmas.

Modelling choices:

- **Cells.** A cell is `Nan` (pandas' missing value), `Null` (SQL NULL /
  Python `None`), `Text` or `Num`. `IsNull` is pandas' `isna`, true of both.
  A coerced measure is a `Common.Number`: a whole number or an infinity
  of either sign.
- **Library conversions.** The conversions the pipeline borrows from
  libraries are uninterpreted function fields of `Common.Parsers`. Three
  of them return `Option`, `None` meaning the conversion failed:
  `to_datetime` with format `%d/%m/%y`, `to_numeric` and `int()` of an id.
  The fourth, `strftime('%A')`, is a total `Date -> string`. `int()` of a
  measure is `Common.NumberToInt`, which fails exactly on an infinity.
- **Dates.** A date is a (year, month, day) record. The fact loader's
  lookup by `strftime('%Y-%m-%d')` becomes key equality.
- **Failures.** Failures are parameters:
  - the staging rows whose own `execute` raises (`failedRows`);
  - an exception outside the per-row handler (`abort`);
  - a failing `executemany` or commit (`fails`).
  Each rollback restores the table as it was before the call.
- **Store invariant.** Every loader keeps `Warehouse.Store.Valid`:
  - staged tuples have all four key columns and no NaN;
  - no dimension key is null;
  - no product is named `'Desconocido'`;
  - surrogate ids are distinct and below their counter;
  - every fact references an existing date, product, payment-method and
    region row.
  Customers are deliberately excluded from the last point. The fact loader
  never looks up `customer_id` (`Practica/etl/funciones.py:250`).

What the code does, and the model with it:

- **Staging is append-only.** Nothing in the code truncates `temp_orders`
  (`Practica/etl/funciones.py:12-46`). So the cleaner's
  `SELECT * FROM temp_orders` reads every earlier run's rows too. Suppose
  a second run stages the same tuples as the first, and every loader of
  the first run commits. The rerun lemmas in `Warehouse` show that this
  second run then leaves every dimension table and the fact table exactly
  as the first run left them. A loader of the second run that rolls back
  leaves its table as it was anyway. That holds whatever staging held
  before the first run. A first-run loader that rolls back is not covered:
  the second run may then add rows. `FactsRerun` takes the two fact loads'
  lookups as equal. That follows from the four dimension rerun lemmas,
  since `Warehouse.Store.CurrentLookups` is computed from the four
  dimension tables alone.
- **Staging commits once.** There is one commit after the row loop. An
  exception outside the per-row handler rolls back every row the call had
  inserted (`Practica/etl/funciones.py:40-44`).
- **A fact needs four dimension rows.** It needs its date, product, payment
  and region rows to exist. The customer id is written as it is, without a
  lookup (`Practica/etl/funciones.py:250`).
- **A bad conversion aborts the fact load.** In that case `int()` raises
  out of the loop, and the whole fact load rolls back
  (`Practica/etl/funciones.py:248-255, 283-285`). There are two such
  cases:
  - an `order_id` or `customer_id` that is not an integer;
  - an infinite quantity, which `to_numeric` accepts.
- **The placeholder the cleaner writes is `'Desconocido'`**
  (`Practica/etl/funciones.py:64-65`).

## Model

| member | source | states |
|---|---|---|
| Common.Filter | Practica/etl/funciones.py:61 | every kept row is in the frame and passes the mask, every passing row of the frame is kept, and the length never grows; order is kept, as `FilterAppend` shows |
| Common.FilterAppend | Practica/etl/funciones.py:61 | masking rows is independent per row: masking a concatenation concatenates the masked parts |
| Common.FilterMembers | Practica/etl/funciones.py:83 | a row is in the masked frame exactly when it is in the frame and passes the mask |
| Common.FilterAll | Practica/etl/funciones.py:83 | a mask every row passes keeps the frame unchanged |
| Common.ToDatetime | Practica/etl/funciones.py:57 | definition: a missing cell becomes NaT (`None`); any other cell is parsed with `%d/%m/%y`, a failed parse also giving `None` |
| Common.ToNumeric | Practica/etl/funciones.py:60 | definition: a number passes through as finite, a string is parsed (possibly to an infinity), anything else, missing cells included, becomes `None` |
| Common.ToInt | Practica/etl/funciones.py:248-250 | definition: Python's `int()` of an id cell; a number is itself, a string is parsed, and `None` stands for the raise |
| Common.NumberToInt | Practica/etl/funciones.py:255 | `int()` of a coerced measure succeeds exactly on a finite one, giving its value; an infinity raises |
| Staging.KeyMissing | Practica/etl/funciones.py:16-21 | definition: a key column is unusable when it is NaN/None or the empty string |
| Staging.Admitted | Practica/etl/funciones.py:16-21 | definition: a row is written only when none of order id, purchase date, customer id and category is unusable |
| Staging.ToSql | Practica/etl/funciones.py:31 | definition: a NaN/None cell is sent as SQL NULL, every other cell as it is |
| Staging.FromColumns | Practica/etl/funciones.py:53-55 | definition: a fetched 12-column tuple named by the cleaner's column list, in the INSERT's column order |
| Staging.Columns | Practica/etl/funciones.py:24-26 | a row's values are listed in the 12 columns of the INSERT |
| Staging.SqlValues | Practica/etl/funciones.py:31-33 | the parameter list of a row's INSERT has the 12 columns |
| Staging.SqlValuesFaithful | Practica/etl/funciones.py:30-33 | column by column, NaN/None becomes NULL and every present value is sent unchanged; an admitted row yields a tuple with its four keys and no NaN |
| Staging.StagingRoundTrip | Practica/etl/funciones.py:31-33 | a row without NaN is read back from staging exactly as it was written |
| Staging.StagedTable | Practica/etl/funciones.py:53-55 | every staged tuple has the 12 columns the cleaner names |
| Staging.Staged | Practica/etl/funciones.py:15-39 | every tuple the writer stages has its four key columns present and non-empty and holds no NaN |
| Staging.StagedMembers | Practica/etl/funciones.py:15-39 | a tuple is staged exactly when it is the parameter list of a row whose four key columns are neither null nor `''` and whose own execute did not fail |
| Staging.StagedCount | Practica/etl/funciones.py:15-21 | with no failing execute, one tuple is staged per admitted row |
| Cleaner.StagingFrame | Practica/etl/funciones.py:51-55 | the frame has one row per fetched staging tuple |
| Cleaner.Coerce | Practica/etl/funciones.py:57-60 | definition: per row, the date is coerced by `to_datetime` and price, total and quantity by `to_numeric`, failures becoming missing; the raw row is kept beside them |
| Cleaner.DropNa | Practica/etl/funciones.py:61 | every remaining row has price, total and quantity parsed |
| Cleaner.FillNa | Practica/etl/funciones.py:64-65 | definition: a missing gender, product name or region becomes `'Desconocido'` and a missing age `0`; every other column is copied, the measures unwrapped |
| Cleaner.FillAll | Practica/etl/funciones.py:64-65 | definition: `fillna` applied to every row of the frame, in order |
| Cleaner.Clean | Practica/etl/funciones.py:57-65 | the cleaned frame is no longer than its input, and gender, age, product name and region are never missing in it |
| Cleaner.CleanAppend | Practica/etl/funciones.py:57-65 | cleaning is per row and order-preserving: cleaning a concatenation concatenates the cleaned parts |
| Cleaner.CleanOne | Practica/etl/funciones.py:57-65 | a single row is dropped exactly when a measure does not parse; otherwise its date and measures are coerced (unparseable date gives None), the four filled columns take their default only when missing, and the other columns are unchanged |
| Cleaner.CleanExact | Practica/etl/funciones.py:57-65 | the cleaned frame holds exactly the rows whose price, total and quantity parse, in input order, each cleaned column by column as above |
| Dimensions.KeysOfProject | Practica/etl/funciones.py:84 | the keys of a projected batch are the key column values of the projected rows |
| Dimensions.ProjectAppend | Practica/etl/funciones.py:84 | projecting columns is per row |
| Dimensions.CustomerRows | Practica/etl/funciones.py:83-84 | definition: the rows with id, gender and age present, projected to (id, (gender, age)), in frame order with duplicates kept |
| Dimensions.CustomerRowsExact | Practica/etl/funciones.py:83-84 | the customer batch mentions exactly the ids of rows with id, gender and age present; no null id is upserted; each tuple is some such row's (id, gender, age) |
| Dimensions.CustomerRowsAppend | Practica/etl/funciones.py:83-84 | the customer batch of a concatenation is the concatenation of the batches |
| Dimensions.ProductCandidates | Practica/etl/funciones.py:103-104 | no candidate has a null category or name or the name `'Desconocido'`; every row with present category and name other than the placeholder contributes its pair; as a set it holds each pair once |
| Dimensions.ListOf | Practica/etl/funciones.py:107 | `list(set)` lists every element of the set exactly once, in an order the model leaves open |
| Dimensions.ProductTuples | Practica/etl/funciones.py:107 | definition: one tuple per listed (category, name) pair, in listing order; products have no non-key column |
| Dimensions.ProductTuplesKeys | Practica/etl/funciones.py:104-107 | whatever the listing order, the product batch mentions exactly the candidate pairs and no pair twice |
| Dimensions.ProductCandidatesAppend | Practica/etl/funciones.py:103-104 | the candidates of a concatenation are the union of the candidates |
| Dimensions.Quarter | Practica/etl/funciones.py:141 | for months 1..12 the quarter is in 1..4 and is the quarter whose three months contain the month |
| Dimensions.QuarterExamples | Practica/etl/funciones.py:141 | months 1 and 3 are in quarter 1, month 4 in quarter 2, month 12 in quarter 4 |
| Dimensions.DateTuple | Practica/etl/funciones.py:137-145 | definition: a date's tuple is (date, year, `(month-1)//3+1`, month, day, weekday name) |
| Dimensions.DateRows | Practica/etl/funciones.py:132-147 | definition: one tuple per row with a date, in frame order with duplicates kept; the second `to_datetime` at line 135 is the identity on the cleaned column and is not modelled |
| Dimensions.DateRowsExact | Practica/etl/funciones.py:132-147 | one date tuple per row with a date and none for a null date; the keys are exactly the rows' dates; each tuple copies year, month and day, carries the weekday name and the month's quarter |
| Dimensions.DateRowsAppend | Practica/etl/funciones.py:132-147 | the date batch of a concatenation is the concatenation of the batches |
| Dimensions.PaymentRows | Practica/etl/funciones.py:169-170 | definition: the present payment methods, one tuple per row, in frame order with duplicates kept |
| Dimensions.PaymentRowsExact | Practica/etl/funciones.py:169-170 | the payment batch mentions exactly the present payment methods |
| Dimensions.PaymentRowsAppend | Practica/etl/funciones.py:169-170 | the payment batch of a concatenation is the concatenation of the batches |
| Dimensions.RegionRows | Practica/etl/funciones.py:190-191 | definition: the present shipping regions, one tuple per row, in frame order with duplicates kept |
| Dimensions.RegionRowsExact | Practica/etl/funciones.py:190-191 | the region batch mentions exactly the present shipping regions |
| Dimensions.RegionRowsAppend | Practica/etl/funciones.py:190-191 | the region batch of a concatenation is the concatenation of the batches |
| Tables.KeysOfSnoc | Practica/etl/funciones.py:86 | the keys of a batch are those of all but its last tuple plus the last tuple's key |
| Tables.LastValueAt | Practica/etl/funciones.py:86 | the last tuple with a key is the one whose key does not recur later |
| Tables.UpsertOne | Practica/etl/funciones.py:124-129 | definition of one `INSERT ... ON DUPLICATE KEY UPDATE` into a surrogate-keyed table: an existing natural key keeps its id and takes the tuple's attributes; a new key is stored with the next auto-increment id, and the counter advances |
| Tables.Upsert | Practica/etl/funciones.py:149 | definition: `executemany` applies the one-tuple upsert to each tuple of the batch in order |
| Tables.UpsertFacts | Practica/etl/funciones.py:124-149 | after an upsert batch the keys are the old keys plus the batch's; an existing key keeps its surrogate id; a key the batch leaves alone keeps its row; a new key gets an id no earlier row had; every batch key holds its last tuple's attributes; a batch of existing keys allocates no id |
| Tables.UpsertLastWins | Practica/etl/funciones.py:124-149 | for a key the batch repeats, the last tuple's attributes are stored |
| Tables.UpsertIdempotent | Practica/etl/funciones.py:124-149 | applying the same upsert batch twice gives the table applying it once gives |
| Tables.UpsertAppend | Practica/etl/funciones.py:149 | `executemany` applies its tuples in order: a split batch is the first part, then the second |
| Tables.UpsertRerun | Practica/etl/funciones.py:149 | after a batch `a + b`, applying `a + b` again and then another copy of `b` changes nothing |
| Tables.UpsertPresent | Practica/etl/funciones.py:97-107 | a batch of keys already present, in a table with no non-key columns, leaves the table unchanged |
| Tables.UpsertOneValid | Practica/etl/funciones.py:97-100 | one upsert keeps surrogate ids distinct and below the counter |
| Tables.UpsertValid | Practica/etl/funciones.py:97-107 | an upsert batch keeps surrogate ids distinct and below the counter |
| Tables.UpsertKeepsId | Practica/etl/funciones.py:124-149 | a surrogate id some row carries is still carried after an upsert batch |
| Tables.IdMap | Practica/etl/funciones.py:208-221 | definition: the `{key: id}` map read back from a surrogate-keyed table, one entry per stored row |
| Tables.IdMapHasId | Practica/etl/funciones.py:208-221 | an id read back through a lookup map is one a dimension row carries |
| Tables.UpsertMany | Practica/etl/funciones.py:149 | the tuple-by-tuple `executemany` loop computes the upsert batch's table |
| Tables.Put | Practica/etl/funciones.py:261-277 | definition of an upsert batch into a table keyed by its natural key: each tuple in order inserts its row or overwrites the row stored at its key |
| Tables.PutFacts | Practica/etl/funciones.py:77-86 | after an upsert batch into a natural-key table the keys are the old ones plus the batch's; an untouched key keeps its row; each batch key holds its last tuple |
| Tables.PutLastWins | Practica/etl/funciones.py:77-86 | for a key the batch repeats, the last tuple is stored |
| Tables.PutIdempotent | Practica/etl/funciones.py:261-277 | applying the same batch twice gives the table applying it once gives |
| Tables.PutAppend | Practica/etl/funciones.py:86 | a split batch is the first part, then the second |
| Tables.PutRerun | Practica/etl/funciones.py:277 | after a batch `a + b`, applying `a + b` again and then another copy of `b` changes nothing |
| Tables.PutPreserves | Practica/etl/funciones.py:261-277 | a property of every old row and every batch tuple holds of every row after the batch |
| Tables.PutMany | Practica/etl/funciones.py:86 | the tuple-by-tuple `executemany` loop computes the batch's table |
| Facts.Resolves | Practica/etl/funciones.py:229-238 | definition: the row is not skipped exactly when it has a date and its date, (category, name), payment method and region are all keys of the lookup maps |
| Facts.Resolve | Practica/etl/funciones.py:229-257 | definition of one loop pass: skip an unresolved row; otherwise raise if `int()` fails on the order id, the customer id or the quantity; otherwise emit the order id with the four looked-up ids, the customer id and the measures |
| Facts.FactBatch | Practica/etl/funciones.py:224-257 | when the loop does not raise, tuples appended plus rows skipped equals the number of input rows |
| Facts.Advance | Practica/etl/funciones.py:227-257 | each loop pass either skips or appends exactly one tuple, or raises |
| Facts.ResolveCases | Practica/etl/funciones.py:229-257 | a row is skipped exactly when its date is null or one of its four lookups misses; otherwise the loop raises exactly when `int()` rejects its order id or customer id or its quantity is infinite, and else emits one tuple whose ids are the maps' values at its keys and whose measures are its own |
| Facts.FactBatchAppend | Practica/etl/funciones.py:227-257 | rows are handled independently and in order: the batch of a concatenation raises if either part does, else concatenates the tuples and adds the skip counts |
| Facts.AdvanceCombine | Practica/etl/funciones.py:227-257 | one more loop pass after two concatenated batches is that pass on the second batch |
| Facts.FactBatchRaises | Practica/etl/funciones.py:247-257 | the loop raises exactly when some row, after its lookups hit, has an order id or customer id that `int()` rejects or an infinite quantity |
| Facts.FactBatchSound | Practica/etl/funciones.py:224-257 | every tuple of the batch was emitted by some input row, and its date, product, payment and region ids are values of the lookup maps |
| Facts.BuildFactValues | Practica/etl/funciones.py:224-257 | the loop with its `values` list and `skipped_rows` counter raises exactly when the batch function does, and otherwise returns the batch function's tuples and count |
| Warehouse.Store.Valid | Practica/etl/funciones.py:12-287 | definition of the store invariant every loader keeps: staged tuples have their four keys and no NaN (lines 16-33); no dimension key is null, no product is named `'Desconocido'` (line 103); surrogate ids are distinct and below their counter; every fact references existing date, product, payment and region rows (lines 232-244) |
| Warehouse.Store.constructor | Practica/etl/api.py:20-25 | the store the run's calls work on, here a fresh warehouse: every table empty, the auto-increment counters at 1; it satisfies the invariant |
| Warehouse.Store.CurrentLookups | Practica/etl/funciones.py:208-221 | definition: the four lookup maps the fact loader reads, each computed from its dimension table alone |
| Warehouse.Store.InsertIntoTempTable | Practica/etl/funciones.py:12-46 | staging gains exactly the staged tuples of the frame in frame order, nothing staged earlier is removed, and an exception outside the per-row handler rolls staging back; the invariant is kept |
| Warehouse.Store.CleanAndTransformData | Practica/etl/funciones.py:48-69 | the cleaned frame is the cleaning of everything in staging, earlier runs included |
| Warehouse.Store.InsertIntoDimCustomers | Practica/etl/funciones.py:73-91 | customers becomes the upsert of the customer batch, or is unchanged on rollback; no null id enters the table |
| Warehouse.Store.InsertIntoDimProducts | Practica/etl/funciones.py:94-117 | with no candidate nothing is executed or committed; otherwise products becomes the upsert of a listing of the candidate set, or is unchanged on rollback; product keys stay valid and existing facts keep their product |
| Warehouse.Store.InsertIntoDimDates | Practica/etl/funciones.py:120-156 | dates becomes the upsert of the date batch, or is unchanged on rollback; existing facts keep their date |
| Warehouse.Store.InsertIntoDimPayments | Practica/etl/funciones.py:159-177 | payments becomes the upsert of the payment batch, or is unchanged on rollback; existing facts keep their payment method |
| Warehouse.Store.InsertIntoDimShippingRegions | Practica/etl/funciones.py:180-198 | regions becomes the upsert of the region batch, or is unchanged on rollback; existing facts keep their region |
| Warehouse.Store.InsertIntoFactOrders | Practica/etl/funciones.py:201-287 | the facts become the upsert of the batch built against the current dimensions; a raising loop rolls back; an empty batch executes nothing; a non-empty batch commits unless it fails, and then rolls back; on commit the reported counts are the tuples written and the rows skipped, which add up to the input rows; every fact references existing date, product, payment and region rows |
| Warehouse.CleanedRowsHaveKeys | Practica/etl/funciones.py:16-21 | every cleaned row has its order id, customer id and category; with gender and age filled, the customer loader's `dropna` removes no cleaned row |
| Warehouse.PlaceholderProductSkipped | Practica/etl/funciones.py:234-238 | a cleaned row whose product name is `'Desconocido'` never yields a fact, since no product row carries that name |
| Warehouse.CleanRerun | Practica/etl/funciones.py:51-65 | with staging holding earlier tuples `prior` and then a file's tuples once (first run) or twice (second run), the two cleaned frames are `P + C` and `P + C + C`, where `P` cleans `prior` and `C` cleans the file's tuples |
| Warehouse.StagedTableAppend | Practica/etl/funciones.py:15-39 | appending staged tuples to a valid staging table keeps it valid |
| Warehouse.CustomersRerun | Practica/etl/funciones.py:73-91 | after loading `P + C`, loading `P + C + C` leaves `dim_customers` unchanged |
| Warehouse.ProductsRerun | Practica/etl/funciones.py:94-117 | after loading `P + C`, loading `P + C + C` leaves `dim_products` unchanged, whatever order either run lists the set in |
| Warehouse.DatesRerun | Practica/etl/funciones.py:120-156 | after loading `P + C`, loading `P + C + C` leaves `dim_dates` unchanged |
| Warehouse.PaymentsRerun | Practica/etl/funciones.py:159-177 | after loading `P + C`, loading `P + C + C` leaves `dim_payments` unchanged |
| Warehouse.RegionsRerun | Practica/etl/funciones.py:180-198 | after loading `P + C`, loading `P + C + C` leaves `dim_shipping_regions` unchanged |
| Warehouse.FactsRerun | Practica/etl/funciones.py:201-287 | with the same lookups, the fact load of `P + C + C` raises exactly when that of `P + C` did, and otherwise leaves `fact_orders` as the first load left it |

## Left out

- `load_csv` (file reading) is not part of this model. The staging writer takes the frame as its input.
- `Practica/etl/api.py` is not part of this model: the HTTP trigger, the environment lookup and the call sequence. So is `Practica/insights/`: the connection bootstrap and the reports.
- pandas parsing is left uninterpreted: `to_datetime` with `%d/%m/%y` and its century pivot, `to_numeric`, `int()` and `strftime('%A')`. Consequently no calendar validity of a parsed date is assumed. The quarter's range is stated for months 1..12.
- Column types are not converted by the database. Staging returns the values the writer sent.
- Measures are integers or an infinity of either sign, never fractional: a float price, and `int()` truncating a fractional quantity, are not modelled. The fact loader's `float()` is the identity on them.
- Natural keys are compared as exact values. MySQL compares unique VARCHAR keys under the column's collation, which by default ignores case and accents. So `'Tarjeta'` and `'tarjeta'` share one `dim_payments` row, spelled as the batch's last occurrence. The fact loader's dictionary lookup then misses the other spelling and skips that row. The model keeps two keys and resolves both rows.
- `SELECT * FROM temp_orders` has no `ORDER BY`, but `StagingFrame` reads staging back in insertion order. Which tuple "wins" for a customer, a date or an order in a batch depends on that order, so the model fixes it.
- Warehouse.Store.CleanAndTransformData: it always succeeds. In the code, a failing `SELECT` or fetch propagates: the function has `try`/`finally` and no `except`. That failure ends the run, and the model has no such outcome.
- SQL text, cursor lifecycle, `print` logging and the messages that report counts are left out. The counts are returned as out-parameters.
- Tables.UpsertFacts: the counter models MySQL's auto-increment only up to gaps. In the model an upsert of an existing key allocates no id, while InnoDB may consume one.
- Warehouse.Store.InsertIntoDimProducts: the order in which Python lists the set is left open through a ghost listing. The proved properties hold for every order.
- Warehouse.Store.Valid: it says nothing about `dim_customers` keys beyond being non-null. Facts are not required to reference an existing customer, because the code never checks that.
- Failing statements are not enumerated. A failing `execute` or `executemany` is a boolean or a set of row positions supplied by the caller.
