# A verified model of the DuckDB services of a bus-data web app

The app runs DuckDB-WASM inside the browser. Two small service modules sit in
front of the engine, and they are what this project models:

- `src/services/database.js` keeps one connection for the whole page.
  `initializeDatabase` stores its initialization task in a module variable the
  first time it is called. Every later caller gets back a promise that
  settles exactly as that stored task does.
  The bootstrap inside the task does the following, in this order and only
  once:
  - selects a bundle;
  - creates an AsyncDuckDB instance;
  - instantiates it with `castBigIntToDouble`;
  - fetches `/db.duckdb`;
  - registers the fetched bytes as `db.duckdb`;
  - connects;
  - runs `ATTACH`, `USE` and `LOAD spatial`.

  `executeSelectQuery(sql)` waits for that task, hands `sql` to the connection
  unchanged, converts each result row with `toJSON`, and rethrows any error as
  it is.
- `src/services/filters.js` builds the filter options. `fetchDistinctValues(columns)`
  runs `SELECT DISTINCT <column> FROM buses` for each column in turn. It
  stores `row[column]` of every result row under that column's name. The
  first failing query ends the loop with its error.

The project has three modules:

- `DuckDb` (`duckdb.dfy`) is the boundary with the engine. It holds:
  - the value and row types;
  - the calls the services make into the engine;
  - `Engine`, which says whether each bootstrap call throws and what each
    SQL text yields. Everything about the engine is a parameter.
- `Database` (`database.dfy`) is the class `DatabaseService`.
  - Its fields `dbInstance`, `connection` and `promise` are the three module
    variables of `database.js`.
  - A ghost `log` records every call into the engine, in order.
  - A ghost `submitted` records the SQL texts that callers' queries carried
    to the connection.
  - Its methods follow the source's own steps.
  - The bootstrap's effect is specified by the function `BootRun`: the calls
    it makes and the error that stopped it, if any.
- `Filters` (`filters.dfy`) holds `fetchDistinctValues` as a method. It is a
  `while` loop filling a `map<string, seq<Value>>`. The method is proved
  against the function `Fetch`, which says what the loop yields and which
  columns it queries. The properties of `Fetch` are proved as lemmas.

A stored task is modelled as the settled result it will have (`promise:
Option<Result<Handles>>`). JavaScript assigns the pending promise at line 16
as soon as the bootstrap's first `await` suspends. By then `selectBundle` at
line 28 has been called, but nothing of another caller can run before the
assignment, since the first `await` has not yet resumed. So nothing can run
between the check at line 11 and that assignment, so treating the call as ending when the task
settles changes no outcome.

## Model

| member | source | states |
|---|---|---|
| `Database.DatabaseService.InitializeDatabase` | src/services/database.js:10-51 | Calls after the first get back a promise that settles exactly as the stored task did, and call nothing in the engine. The first call runs the bootstrap exactly once. The object is left with the stored task, fulfilled with `{ db, conn }` equal to the module's `dbInstance` and `connection` exactly when every bootstrap call succeeded, otherwise rejected with the failing call's error. That rejection is never cleared, so a failure is sticky. `dbInstance` is set exactly when instance creation succeeded, and `connection` exactly when connect succeeded. |
| `Database.DatabaseService.Bootstrap` | src/services/database.js:16-48 | If both handles already exist, returns them and calls nothing. Otherwise makes exactly the calls of `BootRun`, in order, and settles as `BootRun` says. `dbInstance` and `connection` are assigned once their calls succeed, stay assigned after a later failure, and are fresh objects. |
| `Database.DatabaseService.StartInstance` | src/services/database.js:28-38 | Selects the bundle and creates the instance, which is assigned to `dbInstance` as a fresh object. Then loads the dataset. A failure stops at the failing call with its error. |
| `Database.DatabaseService.LoadDataset` | src/services/database.js:33-38 | Instantiates with `castBigIntToDouble` true, fetches `/db.duckdb` and registers it as `db.duckdb`, in that order, stopping at the first failure. |
| `Database.DatabaseService.OpenConnection` | src/services/database.js:40-47 | Connects, assigning `connection` a fresh object, prepares the connection and resolves to the instance and that connection. The result is Ok exactly when the whole bootstrap succeeds. |
| `Database.DatabaseService.PrepareConnection` | src/services/database.js:41-45 | Runs the ATTACH, USE and LOAD spatial statements with their exact text, in order, on the connection. Ends the bootstrap with `BootRun`'s error and log. |
| `Database.DatabaseService.Step` | src/services/database.js:28-45 | One awaited call of the bootstrap. It is appended to the log; its error is the engine's. If it throws, the whole run is known to stop right there. |
| `Database.DatabaseService.ConnectionQuery` | src/services/database.js:61 | `conn.query(sql)` logs a query of exactly `sql` and returns the engine's answer for `sql`. |
| `Database.DatabaseService.ExecuteSelectQuery` | src/services/database.js:58-67 | The result is `Exec`. The log grows by the bootstrap (only if nothing had started it) and then by a query of exactly `sql` (only if the bootstrap succeeded). `submitted` grows by `sql` in that case only. An existing stored task and the handles are left as they were. |
| `Database.DatabaseService.constructor` | src/services/database.js:6-8 | All three module variables start null, with nothing called. |
| `Database.DatabaseService.BootstrapRanAtMostOnce` | src/services/database.js:8-16 | In every reachable state, the instance was created, the dataset fetched and the connection opened at most once each. |
| `Database.RunSteps` | src/services/database.js:28-45 | A run of awaited calls makes no more calls than it was given. When it fails, its error is that of the last call it made. |
| `Database.BootRun` | src/services/database.js:28-45 | The bootstrap runs `BootSteps`, the nine calls of lines 28-45 in order. It makes a prefix of them, and it succeeds exactly when all nine succeed. |
| `Database.RunStepsShape` | src/services/database.js:28-45 | A run of awaited calls makes a prefix of them. It makes all of them and succeeds exactly when none throws. Otherwise it ends at the first call that throws, with that call's error, all earlier calls having succeeded. |
| `Database.RunStopsAt` | src/services/database.js:28-45 | If calls `0..k-1` succeed and call `k` throws, the run has made calls `0..k` and failed with call `k`'s error. No later step runs. |
| `Database.BootSucceeds` | src/services/database.js:28-47 | When every bootstrap call succeeds, all nine are made in order and the bootstrap succeeds. |
| `Database.BootStepsOnce` | src/services/database.js:28-45 | In the bootstrap sequence, instance creation, the dataset fetch and connect each occur exactly once. |
| `Database.BootCallsAtMostOnce` | src/services/database.js:11-40 | A log made of a bootstrap run followed by any number of queries holds at most one instance creation, one dataset fetch and one connect. |
| `Database.QueryKeepsShape` | src/services/database.js:60-61 | After a successful bootstrap, a caller's query extends the log by exactly that query and keeps it "bootstrap, then queries". |
| `Database.ConvertRows` | src/services/database.js:62 | One record per engine row, in engine order. Record `i` is `toJSON` of row `i`. |
| `Database.Exec` | src/services/database.js:58-67 | A failed bootstrap's error is rethrown unchanged. Otherwise the engine's error for `sql` is rethrown unchanged. Otherwise the result is Ok, and its records are `ConvertRows` of the engine's rows: one `toJSON` record per row, in the engine's order. The result is Ok exactly when both succeed. |
| `DuckDb.ToJson` | src/services/database.js:62 | `row.toJSON()` has exactly the row's field names as keys. Each key holds the value of the last field of that name. |
| `Filters.DistinctQuery` | src/services/filters.js:12 | The query text is `SELECT DISTINCT `, then the column name verbatim, then ` FROM buses`. Its length is the sum of the three. |
| `Filters.DistinctQueryParses` | src/services/filters.js:12 | The query for `c` is `SELECT DISTINCT ` + `c` + ` FROM buses` and reads back as exactly `c`. |
| `Filters.DistinctQueryInjective` | src/services/filters.js:12 | Different columns give different query texts. |
| `Filters.Lookup` | src/services/filters.js:14 | `row[column]` is the record's value for `column` when it has that key, and undefined otherwise. |
| `Filters.Project` | src/services/filters.js:14 | `results.map(row => row[column])` has one value per row, in row order. Value `i` is row `i`'s property `column`, or undefined when the row has none. |
| `Filters.Store` | src/services/filters.js:12-14 | One pass: a failed query gives its error unchanged. A successful one gives the object with the column's key added, holding the projection of the rows, and every other key as it was. |
| `Filters.FetchUpTo` | src/services/filters.js:11-15 | After `n` passes, the columns queried are a prefix of the list. All `n` are queried when no pass failed. When a pass failed, that column is the last one queried and its query's error is the result. |
| `Filters.Fetch` | src/services/filters.js:8-18 | The whole call queries a prefix of the columns. On success it queries all of them. On failure, the last column queried is the one whose query failed, with that error. |
| `Filters.FetchUpToOk` | src/services/filters.js:11-15 | After `n` passes, the loop has not failed exactly when the first `n` queries all succeeded. |
| `Filters.FetchUpToKeys` | src/services/filters.js:9-14 | On success, every key of the object is one of the columns processed. |
| `Filters.FetchUpToValues` | src/services/filters.js:14 | On success, each processed column's key holds the projection of its query's rows, when repeated columns get the same answer, as they do under `Fetch`. |
| `Filters.FetchUpToStaysFailed` | src/services/filters.js:11-15 | Once a pass has failed, later passes change neither the result nor the queried columns. |
| `Filters.FetchUpToAllOk` | src/services/filters.js:11-13 | When the first `n` queries succeed, the first `n` columns are queried in order. |
| `Filters.FetchUpToStopsAt` | src/services/filters.js:11-15 | If query `i` is the first to fail, the loop fails with exactly its error, having queried columns `0..i` and no later one. |
| `Filters.FetchOk` | src/services/filters.js:8-18 | The call succeeds exactly when every column's query succeeds. An empty list queries nothing and yields `{}`. |
| `Filters.FetchContents` | src/services/filters.js:9-17 | On success, every column was queried in order. The key set is exactly the set of columns. Each column maps to `row[column]` of every row of its query, same length and order. |
| `Filters.FetchStopsAt` | src/services/filters.js:11-15 | If column `i`'s query is the first to fail, `fetchDistinctValues` rejects with that query's error and no later column is queried. |
| `Filters.DistinctQueriesAt` | src/services/filters.js:11-13 | The queries sent for a list of columns are one per column, in the columns' order, each with the exact text for its column. |
| `Filters.SentGrows` | src/services/filters.js:11-13 | Querying one more column appends exactly its query to the texts submitted, or nothing after a failed bootstrap. |
| `Filters.FetchColumn` | src/services/filters.js:12-14 | Builds the column's query, runs it through `executeSelectQuery` and stores the projection under the column's name; an error is returned unchanged. The texts submitted grow by that one query, or by nothing after a failed bootstrap. The database stays consistent and has a stored task. An existing stored task and the handles `dbInstance` and `connection` are left as they were. |
| `Filters.FetchStep` | src/services/filters.js:11-15 | One pass of the loop takes the loop's state after pass `i` to its state after pass `i + 1`. It appends the column's query to the texts submitted, or nothing after a failed bootstrap. A failing pass already gives what the whole call yields. An existing stored task and the handles are left as they were. |
| `Filters.FetchDistinctValues` | src/services/filters.js:8-18 | The result is what `Fetch` yields. The texts submitted to the connection are exactly the queries of the columns `Fetch` queried, in order, or none after a failed bootstrap. A non-empty list sets off the initialization. An existing stored task and the handles are left as they were. An empty list leaves the database untouched. The database stays consistent. |

## Left out

- `Database.DatabaseService.InitializeDatabase`: promise identity is not modelled. An `async` function returns a new promise on every call, so `initializeDatabase() === initializationPromise` is false, and the model returns only the settled result.
- `Database.DatabaseService.InitializeDatabase`: a pending task is not modelled. Promise scheduling and the interleaving of concurrent callers are modelled as one call after another. The model relies on the stored task being assigned before the first `await` resumes.
- `Database.DatabaseService.InitializeDatabase`: the facts about `dbInstance` and `connection` after a failure are stated for the first call (the one running the bootstrap). Later calls leave both unchanged.
- `Database.DatabaseService.Bootstrap`: the early return at line 17 is kept. In every reachable state both handles are still null when the bootstrap runs, so that branch is dead. It is modelled but never taken.
- `Database.BootCallsAtMostOnce`: counts instance creation, the dataset fetch and connect. The other bootstrap calls occur once in `BootSteps` too, but no lemma counts them.
- `Filters.FetchDistinctValues`: the result on an empty list and on success is stated through `Fetch` and its lemmas (`FetchOk`, `FetchContents`, `FetchStopsAt`), not repeated in the method's own contract. The order of the result's keys is not modelled either, since the result is a `map`.
- The engine's internals are not modelled, and each is one call that may throw. These are `selectBundle`, the Worker, the ConsoleLogger, `instantiate` and DuckDB's SQL semantics, including what `DISTINCT` returns. An SQL text always yields the same answer.
- The bytes of `fetch('/db.duckdb')` and `arrayBuffer()` are network I/O. Together they are one bootstrap call that may fail.
- `console.error` at line 64 is a logging side effect. It is left out, and the error is rethrown unchanged.
- Numbers are modelled as `real`. JavaScript doubles, and the rounding of big integers cast to doubles, are not modelled.
- `DuckDb.ToJson`: a record is a `map`, so only its keys and their values are modelled. A JavaScript object also keeps its properties in order (the schema's field order). `Object.keys` and `Object.values` at `src/App.jsx` lines 43 and 51 show that order, and the model does not capture it. When two fields share a name, the last one's value is kept.
- Arrow's own conversion of nested and temporal types is not modelled.
- Column names are spliced into the SQL text verbatim. Whether the engine accepts a name that needs quoting belongs to the engine's answer.
- JavaScript objects whose keys would collide with inherited properties, such as `__proto__`, are modelled as plain maps.
- `src/App.jsx` and `src/components/Filters.jsx` are React presentation.
- `data_processing/try.py` generates the dataset with random floating-point data and writes files.
- The filtered-query builder (a `WHERE` clause over the chosen filters) is not part of this model.
