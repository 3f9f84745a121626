/** The connection manager and query executor of src/services/database.js.

    The module-level variables `dbInstance`, `connection` and
    `initializationPromise` become the fields of one DatabaseService object.
    A ghost log records every call made into the engine, in order, so that
    the contracts can say which calls happened and how often. */
module Database {
  import opened DuckDb

  /** The path the dataset is fetched from and the name it is registered under. */
  const DatasetUrl := "/db.duckdb"
  const DatasetName := "db.duckdb"

  /** The three statements the bootstrap runs on the new connection. */
  const AttachSql := "ATTACH DATABASE 'db.duckdb' AS attached_db"
  const UseSql := "USE attached_db"
  const LoadSpatialSql := "LOAD spatial;"

  /** The bootstrap's calls into the engine, in the order the code makes them. */
  const BootSteps: seq<Command> := [
    SelectBundle,
    CreateInstance,
    Instantiate(true),
    FetchDataset(DatasetUrl),
    RegisterFileBuffer(DatasetName),
    Connect,
    Query(AttachSql),
    Query(UseSql),
    Query(LoadSpatialSql)
  ]

  /** Positions in BootSteps: once the calls up to CreateInstance have
      succeeded the instance exists, once those up to Connect have, the
      connection does. */
  const InstanceStep := 1
  const ConnectStep := 5

  /** What running a sequence of awaited calls did: the calls made and the
      error that stopped it, if any. */
  datatype Run = Run(issued: seq<Command>, error: Option<Error>)

  /** Runs `steps` one after another; the first call that throws ends the run. */
  function RunSteps(engine: Engine, steps: seq<Command>): (r: Run)
    ensures |r.issued| <= |steps|
    ensures r.error.Some? ==> 0 < |r.issued| && Outcome(engine, r.issued[|r.issued| - 1]) == r.error
  {
    if steps == [] then Run([], None)
    else match Outcome(engine, steps[0])
      case Some(e) => Run([steps[0]], Some(e))
      case None =>
        var rest := RunSteps(engine, steps[1..]);
        Run([steps[0]] + rest.issued, rest.error)
  }

  /** A run makes a prefix of its calls: all of them exactly when none
      throws, and otherwise up to and including the first that throws,
      whose error ends the run. */
  lemma {:induction false} RunStepsShape(engine: Engine, steps: seq<Command>)
    ensures var r := RunSteps(engine, steps);
      && |r.issued| <= |steps| && r.issued == steps[..|r.issued|]
      && (r.error.None? <==> forall i | 0 <= i < |steps| :: Outcome(engine, steps[i]).None?)
      && (r.error.None? ==> r.issued == steps)
      && (r.error.Some? ==>
            && 0 < |r.issued|
            && Outcome(engine, r.issued[|r.issued| - 1]) == r.error
            && forall i | 0 <= i < |r.issued| - 1 :: Outcome(engine, r.issued[i]).None?)
  {
    if steps != [] && Outcome(engine, steps[0]).None? {
      RunStepsShape(engine, steps[1..]);
      assert forall i | 0 < i < |steps| :: steps[i] == steps[1..][i - 1];
    }
  }

  /** Whether the first `k` bootstrap calls all succeed. */
  ghost predicate Completed(engine: Engine, k: nat)
    requires k <= |BootSteps|
  {
    forall i | 0 <= i < k :: Outcome(engine, BootSteps[i]).None?
  }

  /** A run whose first `k` calls succeed and whose call `k` throws stops
      right after call `k`, with that call's error. */
  lemma {:induction false} RunStopsAt(engine: Engine, steps: seq<Command>, k: nat)
    requires k < |steps|
    requires forall i | 0 <= i < k :: Outcome(engine, steps[i]).None?
    requires Outcome(engine, steps[k]).Some?
    ensures RunSteps(engine, steps) == Run(steps[..k + 1], Outcome(engine, steps[k]))
  {
    if k > 0 {
      assert Outcome(engine, steps[0]).None?;
      assert forall i | 0 <= i < k - 1 :: steps[1..][i] == steps[i + 1];
      RunStopsAt(engine, steps[1..], k - 1);
      assert [steps[0]] + steps[1..][..k] == steps[..k + 1];
    }
  }

  /** The whole bootstrap sequence of lines 28-45. */
  function BootRun(engine: Engine): (r: Run)
    ensures |r.issued| <= |BootSteps| && r.issued == BootSteps[..|r.issued|]
    ensures r.error.None? <==> Completed(engine, |BootSteps|)
  {
    RunStepsShape(engine, BootSteps);
    RunSteps(engine, BootSteps)
  }

  /** If every bootstrap call succeeds, the bootstrap makes all of them and
      resolves. */
  lemma BootSucceeds(engine: Engine)
    requires Completed(engine, |BootSteps|)
    ensures BootRun(engine) == Run(BootSteps, None)
  {
    RunStepsShape(engine, BootSteps);
  }

  /** Number of occurrences of `c` in a command log. */
  function Count(log: seq<Command>, c: Command): nat
  {
    if log == [] then 0 else (if log[0] == c then 1 else 0) + Count(log[1..], c)
  }

  lemma {:induction false} CountAppend(a: seq<Command>, b: seq<Command>, c: Command)
    ensures Count(a + b, c) == Count(a, c) + Count(b, c)
  {
    if a == [] {
      assert a + b == b;
    } else {
      assert (a + b)[1..] == a[1..] + b;
      CountAppend(a[1..], b, c);
    }
  }

  lemma CountNotIn(log: seq<Command>, c: Command)
    requires c !in log
    ensures Count(log, c) == 0
  {
    if log != [] {
      assert log[0] in log;
      CountNotIn(log[1..], c);
    }
  }

  /** A call with one occurrence is counted once. */
  lemma CountOnce(before: seq<Command>, c: Command, after: seq<Command>)
    requires c !in before && c !in after
    ensures Count(before + [c] + after, c) == 1
  {
    CountAppend(before + [c], after, c);
    CountAppend(before, [c], c);
    CountNotIn(before, c);
    CountNotIn(after, c);
  }

  /** The bootstrap creates one instance, fetches the dataset once and
      opens one connection. */
  lemma BootStepsOnce()
    ensures Count(BootSteps, CreateInstance) == 1
    ensures Count(BootSteps, FetchDataset(DatasetUrl)) == 1
    ensures Count(BootSteps, Connect) == 1
  {
    var queries := [Query(AttachSql), Query(UseSql), Query(LoadSpatialSql)];
    assert BootSteps == [SelectBundle] + [CreateInstance]
      + ([Instantiate(true), FetchDataset(DatasetUrl), RegisterFileBuffer(DatasetName), Connect] + queries);
    CountOnce([SelectBundle], CreateInstance,
      [Instantiate(true), FetchDataset(DatasetUrl), RegisterFileBuffer(DatasetName), Connect] + queries);
    assert BootSteps == [SelectBundle, CreateInstance, Instantiate(true)] + [FetchDataset(DatasetUrl)]
      + ([RegisterFileBuffer(DatasetName), Connect] + queries);
    CountOnce([SelectBundle, CreateInstance, Instantiate(true)], FetchDataset(DatasetUrl),
      [RegisterFileBuffer(DatasetName), Connect] + queries);
    assert BootSteps == [SelectBundle, CreateInstance, Instantiate(true), FetchDataset(DatasetUrl),
      RegisterFileBuffer(DatasetName)] + [Connect] + queries;
    CountOnce([SelectBundle, CreateInstance, Instantiate(true), FetchDataset(DatasetUrl),
      RegisterFileBuffer(DatasetName)], Connect, queries);
  }

  /** The query commands for `sqls`, one per text, in order. */
  function QueriesOf(sqls: seq<string>): (qs: seq<Command>)
    ensures |qs| == |sqls|
    decreases |sqls|
  {
    if sqls == [] then [] else QueriesOf(sqls[..|sqls| - 1]) + [Query(sqls[|sqls| - 1])]
  }

  /** Command `i` is the query of text `i`. */
  lemma {:induction false} QueriesOfAt(sqls: seq<string>, i: nat)
    requires i < |sqls|
    ensures QueriesOf(sqls)[i] == Query(sqls[i])
    decreases |sqls|
  {
    var n := |sqls| - 1;
    if i < n {
      QueriesOfAt(sqls[..n], i);
    }
  }

  /** One more text gives one more query command at the end. */
  lemma QueriesOfSnoc(sqls: seq<string>, sql: string)
    ensures QueriesOf(sqls + [sql]) == QueriesOf(sqls) + [Query(sql)]
  {
    var longer := sqls + [sql];
    assert longer[..|longer| - 1] == sqls;
  }

  /** No call other than a query occurs among query commands. */
  lemma {:induction false} CountInQueries(sqls: seq<string>, c: Command)
    requires !c.Query?
    ensures Count(QueriesOf(sqls), c) == 0
    decreases |sqls|
  {
    if sqls != [] {
      var n := |sqls| - 1;
      CountInQueries(sqls[..n], c);
      CountAppend(QueriesOf(sqls[..n]), [Query(sqls[n])], c);
    }
  }

  /** The shape of the command log once initialization has started: the
      bootstrap's calls, then one query per text callers submitted, in the
      order they submitted them, and no such query after a failed
      bootstrap. */
  ghost predicate LogAfterBoot(engine: Engine, log: seq<Command>, submitted: seq<string>)
  {
    && log == BootRun(engine).issued + QueriesOf(submitted)
    && (BootRun(engine).error.Some? ==> submitted == [])
  }

  /** After a successful bootstrap, a caller's query keeps the log's shape. */
  lemma QueryKeepsShape(engine: Engine, log: seq<Command>, submitted: seq<string>, sql: string)
    requires LogAfterBoot(engine, log, submitted) && BootRun(engine).error.None?
    ensures LogAfterBoot(engine, log + [Query(sql)], submitted + [sql])
  {
    QueriesOfSnoc(submitted, sql);
  }

  /** A call that is not a query and occurs at most once in `steps` occurs
      at most once in a log made of a prefix of `steps` followed by queries. */
  lemma CallAtMostOnce(steps: seq<Command>, issued: seq<Command>, sqls: seq<string>, c: Command)
    requires |issued| <= |steps| && issued == steps[..|issued|]
    requires !c.Query? && Count(steps, c) <= 1
    ensures Count(issued + QueriesOf(sqls), c) <= 1
  {
    var users := QueriesOf(sqls);
    CountAppend(issued, users, c);
    CountInQueries(sqls, c);
    var unused := steps[|issued|..];
    assert steps == issued + unused;
    CountAppend(issued, unused, c);
  }

  /** However many calls have been made, the instance was created, the
      dataset fetched and the connection opened at most once each. */
  lemma BootCallsAtMostOnce(engine: Engine, log: seq<Command>, submitted: seq<string>)
    requires LogAfterBoot(engine, log, submitted)
    ensures Count(log, CreateInstance) <= 1
    ensures Count(log, FetchDataset(DatasetUrl)) <= 1
    ensures Count(log, Connect) <= 1
  {
    var issued := BootRun(engine).issued;
    RunStepsShape(engine, BootSteps);
    BootStepsOnce();
    CallAtMostOnce(BootSteps, issued, submitted, CreateInstance);
    CallAtMostOnce(BootSteps, issued, submitted, FetchDataset(DatasetUrl));
    CallAtMostOnce(BootSteps, issued, submitted, Connect);
  }

  /** `result.toArray().map(row => row.toJSON())`. */
  function ConvertRows(rows: seq<EngineRow>): (records: seq<Record>)
    ensures |records| == |rows|
    ensures forall i | 0 <= i < |rows| :: records[i] == ToJson(rows[i])
  {
    if rows == [] then [] else [ToJson(rows[0])] + ConvertRows(rows[1..])
  }

  /** What `executeSelectQuery(sql)` settles with, on any call: the error of
      a failed bootstrap, else the engine's error for `sql`, else one record
      per engine row. */
  function Exec(engine: Engine, sql: string): (r: Result<seq<Record>>)
    ensures BootRun(engine).error.Some? ==> r == Err(BootRun(engine).error.value)
    ensures BootRun(engine).error.None? && engine.answer(sql).Err? ==> r == Err(engine.answer(sql).error)
    ensures r.Ok? <==> BootRun(engine).error.None? && engine.answer(sql).Ok?
    ensures r.Ok? ==> r.value == ConvertRows(engine.answer(sql).value)
  {
    var boot := BootRun(engine);
    if boot.error.Some? then Err(boot.error.value)
    else
      match engine.answer(sql)
      case Err(e) => Err(e)
      case Ok(rows) => Ok(ConvertRows(rows))
  }

  /** The calls one `executeSelectQuery(sql)` makes into the engine: the
      bootstrap if nothing has started it yet, then `sql` itself if the
      bootstrap succeeded. */
  ghost function ExecLog(engine: Engine, started: bool, sql: string): seq<Command>
  {
    (if started then [] else BootRun(engine).issued)
    + (if BootRun(engine).error.None? then [Query(sql)] else [])
  }

  /** The AsyncDuckDB instance; only its identity matters here. */
  class DuckDbInstance {
    constructor () {}
  }

  /** An open connection; only its identity matters here. */
  class Connection {
    constructor () {}
  }

  /** What a successful initialization resolves to: `{ db, conn }`. */
  datatype Handles = Handles(db: DuckDbInstance, conn: Connection)

  /** How the three module variables and the log hang together. Before the
      first initialization nothing exists and nothing was called. After it,
      the log is the bootstrap followed by queries; the stored task was
      fulfilled exactly when the bootstrap succeeded, with the two module
      variables, or rejected with the bootstrap's error. */
  ghost predicate Consistent(engine: Engine, dbInstance: Option<DuckDbInstance>, connection: Option<Connection>,
                             promise: Option<Result<Handles>>, log: seq<Command>, submitted: seq<string>)
  {
    && (promise.None? ==> log == [] && submitted == [] && dbInstance.None? && connection.None?)
    && (promise.Some? ==>
          && LogAfterBoot(engine, log, submitted)
          && (promise.value.Ok? <==> BootRun(engine).error.None?)
          && (promise.value.Err? ==> BootRun(engine).error == Some(promise.value.error))
          && (promise.value.Ok? ==>
                dbInstance == Some(promise.value.value.db) && connection == Some(promise.value.value.conn)))
  }

  /** A first bootstrap that settles with `r` establishes Consistent. */
  lemma BootConsistent(engine: Engine, dbInstance: Option<DuckDbInstance>, connection: Option<Connection>,
                       r: Result<Handles>)
    requires r.Ok? <==> BootRun(engine).error.None?
    requires r.Err? ==> BootRun(engine).error == Some(r.error)
    requires r.Ok? ==> dbInstance == Some(r.value.db) && connection == Some(r.value.conn)
    ensures Consistent(engine, dbInstance, connection, Some(r), BootRun(engine).issued, [])
  {
    assert BootRun(engine).issued + QueriesOf([]) == BootRun(engine).issued;
  }

  /** The state of the database.js module. */
  class DatabaseService {
    const engine: Engine
    var dbInstance: Option<DuckDbInstance>
    var connection: Option<Connection>
    /** `initializationPromise`: None while null, else the settled task. */
    var promise: Option<Result<Handles>>
    ghost var log: seq<Command>
    /** The SQL texts callers' queries carried to the connection, in order. */
    ghost var submitted: seq<string>

    ghost predicate Valid()
      reads this
    {
      var consistent := Consistent(engine, dbInstance, connection, promise, log, submitted);
      consistent
    }

    /** In every state the module can reach, the instance was created, the
        dataset fetched and the connection opened at most once each. */
    lemma BootstrapRanAtMostOnce()
      requires Valid()
      ensures Count(log, CreateInstance) <= 1
      ensures Count(log, FetchDataset(DatasetUrl)) <= 1
      ensures Count(log, Connect) <= 1
    {
      if promise.Some? {
        BootCallsAtMostOnce(engine, log, submitted);
      }
    }

    /** The module as loaded: all three variables null, nothing called yet. */
    constructor (engine: Engine)
      ensures Valid()
      ensures this.engine == engine
      ensures promise.None? && dbInstance.None? && connection.None? && log == [] && submitted == []
    {
      this.engine := engine;
      dbInstance := None;
      connection := None;
      promise := None;
      log := [];
      submitted := [];
    }

    /** `conn.query(sql)`. There is only ever one connection, so `conn`
        names it at the call site but does not affect the answer. */
    method ConnectionQuery(conn: Connection, sql: string) returns (r: Result<seq<EngineRow>>)
      modifies this`log
      ensures log == old(log) + [Query(sql)]
      ensures r == engine.answer(sql)
    {
      r := engine.answer(sql);
      log := log + [Query(sql)];
    }

    /** Call `k` of a run of `steps`, awaited. The ghost parameters carry
        the run's progress: the log holds the calls before `k` after `log0`,
        and all of them succeeded. */
    method Step(c: Command, ghost steps: seq<Command>, ghost k: nat, ghost log0: seq<Command>)
      returns (e: Option<Error>)
      requires k < |steps| && c == steps[k]
      requires forall i | 0 <= i < k :: Outcome(engine, steps[i]).None?
      requires log == log0 + steps[..k]
      requires c.Query? ==> connection.Some?
      modifies this`log
      ensures log == log0 + steps[..k + 1]
      ensures e == Outcome(engine, c)
      ensures e.None? ==> forall i | 0 <= i < k + 1 :: Outcome(engine, steps[i]).None?
      ensures e.Some? ==> RunSteps(engine, steps) == Run(steps[..k + 1], e)
    {
      if c.Query? {
        var q := ConnectionQuery(connection.value, c.sql);
        e := if q.Err? then Some(q.error) else None;
      } else {
        e := engine.failure(c);
        log := log + [c];
      }
      assert steps[..k + 1] == steps[..k] + [steps[k]];
      if e.Some? {
        RunStopsAt(engine, steps, k);
      }
    }

    /** The body of the async function stored at line 16. If an instance and
        a connection already exist it resolves to them at once; otherwise it
        runs the bootstrap, assigning `dbInstance` once the instance is
        created and `connection` once it is connected, so that a later
        failure leaves them assigned. */
    method Bootstrap() returns (r: Result<Handles>)
      modifies this`log, this`dbInstance, this`connection
      ensures old(dbInstance).Some? && old(connection).Some? ==>
                && r == Ok(Handles(old(dbInstance).value, old(connection).value))
                && log == old(log) && dbInstance == old(dbInstance) && connection == old(connection)
      ensures !(old(dbInstance).Some? && old(connection).Some?) ==>
                && log == old(log) + BootRun(engine).issued
                && (r.Ok? <==> BootRun(engine).error.None?)
                && (r.Err? ==> BootRun(engine).error == Some(r.error))
                && (r.Ok? ==> dbInstance == Some(r.value.db) && connection == Some(r.value.conn))
                && (Completed(engine, InstanceStep + 1) ==> dbInstance.Some? && fresh(dbInstance.value))
                && (!Completed(engine, InstanceStep + 1) ==> dbInstance == old(dbInstance))
                && (Completed(engine, ConnectStep + 1) ==> connection.Some? && fresh(connection.value))
                && (!Completed(engine, ConnectStep + 1) ==> connection == old(connection))
    {
      if dbInstance.Some? && connection.Some? {
        return Ok(Handles(dbInstance.value, connection.value));
      }
      ghost var log0 := log;
      var e := StartInstance(log0);
      if e.Some? { return Err(e.value); }
      r := OpenConnection(dbInstance.value, log0);
    }

    /** Lines 28-38: select the bundle and create the instance, assigning
        `dbInstance`, then load the dataset into it. */
    method StartInstance(ghost log0: seq<Command>) returns (e: Option<Error>)
      requires log == log0
      modifies this`log, this`dbInstance
      ensures e.None? ==> Completed(engine, ConnectStep) && log == log0 + BootSteps[..ConnectStep]
      ensures e.None? ==> dbInstance.Some? && fresh(dbInstance.value)
      ensures e.Some? ==> BootRun(engine).error == e && log == log0 + BootRun(engine).issued
      ensures e.Some? ==> !Completed(engine, ConnectStep)
      ensures e.Some? && Completed(engine, InstanceStep + 1) ==> dbInstance.Some? && fresh(dbInstance.value)
      ensures e.Some? && !Completed(engine, InstanceStep + 1) ==> dbInstance == old(dbInstance)
    {
      e := Step(SelectBundle, BootSteps, 0, log0);
      if e.Some? { return; }
      e := Step(CreateInstance, BootSteps, 1, log0);
      if e.Some? { return; }
      var db := new DuckDbInstance();
      dbInstance := Some(db);
      e := LoadDataset(log0);
    }

    /** Lines 32-38: instantiate the instance with castBigIntToDouble set,
        fetch the dataset and register its bytes. */
    method LoadDataset(ghost log0: seq<Command>) returns (e: Option<Error>)
      requires Completed(engine, InstanceStep + 1) && log == log0 + BootSteps[..InstanceStep + 1]
      modifies this`log
      ensures e.None? ==> Completed(engine, ConnectStep) && log == log0 + BootSteps[..ConnectStep]
      ensures e.Some? ==> BootRun(engine).error == e && log == log0 + BootRun(engine).issued
      ensures e.Some? ==> !Completed(engine, ConnectStep)
    {
      e := Step(Instantiate(true), BootSteps, 2, log0);
      if e.Some? { return; }
      e := Step(FetchDataset(DatasetUrl), BootSteps, 3, log0);
      if e.Some? { return; }
      e := Step(RegisterFileBuffer(DatasetName), BootSteps, 4, log0);
    }

    /** Lines 40-47: connect, assigning `connection`, prepare the
        connection and resolve to `{ db, conn }`. */
    method OpenConnection(db: DuckDbInstance, ghost log0: seq<Command>) returns (r: Result<Handles>)
      requires Completed(engine, ConnectStep) && log == log0 + BootSteps[..ConnectStep]
      modifies this`log, this`connection
      ensures log == log0 + BootRun(engine).issued
      ensures r.Ok? <==> BootRun(engine).error.None?
      ensures r.Err? ==> BootRun(engine).error == Some(r.error)
      ensures r.Ok? ==> r.value.db == db && connection == Some(r.value.conn)
      ensures Completed(engine, ConnectStep + 1) ==> connection.Some? && fresh(connection.value)
      ensures !Completed(engine, ConnectStep + 1) ==> connection == old(connection)
    {
      var e := Step(Connect, BootSteps, 5, log0);
      if e.Some? { return Err(e.value); }
      var conn := new Connection();
      connection := Some(conn);
      e := PrepareConnection(log0);
      if e.Some? { return Err(e.value); }
      r := Ok(Handles(db, conn));
    }

    /** Lines 41-45: attach the registered file, make it the default
        database and load the spatial extension, on the open connection.
        The bootstrap ends here, so its whole run is now known. */
    method PrepareConnection(ghost log0: seq<Command>) returns (e: Option<Error>)
      requires Completed(engine, ConnectStep + 1) && log == log0 + BootSteps[..ConnectStep + 1]
      requires connection.Some?
      modifies this`log
      ensures e == BootRun(engine).error
      ensures log == log0 + BootRun(engine).issued
    {
      e := Step(Query(AttachSql), BootSteps, 6, log0);
      if e.Some? { return; }
      e := Step(Query(UseSql), BootSteps, 7, log0);
      if e.Some? { return; }
      e := Step(Query(LoadSpatialSql), BootSteps, 8, log0);
      if e.Some? { return; }
      BootSucceeds(engine);
    }

    /** `initializeDatabase()`. The first call runs the bootstrap and stores
        its task. Being `async`, every call hands back a new promise that
        adopts the stored task, so a later call gets what that task settled
        with and calls nothing in the engine. The stored task is never
        cleared, so a failed bootstrap is never retried. */
    method InitializeDatabase() returns (r: Result<Handles>)
      requires Valid()
      modifies this
      ensures Valid()
      ensures promise == Some(r)
      ensures old(promise).Some? ==>
                && r == old(promise).value
                && log == old(log) && dbInstance == old(dbInstance) && connection == old(connection)
      ensures old(promise).None? ==> log == BootRun(engine).issued
      ensures old(promise).None? ==>
                && (dbInstance.Some? <==> Completed(engine, InstanceStep + 1))
                && (connection.Some? <==> Completed(engine, ConnectStep + 1))
      ensures submitted == old(submitted)
      ensures r.Ok? <==> BootRun(engine).error.None?
      ensures r.Err? ==> BootRun(engine).error == Some(r.error)
      ensures r.Ok? ==> dbInstance == Some(r.value.db) && connection == Some(r.value.conn)
    {
      if promise.Some? {
        return promise.value;
      }
      r := Bootstrap();
      promise := Some(r);
      BootConsistent(engine, dbInstance, connection, r);
    }

    /** `executeSelectQuery(sql)`: waits for initialization, submits `sql`
        unchanged on the connection and converts each row; an error from
        either is rethrown as it is. */
    method ExecuteSelectQuery(sql: string) returns (r: Result<seq<Record>>)
      requires Valid()
      modifies this
      ensures Valid()
      ensures r == Exec(engine, sql)
      ensures log == old(log) + ExecLog(engine, old(promise).Some?, sql)
      ensures submitted == old(submitted) + (if BootRun(engine).error.None? then [sql] else [])
      ensures promise.Some?
      ensures old(promise).Some? ==>
                promise == old(promise) && dbInstance == old(dbInstance) && connection == old(connection)
    {
      var init := InitializeDatabase();
      if init.Err? {
        return Err(init.error);
      }
      QueryKeepsShape(engine, log, submitted, sql);
      var result := ConnectionQuery(init.value.conn, sql);
      submitted := submitted + [sql];
      if result.Err? {
        return Err(result.error);
      }
      r := Ok(ConvertRows(result.value));
    }
  }
}
