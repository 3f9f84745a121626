/** The boundary with the embedded DuckDB-WASM engine.

    The engine itself is a black box: it is represented by the outcome of each
    call the bootstrap makes into it and by the answer it gives to each SQL
    text. Everything here is data; the state that changes lives in the
    Database module. */
module DuckDb {

  datatype Option<T> = None | Some(value: T)

  /** A JavaScript exception, carried unchanged from where it is thrown. */
  datatype Error = Error(message: string)

  /** A settled promise: fulfilled with a value or rejected with an error. */
  datatype Result<T> = Ok(value: T) | Err(error: Error)

  /** A scalar as it reaches JavaScript. With castBigIntToDouble set, 64-bit
      integers arrive as numbers. `Undefined` is what a property lookup yields
      for a key the object does not have. */
  datatype Value = Null | Undefined | Boolean(b: bool) | Number(x: real) | Text(s: string)

  /** One column of one row of an Arrow result table. */
  datatype Field = Field(name: string, value: Value)

  /** One row of an Arrow result table: its fields in schema order. */
  datatype EngineRow = EngineRow(fields: seq<Field>)

  /** A plain JavaScript object, as produced by `row.toJSON()`. */
  type Record = map<string, Value>

  /** The calls the bootstrap and the query executor make into the engine. */
  datatype Command =
    | SelectBundle                            // duckdb.selectBundle(DUCKDB_BUNDLES)
    | CreateInstance                          // new Worker, new ConsoleLogger, new AsyncDuckDB
    | Instantiate(castBigIntToDouble: bool)   // db.instantiate(mainModule, { query: ... })
    | FetchDataset(url: string)               // fetch(url) and response.arrayBuffer()
    | RegisterFileBuffer(name: string)        // db.registerFileBuffer(name, bytes)
    | Connect                                 // db.connect()
    | Query(sql: string)                      // conn.query(sql)

  /** The engine as seen from the core: whether each non-query call throws,
      and what each SQL text yields. `failure` is never consulted for a
      `Query`; whether a query throws is part of its answer. */
  datatype Engine = Engine(failure: Command -> Option<Error>, answer: string -> Result<seq<EngineRow>>)

  /** Whether a call into the engine throws, and with which error. A query
      throws exactly when the engine rejects its SQL. */
  function Outcome(engine: Engine, c: Command): Option<Error>
  {
    match c
    case Query(sql) => if engine.answer(sql).Err? then Some(engine.answer(sql).error) else None
    case _ => engine.failure(c)
  }

  /** The names of a row's fields, collected in field order. */
  ghost function Names(fields: seq<Field>): set<string>
    decreases |fields|
  {
    if fields == [] then {} else Names(fields[..|fields| - 1]) + {fields[|fields| - 1].name}
  }

  /** A name is among the field names exactly when some field carries it. */
  lemma {:induction false} NamesExactly(fields: seq<Field>, k: string)
    ensures k in Names(fields) <==> exists i | 0 <= i < |fields| :: fields[i].name == k
    decreases |fields|
  {
    if fields != [] {
      var n := |fields| - 1;
      var init := fields[..n];
      NamesExactly(init, k);
      if k in Names(init) {
        var i :| 0 <= i < |init| && init[i].name == k;
        assert fields[i] == init[i];
      }
      if exists i | 0 <= i < |fields| :: fields[i].name == k {
        var i :| 0 <= i < |fields| && fields[i].name == k;
        if i < n { assert init[i] == fields[i]; }
      }
    }
  }

  /** Whether field `i` is the last field of its name. */
  ghost predicate LastOfName(fields: seq<Field>, i: int)
    requires 0 <= i < |fields|
  {
    forall j | i < j < |fields| :: fields[j].name != fields[i].name
  }

  /** `row.toJSON()`: the fields are assigned one after another, so where two
      fields share a name the later one is kept. A `Record` is a map: the
      order of the object's properties is not modelled. */
  function ToJson(row: EngineRow): (r: Record)
    ensures r.Keys == Names(row.fields)
    ensures forall i | 0 <= i < |row.fields| && LastOfName(row.fields, i) ::
              row.fields[i].name in r && r[row.fields[i].name] == row.fields[i].value
    decreases |row.fields|
  {
    var fields := row.fields;
    if fields == [] then map[]
    else
      var n := |fields| - 1;
      var init := fields[..n];
      var prior := ToJson(EngineRow(init));
      var r := prior[fields[n].name := fields[n].value];
      assert forall i | 0 <= i < |fields| && LastOfName(fields, i) ::
               fields[i].name in r && r[fields[i].name] == fields[i].value by {
        forall i | 0 <= i < |fields| && LastOfName(fields, i)
          ensures fields[i].name in r && r[fields[i].name] == fields[i].value
        {
          if i < n {
            assert fields[n].name != fields[i].name;
            assert init[i] == fields[i];
            assert LastOfName(init, i) by {
              forall j | i < j < n ensures init[j].name != init[i].name {
                assert init[j] == fields[j];
              }
            }
          }
        }
      }
      r
  }
}
