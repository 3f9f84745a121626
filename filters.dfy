/** The filter-option loader of src/services/filters.js: for each column it
    asks the database for the column's distinct values and collects them,
    column by column, into one object keyed by column name. */
module Filters {
  import opened DuckDb
  import opened Database

  /** The two fixed parts of the query built at line 12. */
  const SelectDistinct := "SELECT DISTINCT "
  const FromBuses := " FROM buses"

  /** The SQL text for one column: the column name spliced in verbatim,
      with no quoting or escaping. */
  function DistinctQuery(column: string): (sql: string)
    ensures |sql| == |SelectDistinct| + |column| + |FromBuses|
    ensures sql[..|SelectDistinct|] == SelectDistinct
    ensures sql[|SelectDistinct|..|SelectDistinct| + |column|] == column
    ensures sql[|SelectDistinct| + |column|..] == FromBuses
  {
    SelectDistinct + column + FromBuses
  }

  /** Reads the column name back out of a query of that form, if it has it. */
  function QueriedColumn(sql: string): (column: Option<string>)
    ensures column.Some? ==> |sql| == |SelectDistinct| + |column.value| + |FromBuses|
  {
    var head, tail := |SelectDistinct|, |FromBuses|;
    if head + tail <= |sql| && sql[..head] == SelectDistinct && sql[|sql| - tail..] == FromBuses
    then Some(sql[head..|sql| - tail])
    else None
  }

  /** The query text carries the column name exactly: it reads back as that
      column. */
  lemma DistinctQueryParses(column: string)
    ensures QueriedColumn(DistinctQuery(column)) == Some(column)
  {
    var sql := DistinctQuery(column);
    var head, tail := |SelectDistinct|, |FromBuses|;
    assert sql[..head] == SelectDistinct;
    assert sql[|sql| - tail..] == FromBuses;
    assert sql[head..|sql| - tail] == column;
  }

  /** Different columns give different queries. */
  lemma DistinctQueryInjective(a: string, b: string)
    requires DistinctQuery(a) == DistinctQuery(b)
    ensures a == b
  {
    DistinctQueryParses(a);
    DistinctQueryParses(b);
  }

  /** `row[column]`: the record's property, or undefined when it has none. */
  function Lookup(row: Record, column: string): (v: Value)
    ensures column in row ==> v == row[column]
    ensures column !in row ==> v == Undefined
  {
    if column in row then row[column] else Undefined
  }

  /** `results.map(row => row[column])`: one value per row, in row order. */
  function Project(rows: seq<Record>, column: string): (values: seq<Value>)
    ensures |values| == |rows|
    ensures forall i | 0 <= i < |rows| :: values[i] == Lookup(rows[i], column)
  {
    if rows == [] then [] else [Lookup(rows[0], column)] + Project(rows[1..], column)
  }

  /** The object the loop builds: column name to that column's values. */
  type DistinctValues = map<string, seq<Value>>

  /** What `executeSelectQuery` settles with for the query of `column`. */
  function Ask(engine: Engine, column: string): Result<seq<Record>>
  {
    Exec(engine, DistinctQuery(column))
  }

  /** What each column's query would settle with, column by column. */
  function Answers(engine: Engine, columns: seq<string>): (answers: seq<Result<seq<Record>>>)
    ensures |answers| == |columns|
    decreases |columns|
  {
    if columns == [] then [] else Answers(engine, columns[..|columns| - 1]) + [Ask(engine, columns[|columns| - 1])]
  }

  /** Answer `i` is that of column `i`. */
  lemma {:induction false} AnswersAt(engine: Engine, columns: seq<string>, i: nat)
    requires i < |columns|
    ensures Answers(engine, columns)[i] == Ask(engine, columns[i])
    decreases |columns|
  {
    var n := |columns| - 1;
    if i < n {
      AnswersAt(engine, columns[..n], i);
    }
  }

  /** Where the loop stands: the object so far or the error that ended it,
      and the columns queried so far, in order. */
  datatype Fetched = Fetched(result: Result<DistinctValues>, asked: seq<string>)

  /** One pass of the loop body, lines 12-14, once the query of `column`
      has settled with `answer`: on success store `row[column]` of each row
      under the column's name, replacing what an earlier column of the same
      name stored; on failure, that error. */
  function Store(values: DistinctValues, column: string, answer: Result<seq<Record>>): (r: Result<DistinctValues>)
    ensures r.Ok? <==> answer.Ok?
    ensures answer.Err? ==> r.error == answer.error
    ensures r.Ok? ==>
              && r.value.Keys == values.Keys + {column}
              && r.value[column] == Project(answer.value, column)
              && forall k | k in values && k != column :: r.value[k] == values[k]
  {
    match answer
    case Err(e) => Err(e)
    case Ok(rows) => Ok(values[column := Project(rows, column)])
  }

  /** What the loop of lines 11-15 has done after its first `n` passes over
      `columns`, whose queries settle with `answers`; once a query fails
      nothing further is queried and its error is the result. */
  function FetchUpTo(columns: seq<string>, answers: seq<Result<seq<Record>>>, n: nat): (f: Fetched)
    requires n <= |columns| == |answers|
    ensures |f.asked| <= n
    ensures f.asked == columns[..|f.asked|]
    ensures f.result.Ok? ==> |f.asked| == n
    ensures f.result.Err? ==> 0 < |f.asked| && answers[|f.asked| - 1] == Err(f.result.error)
  {
    if n == 0 then Fetched(Ok(map[]), [])
    else
      var prior := FetchUpTo(columns, answers, n - 1);
      if prior.result.Err? then prior
      else
        assert columns[..n] == columns[..n - 1] + [columns[n - 1]];
        Fetched(Store(prior.result.value, columns[n - 1], answers[n - 1]), prior.asked + [columns[n - 1]])
  }

  /** `fetchDistinctValues(columns)` against the database of `engine`. */
  function Fetch(engine: Engine, columns: seq<string>): (f: Fetched)
    ensures |f.asked| <= |columns| && f.asked == columns[..|f.asked|]
    ensures f.result.Ok? ==> f.asked == columns
    ensures f.result.Err? ==> 0 < |f.asked| && Ask(engine, f.asked[|f.asked| - 1]) == Err(f.result.error)
  {
    var f := FetchUpTo(columns, Answers(engine, columns), |columns|);
    if f.result.Ok? then f
    else
      AnswersAt(engine, columns, |f.asked| - 1);
      f
  }

  /** The loop succeeds exactly when every query does. */
  lemma {:induction false} FetchUpToOk(columns: seq<string>, answers: seq<Result<seq<Record>>>, n: nat)
    requires n <= |columns| == |answers|
    ensures FetchUpTo(columns, answers, n).result.Ok? <==> forall i | 0 <= i < n :: answers[i].Ok?
  {
    if n > 0 {
      FetchUpToOk(columns, answers, n - 1);
    }
  }

  /** On success every key is a column queried. */
  lemma {:induction false} FetchUpToKeys(columns: seq<string>, answers: seq<Result<seq<Record>>>, n: nat)
    requires n <= |columns| == |answers| && FetchUpTo(columns, answers, n).result.Ok?
    ensures forall c | c in FetchUpTo(columns, answers, n).result.value :: c in columns[..n]
  {
    if n > 0 {
      assert FetchUpTo(columns, answers, n - 1).result.Ok?;
      FetchUpToKeys(columns, answers, n - 1);
      assert columns[..n] == columns[..n - 1] + [columns[n - 1]];
    }
  }

  /** On success, when a column's queries all settle alike, its key holds
      `row[column]` of every row of its query, in order. */
  lemma {:induction false} FetchUpToValues(columns: seq<string>, answers: seq<Result<seq<Record>>>, n: nat)
    requires n <= |columns| == |answers| && FetchUpTo(columns, answers, n).result.Ok?
    requires forall i, j | 0 <= i < j < n && columns[i] == columns[j] :: answers[i] == answers[j]
    ensures forall i | 0 <= i < n ::
              && answers[i].Ok?
              && columns[i] in FetchUpTo(columns, answers, n).result.value
              && FetchUpTo(columns, answers, n).result.value[columns[i]] == Project(answers[i].value, columns[i])
  {
    if n > 0 {
      var prior := FetchUpTo(columns, answers, n - 1).result;
      var column := columns[n - 1];
      assert prior.Ok?;
      FetchUpToValues(columns, answers, n - 1);
      var values := Store(prior.value, column, answers[n - 1]).value;
      assert FetchUpTo(columns, answers, n).result.value == values;
      forall i | 0 <= i < n
        ensures answers[i].Ok? && columns[i] in values && values[columns[i]] == Project(answers[i].value, columns[i])
      {
        if i < n - 1 && columns[i] == column {
          assert answers[i] == answers[n - 1];
        }
      }
    }
  }

  /** Once the loop has failed, later passes change nothing. */
  lemma {:induction false} FetchUpToStaysFailed(columns: seq<string>, answers: seq<Result<seq<Record>>>, k: nat, n: nat)
    requires k <= n <= |columns| == |answers| && FetchUpTo(columns, answers, k).result.Err?
    ensures FetchUpTo(columns, answers, n) == FetchUpTo(columns, answers, k)
  {
    if k < n {
      FetchUpToStaysFailed(columns, answers, k, n - 1);
    }
  }

  /** The first `i + 1` columns are the first `i` and then column `i`. */
  lemma PrefixGrows(columns: seq<string>, i: nat)
    requires i < |columns|
    ensures columns[..i + 1] == columns[..i] + [columns[i]]
  {
  }

  /** When every query succeeds, every column is queried, in order. */
  lemma {:induction false} FetchUpToAllOk(columns: seq<string>, answers: seq<Result<seq<Record>>>, n: nat)
    requires n <= |columns| == |answers|
    requires forall i | 0 <= i < n :: answers[i].Ok?
    ensures FetchUpTo(columns, answers, n).result.Ok?
    ensures FetchUpTo(columns, answers, n).asked == columns[..n]
  {
    if n > 0 {
      FetchUpToAllOk(columns, answers, n - 1);
      PrefixGrows(columns, n - 1);
    }
  }

  /** On the whole list: success exactly when every column's query
      succeeds. An empty list asks nothing and yields the empty object. */
  lemma FetchOk(engine: Engine, columns: seq<string>)
    ensures Fetch(engine, columns).result.Ok? <==> forall i | 0 <= i < |columns| :: Ask(engine, columns[i]).Ok?
    ensures columns == [] ==> Fetch(engine, columns) == Fetched(Ok(map[]), [])
  {
    var answers := Answers(engine, columns);
    forall i | 0 <= i < |columns| ensures answers[i] == Ask(engine, columns[i]) {
      AnswersAt(engine, columns, i);
    }
    FetchUpToOk(columns, answers, |columns|);
  }

  /** On success every column was queried, in order, and the object has
      one key per column, holding `row[column]` of every row of its query. */
  lemma FetchContents(engine: Engine, columns: seq<string>)
    requires Fetch(engine, columns).result.Ok?
    ensures Fetch(engine, columns).asked == columns
    ensures Fetch(engine, columns).result.value.Keys == set c | c in columns
    ensures forall c | c in columns ::
              && Ask(engine, c).Ok?
              && c in Fetch(engine, columns).result.value
              && Fetch(engine, columns).result.value[c] == Project(Ask(engine, c).value, c)
  {
    var n := |columns|;
    var answers := Answers(engine, columns);
    forall i | 0 <= i < n ensures answers[i] == Ask(engine, columns[i]) {
      AnswersAt(engine, columns, i);
    }
    FetchUpToOk(columns, answers, n);
    FetchUpToAllOk(columns, answers, n);
    assert columns[..n] == columns;
    FetchUpToKeys(columns, answers, n);
    FetchUpToValues(columns, answers, n);
  }

  /** When the query of column `i` is the first to fail, the loop fails
      with exactly that query's error, having queried columns 0 to `i` and
      no more. */
  lemma FetchUpToStopsAt(columns: seq<string>, answers: seq<Result<seq<Record>>>, i: nat)
    requires i < |columns| == |answers|
    requires forall j | 0 <= j < i :: answers[j].Ok?
    requires answers[i].Err?
    ensures FetchUpTo(columns, answers, |columns|) == Fetched(Err(answers[i].error), columns[..i + 1])
  {
    FetchUpToAllOk(columns, answers, i);
    PrefixGrows(columns, i);
    FetchUpToStaysFailed(columns, answers, i + 1, |columns|);
  }

  /** The same for the columns' queries against `engine`. */
  lemma FetchStopsAt(engine: Engine, columns: seq<string>, i: nat)
    requires i < |columns|
    requires forall j | 0 <= j < i :: Ask(engine, columns[j]).Ok?
    requires Ask(engine, columns[i]).Err?
    ensures Fetch(engine, columns) == Fetched(Err(Ask(engine, columns[i]).error), columns[..i + 1])
  {
    var answers := Answers(engine, columns);
    forall j | 0 <= j <= i ensures answers[j] == Ask(engine, columns[j]) {
      AnswersAt(engine, columns, j);
    }
    FetchUpToStopsAt(columns, answers, i);
  }

  /** The queries for `columns`, one per column, in order. */
  function DistinctQueries(columns: seq<string>): (sqls: seq<string>)
    ensures |sqls| == |columns|
    decreases |columns|
  {
    if columns == [] then [] else DistinctQueries(columns[..|columns| - 1]) + [DistinctQuery(columns[|columns| - 1])]
  }

  /** Query `i` is the query of column `i`. */
  lemma {:induction false} DistinctQueriesAt(columns: seq<string>, i: nat)
    requires i < |columns|
    ensures DistinctQueries(columns)[i] == DistinctQuery(columns[i])
    decreases |columns|
  {
    var n := |columns| - 1;
    if i < n {
      DistinctQueriesAt(columns[..n], i);
    }
  }

  /** The texts that reach the connection when the columns `asked` are
      queried in turn: their queries, or none if the bootstrap failed. */
  ghost function Sent(engine: Engine, asked: seq<string>): seq<string>
  {
    if BootRun(engine).error.None? then DistinctQueries(asked) else []
  }

  /** The texts submitted so far, after one more column's query. */
  lemma SentGrows(engine: Engine, base: seq<string>, before: seq<string>, after: seq<string>,
                  asked: seq<string>, column: string)
    requires before == base + Sent(engine, asked)
    requires after == before + Sent(engine, [column])
    ensures after == base + Sent(engine, asked + [column])
  {
    var longer := asked + [column];
    assert longer[..|longer| - 1] == asked;
    assert [column][..0] == [];
  }

  /** Lines 12-14 for one column: build its query, run it and store the
      values it yields. */
  method FetchColumn(db: DatabaseService, values: DistinctValues, column: string) returns (r: Result<DistinctValues>)
    requires db.Valid()
    modifies db
    ensures db.Valid()
    ensures r == Store(values, column, Ask(db.engine, column))
    ensures db.submitted == old(db.submitted) + Sent(db.engine, [column])
    ensures db.promise.Some?
    ensures old(db.promise).Some? ==>
              db.promise == old(db.promise) && db.dbInstance == old(db.dbInstance) && db.connection == old(db.connection)
  {
    var sql := DistinctQuery(column);
    assert DistinctQueries([column]) == [sql] by {
      assert [column][..0] == [];
    }
    var results := db.ExecuteSelectQuery(sql);
    if results.Err? {
      return Err(results.error);
    }
    r := Ok(values[column := Project(results.value, column)]);
  }

  /** Pass `i` of the loop of lines 11-15, stated in terms of the loop's
      progress: after the passes before it left `values` and queried
      `asked`, this pass leaves the state of pass `i + 1`, and the texts
      submitted since `base` grow by this column's query (by nothing after a
      failed bootstrap). A failing pass already fixes what the whole call
      yields. An existing stored task and the handles are kept. */
  method FetchStep(db: DatabaseService, columns: seq<string>, i: nat, values: DistinctValues,
                   ghost asked: seq<string>, ghost base: seq<string>) returns (stored: Result<DistinctValues>)
    requires db.Valid() && i < |columns|
    requires FetchUpTo(columns, Answers(db.engine, columns), i) == Fetched(Ok(values), asked)
    requires db.submitted == base + Sent(db.engine, asked)
    modifies db
    ensures db.Valid()
    ensures FetchUpTo(columns, Answers(db.engine, columns), i + 1) == Fetched(stored, asked + [columns[i]])
    ensures db.submitted == base + Sent(db.engine, asked + [columns[i]])
    ensures db.promise.Some?
    ensures old(db.promise).Some? ==>
              db.promise == old(db.promise) && db.dbInstance == old(db.dbInstance) && db.connection == old(db.connection)
    ensures stored.Err? ==> Fetch(db.engine, columns) == Fetched(stored, asked + [columns[i]])
  {
    AnswersAt(db.engine, columns, i);
    ghost var before := db.submitted;
    stored := FetchColumn(db, values, columns[i]);
    SentGrows(db.engine, base, before, db.submitted, asked, columns[i]);
    if stored.Err? {
      FetchUpToStaysFailed(columns, Answers(db.engine, columns), i + 1, |columns|);
    }
  }

  /** `fetchDistinctValues(columns)`: for each column in turn, query its
      distinct values and store `row[column]` of each result row under the
      column's name; an error from a query propagates at once and the
      remaining columns are not queried. After it, the texts that reached
      the connection are the queries of the columns asked, in order, or
      none if the bootstrap failed, and a non-empty list has set off the
      initialization. */
  method FetchDistinctValues(db: DatabaseService, columns: seq<string>) returns (r: Result<DistinctValues>)
    requires db.Valid()
    modifies db
    ensures db.Valid()
    ensures r == Fetch(db.engine, columns).result
    ensures db.submitted == old(db.submitted) + Sent(db.engine, Fetch(db.engine, columns).asked)
    ensures |columns| > 0 ==> db.promise.Some?
    ensures old(db.promise).Some? ==>
              db.promise == old(db.promise) && db.dbInstance == old(db.dbInstance) && db.connection == old(db.connection)
    ensures columns == [] ==> unchanged(db)
  {
    ghost var answers := Answers(db.engine, columns);
    ghost var asked: seq<string> := [];
    var distinctValues: DistinctValues := map[];
    var i: nat := 0;
    while i < |columns|
      invariant i <= |columns|
      invariant db.Valid()
      invariant FetchUpTo(columns, answers, i) == Fetched(Ok(distinctValues), asked)
      invariant db.submitted == old(db.submitted) + Sent(db.engine, asked)
      invariant i > 0 ==> db.promise.Some?
      invariant old(db.promise).Some? ==>
                  db.promise == old(db.promise) && db.dbInstance == old(db.dbInstance) && db.connection == old(db.connection)
      invariant i == 0 ==> unchanged(db)
    {
      var stored := FetchStep(db, columns, i, distinctValues, asked, old(db.submitted));
      asked := asked + [columns[i]];
      if stored.Err? {
        return stored;
      }
      distinctValues := stored.value;
      i := i + 1;
    }
    r := Ok(distinctValues);
  }
}
