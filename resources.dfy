/**
 * The two MCP resources of server.py: the list of databases (`taos://database`) and the
 * schema of every super table in the connection's current database (`taos://schemas`).
 * Neither catches anything: a driver failure leaves the resource as the raised error.
 */
module Resources {
  import opened Wrappers
  import opened Client
  import opened Queries

  // ---- taos://database ----

  /** `get_current_taos_database`: the rows of `SHOW DATABASES;`. */
  function DatabasesRun(reply: Oracle): Trace<Result<seq<Row>, Error>> {
    var q := Asked(reply, AllDbsSql());
    match q.value
    case Ok(resp) => Trace(Ok(resp.data), q.sent)
    case Err(e) => Trace(Err(e), q.sent)
  }

  /** The resource sends `SHOW DATABASES;` and nothing else; it fails exactly when the
      driver does, with the driver's message, and otherwise lists the rows the driver
      sent, or none when its reply carries no `data` field. */
  lemma DatabasesOutcome(reply: Oracle)
    ensures var run := DatabasesRun(reply);
            && run.sent == [AllDbsSql()]
            && (reply(AllDbsSql()).Err? ==> run.value == Err(DriverFailure(reply(AllDbsSql()).error)))
            && (reply(AllDbsSql()).Ok? ==> run.value == Ok(reply(AllDbsSql()).value.data.GetOr([])))
  {
  }

  method GetCurrentTaosDatabase(taos: TaosClient) returns (r: Result<seq<Row>, Error>)
    modifies taos.conn
    ensures var run := DatabasesRun(taos.conn.reply);
            r == run.value && taos.conn.received == old(taos.conn.received) + run.sent
  {
    var result := taos.Query(AllDbsSql());
    match result
    case Ok(resp) => r := Ok(resp.data);
    case Err(e) => r := Err(e);
  }

  // ---- taos://schemas ----

  /** The listing of super tables, in the current database. */
  function CurrentStablesSql(): (r: string)
    ensures WellFormed(r)
  {
    ShowStmt("STABLES;")
  }

  /** `DESCRIBE` of a super table named by a cell of that listing, in the current database. */
  function StableSchemaSql(stableName: Value): (r: string)
    ensures WellFormed(r)
  {
    DescribeStmt(Show(stableName) + ";")
  }

  /** The names of the columns, in the order of `column_meta`. */
  function ColumnNames(meta: seq<ColumnMeta>): seq<string> {
    seq(|meta|, i requires 0 <= i < |meta| => meta[i].name)
  }

  /** `dict(zip(names, row))` over the first `n` pairs: each pair in turn, so that a name
      that comes twice keeps its later value. */
  function ZipPrefix(names: seq<string>, row: Row, n: nat): map<string, Value>
    requires n <= |names| && n <= |row|
  {
    if n == 0 then map[] else ZipPrefix(names, row, n - 1)[names[n - 1] := row[n - 1]]
  }

  /** `dict(zip(names, row))`: `zip` stops at the shorter of the two. */
  function Zip(names: seq<string>, row: Row): map<string, Value> {
    ZipPrefix(names, row, if |names| <= |row| then |names| else |row|)
  }

  /** No later name among the first `n` repeats the one at `i`. */
  predicate LastOccurrence(names: seq<string>, i: nat, n: nat)
    requires i < n <= |names|
  {
    forall j :: i < j < n ==> names[j] != names[i]
  }

  lemma {:induction false} ZipPrefixKeys(names: seq<string>, row: Row, n: nat)
    requires n <= |names| && n <= |row|
    ensures forall k :: k in ZipPrefix(names, row, n) <==> exists i :: 0 <= i < n && names[i] == k
  {
    if n > 0 {
      ZipPrefixKeys(names, row, n - 1);
    }
  }

  lemma {:induction false} ZipPrefixValues(names: seq<string>, row: Row, n: nat)
    requires n <= |names| && n <= |row|
    ensures forall i :: 0 <= i < n ==> names[i] in ZipPrefix(names, row, n)
    ensures forall i :: 0 <= i < n && LastOccurrence(names, i, n) ==> ZipPrefix(names, row, n)[names[i]] == row[i]
  {
    ZipPrefixKeys(names, row, n);
    if n > 0 {
      ZipPrefixValues(names, row, n - 1);
      var m := ZipPrefix(names, row, n - 1);
      assert ZipPrefix(names, row, n) == m[names[n - 1] := row[n - 1]];
      forall i | 0 <= i < n - 1 && LastOccurrence(names, i, n)
        ensures ZipPrefix(names, row, n)[names[i]] == row[i]
      {
        assert names[n - 1] != names[i];
        assert LastOccurrence(names, i, n - 1);
        assert m[names[i]] == row[i];
      }
    }
  }

  /** A record of a row has the first `min(len(names), len(row))` names as its keys, and
      under each the value at that name's last position among them. */
  lemma ZipSpec(names: seq<string>, row: Row)
    ensures var n := if |names| <= |row| then |names| else |row|;
            && (forall k :: k in Zip(names, row) <==> exists i :: 0 <= i < n && names[i] == k)
            && (forall i :: 0 <= i < n && LastOccurrence(names, i, n) ==> Zip(names, row)[names[i]] == row[i])
  {
    var n := if |names| <= |row| then |names| else |row|;
    ZipPrefixKeys(names, row, n);
    ZipPrefixValues(names, row, n);
  }

  /** With distinct names and a row at least as long, the record maps each name to the
      cell in its column; extra cells are dropped. */
  lemma ZipDistinct(names: seq<string>, row: Row)
    requires |names| <= |row|
    requires forall i, j :: 0 <= i < j < |names| ==> names[i] != names[j]
    ensures Zip(names, row).Keys == set i | 0 <= i < |names| :: names[i]
    ensures forall i :: 0 <= i < |names| ==> Zip(names, row)[names[i]] == row[i]
  {
    ZipSpec(names, row);
  }

  /** The schema of one super table: a record per row of its `DESCRIBE`. */
  function TableSchemaOf(resp: Response): seq<map<string, Value>> {
    seq(|resp.data|, i requires 0 <= i < |resp.data| => Zip(ColumnNames(resp.columnMeta), resp.data[i]))
  }

  /** The inner loop: every row of `DESCRIBE` paired with the column names. */
  method RowsAsRecords(names: seq<string>, data: seq<Row>) returns (table: seq<map<string, Value>>)
    ensures |table| == |data|
    ensures forall i :: 0 <= i < |data| ==> table[i] == Zip(names, data[i])
  {
    table := [];
    for i := 0 to |data|
      invariant |table| == i
      invariant forall j :: 0 <= j < i ==> table[j] == Zip(names, data[j])
    {
      table := table + [Zip(names, data[i])];
    }
  }

  type Schema = map<Value, seq<map<string, Value>>>

  /** The outer loop over the rows of the listing, defined on a prefix so that it follows
      the loop: an empty row is skipped, every other one is described by its first cell,
      the first failing `DESCRIBE` ends the resource, and a name listed twice is described
      twice and keeps its later schema. */
  function SchemaScan(reply: Oracle, rows: seq<Row>): Trace<Result<Schema, Error>>
    decreases |rows|
  {
    if rows == [] then Trace(Ok(map[]), [])
    else
      var prev := SchemaScan(reply, rows[..|rows| - 1]);
      var row := rows[|rows| - 1];
      if prev.value.Err? || row == [] then prev
      else
        var q := Asked(reply, StableSchemaSql(row[0]));
        match q.value
        case Err(e) => Trace(Err(e), prev.sent + q.sent)
        case Ok(resp) => Trace(Ok(prev.value.value[row[0] := TableSchemaOf(resp)]), prev.sent + q.sent)
  }

  /** A row of the listing whose `DESCRIBE` fails. */
  predicate DescribeFails(reply: Oracle, row: Row) {
    row != [] && Answer(reply, StableSchemaSql(row[0])).Err?
  }

  /** The statements of a complete scan, front to back: one `DESCRIBE` per non-empty row. */
  function SchemaQueries(rows: seq<Row>): seq<string> {
    if rows == [] then []
    else (if rows[0] != [] then [StableSchemaSql(rows[0][0])] else []) + SchemaQueries(rows[1..])
  }

  lemma {:induction false} SchemaQueriesAppend(a: seq<Row>, b: seq<Row>)
    ensures SchemaQueries(a + b) == SchemaQueries(a) + SchemaQueries(b)
    decreases |a|
  {
    if a == [] {
      assert a + b == b;
    } else {
      assert (a + b)[0] == a[0];
      assert (a + b)[1..] == a[1..] + b;
      SchemaQueriesAppend(a[1..], b);
    }
  }

  /** One more row of the listing, after a scan that has not failed. */
  lemma SchemaScanStep(reply: Oracle, rows: seq<Row>, i: nat)
    requires i < |rows| && SchemaScan(reply, rows[..i]).value.Ok?
    ensures var prev, next := SchemaScan(reply, rows[..i]), SchemaScan(reply, rows[..i + 1]);
            && (rows[i] == [] ==> next == prev)
            && (rows[i] != [] ==>
                  var q := Answer(reply, StableSchemaSql(rows[i][0]));
                  && next.sent == prev.sent + [StableSchemaSql(rows[i][0])]
                  && (q.Err? ==> next.value == Err(q.error))
                  && (q.Ok? ==> next.value == Ok(prev.value.value[rows[i][0] := TableSchemaOf(q.value)])))
  {
    assert rows[..i + 1][..i] == rows[..i];
  }

  lemma {:induction false} SchemaScanStaysFailed(reply: Oracle, rows: seq<Row>, i: nat)
    requires i <= |rows|
    requires SchemaScan(reply, rows[..i]).value.Err?
    ensures SchemaScan(reply, rows) == SchemaScan(reply, rows[..i])
    decreases |rows| - i
  {
    if i == |rows| {
      assert rows[..i] == rows;
    } else {
      assert rows[..i + 1][..i] == rows[..i];
      SchemaScanStaysFailed(reply, rows, i + 1);
    }
  }

  /** The scan fails exactly when the `DESCRIBE` of some non-empty row fails, and then
      with that failure's error. */
  lemma {:induction false} SchemaScanOutcome(reply: Oracle, rows: seq<Row>)
    ensures var scan := SchemaScan(reply, rows);
            && (scan.value.Err? <==> exists i :: 0 <= i < |rows| && DescribeFails(reply, rows[i]))
            && (scan.value.Err? ==> exists i :: 0 <= i < |rows| && DescribeFails(reply, rows[i]) &&
                                      scan.value.error == Answer(reply, StableSchemaSql(rows[i][0])).error)
    decreases |rows|
  {
    if rows != [] {
      var init := rows[..|rows| - 1];
      var row := rows[|rows| - 1];
      SchemaScanOutcome(reply, init);
      if SchemaScan(reply, init).value.Err? {
        var i :| 0 <= i < |init| && DescribeFails(reply, init[i]) &&
                 SchemaScan(reply, init).value.error == Answer(reply, StableSchemaSql(init[i][0])).error;
        assert rows[i] == init[i];
      } else {
        forall i | 0 <= i < |init|
          ensures !DescribeFails(reply, rows[i])
        {
          assert rows[i] == init[i];
        }
      }
    }
  }

  /** A complete scan has sent one `DESCRIBE` per non-empty row, in row order. */
  lemma {:induction false} SchemaScanSent(reply: Oracle, rows: seq<Row>)
    requires SchemaScan(reply, rows).value.Ok?
    ensures SchemaScan(reply, rows).sent == SchemaQueries(rows)
    decreases |rows|
  {
    if rows != [] {
      var init := rows[..|rows| - 1];
      var row := rows[|rows| - 1];
      assert rows == init + [row];
      SchemaScanSent(reply, init);
      SchemaQueriesAppend(init, [row]);
      var none: seq<Row> := [];
      assert [row][1..] == none;
    }
  }

  /** A complete schema has an entry for the first cell of every non-empty row and for
      nothing else. */
  lemma {:induction false} SchemaScanKeys(reply: Oracle, rows: seq<Row>)
    requires SchemaScan(reply, rows).value.Ok?
    ensures forall k :: k in SchemaScan(reply, rows).value.value <==>
              exists i :: 0 <= i < |rows| && rows[i] != [] && rows[i][0] == k
    decreases |rows|
  {
    if rows != [] {
      var init := rows[..|rows| - 1];
      var row := rows[|rows| - 1];
      SchemaScanKeys(reply, init);
      var prev := SchemaScan(reply, init).value.value;
      var m := SchemaScan(reply, rows).value.value;
      forall k
        ensures k in m <==> exists i :: 0 <= i < |rows| && rows[i] != [] && rows[i][0] == k
      {
        if k in m && (row == [] || k != row[0]) {
          assert k in prev;
          var i :| 0 <= i < |init| && init[i] != [] && init[i][0] == k;
          assert rows[i] == init[i];
        }
        if exists i :: 0 <= i < |rows| && rows[i] != [] && rows[i][0] == k {
          var i :| 0 <= i < |rows| && rows[i] != [] && rows[i][0] == k;
          if i < |init| {
            assert init[i] == rows[i];
          }
        }
      }
    }
  }

  /** Each entry of a complete schema is the table built from its own `DESCRIBE`, which
      succeeded. */
  lemma {:induction false} SchemaScanValues(reply: Oracle, rows: seq<Row>)
    requires SchemaScan(reply, rows).value.Ok?
    ensures var m := SchemaScan(reply, rows).value.value;
            forall k :: k in m ==> Answer(reply, StableSchemaSql(k)).Ok? &&
                                   m[k] == TableSchemaOf(Answer(reply, StableSchemaSql(k)).value)
    decreases |rows|
  {
    if rows != [] {
      SchemaScanValues(reply, rows[..|rows| - 1]);
    }
  }

  /** `get_current_db_all_taos_schema`: the listing, then the scan of its rows. */
  function SchemaRun(reply: Oracle): Trace<Result<Schema, Error>> {
    var stables := Asked(reply, CurrentStablesSql());
    match stables.value
    case Err(e) => Trace(Err(e), stables.sent)
    case Ok(resp) =>
      var scan := SchemaScan(reply, resp.data);
      Trace(scan.value, stables.sent + scan.sent)
  }

  /** The resource fails exactly when the listing or the `DESCRIBE` of one of its
      non-empty rows fails. Otherwise it has sent the listing and one `DESCRIBE` per
      non-empty row, and holds one entry per super table listed. */
  lemma SchemaOutcome(reply: Oracle)
    ensures var run := SchemaRun(reply);
            var listing := Answer(reply, CurrentStablesSql());
            && run.sent != [] && run.sent[0] == CurrentStablesSql()
            && (run.value.Err? <==>
                  listing.Err? || exists i :: 0 <= i < |listing.value.data| && DescribeFails(reply, listing.value.data[i]))
            && (run.value.Ok? ==>
                  && run.sent == [CurrentStablesSql()] + SchemaQueries(listing.value.data)
                  && forall k :: k in run.value.value <==>
                       exists i :: 0 <= i < |listing.value.data| && listing.value.data[i] != [] && listing.value.data[i][0] == k)
  {
    var listing := Answer(reply, CurrentStablesSql());
    if listing.Ok? {
      SchemaScanOutcome(reply, listing.value.data);
      if SchemaRun(reply).value.Ok? {
        SchemaScanSent(reply, listing.value.data);
        SchemaScanKeys(reply, listing.value.data);
      }
    }
  }

  /** The loop over the listing. */
  method ScanSchemas(taos: TaosClient, rows: seq<Row>) returns (r: Result<Schema, Error>)
    modifies taos.conn
    ensures var scan := SchemaScan(taos.conn.reply, rows);
            r == scan.value && taos.conn.received == old(taos.conn.received) + scan.sent
  {
    var reply := taos.conn.reply;
    var schema: Schema := map[];
    var i := 0;
    while i < |rows|
      invariant 0 <= i <= |rows|
      invariant SchemaScan(reply, rows[..i]).value == Ok(schema)
      invariant taos.conn.received == old(taos.conn.received) + SchemaScan(reply, rows[..i]).sent
    {
      SchemaScanStep(reply, rows, i);
      var stable := rows[i];
      if stable != [] {
        var stableName := stable[0];
        var column := taos.Query(StableSchemaSql(stableName));
        if column.Err? {
          SchemaScanStaysFailed(reply, rows, i + 1);
          return Err(column.error);
        }
        var names := ColumnNames(column.value.columnMeta);
        var tableSchema := RowsAsRecords(names, column.value.data);
        assert tableSchema == TableSchemaOf(column.value);
        schema := schema[stableName := tableSchema];
      }
      i := i + 1;
    }
    assert rows[..i] == rows;
    r := Ok(schema);
  }

  method GetCurrentDbAllTaosSchema(taos: TaosClient) returns (r: Result<Schema, Error>)
    modifies taos.conn
    ensures var run := SchemaRun(taos.conn.reply);
            r == run.value && taos.conn.received == old(taos.conn.received) + run.sent
  {
    var stables := taos.Query(CurrentStablesSql());
    if stables.Err? {
      return Err(stables.error);
    }
    ghost var scanT := SchemaScan(taos.conn.reply, stables.value.data);
    Regroup(old(taos.conn.received), [CurrentStablesSql()], scanT.sent, [], []);
    r := ScanSchemas(taos, stables.value.data);
  }
}
