/**
 * The tools of `register_tools` (server.py). Each tool is a method over the client; the
 * multi-statement tools are also given as a specification function returning a `Trace`
 * (the tool's result and the statements it sent, in order), which the composite tools
 * and the lemmas below build on.
 */
module Tools {
  import opened Wrappers
  import opened Guard
  import opened Client
  import opened Queries

  /** `result["data"][0][0] if result["data"] else 0`: zero for no rows, and the
      `IndexError` of an empty first row. */
  function FirstCell(data: seq<Row>): Result<Value, Error> {
    if data == [] then Ok(VInt(0))
    else if data[0] == [] then Err(IndexOutOfRange)
    else Ok(data[0][0])
  }

  // ---- test_table_exists ----

  /** `{stable_name: bool(result)}` as written: `result` is the five-key response
      dictionary, which is always truthy, so any answer of the driver reads as "exists". */
  function TableExistsAsWritten(stableName: string, result: Result<Response, Error>): Result<map<string, bool>, Error> {
    match result
    case Err(e) => Err(e)
    case Ok(_) => Ok(map[stableName := true])
  }

  /** The evidently intended answer: the stable exists when `SHOW STABLES LIKE` returned a
      row for it. */
  function TableExists(stableName: string, result: Result<Response, Error>): (r: Result<map<string, bool>, Error>)
    ensures result.Err? ==> r == Err(result.error)
    ensures result.Ok? ==> r.Ok? && r.value.Keys == {stableName}
                           && (r.value[stableName] <==> result.value.data != [])
  {
    match result
    case Err(e) => Err(e)
    case Ok(resp) => Ok(map[stableName := resp.data != []])
  }

  /** As written, a stable that the driver reports absent (no rows) is still reported to
      exist; the corrected answer says it does not. */
  lemma TableExistsAsWrittenAlwaysTrue(stableName: string, resp: Response)
    ensures TableExistsAsWritten(stableName, Ok(resp)) == Ok(map[stableName := true])
    ensures resp.data == [] ==> TableExists(stableName, Ok(resp)) == Ok(map[stableName := false])
  {
  }

  method TestTableExists(taos: TaosClient, stableName: string) returns (r: Result<map<string, bool>, Error>)
    modifies taos.conn
    ensures r == TableExists(stableName, Answer(taos.conn.reply, TableExistsSql(stableName)))
    ensures taos.conn.received == old(taos.conn.received) + [TableExistsSql(stableName)]
  {
    var query := TableExistsSql(stableName);
    var result := taos.Query(query);
    r := TableExists(stableName, result);
  }

  // ---- single-statement tools ----

  method GetAllDbs(taos: TaosClient) returns (r: Result<Response, Error>)
    modifies taos.conn
    ensures r == Answer(taos.conn.reply, AllDbsSql())
    ensures taos.conn.received == old(taos.conn.received) + [AllDbsSql()]
  {
    r := taos.Query(AllDbsSql());
  }

  method GetAllStables(taos: TaosClient, dbName: Option<string>) returns (r: Result<Response, Error>)
    modifies taos.conn
    ensures var sql := AllStablesSql(ResolveDb(taos.database, dbName));
            r == Answer(taos.conn.reply, sql) && taos.conn.received == old(taos.conn.received) + [sql]
  {
    var sql := AllStablesSql(ResolveDb(taos.database, dbName));
    r := taos.Query(sql);
  }

  /** `switch_db` takes its database verbatim: it has no default. */
  method SwitchDb(taos: TaosClient, dbName: string) returns (r: Result<Response, Error>)
    modifies taos.conn
    ensures r == Answer(taos.conn.reply, UseDbSql(dbName))
    ensures taos.conn.received == old(taos.conn.received) + [UseDbSql(dbName)]
  {
    r := taos.Query(UseDbSql(dbName));
  }

  method GetFieldInfos(taos: TaosClient, dbName: Option<string>, stableName: string) returns (r: Result<Response, Error>)
    modifies taos.conn
    ensures var sql := FieldInfosSql(ResolveDb(taos.database, dbName), stableName);
            r == Answer(taos.conn.reply, sql) && taos.conn.received == old(taos.conn.received) + [sql]
  {
    var sql := FieldInfosSql(ResolveDb(taos.database, dbName), stableName);
    r := taos.Query(sql);
  }

  /** The free-form query tool: the one statement that can be refused by the guard. */
  method QueryTaosDbData(taos: TaosClient, sqlStmt: string) returns (r: Result<Response, Error>)
    modifies taos.conn
    ensures r == Execute(taos.conn.reply, sqlStmt)
    ensures taos.conn.received == old(taos.conn.received) + Reaching(sqlStmt)
  {
    r := taos.ExecuteSql(sqlStmt);
  }

  method GetAllTables(taos: TaosClient, dbName: Option<string>, stableName: Option<string>) returns (r: Result<Response, Error>)
    modifies taos.conn
    ensures var sql := AllTablesSql(ResolveDb(taos.database, dbName), stableName);
            r == Answer(taos.conn.reply, sql) && taos.conn.received == old(taos.conn.received) + [sql]
  {
    var sql := AllTablesSql(ResolveDb(taos.database, dbName), stableName);
    r := taos.Query(sql);
  }

  method GetTagInfos(taos: TaosClient, dbName: Option<string>, stableName: string) returns (r: Result<Response, Error>)
    modifies taos.conn
    ensures var sql := TagInfosSql(ResolveDb(taos.database, dbName), stableName);
            r == Answer(taos.conn.reply, sql) && taos.conn.received == old(taos.conn.received) + [sql]
  {
    var sql := TagInfosSql(ResolveDb(taos.database, dbName), stableName);
    r := taos.Query(sql);
  }

  method GetTableStats(taos: TaosClient, dbName: Option<string>, stableName: Option<string>, tableName: Option<string>)
    returns (r: Result<Response, Error>)
    modifies taos.conn
    ensures var sql := TableStatsSql(ResolveDb(taos.database, dbName), stableName, tableName);
            r == Answer(taos.conn.reply, sql) && taos.conn.received == old(taos.conn.received) + [sql]
  {
    var sql := TableStatsSql(ResolveDb(taos.database, dbName), stableName, tableName);
    r := taos.Query(sql);
  }

  method GetTagValues(taos: TaosClient, dbName: Option<string>, stableName: string, tagName: string, limit: Option<int>)
    returns (r: Result<Response, Error>)
    modifies taos.conn
    ensures var sql := TagValuesSql(ResolveDb(taos.database, dbName), stableName, tagName, limit);
            r == Answer(taos.conn.reply, sql) && taos.conn.received == old(taos.conn.received) + [sql]
  {
    var db := ResolveDb(taos.database, dbName);
    var sql := TagValuesSql(db, stableName, tagName, limit);
    r := taos.Query(sql);
  }

  method GetDbInfo(taos: TaosClient, dbName: Option<string>) returns (r: Result<Response, Error>)
    modifies taos.conn
    ensures var sql := DbInfoSql(ResolveDb(taos.database, dbName));
            r == Answer(taos.conn.reply, sql) && taos.conn.received == old(taos.conn.received) + [sql]
  {
    var sql := DbInfoSql(ResolveDb(taos.database, dbName));
    r := taos.Query(sql);
  }

  // ---- tools that need a target ----

  /** A tool that resolves its target first: a missing target raises before anything is
      sent; otherwise the one statement built over the target is executed. */
  function LatestDataRun(configured: string, reply: Oracle, dbName: Option<string>,
                         stableName: Option<string>, tableName: Option<string>, limit: int): Trace<Result<Response, Error>>
  {
    match Target(ResolveDb(configured, dbName), stableName, tableName)
    case Err(e) => Trace(Err(e), [])
    case Ok(target) => Asked(reply, LatestDataSql(target, limit))
  }

  function TimeRangeRun(configured: string, reply: Oracle, dbName: Option<string>,
                        stableName: Option<string>, tableName: Option<string>,
                        startTime: string, endTime: string, limit: Option<int>): Trace<Result<Response, Error>>
  {
    match Target(ResolveDb(configured, dbName), stableName, tableName)
    case Err(e) => Trace(Err(e), [])
    case Ok(target) => Asked(reply, TimeRangeSql(target, startTime, endTime, limit))
  }

  function AggregateRun(configured: string, reply: Oracle, dbName: Option<string>,
                        stableName: Option<string>, tableName: Option<string>,
                        aggFunction: string, columnName: string, interval: Option<string>,
                        groupByTags: Option<seq<string>>, startTime: Option<string>, endTime: Option<string>)
    : Trace<Result<Response, Error>>
  {
    match Target(ResolveDb(configured, dbName), stableName, tableName)
    case Err(e) => Trace(Err(e), [])
    case Ok(target) => Asked(reply, AggregateSql(target, aggFunction, columnName, interval, groupByTags, startTime, endTime))
  }

  /** Without a table or a stable, the three target tools fail with `ValueError` and the
      driver is never called; with one, exactly one statement reaches it. */
  lemma TargetToolsSendNothingWithoutTarget(configured: string, reply: Oracle, dbName: Option<string>,
                                            stableName: Option<string>, tableName: Option<string>,
                                            limit: int, startTime: string, endTime: string, rangeLimit: Option<int>,
                                            aggFunction: string, columnName: string, interval: Option<string>,
                                            groupByTags: Option<seq<string>>, aggStart: Option<string>, aggEnd: Option<string>)
    ensures var latest := LatestDataRun(configured, reply, dbName, stableName, tableName, limit);
            var range := TimeRangeRun(configured, reply, dbName, stableName, tableName, startTime, endTime, rangeLimit);
            var agg := AggregateRun(configured, reply, dbName, stableName, tableName, aggFunction, columnName,
                                    interval, groupByTags, aggStart, aggEnd);
            && (!Given(stableName) && !Given(tableName) ==>
                  latest == range == agg == Trace(Err(MissingTarget), []))
            && (Given(stableName) || Given(tableName) ==>
                  |latest.sent| == 1 && |range.sent| == 1 && |agg.sent| == 1)
  {
    match Target(ResolveDb(configured, dbName), stableName, tableName)
    case Err(e) =>
    case Ok(target) =>
  }

  method GetLatestData(taos: TaosClient, dbName: Option<string>, stableName: Option<string>, tableName: Option<string>, limit: int)
    returns (r: Result<Response, Error>)
    modifies taos.conn
    ensures var run := LatestDataRun(taos.database, taos.conn.reply, dbName, stableName, tableName, limit);
            r == run.value && taos.conn.received == old(taos.conn.received) + run.sent
  {
    var db := ResolveDb(taos.database, dbName);
    var target := Target(db, stableName, tableName);
    if target.Err? {
      return Err(target.error);
    }
    var sql := LatestDataSql(target.value, limit);
    r := taos.Query(sql);
  }

  method GetDataByTimeRange(taos: TaosClient, dbName: Option<string>, stableName: Option<string>, tableName: Option<string>,
                            startTime: string, endTime: string, limit: Option<int>)
    returns (r: Result<Response, Error>)
    modifies taos.conn
    ensures var run := TimeRangeRun(taos.database, taos.conn.reply, dbName, stableName, tableName, startTime, endTime, limit);
            r == run.value && taos.conn.received == old(taos.conn.received) + run.sent
  {
    var db := ResolveDb(taos.database, dbName);
    var target := Target(db, stableName, tableName);
    if target.Err? {
      return Err(target.error);
    }
    var sql := TimeRangeSql(target.value, startTime, endTime, limit);
    r := taos.Query(sql);
  }

  method AggregateQuery(taos: TaosClient, dbName: Option<string>, stableName: Option<string>, tableName: Option<string>,
                        aggFunction: string, columnName: string, interval: Option<string>,
                        groupByTags: Option<seq<string>>, startTime: Option<string>, endTime: Option<string>)
    returns (r: Result<Response, Error>)
    modifies taos.conn
    ensures var run := AggregateRun(taos.database, taos.conn.reply, dbName, stableName, tableName,
                                    aggFunction, columnName, interval, groupByTags, startTime, endTime);
            r == run.value && taos.conn.received == old(taos.conn.received) + run.sent
  {
    var db := ResolveDb(taos.database, dbName);
    var target := Target(db, stableName, tableName);
    if target.Err? {
      return Err(target.error);
    }
    var sql := BuildAggregateSql(target.value, aggFunction, columnName, interval, groupByTags, startTime, endTime);
    r := taos.Query(sql);
  }

  // ---- check_data_integrity ----

  /** A null count, or the marker left when its query or its first cell failed. */
  datatype NullCount = Count(cell: Value) | UnableToCheck

  /** The integrity report; each optional part is present exactly when it was asked for. */
  datatype IntegrityReport = IntegrityReport(
    totalRows: Value,
    nullCounts: Option<map<Value, NullCount>>,
    duplicateTimestamps: Option<Result<seq<Row>, string>>)

  const DuplicatesErrorPrefix: string := "Error checking duplicates: "

  function TotalRowsSql(db: string, stableName: string): (r: string)
    ensures WellFormed(r)
  {
    SelectStmt("COUNT(*) as total_rows FROM " + db + "." + stableName + ";")
  }

  function NullCountSql(db: string, stableName: string, column: string): (r: string)
    ensures WellFormed(r)
  {
    SelectStmt("COUNT(*) as null_count FROM " + db + "." + stableName + " WHERE " + column + " IS NULL;")
  }

  function DuplicatesSql(db: string, stableName: string): (r: string)
    ensures WellFormed(r)
  {
    SelectStmt("ts, COUNT(*) as dup_count FROM " + db + "." + stableName + " GROUP BY ts HAVING COUNT(*) > 1 LIMIT 10;")
  }

  /** The guarded part of one column's check: a failed query or an empty first row are
      both caught. */
  function NullCountOf(result: Result<Response, Error>): NullCount {
    match result
    case Err(_) => UnableToCheck
    case Ok(resp) =>
      match FirstCell(resp.data)
      case Ok(v) => Count(v)
      case Err(_) => UnableToCheck
  }

  /** The NULL scan over the rows of `DESCRIBE`, defined on a prefix so that it follows
      the loop: the `ts` column is skipped, every other column gets its own query, and an
      empty row raises `IndexError` (outside the guarded part), which ends the scan. */
  function NullScan(reply: Oracle, db: string, stableName: string, rows: seq<Row>): Trace<Result<map<Value, NullCount>, Error>>
    decreases |rows|
  {
    if rows == [] then Trace(Ok(map[]), [])
    else
      var prev := NullScan(reply, db, stableName, rows[..|rows| - 1]);
      var row := rows[|rows| - 1];
      if prev.value.Err? then prev
      else if row == [] then Trace(Err(IndexOutOfRange), prev.sent)
      else if row[0] == VStr("ts") then prev
      else
        var q := Asked(reply, NullCountSql(db, stableName, Show(row[0])));
        Trace(Ok(prev.value.value[row[0] := NullCountOf(q.value)]), prev.sent + q.sent)
  }

  predicate NoEmptyRow(rows: seq<Row>) {
    forall i :: 0 <= i < |rows| ==> rows[i] != []
  }

  /** The statements of a complete scan, defined independently, front to back: one per
      column other than `ts`, in row order. */
  function NullQueries(db: string, stableName: string, rows: seq<Row>): seq<string> {
    if rows == [] then [] else NullQueryOf(db, stableName, rows[0]) + NullQueries(db, stableName, rows[1..])
  }

  /** The statement a row of `DESCRIBE` contributes to a complete scan. */
  function NullQueryOf(db: string, stableName: string, row: Row): seq<string> {
    if row != [] && row[0] != VStr("ts") then [NullCountSql(db, stableName, Show(row[0]))] else []
  }

  lemma {:induction false} NullQueriesAppend(db: string, stableName: string, a: seq<Row>, b: seq<Row>)
    ensures NullQueries(db, stableName, a + b) == NullQueries(db, stableName, a) + NullQueries(db, stableName, b)
    decreases |a|
  {
    if a == [] {
      assert a + b == b;
    } else {
      assert (a + b)[0] == a[0];
      assert (a + b)[1..] == a[1..] + b;
      NullQueriesAppend(db, stableName, a[1..], b);
    }
  }

  /** Once the scan has failed it stays failed and sends nothing more. */
  lemma {:induction false} NullScanStaysFailed(reply: Oracle, db: string, stableName: string, rows: seq<Row>, i: nat)
    requires i <= |rows|
    requires NullScan(reply, db, stableName, rows[..i]).value.Err?
    ensures NullScan(reply, db, stableName, rows) == NullScan(reply, db, stableName, rows[..i])
    decreases |rows| - i
  {
    if i == |rows| {
      assert rows[..i] == rows;
    } else {
      assert rows[..i + 1][..i] == rows[..i];
      NullScanStaysFailed(reply, db, stableName, rows, i + 1);
    }
  }

  /** A scan succeeds exactly when no row of `DESCRIBE` is empty, and otherwise fails
      with `IndexError`. */
  lemma {:induction false} NullScanOutcome(reply: Oracle, db: string, stableName: string, rows: seq<Row>)
    ensures var scan := NullScan(reply, db, stableName, rows);
            && (scan.value.Ok? <==> NoEmptyRow(rows))
            && (scan.value.Err? ==> scan.value.error == IndexOutOfRange)
    decreases |rows|
  {
    if rows != [] {
      var init := rows[..|rows| - 1];
      NullScanOutcome(reply, db, stableName, init);
      if NullScan(reply, db, stableName, init).value.Ok? {
        assert NoEmptyRow(init);
        assert rows == init + [rows[|rows| - 1]];
      } else {
        var i :| 0 <= i < |init| && init[i] == [];
        assert rows[i] == [];
      }
    }
  }

  /** A complete scan has sent exactly the statements of `NullQueries`: one per column
      other than `ts`, in row order. */
  lemma {:induction false} NullScanSent(reply: Oracle, db: string, stableName: string, rows: seq<Row>)
    requires NoEmptyRow(rows)
    ensures NullScan(reply, db, stableName, rows).sent == NullQueries(db, stableName, rows)
    decreases |rows|
  {
    if rows != [] {
      var init := rows[..|rows| - 1];
      var row := rows[|rows| - 1];
      assert rows == init + [row];
      assert NoEmptyRow(init);
      NullScanOutcome(reply, db, stableName, init);
      NullScanSent(reply, db, stableName, init);
      NullQueriesAppend(db, stableName, init, [row]);
      var none: seq<Row> := [];
      assert [row][1..] == none;
    }
  }

  /** A complete scan has one entry per column other than `ts`. */
  lemma {:induction false} NullScanKeys(reply: Oracle, db: string, stableName: string, rows: seq<Row>)
    requires NoEmptyRow(rows)
    ensures NullScan(reply, db, stableName, rows).value.Ok?
    ensures forall k :: k in NullScan(reply, db, stableName, rows).value.value <==>
              k != VStr("ts") && exists i :: 0 <= i < |rows| && rows[i] != [] && rows[i][0] == k
    decreases |rows|
  {
    NullScanOutcome(reply, db, stableName, rows);
    if rows != [] {
      var init := rows[..|rows| - 1];
      var row := rows[|rows| - 1];
      assert NoEmptyRow(init);
      NullScanKeys(reply, db, stableName, init);
      var prev := NullScan(reply, db, stableName, init).value.value;
      var m := NullScan(reply, db, stableName, rows).value.value;
      forall k
        ensures k in m <==> k != VStr("ts") && exists i :: 0 <= i < |rows| && rows[i] != [] && rows[i][0] == k
      {
        if k in m && k != row[0] {
          assert k in prev;
          var i :| 0 <= i < |init| && init[i] != [] && init[i][0] == k;
          assert rows[i] == init[i];
        }
        if k != VStr("ts") && (exists i :: 0 <= i < |rows| && rows[i] != [] && rows[i][0] == k) {
          var i :| 0 <= i < |rows| && rows[i] != [] && rows[i][0] == k;
          if i < |init| {
            assert init[i] == rows[i];
          }
        }
      }
    }
  }

  /** Each entry of a complete scan is what its column's own query yields: the count, or
      the "Unable to check" marker when that query failed. */
  lemma {:induction false} NullScanValues(reply: Oracle, db: string, stableName: string, rows: seq<Row>)
    requires NullScan(reply, db, stableName, rows).value.Ok?
    ensures var m := NullScan(reply, db, stableName, rows).value.value;
            forall k :: k in m ==> m[k] == NullCountOf(Answer(reply, NullCountSql(db, stableName, Show(k))))
    decreases |rows|
  {
    if rows != [] {
      var init := rows[..|rows| - 1];
      NullScanValues(reply, db, stableName, init);
    }
  }

  /** `check_nulls`: describe the stable, then scan its columns. */
  function NullsStep(reply: Oracle, db: string, stableName: string, checkNulls: bool)
    : Trace<Result<Option<map<Value, NullCount>>, Error>>
  {
    if !checkNulls then Trace(Ok(None), [])
    else
      var d := Asked(reply, FieldInfosSql(db, stableName));
      if d.value.Err? then Trace(Err(d.value.error), d.sent)
      else
        var scan := NullScan(reply, db, stableName, d.value.value.data);
        match scan.value
        case Err(e) => Trace(Err(e), d.sent + scan.sent)
        case Ok(m) => Trace(Ok(Some(m)), d.sent + scan.sent)
  }

  /** `check_duplicates`: its failure is caught and reported as text. */
  function DuplicatesStep(reply: Oracle, db: string, stableName: string, checkDuplicates: bool)
    : Trace<Option<Result<seq<Row>, string>>>
  {
    if !checkDuplicates then Trace(None, [])
    else
      var q := Asked(reply, DuplicatesSql(db, stableName));
      match q.value
      case Ok(resp) => Trace(Some(Ok(resp.data)), q.sent)
      case Err(e) => Trace(Some(Err(DuplicatesErrorPrefix + ErrorText(e))), q.sent)
  }

  /** `check_data_integrity`: the total, then the optional NULL scan, then the optional
      duplicate check. */
  function IntegrityRun(configured: string, reply: Oracle, dbName: Option<string>, stableName: string,
                        checkNulls: bool, checkDuplicates: bool): Trace<Result<IntegrityReport, Error>>
  {
    var db := ResolveDb(configured, dbName);
    var total := Asked(reply, TotalRowsSql(db, stableName));
    if total.value.Err? then Trace(Err(total.value.error), total.sent)
    else
      match FirstCell(total.value.value.data)
      case Err(e) => Trace(Err(e), total.sent)
      case Ok(totalRows) =>
        var nulls := NullsStep(reply, db, stableName, checkNulls);
        if nulls.value.Err? then Trace(Err(nulls.value.error), total.sent + nulls.sent)
        else
          var dups := DuplicatesStep(reply, db, stableName, checkDuplicates);
          Trace(Ok(IntegrityReport(totalRows, nulls.value.value, dups.value)), total.sent + nulls.sent + dups.sent)
  }

  /** When the integrity check fails, and what a successful report holds: it fails exactly
      when the total query fails or its first row is empty, or (with `check_nulls`) when
      `DESCRIBE` fails or returns an empty row; a failing duplicate query never fails it.
      A report has a NULL section exactly when NULLs were to be checked and a duplicate
      section exactly when duplicates were. Its total is the first cell of the total's
      answer, or zero for an empty answer; its NULL section is the scan of the `DESCRIBE`
      rows; its duplicate section holds the duplicate query's rows, or its error text after
      the fixed prefix. */
  lemma IntegrityOutcome(configured: string, reply: Oracle, dbName: Option<string>, stableName: string,
                         checkNulls: bool, checkDuplicates: bool)
    ensures var db := ResolveDb(configured, dbName);
            var run := IntegrityRun(configured, reply, dbName, stableName, checkNulls, checkDuplicates);
            var total := Answer(reply, TotalRowsSql(db, stableName));
            var describe := Answer(reply, FieldInfosSql(db, stableName));
            && (run.value.Err? <==>
                  || total.Err?
                  || FirstCell(total.value.data).Err?
                  || (checkNulls && (describe.Err? || !NoEmptyRow(describe.value.data))))
            && (run.value.Ok? ==>
                  && (run.value.value.nullCounts.Some? <==> checkNulls)
                  && (run.value.value.duplicateTimestamps.Some? <==> checkDuplicates)
                  && (total.value.data == [] ==> run.value.value.totalRows == VInt(0)))
            && (run.value.Ok? ==>
                  && total.Ok?
                  && (total.value.data != [] ==>
                        total.value.data[0] != [] && run.value.value.totalRows == total.value.data[0][0]))
            && (run.value.Ok? && checkNulls ==>
                  && describe.Ok?
                  && NullScan(reply, db, stableName, describe.value.data).value.Ok?
                  && run.value.value.nullCounts == Some(NullScan(reply, db, stableName, describe.value.data).value.value))
            && (run.value.Ok? && checkDuplicates ==>
                  var dups := Answer(reply, DuplicatesSql(db, stableName));
                  && (dups.Ok? ==> run.value.value.duplicateTimestamps == Some(Ok(dups.value.data)))
                  && (dups.Err? ==>
                        run.value.value.duplicateTimestamps == Some(Err(DuplicatesErrorPrefix + ErrorText(dups.error)))))
  {
    var db := ResolveDb(configured, dbName);
    var describe := Answer(reply, FieldInfosSql(db, stableName));
    if checkNulls && describe.Ok? {
      NullScanOutcome(reply, db, stableName, describe.value.data);
    }
  }

  /** The NULL scan loop of `check_data_integrity` over the rows of `DESCRIBE`. */
  method ScanNulls(taos: TaosClient, db: string, stableName: string, rows: seq<Row>)
    returns (r: Result<map<Value, NullCount>, Error>)
    modifies taos.conn
    ensures var scan := NullScan(taos.conn.reply, db, stableName, rows);
            r == scan.value && taos.conn.received == old(taos.conn.received) + scan.sent
  {
    var reply := taos.conn.reply;
    var counts: map<Value, NullCount> := map[];
    var i := 0;
    while i < |rows|
      invariant 0 <= i <= |rows|
      invariant NullScan(reply, db, stableName, rows[..i]).value == Ok(counts)
      invariant taos.conn.received == old(taos.conn.received) + NullScan(reply, db, stableName, rows[..i]).sent
    {
      assert rows[..i + 1][..i] == rows[..i];
      var row := rows[i];
      if row == [] {
        NullScanStaysFailed(reply, db, stableName, rows, i + 1);
        return Err(IndexOutOfRange);
      }
      var colName := row[0];
      if colName != VStr("ts") {
        var nullResult := taos.Query(NullCountSql(db, stableName, Show(colName)));
        counts := counts[colName := NullCountOf(nullResult)];
      }
      i := i + 1;
    }
    assert rows[..i] == rows;
    r := Ok(counts);
  }

  /** The `check_nulls` step. */
  method CheckNulls(taos: TaosClient, db: string, stableName: string, checkNulls: bool)
    returns (r: Result<Option<map<Value, NullCount>>, Error>)
    modifies taos.conn
    ensures var step := NullsStep(taos.conn.reply, db, stableName, checkNulls);
            r == step.value && taos.conn.received == old(taos.conn.received) + step.sent
  {
    if !checkNulls {
      return Ok(None);
    }
    var describeResult := taos.Query(FieldInfosSql(db, stableName));
    if describeResult.Err? {
      return Err(describeResult.error);
    }
    ghost var scanT := NullScan(taos.conn.reply, db, stableName, describeResult.value.data);
    Regroup(old(taos.conn.received), [FieldInfosSql(db, stableName)], scanT.sent, [], []);
    var counts := ScanNulls(taos, db, stableName, describeResult.value.data);
    match counts
    case Err(e) => r := Err(e);
    case Ok(m) => r := Ok(Some(m));
  }

  /** The `check_duplicates` step. */
  method CheckDuplicates(taos: TaosClient, db: string, stableName: string, checkDuplicates: bool)
    returns (r: Option<Result<seq<Row>, string>>)
    modifies taos.conn
    ensures var step := DuplicatesStep(taos.conn.reply, db, stableName, checkDuplicates);
            r == step.value && taos.conn.received == old(taos.conn.received) + step.sent
  {
    if !checkDuplicates {
      return None;
    }
    var dupResult := taos.Query(DuplicatesSql(db, stableName));
    match dupResult
    case Ok(resp) => r := Some(Ok(resp.data));
    case Err(e) => r := Some(Err(DuplicatesErrorPrefix + ErrorText(e)));
  }

  method CheckDataIntegrity(taos: TaosClient, dbName: Option<string>, stableName: string, checkNulls: bool, checkDuplicates: bool)
    returns (r: Result<IntegrityReport, Error>)
    modifies taos.conn
    ensures var run := IntegrityRun(taos.database, taos.conn.reply, dbName, stableName, checkNulls, checkDuplicates);
            r == run.value && taos.conn.received == old(taos.conn.received) + run.sent
  {
    var db := ResolveDb(taos.database, dbName);
    ghost var reply, start := taos.conn.reply, taos.conn.received;
    ghost var totalT := Asked(reply, TotalRowsSql(db, stableName));
    ghost var nullsT := NullsStep(reply, db, stableName, checkNulls);
    ghost var dupsT := DuplicatesStep(reply, db, stableName, checkDuplicates);
    Regroup(start, totalT.sent, nullsT.sent, dupsT.sent, []);
    var totalResult := taos.Query(TotalRowsSql(db, stableName));
    if totalResult.Err? {
      return Err(totalResult.error);
    }
    var totalRows := FirstCell(totalResult.value.data);
    if totalRows.Err? {
      return Err(totalRows.error);
    }
    var nullCounts := CheckNulls(taos, db, stableName, checkNulls);
    if nullCounts.Err? {
      return Err(nullCounts.error);
    }
    var duplicateTimestamps := CheckDuplicates(taos, db, stableName, checkDuplicates);
    r := Ok(IntegrityReport(totalRows.value, nullCounts.value, duplicateTimestamps));
  }

  // ---- analyze_performance ----

  /** The performance report: per stable, or a per-database summary. */
  datatype PerformanceReport =
    | StableReport(timeRange: Row, totalRecords: Value, tableCount: Value)
    | DatabaseReport(stablesSummary: seq<Row>)

  function TimeBoundsSql(db: string, stableName: string): (r: string)
    ensures WellFormed(r)
  {
    SelectStmt("MIN(ts) as min_time, MAX(ts) as max_time FROM " + db + "." + stableName + ";")
  }

  function TotalRecordsSql(db: string, stableName: string): (r: string)
    ensures WellFormed(r)
  {
    SelectStmt("COUNT(*) as total_records FROM " + db + "." + stableName + ";")
  }

  function TableCountSql(db: string, stableName: string): (r: string)
    ensures WellFormed(r)
  {
    SelectStmt("COUNT(*) as table_count FROM information_schema.ins_tables WHERE stable_name='" + stableName
               + "' AND db_name='" + db + "';")
  }

  function StablesSummarySql(db: string): (r: string)
    ensures WellFormed(r)
  {
    SelectStmt("stable_name, COUNT(*) as table_count FROM information_schema.ins_tables WHERE db_name='" + db
               + "' GROUP BY stable_name;")
  }

  /** The first row, or `[None, None]` when there is none. */
  function FirstRowOrNulls(data: seq<Row>): Row {
    if data == [] then [VNull, VNull] else data[0]
  }

  /** The three statements about one stable, each failure ending the tool. */
  function StablePerformance(reply: Oracle, db: string, stableName: string): Trace<Result<PerformanceReport, Error>> {
    var t := Asked(reply, TimeBoundsSql(db, stableName));
    if t.value.Err? then Trace(Err(t.value.error), t.sent)
    else
      var c := Asked(reply, TotalRecordsSql(db, stableName));
      if c.value.Err? then Trace(Err(c.value.error), t.sent + c.sent)
      else
        match FirstCell(c.value.value.data)
        case Err(e) => Trace(Err(e), t.sent + c.sent)
        case Ok(totalRecords) =>
          var k := Asked(reply, TableCountSql(db, stableName));
          if k.value.Err? then Trace(Err(k.value.error), t.sent + c.sent + k.sent)
          else
            match FirstCell(k.value.value.data)
            case Err(e) => Trace(Err(e), t.sent + c.sent + k.sent)
            case Ok(tableCount) =>
              Trace(Ok(StableReport(FirstRowOrNulls(t.value.value.data), totalRecords, tableCount)), t.sent + c.sent + k.sent)
  }

  /** `analyze_performance`: a truthy stable selects the per-stable analysis. */
  function PerformanceRun(configured: string, reply: Oracle, dbName: Option<string>, stableName: Option<string>)
    : Trace<Result<PerformanceReport, Error>>
  {
    var db := ResolveDb(configured, dbName);
    if Given(stableName) then StablePerformance(reply, db, stableName.value) else SummaryPerformance(reply, db)
  }

  /** The per-database summary: one statement grouping the tables by stable. */
  function SummaryPerformance(reply: Oracle, db: string): Trace<Result<PerformanceReport, Error>> {
    var q := Asked(reply, StablesSummarySql(db));
    match q.value
    case Ok(resp) => Trace(Ok(DatabaseReport(resp.data)), q.sent)
    case Err(e) => Trace(Err(e), q.sent)
  }

  /** What the per-stable analysis does, step by step: it fails exactly when one of its
      three queries fails or the record count or table count answer has an empty first row,
      with that step's error and having sent the statements up to that step. A successful
      report holds the first row of the time bounds (two nulls when there is none) and the
      first cell of each count (zero when there is no row). */
  predicate StableAnalysisFacts(reply: Oracle, db: string, stableName: string,
                                run: Trace<Result<PerformanceReport, Error>>)
  {
    var timeSql, countSql, tablesSql := TimeBoundsSql(db, stableName), TotalRecordsSql(db, stableName), TableCountSql(db, stableName);
    var t, c, k := Answer(reply, timeSql), Answer(reply, countSql), Answer(reply, tablesSql);
    && (run.value.Err? <==>
          || t.Err? || c.Err? || FirstCell(c.value.data).Err?
          || k.Err? || FirstCell(k.value.data).Err?)
    && (t.Err? ==> run.value == Err(t.error) && run.sent == [timeSql])
    && (t.Ok? && c.Err? ==> run.value == Err(c.error) && run.sent == [timeSql, countSql])
    && (t.Ok? && c.Ok? && c.value.data != [] && c.value.data[0] == [] ==>
          run.value == Err(IndexOutOfRange) && run.sent == [timeSql, countSql])
    && (t.Ok? && c.Ok? && FirstCell(c.value.data).Ok? ==> run.sent == [timeSql, countSql, tablesSql])
    && (t.Ok? && c.Ok? && FirstCell(c.value.data).Ok? && k.Err? ==> run.value == Err(k.error))
    && (t.Ok? && c.Ok? && FirstCell(c.value.data).Ok? && k.Ok? && k.value.data != [] && k.value.data[0] == [] ==>
          run.value == Err(IndexOutOfRange))
    && (run.value.Ok? ==>
          && t.Ok? && c.Ok? && k.Ok?
          && run.value.value.StableReport?
          && run.value.value.timeRange == (if t.value.data == [] then [VNull, VNull] else t.value.data[0])
          && (c.value.data == [] ==> run.value.value.totalRecords == VInt(0))
          && (c.value.data != [] ==> c.value.data[0] != [] && run.value.value.totalRecords == c.value.data[0][0])
          && (k.value.data == [] ==> run.value.value.tableCount == VInt(0))
          && (k.value.data != [] ==> k.value.data[0] != [] && run.value.value.tableCount == k.value.data[0][0]))
  }

  /** Which statements the analysis sends and what its report holds: with a stable, the
      per-stable facts above; without one, the single summary statement, whose rows are
      the report. */
  lemma PerformanceOutcome(configured: string, reply: Oracle, dbName: Option<string>, stableName: Option<string>)
    ensures var db := ResolveDb(configured, dbName);
            var run := PerformanceRun(configured, reply, dbName, stableName);
            && (Given(stableName) ==> StableAnalysisFacts(reply, db, stableName.value, run))
            && (!Given(stableName) ==>
                  && run.sent == [StablesSummarySql(db)]
                  && (run.value.Ok? <==> Answer(reply, StablesSummarySql(db)).Ok?)
                  && (run.value.Err? ==> run.value.error == Answer(reply, StablesSummarySql(db)).error)
                  && (run.value.Ok? ==> run.value.value == DatabaseReport(Answer(reply, StablesSummarySql(db)).value.data)))
  {
    var db := ResolveDb(configured, dbName);
    if Given(stableName) {
      StableAnalysisOutcome(reply, db, stableName.value);
    }
  }

  lemma StableAnalysisOutcome(reply: Oracle, db: string, stableName: string)
    ensures StableAnalysisFacts(reply, db, stableName, StablePerformance(reply, db, stableName))
  {
    var timeSql, countSql, tablesSql := TimeBoundsSql(db, stableName), TotalRecordsSql(db, stableName), TableCountSql(db, stableName);
    assert [timeSql] + [countSql] == [timeSql, countSql];
    assert [timeSql] + [countSql] + [tablesSql] == [timeSql, countSql, tablesSql];
  }

  /** The per-stable branch of `analyze_performance`. */
  method AnalyzeStable(taos: TaosClient, db: string, stableName: string) returns (r: Result<PerformanceReport, Error>)
    modifies taos.conn
    ensures var run := StablePerformance(taos.conn.reply, db, stableName);
            r == run.value && taos.conn.received == old(taos.conn.received) + run.sent
  {
    ghost var start := taos.conn.received;
    var timeSql, countSql, tablesSql := TimeBoundsSql(db, stableName), TotalRecordsSql(db, stableName), TableCountSql(db, stableName);
    Regroup(start, [timeSql], [countSql], [tablesSql], []);
    var timeResult := taos.Query(timeSql);
    if timeResult.Err? {
      return Err(timeResult.error);
    }
    var timeRange := FirstRowOrNulls(timeResult.value.data);
    var countResult := taos.Query(countSql);
    if countResult.Err? {
      return Err(countResult.error);
    }
    var totalRecords := FirstCell(countResult.value.data);
    if totalRecords.Err? {
      return Err(totalRecords.error);
    }
    var tablesResult := taos.Query(tablesSql);
    if tablesResult.Err? {
      return Err(tablesResult.error);
    }
    var tableCount := FirstCell(tablesResult.value.data);
    if tableCount.Err? {
      return Err(tableCount.error);
    }
    r := Ok(StableReport(timeRange, totalRecords.value, tableCount.value));
  }

  method AnalyzePerformance(taos: TaosClient, dbName: Option<string>, stableName: Option<string>)
    returns (r: Result<PerformanceReport, Error>)
    modifies taos.conn
    ensures var run := PerformanceRun(taos.database, taos.conn.reply, dbName, stableName);
            r == run.value && taos.conn.received == old(taos.conn.received) + run.sent
  {
    var db := ResolveDb(taos.database, dbName);
    if Given(stableName) {
      r := AnalyzeStable(taos, db, stableName.value);
    } else {
      r := AnalyzeDatabase(taos, db);
    }
  }

  /** The per-database branch of `analyze_performance`. */
  method AnalyzeDatabase(taos: TaosClient, db: string) returns (r: Result<PerformanceReport, Error>)
    modifies taos.conn
    ensures var run := SummaryPerformance(taos.conn.reply, db);
            r == run.value && taos.conn.received == old(taos.conn.received) + run.sent
  {
    var stablesResult := taos.Query(StablesSummarySql(db));
    if stablesResult.Err? {
      return Err(stablesResult.error);
    }
    r := Ok(DatabaseReport(stablesResult.value.data));
  }
}
