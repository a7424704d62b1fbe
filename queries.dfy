/**
 * The statement builders of the tools in `register_tools` (server.py): each maps the
 * tool's parameters to one SQL string. Identifiers and literals are pasted in verbatim,
 * with no quoting or escaping, exactly as the source does.
 */
module Queries {
  import opened Wrappers
  import opened Guard
  import opened Client

  /** Python truthiness of an optional string: present and non-empty. */
  predicate Given(o: Option<string>) {
    o.Some? && o.value != ""
  }

  /** Python truthiness of an optional integer: present and non-zero. */
  predicate GivenInt(o: Option<int>) {
    o.Some? && o.value != 0
  }

  /** Python truthiness of an optional list: present and non-empty. */
  predicate GivenList<T>(o: Option<seq<T>>) {
    o.Some? && o.value != []
  }

  /** The default-database rule: `None` and `""` mean the configured database. */
  function ResolveDb(configured: string, dbName: Option<string>): (db: string)
    ensures !Given(dbName) ==> db == configured
    ensures Given(dbName) ==> db == dbName.value
  {
    if dbName.None? || dbName.value == "" then configured else dbName.value
  }

  /** Resolving an already resolved name again changes nothing, so a composite that hands
      its resolved database to a tool gets the same database back. */
  lemma ResolveDbIdempotent(configured: string, dbName: Option<string>)
    ensures ResolveDb(configured, Some(ResolveDb(configured, dbName))) == ResolveDb(configured, dbName)
  {
  }

  /** The target rule: the table when one is given, otherwise the stable, otherwise
      `ValueError` before any statement is built. */
  function Target(db: string, stableName: Option<string>, tableName: Option<string>): (r: Result<string, Error>)
    ensures r.Err? <==> !Given(tableName) && !Given(stableName)
    ensures r.Err? ==> r.error == MissingTarget
    ensures Given(tableName) ==> r.Ok? && r.value == db + "." + tableName.value
    ensures !Given(tableName) && Given(stableName) ==> r.Ok? && r.value == db + "." + stableName.value
  {
    if Given(tableName) then Ok(db + "." + tableName.value)
    else if Given(stableName) then Ok(db + "." + stableName.value)
    else Err(MissingTarget)
  }

  /** `sep.join(items)`. */
  function Join(items: seq<string>, sep: string): string {
    if items == [] then ""
    else if |items| == 1 then items[0]
    else items[0] + sep + Join(items[1..], sep)
  }

  /** `f" LIMIT {limit}"` when the limit is truthy, nothing otherwise. */
  function LimitClause(limit: Option<int>): (r: string)
    ensures r == "" <==> !GivenInt(limit)
  {
    if GivenInt(limit) then " LIMIT " + IntToString(limit.value) else ""
  }

  /** Statements by their leading verb; `WellFormedPasses` shows that each of the four
      verbs keeps a statement clear of the guard, whatever follows it. */
  function SelectStmt(rest: string): (r: string)
    ensures r == "SELECT " + rest && ReadOnly(r)
  {
    "SELECT " + rest
  }

  function ShowStmt(rest: string): (r: string)
    ensures r == "SHOW " + rest && ReadOnly(r)
  {
    "SHOW " + rest
  }

  function DescribeStmt(rest: string): (r: string)
    ensures r == "DESCRIBE " + rest && ReadOnly(r)
  {
    "DESCRIBE " + rest
  }

  function UseStmt(rest: string): (r: string)
    ensures r == "USE " + rest && ReadOnly(r)
  {
    "USE " + rest
  }

  /** A statement led by a read-only verb and ended by a semicolon. */
  predicate WellFormed(sql: string) {
    ReadOnly(sql) && sql[|sql| - 1] == ';'
  }

  /** Every statement a tool builds gets past the guard, whatever identifiers and values
      were pasted into it. */
  lemma WellFormedPasses(sql: string)
    requires WellFormed(sql)
    ensures ValidateSqlStmt(sql).Pass?
    ensures Reaching(sql) == [sql]
  {
    ReadOnlyLeadPasses(sql);
  }

  // ---- discovery ----

  function AllDbsSql(): (r: string)
    ensures WellFormed(r)
  {
    ShowStmt("DATABASES;")
  }

  function AllStablesSql(db: string): (r: string)
    ensures WellFormed(r)
  {
    ShowStmt(db + ".STABLES;")
  }

  function UseDbSql(db: string): (r: string)
    ensures WellFormed(r)
  {
    UseStmt(db + ";")
  }

  function FieldInfosSql(db: string, stableName: string): (r: string)
    ensures WellFormed(r)
  {
    DescribeStmt(db + "." + stableName + ";")
  }

  function AllTablesSql(db: string, stableName: Option<string>): (r: string)
    ensures WellFormed(r)
  {
    if Given(stableName) then ShowStmt(db + ".TABLES LIKE '" + stableName.value + "_%';")
    else ShowStmt(db + ".TABLES;")
  }

  function TagInfosSql(db: string, stableName: string): (r: string)
    ensures WellFormed(r)
  {
    ShowStmt("TAGS FROM " + db + "." + stableName + ";")
  }

  /** The one builder whose statement has no terminating semicolon. */
  function TableExistsSql(stableName: string): (r: string)
    ensures ReadOnly(r) && r[|r| - 1] == '\''
  {
    ShowStmt("STABLES LIKE '" + stableName + "'")
  }

  function DbInfoSql(db: string): (r: string)
    ensures WellFormed(r)
  {
    SelectStmt("* FROM information_schema.ins_databases WHERE name='" + db + "';")
  }

  // ---- counting ----

  function RowCountSql(target: string): (r: string)
    ensures WellFormed(r)
  {
    SelectStmt("COUNT(*) as row_count FROM " + target + ";")
  }

  function AllStablesStatsSql(db: string): (r: string)
    ensures WellFormed(r)
  {
    SelectStmt("stable_name, COUNT(*) as row_count FROM information_schema.ins_stables WHERE db_name='" + db + "' GROUP BY stable_name;")
  }

  /** `get_table_stats`: the same table-then-stable precedence as `Target`, but with the
      per-database summary instead of an error when neither is given. */
  function TableStatsSql(db: string, stableName: Option<string>, tableName: Option<string>): (r: string)
    ensures WellFormed(r)
  {
    match Target(db, stableName, tableName)
    case Ok(target) => RowCountSql(target)
    case Err(_) => AllStablesStatsSql(db)
  }

  // ---- retrieval ----

  function LatestDataSql(target: string, limit: int): (r: string)
    ensures WellFormed(r)
  {
    SelectStmt("* FROM " + target + " ORDER BY ts DESC LIMIT " + IntToString(limit) + ";")
  }

  /** A SELECT whose optional ` LIMIT n` sits just before the closing semicolon. */
  function LimitedSelect(body: string, limit: Option<int>): (r: string)
    ensures WellFormed(r)
  {
    SelectStmt(body + LimitClause(limit) + ";")
  }

  function TimeRangeSql(target: string, startTime: string, endTime: string, limit: Option<int>): (r: string)
    ensures WellFormed(r)
  {
    LimitedSelect("* FROM " + target + " WHERE ts >= '" + startTime + "' AND ts <= '" + endTime + "' ORDER BY ts", limit)
  }

  function TagValuesSql(db: string, stableName: string, tagName: string, limit: Option<int>): (r: string)
    ensures WellFormed(r)
  {
    LimitedSelect("DISTINCT " + tagName + " FROM " + db + "." + stableName, limit)
  }

  // ---- aggregation ----

  /** The select list: the upper-cased function over the column, behind `_wstart, `
      exactly when an interval is given. */
  function SelectList(aggFunction: string, columnName: string, interval: Option<string>): string {
    var call := Upper(aggFunction) + "(" + columnName + ")";
    if Given(interval) then "_wstart, " + call else call
  }

  /** The time bounds that are given, the start bound first. */
  function Bounds(startTime: Option<string>, endTime: Option<string>): seq<string> {
    (if Given(startTime) then ["ts >= '" + startTime.value + "'"] else [])
    + (if Given(endTime) then ["ts <= '" + endTime.value + "'"] else [])
  }

  /** The time filter: the given bounds joined by AND, or nothing at all. */
  function WhereClause(startTime: Option<string>, endTime: Option<string>): string {
    var conditions := Bounds(startTime, endTime);
    if conditions == [] then "" else " WHERE " + Join(conditions, " AND ")
  }

  /** The grouping: the partition clause (when tags are given) in front of the window
      clause (when an interval is given). */
  function GroupClause(interval: Option<string>, groupByTags: Option<seq<string>>): string {
    var window := if Given(interval) then " INTERVAL(" + interval.value + ")" else "";
    if GivenList(groupByTags) then " PARTITION BY " + Join(groupByTags.value, ", ") + window else window
  }

  /** The aggregate statement of `aggregate_query`, defined clause by clause. */
  function AggregateSql(target: string, aggFunction: string, columnName: string, interval: Option<string>,
                        groupByTags: Option<seq<string>>, startTime: Option<string>, endTime: Option<string>): (r: string)
    ensures WellFormed(r)
  {
    SelectStmt(SelectList(aggFunction, columnName, interval) + " FROM " + target
               + WhereClause(startTime, endTime) + GroupClause(interval, groupByTags) + ";")
  }

  lemma JoinOne(a: string, sep: string)
    ensures Join([a], sep) == a
  {
  }

  lemma JoinTwo(a: string, b: string, sep: string)
    ensures Join([a, b], sep) == a + sep + b
  {
    assert [a, b][1..] == [b];
  }

  /** `aggregate_query`'s clause building, step by step as the source does it: the select
      list is rewritten when an interval is given, the bounds are collected in a list and
      joined with AND, and the partition clause is put in front of the window clause.
      The result is the clause-by-clause statement `AggregateSql`. */
  method BuildAggregateSql(target: string, aggFunction: string, columnName: string, interval: Option<string>,
                           groupByTags: Option<seq<string>>, startTime: Option<string>, endTime: Option<string>)
    returns (sql: string)
    ensures sql == AggregateSql(target, aggFunction, columnName, interval, groupByTags, startTime, endTime)
  {
    var selectClause := Upper(aggFunction) + "(" + columnName + ")";
    if Given(interval) {
      selectClause := "_wstart, " + selectClause;
    }
    var fromClause := target;

    var whereConditions: seq<string> := [];
    if Given(startTime) {
      whereConditions := whereConditions + ["ts >= '" + startTime.value + "'"];
    }
    if Given(endTime) {
      whereConditions := whereConditions + ["ts <= '" + endTime.value + "'"];
    }
    assert whereConditions == Bounds(startTime, endTime);
    var whereClause := "";
    if whereConditions != [] {
      whereClause := " WHERE " + Join(whereConditions, " AND ");
    }

    var groupByClause := "";
    if Given(interval) {
      groupByClause := " INTERVAL(" + interval.value + ")";
    }
    if GivenList(groupByTags) {
      var partitionBy := Join(groupByTags.value, ", ");
      groupByClause := " PARTITION BY " + partitionBy + groupByClause;
    }

    sql := SelectStmt(selectClause + " FROM " + fromClause + whereClause + groupByClause + ";");
  }

  /** The time filter case by case: no bound gives no WHERE at all; both bounds give the
      start bound first, joined to the end bound by AND; one bound gives that bound alone. */
  lemma WhereClauseRule(startTime: Option<string>, endTime: Option<string>)
    ensures WhereClause(startTime, endTime) == "" <==> !Given(startTime) && !Given(endTime)
    ensures Given(startTime) && Given(endTime) ==>
              WhereClause(startTime, endTime)
              == " WHERE " + ("ts >= '" + startTime.value + "'") + " AND " + ("ts <= '" + endTime.value + "'")
    ensures Given(startTime) && !Given(endTime) ==>
              WhereClause(startTime, endTime) == " WHERE " + ("ts >= '" + startTime.value + "'")
    ensures !Given(startTime) && Given(endTime) ==>
              WhereClause(startTime, endTime) == " WHERE " + ("ts <= '" + endTime.value + "'")
  {
    var s := "ts >= '" + startTime.GetOr("") + "'";
    var e := "ts <= '" + endTime.GetOr("") + "'";
    if Given(startTime) && Given(endTime) {
      assert Bounds(startTime, endTime) == [s, e];
      JoinTwo(s, e, " AND ");
    } else if Given(startTime) {
      assert Bounds(startTime, endTime) == [s];
    } else if Given(endTime) {
      assert Bounds(startTime, endTime) == [e];
    } else {
      assert Bounds(startTime, endTime) == [];
    }
  }

  /** The limit rule of `get_data_by_time_range` and `get_tag_values`: a falsy limit (absent
      or zero) gives the unlimited statement; a truthy one inserts ` LIMIT n` just before
      the single closing semicolon of the unlimited one. */
  lemma LimitRule(body: string, limit: Option<int>)
    ensures !GivenInt(limit) ==> LimitedSelect(body, limit) == LimitedSelect(body, None)
    ensures GivenInt(limit) ==>
              var plain := LimitedSelect(body, None);
              LimitedSelect(body, limit) == plain[..|plain| - 1] + " LIMIT " + IntToString(limit.value) + ";"
  {
    var plain := LimitedSelect(body, None);
    assert plain == ("SELECT " + body) + ";";
    assert plain[..|plain| - 1] == "SELECT " + body;
    if GivenInt(limit) {
      Regroup5("SELECT ", body, " LIMIT ", IntToString(limit.value), ";");
    }
  }

  lemma Regroup5(a: string, b: string, c: string, d: string, e: string)
    ensures a + (b + (c + d) + e) == a + b + c + d + e
  {
  }

  /** `get_table_stats` follows the target rule when a target is given. */
  lemma TableStatsFollowsTarget(db: string, stableName: Option<string>, tableName: Option<string>)
    ensures Target(db, stableName, tableName).Ok? ==>
              TableStatsSql(db, stableName, tableName) == RowCountSql(Target(db, stableName, tableName).value)
    ensures Target(db, stableName, tableName).Err? ==> TableStatsSql(db, stableName, tableName) == AllStablesStatsSql(db)
  {
  }

  /** An upper-cased call never begins with `_wstart, `: its second character is an
      upper-cased letter, or the opening parenthesis. */
  lemma CallNotWindowed(aggFunction: string, columnName: string)
    ensures !StartsWith(Upper(aggFunction) + "(" + columnName + ")", "_wstart, ")
  {
    var u := Upper(aggFunction);
    var call := u + "(" + columnName + ")";
    UpperSpec(aggFunction);
    if |u| >= 2 {
      assert call[1] == u[1] == UpperChar(aggFunction[1]);
      assert call[1] != 'w';
    } else if |u| == 1 {
      assert call[1] == '(';
    } else {
      assert call[0] == '(';
    }
  }

  /** The select list begins with `_wstart, ` exactly when an interval is given; the
      upper-cased function applied to the column follows. */
  lemma SelectListRule(aggFunction: string, columnName: string, interval: Option<string>)
    ensures StartsWith(SelectList(aggFunction, columnName, interval), "_wstart, ") <==> Given(interval)
    ensures SelectList(aggFunction, columnName, interval)
            == (if Given(interval) then "_wstart, " else "") + Upper(aggFunction) + "(" + columnName + ")"
  {
    var call := Upper(aggFunction) + "(" + columnName + ")";
    if Given(interval) {
      assert ("_wstart, " + call)[..9] == "_wstart, ";
      assert "_wstart, " + Upper(aggFunction) + "(" + columnName + ")" == "_wstart, " + call;
    } else {
      CallNotWindowed(aggFunction, columnName);
      assert "" + Upper(aggFunction) + "(" + columnName + ")" == call;
    }
  }

  /** The grouping case by case: nothing without tags or interval; the window clause alone;
      the partition clause alone; and with both, the partition clause in front of the
      window clause. */
  lemma GroupClauseRule(interval: Option<string>, groupByTags: Option<seq<string>>)
    ensures GroupClause(interval, groupByTags) == "" <==> !Given(interval) && !GivenList(groupByTags)
    ensures Given(interval) && !GivenList(groupByTags) ==>
              GroupClause(interval, groupByTags) == " INTERVAL(" + interval.value + ")"
    ensures !Given(interval) && GivenList(groupByTags) ==>
              GroupClause(interval, groupByTags) == " PARTITION BY " + Join(groupByTags.value, ", ")
    ensures Given(interval) && GivenList(groupByTags) ==>
              GroupClause(interval, groupByTags)
              == " PARTITION BY " + Join(groupByTags.value, ", ") + " INTERVAL(" + interval.value + ")"
  {
    if !Given(interval) && GivenList(groupByTags) {
      assert " PARTITION BY " + Join(groupByTags.value, ", ") + "" == " PARTITION BY " + Join(groupByTags.value, ", ");
    }
  }

  /** A windowed average per tag between two bounds, as the dashboard asks for it: the
      window start first, the upper-cased function, both bounds, then the partition clause
      in front of the window clause. */
  lemma WindowedAverageByTag(target: string, column: string, interval: string, tag: string, startTime: string, endTime: string)
    requires interval != "" && startTime != "" && endTime != ""
    ensures AggregateSql(target, "avg", column, Some(interval), Some([tag]), Some(startTime), Some(endTime))
            == "SELECT _wstart, AVG(" + column + ") FROM " + target
               + " WHERE ts >= '" + startTime + "' AND ts <= '" + endTime + "'"
               + " PARTITION BY " + tag + " INTERVAL(" + interval + ");"
  {
    WindowedAverageSelect(column, interval);
    WindowedAverageWhere(startTime, endTime);
    WindowedAverageGroup(interval, tag);
    WindowedAverageAssembled(target, column, interval, tag, startTime, endTime, SelectList("avg", column, Some(interval)),
                             WhereClause(Some(startTime), Some(endTime)), GroupClause(Some(interval), Some([tag])));
  }

  /** The statement of `WindowedAverageByTag` put together from its three clauses. */
  lemma WindowedAverageAssembled(target: string, column: string, interval: string, tag: string, startTime: string,
                                 endTime: string, select: string, where: string, group: string)
    requires select == "_wstart, AVG(" + column + ")"
    requires where == " WHERE ts >= '" + startTime + "' AND ts <= '" + endTime + "'"
    requires group == " PARTITION BY " + tag + " INTERVAL(" + interval + ")"
    ensures "SELECT " + (select + " FROM " + target + where + group + ";")
            == "SELECT _wstart, AVG(" + column + ") FROM " + target
               + " WHERE ts >= '" + startTime + "' AND ts <= '" + endTime + "'"
               + " PARTITION BY " + tag + " INTERVAL(" + interval + ");"
  {
    var head := "SELECT _wstart, AVG(" + column + ") FROM " + target;
    var filtered := head + " WHERE ts >= '" + startTime + "' AND ts <= '" + endTime + "'";
    var grouped := filtered + " PARTITION BY " + tag + " INTERVAL(" + interval;
    calc {
      "SELECT " + (select + " FROM " + target + where + group + ";");
    == { Flatten6("SELECT ", select, " FROM ", target, where, group, ";"); }
      "SELECT " + select + " FROM " + target + where + group + ";";
    == { Flatten3("SELECT ", "_wstart, AVG(", column, ")"); WindowedAverageJoins(); }
      head + where + group + ";";
    == { Flatten5(head, " WHERE ts >= '", startTime, "' AND ts <= '", endTime, "'"); }
      filtered + group + ";";
    == { Flatten5(filtered, " PARTITION BY ", tag, " INTERVAL(", interval, ")"); }
      grouped + ")" + ";";
    == { WindowedAverageJoins(); }
      grouped + ");";
    }
  }

  lemma WindowedAverageJoins()
    ensures "SELECT " + "_wstart, AVG(" == "SELECT _wstart, AVG("
    ensures forall p: string {:trigger p + ");"} :: p + ")" + ";" == p + ");"
  {
    forall p: string ensures p + ")" + ";" == p + ");" {
      assert ")" + ";" == ");";
    }
  }

  lemma Flatten3(p: string, a: string, b: string, c: string)
    ensures p + (a + b + c) == p + a + b + c
  {
  }

  lemma Flatten5(p: string, a: string, b: string, c: string, d: string, e: string)
    ensures p + (a + b + c + d + e) == p + a + b + c + d + e
  {
  }

  lemma Flatten6(p: string, a: string, b: string, c: string, d: string, e: string, f: string)
    ensures p + (a + b + c + d + e + f) == p + a + b + c + d + e + f
  {
  }

  /** The three clauses of `WindowedAverageByTag`: the select list, the two bounds and the
      partition clause in front of the window clause. */
  lemma WindowedAverageWhere(startTime: string, endTime: string)
    requires startTime != "" && endTime != ""
    ensures WhereClause(Some(startTime), Some(endTime)) == " WHERE ts >= '" + startTime + "' AND ts <= '" + endTime + "'"
  {
    WhereClauseRule(Some(startTime), Some(endTime));
  }

  lemma WindowedAverageGroup(interval: string, tag: string)
    requires interval != ""
    ensures GroupClause(Some(interval), Some([tag])) == " PARTITION BY " + tag + " INTERVAL(" + interval + ")"
  {
    GroupClauseRule(Some(interval), Some([tag]));
    JoinOne(tag, ", ");
  }

  lemma WindowedAverageSelect(column: string, interval: string)
    requires interval != ""
    ensures SelectList("avg", column, Some(interval)) == "_wstart, AVG(" + column + ")"
  {
    AvgUpper();
    SelectListRule("avg", column, Some(interval));
    assert "_wstart, " + "AVG" + "(" == "_wstart, AVG(";
  }

  lemma AvgUpper()
    ensures Upper("avg") == "AVG"
  {
  }
}
