# TDengine MCP server: a Dafny model of its core

This project models `src/tdengine_mcp_server/server.py`, the core of an MCP server that gives a
language model read-only access to a TDengine time-series database. It covers:

- **The statement guard.** `NOT_ALLOWED_TAOS_SQL` and `validate_sql_stmt` strip a statement,
  upper-case it and refuse it when it starts with one of fifteen write or administration keywords.
- **The execution client.** `TAOSClient.execute_sql` runs the guard, calls the REST driver and
  normalises the reply to the five fields of `TaosSqlResponse`.
- **The tools of `register_tools`.** Each one turns its parameters into a SQL statement, applying
  the default-database rule (`None` or `""` means the configured database) and, where needed, the
  target rule (a table, otherwise a super table, otherwise `ValueError`).
- **The two composite tools.**
  - `comprehensive_stable_analysis` fails as a whole when the schema, performance, statistics or
    integrity step fails. Failures of the tag, sample, recent-activity and tag-distribution steps are
    caught and recorded in their own sections.
  - `time_series_dashboard_data` stops at the first failing query and keeps the sections gathered
    before it.
- **The two resources of `register_resources`.** One lists the databases; the other gives the
  schema of every super table.

The REST driver is an oracle `string -> reply`, a function from each statement to an answer or to a
failure message. The `Connection` class keeps a ghost log of every statement that reached the
driver. So each tool is stated twice:

- a method over the client, which changes only that log;
- a specification function returning a `Trace`: the tool's result together with the statements it
  sent, in order.

Each method is proved equal to its specification function. Lemmas then state what the source
promises about that function: what fails and when, what each report holds, and which statements
are sent in what order.

Modules, one per file: `Wrappers` (Option, Result), `Guard`, `Client`, `Queries` (statement
builders), `Tools`, `Composites` and `Resources`.

Two facts about the code are worth stating outright:

- **Composite analysis.** The analysis isolates only the tag, sample, recent-activity and
  tag-distribution steps. A failing performance, statistics or integrity step ends it as "failed"
  (`Composites.ComprehensiveFailsOnlyInCoreSteps`).
- **Existence check.** The existence check returns the truthiness of the response dictionary,
  which is always true; see "## Findings".

## Model

| member | source | states |
|---|---|---|
| Guard.TrimStartSpec | src/tdengine_mcp_server/server.py:141 | leading strip returns a suffix, drops only whitespace and leaves no leading whitespace |
| Guard.TrimEndSpec | src/tdengine_mcp_server/server.py:141 | trailing strip returns a prefix, drops only whitespace and leaves no trailing whitespace |
| Guard.StripSpec | src/tdengine_mcp_server/server.py:141 | `strip()` returns the infix with only whitespace around it that neither begins nor ends with whitespace |
| Guard.UpperSpec | src/tdengine_mcp_server/server.py:142 | `upper()` keeps the length and upper-cases each character in place |
| Guard.StartsWithAny | src/tdengine_mcp_server/server.py:142 | `startswith(tuple)` is true exactly when some entry of the tuple is a prefix |
| Guard.ValidateSqlStmt | src/tdengine_mcp_server/server.py:137-146 | a statement is refused, with the fixed security message, exactly when its stripped upper-cased text begins with a denied keyword |
| Guard.KeywordsAreCapitals | src/tdengine_mcp_server/server.py:27-43 | each of the fifteen denied keywords is a non-empty run of capitals |
| Guard.ReadOnlyLeadPasses | src/tdengine_mcp_server/server.py:137-146 | a statement led by SELECT, SHOW, DESCRIBE or USE always passes |
| Guard.SelectPassesWhateverFollows | src/tdengine_mcp_server/server.py:142 | the guard is a prefix test: a SELECT passes whatever follows it, denied keywords included |
| Guard.KeywordPrefixRejected | src/tdengine_mcp_server/server.py:141-146 | leading whitespace, then a denied keyword in any letter case, is refused whatever follows |
| Guard.LowerCaseDeleteRejected | src/tdengine_mcp_server/server.py:141-146 | `"  delete from t;"` is refused |
| Guard.DroppedRejected | src/tdengine_mcp_server/server.py:142 | a word that only begins with a keyword (DROPPED) is refused too |
| Client.NormalizeKeepsPresentFields | src/tdengine_mcp_server/server.py:106-114 | fields the driver sent pass through unchanged |
| Client.NormalizeDefaults | src/tdengine_mcp_server/server.py:106-114 | a reply with no field gives status "", empty head, column_meta and data, and rows -1 |
| Client.NormalizeFieldwise | src/tdengine_mcp_server/server.py:106-114 | each missing field gets its own default and leaves the other fields alone |
| Client.Execute | src/tdengine_mcp_server/server.py:97-117 | a refused statement raises the security error; otherwise the driver's failure is re-raised or its reply normalised |
| Client.RefusedIndependentOfDatabase | src/tdengine_mcp_server/server.py:101 | a refused statement gets the same answer whatever the database holds |
| Client.Reaching | src/tdengine_mcp_server/server.py:101-104 | nothing reaches the driver exactly when the statement is denied; otherwise the statement itself does |
| Client.ReadOnlyRunsUnguarded | src/tdengine_mcp_server/server.py:97-117 | a statement led by a read-only verb is executed as if there were no guard |
| Client.Connection.Sql | src/tdengine_mcp_server/server.py:104 | the driver answers by its oracle and logs the statement |
| Client.TaosClient.ExecuteSql | src/tdengine_mcp_server/server.py:97-117 | the result is `Execute`; the driver log grows by exactly the statements that get past the guard, and is unchanged for a refused one |
| Client.TaosClient.Query | src/tdengine_mcp_server/server.py:97-117 | a read-only statement reaches the driver exactly once, and its answer is returned |
| Queries.ResolveDb | src/tdengine_mcp_server/server.py:204-205 | `None` and `""` mean the configured database; any other name is used as given |
| Queries.ResolveDbIdempotent | src/tdengine_mcp_server/server.py:804-805 | a composite that passes its resolved database to a tool gets the same database back |
| Queries.Target | src/tdengine_mcp_server/server.py:414-419 | the table if given, else the stable, qualified by the database; `ValueError` exactly when neither is given |
| Queries.LimitClause | src/tdengine_mcp_server/server.py:477-478 | the limit clause is empty exactly when the limit is absent or zero |
| Queries.WellFormedPasses | src/tdengine_mcp_server/server.py:137-146 | every statement led by a read-only verb and ended by `;` passes the guard and reaches the driver |
| Queries.AllDbsSql | src/tdengine_mcp_server/server.py:182 | the statement is led by SHOW and ends in `;`, so it passes the guard |
| Queries.AllStablesSql | src/tdengine_mcp_server/server.py:207 | the statement is led by SHOW and ends in `;`, whatever the database name |
| Queries.UseDbSql | src/tdengine_mcp_server/server.py:226 | the statement is led by USE and ends in `;`, whatever the name |
| Queries.FieldInfosSql | src/tdengine_mcp_server/server.py:253 | the statement is led by DESCRIBE and ends in `;`, whatever the names |
| Queries.AllTablesSql | src/tdengine_mcp_server/server.py:303-306 | both branches are led by SHOW and end in `;` |
| Queries.TagInfosSql | src/tdengine_mcp_server/server.py:333 | the statement is led by SHOW and ends in `;` |
| Queries.TableExistsSql | src/tdengine_mcp_server/server.py:169 | the statement is led by SHOW and is the one builder that ends with the closing quote rather than `;` |
| Queries.DbInfoSql | src/tdengine_mcp_server/server.py:640 | the statement is led by SELECT and ends in `;` |
| Queries.RowCountSql | src/tdengine_mcp_server/server.py:368-370 | the statement is led by SELECT and ends in `;` |
| Queries.AllStablesStatsSql | src/tdengine_mcp_server/server.py:373 | the statement is led by SELECT and ends in `;` |
| Queries.TableStatsSql | src/tdengine_mcp_server/server.py:367-373 | every branch is led by SELECT and ends in `;` |
| Queries.TableStatsFollowsTarget | src/tdengine_mcp_server/server.py:367-373 | the row count of the target when there is one, the per-database summary otherwise |
| Queries.LatestDataSql | src/tdengine_mcp_server/server.py:421 | the statement is led by SELECT and ends in `;` |
| Queries.LimitedSelect | src/tdengine_mcp_server/server.py:476-479 | a SELECT with an optional limit is led by SELECT and ends in `;` |
| Queries.TimeRangeSql | src/tdengine_mcp_server/server.py:476-479 | the statement is led by SELECT and ends in `;`, with or without a limit |
| Queries.TagValuesSql | src/tdengine_mcp_server/server.py:611-614 | the statement is led by SELECT and ends in `;`, with or without a limit |
| Queries.LimitRule | src/tdengine_mcp_server/server.py:476-479 | a falsy limit gives the unlimited statement; a truthy one puts ` LIMIT n` just before its closing `;` |
| Queries.AggregateSql | src/tdengine_mcp_server/server.py:551-577 | the aggregate statement is led by SELECT and ends in `;` |
| Queries.SelectListRule | src/tdengine_mcp_server/server.py:551-553 | the select list starts with `_wstart, ` exactly when an interval is given, followed by the upper-cased function applied to the column |
| Queries.CallNotWindowed | src/tdengine_mcp_server/server.py:553 | the upper-cased function call never starts with `_wstart, ` |
| Queries.GroupClauseRule | src/tdengine_mcp_server/server.py:569-575 | the four tag/interval cases: `PARTITION BY` the joined tags comes before `INTERVAL(..)`, and the clause is empty exactly when neither is given |
| Queries.WindowedAverageGroup | src/tdengine_mcp_server/server.py:569-575 | with an interval and one tag, the group clause is `PARTITION BY` the tag followed by `INTERVAL(..)` |
| Queries.WindowedAverageByTag | src/tdengine_mcp_server/server.py:551-577 | the whole statement for that case: `SELECT _wstart, AVG(c) FROM t WHERE ts >= 's' AND ts <= 'e' PARTITION BY g INTERVAL(i);` |
| Queries.BuildAggregateSql | src/tdengine_mcp_server/server.py:551-577 | the step-by-step clause building equals the clause-by-clause statement `AggregateSql` |
| Queries.WhereClauseRule | src/tdengine_mcp_server/server.py:560-567 | no WHERE without a bound; with both bounds, the start bound first and AND between; one bound alone otherwise |
| Tools.TableExists | src/tdengine_mcp_server/server.py:152-171 | corrected: a one-key map that is true exactly when `SHOW STABLES LIKE` returned a row; a driver failure propagates |
| Tools.TableExistsAsWrittenAlwaysTrue | src/tdengine_mcp_server/server.py:171 | as written, every answer reads as "exists", even one with no rows, where the corrected answer is false |
| Tools.TestTableExists | src/tdengine_mcp_server/server.py:152-171 | sends the LIKE statement once and returns the corrected existence map |
| Tools.GetAllDbs | src/tdengine_mcp_server/server.py:173-184 | sends `SHOW DATABASES;` once and returns its answer |
| Tools.GetAllStables | src/tdengine_mcp_server/server.py:186-209 | sends the stable listing of the resolved database once and returns its answer |
| Tools.SwitchDb | src/tdengine_mcp_server/server.py:211-228 | sends `USE` with the name exactly as given, since this tool has no default |
| Tools.GetFieldInfos | src/tdengine_mcp_server/server.py:230-255 | sends the DESCRIBE of the stable in the resolved database once |
| Tools.QueryTaosDbData | src/tdengine_mcp_server/server.py:257-275 | the free-form statement: refused without reaching the driver, or sent once |
| Tools.GetAllTables | src/tdengine_mcp_server/server.py:277-308 | sends the table listing, filtered by the stable prefix when one is given |
| Tools.GetTagInfos | src/tdengine_mcp_server/server.py:310-334 | sends the tag listing of the stable once |
| Tools.GetTableStats | src/tdengine_mcp_server/server.py:336-376 | sends the row count of the target, or the summary, once |
| Tools.GetTagValues | src/tdengine_mcp_server/server.py:581-617 | sends the DISTINCT query with its optional limit once |
| Tools.GetDbInfo | src/tdengine_mcp_server/server.py:619-642 | sends the database information query once |
| Tools.TargetToolsSendNothingWithoutTarget | src/tdengine_mcp_server/server.py:414-419 | without a target the three target tools raise `ValueError` and send nothing; with one they each send exactly one statement |
| Tools.GetLatestData | src/tdengine_mcp_server/server.py:378-423 | the target rule first, then the latest rows of the target |
| Tools.GetDataByTimeRange | src/tdengine_mcp_server/server.py:425-482 | the target rule first, then the time-range query with its optional limit |
| Tools.AggregateQuery | src/tdengine_mcp_server/server.py:484-579 | the target rule first, then the aggregate statement built clause by clause |
| Tools.TotalRowsSql | src/tdengine_mcp_server/server.py:680 | the statement is led by SELECT and ends in `;` |
| Tools.NullCountSql | src/tdengine_mcp_server/server.py:693 | the statement is led by SELECT and ends in `;`, whatever the column |
| Tools.DuplicatesSql | src/tdengine_mcp_server/server.py:704 | the statement is led by SELECT and ends in `;` |
| Tools.NullScanOutcome | src/tdengine_mcp_server/server.py:690-698 | the NULL scan succeeds exactly when no DESCRIBE row is empty, and otherwise fails with IndexError |
| Tools.NullScanSent | src/tdengine_mcp_server/server.py:690-698 | a complete scan sends one NULL count per column other than `ts`, in row order |
| Tools.NullScanKeys | src/tdengine_mcp_server/server.py:689-700 | the counts have an entry for every column other than `ts`, and for nothing else |
| Tools.NullScanValues | src/tdengine_mcp_server/server.py:694-698 | each entry is its column's count, or "Unable to check" when that query or its first row failed |
| Tools.IntegrityOutcome | src/tdengine_mcp_server/server.py:644-711 | fails exactly on a failed total query, an empty first total row, or (with NULL checks) a failed DESCRIBE or an empty row; the optional sections are present exactly when asked for; the total is the first cell of its answer, or 0 when there are no rows; the NULL section is the scan of the DESCRIBE rows; the duplicate section holds the duplicate rows, or the error text after `Error checking duplicates: ` |
| Tools.ScanNulls | src/tdengine_mcp_server/server.py:689-700 | the loop returns the NULL scan and sends its statements |
| Tools.CheckNulls | src/tdengine_mcp_server/server.py:684-700 | DESCRIBE, then the scan, only when NULLs are to be checked |
| Tools.CheckDuplicates | src/tdengine_mcp_server/server.py:702-709 | the duplicate query, its failure caught as text with its prefix |
| Tools.CheckDataIntegrity | src/tdengine_mcp_server/server.py:644-711 | the total, then the NULL scan, then the duplicates, as `IntegrityRun` |
| Tools.TimeBoundsSql | src/tdengine_mcp_server/server.py:744 | the statement is led by SELECT and ends in `;` |
| Tools.TotalRecordsSql | src/tdengine_mcp_server/server.py:749 | the statement is led by SELECT and ends in `;` |
| Tools.TableCountSql | src/tdengine_mcp_server/server.py:754 | the statement is led by SELECT and ends in `;` |
| Tools.StablesSummarySql | src/tdengine_mcp_server/server.py:760 | the statement is led by SELECT and ends in `;` |
| Tools.PerformanceOutcome | src/tdengine_mcp_server/server.py:741-762 | with a stable: the per-stable facts of `Tools.StableAnalysisOutcome`; without one: the single summary statement, failing exactly when it fails with its error, its rows otherwise |
| Tools.StableAnalysisOutcome | src/tdengine_mcp_server/server.py:741-758 | fails exactly when one of the three queries fails or the record or table count has an empty first row, with that error and the statements up to that step sent; a report holds the first time-bounds row (`[None, None]` when none) and the first cell of each count (0 when no row), after all three statements in order |
| Tools.AnalyzeStable | src/tdengine_mcp_server/server.py:741-756 | time bounds, record count, table count, each failure ending the tool |
| Tools.AnalyzeDatabase | src/tdengine_mcp_server/server.py:758-762 | the per-database summary |
| Tools.AnalyzePerformance | src/tdengine_mcp_server/server.py:713-764 | a truthy stable selects the per-stable analysis |
| Composites.RecentCountSql | src/tdengine_mcp_server/server.py:864 | the statement is led by SELECT and ends in `;` |
| Composites.CoreOfOutcome | src/tdengine_mcp_server/server.py:813-841 | from an analysis with no core section: each of schema, tags, performance, statistics and integrity is filled with its step's value exactly when it and the steps before it succeeded (a tag error recorded with its prefix); the status is the first failing step's error text, or completed; the schema and tag statements go first |
| Composites.ExtrasOfOutcome | src/tdengine_mcp_server/server.py:843-888 | a completed core takes the three optional sections and sends their statements after its own, keeping its names, core sections and status; a failed one is returned unchanged |
| Composites.SectionsPresent | src/tdengine_mcp_server/server.py:844-879 | each optional section is present exactly when its condition holds |
| Composites.ComprehensiveFailsOnlyInCoreSteps | src/tdengine_mcp_server/server.py:813-892 | the analysis fails exactly when the schema, performance, statistics or integrity step fails |
| Composites.ComprehensiveKeepsSections | src/tdengine_mcp_server/server.py:807-892 | names always; each core section with its step's value exactly when that step and the ones before it succeeded, a tag error recorded with its prefix; the first failing core step's error as the status; no optional section after a failure |
| Composites.ComprehensiveOptionalSections | src/tdengine_mcp_server/server.py:843-886 | completed: sample iff asked for, recent activity iff days_back is positive, tag distribution iff the tag query returned rows |
| Composites.StepsStartWithSchema | src/tdengine_mcp_server/server.py:813-829 | whatever the steps return, the schema statement goes first and, after its success, the tag statement second |
| Composites.ComprehensiveStartsWithSchema | src/tdengine_mcp_server/server.py:813-829 | the first statement is DESCRIBE of the stable and, once it succeeds, the second is SHOW TAGS |
| Composites.ChecksSteps | src/tdengine_mcp_server/server.py:831-841 | performance, statistics and integrity, as `ChecksOf` |
| Composites.CoreSteps | src/tdengine_mcp_server/server.py:813-841 | steps 1 to 5, as `AnalysisCore` |
| Composites.SampleStep | src/tdengine_mcp_server/server.py:843-852 | the five latest rows when asked for, failure caught |
| Composites.RecentStep | src/tdengine_mcp_server/server.py:854-873 | the recent count for a positive days_back, failure caught |
| Composites.TagDistributionStep | src/tdengine_mcp_server/server.py:875-886 | the distinct values of the first tag, at most 20, failure caught |
| Composites.ComprehensiveStableAnalysis | src/tdengine_mcp_server/server.py:766-894 | the whole analysis, as `ComprehensiveRun` |
| Composites.DashboardOfStatus | src/tdengine_mcp_server/server.py:958-1015 | whatever each query returns, success exactly when every query succeeds, the tag values only when grouping |
| Composites.DashboardOfSections | src/tdengine_mcp_server/server.py:958-1015 | from a dashboard with no section: the headers are unchanged; each section holds its query's answer exactly when that query and every one before it succeeded (the tag values only when grouping); the status is the first failing query's error text, or success |
| Composites.DashboardOfSent | src/tdengine_mcp_server/server.py:958-1009 | the first query's statements go first; a failing first query ends the dashboard at once; a success sends every query's statements in order |
| Composites.DashboardSucceedsIffAllQueriesDo | src/tdengine_mcp_server/server.py:958-1015 | the dashboard succeeds exactly when the three series, the overall average and count, the latest row and (when grouping) the tag values all succeed |
| Composites.DashboardKeepsEarlierSections | src/tdengine_mcp_server/server.py:950-1015 | the headers are as given; each section holds its query's answer exactly when that query and every one before it succeeded; a failure reports that query's error text; success has every section, the tag values exactly when grouping |
| Composites.DashboardWithoutStable | src/tdengine_mcp_server/server.py:958-967 | without a stable: the missing-target error, no section, nothing sent |
| Composites.DashboardFirstStatement | src/tdengine_mcp_server/server.py:960-966 | with a stable, the first statement is the windowed average between the two clock readings |
| Composites.SeriesSteps | src/tdengine_mcp_server/server.py:959-981 | the three windowed series, as `SeriesOf` |
| Composites.OverallSteps | src/tdengine_mcp_server/server.py:983-1004 | overall average and count, then the latest row, as `OverallOf` |
| Composites.TagValuesSteps | src/tdengine_mcp_server/server.py:1006-1009 | the tag values when grouping, as `TagValuesOf` |
| Composites.TimeSeriesDashboardData | src/tdengine_mcp_server/server.py:896-1017 | the whole dashboard, as `DashboardRun` |
| Resources.DatabasesOutcome | src/tdengine_mcp_server/server.py:1023-1028 | sends `SHOW DATABASES;` only; fails exactly when the driver does; otherwise the rows, or none when the reply has no data field |
| Resources.GetCurrentTaosDatabase | src/tdengine_mcp_server/server.py:1023-1028 | the database listing, as `DatabasesRun` |
| Resources.CurrentStablesSql | src/tdengine_mcp_server/server.py:1035 | the statement is led by SHOW and ends in `;` |
| Resources.StableSchemaSql | src/tdengine_mcp_server/server.py:1040 | the statement is led by DESCRIBE and ends in `;`, whatever the cell |
| Resources.ZipSpec | src/tdengine_mcp_server/server.py:1052 | `dict(zip(names, row))` has the first min(len) names as keys, each mapped to the cell at that name's last position |
| Resources.ZipDistinct | src/tdengine_mcp_server/server.py:1052 | with distinct names and a long enough row, each name maps to the cell in its column |
| Resources.RowsAsRecords | src/tdengine_mcp_server/server.py:1048-1052 | one record per DESCRIBE row, in order |
| Resources.SchemaScanOutcome | src/tdengine_mcp_server/server.py:1037-1054 | the scan fails exactly when the DESCRIBE of some non-empty row fails, and then with that failure |
| Resources.SchemaScanSent | src/tdengine_mcp_server/server.py:1037-1054 | a complete scan sends one DESCRIBE per non-empty row, in order |
| Resources.SchemaScanKeys | src/tdengine_mcp_server/server.py:1037-1054 | the schema has an entry for the first cell of each non-empty row, and for nothing else |
| Resources.SchemaScanValues | src/tdengine_mcp_server/server.py:1040-1054 | each entry is the table built from its own successful DESCRIBE |
| Resources.SchemaOutcome | src/tdengine_mcp_server/server.py:1030-1056 | fails exactly when the listing or a DESCRIBE fails; otherwise it sent the listing and then one DESCRIBE per non-empty row, and has one entry per listed stable |
| Resources.ScanSchemas | src/tdengine_mcp_server/server.py:1037-1054 | the loop returns `SchemaScan` and sends its statements |
| Resources.GetCurrentDbAllTaosSchema | src/tdengine_mcp_server/server.py:1030-1056 | the listing, then the scan, as `SchemaRun` |

## Left out

- Connecting to the database is not modelled: the configuration read in `args.py`,
  `TAOSClient.__init__` and `init_db` (the REST driver's construction). The driver is an oracle
  from statement to reply, and the configured database a constant.
- The server lifespan, `main`, the FastMCP registration and transport, the prompts of
  `register_prompts` and `logging` are outside the core.
- The wall clock is not read. `datetime.now()` and the `timedelta` arithmetic become the
  parameters `startStr` and `endStr`, so `time_range_hours` does not appear in the dashboard model.
  The `"NOW()"` literal stored as `analysis_timestamp` is left out of the analysis record.
- The database is treated as unchanged while one operation runs: each statement gets the same
  answer every time. Concurrency and a changing database are not modelled, and neither is the
  effect of `USE` on later statements.
- Only ASCII is handled by `strip()` and `upper()`: whitespace is the ASCII set that `str.isspace`
  accepts, and case mapping covers `a`-`z` only. Unicode whitespace and case mapping are not
  modelled.
- Values are modelled loosely:
  - Floats in result rows are carried as their Python text.
  - Dictionaries are Dafny maps and records, so the insertion order of keys is not modelled.
  - The `error` key of a failed composite is carried inside its status.
- `Client.TaosClient.Query` is a proof device and not a source operation. It is `execute_sql` on a
  statement led by a read-only verb, which every tool except the free-form query builds.
- Queries builder functions: each one's contract only states that the statement is led by a
  read-only verb and ends as the guard-facing rules need. The exact text is their body, which the
  tool methods and lemmas use. The aggregate statement's clauses are stated separately by
  `Queries.SelectListRule`, `Queries.WhereClauseRule` and `Queries.GroupClauseRule`.
- Queries.AggregateSql: its own contract states only that the statement is led by SELECT and ends
  in `;`. The window start, the upper-cased function and the partition clause before the window
  clause are stated by `Queries.SelectListRule`, `Queries.GroupClauseRule` and
  `Queries.WindowedAverageByTag`.
- Tools.TestTableExists: returns the corrected existence map `Tools.TableExists`, not the always-true
  map that server.py:171 returns. That answer is `Tools.TableExistsAsWritten`, and
  `Tools.TableExistsAsWrittenAlwaysTrue` shows where the two differ.

## Findings

| source | as written | input that shows it | evidently intended | confidence | as-written member | corrected member |
|---|---|---|---|---|---|---|
| src/tdengine_mcp_server/server.py:171 | `{stable_name: bool(result)}` tests the truthiness of the five-key response dictionary, which is always true | a driver reply to `SHOW STABLES LIKE 'x'` with `data == []` gives `{"x": True}` | the stable exists when the LIKE query returned at least one row: `{"x": False}` here | not executed | Tools.TableExistsAsWrittenAlwaysTrue | Tools.TableExists |
