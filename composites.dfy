/**
 * The two composite tools of server.py, `comprehensive_stable_analysis` and
 * `time_series_dashboard_data`, which call the other tools in a fixed order and collect
 * their results. The wall clock becomes the two parameters `startStr` and `endStr`.
 */
module Composites {
  import opened Wrappers
  import opened Client
  import opened Queries
  import opened Tools

  // ---- comprehensive_stable_analysis ----

  /** `{"columns": data, "column_count": len(data)}` and its siblings. */
  datatype Listing = Listing(rows: seq<Row>, count: nat)

  function ListingOf(resp: Response): Listing {
    Listing(resp.data, |resp.data|)
  }

  datatype RecentActivity = RecentActivity(daysAnalyzed: int, timeRange: string, recentRecordCount: Value)

  datatype TagDistribution = TagDistribution(tagName: Value, uniqueValues: seq<Row>, uniqueCount: nat)

  datatype AnalysisStatus = Completed | Failed(error: string)

  /** The analysis dictionary: a section is present once its step has run. */
  datatype Analysis = Analysis(
    stableName: string,
    databaseName: string,
    schema: Option<Listing>,
    tags: Option<Result<Listing, string>>,
    performance: Option<PerformanceReport>,
    statistics: Option<Response>,
    dataIntegrity: Option<IntegrityReport>,
    sampleData: Option<Result<Listing, string>>,
    recentActivity: Option<Result<RecentActivity, string>>,
    tagDistribution: Option<Result<TagDistribution, string>>,
    status: AnalysisStatus)

  const TagInfoPrefix: string := "Could not retrieve tag info: "
  const SampleDataPrefix: string := "Could not retrieve sample data: "
  const RecentActivityPrefix: string := "Could not analyze recent activity: "
  const TagDistributionPrefix: string := "Could not analyze tag distribution: "

  /** A listing step whose failure is caught and recorded, with its prefix, in its own section. */
  function ListingSection(prefix: string, r: Result<Response, Error>): Result<Listing, string> {
    match r
    case Ok(resp) => Ok(ListingOf(resp))
    case Err(e) => Err(prefix + ErrorText(e))
  }

  function RecentCountSql(db: string, stableName: string, startStr: string, endStr: string): (r: string)
    ensures WellFormed(r)
  {
    SelectStmt("COUNT(*) as recent_count FROM " + db + "." + stableName + " WHERE ts >= '" + startStr
               + "' AND ts <= '" + endStr + "';")
  }

  /** The analysis before any step has run. */
  function Fresh(stableName: string, db: string): Analysis {
    Analysis(stableName, db, None, None, None, None, None, None, None, None, Completed)
  }

  /** Steps 3 to 5 given what each returns and sends: performance, statistics, integrity,
      the first failure ending the analysis with the sections already filled. */
  function ChecksOf(a: Analysis, perf: Trace<Result<PerformanceReport, Error>>, stats: Trace<Result<Response, Error>>,
                    integrity: Trace<Result<IntegrityReport, Error>>): Trace<Analysis>
  {
    if perf.value.Err? then Trace(a.(status := Failed(ErrorText(perf.value.error))), perf.sent)
    else
      var a := a.(performance := Some(perf.value.value));
      if stats.value.Err? then Trace(a.(status := Failed(ErrorText(stats.value.error))), perf.sent + stats.sent)
      else
        var a := a.(statistics := Some(stats.value.value));
        var sent := perf.sent + stats.sent;
        if integrity.value.Err? then Trace(a.(status := Failed(ErrorText(integrity.value.error))), sent + integrity.sent)
        else Trace(a.(dataIntegrity := Some(integrity.value.value)), sent + integrity.sent)
  }

  /** Steps 1 to 5 given what each step returns and sends: schema, tags (caught), then the
      three checks. Any failure other than the tags' ends the analysis as failed, keeping
      the sections already filled and sending nothing more. */
  function CoreOf(a: Analysis, schema: Trace<Result<Response, Error>>, tags: Trace<Result<Response, Error>>,
                  perf: Trace<Result<PerformanceReport, Error>>, stats: Trace<Result<Response, Error>>,
                  integrity: Trace<Result<IntegrityReport, Error>>): Trace<Analysis>
  {
    if schema.value.Err? then Trace(a.(status := Failed(ErrorText(schema.value.error))), schema.sent)
    else
      var a := a.(schema := Some(ListingOf(schema.value.value)), tags := Some(ListingSection(TagInfoPrefix, tags.value)));
      var checks := ChecksOf(a, perf, stats, integrity);
      Trace(checks.value, schema.sent + tags.sent + checks.sent)
  }

  /** Steps 1 to 5 of the analysis of `stableName` in `db`. */
  function AnalysisCore(configured: string, reply: Oracle, db: string, stableName: string): Trace<Analysis> {
    CoreOf(Fresh(stableName, db),
           Asked(reply, FieldInfosSql(db, stableName)),
           Asked(reply, TagInfosSql(db, stableName)),
           PerformanceRun(configured, reply, Some(db), Some(stableName)),
           Asked(reply, TableStatsSql(db, Some(stableName), None)),
           IntegrityRun(configured, reply, Some(db), stableName, true, false))
  }

  /** Step 6, when sample data is asked for: the five latest rows, failure caught. */
  function SampleSection(configured: string, reply: Oracle, db: string, stableName: string, includeSample: bool)
    : Trace<Option<Result<Listing, string>>>
  {
    if !includeSample then Trace(None, [])
    else
      var latest := LatestDataRun(configured, reply, Some(db), Some(stableName), None, 5);
      Trace(Some(ListingSection(SampleDataPrefix, latest.value)), latest.sent)
  }

  /** Step 7, for a positive number of days: the row count between the two clock readings,
      failure (of the query or of its first cell) caught. */
  function RecentSection(reply: Oracle, db: string, stableName: string, daysBack: Option<int>, startStr: string, endStr: string)
    : Trace<Option<Result<RecentActivity, string>>>
  {
    if !(GivenInt(daysBack) && daysBack.value > 0) then Trace(None, [])
    else
      var q := Asked(reply, RecentCountSql(db, stableName, startStr, endStr));
      var section :=
        match q.value
        case Err(e) => Err(RecentActivityPrefix + ErrorText(e))
        case Ok(resp) =>
          match FirstCell(resp.data)
          case Err(e) => Err(RecentActivityPrefix + ErrorText(e))
          case Ok(v) => Ok(RecentActivity(daysBack.value, startStr + " to " + endStr, v));
      Trace(Some(section), q.sent)
  }

  /** Step 8, when the tag section holds at least one row: the distinct values of the
      first tag (the first cell of that row), at most twenty, failure caught. */
  function TagDistributionSection(reply: Oracle, db: string, stableName: string, tags: Option<Result<Listing, string>>)
    : Trace<Option<Result<TagDistribution, string>>>
  {
    if !(tags.Some? && tags.value.Ok? && tags.value.value.rows != []) then Trace(None, [])
    else
      var rows := tags.value.value.rows;
      if rows[0] == [] then Trace(Some(Err(TagDistributionPrefix + ErrorText(IndexOutOfRange))), [])
      else
        var firstTag := rows[0][0];
        var q := Asked(reply, TagValuesSql(db, stableName, Show(firstTag), Some(20)));
        match q.value
        case Err(e) => Trace(Some(Err(TagDistributionPrefix + ErrorText(e))), q.sent)
        case Ok(resp) => Trace(Some(Ok(TagDistribution(firstTag, resp.data, |resp.data|))), q.sent)
  }

  /** Steps 6 to 8 given what each returns and sends; a failed core is returned as it is. */
  function ExtrasOf(core: Trace<Analysis>, sample: Trace<Option<Result<Listing, string>>>,
                    recent: Trace<Option<Result<RecentActivity, string>>>,
                    dist: Trace<Option<Result<TagDistribution, string>>>): Trace<Analysis>
  {
    if core.value.status.Failed? then core
    else Trace(core.value.(sampleData := sample.value, recentActivity := recent.value, tagDistribution := dist.value),
               core.sent + sample.sent + recent.sent + dist.sent)
  }

  /** `comprehensive_stable_analysis`: the core steps, then, if none of them failed, the
      three optional steps, whose failures are all caught. */
  function ComprehensiveRun(configured: string, reply: Oracle, dbName: Option<string>, stableName: string,
                            includeSample: bool, daysBack: Option<int>, startStr: string, endStr: string): Trace<Analysis>
  {
    var db := ResolveDb(configured, dbName);
    var core := AnalysisCore(configured, reply, db, stableName);
    ExtrasOf(core, SampleSection(configured, reply, db, stableName, includeSample),
             RecentSection(reply, db, stableName, daysBack, startStr, endStr),
             TagDistributionSection(reply, db, stableName, core.value.tags))
  }

  /** `p` is the beginning of `s`. */
  predicate PrefixOf(p: seq<string>, s: seq<string>) {
    |p| <= |s| && s[..|p|] == p
  }

  /** The core sections of `r` as the five core steps leave them: each section is filled,
      with its step's value, exactly when its step and every core step before it succeeded
      (the tag section, whose failure is caught, once the schema step succeeded); the
      status names the first failing step's error, and is completed when none failed. */
  predicate CoreReflects(r: Analysis, schema: Result<Response, Error>, tags: Result<Response, Error>,
                         perf: Result<PerformanceReport, Error>, stats: Result<Response, Error>,
                         integrity: Result<IntegrityReport, Error>)
  {
    && r.schema == (if schema.Ok? then Some(ListingOf(schema.value)) else None)
    && r.tags == (if schema.Ok? then Some(ListingSection(TagInfoPrefix, tags)) else None)
    && r.performance == (if schema.Ok? && perf.Ok? then Some(perf.value) else None)
    && r.statistics == (if schema.Ok? && perf.Ok? && stats.Ok? then Some(stats.value) else None)
    && r.dataIntegrity == (if schema.Ok? && perf.Ok? && stats.Ok? && integrity.Ok? then Some(integrity.value) else None)
    && (schema.Err? ==> r.status == Failed(ErrorText(schema.error)))
    && (schema.Ok? && perf.Err? ==> r.status == Failed(ErrorText(perf.error)))
    && (schema.Ok? && perf.Ok? && stats.Err? ==> r.status == Failed(ErrorText(stats.error)))
    && (schema.Ok? && perf.Ok? && stats.Ok? && integrity.Err? ==> r.status == Failed(ErrorText(integrity.error)))
    && (schema.Ok? && perf.Ok? && stats.Ok? && integrity.Ok? ==> r.status == Completed)
  }

  /** How the core steps combine, whatever each of them returns, starting from an analysis
      with no core section filled. */
  lemma CoreOfOutcome(a: Analysis, schema: Trace<Result<Response, Error>>, tags: Trace<Result<Response, Error>>,
                      perf: Trace<Result<PerformanceReport, Error>>, stats: Trace<Result<Response, Error>>,
                      integrity: Trace<Result<IntegrityReport, Error>>)
    requires a.status.Completed? && a.schema.None? && a.tags.None?
    requires a.performance.None? && a.statistics.None? && a.dataIntegrity.None?
    ensures var run := CoreOf(a, schema, tags, perf, stats, integrity);
            && CoreReflects(run.value, schema.value, tags.value, perf.value, stats.value, integrity.value)
            && (run.value.status.Failed? <==>
                  schema.value.Err? || perf.value.Err? || stats.value.Err? || integrity.value.Err?)
            && run.value.stableName == a.stableName && run.value.databaseName == a.databaseName
            && (schema.value.Ok? ==> PrefixOf(schema.sent + tags.sent, run.sent))
            && (schema.value.Err? ==> run.sent == schema.sent)
            && run.value.sampleData == a.sampleData && run.value.recentActivity == a.recentActivity
            && run.value.tagDistribution == a.tagDistribution
  {
  }

  /** How the optional steps combine: a completed core takes their three sections and
      sends their statements after its own; the names, the core sections and the status
      are the core's. */
  lemma ExtrasOfOutcome(core: Trace<Analysis>, sample: Trace<Option<Result<Listing, string>>>,
                        recent: Trace<Option<Result<RecentActivity, string>>>,
                        dist: Trace<Option<Result<TagDistribution, string>>>)
    ensures var run := ExtrasOf(core, sample, recent, dist);
            && run.value.status == core.value.status
            && run.value.stableName == core.value.stableName && run.value.databaseName == core.value.databaseName
            && run.value.schema == core.value.schema && run.value.tags == core.value.tags
            && run.value.performance == core.value.performance && run.value.statistics == core.value.statistics
            && run.value.dataIntegrity == core.value.dataIntegrity
            && PrefixOf(core.sent, run.sent)
            && (core.value.status.Completed? ==>
                  run.value.sampleData == sample.value && run.value.recentActivity == recent.value
                  && run.value.tagDistribution == dist.value)
            && (core.value.status.Failed? ==> run == core)
  {
  }

  /** Each optional section is present exactly when its condition holds. */
  lemma SectionsPresent(configured: string, reply: Oracle, db: string, stableName: string, includeSample: bool,
                        daysBack: Option<int>, startStr: string, endStr: string, tags: Option<Result<Listing, string>>)
    ensures SampleSection(configured, reply, db, stableName, includeSample).value.Some? <==> includeSample
    ensures RecentSection(reply, db, stableName, daysBack, startStr, endStr).value.Some?
            <==> GivenInt(daysBack) && daysBack.value > 0
    ensures TagDistributionSection(reply, db, stableName, tags).value.Some?
            <==> tags.Some? && tags.value.Ok? && tags.value.value.rows != []
  {
  }

  /** The analysis fails exactly when the schema, performance, statistics or integrity step
      fails; the tag, sample, recent-activity and tag-distribution steps never fail it. */
  lemma ComprehensiveFailsOnlyInCoreSteps(configured: string, reply: Oracle, dbName: Option<string>, stableName: string,
                                          includeSample: bool, daysBack: Option<int>, startStr: string, endStr: string)
    ensures var db := ResolveDb(configured, dbName);
            var run := ComprehensiveRun(configured, reply, dbName, stableName, includeSample, daysBack, startStr, endStr);
            run.value.status.Failed? <==>
              || Answer(reply, FieldInfosSql(db, stableName)).Err?
              || PerformanceRun(configured, reply, Some(db), Some(stableName)).value.Err?
              || Answer(reply, TableStatsSql(db, Some(stableName), None)).Err?
              || IntegrityRun(configured, reply, Some(db), stableName, true, false).value.Err?
  {
    var db := ResolveDb(configured, dbName);
    CoreOfOutcome(Fresh(stableName, db), Asked(reply, FieldInfosSql(db, stableName)), Asked(reply, TagInfosSql(db, stableName)),
                  PerformanceRun(configured, reply, Some(db), Some(stableName)), Asked(reply, TableStatsSql(db, Some(stableName), None)),
                  IntegrityRun(configured, reply, Some(db), stableName, true, false));
  }

  /** What a failed or completed analysis keeps: the names always; each core section,
      with its step's value, exactly when that step and the core steps before it succeeded
      (an error of the tag step recorded with its prefix); the first failing core step's
      error as its status; none of the optional sections after a failure. */
  lemma ComprehensiveKeepsSections(configured: string, reply: Oracle, dbName: Option<string>, stableName: string,
                                   includeSample: bool, daysBack: Option<int>, startStr: string, endStr: string)
    ensures var db := ResolveDb(configured, dbName);
            var run := ComprehensiveRun(configured, reply, dbName, stableName, includeSample, daysBack, startStr, endStr).value;
            && run.stableName == stableName && run.databaseName == db
            && CoreReflects(run, Answer(reply, FieldInfosSql(db, stableName)), Answer(reply, TagInfosSql(db, stableName)),
                            PerformanceRun(configured, reply, Some(db), Some(stableName)).value,
                            Answer(reply, TableStatsSql(db, Some(stableName), None)),
                            IntegrityRun(configured, reply, Some(db), stableName, true, false).value)
            && (run.status.Failed? ==> run.sampleData.None? && run.recentActivity.None? && run.tagDistribution.None?)
  {
    var db := ResolveDb(configured, dbName);
    CoreOfOutcome(Fresh(stableName, db), Asked(reply, FieldInfosSql(db, stableName)), Asked(reply, TagInfosSql(db, stableName)),
                  PerformanceRun(configured, reply, Some(db), Some(stableName)), Asked(reply, TableStatsSql(db, Some(stableName), None)),
                  IntegrityRun(configured, reply, Some(db), stableName, true, false));
    var core := AnalysisCore(configured, reply, db, stableName);
    ExtrasOfOutcome(core, SampleSection(configured, reply, db, stableName, includeSample),
                    RecentSection(reply, db, stableName, daysBack, startStr, endStr),
                    TagDistributionSection(reply, db, stableName, core.value.tags));
  }

  /** In a completed analysis each optional section is present exactly when its condition
      holds: sample data when asked for, recent activity for a positive number of days,
      the tag distribution when the tag query returned at least one row. */
  lemma ComprehensiveOptionalSections(configured: string, reply: Oracle, dbName: Option<string>, stableName: string,
                                      includeSample: bool, daysBack: Option<int>, startStr: string, endStr: string)
    ensures var db := ResolveDb(configured, dbName);
            var run := ComprehensiveRun(configured, reply, dbName, stableName, includeSample, daysBack, startStr, endStr).value;
            var tags := Answer(reply, TagInfosSql(db, stableName));
            run.status.Completed? ==>
              && (run.sampleData.Some? <==> includeSample)
              && (run.recentActivity.Some? <==> GivenInt(daysBack) && daysBack.value > 0)
              && (run.tagDistribution.Some? <==> tags.Ok? && tags.value.data != [])
  {
    var db := ResolveDb(configured, dbName);
    var schema, tags := Asked(reply, FieldInfosSql(db, stableName)), Asked(reply, TagInfosSql(db, stableName));
    CoreOfOutcome(Fresh(stableName, db), schema, tags,
                  PerformanceRun(configured, reply, Some(db), Some(stableName)), Asked(reply, TableStatsSql(db, Some(stableName), None)),
                  IntegrityRun(configured, reply, Some(db), stableName, true, false));
    var core := AnalysisCore(configured, reply, db, stableName);
    SectionsPresent(configured, reply, db, stableName, includeSample, daysBack, startStr, endStr, core.value.tags);
    ExtrasOfOutcome(core, SampleSection(configured, reply, db, stableName, includeSample),
                    RecentSection(reply, db, stableName, daysBack, startStr, endStr),
                    TagDistributionSection(reply, db, stableName, core.value.tags));
  }

  /** Whatever the steps return, the schema statement goes first and, once the schema
      step has succeeded, the tag statement second. */
  lemma StepsStartWithSchema(a: Analysis, schema: Trace<Result<Response, Error>>, tags: Trace<Result<Response, Error>>,
                             perf: Trace<Result<PerformanceReport, Error>>, stats: Trace<Result<Response, Error>>,
                             integrity: Trace<Result<IntegrityReport, Error>>, sample: Trace<Option<Result<Listing, string>>>,
                             recent: Trace<Option<Result<RecentActivity, string>>>,
                             dist: Trace<Option<Result<TagDistribution, string>>>, first: string, second: string)
    requires a.status.Completed? && a.schema.None? && a.tags.None?
    requires a.performance.None? && a.statistics.None? && a.dataIntegrity.None?
    requires schema.sent == [first] && tags.sent == [second]
    ensures var run := ExtrasOf(CoreOf(a, schema, tags, perf, stats, integrity), sample, recent, dist);
            && |run.sent| >= 1 && run.sent[0] == first
            && (schema.value.Ok? ==> |run.sent| >= 2 && run.sent[1] == second)
  {
    var core := CoreOf(a, schema, tags, perf, stats, integrity);
    CoreOfOutcome(a, schema, tags, perf, stats, integrity);
    ExtrasOfOutcome(core, sample, recent, dist);
    var run := ExtrasOf(core, sample, recent, dist);
    if schema.value.Ok? {
      PrefixTransitive(schema.sent + tags.sent, core.sent, run.sent);
      assert run.sent[..2] == [first, second];
    } else {
      assert run.sent[..1] == [first];
    }
  }

  lemma PrefixTransitive(p: seq<string>, q: seq<string>, s: seq<string>)
    requires PrefixOf(p, q) && PrefixOf(q, s)
    ensures PrefixOf(p, s)
  {
    assert s[..|p|] == s[..|q|][..|p|];
  }

  /** The schema statement goes first and, once it has succeeded, the tag statement second. */
  lemma ComprehensiveStartsWithSchema(configured: string, reply: Oracle, dbName: Option<string>, stableName: string,
                                      includeSample: bool, daysBack: Option<int>, startStr: string, endStr: string)
    ensures var db := ResolveDb(configured, dbName);
            var run := ComprehensiveRun(configured, reply, dbName, stableName, includeSample, daysBack, startStr, endStr);
            && |run.sent| >= 1 && run.sent[0] == FieldInfosSql(db, stableName)
            && (Answer(reply, FieldInfosSql(db, stableName)).Ok? ==> |run.sent| >= 2 && run.sent[1] == TagInfosSql(db, stableName))
  {
    var db := ResolveDb(configured, dbName);
    var core := AnalysisCore(configured, reply, db, stableName);
    StepsStartWithSchema(Fresh(stableName, db), Asked(reply, FieldInfosSql(db, stableName)), Asked(reply, TagInfosSql(db, stableName)),
                         PerformanceRun(configured, reply, Some(db), Some(stableName)), Asked(reply, TableStatsSql(db, Some(stableName), None)),
                         IntegrityRun(configured, reply, Some(db), stableName, true, false),
                         SampleSection(configured, reply, db, stableName, includeSample),
                         RecentSection(reply, db, stableName, daysBack, startStr, endStr),
                         TagDistributionSection(reply, db, stableName, core.value.tags),
                         FieldInfosSql(db, stableName), TagInfosSql(db, stableName));
  }

  /** Steps 3 to 5. */
  method ChecksSteps(taos: TaosClient, db: string, stableName: string, a0: Analysis) returns (a: Analysis)
    requires ResolveDb(taos.database, Some(db)) == db
    modifies taos.conn
    ensures var run := ChecksOf(a0, PerformanceRun(taos.database, taos.conn.reply, Some(db), Some(stableName)),
                                Asked(taos.conn.reply, TableStatsSql(db, Some(stableName), None)),
                                IntegrityRun(taos.database, taos.conn.reply, Some(db), stableName, true, false));
            a == run.value && taos.conn.received == old(taos.conn.received) + run.sent
  {
    ghost var reply, start := taos.conn.reply, taos.conn.received;
    ghost var perfT := PerformanceRun(taos.database, reply, Some(db), Some(stableName));
    ghost var statsT := Asked(reply, TableStatsSql(db, Some(stableName), None));
    ghost var integrityT := IntegrityRun(taos.database, reply, Some(db), stableName, true, false);
    Regroup(start, perfT.sent, statsT.sent, integrityT.sent, []);
    a := a0;
    var performance := AnalyzePerformance(taos, Some(db), Some(stableName));
    if performance.Err? {
      return a.(status := Failed(ErrorText(performance.error)));
    }
    a := a.(performance := Some(performance.value));
    var stats := GetTableStats(taos, Some(db), Some(stableName), None);
    if stats.Err? {
      return a.(status := Failed(ErrorText(stats.error)));
    }
    a := a.(statistics := Some(stats.value));
    var integrity := CheckDataIntegrity(taos, Some(db), stableName, true, false);
    if integrity.Err? {
      return a.(status := Failed(ErrorText(integrity.error)));
    }
    a := a.(dataIntegrity := Some(integrity.value));
  }

  /** Steps 1 to 5. */
  method CoreSteps(taos: TaosClient, db: string, stableName: string) returns (a: Analysis)
    requires ResolveDb(taos.database, Some(db)) == db
    modifies taos.conn
    ensures var run := AnalysisCore(taos.database, taos.conn.reply, db, stableName);
            a == run.value && taos.conn.received == old(taos.conn.received) + run.sent
  {
    ghost var reply, start := taos.conn.reply, taos.conn.received;
    ghost var schemaT := Asked(reply, FieldInfosSql(db, stableName));
    ghost var tagsT := Asked(reply, TagInfosSql(db, stableName));
    a := Fresh(stableName, db);
    var schemaInfo := GetFieldInfos(taos, Some(db), stableName);
    if schemaInfo.Err? {
      return a.(status := Failed(ErrorText(schemaInfo.error)));
    }
    a := a.(schema := Some(ListingOf(schemaInfo.value)));
    var tagInfo := GetTagInfos(taos, Some(db), stableName);
    a := a.(tags := Some(ListingSection(TagInfoPrefix, tagInfo)));
    ghost var checksT := ChecksOf(a, PerformanceRun(taos.database, reply, Some(db), Some(stableName)),
                                  Asked(reply, TableStatsSql(db, Some(stableName), None)),
                                  IntegrityRun(taos.database, reply, Some(db), stableName, true, false));
    a := ChecksSteps(taos, db, stableName, a);
    Regroup(start, schemaT.sent, tagsT.sent, checksT.sent, []);
  }

  method SampleStep(taos: TaosClient, db: string, stableName: string, includeSample: bool)
    returns (section: Option<Result<Listing, string>>)
    modifies taos.conn
    ensures var run := SampleSection(taos.database, taos.conn.reply, db, stableName, includeSample);
            section == run.value && taos.conn.received == old(taos.conn.received) + run.sent
  {
    section := None;
    if includeSample {
      var latestData := GetLatestData(taos, Some(db), Some(stableName), None, 5);
      section := Some(ListingSection(SampleDataPrefix, latestData));
    }
  }

  method RecentStep(taos: TaosClient, db: string, stableName: string, daysBack: Option<int>, startStr: string, endStr: string)
    returns (section: Option<Result<RecentActivity, string>>)
    modifies taos.conn
    ensures var run := RecentSection(taos.conn.reply, db, stableName, daysBack, startStr, endStr);
            section == run.value && taos.conn.received == old(taos.conn.received) + run.sent
  {
    section := None;
    if GivenInt(daysBack) && daysBack.value > 0 {
      var recentResult := taos.Query(RecentCountSql(db, stableName, startStr, endStr));
      if recentResult.Err? {
        return Some(Err(RecentActivityPrefix + ErrorText(recentResult.error)));
      }
      var recentCount := FirstCell(recentResult.value.data);
      if recentCount.Err? {
        return Some(Err(RecentActivityPrefix + ErrorText(recentCount.error)));
      }
      section := Some(Ok(RecentActivity(daysBack.value, startStr + " to " + endStr, recentCount.value)));
    }
  }

  method TagDistributionStep(taos: TaosClient, db: string, stableName: string, tags: Option<Result<Listing, string>>)
    returns (section: Option<Result<TagDistribution, string>>)
    requires ResolveDb(taos.database, Some(db)) == db
    modifies taos.conn
    ensures var run := TagDistributionSection(taos.conn.reply, db, stableName, tags);
            section == run.value && taos.conn.received == old(taos.conn.received) + run.sent
  {
    section := None;
    if tags.Some? && tags.value.Ok? && tags.value.value.rows != [] {
      var tagColumns := tags.value.value.rows;
      if tagColumns[0] == [] {
        return Some(Err(TagDistributionPrefix + ErrorText(IndexOutOfRange)));
      }
      var firstTag := tagColumns[0][0];
      var tagValues := GetTagValues(taos, Some(db), stableName, Show(firstTag), Some(20));
      match tagValues
      case Err(e) => section := Some(Err(TagDistributionPrefix + ErrorText(e)));
      case Ok(resp) => section := Some(Ok(TagDistribution(firstTag, resp.data, |resp.data|)));
    }
  }

  method ComprehensiveStableAnalysis(taos: TaosClient, dbName: Option<string>, stableName: string,
                                     includeSample: bool, daysBack: Option<int>, startStr: string, endStr: string)
    returns (a: Analysis)
    modifies taos.conn
    ensures var run := ComprehensiveRun(taos.database, taos.conn.reply, dbName, stableName, includeSample, daysBack, startStr, endStr);
            a == run.value && taos.conn.received == old(taos.conn.received) + run.sent
  {
    var db := ResolveDb(taos.database, dbName);
    ResolveDbIdempotent(taos.database, dbName);
    ghost var reply, start := taos.conn.reply, taos.conn.received;
    ghost var core := AnalysisCore(taos.database, reply, db, stableName);
    a := CoreSteps(taos, db, stableName);
    if a.status.Failed? {
      return;
    }
    ghost var sampleT := SampleSection(taos.database, reply, db, stableName, includeSample);
    ghost var recentT := RecentSection(reply, db, stableName, daysBack, startStr, endStr);
    ghost var distT := TagDistributionSection(reply, db, stableName, core.value.tags);
    var sample := SampleStep(taos, db, stableName, includeSample);
    var recent := RecentStep(taos, db, stableName, daysBack, startStr, endStr);
    var dist := TagDistributionStep(taos, db, stableName, a.tags);
    Regroup(start, core.sent, sampleT.sent, recentT.sent, distT.sent);
    a := a.(sampleData := sample, recentActivity := recent, tagDistribution := dist);
  }

  // ---- time_series_dashboard_data ----

  datatype OverallStatistics = OverallStatistics(average: Response, count: Response)

  datatype DashboardStatus = Success | Failure(error: string)

  /** The dashboard dictionary: a section is present once its step has succeeded. */
  datatype Dashboard = Dashboard(
    stableName: string,
    metricColumn: string,
    timeRange: string,
    interval: string,
    groupByTag: Option<string>,
    avgTimeSeries: Option<Response>,
    maxTimeSeries: Option<Response>,
    minTimeSeries: Option<Response>,
    overallStatistics: Option<OverallStatistics>,
    latestValue: Option<Response>,
    tagDistribution: Option<Response>,
    status: DashboardStatus)

  type Step = Trace<Result<Response, Error>>

  /** The dashboard ended by the failure of a step. */
  function Failing(d: Dashboard, e: Error): Dashboard {
    d.(status := Failure(ErrorText(e)))
  }

  /** Step 1 given what each query returns and sends: windowed average, maximum and
      minimum, the first failure ending the dashboard. */
  function SeriesOf(d: Dashboard, avg: Step, max: Step, min: Step): Trace<Dashboard> {
    if avg.value.Err? then Trace(Failing(d, avg.value.error), avg.sent)
    else
      var d := d.(avgTimeSeries := Some(avg.value.value));
      if max.value.Err? then Trace(Failing(d, max.value.error), avg.sent + max.sent)
      else
        var d := d.(maxTimeSeries := Some(max.value.value));
        if min.value.Err? then Trace(Failing(d, min.value.error), avg.sent + max.sent + min.sent)
        else Trace(d.(minTimeSeries := Some(min.value.value)), avg.sent + max.sent + min.sent)
  }

  /** Steps 2 and 3 given what each query returns and sends: overall average and count
      (recorded together, after both), then the latest row. */
  function OverallOf(d: Dashboard, average: Step, count: Step, latest: Step): Trace<Dashboard> {
    if average.value.Err? then Trace(Failing(d, average.value.error), average.sent)
    else if count.value.Err? then Trace(Failing(d, count.value.error), average.sent + count.sent)
    else
      var d := d.(overallStatistics := Some(OverallStatistics(average.value.value, count.value.value)));
      if latest.value.Err? then Trace(Failing(d, latest.value.error), average.sent + count.sent + latest.sent)
      else Trace(d.(latestValue := Some(latest.value.value)), average.sent + count.sent + latest.sent)
  }

  /** Step 4, only when grouping by a tag: the tag's distinct values. */
  function TagValuesOf(d: Dashboard, grouped: bool, values: Step): Trace<Dashboard> {
    if !grouped then Trace(d, [])
    else if values.value.Err? then Trace(Failing(d, values.value.error), values.sent)
    else Trace(d.(tagDistribution := Some(values.value.value)), values.sent)
  }

  /** The whole dashboard given what each query returns and sends. */
  function DashboardOf(d: Dashboard, grouped: bool, avg: Step, max: Step, min: Step,
                       average: Step, count: Step, latest: Step, values: Step): Trace<Dashboard>
  {
    var series := SeriesOf(d, avg, max, min);
    if series.value.status.Failure? then series
    else
      var overall := OverallOf(series.value, average, count, latest);
      if overall.value.status.Failure? then Trace(overall.value, series.sent + overall.sent)
      else
        var tagValues := TagValuesOf(overall.value, grouped, values);
        Trace(tagValues.value, series.sent + overall.sent + tagValues.sent)
  }

  /** One aggregate of the dashboard, over the stable, between the two clock readings. */
  function Series(configured: string, reply: Oracle, db: string, stableName: string, aggFunction: string, metricColumn: string,
                  interval: Option<string>, tags: Option<seq<string>>, startStr: string, endStr: string): Step
  {
    AggregateRun(configured, reply, Some(db), Some(stableName), None, aggFunction, metricColumn, interval, tags,
                 Some(startStr), Some(endStr))
  }

  /** The interval text, `f"{interval_minutes}m"`. */
  function IntervalText(intervalMinutes: int): string {
    IntToString(intervalMinutes) + "m"
  }

  /** `[group_by_tag] if group_by_tag else None`. */
  function GroupTags(groupByTag: Option<string>): Option<seq<string>> {
    if Given(groupByTag) then Some([groupByTag.value]) else None
  }

  /** The dashboard before any query has run. */
  function EmptyDashboard(stableName: string, metricColumn: string, intervalMinutes: int, groupByTag: Option<string>,
                          startStr: string, endStr: string): Dashboard
  {
    Dashboard(stableName, metricColumn, startStr + " to " + endStr, IntervalText(intervalMinutes), groupByTag,
              None, None, None, None, None, None, Success)
  }

  /** The tag-values query of step 4 (sent only when grouping by a tag). */
  function TagValuesStep(reply: Oracle, db: string, stableName: string, groupByTag: Option<string>): Step {
    Asked(reply, TagValuesSql(db, stableName, groupByTag.GetOr(""), Some(50)))
  }

  /** `time_series_dashboard_data`. */
  function DashboardRun(configured: string, reply: Oracle, dbName: Option<string>, stableName: string, metricColumn: string,
                        intervalMinutes: int, groupByTag: Option<string>, startStr: string, endStr: string): Trace<Dashboard>
  {
    var db := ResolveDb(configured, dbName);
    var window, tags := Some(IntervalText(intervalMinutes)), GroupTags(groupByTag);
    DashboardOf(EmptyDashboard(stableName, metricColumn, intervalMinutes, groupByTag, startStr, endStr), Given(groupByTag),
                Series(configured, reply, db, stableName, "avg", metricColumn, window, tags, startStr, endStr),
                Series(configured, reply, db, stableName, "max", metricColumn, window, tags, startStr, endStr),
                Series(configured, reply, db, stableName, "min", metricColumn, window, tags, startStr, endStr),
                Series(configured, reply, db, stableName, "avg", metricColumn, None, tags, startStr, endStr),
                Series(configured, reply, db, stableName, "count", metricColumn, None, tags, startStr, endStr),
                LatestDataRun(configured, reply, Some(db), Some(stableName), None, 1),
                TagValuesStep(reply, db, stableName, groupByTag))
  }

  /** Whatever each query returns, the dashboard succeeds exactly when every query
      succeeds, the tag values only counting when grouping. */
  lemma DashboardOfStatus(d: Dashboard, grouped: bool, avg: Step, max: Step, min: Step,
                          average: Step, count: Step, latest: Step, values: Step)
    requires d.status.Success?
    ensures DashboardOf(d, grouped, avg, max, min, average, count, latest, values).value.status.Success? <==>
              avg.value.Ok? && max.value.Ok? && min.value.Ok? && average.value.Ok? && count.value.Ok?
              && latest.value.Ok? && (grouped ==> values.value.Ok?)
  {
  }

  /** The sections of `r` as the dashboard's queries leave them: each section is filled,
      with its query's answer, exactly when its query and every one before it succeeded (the
      overall statistics once both the average and the count did, the tag values only when
      grouping); the status names the first failing query's error, and is a success when
      none failed. */
  predicate DashboardReflects(r: Dashboard, grouped: bool, avg: Result<Response, Error>, max: Result<Response, Error>,
                              min: Result<Response, Error>, average: Result<Response, Error>,
                              count: Result<Response, Error>, latest: Result<Response, Error>,
                              values: Result<Response, Error>)
  {
    var toMax := avg.Ok?;
    var toMin := toMax && max.Ok?;
    var toOverall := toMin && min.Ok?;
    var toCount := toOverall && average.Ok?;
    var toLatest := toCount && count.Ok?;
    var toValues := toLatest && latest.Ok?;
    && r.avgTimeSeries == (if avg.Ok? then Some(avg.value) else None)
    && r.maxTimeSeries == (if toMin then Some(max.value) else None)
    && r.minTimeSeries == (if toOverall then Some(min.value) else None)
    && r.overallStatistics == (if toLatest then Some(OverallStatistics(average.value, count.value)) else None)
    && r.latestValue == (if toValues then Some(latest.value) else None)
    && r.tagDistribution == (if toValues && grouped && values.Ok? then Some(values.value) else None)
    && (avg.Err? ==> r.status == Failure(ErrorText(avg.error)))
    && (toMax && max.Err? ==> r.status == Failure(ErrorText(max.error)))
    && (toMin && min.Err? ==> r.status == Failure(ErrorText(min.error)))
    && (toOverall && average.Err? ==> r.status == Failure(ErrorText(average.error)))
    && (toCount && count.Err? ==> r.status == Failure(ErrorText(count.error)))
    && (toLatest && latest.Err? ==> r.status == Failure(ErrorText(latest.error)))
    && (toValues && grouped && values.Err? ==> r.status == Failure(ErrorText(values.error)))
    && (toValues && (grouped ==> values.Ok?) ==> r.status == Success)
  }

  /** Whatever each query returns, starting from a dashboard with no section: the headers
      stay as they were, and the sections and status are as the queries leave them. */
  lemma DashboardOfSections(d: Dashboard, grouped: bool, avg: Step, max: Step, min: Step,
                            average: Step, count: Step, latest: Step, values: Step)
    requires d.status.Success? && d.avgTimeSeries.None? && d.maxTimeSeries.None? && d.minTimeSeries.None?
    requires d.overallStatistics.None? && d.latestValue.None? && d.tagDistribution.None?
    ensures var r := DashboardOf(d, grouped, avg, max, min, average, count, latest, values).value;
            && r.(avgTimeSeries := None, maxTimeSeries := None, minTimeSeries := None, overallStatistics := None,
                  latestValue := None, tagDistribution := None, status := Success) == d
            && DashboardReflects(r, grouped, avg.value, max.value, min.value, average.value, count.value,
                                 latest.value, values.value)
  {
  }

  /** Whatever each query returns, the first query's statements go first; a failing first
      query ends the dashboard at once; a success sends every query's statements in order. */
  lemma DashboardOfSent(d: Dashboard, grouped: bool, avg: Step, max: Step, min: Step,
                        average: Step, count: Step, latest: Step, values: Step)
    requires d.status.Success?
    ensures var run := DashboardOf(d, grouped, avg, max, min, average, count, latest, values);
            && PrefixOf(avg.sent, run.sent)
            && (avg.value.Err? ==> run == Trace(Failing(d, avg.value.error), avg.sent))
            && (run.value.status.Success? ==>
                  run.sent == avg.sent + max.sent + min.sent + (average.sent + count.sent + latest.sent)
                              + (if grouped then values.sent else []))
  {
    var series := SeriesOf(d, avg, max, min);
    var run := DashboardOf(d, grouped, avg, max, min, average, count, latest, values);
    PrefixOfAppend(avg.sent, max.sent);
    PrefixOfAppend(avg.sent + max.sent, min.sent);
    PrefixTransitive(avg.sent, avg.sent + max.sent, avg.sent + max.sent + min.sent);
    if series.value.status.Success? {
      PrefixOfAppend(series.sent, run.sent[|series.sent|..]);
      assert run.sent == series.sent + run.sent[|series.sent|..];
      PrefixTransitive(avg.sent, series.sent, run.sent);
    }
  }

  lemma PrefixOfAppend(p: seq<string>, q: seq<string>)
    ensures PrefixOf(p, p + q)
  {
    assert (p + q)[..|p|] == p;
  }

  /** The dashboard succeeds exactly when every one of its queries does: the three windowed
      series, the overall average and count, the latest row, and the tag values when
      grouping by a tag. */
  lemma DashboardSucceedsIffAllQueriesDo(configured: string, reply: Oracle, dbName: Option<string>, stableName: string,
                                         metricColumn: string, intervalMinutes: int, groupByTag: Option<string>,
                                         startStr: string, endStr: string)
    ensures var db := ResolveDb(configured, dbName);
            var window, tags := Some(IntervalText(intervalMinutes)), GroupTags(groupByTag);
            var run := DashboardRun(configured, reply, dbName, stableName, metricColumn, intervalMinutes, groupByTag, startStr, endStr);
            run.value.status.Success? <==>
              && Series(configured, reply, db, stableName, "avg", metricColumn, window, tags, startStr, endStr).value.Ok?
              && Series(configured, reply, db, stableName, "max", metricColumn, window, tags, startStr, endStr).value.Ok?
              && Series(configured, reply, db, stableName, "min", metricColumn, window, tags, startStr, endStr).value.Ok?
              && Series(configured, reply, db, stableName, "avg", metricColumn, None, tags, startStr, endStr).value.Ok?
              && Series(configured, reply, db, stableName, "count", metricColumn, None, tags, startStr, endStr).value.Ok?
              && LatestDataRun(configured, reply, Some(db), Some(stableName), None, 1).value.Ok?
              && (Given(groupByTag) ==> Answer(reply, TagValuesSql(db, stableName, groupByTag.value, Some(50))).Ok?)
  {
    var db := ResolveDb(configured, dbName);
    var window, tags := Some(IntervalText(intervalMinutes)), GroupTags(groupByTag);
    DashboardOfStatus(EmptyDashboard(stableName, metricColumn, intervalMinutes, groupByTag, startStr, endStr), Given(groupByTag),
                       Series(configured, reply, db, stableName, "avg", metricColumn, window, tags, startStr, endStr),
                       Series(configured, reply, db, stableName, "max", metricColumn, window, tags, startStr, endStr),
                       Series(configured, reply, db, stableName, "min", metricColumn, window, tags, startStr, endStr),
                       Series(configured, reply, db, stableName, "avg", metricColumn, None, tags, startStr, endStr),
                       Series(configured, reply, db, stableName, "count", metricColumn, None, tags, startStr, endStr),
                       LatestDataRun(configured, reply, Some(db), Some(stableName), None, 1),
                       TagValuesStep(reply, db, stableName, groupByTag));
  }

  /** A failure keeps the sections gathered before it, with their answers, and none after
      it, and reports the failing query's error; a successful dashboard has every section,
      the tag values exactly when grouping by a tag. */
  lemma DashboardKeepsEarlierSections(configured: string, reply: Oracle, dbName: Option<string>, stableName: string,
                                      metricColumn: string, intervalMinutes: int, groupByTag: Option<string>,
                                      startStr: string, endStr: string)
    ensures var db := ResolveDb(configured, dbName);
            var window, tags := Some(IntervalText(intervalMinutes)), GroupTags(groupByTag);
            var d := DashboardRun(configured, reply, dbName, stableName, metricColumn, intervalMinutes, groupByTag, startStr, endStr).value;
            && d.stableName == stableName && d.metricColumn == metricColumn
            && d.timeRange == startStr + " to " + endStr
            && d.interval == IntervalText(intervalMinutes) && d.groupByTag == groupByTag
            && DashboardReflects(d, Given(groupByTag),
                 Series(configured, reply, db, stableName, "avg", metricColumn, window, tags, startStr, endStr).value,
                 Series(configured, reply, db, stableName, "max", metricColumn, window, tags, startStr, endStr).value,
                 Series(configured, reply, db, stableName, "min", metricColumn, window, tags, startStr, endStr).value,
                 Series(configured, reply, db, stableName, "avg", metricColumn, None, tags, startStr, endStr).value,
                 Series(configured, reply, db, stableName, "count", metricColumn, None, tags, startStr, endStr).value,
                 LatestDataRun(configured, reply, Some(db), Some(stableName), None, 1).value,
                 TagValuesStep(reply, db, stableName, groupByTag).value)
  {
    var db := ResolveDb(configured, dbName);
    var window, tags := Some(IntervalText(intervalMinutes)), GroupTags(groupByTag);
    DashboardOfSections(EmptyDashboard(stableName, metricColumn, intervalMinutes, groupByTag, startStr, endStr), Given(groupByTag),
                       Series(configured, reply, db, stableName, "avg", metricColumn, window, tags, startStr, endStr),
                       Series(configured, reply, db, stableName, "max", metricColumn, window, tags, startStr, endStr),
                       Series(configured, reply, db, stableName, "min", metricColumn, window, tags, startStr, endStr),
                       Series(configured, reply, db, stableName, "avg", metricColumn, None, tags, startStr, endStr),
                       Series(configured, reply, db, stableName, "count", metricColumn, None, tags, startStr, endStr),
                       LatestDataRun(configured, reply, Some(db), Some(stableName), None, 1),
                       TagValuesStep(reply, db, stableName, groupByTag));
  }

  /** Without a stable the first aggregate raises `ValueError`: the dashboard reports that
      error, has no section, and nothing reaches the driver. */
  lemma DashboardWithoutStable(configured: string, reply: Oracle, dbName: Option<string>, metricColumn: string,
                               intervalMinutes: int, groupByTag: Option<string>, startStr: string, endStr: string)
    ensures DashboardRun(configured, reply, dbName, "", metricColumn, intervalMinutes, groupByTag, startStr, endStr)
            == Trace(EmptyDashboard("", metricColumn, intervalMinutes, groupByTag, startStr, endStr)
                       .(status := Failure(MissingTargetMessage)), [])
  {
  }

  /** The first statement of a dashboard with a stable is the windowed average over the
      stable between the two clock readings, partitioned by the tag when one is given. */
  lemma DashboardFirstStatement(configured: string, reply: Oracle, dbName: Option<string>, stableName: string,
                                metricColumn: string, intervalMinutes: int, groupByTag: Option<string>,
                                startStr: string, endStr: string)
    requires stableName != ""
    ensures var db := ResolveDb(configured, dbName);
            var run := DashboardRun(configured, reply, dbName, stableName, metricColumn, intervalMinutes, groupByTag, startStr, endStr);
            PrefixOf([AggregateSql(db + "." + stableName, "avg", metricColumn, Some(IntervalText(intervalMinutes)),
                                   GroupTags(groupByTag), Some(startStr), Some(endStr))], run.sent)
  {
    var db := ResolveDb(configured, dbName);
    var window, tags := Some(IntervalText(intervalMinutes)), GroupTags(groupByTag);
    DashboardOfSent(EmptyDashboard(stableName, metricColumn, intervalMinutes, groupByTag, startStr, endStr), Given(groupByTag),
                       Series(configured, reply, db, stableName, "avg", metricColumn, window, tags, startStr, endStr),
                       Series(configured, reply, db, stableName, "max", metricColumn, window, tags, startStr, endStr),
                       Series(configured, reply, db, stableName, "min", metricColumn, window, tags, startStr, endStr),
                       Series(configured, reply, db, stableName, "avg", metricColumn, None, tags, startStr, endStr),
                       Series(configured, reply, db, stableName, "count", metricColumn, None, tags, startStr, endStr),
                       LatestDataRun(configured, reply, Some(db), Some(stableName), None, 1),
                       TagValuesStep(reply, db, stableName, groupByTag));
  }

  /** Step 1. */
  method SeriesSteps(taos: TaosClient, db: string, stableName: string, metricColumn: string, interval: string,
                     tags: Option<seq<string>>, startStr: string, endStr: string, d0: Dashboard)
    returns (d: Dashboard)
    requires ResolveDb(taos.database, Some(db)) == db
    modifies taos.conn
    ensures var reply := taos.conn.reply;
            var run := SeriesOf(d0, Series(taos.database, reply, db, stableName, "avg", metricColumn, Some(interval), tags, startStr, endStr),
                                Series(taos.database, reply, db, stableName, "max", metricColumn, Some(interval), tags, startStr, endStr),
                                Series(taos.database, reply, db, stableName, "min", metricColumn, Some(interval), tags, startStr, endStr));
            d == run.value && taos.conn.received == old(taos.conn.received) + run.sent
  {
    ghost var reply, start := taos.conn.reply, taos.conn.received;
    ghost var avgT := Series(taos.database, reply, db, stableName, "avg", metricColumn, Some(interval), tags, startStr, endStr);
    ghost var maxT := Series(taos.database, reply, db, stableName, "max", metricColumn, Some(interval), tags, startStr, endStr);
    ghost var minT := Series(taos.database, reply, db, stableName, "min", metricColumn, Some(interval), tags, startStr, endStr);
    Regroup(start, avgT.sent, maxT.sent, minT.sent, []);
    d := d0;
    var avgData := AggregateQuery(taos, Some(db), Some(stableName), None, "avg", metricColumn, Some(interval), tags, Some(startStr), Some(endStr));
    if avgData.Err? {
      return Failing(d, avgData.error);
    }
    d := d.(avgTimeSeries := Some(avgData.value));
    var maxData := AggregateQuery(taos, Some(db), Some(stableName), None, "max", metricColumn, Some(interval), tags, Some(startStr), Some(endStr));
    if maxData.Err? {
      return Failing(d, maxData.error);
    }
    d := d.(maxTimeSeries := Some(maxData.value));
    var minData := AggregateQuery(taos, Some(db), Some(stableName), None, "min", metricColumn, Some(interval), tags, Some(startStr), Some(endStr));
    if minData.Err? {
      return Failing(d, minData.error);
    }
    d := d.(minTimeSeries := Some(minData.value));
  }

  /** Steps 2 and 3: the overall statistics and the latest row. */
  method OverallSteps(taos: TaosClient, db: string, stableName: string, metricColumn: string,
                      tags: Option<seq<string>>, startStr: string, endStr: string, d0: Dashboard)
    returns (d: Dashboard)
    requires ResolveDb(taos.database, Some(db)) == db
    modifies taos.conn
    ensures var reply := taos.conn.reply;
            var run := OverallOf(d0, Series(taos.database, reply, db, stableName, "avg", metricColumn, None, tags, startStr, endStr),
                                 Series(taos.database, reply, db, stableName, "count", metricColumn, None, tags, startStr, endStr),
                                 LatestDataRun(taos.database, reply, Some(db), Some(stableName), None, 1));
            d == run.value && taos.conn.received == old(taos.conn.received) + run.sent
  {
    ghost var reply, start := taos.conn.reply, taos.conn.received;
    ghost var averageT := Series(taos.database, reply, db, stableName, "avg", metricColumn, None, tags, startStr, endStr);
    ghost var countT := Series(taos.database, reply, db, stableName, "count", metricColumn, None, tags, startStr, endStr);
    ghost var latestT := LatestDataRun(taos.database, reply, Some(db), Some(stableName), None, 1);
    Regroup(start, averageT.sent, countT.sent, latestT.sent, []);
    d := d0;
    var overallAvg := AggregateQuery(taos, Some(db), Some(stableName), None, "avg", metricColumn, None, tags, Some(startStr), Some(endStr));
    if overallAvg.Err? {
      return Failing(d, overallAvg.error);
    }
    var overallCount := AggregateQuery(taos, Some(db), Some(stableName), None, "count", metricColumn, None, tags, Some(startStr), Some(endStr));
    if overallCount.Err? {
      return Failing(d, overallCount.error);
    }
    d := d.(overallStatistics := Some(OverallStatistics(overallAvg.value, overallCount.value)));
    var latestData := GetLatestData(taos, Some(db), Some(stableName), None, 1);
    if latestData.Err? {
      return Failing(d, latestData.error);
    }
    d := d.(latestValue := Some(latestData.value));
  }

  /** Step 4. */
  method TagValuesSteps(taos: TaosClient, db: string, stableName: string, groupByTag: Option<string>, d0: Dashboard)
    returns (d: Dashboard)
    requires ResolveDb(taos.database, Some(db)) == db
    modifies taos.conn
    ensures var run := TagValuesOf(d0, Given(groupByTag), TagValuesStep(taos.conn.reply, db, stableName, groupByTag));
            d == run.value && taos.conn.received == old(taos.conn.received) + run.sent
  {
    d := d0;
    if Given(groupByTag) {
      var tagValues := GetTagValues(taos, Some(db), stableName, groupByTag.value, Some(50));
      if tagValues.Err? {
        return Failing(d, tagValues.error);
      }
      d := d.(tagDistribution := Some(tagValues.value));
    }
  }

  method TimeSeriesDashboardData(taos: TaosClient, dbName: Option<string>, stableName: string, metricColumn: string,
                                 intervalMinutes: int, groupByTag: Option<string>, startStr: string, endStr: string)
    returns (d: Dashboard)
    modifies taos.conn
    ensures var run := DashboardRun(taos.database, taos.conn.reply, dbName, stableName, metricColumn, intervalMinutes,
                                    groupByTag, startStr, endStr);
            d == run.value && taos.conn.received == old(taos.conn.received) + run.sent
  {
    var db := ResolveDb(taos.database, dbName);
    ResolveDbIdempotent(taos.database, dbName);
    ghost var reply, start := taos.conn.reply, taos.conn.received;
    var interval, groupByTags := IntervalText(intervalMinutes), GroupTags(groupByTag);
    d := EmptyDashboard(stableName, metricColumn, intervalMinutes, groupByTag, startStr, endStr);
    ghost var seriesT := SeriesOf(d, Series(taos.database, reply, db, stableName, "avg", metricColumn, Some(interval), groupByTags, startStr, endStr),
                                  Series(taos.database, reply, db, stableName, "max", metricColumn, Some(interval), groupByTags, startStr, endStr),
                                  Series(taos.database, reply, db, stableName, "min", metricColumn, Some(interval), groupByTags, startStr, endStr));
    d := SeriesSteps(taos, db, stableName, metricColumn, interval, groupByTags, startStr, endStr, d);
    if d.status.Failure? {
      return;
    }
    ghost var overallT := OverallOf(d, Series(taos.database, reply, db, stableName, "avg", metricColumn, None, groupByTags, startStr, endStr),
                                    Series(taos.database, reply, db, stableName, "count", metricColumn, None, groupByTags, startStr, endStr),
                                    LatestDataRun(taos.database, reply, Some(db), Some(stableName), None, 1));
    d := OverallSteps(taos, db, stableName, metricColumn, groupByTags, startStr, endStr, d);
    Regroup(start, seriesT.sent, overallT.sent, [], []);
    if d.status.Failure? {
      return;
    }
    ghost var valuesT := TagValuesOf(d, Given(groupByTag), TagValuesStep(reply, db, stableName, groupByTag));
    d := TagValuesSteps(taos, db, stableName, groupByTag, d);
    Regroup(start, seriesT.sent, overallT.sent, valuesT.sent, []);
  }
}
