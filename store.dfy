/**
 * The database as the ETL model sees it through its cursor: one object holding the
 * committed state of every table, and the operations of the model that change it.
 * A local `live` copy holds work not yet committed; `conn.commit()` is the assignment
 * of `live` to the committed fields, and a rollback is simply not making it.
 */
module Store {
  import opened Wrappers
  import opened Schema
  import opened Tables
  import opened ColumnNames
  import opened Derive
  import opened Stages
  import opened Pipeline
  import opened Maintenance

  // ---------------------------------------------------------------- loading a CSV batch

  /** A parsed CSV file: its header and its rows, one cell per column. */
  datatype Frame = Frame(columns: seq<string>, rows: seq<seq<Cell>>)

  datatype LoadError = UnknownColumns(names: set<string>)

  /** The staging record of one CSV row: each column name bound to its cell. */
  function RecordOf(columns: seq<string>, row: seq<Cell>): (r: Record)
    ensures forall c :: c in r <==> exists i :: 0 <= i < |columns| && i < |row| && columns[i] == c
    ensures forall i :: 0 <= i < |columns| && i < |row| && columns[i] !in columns[..i] ==> r[columns[i]] == row[i]
  {
    if columns == [] || row == [] then map[]
    else
      var rest := RecordOf(columns[1..], row[1..]);
      forall i | 1 <= i < |columns| && i < |row| && columns[i] !in columns[..i]
        ensures columns[1..][i - 1] !in columns[1..][..i - 1]
      {
        assert columns[1..][..i - 1] == columns[1..i];
      }
      assert forall c :: c in rest <==> exists i :: 1 <= i < |columns| && i < |row| && columns[i] == c by {
        forall c ensures c in rest <==> exists i :: 1 <= i < |columns| && i < |row| && columns[i] == c {
          if exists i :: 1 <= i < |columns| && i < |row| && columns[i] == c {
            var i :| 1 <= i < |columns| && i < |row| && columns[i] == c;
            assert columns[1..][i - 1] == c;
          }
        }
      }
      rest[columns[0] := row[0]]
  }

  /**
   * `load_csv_to_staging` on the staging rows: a batch naming any column staging does
   * not have is refused as a whole and lists those columns; any other batch is
   * appended, one record per CSV row, in file order.
   */
  function LoadBatch(staging: seq<Record>, schema: set<string>, f: Frame): (r: Result<seq<Record>, LoadError>)
    ensures r.Err? <==> exists c :: c in f.columns && c !in schema
    ensures r.Err? ==> forall c :: c in r.error.names <==> c in f.columns && c !in schema
    ensures r.Ok? ==> |r.value| == |staging| + |f.rows| && r.value[..|staging|] == staging
    ensures r.Ok? ==> forall i :: 0 <= i < |f.rows| ==> r.value[|staging| + i] == RecordOf(f.columns, f.rows[i])
  {
    if exists c :: c in f.columns && c !in schema then Err(UnknownColumns(set c | c in f.columns && c !in schema))
    else Ok(staging + seq(|f.rows|, i requires 0 <= i < |f.rows| => RecordOf(f.columns, f.rows[i])))
  }

  /**
   * What `upload_file` hands to the loader: the header normalised, only the columns
   * staging has, and their cells. The CSV reader gives every row one cell per column.
   */
  function Upload(header: seq<string>, rows: seq<seq<Cell>>, schema: set<string>): (f: Frame)
    requires forall i :: 0 <= i < |rows| ==> |rows[i]| == |header|
    ensures f.columns == KeepStagingColumns(NormalizeAll(header), schema)
    ensures |f.rows| == |rows|
    ensures forall i :: 0 <= i < |rows| ==> |f.rows[i]| == |f.columns|
  {
    var names := NormalizeAll(header);
    var keep := KeptPositions(names, schema);
    Frame(Select(names, keep), seq(|rows|, i requires 0 <= i < |rows| => Select(rows[i], keep)))
  }

  /**
   * The batch `upload_file` builds is never refused for unknown columns, and each of its
   * columns is a normalised header name that staging has.
   */
  lemma UploadIsAccepted(staging: seq<Record>, header: seq<string>, rows: seq<seq<Cell>>, schema: set<string>)
    requires forall i :: 0 <= i < |rows| ==> |rows[i]| == |header|
    ensures var f := Upload(header, rows, schema);
      && LoadBatch(staging, schema, f).Ok?
      && |LoadBatch(staging, schema, f).value| == |staging| + |rows|
      && (forall c :: c in f.columns <==> c in NormalizeAll(header) && c in schema)
  {
    KeptAreExactlyValid(NormalizeAll(header), schema);
  }

  /** A database with every table empty and every counter at 1. */
  function EmptyWarehouse(): (w: Warehouse)
    ensures w.staging == [] && w.bookmakers == [] && w.odds.rows == [] && w.matches.rows == []
    ensures BookmakersValid(w.bookmakers, w.nextBookmakerId)
  {
    Warehouse([], Empty(), Empty(), Empty(), Empty(), Empty(), Empty(), Empty(), [], 1, Empty())
  }

  // ---------------------------------------------------------------- the database object

  class Database {
    var warehouse: Warehouse
    var audit: Audit
    /** `SHOW COLUMNS FROM stg_premier_league_raw`. */
    const stagingColumns: set<string>

    /** The Bookmakers primary key holds and the counter is ahead of every id. */
    ghost predicate Valid()
      reads this
    {
      BookmakersValid(warehouse.bookmakers, warehouse.nextBookmakerId)
    }

    constructor (stagingColumns: set<string>)
      ensures this.stagingColumns == stagingColumns
      ensures warehouse == EmptyWarehouse() && audit == Audit([], 1, [])
      ensures Valid()
    {
      this.stagingColumns := stagingColumns;
      warehouse := EmptyWarehouse();
      audit := Audit([], 1, []);
    }

    function State(): Db
      reads this
    {
      Db(warehouse, audit)
    }

    /** `load_csv_to_staging`. */
    method LoadCsvToStaging(f: Frame) returns (r: Result<(), LoadError>)
      requires Valid()
      modifies this
      ensures Valid()
      ensures audit == old(audit)
      ensures LoadBatch(old(warehouse.staging), stagingColumns, f).Err? ==>
        r == Err(LoadBatch(old(warehouse.staging), stagingColumns, f).error) && warehouse == old(warehouse)
      ensures LoadBatch(old(warehouse.staging), stagingColumns, f).Ok? ==>
        r == Ok(()) && warehouse == old(warehouse).(staging := LoadBatch(old(warehouse.staging), stagingColumns, f).value)
    {
      var missing := set c | c in f.columns && c !in stagingColumns;
      if missing != {} {
        return Err(UnknownColumns(missing));
      }
      var data := seq(|f.rows|, i requires 0 <= i < |f.rows| => RecordOf(f.columns, f.rows[i]));
      warehouse := warehouse.(staging := warehouse.staging + data);
      r := Ok(());
    }

    /**
     * `trigger_etl_job`. The committed fields change only where the source commits;
     * a stage that raises marks the log row Failed on top of the last commit.
     */
    method TriggerEtlJob(clock: Clock, seeding: BookmakerSeeding) returns (reply: Result<seq<SummaryLine>, EtlError>)
      requires Valid()
      modifies this
      ensures Valid()
      ensures State() == EtlRun(old(State()), clock, seeding).db
      ensures reply == EtlRun(old(State()), clock, seeding).reply
    {
      RunKeepsBookmakersValid(State(), clock, seeding);
      var logId := audit.nextLogId;
      audit := OpenLog(audit, clock.start);                                        // line 59
      var c0 := State();
      var live := warehouse;

      // Steps 1 to 4: the reference tables.
      var seeded := SeedReferences(live);
      if seeded.Err? {
        audit := UpdateLog(audit, logId, MarkFailed(clock.failed, seeded.error));
        return Err(seeded.error);
      }
      var lines: seq<SummaryLine>;
      live, lines := seeded.value.0, seeded.value.1;

      // Step 5: the matches.
      var data := BuildMatchData(ReferencesOf(live), InDateTimeOrder(live.staging));
      if data.Err? {
        audit := UpdateLog(audit, logId, MarkFailed(clock.failed, data.error));
        return Err(data.error);
      }
      var processed := |data.value|;
      live := live.(matches := InsertIgnoreAll(live.matches, data.value));
      assert MatchesLoaded(c0.warehouse) == Ok((live, lines, processed));
      warehouse := live;                                                           // line 172

      // Steps 6 and 7: the statistics, then the log row is marked Completed.
      var stats := BuildStatData(live.teams, live.matches, InDateTimeOrder(live.staging));
      live := live.(statistics := InsertIgnoreAll(live.statistics, stats));
      warehouse := live;                                                           // line 219
      audit := UpdateLog(audit, logId, MarkCompleted(clock.completed, processed));  // line 232

      // Step 8: the markets.
      live := MarketStage(live);
      warehouse := live;                                                           // line 244
      var done := lines + [MatchesInserted(processed), StatisticsInserted(|stats|), MarketsInserted(|MarketRows|)];
      assert EtlRun(c0.(audit := old(audit)), clock, seeding) == LaterSteps(c0, logId, clock, seeding, MatchesLoaded(c0.warehouse).value.0, lines, processed);
      if seeding == AsWritten {
        audit := UpdateLog(audit, logId, MarkFailed(clock.failed, BookmakerNameUnbound));
        return Err(BookmakerNameUnbound);
      }
      reply := OddsSteps(logId, clock.failed, done);
    }

    /** Step 9: insert each name of the bookmaker map unless present, then commit (line 267). */
    method SeedBookmakerRows()
      modifies this
      ensures audit == old(audit)
      ensures var (bookmakers, next) := SeedBookmakers(old(warehouse.bookmakers), old(warehouse.nextBookmakerId), BookmakerNames());
        warehouse == old(warehouse).(bookmakers := bookmakers, nextBookmakerId := next)
    {
      var names := BookmakerNames();
      var bookmakers, next := warehouse.bookmakers, warehouse.nextBookmakerId;
      bookmakers, next := SeedAll(bookmakers, next, names);
      warehouse := warehouse.(bookmakers := bookmakers, nextBookmakerId := next);
    }

    /** The loop of step 9 over the names of the bookmaker map. */
    static method SeedAll(bookmakers: seq<Bookmaker>, next: nat, names: seq<string>)
      returns (seeded: seq<Bookmaker>, seededNext: nat)
      ensures (seeded, seededNext) == SeedBookmakers(bookmakers, next, names)
    {
      seeded, seededNext := bookmakers, next;
      for i := 0 to |names|
        invariant (seeded, seededNext) == SeedBookmakers(bookmakers, next, names[..i])
      {
        SeedBookmakersSnoc(bookmakers, next, names[..i], names[i]);
        assert names[..i + 1] == names[..i] + [names[i]];
        var step := SeedBookmaker(seeded, seededNext, names[i]);
        seeded, seededNext := step.0, step.1;
      }
      assert names[..|names|] == names;
    }

    /** Steps 9 to 12 with the intended bookmaker seeding. */
    method OddsSteps(logId: nat, failedAt: Timestamp, done: seq<SummaryLine>) returns (reply: Result<seq<SummaryLine>, EtlError>)
      modifies this
      ensures State() == OddsPhase(old(State()), logId, failedAt, done).db
      ensures reply == OddsPhase(old(State()), logId, failedAt, done).reply
    {
      SeedBookmakerRows();
      var live := warehouse;
      var ids := BookmakerIds(live.bookmakers, BookmakerNames());
      if ids.Err? {
        audit := UpdateLog(audit, logId, MarkFailed(failedAt, ids.error));
        return Err(ids.error);
      }
      var oneXTwo := MarketId(live.markets, OneXTwoMarket);
      if oneXTwo.Err? {
        audit := UpdateLog(audit, logId, MarkFailed(failedAt, oneXTwo.error));
        return Err(oneXTwo.error);
      }

      // Steps 10 and 11: the 1X2 odds.
      OverUnderNamesCovered(ids.value);
      var joined := JoinRows(live.staging, live.teams, live.matches);
      var odds := BuildOddsData(joined, ids.value, oneXTwo.value, OneXTwoMap);
      live := live.(odds := InsertIgnoreAll(live.odds, odds));
      warehouse := live;                                                           // line 319

      // Step 12: the Over/Under odds.
      var overUnder := MarketId(live.markets, OverUnderMarket);
      if overUnder.Err? {
        audit := UpdateLog(audit, logId, MarkFailed(failedAt, overUnder.error));
        return Err(overUnder.error);
      }
      var ou := BuildOddsData(joined, ids.value, overUnder.value, OverUnderMap);
      live := live.(odds := InsertIgnoreAll(live.odds, ou));
      warehouse := live;                                                           // line 376
      reply := Ok(done + [OneXTwoOddsInserted(|odds|), OverUnderOddsInserted(|ou|)]);
    }

    /** `deduplicate_bookmakers`; on an error the transaction is rolled back. */
    method DeduplicateBookmakers(constraintFails: bool) returns (r: Result<CleanupReply, CleanupError>)
      requires Valid()
      modifies this
      ensures Valid()
      ensures audit == old(audit)
      ensures Deduplicate(old(warehouse.bookmakers), old(warehouse.odds), constraintFails).Err? ==>
        r == Err(Deduplicate(old(warehouse.bookmakers), old(warehouse.odds), constraintFails).error) &&
        warehouse == old(warehouse)
      ensures Deduplicate(old(warehouse.bookmakers), old(warehouse.odds), constraintFails).Ok? ==>
        var (kept, repointed, reply) := Deduplicate(old(warehouse.bookmakers), old(warehouse.odds), constraintFails).value;
        r == Ok(reply) && warehouse == old(warehouse).(bookmakers := kept, odds := repointed)
    {
      var outcome := Deduplicate(warehouse.bookmakers, warehouse.odds, constraintFails);
      if outcome.Err? {
        return Err(outcome.error);
      }
      DeduplicateKeepsBookmakersValid(warehouse.bookmakers, warehouse.odds, constraintFails, warehouse.nextBookmakerId);
      var (kept, repointed, reply) := outcome.value;
      warehouse := warehouse.(bookmakers := kept, odds := repointed);
      r := Ok(reply);
    }

    /**
     * `clean_all_tables`: truncate the tables of `CleanOrder` one by one. `failAt` is
     * the position of a TRUNCATE that raises, if any; then nothing is committed and the
     * error names that table.
     */
    method CleanAllTables(failAt: Option<nat>) returns (r: Result<(), TableName>)
      requires Valid()
      modifies this
      ensures Valid()
      ensures audit == old(audit)
      ensures r.Ok? <==> failAt.None? || failAt.value >= |CleanOrder|
      ensures r.Ok? ==> warehouse == TruncateAll(old(warehouse), CleanOrder)
      ensures r.Err? ==> warehouse == old(warehouse) && r.error == CleanOrder[failAt.value]
    {
      var live := warehouse;
      for i := 0 to |CleanOrder|
        invariant live == TruncateAll(warehouse, CleanOrder[..i])
        invariant failAt.Some? ==> failAt.value >= i
      {
        if failAt == Some(i) {
          return Err(CleanOrder[i]);
        }
        assert CleanOrder[..i + 1][..i] == CleanOrder[..i];
        live := Truncate(live, CleanOrder[i]);
      }
      assert CleanOrder[..|CleanOrder|] == CleanOrder;
      CleanAllEmpties(warehouse);
      warehouse := live;
      r := Ok(());
    }

    /** `clear_etl_logs`: empty the job log; `fails` stands for a TRUNCATE that raises. */
    method ClearEtlLogs(fails: bool) returns (ok: bool)
      requires Valid()
      modifies this
      ensures Valid()
      ensures warehouse == old(warehouse)
      ensures ok == !fails
      ensures ok ==> audit == old(audit).(log := [], nextLogId := 1)
      ensures !ok ==> audit == old(audit)
    {
      if fails {
        return false;
      }
      audit := audit.(log := [], nextLogId := 1);
      ok := true;
    }

    /** `fetch_etl_log`: every log row, newest run first. */
    method FetchEtlLog() returns (rows: seq<LogEntry>)
      ensures multiset(rows) == multiset(audit.log)
      ensures forall i, j :: 0 <= i < j < |rows| ==> rows[i].startTime >= rows[j].startTime
    {
      rows := NewestRunsFirst(audit.log);
    }

    /** `fetch_dead_letter`: every dead letter, newest failure first. */
    method FetchDeadLetter() returns (rows: seq<DeadLetter>)
      ensures multiset(rows) == multiset(audit.deadLetters)
      ensures forall i, j :: 0 <= i < j < |rows| ==> rows[i].errorTimestamp >= rows[j].errorTimestamp
    {
      rows := NewestFailuresFirst(audit.deadLetters);
    }

    /** `get_team_points_by_matchday`: the query's rows, numbered by the loop that follows it. */
    method GetTeamPointsByMatchday(seasonName: string, teamName: string) returns (rows: seq<PointsRow>)
      ensures rows == TeamPointsByMatchday(warehouse, seasonName, teamName)
    {
      var results := PointsQuery(warehouse, seasonName, teamName);
      rows := [];
      for i := 0 to |results|
        invariant |rows| == i
        invariant forall k :: 0 <= k < i ==> rows[k] == PointsRow(results[k].0, results[k].1, k + 1)
      {
        rows := rows + [PointsRow(results[i].0, results[i].1, i + 1)];
      }
    }
  }
}
