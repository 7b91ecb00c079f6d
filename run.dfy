/**
 * One ETL run (`trigger_etl_job`) as a function of the committed database state:
 * the job-log state machine, the commit points between stages, and the rollback of
 * uncommitted work when a stage raises.
 */
module Pipeline {
  import opened Wrappers
  import opened Schema
  import opened Tables
  import opened Derive
  import opened Stages

  /** The bookkeeping tables: the job log with its counter, and the dead-letter table. */
  datatype Audit = Audit(log: seq<LogEntry>, nextLogId: nat, deadLetters: seq<DeadLetter>)

  /** The committed state of the whole database. */
  datatype Db = Db(warehouse: Warehouse, audit: Audit)

  /** The three `datetime.now()` readings of a run: start, success, failure. */
  datatype Clock = Clock(start: Timestamp, completed: Timestamp, failed: Timestamp)

  /**
   * How step 9 seeds the bookmakers: as the source is written (it reads `name`
   * before the loop binds it, and raises) or as intended (insert each name of the
   * map unless present).
   */
  datatype BookmakerSeeding = AsWritten | PerName

  /** The committed state after the run, and what the caller sees: the summary or the error. */
  datatype RunOutcome = RunOutcome(db: Db, reply: Result<seq<SummaryLine>, EtlError>)

  const ProcessName: string := "GUI ETL Job"

  /** Every log row has an id below the counter, so a new id names only the new row. */
  ghost predicate AuditValid(a: Audit) {
    forall i :: 0 <= i < |a.log| ==> a.log[i].logId < a.nextLogId
  }

  /** `INSERT INTO ETLLog (ProcessName, StartTime, Status) VALUES (..., 'Running')`. */
  function OpenLog(a: Audit, start: Timestamp): Audit {
    a.(log := a.log + [LogEntry(a.nextLogId, ProcessName, start, None, None, None, Running, None)],
       nextLogId := a.nextLogId + 1)
  }

  /** The two updates a run makes to its own log row. */
  datatype LogUpdate =
    | MarkCompleted(at: Timestamp, processed: nat)   // lines 224-231; RecordsFailed is left as it was
    | MarkFailed(at: Timestamp, error: EtlError)     // lines 385-393

  function Apply(e: LogEntry, u: LogUpdate): LogEntry {
    match u
    case MarkCompleted(at, processed) =>
      e.(endTime := Some(at), recordsProcessed := Some(processed), status := Completed, errorMessage := None)
    case MarkFailed(at, error) =>
      e.(endTime := Some(at), recordsProcessed := Some(0), recordsFailed := Some(1), status := Failed, errorMessage := Some(error))
  }

  /** `UPDATE ETLLog SET ... WHERE LogID = logId`. */
  function UpdateLog(a: Audit, logId: nat, u: LogUpdate): (r: Audit)
    ensures |r.log| == |a.log| && r.nextLogId == a.nextLogId && r.deadLetters == a.deadLetters
    ensures forall i :: 0 <= i < |a.log| ==> r.log[i] == if a.log[i].logId == logId then Apply(a.log[i], u) else a.log[i]
  {
    a.(log := seq(|a.log|, i requires 0 <= i < |a.log| => if a.log[i].logId == logId then Apply(a.log[i], u) else a.log[i]))
  }

  /** The exception handler: roll back to `committed`, mark the log row Failed, commit, re-raise. */
  function Fail(committed: Db, logId: nat, at: Timestamp, error: EtlError): RunOutcome {
    RunOutcome(committed.(audit := UpdateLog(committed.audit, logId, MarkFailed(at, error))), Err(error))
  }

  /**
   * The run. Each `conn.commit()` of the source is a point where the local state
   * becomes the committed state; a stage that raises hands the last committed state
   * to `Fail`.
   */
  function EtlRun(db: Db, clock: Clock, seeding: BookmakerSeeding): RunOutcome {
    var logId := db.audit.nextLogId;
    var c0 := db.(audit := OpenLog(db.audit, clock.start));                        // line 59
    match MatchesLoaded(c0.warehouse)
    case Err(e) => Fail(c0, logId, clock.failed, e)
    case Ok((w2, lines, processed)) => LaterSteps(c0, logId, clock, seeding, w2, lines, processed)  // line 172
  }

  /** Steps 1 to 5 as one function of the committed warehouse: seeding then match building. */
  function MatchesLoaded(w: Warehouse): Result<(Warehouse, seq<SummaryLine>, nat), EtlError> {
    match SeedReferences(w)
    case Err(e) => Err(e)
    case Ok((w1, lines)) =>
      match MatchStage(w1)
      case Err(e) => Err(e)
      case Ok((w2, processed)) => Ok((w2, lines, processed))
  }

  /** Steps 6 to 12, once the matches are committed. */
  function LaterSteps(c0: Db, logId: nat, clock: Clock, seeding: BookmakerSeeding,
                      w2: Warehouse, lines: seq<SummaryLine>, processed: nat): RunOutcome {
    var (w3, statistics) := StatisticsStage(w2);                                   // line 219
    var a3 := UpdateLog(c0.audit, logId, MarkCompleted(clock.completed, processed));  // line 232
    var c4 := Db(MarketStage(w3), a3);                                             // line 244
    var done := lines + [MatchesInserted(processed), StatisticsInserted(statistics), MarketsInserted(|MarketRows|)];
    match seeding
    case AsWritten => Fail(c4, logId, clock.failed, BookmakerNameUnbound)
    case PerName => OddsPhase(c4, logId, clock.failed, done)
  }

  /** Steps 9 to 12 with the intended bookmaker seeding. */
  function OddsPhase(c4: Db, logId: nat, failedAt: Timestamp, done: seq<SummaryLine>): RunOutcome {
    var w4 := c4.warehouse;
    var (bookmakers, next) := SeedBookmakers(w4.bookmakers, w4.nextBookmakerId, BookmakerNames());
    var w5 := w4.(bookmakers := bookmakers, nextBookmakerId := next);
    var c5 := c4.(warehouse := w5);                                                 // line 267
    match BookmakerIds(bookmakers, BookmakerNames())
    case Err(e) => Fail(c5, logId, failedAt, e)
    case Ok(ids) =>
      match MarketId(w5.markets, OneXTwoMarket)
      case Err(e) => Fail(c5, logId, failedAt, e)
      case Ok(oneXTwo) =>
        OverUnderNamesCovered(ids);
        // Both joins read staging, Teams and Matches, which the odds inserts do not touch.
        var joined := JoinRows(w5.staging, w5.teams, w5.matches);
        var odds := OddsData(joined, ids, oneXTwo, OneXTwoMap);
        var w6 := w5.(odds := InsertIgnoreAll(w5.odds, odds));                    // line 319
        match MarketId(w6.markets, OverUnderMarket)
        case Err(e) => Fail(c5.(warehouse := w6), logId, failedAt, e)
        case Ok(overUnder) =>
          var ou := OddsData(joined, ids, overUnder, OverUnderMap);
          var w7 := w6.(odds := InsertIgnoreAll(w6.odds, ou));                     // line 376
          RunOutcome(c5.(warehouse := w7), Ok(done + [OneXTwoOddsInserted(|odds|), OverUnderOddsInserted(|ou|)]))
  }

  // ---------------------------------------------------------------- the job log

  /** Steps 9 to 12 touch the log only through the failure handler. */
  lemma OddsPhaseAudit(c4: Db, logId: nat, failedAt: Timestamp, done: seq<SummaryLine>)
    ensures var out := OddsPhase(c4, logId, failedAt, done);
      out.db.audit == if out.reply.Ok? then c4.audit else UpdateLog(c4.audit, logId, MarkFailed(failedAt, out.reply.error))
  {
    var w4 := c4.warehouse;
    var (bookmakers, next) := SeedBookmakers(w4.bookmakers, w4.nextBookmakerId, BookmakerNames());
    var w5 := w4.(bookmakers := bookmakers, nextBookmakerId := next);
    var out := OddsPhase(c4, logId, failedAt, done);
    match BookmakerIds(bookmakers, BookmakerNames())
    case Err(e) =>
      assert out.reply == Err(e);
    case Ok(ids) =>
      match MarketId(w5.markets, OneXTwoMarket)
      case Err(e) =>
        assert out.reply == Err(e);
      case Ok(oneXTwo) =>
        match MarketId(w5.markets, OverUnderMarket)
        case Err(e) =>
          assert out.reply == Err(e);
        case Ok(overUnder) =>
          assert out.db.audit == c4.audit;
  }

  /** The log as a run leaves it: started, then marked Completed, Failed, or Completed and then Failed. */
  lemma RunAudit(db: Db, clock: Clock, seeding: BookmakerSeeding)
    ensures var out := EtlRun(db, clock, seeding);
      var started := OpenLog(db.audit, clock.start);
      var logId := db.audit.nextLogId;
      var completed := UpdateLog(started, logId, MarkCompleted(clock.completed, |db.warehouse.staging|));
      && (out.reply.Ok? ==> out.db.audit == completed)
      && (out.reply.Err? ==>
            out.db.audit == UpdateLog(started, logId, MarkFailed(clock.failed, out.reply.error)) ||
            out.db.audit == UpdateLog(completed, logId, MarkFailed(clock.failed, out.reply.error)))
  {
    var c0 := db.(audit := OpenLog(db.audit, clock.start));
    match MatchesLoaded(db.warehouse)
    case Err(e) =>
    case Ok((w2, lines, processed)) =>
      MatchesLoadedCount(db.warehouse);
      var (w3, statistics) := StatisticsStage(w2);
      var a3 := UpdateLog(c0.audit, db.audit.nextLogId, MarkCompleted(clock.completed, processed));
      var done := lines + [MatchesInserted(processed), StatisticsInserted(statistics), MarketsInserted(|MarketRows|)];
      OddsPhaseAudit(Db(MarketStage(w3), a3), db.audit.nextLogId, clock.failed, done);
  }

  /** RecordsProcessed, the number of match tuples, is the number of staging rows. */
  lemma MatchesLoadedCount(w: Warehouse)
    requires MatchesLoaded(w).Ok?
    ensures MatchesLoaded(w).value.2 == |w.staging|
    ensures MatchesLoaded(w).value.0.staging == w.staging
  {
    MatchStageCount(SeedReferences(w).value.0);
  }

  /** Steps 1 to 4 contribute one summary line each. */
  lemma MatchesLoadedLines(w: Warehouse)
    requires MatchesLoaded(w).Ok?
    ensures var lines := MatchesLoaded(w).value.1;
      |lines| == 4 && lines[0].TeamsProcessed? && lines[1].SeasonPresent? && lines[2].RefereesProcessed? && lines[3].DivisionsProcessed?
  {
    var (w1, lines) := SeedReferences(w).value;
    assert MatchesLoaded(w).value.1 == lines;
  }

  /** Opening then updating the run's own row leaves every earlier row as it was. */
  lemma UpdateOpenedLog(a: Audit, start: Timestamp, u: LogUpdate)
    requires AuditValid(a)
    ensures var r := UpdateLog(OpenLog(a, start), a.nextLogId, u);
      && |r.log| == |a.log| + 1 && r.log[..|a.log|] == a.log
      && r.log[|a.log|] == Apply(LogEntry(a.nextLogId, ProcessName, start, None, None, None, Running, None), u)
      && r.nextLogId == a.nextLogId + 1 && r.deadLetters == a.deadLetters
      && AuditValid(r)
  {
    var o := OpenLog(a, start);
    assert forall i :: 0 <= i < |a.log| ==> o.log[i] == a.log[i];
  }


  /** The log row a run leaves, given how it was updated; see `RunAudit`. */
  ghost predicate RunLogged(a: Audit, clock: Clock, n: nat, out: Audit, reply: Result<seq<SummaryLine>, EtlError>) {
    var log := out.log;
    && |log| == |a.log| + 1 && log[..|a.log|] == a.log
    && out.nextLogId == a.nextLogId + 1
    && out.deadLetters == a.deadLetters
    && AuditValid(out)
    && (reply.Ok? <==> log[|a.log|].status == Completed)
    && (reply.Ok? ==> log[|a.log|] == LogEntry(a.nextLogId, ProcessName, clock.start, Some(clock.completed), Some(n), None, Completed, None))
    && (reply.Err? ==> log[|a.log|] == LogEntry(a.nextLogId, ProcessName, clock.start, Some(clock.failed), Some(0), Some(1), Failed, Some(reply.error)))
  }

  lemma LogUpdates(a: Audit, clock: Clock, n: nat, out: Audit, reply: Result<seq<SummaryLine>, EtlError>)
    requires AuditValid(a)
    requires var started := OpenLog(a, clock.start);
      var completed := UpdateLog(started, a.nextLogId, MarkCompleted(clock.completed, n));
      && (reply.Ok? ==> out == completed)
      && (reply.Err? ==>
            out == UpdateLog(started, a.nextLogId, MarkFailed(clock.failed, reply.error)) ||
            out == UpdateLog(completed, a.nextLogId, MarkFailed(clock.failed, reply.error)))
    ensures RunLogged(a, clock, n, out, reply)
  {
    var started := OpenLog(a, clock.start);
    var completed := MarkCompleted(clock.completed, n);
    UpdateOpenedLog(a, clock.start, completed);
    if reply.Err? {
      var failed := MarkFailed(clock.failed, reply.error);
      UpdateOpenedLog(a, clock.start, failed);
      var c := UpdateLog(started, a.nextLogId, completed);
      if out == UpdateLog(c, a.nextLogId, failed) {
        assert forall i :: 0 <= i < |a.log| ==> c.log[i] == a.log[i];
        assert out.log[..|a.log|] == a.log;
      }
    }
  }

  /**
   * The log row of a run: it is appended with a fresh id and ends Completed exactly
   * when the run returns its summary, with the staging row count as RecordsProcessed;
   * otherwise it ends Failed with RecordsProcessed 0, RecordsFailed 1 and the error.
   * No other log row and no dead letter changes.
   */
  lemma RunLog(db: Db, clock: Clock, seeding: BookmakerSeeding)
    requires AuditValid(db.audit)
    ensures var out := EtlRun(db, clock, seeding);
      RunLogged(db.audit, clock, |db.warehouse.staging|, out.db.audit, out.reply)
  {
    var out := EtlRun(db, clock, seeding);
    RunAudit(db, clock, seeding);
    LogUpdates(db.audit, clock, |db.warehouse.staging|, out.db.audit, out.reply);
  }

  // ---------------------------------------------------------------- commits and rollback

  /**
   * A failure in steps 1 to 5 rolls back the reference rows written since the log
   * insert: the warehouse is exactly as before the run, and the run reports that error.
   */
  lemma EarlyFailureRollsBack(db: Db, clock: Clock, seeding: BookmakerSeeding)
    requires MatchesLoaded(db.warehouse).Err?
    ensures EtlRun(db, clock, seeding).db.warehouse == db.warehouse
    ensures EtlRun(db, clock, seeding).reply == Err(MatchesLoaded(db.warehouse).error)
  {
  }

  /** The bookmaker and market lookups of steps 9 to 12 cannot fail once the markets are seeded. */
  lemma OddsPhaseSucceeds(c4: Db, logId: nat, failedAt: Timestamp, done: seq<SummaryLine>)
    requires OneXTwoMarket in Keys(c4.warehouse.markets) && OverUnderMarket in Keys(c4.warehouse.markets)
    ensures OddsPhase(c4, logId, failedAt, done).reply.Ok?
  {
    var w4 := c4.warehouse;
    SeedBookmakersFinds(w4.bookmakers, w4.nextBookmakerId, BookmakerNames());
  }

  /**
   * With the intended bookmaker seeding a run fails only in steps 1 to 5, and then
   * with the error those steps raise.
   */
  lemma PerNameRunFailsOnlyEarly(db: Db, clock: Clock)
    ensures EtlRun(db, clock, PerName).reply.Err? <==> MatchesLoaded(db.warehouse).Err?
  {
    match MatchesLoaded(db.warehouse)
    case Err(_) =>
    case Ok((w2, lines, processed)) =>
      var (w3, statistics) := StatisticsStage(w2);
      MarketsFoundAfterSeeding(w3);
      var c0 := db.(audit := OpenLog(db.audit, clock.start));
      assert EtlRun(db, clock, PerName) == LaterSteps(c0, db.audit.nextLogId, clock, PerName, w2, lines, processed);
      var a3 := UpdateLog(c0.audit, db.audit.nextLogId, MarkCompleted(clock.completed, processed));
      var done := lines + [MatchesInserted(processed), StatisticsInserted(statistics), MarketsInserted(|MarketRows|)];
      OddsPhaseSucceeds(Db(MarketStage(w3), a3), db.audit.nextLogId, clock.failed, done);
  }

  /**
   * As written, every run fails. When steps 1 to 5 succeed it fails at step 9 with
   * the unbound name, after teams, matches, statistics and markets are committed and
   * the log row has been marked Completed; no bookmaker and no odds row is written,
   * and the row is then overwritten as Failed.
   */
  lemma AsWrittenRunAlwaysFails(db: Db, clock: Clock)
    ensures var out := EtlRun(db, clock, AsWritten);
      && out.reply.Err?
      && out.db.warehouse.bookmakers == db.warehouse.bookmakers
      && out.db.warehouse.nextBookmakerId == db.warehouse.nextBookmakerId
      && out.db.warehouse.odds == db.warehouse.odds
      && (out.reply.error == BookmakerNameUnbound <==> MatchesLoaded(db.warehouse).Ok?)
    ensures var out := EtlRun(db, clock, AsWritten);
      MatchesLoaded(db.warehouse).Ok? ==>
        var (w2, _, processed) := MatchesLoaded(db.warehouse).value;
        && out.db.warehouse == MarketStage(StatisticsStage(w2).0)
        && out.db.audit == UpdateLog(UpdateLog(OpenLog(db.audit, clock.start), db.audit.nextLogId, MarkCompleted(clock.completed, processed)),
                                     db.audit.nextLogId, MarkFailed(clock.failed, BookmakerNameUnbound))
  {
    MatchesLoadedErrors(db.warehouse);
  }

  /** Steps 1 to 5 never raise the errors of the later steps. */
  lemma MatchesLoadedErrors(w: Warehouse)
    ensures MatchesLoaded(w).Err? ==> !MatchesLoaded(w).error.BookmakerNameUnbound?
  {
    match SeedReferences(w)
    case Err(e) =>
    case Ok((w1, lines)) =>
      MatchDataErrors(ReferencesOf(w1), InDateTimeOrder(w1.staging));
  }

  // ---------------------------------------------------------------- odds values

  ghost predicate OddsPayable(w: Warehouse) {
    forall row :: row in w.odds.rows ==> row.val > 1.0
  }

  lemma InsertPayable(t: Table<OddsKey, real>, kvs: seq<(OddsKey, real)>)
    requires forall row :: row in t.rows ==> row.val > 1.0
    requires forall kv :: kv in kvs ==> kv.1 > 1.0
    ensures forall row :: row in InsertIgnoreAll(t, kvs).rows ==> row.val > 1.0
  {
    InsertIgnoreAllRowsFrom(t, kvs);
  }

  /** Every stored OddsValue is strictly above 1.0, before and after any run. */
  lemma RunKeepsOddsPayable(db: Db, clock: Clock, seeding: BookmakerSeeding)
    requires OddsPayable(db.warehouse)
    ensures OddsPayable(EtlRun(db, clock, seeding).db.warehouse)
  {
    match MatchesLoaded(db.warehouse)
    case Err(_) =>
    case Ok((w2, lines, processed)) =>
      if seeding == PerName {
        var (w3, statistics) := StatisticsStage(w2);
        var w4 := MarketStage(w3);
        var (bookmakers, next) := SeedBookmakers(w4.bookmakers, w4.nextBookmakerId, BookmakerNames());
        var w5 := w4.(bookmakers := bookmakers, nextBookmakerId := next);
        var ids := BookmakerIds(bookmakers, BookmakerNames());
        if ids.Ok? {
          OverUnderNamesCovered(ids.value);
          var joined := JoinRows(w5.staging, w5.teams, w5.matches);
          var m1 := MarketId(w5.markets, OneXTwoMarket);
          var m2 := MarketId(w5.markets, OverUnderMarket);
          if m1.Ok? {
            var odds := OddsData(joined, ids.value, m1.value, OneXTwoMap);
            InsertPayable(w5.odds, odds);
            if m2.Ok? {
              InsertPayable(InsertIgnoreAll(w5.odds, odds), OddsData(joined, ids.value, m2.value, OverUnderMap));
            }
          }
        }
      }
  }

  // ---------------------------------------------------------------- the summary

  /** Steps 9 to 12 add two lines, bounded by 12 and 4 odds rows per staging row. */
  lemma OddsPhaseSummary(c4: Db, logId: nat, failedAt: Timestamp, done: seq<SummaryLine>)
    requires OddsPhase(c4, logId, failedAt, done).reply.Ok?
    ensures var lines := OddsPhase(c4, logId, failedAt, done).reply.value;
      var n := |c4.warehouse.staging|;
      && |lines| == |done| + 2 && lines[..|done|] == done
      && lines[|done|].OneXTwoOddsInserted? && lines[|done|].odds <= 12 * n
      && lines[|done| + 1].OverUnderOddsInserted? && lines[|done| + 1].odds <= 4 * n
  {
    var w4 := c4.warehouse;
    var names := BookmakerNames();
    var (bookmakers, next) := SeedBookmakers(w4.bookmakers, w4.nextBookmakerId, names);
    var w5 := w4.(bookmakers := bookmakers, nextBookmakerId := next);
    var ids := BookmakerIds(bookmakers, names).value;
    OverUnderNamesCovered(ids);
    var joined := JoinRows(w5.staging, w5.teams, w5.matches);
    OddsDataBound(joined, ids, MarketId(w5.markets, OneXTwoMarket).value, OneXTwoMap);
    OddsDataBound(joined, ids, MarketId(w5.markets, OverUnderMarket).value, OverUnderMap);
    RowOddsBounds();
  }

  /** The nine summary lines, given the four of steps 1 to 4 and the match count. */
  ghost predicate SummaryShape(lines: seq<SummaryLine>, n: nat) {
    && |lines| == 9
    && lines[0].TeamsProcessed? && lines[1].SeasonPresent? && lines[2].RefereesProcessed? && lines[3].DivisionsProcessed?
    && lines[4] == MatchesInserted(n)
    && lines[5].StatisticsInserted? && lines[5].statistics <= n
    && lines[6] == MarketsInserted(2)
    && lines[7].OneXTwoOddsInserted? && lines[7].odds <= 12 * n
    && lines[8].OverUnderOddsInserted? && lines[8].odds <= 4 * n
  }

  lemma LaterStepsSummary(c0: Db, logId: nat, clock: Clock, w2: Warehouse, lines: seq<SummaryLine>, processed: nat)
    requires LaterSteps(c0, logId, clock, PerName, w2, lines, processed).reply.Ok?
    requires |lines| == 4 && lines[0].TeamsProcessed? && lines[1].SeasonPresent? && lines[2].RefereesProcessed? && lines[3].DivisionsProcessed?
    requires processed == |w2.staging|
    ensures SummaryShape(LaterSteps(c0, logId, clock, PerName, w2, lines, processed).reply.value, |w2.staging|)
  {
    var (w3, statistics) := StatisticsStage(w2);
    var c4 := Db(MarketStage(w3), UpdateLog(c0.audit, logId, MarkCompleted(clock.completed, processed)));
    var done := lines + [MatchesInserted(processed), StatisticsInserted(statistics), MarketsInserted(|MarketRows|)];
    assert c4.warehouse.staging == w2.staging;
    assert LaterSteps(c0, logId, clock, PerName, w2, lines, processed) == OddsPhase(c4, logId, clock.failed, done);
    OddsPhaseShape(c4, logId, clock.failed, done, processed);
  }

  /** Steps 9 to 12 complete the summary of steps 1 to 8. */
  lemma OddsPhaseShape(c4: Db, logId: nat, failedAt: Timestamp, done: seq<SummaryLine>, n: nat)
    requires OddsPhase(c4, logId, failedAt, done).reply.Ok? && n == |c4.warehouse.staging|
    requires |done| == 7
    requires done[0].TeamsProcessed? && done[1].SeasonPresent? && done[2].RefereesProcessed? && done[3].DivisionsProcessed?
    requires done[4] == MatchesInserted(n) && done[5].StatisticsInserted? && done[5].statistics <= n
    requires done[6] == MarketsInserted(2)
    ensures SummaryShape(OddsPhase(c4, logId, failedAt, done).reply.value, n)
  {
    OddsPhaseSummary(c4, logId, failedAt, done);
    ShapeFromPrefix(OddsPhase(c4, logId, failedAt, done).reply.value, done, n);
  }

  /** Nine lines whose first seven are those of steps 1 to 8 have the summary shape. */
  lemma ShapeFromPrefix(out: seq<SummaryLine>, done: seq<SummaryLine>, n: nat)
    requires |done| == 7 && |out| == 9 && out[..7] == done
    requires done[0].TeamsProcessed? && done[1].SeasonPresent? && done[2].RefereesProcessed? && done[3].DivisionsProcessed?
    requires done[4] == MatchesInserted(n) && done[5].StatisticsInserted? && done[5].statistics <= n
    requires done[6] == MarketsInserted(2)
    requires out[7].OneXTwoOddsInserted? && out[7].odds <= 12 * n
    requires out[8].OverUnderOddsInserted? && out[8].odds <= 4 * n
    ensures SummaryShape(out, n)
  {
    assert out[0] == out[..7][0] && out[1] == out[..7][1] && out[2] == out[..7][2] && out[3] == out[..7][3];
    assert out[4] == out[..7][4] && out[5] == out[..7][5] && out[6] == out[..7][6];
  }

  /**
   * The summary of a successful run: nine lines in step order; one match per staging
   * row, at most one statistics row per staging row, two market definitions, at most
   * 12 full-time result odds and 4 Over/Under odds per staging row.
   */
  lemma RunSummary(db: Db, clock: Clock)
    requires EtlRun(db, clock, PerName).reply.Ok?
    ensures SummaryShape(EtlRun(db, clock, PerName).reply.value, |db.warehouse.staging|)
  {
    var (w2, lines, processed) := MatchesLoaded(db.warehouse).value;
    MatchesLoadedCount(db.warehouse);
    MatchesLoadedLines(db.warehouse);
    var c0 := db.(audit := OpenLog(db.audit, clock.start));
    assert EtlRun(db, clock, PerName) == LaterSteps(c0, db.audit.nextLogId, clock, PerName, w2, lines, processed);
    LaterStepsSummary(c0, db.audit.nextLogId, clock, w2, lines, processed);
  }

  // ---------------------------------------------------------------- running twice

  /** Steps 9 to 12 write only Bookmakers and BettingOdds. */
  lemma OddsPhaseFrame(c4: Db, logId: nat, failedAt: Timestamp, done: seq<SummaryLine>)
    ensures var w := OddsPhase(c4, logId, failedAt, done).db.warehouse;
      w.(bookmakers := c4.warehouse.bookmakers, nextBookmakerId := c4.warehouse.nextBookmakerId, odds := c4.warehouse.odds) == c4.warehouse
    ensures var w := OddsPhase(c4, logId, failedAt, done).db.warehouse;
      (w.bookmakers, w.nextBookmakerId) == SeedBookmakers(c4.warehouse.bookmakers, c4.warehouse.nextBookmakerId, BookmakerNames())
  {
    var w4 := c4.warehouse;
    var (bookmakers, next) := SeedBookmakers(w4.bookmakers, w4.nextBookmakerId, BookmakerNames());
    var w5 := w4.(bookmakers := bookmakers, nextBookmakerId := next);
    var out := OddsPhase(c4, logId, failedAt, done);
    match BookmakerIds(bookmakers, BookmakerNames())
    case Err(e) =>
      assert out.db.warehouse == w5;
    case Ok(ids) =>
      match MarketId(w5.markets, OneXTwoMarket)
      case Err(e) =>
        assert out.db.warehouse == w5;
      case Ok(oneXTwo) =>
        assert out.db.warehouse.(odds := w5.odds) == w5;
  }

  /** Steps 1 to 5 leave Bookmakers and its counter alone. */
  lemma MatchesLoadedKeepsBookmakers(w: Warehouse)
    requires MatchesLoaded(w).Ok?
    ensures MatchesLoaded(w).value.0.bookmakers == w.bookmakers
    ensures MatchesLoaded(w).value.0.nextBookmakerId == w.nextBookmakerId
  {
    var w1 := SeedReferences(w).value.0;
    assert w1.bookmakers == w.bookmakers && w1.nextBookmakerId == w.nextBookmakerId;
  }

  /**
   * Bookmakers after a run: seeded with the four names when steps 1 to 5 succeed and
   * the seeding is the intended one, untouched otherwise.
   */
  lemma RunBookmakers(db: Db, clock: Clock, seeding: BookmakerSeeding)
    ensures var w := EtlRun(db, clock, seeding).db.warehouse;
      (w.bookmakers, w.nextBookmakerId) ==
        if seeding.PerName? && MatchesLoaded(db.warehouse).Ok?
        then SeedBookmakers(db.warehouse.bookmakers, db.warehouse.nextBookmakerId, BookmakerNames())
        else (db.warehouse.bookmakers, db.warehouse.nextBookmakerId)
  {
    var c0 := db.(audit := OpenLog(db.audit, clock.start));
    match MatchesLoaded(db.warehouse)
    case Err(e) =>
    case Ok((w2, lines, processed)) =>
      MatchesLoadedKeepsBookmakers(db.warehouse);
      var (w3, statistics) := StatisticsStage(w2);
      var a3 := UpdateLog(c0.audit, db.audit.nextLogId, MarkCompleted(clock.completed, processed));
      var c4 := Db(MarketStage(w3), a3);
      var done := lines + [MatchesInserted(processed), StatisticsInserted(statistics), MarketsInserted(|MarketRows|)];
      assert EtlRun(db, clock, seeding) == LaterSteps(c0, db.audit.nextLogId, clock, seeding, w2, lines, processed);
      if seeding.PerName? {
        OddsPhaseFrame(c4, db.audit.nextLogId, clock.failed, done);
      }
  }

  /** A run keeps the Bookmakers primary key and the counter ahead of every id. */
  lemma RunKeepsBookmakersValid(db: Db, clock: Clock, seeding: BookmakerSeeding)
    requires BookmakersValid(db.warehouse.bookmakers, db.warehouse.nextBookmakerId)
    ensures var w := EtlRun(db, clock, seeding).db.warehouse;
      BookmakersValid(w.bookmakers, w.nextBookmakerId)
  {
    RunBookmakers(db, clock, seeding);
    SeedBookmakersValid(db.warehouse.bookmakers, db.warehouse.nextBookmakerId, BookmakerNames());
  }

  /** Steps 9 to 12 on the warehouse they produced change nothing and report the same counts. */
  lemma OddsPhaseFixpoint(c4: Db, logId: nat, failedAt: Timestamp, done: seq<SummaryLine>,
                          c: Db, logId': nat, failedAt': Timestamp)
    requires OddsPhase(c4, logId, failedAt, done).reply.Ok?
    requires c.warehouse == OddsPhase(c4, logId, failedAt, done).db.warehouse
    ensures OddsPhase(c, logId', failedAt', done).db.warehouse == c.warehouse
    ensures OddsPhase(c, logId', failedAt', done).reply == OddsPhase(c4, logId, failedAt, done).reply
  {
    var w4 := c4.warehouse;
    var names := BookmakerNames();
    var (bookmakers, next) := SeedBookmakers(w4.bookmakers, w4.nextBookmakerId, names);
    SeedBookmakersFinds(w4.bookmakers, w4.nextBookmakerId, names);
    SeedBookmakersIdle(bookmakers, next, names);
    var w5 := w4.(bookmakers := bookmakers, nextBookmakerId := next);
    var ids := BookmakerIds(bookmakers, names).value;
    OverUnderNamesCovered(ids);
    var joined := JoinRows(w5.staging, w5.teams, w5.matches);
    var oneXTwo := MarketId(w5.markets, OneXTwoMarket).value;
    var overUnder := MarketId(w5.markets, OverUnderMarket).value;
    var odds := OddsData(joined, ids, oneXTwo, OneXTwoMap);
    var ou := OddsData(joined, ids, overUnder, OverUnderMap);
    var t6 := InsertIgnoreAll(w5.odds, odds);
    var t7 := InsertIgnoreAll(t6, ou);
    assert c.warehouse == w5.(odds := t7);
    InsertIgnoreAllKeys(w5.odds, odds);
    InsertIgnoreAllKeys(t6, ou);
    InsertIgnoreAllPresent(t7, odds);
    InsertIgnoreAllPresent(t7, ou);
  }

  /** Steps 1 to 5 on a warehouse that holds what they wrote change nothing. */
  lemma MatchesLoadedFixpoint(w: Warehouse, v: Warehouse)
    requires MatchesLoaded(w).Ok?
    requires var w2 := MatchesLoaded(w).value.0;
      v.staging == w.staging && ReferencesOf(v) == ReferencesOf(w2) && v.matches == w2.matches
    ensures MatchesLoaded(v) == Ok((v, MatchesLoaded(w).value.1, MatchesLoaded(w).value.2))
  {
    var w1 := SeedReferences(w).value.0;
    SeedReferencesFixpoint(w, v);
    MatchStageFixpoint(w1, v);
  }

  /**
   * Running the job again right after a successful run adds no row to any data table
   * and reports the same summary: only the job log grows.
   */
  lemma RerunChangesOnlyAudit(db: Db, clock: Clock, clock': Clock)
    requires EtlRun(db, clock, PerName).reply.Ok?
    ensures var first := EtlRun(db, clock, PerName);
      var second := EtlRun(first.db, clock', PerName);
      second.db.warehouse == first.db.warehouse && second.reply == first.reply
  {
    var first := EtlRun(db, clock, PerName);
    var (w2, lines, processed) := MatchesLoaded(db.warehouse).value;
    var c0 := db.(audit := OpenLog(db.audit, clock.start));
    var logId := db.audit.nextLogId;
    var (w3, statistics) := StatisticsStage(w2);
    var w4 := MarketStage(w3);
    var c4 := Db(w4, UpdateLog(c0.audit, logId, MarkCompleted(clock.completed, processed)));
    var done := lines + [MatchesInserted(processed), StatisticsInserted(statistics), MarketsInserted(|MarketRows|)];
    assert first == OddsPhase(c4, logId, clock.failed, done);
    var v := first.db.warehouse;
    OddsPhaseFrame(c4, logId, clock.failed, done);
    MatchesLoadedCount(db.warehouse);
    MatchesLoadedFixpoint(db.warehouse, v);
    StatisticsStageFixpoint(w2, v);
    MarketStageFixpoint(w3, v);
    var c0' := first.db.(audit := OpenLog(first.db.audit, clock'.start));
    var logId' := first.db.audit.nextLogId;
    var c4' := Db(v, UpdateLog(c0'.audit, logId', MarkCompleted(clock'.completed, processed)));
    assert EtlRun(first.db, clock', PerName) == OddsPhase(c4', logId', clock'.failed, done);
    OddsPhaseFixpoint(c4, logId, clock.failed, done, c4', logId', clock'.failed);
  }
}
