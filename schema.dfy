/**
 * Values the pipeline stores: staging cells and records, calendar dates and times of
 * day, and the row payloads of the normalised tables.
 */
module Schema {
  import opened Wrappers

  /** A reading of `datetime.now()`; only its order matters to the model. */
  type Timestamp = int

  datatype CalendarDate = CalendarDate(year: int, month: int, day: int)

  /** A MySQL DATE value. */
  type Date = d: CalendarDate | 0 <= d.year <= 9999 && 1 <= d.month <= 12 && 1 <= d.day <= 31
    witness CalendarDate(2000, 1, 1)

  /** A MySQL TIME of day, in seconds since midnight. */
  type Time = s: int | 0 <= s < 86400

  /** A number that grows with the calendar order of dates. */
  function DayNumber(d: Date): (n: nat)
    ensures n < 416 * 10000
  {
    d.year * 416 + d.month * 32 + d.day
  }

  lemma DayNumberOrdersDates(a: Date, b: Date)
    ensures DayNumber(a) < DayNumber(b) <==>
      a.year < b.year || (a.year == b.year && (a.month < b.month || (a.month == b.month && a.day < b.day)))
  {
  }

  /** One cell of a staging row as the database stores it; `Null` is SQL NULL. */
  datatype Cell = Null | Text(text: string) | Whole(n: int) | Decimal(x: real) | Day(date: Date) | Clock(time: Time)

  /** A staging row: column name to cell; a column the row lacks reads as NULL. */
  type Record = map<string, Cell>

  /*
   * Typed reads of one cell. A cell of another kind than the one asked for reads as
   * NULL here, where Python would raise or compare mismatched types instead; the model
   * takes each staging column to hold cells of its own kind.
   */

  function TextAt(r: Record, column: string): Option<string> {
    if column in r && r[column].Text? then Some(r[column].text) else None
  }

  function WholeAt(r: Record, column: string): Option<int> {
    if column in r && r[column].Whole? then Some(r[column].n) else None
  }

  /** An odds cell: a decimal, or a whole number read as one. */
  function NumberAt(r: Record, column: string): Option<real> {
    if column !in r then None
    else match r[column]
      case Decimal(x) => Some(x)
      case Whole(n) => Some(n as real)
      case _ => None
  }

  function DateAt(r: Record): Option<Date> {
    if "Date" in r && r["Date"].Day? then Some(r["Date"].date) else None
  }

  function TimeAt(r: Record): Option<Time> {
    if "Time" in r && r["Time"].Clock? then Some(r["Time"].time) else None
  }

  /** The twelve statistics columns the statistics stage copies, in insert order. */
  const StatColumns: seq<string> :=
    ["HS", "AS", "HST", "AST", "HC", "AC", "HF", "AF", "HY", "AY", "HR", "AR"]

  /** Full-time and half-time goals and result codes of a match. */
  datatype Score = Score(
    fthg: Option<int>, ftag: Option<int>, ftr: Option<string>,
    hthg: Option<int>, htag: Option<int>, htr: Option<string>)

  function ScoreOf(r: Record): Score {
    Score(WholeAt(r, "FTHG"), WholeAt(r, "FTAG"), TextAt(r, "FTR"),
          WholeAt(r, "HTHG"), WholeAt(r, "HTAG"), TextAt(r, "HTR"))
  }

  /** Season payload: StartDate and EndDate. */
  datatype SeasonDates = SeasonDates(start: Date, end: Date)

  /** Referee payload: YearsExperience and Nationality. */
  datatype RefereeInfo = RefereeInfo(yearsExperience: Option<int>, nationality: Option<string>)

  /** Division payload: LeagueName, Country, Tier. */
  datatype DivisionInfo = DivisionInfo(leagueName: string, country: string, tier: int)

  /** The natural key of a match: (MatchDate, MatchTime, HomeTeamID, AwayTeamID). */
  datatype MatchKey = MatchKey(date: Option<Date>, time: Option<Time>, homeTeam: nat, awayTeam: nat)

  /** The rest of a match row. */
  datatype MatchInfo = MatchInfo(season: nat, division: nat, score: Score, referee: Option<nat>)

  /** The natural key of a market: (MarketType, MarketSubtype, Parameter). */
  datatype MarketKey = MarketKey(marketType: string, subtype: string, parameter: string)

  /** The natural key of a betting-odds row. */
  datatype OddsKey = OddsKey(matchId: nat, bookmaker: nat, market: nat, outcome: string)

  /** A Bookmakers row; its name carries no uniqueness guarantee. */
  datatype Bookmaker = Bookmaker(id: nat, name: string)

  datatype Status = Running | Completed | Failed

  /** Why a pipeline run raised; the model keeps the cause instead of `str(e)`. */
  datatype EtlError =
    | TeamNameIsNull                 // `team[:12]` on a NULL name
    | NoStagingDates                 // MIN(Date) is NULL, so `.year` fails
    | NoSeason                       // `fetchone()[0]` on an empty Seasons table
    | DivisionNotFound(code: Option<string>)
    | TeamNotFound(name: Option<string>)
    | BookmakerNameUnbound           // `name` read before the loop binds it
    | BookmakerNotFound(bookmaker: string)
    | MarketNotFound(market: MarketKey)

  /** An ETLLog row. */
  datatype LogEntry = LogEntry(
    logId: nat, processName: string, startTime: Timestamp, endTime: Option<Timestamp>,
    recordsProcessed: Option<int>, recordsFailed: Option<int>, status: Status,
    errorMessage: Option<EtlError>)

  /** An ETLDeadLetter row, written by a producer outside the pipeline. */
  datatype DeadLetter = DeadLetter(
    id: nat, sourceTable: string, sourceId: Option<int>, errorMessage: string, errorTimestamp: Timestamp)
}
