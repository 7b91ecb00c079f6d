/**
 * The maintenance operations around the pipeline: bookmaker deduplication, emptying
 * the data tables, clearing the job log, the two log listings and the per-matchday
 * points report.
 */
module Maintenance {
  import opened Wrappers
  import opened Schema
  import opened Tables
  import opened Sorting
  import opened Derive
  import opened Stages

  // ---------------------------------------------------------------- bookmaker deduplication

  /** A name held by more than one row. */
  ghost predicate Duplicated(bookmakers: seq<Bookmaker>, name: string) {
    exists i, j :: 0 <= i < j < |bookmakers| && bookmakers[i].name == name && bookmakers[j].name == name
  }

  /** `COUNT(*)` of the rows carrying `name`: as many as the rows a filter on the name keeps. */
  function NameCount(bookmakers: seq<Bookmaker>, name: string): (n: nat)
    ensures n <= |bookmakers|
    ensures n == |Filter((b: Bookmaker) => b.name == name, bookmakers)|
  {
    if bookmakers == [] then 0
    else (if bookmakers[0].name == name then 1 else 0) + NameCount(bookmakers[1..], name)
  }

  /** `GROUP BY BookmakerName HAVING COUNT(*) > 1`. */
  function DuplicateNames(bookmakers: seq<Bookmaker>): set<string> {
    set b | b in bookmakers && NameCount(bookmakers, b.name) > 1 :: b.name
  }

  /** `MIN(BookmakerID)` of the rows with this name. */
  function MinId(bookmakers: seq<Bookmaker>, name: string): (m: nat)
    requires exists b :: b in bookmakers && b.name == name
    ensures Bookmaker(m, name) in bookmakers
    ensures forall b :: b in bookmakers && b.name == name ==> m <= b.id
  {
    if bookmakers[0].name == name && !(exists b :: b in bookmakers[1..] && b.name == name) then
      assert forall b :: b in bookmakers ==> b == bookmakers[0] || b in bookmakers[1..];
      bookmakers[0].id
    else if bookmakers[0].name != name then
      assert forall b :: b in bookmakers ==> b == bookmakers[0] || b in bookmakers[1..];
      MinId(bookmakers[1..], name)
    else
      assert forall b :: b in bookmakers ==> b == bookmakers[0] || b in bookmakers[1..];
      var m := MinId(bookmakers[1..], name);
      if bookmakers[0].id <= m then bookmakers[0].id else m
  }

  /** The row with this id, if any. */
  function RowWithId(bookmakers: seq<Bookmaker>, id: nat): (r: Option<Bookmaker>)
    ensures r.Some? <==> exists b :: b in bookmakers && b.id == id
    ensures r.Some? ==> r.value in bookmakers && r.value.id == id
  {
    if bookmakers == [] then None
    else if bookmakers[0].id == id then Some(bookmakers[0])
    else
      assert forall b :: b in bookmakers ==> b == bookmakers[0] || b in bookmakers[1..];
      RowWithId(bookmakers[1..], id)
  }

  /**
   * The id an odds row points at after the UPDATE: the minimum id of its bookmaker's
   * name; an id with no Bookmakers row is left alone (the join finds nothing).
   */
  function Canonical(bookmakers: seq<Bookmaker>, id: nat): nat {
    match RowWithId(bookmakers, id)
    case None => id
    case Some(b) => MinId(bookmakers, b.name)
  }

  /** The repointing UPDATE over BettingOdds; only BookmakerID changes. */
  function Repoint(bookmakers: seq<Bookmaker>, odds: Table<OddsKey, real>): (r: Table<OddsKey, real>)
    ensures |r.rows| == |odds.rows| && r.next == odds.next
    ensures forall i :: 0 <= i < |odds.rows| ==>
      r.rows[i] == odds.rows[i].(key := odds.rows[i].key.(bookmaker := Canonical(bookmakers, odds.rows[i].key.bookmaker)))
  {
    var rows := seq(|odds.rows|, i requires 0 <= i < |odds.rows| =>
      odds.rows[i].(key := odds.rows[i].key.(bookmaker := Canonical(bookmakers, odds.rows[i].key.bookmaker))));
    Table(rows, odds.next)
  }

  /** The unique key of BettingOdds holds: no two rows share (match, bookmaker, market, outcome). */
  ghost predicate OddsKeysDistinct(t: Table<OddsKey, real>) {
    forall i, j :: 0 <= i < j < |t.rows| ==> t.rows[i].key != t.rows[j].key
  }

  /** The DELETE: keep, for every name, only its minimum-id row. */
  function KeepMinimum(bookmakers: seq<Bookmaker>): (r: seq<Bookmaker>)
    ensures forall b :: b in r <==> b in bookmakers && b.id == MinId(bookmakers, b.name)
  {
    Filter(b => IsMinimum(bookmakers, b), bookmakers)
  }

  /** A row whose id is the minimum of its name. */
  predicate IsMinimum(bookmakers: seq<Bookmaker>, b: Bookmaker) {
    b in bookmakers && b.id == MinId(bookmakers, b.name)
  }

  /** The rows `keep` accepts, in storage order. */
  function Filter(keep: Bookmaker -> bool, rows: seq<Bookmaker>): (r: seq<Bookmaker>)
    ensures forall b :: b in r <==> b in rows && keep(b)
  {
    if rows == [] then []
    else
      assert forall b :: b in rows ==> b == rows[0] || b in rows[1..];
      var tail := Filter(keep, rows[1..]);
      if keep(rows[0]) then [rows[0]] + tail else tail
  }

  datatype CleanupReply = NoDuplicates | DuplicatesFixed(names: nat)
  datatype CleanupError =
    | OddsKeyClash       // the UPDATE would give two odds rows the same unique key
    | ConstraintFailed   // ALTER TABLE failed with an error other than "already exists"

  /**
   * `deduplicate_bookmakers`. `constraintFails` stands for an ALTER TABLE error that is
   * not the tolerated "Duplicate" / "already exists" one. On an error nothing changes.
   */
  function Deduplicate(bookmakers: seq<Bookmaker>, odds: Table<OddsKey, real>, constraintFails: bool)
    : Result<(seq<Bookmaker>, Table<OddsKey, real>, CleanupReply), CleanupError>
  {
    if DuplicateNames(bookmakers) == {} then Ok((bookmakers, odds, NoDuplicates))
    else
      var repointed := Repoint(bookmakers, odds);
      if !OddsKeysUnique(repointed.rows) then Err(OddsKeyClash)
      else if constraintFails then Err(ConstraintFailed)
      else Ok((KeepMinimum(bookmakers), repointed, DuplicatesFixed(|DuplicateNames(bookmakers)|)))
  }

  function OddsKeysUnique(rows: seq<Row<OddsKey, real>>): (b: bool)
    ensures b <==> forall i, j :: 0 <= i < j < |rows| ==> rows[i].key != rows[j].key
  {
    if rows == [] then true
    else
      assert forall k :: k in Keys(Table(rows[1..], 0)) <==> exists i :: 1 <= i < |rows| && rows[i].key == k by {
        forall k ensures k in Keys(Table(rows[1..], 0)) <==> exists i :: 1 <= i < |rows| && rows[i].key == k {
          if exists i :: 1 <= i < |rows| && rows[i].key == k {
            var i :| 1 <= i < |rows| && rows[i].key == k;
            assert rows[1..][i - 1] == rows[i];
          }
        }
      }
      var rest := OddsKeysUnique(rows[1..]);
      assert rest <==> forall i, j :: 1 <= i < j < |rows| ==> rows[i].key != rows[j].key by {
        if !rest {
          var i, j :| 0 <= i < j < |rows[1..]| && rows[1..][i].key == rows[1..][j].key;
          assert rows[i + 1] == rows[1..][i] && rows[j + 1] == rows[1..][j];
        }
      }
      rows[0].key !in Keys(Table(rows[1..], 0)) && rest
  }

  /** A name counts as duplicated exactly when two rows carry it. */
  lemma DuplicateNamesSpec(bookmakers: seq<Bookmaker>)
    ensures forall name :: name in DuplicateNames(bookmakers) <==> Duplicated(bookmakers, name)
  {
    forall name ensures name in DuplicateNames(bookmakers) <==> Duplicated(bookmakers, name) {
      if Duplicated(bookmakers, name) {
        var i, j :| 0 <= i < j < |bookmakers| && bookmakers[i].name == name && bookmakers[j].name == name;
        TwoRowsCount(bookmakers, i, j);
        assert bookmakers[i] in bookmakers;
      } else {
        NameCountAtMostOne(bookmakers, name);
      }
    }
  }

  lemma {:induction false} NameCountAtMostOne(bookmakers: seq<Bookmaker>, name: string)
    requires !Duplicated(bookmakers, name)
    ensures NameCount(bookmakers, name) <= 1
  {
    if bookmakers != [] {
      assert !Duplicated(bookmakers[1..], name);
      NameCountAtMostOne(bookmakers[1..], name);
      if bookmakers[0].name == name {
        NameCountPositive(bookmakers[1..], name);
      }
    }
  }

  lemma {:induction false} NameCountPositive(bookmakers: seq<Bookmaker>, name: string)
    ensures NameCount(bookmakers, name) > 0 ==> exists j :: 0 <= j < |bookmakers| && bookmakers[j].name == name
  {
    if bookmakers != [] && bookmakers[0].name != name {
      NameCountPositive(bookmakers[1..], name);
      if NameCount(bookmakers, name) > 0 {
        var j :| 0 <= j < |bookmakers[1..]| && bookmakers[1..][j].name == name;
        assert bookmakers[j + 1] == bookmakers[1..][j];
      }
    }
  }

  lemma {:induction false} TwoRowsCount(bookmakers: seq<Bookmaker>, i: nat, j: nat)
    requires i < |bookmakers| && j < |bookmakers| && i != j && bookmakers[i].name == bookmakers[j].name
    ensures NameCount(bookmakers, bookmakers[i].name) > 1
  {
    if i > 0 && j > 0 {
      TwoRowsCount(bookmakers[1..], i - 1, j - 1);
    } else {
      var k := if i == 0 then j else i;
      NameCountOf(bookmakers[1..], k - 1);
    }
  }

  lemma {:induction false} NameCountOf(bookmakers: seq<Bookmaker>, k: nat)
    requires k < |bookmakers|
    ensures NameCount(bookmakers, bookmakers[k].name) > 0
  {
    if k > 0 {
      NameCountOf(bookmakers[1..], k - 1);
    }
  }

  /** With no duplicated name the repair reports so and changes nothing. */
  lemma DeduplicateIdle(bookmakers: seq<Bookmaker>, odds: Table<OddsKey, real>, constraintFails: bool)
    requires forall name :: !Duplicated(bookmakers, name)
    ensures Deduplicate(bookmakers, odds, constraintFails) == Ok((bookmakers, odds, NoDuplicates))
  {
    DuplicateNamesSpec(bookmakers);
  }

  /** The DELETE keeps ids distinct. */
  lemma {:induction false} FilterIdsDistinct(keep: Bookmaker -> bool, rows: seq<Bookmaker>)
    requires IdsDistinct(rows)
    ensures IdsDistinct(Filter(keep, rows))
  {
    if rows != [] {
      FilterIdsDistinct(keep, rows[1..]);
      var tail := Filter(keep, rows[1..]);
      if keep(rows[0]) {
        forall b | b in tail ensures b.id != rows[0].id {
          var k :| 0 <= k < |rows[1..]| && rows[1..][k] == b;
          assert rows[k + 1] == b;
        }
        var r := [rows[0]] + tail;
        forall i, j | 0 <= i < j < |r| ensures r[i].id != r[j].id {
          assert r[j] == tail[j - 1] && r[j] in tail;
          if i > 0 {
            assert r[i] == tail[i - 1];
          }
        }
      }
    }
  }

  /**
   * After a successful repair every name keeps exactly its minimum-id row and no name
   * is duplicated any more; the reply counts the names that were duplicated.
   */
  lemma DeduplicateKeepsMinimum(bookmakers: seq<Bookmaker>, odds: Table<OddsKey, real>, constraintFails: bool)
    requires IdsDistinct(bookmakers)
    requires Deduplicate(bookmakers, odds, constraintFails).Ok?
    ensures var (kept, _, reply) := Deduplicate(bookmakers, odds, constraintFails).value;
      && (forall b :: b in kept <==> b in bookmakers && b.id == MinId(bookmakers, b.name))
      && (forall b :: b in bookmakers ==> Bookmaker(MinId(bookmakers, b.name), b.name) in kept)
      && IdsDistinct(kept)
      && (forall name :: !Duplicated(kept, name))
      && (reply == NoDuplicates <==> forall name :: !Duplicated(bookmakers, name))
      && (reply.DuplicatesFixed? ==> reply.names == |DuplicateNames(bookmakers)|)
  {
    DuplicateNamesSpec(bookmakers);
    if DuplicateNames(bookmakers) == {} {
      forall b | b in bookmakers ensures b.id == MinId(bookmakers, b.name) {
        SingleRowIsMinimum(bookmakers, b);
      }
      KeptRowsShape(bookmakers, bookmakers);
    } else {
      FilterIdsDistinct(b => IsMinimum(bookmakers, b), bookmakers);
      KeptRowsShape(bookmakers, KeepMinimum(bookmakers));
    }
  }

  /** The repair only deletes Bookmakers rows, so the primary key and the counter stay valid. */
  lemma DeduplicateKeepsBookmakersValid(bookmakers: seq<Bookmaker>, odds: Table<OddsKey, real>, constraintFails: bool, next: nat)
    requires BookmakersValid(bookmakers, next)
    requires Deduplicate(bookmakers, odds, constraintFails).Ok?
    ensures BookmakersValid(Deduplicate(bookmakers, odds, constraintFails).value.0, next)
  {
    if DuplicateNames(bookmakers) != {} {
      var kept := KeepMinimum(bookmakers);
      FilterIdsDistinct(b => IsMinimum(bookmakers, b), bookmakers);
      forall i | 0 <= i < |kept| ensures 1 <= kept[i].id < next {
        assert kept[i] in bookmakers;
      }
    }
  }

  /** Rows that are exactly the minimum-id rows hold every name once. */
  lemma KeptRowsShape(bookmakers: seq<Bookmaker>, kept: seq<Bookmaker>)
    requires IdsDistinct(kept)
    requires forall b :: b in kept <==> b in bookmakers && b.id == MinId(bookmakers, b.name)
    ensures forall b :: b in bookmakers ==> Bookmaker(MinId(bookmakers, b.name), b.name) in kept
    ensures forall name :: !Duplicated(kept, name)
  {
  }

  /** A row that is alone with its name is its name's minimum. */
  lemma SingleRowIsMinimum(bookmakers: seq<Bookmaker>, b: Bookmaker)
    requires b in bookmakers && DuplicateNames(bookmakers) == {}
    ensures b.id == MinId(bookmakers, b.name)
  {
    DuplicateNamesSpec(bookmakers);
    var m := MinId(bookmakers, b.name);
    var i :| 0 <= i < |bookmakers| && bookmakers[i] == b;
    var j :| 0 <= j < |bookmakers| && bookmakers[j] == Bookmaker(m, b.name);
    assert !Duplicated(bookmakers, b.name);
  }

  /**
   * The odds side of a successful repair: no odds row is added or deleted, each keeps its
   * id, value, match, market and outcome, an odds row that pointed at a bookmaker now
   * points at the surviving row of that bookmaker's name, and the odds unique key holds.
   */
  lemma DeduplicateRepoints(bookmakers: seq<Bookmaker>, odds: Table<OddsKey, real>, constraintFails: bool)
    requires IdsDistinct(bookmakers) && OddsKeysDistinct(odds)
    requires Deduplicate(bookmakers, odds, constraintFails).Ok?
    ensures var (kept, repointed, _) := Deduplicate(bookmakers, odds, constraintFails).value;
      && |repointed.rows| == |odds.rows| && repointed.next == odds.next
      && OddsKeysDistinct(repointed)
      && (forall i :: 0 <= i < |odds.rows| ==>
            && repointed.rows[i].id == odds.rows[i].id
            && repointed.rows[i].val == odds.rows[i].val
            && repointed.rows[i].key.(bookmaker := 0) == odds.rows[i].key.(bookmaker := 0))
      && (forall i, b :: 0 <= i < |odds.rows| && b in bookmakers && b.id == odds.rows[i].key.bookmaker ==>
            Bookmaker(repointed.rows[i].key.bookmaker, b.name) in kept)
  {
    if DuplicateNames(bookmakers) != {} {
      RepointToSurvivor(bookmakers, odds);
    }
  }

  /** The repointing UPDATE sends an odds row to the row its bookmaker's name keeps. */
  lemma RepointToSurvivor(bookmakers: seq<Bookmaker>, odds: Table<OddsKey, real>)
    requires IdsDistinct(bookmakers)
    ensures var repointed := Repoint(bookmakers, odds);
      forall i, b :: 0 <= i < |odds.rows| && b in bookmakers && b.id == odds.rows[i].key.bookmaker ==>
        Bookmaker(repointed.rows[i].key.bookmaker, b.name) in KeepMinimum(bookmakers)
  {
    var kept, repointed := KeepMinimum(bookmakers), Repoint(bookmakers, odds);
    forall i, b | 0 <= i < |odds.rows| && b in bookmakers && b.id == odds.rows[i].key.bookmaker
      ensures Bookmaker(repointed.rows[i].key.bookmaker, b.name) in kept
    {
      var found := RowWithId(bookmakers, b.id);
      assert found.value == b;
    }
  }

  /** A second repair right after a successful one finds nothing to do. */
  lemma DeduplicateTwice(bookmakers: seq<Bookmaker>, odds: Table<OddsKey, real>, constraintFails: bool, again: bool)
    requires IdsDistinct(bookmakers)
    requires Deduplicate(bookmakers, odds, constraintFails).Ok?
    ensures var (kept, repointed, _) := Deduplicate(bookmakers, odds, constraintFails).value;
      Deduplicate(kept, repointed, again) == Ok((kept, repointed, NoDuplicates))
  {
    DeduplicateKeepsMinimum(bookmakers, odds, constraintFails);
    var (kept, repointed, _) := Deduplicate(bookmakers, odds, constraintFails).value;
    DeduplicateIdle(kept, repointed, again);
  }

  // ---------------------------------------------------------------- emptying the tables

  /** The tables `clean_all_tables` truncates. */
  datatype TableName =
    | MatchStatistics | Matches | BettingOdds | Markets | Referees | Teams | Divisions | Seasons
    | StagingRaw

  /** The truncation order, dependants first. */
  const CleanOrder: seq<TableName> :=
    [MatchStatistics, Matches, BettingOdds, Markets, Referees, Teams, Divisions, Seasons, StagingRaw]

  /** `TRUNCATE TABLE t`: no rows, counter back to 1. */
  function Truncate(w: Warehouse, t: TableName): Warehouse {
    match t
    case MatchStatistics => w.(statistics := Empty())
    case Matches => w.(matches := Empty())
    case BettingOdds => w.(odds := Empty())
    case Markets => w.(markets := Empty())
    case Referees => w.(referees := Empty())
    case Teams => w.(teams := Empty())
    case Divisions => w.(divisions := Empty())
    case Seasons => w.(seasons := Empty())
    case StagingRaw => w.(staging := [])
  }

  /** The truncations of `ts`, one after another. */
  function TruncateAll(w: Warehouse, ts: seq<TableName>): Warehouse {
    if ts == [] then w else Truncate(TruncateAll(w, ts[..|ts| - 1]), ts[|ts| - 1])
  }

  /** Reference definition: every table named in `names` is empty, every other one as it was. */
  function Cleared(w: Warehouse, names: set<TableName>): Warehouse {
    Warehouse(
      if StagingRaw in names then [] else w.staging,
      if Teams in names then Empty() else w.teams,
      if Seasons in names then Empty() else w.seasons,
      if Referees in names then Empty() else w.referees,
      if Divisions in names then Empty() else w.divisions,
      if Matches in names then Empty() else w.matches,
      if MatchStatistics in names then Empty() else w.statistics,
      if Markets in names then Empty() else w.markets,
      w.bookmakers,
      w.nextBookmakerId,
      if BettingOdds in names then Empty() else w.odds)
  }

  /** Truncating a list of tables empties exactly the tables it names. */
  lemma {:induction false} TruncateAllClears(w: Warehouse, ts: seq<TableName>)
    ensures TruncateAll(w, ts) == Cleared(w, set t | t in ts)
  {
    if ts != [] {
      var init, last := ts[..|ts| - 1], ts[|ts| - 1];
      TruncateAllClears(w, init);
      assert (set t | t in ts) == (set t | t in init) + {last} by {
        assert ts == init + [last];
      }
      TruncateCleared(w, (set t | t in init), last);
    }
  }

  lemma TruncateCleared(w: Warehouse, names: set<TableName>, t: TableName)
    ensures Truncate(Cleared(w, names), t) == Cleared(w, names + {t})
  {
  }

  /**
   * `clean_all_tables` empties the nine data tables and resets their counters; the
   * bookmakers and their counter are untouched.
   */
  lemma CleanAllEmpties(w: Warehouse)
    ensures var r := TruncateAll(w, CleanOrder);
      && r.staging == [] && r.teams == Empty() && r.seasons == Empty() && r.referees == Empty()
      && r.divisions == Empty() && r.matches == Empty() && r.statistics == Empty()
      && r.markets == Empty() && r.odds == Empty()
      && r.bookmakers == w.bookmakers && r.nextBookmakerId == w.nextBookmakerId
  {
    TruncateAllClears(w, CleanOrder);
    assert forall t: TableName :: t in CleanOrder by {
      forall t: TableName ensures t in CleanOrder {
        match t
        case MatchStatistics => assert CleanOrder[0] == t;
        case Matches => assert CleanOrder[1] == t;
        case BettingOdds => assert CleanOrder[2] == t;
        case Markets => assert CleanOrder[3] == t;
        case Referees => assert CleanOrder[4] == t;
        case Teams => assert CleanOrder[5] == t;
        case Divisions => assert CleanOrder[6] == t;
        case Seasons => assert CleanOrder[7] == t;
        case StagingRaw => assert CleanOrder[8] == t;
      }
    }
  }

  // ---------------------------------------------------------------- the two log listings

  /** `ORDER BY StartTime DESC`. */
  function NewestRunsFirst(log: seq<LogEntry>): (r: seq<LogEntry>)
    ensures multiset(r) == multiset(log)
    ensures forall i, j :: 0 <= i < j < |r| ==> r[i].startTime >= r[j].startTime
  {
    var r := SortBy(log, (e: LogEntry) => -e.startTime);
    assert forall i, j :: 0 <= i < j < |r| ==> -r[i].startTime <= -r[j].startTime;
    r
  }

  /** `ORDER BY ErrorTimestamp DESC`. */
  function NewestFailuresFirst(letters: seq<DeadLetter>): (r: seq<DeadLetter>)
    ensures multiset(r) == multiset(letters)
    ensures forall i, j :: 0 <= i < j < |r| ==> r[i].errorTimestamp >= r[j].errorTimestamp
  {
    var r := SortBy(letters, (d: DeadLetter) => -d.errorTimestamp);
    assert forall i, j :: 0 <= i < j < |r| ==> -r[i].errorTimestamp <= -r[j].errorTimestamp;
    r
  }

  // ---------------------------------------------------------------- points by matchday

  /** One row of the report: the match date, the points the team took and the matchday. */
  datatype PointsRow = PointsRow(matchDate: Option<Date>, points: nat, matchday: nat)

  /** `ORDER BY m.MatchDate`: NULL dates first. */
  function DateKey(row: Row<MatchKey, MatchInfo>): int {
    match row.key.date
    case None => -1
    case Some(d) => DayNumber(d)
  }

  /** A dated match never sorts before an undated one, and dated ones sort by day. */
  lemma DateKeyOrder(a: Row<MatchKey, MatchInfo>, b: Row<MatchKey, MatchInfo>)
    requires DateKey(a) <= DateKey(b) && a.key.date.Some?
    ensures b.key.date.Some? && DayNumber(a.key.date.value) <= DayNumber(b.key.date.value)
  {
  }

  /** The WHERE clause: the season, a match the team played, a decided result. */
  predicate Played(row: Row<MatchKey, MatchInfo>, seasonId: nat, teamId: nat) {
    && row.val.season == seasonId
    && (row.key.homeTeam == teamId || row.key.awayTeam == teamId)
    && row.val.score.ftr in {Some("H"), Some("D"), Some("A")}
  }

  function PlayedMatches(rows: seq<Row<MatchKey, MatchInfo>>, seasonId: nat, teamId: nat): (r: seq<Row<MatchKey, MatchInfo>>)
    ensures forall row :: row in r <==> row in rows && Played(row, seasonId, teamId)
  {
    if rows == [] then []
    else
      var rest := PlayedMatches(rows[1..], seasonId, teamId);
      assert forall row :: row in rows <==> row == rows[0] || row in rows[1..];
      if Played(rows[0], seasonId, teamId) then [rows[0]] + rest else rest
  }

  /**
   * The query of `get_team_points_by_matchday`: the team's decided matches of the
   * season by date, each with the points the team took. An unknown season or team
   * matches nothing.
   */
  function PointsQuery(w: Warehouse, seasonName: string, teamName: string): (r: seq<(Option<Date>, nat)>)
    ensures forall i :: 0 <= i < |r| ==> r[i].1 in {0, 1, 3}
    ensures forall i, j :: 0 <= i < j < |r| && r[i].0.Some? ==>
      r[j].0.Some? && DayNumber(r[i].0.value) <= DayNumber(r[j].0.value)
  {
    match (IdOf(w.seasons, seasonName), IdOf(w.teams, teamName))
    case (Some(seasonId), Some(teamId)) =>
      ScoreRows(SortBy(PlayedMatches(w.matches.rows, seasonId, teamId), DateKey), teamId)
    case _ => []
  }

  /** The SELECT list over matches already in date order: the date and the team's points. */
  function ScoreRows(sorted: seq<Row<MatchKey, MatchInfo>>, teamId: nat): (r: seq<(Option<Date>, nat)>)
    requires SortedBy(sorted, DateKey)
    ensures |r| == |sorted|
    ensures forall i :: 0 <= i < |r| ==>
      r[i] == (sorted[i].key.date, Points(teamId, sorted[i].key.homeTeam, sorted[i].key.awayTeam, sorted[i].val.score.ftr))
    ensures forall i :: 0 <= i < |r| ==> r[i].1 in {0, 1, 3}
    ensures forall i, j :: 0 <= i < j < |r| && r[i].0.Some? ==>
      r[j].0.Some? && DayNumber(r[i].0.value) <= DayNumber(r[j].0.value)
  {
    var r := seq(|sorted|, i requires 0 <= i < |sorted| =>
      (sorted[i].key.date, Points(teamId, sorted[i].key.homeTeam, sorted[i].key.awayTeam, sorted[i].val.score.ftr)));
    assert forall i, j :: 0 <= i < j < |r| && r[i].0.Some? ==>
      r[j].0.Some? && DayNumber(r[i].0.value) <= DayNumber(r[j].0.value) by {
      forall i, j | 0 <= i < j < |r| && r[i].0.Some?
        ensures r[j].0.Some? && DayNumber(r[i].0.value) <= DayNumber(r[j].0.value)
      {
        DateKeyOrder(sorted[i], sorted[j]);
      }
    }
    r
  }

  /** The report: the query's rows numbered by matchday from 1. */
  function TeamPointsByMatchday(w: Warehouse, seasonName: string, teamName: string): (r: seq<PointsRow>)
    ensures forall i :: 0 <= i < |r| ==> r[i].matchday == i + 1 && r[i].points in {0, 1, 3}
    ensures forall i, j :: 0 <= i < j < |r| && r[i].matchDate.Some? ==>
      r[j].matchDate.Some? && DayNumber(r[i].matchDate.value) <= DayNumber(r[j].matchDate.value)
  {
    Numbered(PointsQuery(w, seasonName, teamName))
  }

  /** The Python loop that numbers the query rows by matchday from 1. */
  function Numbered(results: seq<(Option<Date>, nat)>): (r: seq<PointsRow>)
    ensures |r| == |results|
    ensures forall i :: 0 <= i < |r| ==> r[i] == PointsRow(results[i].0, results[i].1, i + 1)
  {
    seq(|results|, i requires 0 <= i < |results| => PointsRow(results[i].0, results[i].1, i + 1))
  }

  /**
   * Every report row is one of the team's decided matches of that season, scored by the
   * points rule, and there are as many rows as such matches; an unknown season or team
   * gives an empty report.
   */
  lemma TeamPointsRowsAreMatches(w: Warehouse, seasonName: string, teamName: string)
    ensures var r := TeamPointsByMatchday(w, seasonName, teamName);
      && (seasonName !in Keys(w.seasons) || teamName !in Keys(w.teams) ==> r == [])
      && (seasonName in Keys(w.seasons) && teamName in Keys(w.teams) ==>
            var seasonId, teamId := IdOf(w.seasons, seasonName).value, IdOf(w.teams, teamName).value;
            && |r| == |PlayedMatches(w.matches.rows, seasonId, teamId)|
            && forall i :: 0 <= i < |r| ==>
                 exists row ::
                   row in w.matches.rows && Played(row, seasonId, teamId) &&
                   r[i] == PointsRow(row.key.date, Points(teamId, row.key.homeTeam, row.key.awayTeam, row.val.score.ftr), i + 1))
  {
    if seasonName in Keys(w.seasons) && teamName in Keys(w.teams) {
      var seasonId, teamId := IdOf(w.seasons, seasonName).value, IdOf(w.teams, teamName).value;
      var played := PlayedMatches(w.matches.rows, seasonId, teamId);
      assert TeamPointsByMatchday(w, seasonName, teamName) == Numbered(ScoreRows(SortBy(played, DateKey), teamId));
      NumberedScoresAreMatches(w.matches.rows, played, seasonId, teamId);
    } else {
      assert PointsQuery(w, seasonName, teamName) == [];
    }
  }

  /** The numbered, scored, date-ordered rows of a set of played matches: one per match. */
  lemma NumberedScoresAreMatches(rows: seq<Row<MatchKey, MatchInfo>>, played: seq<Row<MatchKey, MatchInfo>>, seasonId: nat, teamId: nat)
    requires forall row :: row in played ==> row in rows && Played(row, seasonId, teamId)
    ensures var r := Numbered(ScoreRows(SortBy(played, DateKey), teamId));
      && |r| == |played|
      && forall i :: 0 <= i < |r| ==>
           exists row ::
             row in rows && Played(row, seasonId, teamId) &&
             r[i] == PointsRow(row.key.date, Points(teamId, row.key.homeTeam, row.key.awayTeam, row.val.score.ftr), i + 1)
  {
    var sorted := SortBy(played, DateKey);
    var r := Numbered(ScoreRows(sorted, teamId));
    forall i | 0 <= i < |r|
      ensures exists row ::
        row in rows && Played(row, seasonId, teamId) &&
        r[i] == PointsRow(row.key.date, Points(teamId, row.key.homeTeam, row.key.awayTeam, row.val.score.ftr), i + 1)
    {
      var row := sorted[i];
      assert row in multiset(played);
      assert r[i] == PointsRow(row.key.date, Points(teamId, row.key.homeTeam, row.key.awayTeam, row.val.score.ftr), i + 1);
    }
  }


}
