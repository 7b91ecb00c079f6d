/**
 * The stages of an ETL run as functions of the tables they read: reference seeding
 * (teams, season, referees, divisions), match building, statistics, markets,
 * bookmakers and the two odds expansions. The loops that fill `match_data`,
 * `stat_data`, `odds_data` and `ou_odds` are methods proved equal to these functions.
 */
module Stages {
  import opened Wrappers
  import opened Schema
  import opened Tables
  import opened Sorting
  import opened Derive

  /** Every data table the pipeline reads or writes, with its auto-increment counter. */
  datatype Warehouse = Warehouse(
    staging: seq<Record>,
    teams: Table<string, string>,               // TeamName -> ShortName
    seasons: Table<string, SeasonDates>,        // SeasonName -> dates
    referees: Table<string, RefereeInfo>,       // RefereeName -> details
    divisions: Table<string, DivisionInfo>,     // DivisionCode -> league
    matches: Table<MatchKey, MatchInfo>,
    statistics: Table<nat, seq<Option<int>>>,   // MatchID -> the twelve counts
    markets: Table<MarketKey, string>,          // -> Description
    bookmakers: seq<Bookmaker>,
    nextBookmakerId: nat,
    odds: Table<OddsKey, real>)                 // -> OddsValue

  /** The four tables a match row is resolved against. */
  datatype References = References(
    seasons: Table<string, SeasonDates>,
    divisions: Table<string, DivisionInfo>,
    teams: Table<string, string>,
    referees: Table<string, RefereeInfo>)

  function ReferencesOf(w: Warehouse): References {
    References(w.seasons, w.divisions, w.teams, w.referees)
  }

  // ---------------------------------------------------------------- distinct values

  /** `SELECT DISTINCT`: the first occurrence of every value, in order. */
  function Distinct<T(==,!new)>(xs: seq<T>): (r: seq<T>)
    ensures forall x :: x in r <==> x in xs
    ensures forall i, j :: 0 <= i < j < |r| ==> r[i] != r[j]
  {
    if xs == [] then []
    else
      assert xs == xs[..|xs| - 1] + [xs[|xs| - 1]];
      var p := Distinct(xs[..|xs| - 1]);
      if xs[|xs| - 1] in p then p else p + [xs[|xs| - 1]]
  }

  /** Some staging row holds `v` in `column` (None standing for NULL). */
  ghost predicate Mentions(staging: seq<Record>, column: string, v: Option<string>) {
    exists i :: 0 <= i < |staging| && TextAt(staging[i], column) == v
  }

  function ColumnValues(staging: seq<Record>, column: string): (r: seq<Option<string>>)
    ensures |r| == |staging|
    ensures forall i :: 0 <= i < |staging| ==> r[i] == TextAt(staging[i], column)
    ensures forall v :: v in r <==> Mentions(staging, column, v)
  {
    seq(|staging|, i requires 0 <= i < |staging| => TextAt(staging[i], column))
  }

  /** The values of a text column that are neither NULL nor empty. */
  function NonEmptyTexts(staging: seq<Record>, column: string): (r: seq<string>)
    ensures forall x :: x in r <==> x != "" && Mentions(staging, column, Some(x))
  {
    if staging == [] then []
    else
      var n := |staging| - 1;
      var p := NonEmptyTexts(staging[..n], column);
      assert forall i :: 0 <= i < n ==> staging[..n][i] == staging[i];
      var v := TextAt(staging[n], column);
      if v.Some? && v.value != "" then p + [v.value] else p
  }

  // ---------------------------------------------------------------- step 1: teams

  /** `SELECT DISTINCT HomeTeam ... UNION SELECT DISTINCT AwayTeam`. */
  function TeamCandidates(staging: seq<Record>): (r: seq<Option<string>>)
    ensures forall x :: x in r <==> Mentions(staging, "HomeTeam", x) || Mentions(staging, "AwayTeam", x)
  {
    var homes := ColumnValues(staging, "HomeTeam");
    var aways := ColumnValues(staging, "AwayTeam");
    assert forall x :: x in homes + aways <==> x in homes || x in aways;
    Distinct(homes + aways)
  }

  /** The `(team, team[:12])` pairs; a NULL name makes the slice raise. */
  function TeamRows(staging: seq<Record>): (r: Result<seq<(string, string)>, EtlError>)
    ensures r.Err? <==> None in TeamCandidates(staging)
    ensures r.Err? ==> r.error == TeamNameIsNull
  {
    var names := TeamCandidates(staging);
    if None in names then Err(TeamNameIsNull)
    else Ok(seq(|names|, i requires 0 <= i < |names| => (names[i].value, ShortName(names[i].value))))
  }

  /** Teams come from the distinct union of home and away names, each with its short name. */
  lemma TeamRowsSpec(staging: seq<Record>)
    requires TeamRows(staging).Ok?
    ensures var data := TeamRows(staging).value;
      && (forall n :: n in KeysOf(data) <==> Mentions(staging, "HomeTeam", Some(n)) || Mentions(staging, "AwayTeam", Some(n)))
      && (forall kv :: kv in data ==> kv.1 == ShortName(kv.0))
      && (forall i, j :: 0 <= i < j < |data| ==> data[i].0 != data[j].0)
  {
    var names := TeamCandidates(staging);
    var data := TeamRows(staging).value;
    assert forall i :: 0 <= i < |data| ==> data[i] == (names[i].value, ShortName(names[i].value));
    forall n ensures n in KeysOf(data) <==> Some(n) in names {
      if Some(n) in names {
        var i :| 0 <= i < |names| && names[i] == Some(n);
        assert data[i].0 == n;
      }
      if n in KeysOf(data) {
        var i :| 0 <= i < |data| && data[i].0 == n;
        assert names[i] == Some(n);
      }
    }
    forall i, j | 0 <= i < j < |data| ensures data[i].0 != data[j].0 {
      assert names[i] != names[j];
    }
  }

  // ---------------------------------------------------------------- step 2: season

  function StagingDates(staging: seq<Record>): (r: seq<Date>)
    ensures forall d :: d in r <==> exists i :: 0 <= i < |staging| && DateAt(staging[i]) == Some(d)
  {
    if staging == [] then []
    else
      var n := |staging| - 1;
      assert forall i :: 0 <= i < n ==> staging[..n][i] == staging[i];
      var p := StagingDates(staging[..n]);
      match DateAt(staging[n])
      case None => p
      case Some(d) => p + [d]
  }

  /** `MIN(Date)`. */
  function Earliest(ds: seq<Date>): (d: Date)
    requires ds != []
    ensures d in ds && forall e :: e in ds ==> DayNumber(d) <= DayNumber(e)
  {
    if |ds| == 1 then ds[0]
    else
      var m := Earliest(ds[1..]);
      assert forall e :: e in ds ==> e == ds[0] || e in ds[1..];
      if DayNumber(ds[0]) <= DayNumber(m) then ds[0] else m
  }

  /** `MAX(Date)`. */
  function Latest(ds: seq<Date>): (d: Date)
    requires ds != []
    ensures d in ds && forall e :: e in ds ==> DayNumber(e) <= DayNumber(d)
  {
    if |ds| == 1 then ds[0]
    else
      var m := Latest(ds[1..]);
      assert forall e :: e in ds ==> e == ds[0] || e in ds[1..];
      if DayNumber(ds[0]) >= DayNumber(m) then ds[0] else m
  }

  /** The season row: name "YY-YY" of the earliest and latest staging dates, with those dates. */
  function SeasonRow(staging: seq<Record>): (r: Result<(string, SeasonDates), EtlError>)
    ensures r.Err? <==> StagingDates(staging) == []
    ensures r.Err? ==> r.error == NoStagingDates
    ensures r.Ok? ==> var ds := StagingDates(staging);
      && r.value.1.start in ds && r.value.1.end in ds
      && (forall d :: d in ds ==> DayNumber(r.value.1.start) <= DayNumber(d) <= DayNumber(r.value.1.end))
      && r.value.0 == SeasonName(r.value.1.start, r.value.1.end)
  {
    var ds := StagingDates(staging);
    if ds == [] then Err(NoStagingDates)
    else
      var lo, hi := Earliest(ds), Latest(ds);
      Ok((SeasonName(lo, hi), SeasonDates(lo, hi)))
  }

  // ---------------------------------------------------------------- steps 3 and 4

  /** Every name paired with the same default details. */
  function PairWith<V>(names: seq<string>, v: V): (r: seq<(string, V)>)
    ensures |r| == |names| && forall i :: 0 <= i < |r| ==> r[i] == (names[i], v)
    ensures forall n :: n in KeysOf(r) <==> n in names
  {
    var r := seq(|names|, i requires 0 <= i < |names| => (names[i], v));
    assert forall n :: n in KeysOf(r) <==> n in names by {
      forall n ensures n in KeysOf(r) <==> n in names {
        if n in names {
          var i :| 0 <= i < |names| && names[i] == n;
          assert r[i].0 == n;
        }
      }
    }
    r
  }

  /** The `(ref, None, None)` rows of the distinct non-empty referee names. */
  function RefereeRows(staging: seq<Record>): (r: seq<(string, RefereeInfo)>)
    ensures forall n :: n in KeysOf(r) <==> n != "" && Mentions(staging, "Referee", Some(n))
    ensures forall kv :: kv in r ==> kv.1 == RefereeInfo(None, None)
  {
    PairWith(Distinct(NonEmptyTexts(staging, "Referee")), RefereeInfo(None, None))
  }

  const PremierLeague: DivisionInfo := DivisionInfo("Premier League", "England", 1)

  /** The `(div, "Premier League", "England", 1)` rows of the distinct non-empty division codes. */
  function DivisionRows(staging: seq<Record>): (r: seq<(string, DivisionInfo)>)
    ensures forall n :: n in KeysOf(r) <==> n != "" && Mentions(staging, "Div", Some(n))
    ensures forall kv :: kv in r ==> kv.1 == PremierLeague
  {
    PairWith(Distinct(NonEmptyTexts(staging, "Div")), PremierLeague)
  }

  /** Steps 1 to 4 in order; the first step that raises ends the run. */
  function SeedReferences(w: Warehouse): (r: Result<(Warehouse, seq<SummaryLine>), EtlError>)
    ensures r.Ok? ==> var lines := r.value.1;
      |lines| == 4 && lines[0].TeamsProcessed? && lines[1].SeasonPresent? && lines[2].RefereesProcessed? && lines[3].DivisionsProcessed?
  {
    match TeamRows(w.staging)
    case Err(e) => Err(e)
    case Ok(teamData) =>
      match SeasonRow(w.staging)
      case Err(e) => Err(e)
      case Ok(season) =>
        var refData := RefereeRows(w.staging);
        var divData := DivisionRows(w.staging);
        Ok((w.(teams := InsertIgnoreAll(w.teams, teamData),
               seasons := InsertIgnore(w.seasons, season.0, season.1),
               referees := InsertIgnoreAll(w.referees, refData),
               divisions := InsertIgnoreAll(w.divisions, divData)),
            ReferenceSummary(teamData, season.0, refData, divData)))
  }

  /** The four summary lines of steps 1 to 4. */
  function ReferenceSummary(teamData: seq<(string, string)>, seasonName: string,
                            refData: seq<(string, RefereeInfo)>, divData: seq<(string, DivisionInfo)>): seq<SummaryLine> {
    [TeamsProcessed(|teamData|), SeasonPresent(seasonName), RefereesProcessed(|refData|), DivisionsProcessed(|divData|)]
  }

  /** One line of the run summary. */
  datatype SummaryLine =
    | TeamsProcessed(teams: nat)
    | SeasonPresent(seasonName: string)
    | RefereesProcessed(referees: nat)
    | DivisionsProcessed(divisions: nat)
    | MatchesInserted(matches: nat)
    | StatisticsInserted(statistics: nat)
    | MarketsInserted(markets: nat)
    | OneXTwoOddsInserted(odds: nat)
    | OverUnderOddsInserted(odds: nat)

  // ---------------------------------------------------------------- step 5: matches

  /** The sort key of `ORDER BY Date, Time`; NULL sorts first. */
  function DateTimeKey(r: Record): int {
    var d := match DateAt(r) case None => 0 case Some(x) => DayNumber(x) + 1;
    var t := match TimeAt(r) case None => 0 case Some(x) => x + 1;
    d * 86401 + t
  }

  /** The staging rows as `ORDER BY Date, Time` returns them. */
  function InDateTimeOrder(staging: seq<Record>): (r: seq<Record>)
    ensures |r| == |staging| && multiset(r) == multiset(staging)
    ensures SortedBy(r, DateTimeKey)
  {
    SortBy(staging, DateTimeKey)
  }

  /** `SELECT SeasonID FROM Seasons ORDER BY StartDate DESC LIMIT 1`; ties go to the first stored row. */
  function LatestSeason(rows: seq<Row<string, SeasonDates>>): (r: Option<Row<string, SeasonDates>>)
    ensures r.Some? <==> rows != []
    ensures r.Some? ==> r.value in rows
    ensures r.Some? ==> forall x :: x in rows ==> DayNumber(x.val.start) <= DayNumber(r.value.val.start)
  {
    if rows == [] then None
    else
      var rest := LatestSeason(rows[1..]);
      assert forall x :: x in rows ==> x == rows[0] || x in rows[1..];
      if rest.None? || DayNumber(rows[0].val.start) >= DayNumber(rest.value.val.start) then Some(rows[0])
      else rest
  }

  /** The TeamID of a team name; a NULL name matches no team. */
  function TeamId(teams: Table<string, string>, name: Option<string>): (r: Option<nat>)
    ensures r.Some? <==> name.Some? && name.value in Keys(teams)
    ensures r.Some? ==> exists i :: 0 <= i < |teams.rows| && teams.rows[i].key == name.value && teams.rows[i].id == r.value
  {
    if name.None? then None else IdOf(teams, name.value)
  }

  /**
   * The match tuple of one staging row. The season is always the latest-starting one;
   * a division or team that cannot be found raises (`fetchone()[0]` on None); a
   * referee that cannot be found leaves RefereeID NULL.
   */
  function MatchTuple(refs: References, rec: Record): Result<(MatchKey, MatchInfo), EtlError>
  {
    match LatestSeason(refs.seasons.rows)
    case None => Err(NoSeason)
    case Some(season) =>
      var div := TextAt(rec, "Div");
      var divId := if div.None? then None else IdOf(refs.divisions, div.value);
      if divId.None? then Err(DivisionNotFound(div))
      else
        var home, away := TextAt(rec, "HomeTeam"), TextAt(rec, "AwayTeam");
        match TeamId(refs.teams, home)
        case None => Err(TeamNotFound(home))
        case Some(homeId) =>
          match TeamId(refs.teams, away)
          case None => Err(TeamNotFound(away))
          case Some(awayId) =>
            var referee := TextAt(rec, "Referee");
            var refereeId := if referee.None? then None else IdOf(refs.referees, referee.value);
            Ok((MatchKey(DateAt(rec), TimeAt(rec), homeId, awayId),
                MatchInfo(season.id, divId.value, ScoreOf(rec), refereeId)))
  }

  /** What a resolved match tuple holds, and the only errors resolution can raise. */
  lemma MatchTupleSpec(refs: References, rec: Record)
    ensures var t := MatchTuple(refs, rec);
      t.Ok? ==>
        && LatestSeason(refs.seasons.rows).Some?
        && t.value.1.season == LatestSeason(refs.seasons.rows).value.id
        && t.value.0.date == DateAt(rec) && t.value.0.time == TimeAt(rec)
        && Some(t.value.0.homeTeam) == TeamId(refs.teams, TextAt(rec, "HomeTeam"))
        && Some(t.value.0.awayTeam) == TeamId(refs.teams, TextAt(rec, "AwayTeam"))
        && t.value.1.score == ScoreOf(rec)
        && (t.value.1.referee.None? <==> TextAt(rec, "Referee").None? || TextAt(rec, "Referee").value !in Keys(refs.referees))
    ensures var t := MatchTuple(refs, rec);
      t.Err? ==> t.error in {NoSeason, DivisionNotFound(TextAt(rec, "Div")), TeamNotFound(TextAt(rec, "HomeTeam")), TeamNotFound(TextAt(rec, "AwayTeam"))}
  {
  }

  /** Applies `f` to every element in order, stopping at the first error. */
  function MapAll<T, U, E>(f: T -> Result<U, E>, xs: seq<T>): Result<seq<U>, E> {
    if xs == [] then Ok([])
    else
      match MapAll(f, xs[..|xs| - 1])
      case Err(e) => Err(e)
      case Ok(prefix) =>
        match f(xs[|xs| - 1])
        case Err(e) => Err(e)
        case Ok(y) => Ok(prefix + [y])
  }

  lemma {:induction false} MapAllOneEach<T, U, E>(f: T -> Result<U, E>, xs: seq<T>)
    ensures MapAll(f, xs).Ok? <==> forall i :: 0 <= i < |xs| ==> f(xs[i]).Ok?
    ensures MapAll(f, xs).Ok? ==>
      |MapAll(f, xs).value| == |xs| && forall i :: 0 <= i < |xs| ==> MapAll(f, xs).value[i] == f(xs[i]).value
  {
    if xs != [] {
      var n := |xs| - 1;
      var prefix := xs[..n];
      MapAllOneEach(f, prefix);
      assert forall i :: 0 <= i < n ==> prefix[i] == xs[i];
      if MapAll(f, prefix).Err? {
        var i :| 0 <= i < n && !f(prefix[i]).Ok?;
        assert !f(xs[i]).Ok?;
      }
    }
  }

  /** Once a prefix raises, the whole sequence raises with the same error. */
  lemma {:induction false} MapAllErrorPersists<T, U, E>(f: T -> Result<U, E>, xs: seq<T>, k: nat)
    requires k <= |xs| && MapAll(f, xs[..k]).Err?
    ensures MapAll(f, xs) == MapAll(f, xs[..k])
    decreases |xs| - k
  {
    if k < |xs| {
      assert xs[..k + 1][..k] == xs[..k];
      MapAllErrorPersists(f, xs, k + 1);
    } else {
      assert xs[..k] == xs;
    }
  }

  /** An error of the whole sequence is the error of one of its elements. */
  lemma {:induction false} MapAllError<T, U, E>(f: T -> Result<U, E>, xs: seq<T>)
    ensures MapAll(f, xs).Err? ==> exists i :: 0 <= i < |xs| && f(xs[i]) == Err(MapAll(f, xs).error)
  {
    if xs != [] {
      var n := |xs| - 1;
      MapAllError(f, xs[..n]);
      if MapAll(f, xs[..n]).Err? {
        var i :| 0 <= i < n && f(xs[..n][i]) == Err(MapAll(f, xs[..n]).error);
        assert xs[..n][i] == xs[i];
      }
    }
  }

  /** `match_data`: one tuple per row in order, or the error of the first row that raises. */
  function MatchData(refs: References, rows: seq<Record>): Result<seq<(MatchKey, MatchInfo)>, EtlError> {
    MapAll(rec => MatchTuple(refs, rec), rows)
  }

  /** The tuples are the rows' own tuples, one per row and in the rows' order. */
  lemma MatchDataOneEach(refs: References, rows: seq<Record>)
    ensures MatchData(refs, rows).Ok? <==> forall i :: 0 <= i < |rows| ==> MatchTuple(refs, rows[i]).Ok?
    ensures MatchData(refs, rows).Ok? ==>
      |MatchData(refs, rows).value| == |rows| &&
      forall i :: 0 <= i < |rows| ==> MatchData(refs, rows).value[i] == MatchTuple(refs, rows[i]).value
  {
    MapAllOneEach(rec => MatchTuple(refs, rec), rows);
  }

  /** Match building raises only for a missing season, division or team. */
  lemma MatchDataErrors(refs: References, rows: seq<Record>)
    ensures MatchData(refs, rows).Err? ==>
      var e := MatchData(refs, rows).error;
      e == NoSeason || e.DivisionNotFound? || e.TeamNotFound?
  {
    MapAllError(rec => MatchTuple(refs, rec), rows);
    if MatchData(refs, rows).Err? {
      var i :| 0 <= i < |rows| && MatchTuple(refs, rows[i]) == Err(MatchData(refs, rows).error);
      MatchTupleSpec(refs, rows[i]);
    }
  }

  /** The loop at lines 129-154, stopping at the first row that raises. */
  method BuildMatchData(refs: References, rows: seq<Record>) returns (r: Result<seq<(MatchKey, MatchInfo)>, EtlError>)
    ensures r == MatchData(refs, rows)
  {
    var f := rec => MatchTuple(refs, rec);
    var acc: seq<(MatchKey, MatchInfo)> := [];
    for i := 0 to |rows|
      invariant MapAll(f, rows[..i]) == Ok(acc)
    {
      assert rows[..i + 1][..i] == rows[..i];
      var t := MatchTuple(refs, rows[i]);
      if t.Err? {
        assert rows[..i + 1][i] == rows[i];
        MapAllErrorPersists(f, rows, i + 1);
        return Err(t.error);
      }
      acc := acc + [t.value];
    }
    assert rows[..|rows|] == rows;
    return Ok(acc);
  }

  /** Steps 5: tuples in date/time order, then `INSERT IGNORE` into Matches. */
  function MatchStage(w: Warehouse): (r: Result<(Warehouse, nat), EtlError>)
  {
    match MatchData(ReferencesOf(w), InDateTimeOrder(w.staging))
    case Err(e) => Err(e)
    case Ok(data) => Ok((w.(matches := InsertIgnoreAll(w.matches, data)), |data|))
  }

  /** RecordsProcessed, the number of tuples, is the number of staging rows. */
  lemma MatchStageCount(w: Warehouse)
    requires MatchStage(w).Ok?
    ensures MatchStage(w).value.1 == |w.staging|
  {
    MatchDataOneEach(ReferencesOf(w), InDateTimeOrder(w.staging));
  }

  // ---------------------------------------------------------------- step 6: statistics

  /**
   * The MatchID of the match with this row's date, time, home and away team, as the
   * statistics lookup and the odds join find it; SQL `=` never matches NULL.
   */
  function JoinMatchId(teams: Table<string, string>, matches: Table<MatchKey, MatchInfo>, rec: Record): (r: Option<nat>)
    ensures var home, away := TeamId(teams, TextAt(rec, "HomeTeam")), TeamId(teams, TextAt(rec, "AwayTeam"));
      r.Some? <==>
        && DateAt(rec).Some? && TimeAt(rec).Some? && home.Some? && away.Some?
        && MatchKey(DateAt(rec), TimeAt(rec), home.value, away.value) in Keys(matches)
    ensures var home, away := TeamId(teams, TextAt(rec, "HomeTeam")), TeamId(teams, TextAt(rec, "AwayTeam"));
      r.Some? ==>
        exists row :: row in matches.rows && row.id == r.value &&
          row.key == MatchKey(DateAt(rec), TimeAt(rec), home.value, away.value)
  {
    match (DateAt(rec), TimeAt(rec), TeamId(teams, TextAt(rec, "HomeTeam")), TeamId(teams, TextAt(rec, "AwayTeam")))
    case (Some(d), Some(t), Some(h), Some(a)) =>
      (match Find(matches, MatchKey(Some(d), Some(t), h, a))
       case None => None
       case Some(row) => Some(row.id))
    case _ => None
  }

  /** The twelve count columns of a staging row, in the order of the INSERT's column list. */
  function StatLine(rec: Record): (r: seq<Option<int>>)
    ensures |r| == |StatColumns|
    ensures forall i :: 0 <= i < |r| ==> r[i] == WholeAt(rec, StatColumns[i])
  {
    seq(12, i requires 0 <= i < 12 => WholeAt(rec, StatColumns[i]))
  }

  /** The values `f` gives the elements it accepts, in order. */
  function FilterMap<A, B>(f: A -> Option<B>, xs: seq<A>): (r: seq<B>)
    ensures |r| <= |xs|
  {
    if xs == [] then []
    else
      var n := |xs| - 1;
      match f(xs[n])
      case None => FilterMap(f, xs[..n])
      case Some(y) => FilterMap(f, xs[..n]) + [y]
  }

  /** A value is in the result exactly when `f` gives it for some element. */
  lemma {:induction false} FilterMapSpec<A, B>(f: A -> Option<B>, xs: seq<A>)
    ensures forall y :: y in FilterMap(f, xs) <==> exists i :: 0 <= i < |xs| && f(xs[i]) == Some(y)
  {
    if xs != [] {
      var n := |xs| - 1;
      var init := xs[..n];
      FilterMapSpec(f, init);
      forall y ensures y in FilterMap(f, xs) <==> exists i :: 0 <= i < |xs| && f(xs[i]) == Some(y) {
        if exists i :: 0 <= i < |xs| && f(xs[i]) == Some(y) {
          var i :| 0 <= i < |xs| && f(xs[i]) == Some(y);
          if i < n {
            assert init[i] == xs[i];
          }
        }
        if exists i :: 0 <= i < n && f(init[i]) == Some(y) {
          var i :| 0 <= i < n && f(init[i]) == Some(y);
          assert init[i] == xs[i];
        }
      }
    }
  }

  /** The element a value of the result comes from. */
  lemma FilterMapSource<A, B>(f: A -> Option<B>, xs: seq<A>, y: B) returns (i: nat)
    requires y in FilterMap(f, xs)
    ensures i < |xs| && f(xs[i]) == Some(y)
  {
    FilterMapSpec(f, xs);
    i :| 0 <= i < |xs| && f(xs[i]) == Some(y);
  }

  /** The statistics one staging row yields: none if its match is not found. */
  function StatOf(teams: Table<string, string>, matches: Table<MatchKey, MatchInfo>, rec: Record): Option<(nat, seq<Option<int>>)> {
    match JoinMatchId(teams, matches, rec)
    case None => None
    case Some(id) => Some((id, StatLine(rec)))
  }

  /** `stat_data`: one entry per row whose match is found, carrying that MatchID. */
  function StatData(teams: Table<string, string>, matches: Table<MatchKey, MatchInfo>, rows: seq<Record>): (r: seq<(nat, seq<Option<int>>)>)
    ensures |r| <= |rows|
  {
    FilterMap(rec => StatOf(teams, matches, rec), rows)
  }

  /** A row yields statistics exactly when its match is found, and they carry its MatchID and its counts. */
  lemma StatDataSpec(teams: Table<string, string>, matches: Table<MatchKey, MatchInfo>, rows: seq<Record>)
    ensures forall e :: e in StatData(teams, matches, rows) <==>
      exists i :: 0 <= i < |rows| && JoinMatchId(teams, matches, rows[i]) == Some(e.0) && e.1 == StatLine(rows[i])
  {
    var f: Record -> Option<(nat, seq<Option<int>>)> := rec => StatOf(teams, matches, rec);
    FilterMapSpec(f, rows);
    assert StatData(teams, matches, rows) == FilterMap(f, rows);
    forall e: (nat, seq<Option<int>>) ensures e in StatData(teams, matches, rows) <==>
      exists i :: 0 <= i < |rows| && JoinMatchId(teams, matches, rows[i]) == Some(e.0) && e.1 == StatLine(rows[i])
    {
      if e in StatData(teams, matches, rows) {
        var i := FilterMapSource(f, rows, e);
        assert JoinMatchId(teams, matches, rows[i]) == Some(e.0) && e.1 == StatLine(rows[i]);
      }

    }
  }

  /** The loop at lines 185-201. */
  method BuildStatData(teams: Table<string, string>, matches: Table<MatchKey, MatchInfo>, rows: seq<Record>)
    returns (r: seq<(nat, seq<Option<int>>)>)
    ensures r == StatData(teams, matches, rows)
  {
    var f := rec => StatOf(teams, matches, rec);
    r := [];
    for i := 0 to |rows|
      invariant r == FilterMap(f, rows[..i])
    {
      assert rows[..i + 1][..i] == rows[..i];
      var found := JoinMatchId(teams, matches, rows[i]);
      if found.None? {
        continue;
      }
      r := r + [(found.value, StatLine(rows[i]))];
    }
    assert rows[..|rows|] == rows;
  }

  function StatisticsStage(w: Warehouse): (r: (Warehouse, nat))
    ensures r.1 <= |w.staging|
  {
    var data := StatData(w.teams, w.matches, InDateTimeOrder(w.staging));
    (w.(statistics := InsertIgnoreAll(w.statistics, data)), |data|)
  }

  // ---------------------------------------------------------------- step 8: markets

  const OneXTwoMarket: MarketKey := MarketKey("1X2", "FullTime", "standard")
  const OverUnderMarket: MarketKey := MarketKey("OverUnder", "FullTime", "2.5")

  const MarketRows: seq<(MarketKey, string)> := [
    (OneXTwoMarket, "Full-time result: Home/Draw/Away"),
    (OverUnderMarket, "Over/Under 2.5 total goals")
  ]

  function MarketStage(w: Warehouse): Warehouse {
    w.(markets := InsertIgnoreAll(w.markets, MarketRows))
  }

  /** `SELECT MarketID ... WHERE MarketType, MarketSubtype, Parameter`; a miss raises. */
  function MarketId(markets: Table<MarketKey, string>, key: MarketKey): (r: Result<nat, EtlError>)
    ensures r.Err? <==> key !in Keys(markets)
  {
    match IdOf(markets, key)
    case None => Err(MarketNotFound(key))
    case Some(id) => Ok(id)
  }

  /** After market seeding both market lookups succeed. */
  lemma MarketsFoundAfterSeeding(w: Warehouse)
    ensures MarketId(MarketStage(w).markets, OneXTwoMarket).Ok?
    ensures MarketId(MarketStage(w).markets, OverUnderMarket).Ok?
  {
    InsertIgnoreAllKeys(w.markets, MarketRows);
    assert MarketRows[0].0 == OneXTwoMarket && MarketRows[1].0 == OverUnderMarket;
  }

  // ---------------------------------------------------------------- step 9: bookmakers

  /** `SELECT BookmakerID ... WHERE BookmakerName = %s`, first stored row. */
  function BookmakerIdOf(bookmakers: seq<Bookmaker>, name: string): (r: Option<nat>)
    ensures r.Some? <==> exists b :: b in bookmakers && b.name == name
    ensures r.Some? ==> Bookmaker(r.value, name) in bookmakers
  {
    if bookmakers == [] then None
    else if bookmakers[0].name == name then Some(bookmakers[0].id)
    else
      assert forall b :: b in bookmakers ==> b == bookmakers[0] || b in bookmakers[1..];
      BookmakerIdOf(bookmakers[1..], name)
  }

  /** BookmakerID is the primary key of Bookmakers. */
  ghost predicate IdsDistinct(bookmakers: seq<Bookmaker>) {
    forall i, j :: 0 <= i < j < |bookmakers| ==> bookmakers[i].id != bookmakers[j].id
  }

  /** The Bookmakers table with its auto-increment counter: ids positive, below the counter, distinct. */
  ghost predicate BookmakersValid(bookmakers: seq<Bookmaker>, next: nat) {
    && 1 <= next
    && (forall i :: 0 <= i < |bookmakers| ==> 1 <= bookmakers[i].id < next)
    && IdsDistinct(bookmakers)
  }

  /**
   * The intended statement of lines 257-263 for one name: insert it with the next id
   * unless a row with that name exists.
   */
  function SeedBookmaker(bookmakers: seq<Bookmaker>, next: nat, name: string): (r: (seq<Bookmaker>, nat))
    ensures BookmakerIdOf(r.0, name).Some?
    ensures BookmakersValid(bookmakers, next) ==> BookmakersValid(r.0, r.1)
  {
    if BookmakerIdOf(bookmakers, name).Some? then (bookmakers, next)
    else
      var r := bookmakers + [Bookmaker(next, name)];
      assert r[|bookmakers|] == Bookmaker(next, name);
      (r, next + 1)
  }

  /** The seeding of every name of the map, in map order. */
  function SeedBookmakers(bookmakers: seq<Bookmaker>, next: nat, names: seq<string>): (seq<Bookmaker>, nat)
    decreases |names|
  {
    if names == [] then (bookmakers, next)
    else
      var (b1, n1) := SeedBookmaker(bookmakers, next, names[0]);
      SeedBookmakers(b1, n1, names[1..])
  }

  /** Seeding keeps the primary key and the counter ahead of every id. */
  lemma {:induction false} SeedBookmakersValid(bookmakers: seq<Bookmaker>, next: nat, names: seq<string>)
    requires BookmakersValid(bookmakers, next)
    ensures var (b, n) := SeedBookmakers(bookmakers, next, names);
      BookmakersValid(b, n)
    decreases |names|
  {
    if names != [] {
      var (b1, n1) := SeedBookmaker(bookmakers, next, names[0]);
      SeedBookmakersValid(b1, n1, names[1..]);
    }
  }

  /** Seeding a list and then one more name is seeding the longer list. */
  lemma {:induction false} SeedBookmakersSnoc(bookmakers: seq<Bookmaker>, next: nat, names: seq<string>, name: string)
    ensures var (b, n) := SeedBookmakers(bookmakers, next, names);
      SeedBookmakers(bookmakers, next, names + [name]) == SeedBookmaker(b, n, name)
    decreases |names|
  {
    if names == [] {
      assert [name][1..] == [];
    } else {
      var (b1, n1) := SeedBookmaker(bookmakers, next, names[0]);
      assert (names + [name])[1..] == names[1..] + [name];
      SeedBookmakersSnoc(b1, n1, names[1..], name);
    }
  }

  /** Seeding only appends rows, and a name that already had an id keeps it. */
  lemma {:induction false} SeedBookmakersKeeps(bookmakers: seq<Bookmaker>, next: nat, names: seq<string>)
    ensures var r := SeedBookmakers(bookmakers, next, names).0;
      |bookmakers| <= |r| && r[..|bookmakers|] == bookmakers
    ensures forall n :: BookmakerIdOf(bookmakers, n).Some? ==>
      BookmakerIdOf(SeedBookmakers(bookmakers, next, names).0, n) == BookmakerIdOf(bookmakers, n)
    decreases |names|
  {
    if names != [] {
      var (b1, n1) := SeedBookmaker(bookmakers, next, names[0]);
      SeedBookmakersKeeps(b1, n1, names[1..]);
      forall n | BookmakerIdOf(bookmakers, n).Some?
        ensures BookmakerIdOf(b1, n) == BookmakerIdOf(bookmakers, n)
      {
        FirstIdKept(bookmakers, b1[|bookmakers|..], n);
        assert bookmakers + b1[|bookmakers|..] == b1;
      }
    }
  }

  /** After seeding, every name of the map has an id. */
  lemma {:induction false} SeedBookmakersFinds(bookmakers: seq<Bookmaker>, next: nat, names: seq<string>)
    ensures forall n :: n in names ==> BookmakerIdOf(SeedBookmakers(bookmakers, next, names).0, n).Some?
    decreases |names|
  {
    if names != [] {
      var (b1, n1) := SeedBookmaker(bookmakers, next, names[0]);
      SeedBookmakersFinds(b1, n1, names[1..]);
      SeedBookmakersKeeps(b1, n1, names[1..]);
      assert forall n :: n in names ==> n == names[0] || n in names[1..];
    }
  }

  /** When every name already has an id, seeding changes nothing. */
  lemma {:induction false} SeedBookmakersIdle(bookmakers: seq<Bookmaker>, next: nat, names: seq<string>)
    requires forall n :: n in names ==> BookmakerIdOf(bookmakers, n).Some?
    ensures SeedBookmakers(bookmakers, next, names) == (bookmakers, next)
    decreases |names|
  {
    if names != [] {
      assert names[0] in names;
      assert forall n :: n in names[1..] ==> n in names;
      SeedBookmakersIdle(bookmakers, next, names[1..]);
    }
  }

  lemma {:induction false} FirstIdKept(a: seq<Bookmaker>, b: seq<Bookmaker>, n: string)
    requires BookmakerIdOf(a, n).Some?
    ensures BookmakerIdOf(a + b, n) == BookmakerIdOf(a, n)
  {
    if a[0].name != n {
      assert (a + b)[1..] == a[1..] + b;
      FirstIdKept(a[1..], b, n);
    }
  }

  /** `bookmaker_ids`: the id of every name of the map, or the first lookup that finds nothing. */
  function BookmakerIds(bookmakers: seq<Bookmaker>, names: seq<string>): (r: Result<map<string, nat>, EtlError>)
    ensures r.Ok? <==> forall n :: n in names ==> BookmakerIdOf(bookmakers, n).Some?
    ensures r.Ok? ==> r.value.Keys == set n | n in names
    ensures r.Ok? ==> forall n :: n in names ==> r.value[n] == BookmakerIdOf(bookmakers, n).value
  {
    if names == [] then Ok(map[])
    else
      assert forall n :: n in names <==> n == names[0] || n in names[1..];
      assert names[0] in names;
      match BookmakerIdOf(bookmakers, names[0])
      case None => Err(BookmakerNotFound(names[0]))
      case Some(id) =>
        match BookmakerIds(bookmakers, names[1..])
        case Err(e) => Err(e)
        case Ok(m) =>
          assert m[names[0] := id].Keys == m.Keys + {names[0]};
          Ok(m[names[0] := id])
  }

  // ---------------------------------------------------------------- steps 11 and 12: odds

  /**
   * `Matches JOIN stg_premier_league_raw` on date, time and both team ids: the staging
   * rows, in storage order, that find their match, each with its MatchID.
   */
  function JoinRows(staging: seq<Record>, teams: Table<string, string>, matches: Table<MatchKey, MatchInfo>): (r: seq<(nat, Record)>)
    ensures |r| <= |staging|
    ensures forall e :: e in r <==> e.1 in staging && JoinMatchId(teams, matches, e.1) == Some(e.0)
  {
    var f := rec => JoinOf(teams, matches, rec);
    FilterMapSpec(f, staging);
    FilterMap(f, staging)
  }

  /** One staging row of the join with its MatchID, if its match is found. */
  function JoinOf(teams: Table<string, string>, matches: Table<MatchKey, MatchInfo>, rec: Record): Option<(nat, Record)> {
    match JoinMatchId(teams, matches, rec)
    case None => None
    case Some(id) => Some((id, rec))
  }

  /** `odds_data` / `ou_odds`: the odds rows of every joined row, in join order. */
  function OddsData(rows: seq<(nat, Record)>, ids: map<string, nat>, marketId: nat,
                    bmap: seq<BookmakerColumns>): (r: seq<(OddsKey, real)>)
    requires forall i :: 0 <= i < |bmap| ==> bmap[i].0 in ids
    ensures forall e :: e in r ==> e.1 > 1.0 && e.0.market == marketId
  {
    if rows == [] then []
    else
      var n := |rows| - 1;
      var prefix := OddsData(rows[..n], ids, marketId, bmap);
      var last := RowOdds(rows[n].1, rows[n].0, ids, marketId, bmap);
      prefix + last
  }

  /** At most `ColumnCount(bmap)` odds rows per joined row. */
  lemma {:induction false} OddsDataBound(rows: seq<(nat, Record)>, ids: map<string, nat>, marketId: nat,
                                         bmap: seq<BookmakerColumns>)
    requires forall i :: 0 <= i < |bmap| ==> bmap[i].0 in ids
    ensures |OddsData(rows, ids, marketId, bmap)| <= |rows| * ColumnCount(bmap)
  {
    if rows != [] {
      var n := |rows| - 1;
      var c := ColumnCount(bmap);
      OddsDataBound(rows[..n], ids, marketId, bmap);
      var prefix := OddsData(rows[..n], ids, marketId, bmap);
      var last := RowOdds(rows[n].1, rows[n].0, ids, marketId, bmap);
      assert OddsData(rows, ids, marketId, bmap) == prefix + last;
      BoundStep(|prefix|, |last|, n, c);
    }
  }

  lemma BoundStep(a: nat, b: nat, n: nat, c: nat)
    requires a <= n * c && b <= c
    ensures a + b <= (n + 1) * c
  {
  }

  /** The loops at lines 298-311 and 356-368: rows outside, bookmakers in map order inside. */
  method BuildOddsData(rows: seq<(nat, Record)>, ids: map<string, nat>, marketId: nat,
                       bmap: seq<BookmakerColumns>) returns (r: seq<(OddsKey, real)>)
    requires forall i :: 0 <= i < |bmap| ==> bmap[i].0 in ids
    ensures r == OddsData(rows, ids, marketId, bmap)
  {
    r := [];
    for i := 0 to |rows|
      invariant r == OddsData(rows[..i], ids, marketId, bmap)
    {
      assert rows[..i + 1][..i] == rows[..i];
      var forRow := BuildRowOdds(rows[i].1, rows[i].0, ids, marketId, bmap);
      r := r + forRow;
    }
    assert rows[..|rows|] == rows;
  }

  /** The inner loop: the odds of one joined row, bookmaker by bookmaker. */
  method BuildRowOdds(rec: Record, matchId: nat, ids: map<string, nat>, marketId: nat,
                      bmap: seq<BookmakerColumns>) returns (forRow: seq<(OddsKey, real)>)
    requires forall i :: 0 <= i < |bmap| ==> bmap[i].0 in ids
    ensures forRow == RowOdds(rec, matchId, ids, marketId, bmap)
  {
    forRow := [];
    assert bmap[0..] == bmap;
    for j := 0 to |bmap|
      invariant forRow + RowOdds(rec, matchId, ids, marketId, bmap[j..]) == RowOdds(rec, matchId, ids, marketId, bmap)
    {
      var next := BookmakerOdds(rec, matchId, ids[bmap[j].0], marketId, bmap[j].1);
      var later := RowOdds(rec, matchId, ids, marketId, bmap[j + 1..]);
      RowOddsUnfold(rec, matchId, ids, marketId, bmap, j);
      Reassociate(forRow, next, later, RowOdds(rec, matchId, ids, marketId, bmap));
      forRow := forRow + next;
    }
  }

  lemma Reassociate<T>(a: seq<T>, b: seq<T>, c: seq<T>, total: seq<T>)
    requires a + (b + c) == total
    ensures (a + b) + c == total
  {
    assert (a + b) + c == a + (b + c);
  }

  /** The odds of the bookmakers from position `j` on: those of `j`, then the rest. */
  lemma RowOddsUnfold(rec: Record, matchId: nat, ids: map<string, nat>, marketId: nat,
                      bmap: seq<BookmakerColumns>, j: nat)
    requires forall i :: 0 <= i < |bmap| ==> bmap[i].0 in ids
    requires j < |bmap|
    ensures RowOdds(rec, matchId, ids, marketId, bmap[j..]) ==
      BookmakerOdds(rec, matchId, ids[bmap[j].0], marketId, bmap[j].1) + RowOdds(rec, matchId, ids, marketId, bmap[j + 1..])
  {
    var rest := bmap[j..];
    assert rest[0] == bmap[j] && rest[1..] == bmap[j + 1..];
  }


  /** The bookmaker ids the odds stages use, for the four names of the 1X2 map. */
  lemma OverUnderNamesCovered(ids: map<string, nat>)
    requires ids.Keys == set n | n in BookmakerNames()
    ensures forall i :: 0 <= i < |OneXTwoMap| ==> OneXTwoMap[i].0 in ids
    ensures forall i :: 0 <= i < |OverUnderMap| ==> OverUnderMap[i].0 in ids
  {
    var names := BookmakerNames();
    assert names[0] == "Bet365" && names[3] == "Pinnacle Sports";
    forall i | 0 <= i < |OneXTwoMap| ensures OneXTwoMap[i].0 in ids {
      assert names[i] == OneXTwoMap[i].0;
    }
  }

  // ---------------------------------------------------------------- re-running a stage

  /** A warehouse that already holds the reference rows a seeding wrote is left as it is. */
  lemma SeedReferencesFixpoint(w: Warehouse, v: Warehouse)
    requires SeedReferences(w).Ok?
    requires v.staging == w.staging && ReferencesOf(v) == ReferencesOf(SeedReferences(w).value.0)
    ensures SeedReferences(v) == Ok((v, SeedReferences(w).value.1))
  {
    var season := SeasonRow(w.staging).value;
    InsertIgnoreAllTwice(w.teams, TeamRows(w.staging).value);
    KeysOfInsert(w.seasons, season.0, season.1);
    InsertIgnoreAllTwice(w.referees, RefereeRows(w.staging));
    InsertIgnoreAllTwice(w.divisions, DivisionRows(w.staging));
  }

  /** A warehouse that already holds the matches a match stage wrote is left as it is. */
  lemma MatchStageFixpoint(w: Warehouse, v: Warehouse)
    requires MatchStage(w).Ok?
    requires v.staging == w.staging && ReferencesOf(v) == ReferencesOf(w)
    requires v.matches == MatchStage(w).value.0.matches
    ensures MatchStage(v) == Ok((v, MatchStage(w).value.1))
  {
    InsertIgnoreAllTwice(w.matches, MatchData(ReferencesOf(w), InDateTimeOrder(w.staging)).value);
  }

  /** A warehouse that already holds the statistics a statistics stage wrote is left as it is. */
  lemma StatisticsStageFixpoint(w: Warehouse, v: Warehouse)
    requires v.staging == w.staging && v.teams == w.teams && v.matches == w.matches
    requires v.statistics == StatisticsStage(w).0.statistics
    ensures StatisticsStage(v) == (v, StatisticsStage(w).1)
  {
    InsertIgnoreAllTwice(w.statistics, StatData(w.teams, w.matches, InDateTimeOrder(w.staging)));
  }

  /** A warehouse that already holds both market definitions is left as it is. */
  lemma MarketStageFixpoint(w: Warehouse, v: Warehouse)
    requires v.markets == MarketStage(w).markets
    ensures MarketStage(v) == v
  {
    InsertIgnoreAllTwice(w.markets, MarketRows);
  }
}
