/**
 * The pure key derivations of the pipeline: team short names, season names, the odds
 * validity filter and the expansion of wide odds columns into one row per outcome, and
 * the points rule of the per-matchday report.
 */
module Derive {
  import opened Wrappers
  import opened Schema

  // ---------------------------------------------------------------- team short name

  /** `team[:12]`. */
  function ShortName(name: string): (r: string)
    ensures |r| == if |name| <= 12 then |name| else 12
    ensures r == name[..|r|]
  {
    if |name| <= 12 then name else name[..12]
  }

  // ---------------------------------------------------------------- season name

  function DigitValue(c: char): int {
    c as int - '0' as int
  }

  function DigitChar(d: nat): (c: char)
    requires d < 10
    ensures '0' <= c <= '9' && DigitValue(c) == d
  {
    ('0' as int + d) as char
  }

  /** `f"{n:02d}"` for 0 <= n < 100. */
  function TwoDigits(n: nat): (r: string)
    requires n < 100
    ensures |r| == 2 && '0' <= r[0] <= '9' && '0' <= r[1] <= '9'
    ensures 10 * DigitValue(r[0]) + DigitValue(r[1]) == n
  {
    var tens, units := n / 10, n % 10;
    assert 10 * tens + units == n;
    [DigitChar(tens), DigitChar(units)]
  }

  /** The season name "YY-YY" from the earliest and latest staging dates. */
  function SeasonName(first: Date, last: Date): (r: string)
    ensures |r| == 5 && r[2] == '-'
  {
    TwoDigits(first.year % 100) + "-" + TwoDigits(last.year % 100)
  }

  function ParseTwoDigits(s: string): int
    requires |s| == 2
  {
    10 * DigitValue(s[0]) + DigitValue(s[1])
  }

  /**
   * The season name is the two years modulo 100, each as two zero-padded digits,
   * joined by '-': reading the digits back gives the years modulo 100.
   */
  lemma SeasonNameDecodes(first: Date, last: Date)
    ensures var r := SeasonName(first, last);
      && (forall i :: 0 <= i < 5 && i != 2 ==> '0' <= r[i] <= '9')
      && ParseTwoDigits(r[..2]) == first.year % 100
      && ParseTwoDigits(r[3..]) == last.year % 100
  {
    var a, b := TwoDigits(first.year % 100), TwoDigits(last.year % 100);
    var r := SeasonName(first, last);
    assert r[..2] == a;
    assert r[3..] == b;
  }

  /** Two date ranges get the same season name exactly when their years agree modulo 100. */
  lemma SeasonNameInjective(a1: Date, a2: Date, b1: Date, b2: Date)
    ensures SeasonName(a1, a2) == SeasonName(b1, b2) <==>
      a1.year % 100 == b1.year % 100 && a2.year % 100 == b2.year % 100
  {
    SeasonNameDecodes(a1, a2);
    SeasonNameDecodes(b1, b2);
    if a1.year % 100 == b1.year % 100 && a2.year % 100 == b2.year % 100 {
      assert TwoDigits(a1.year % 100) == TwoDigits(b1.year % 100);
    }
  }

  // ---------------------------------------------------------------- odds expansion

  /** `v and v > 1.0`: present and strictly above evens. */
  predicate Payable(v: Option<real>) {
    v.Some? && v.value > 1.0
  }

  /** One outcome of one bookmaker and the staging column that holds its odds. */
  datatype OddsColumn = OddsColumn(outcome: string, column: string)

  /** A bookmaker name and its odds columns, in the order the pipeline reads them. */
  type BookmakerColumns = (string, seq<OddsColumn>)

  /** `bookmaker_map`: the full-time 1X2 columns of the four bookmakers. */
  const OneXTwoMap: seq<BookmakerColumns> := [
    ("Bet365", [OddsColumn("H", "B365H"), OddsColumn("D", "B365D"), OddsColumn("A", "B365A")]),
    ("Bet&Win", [OddsColumn("H", "BWH"), OddsColumn("D", "BWD"), OddsColumn("A", "BWA")]),
    ("Interwetten", [OddsColumn("H", "IWH"), OddsColumn("D", "IWD"), OddsColumn("A", "IWA")]),
    ("Pinnacle Sports", [OddsColumn("H", "PSH"), OddsColumn("D", "PSD"), OddsColumn("A", "PSA")])
  ]

  /** `ou_map`: the Over/Under 2.5 columns of two bookmakers. */
  const OverUnderMap: seq<BookmakerColumns> := [
    ("Bet365", [OddsColumn("Over", "B365_2_5O"), OddsColumn("Under", "B365_2_5U")]),
    ("Pinnacle Sports", [OddsColumn("Over", "P_2_5O"), OddsColumn("Under", "P_2_5U")])
  ]

  /** The bookmaker names of `bookmaker_map`, in map order. */
  function BookmakerNames(): (r: seq<string>)
    ensures |r| == |OneXTwoMap|
    ensures forall i :: 0 <= i < |r| ==> r[i] == OneXTwoMap[i].0
  {
    seq(4, i requires 0 <= i < 4 => OneXTwoMap[i].0)
  }

  /** The four bookmakers the job seeds, in map order. */
  lemma BookmakerNamesAre()
    ensures BookmakerNames() == ["Bet365", "Bet&Win", "Interwetten", "Pinnacle Sports"]
  {
  }

  ghost predicate DistinctOutcomes(cols: seq<OddsColumn>) {
    forall k, l :: 0 <= k < l < |cols| ==> cols[k].outcome != cols[l].outcome
  }

  /** The odds rows of one bookmaker for one staging row: one per payable outcome. */
  function BookmakerOdds(rec: Record, matchId: nat, bookmakerId: nat, marketId: nat,
                         cols: seq<OddsColumn>): (r: seq<(OddsKey, real)>)
    ensures |r| <= |cols|
    ensures forall e :: e in r ==> e.1 > 1.0
    ensures forall e :: e in r ==> e.0.matchId == matchId && e.0.bookmaker == bookmakerId
                                   && e.0.market == marketId
  {
    if cols == [] then []
    else
      var v := NumberAt(rec, cols[0].column);
      (if Payable(v) then [(OddsKey(matchId, bookmakerId, marketId, cols[0].outcome), v.value)] else [])
      + BookmakerOdds(rec, matchId, bookmakerId, marketId, cols[1..])
  }

  /**
   * An outcome yields a row exactly when its column holds odds strictly above 1.0,
   * and the row carries those odds; other outcomes of the same bookmaker are unaffected.
   */
  lemma {:induction false} BookmakerOddsExact(rec: Record, matchId: nat, bookmakerId: nat,
                                              marketId: nat, cols: seq<OddsColumn>, k: nat)
    requires DistinctOutcomes(cols) && k < |cols|
    ensures var v := NumberAt(rec, cols[k].column);
      var key := OddsKey(matchId, bookmakerId, marketId, cols[k].outcome);
      && (Payable(v) ==> (key, v.value) in BookmakerOdds(rec, matchId, bookmakerId, marketId, cols))
      && (forall x :: (key, x) in BookmakerOdds(rec, matchId, bookmakerId, marketId, cols) ==>
            Payable(v) && x == v.value)
  {
    var r := BookmakerOdds(rec, matchId, bookmakerId, marketId, cols);
    var v0 := NumberAt(rec, cols[0].column);
    var head := if Payable(v0) then [(OddsKey(matchId, bookmakerId, marketId, cols[0].outcome), v0.value)] else [];
    var tail := BookmakerOdds(rec, matchId, bookmakerId, marketId, cols[1..]);
    assert r == head + tail;
    if k == 0 {
      var key0 := OddsKey(matchId, bookmakerId, marketId, cols[0].outcome);
      forall x | (key0, x) in r ensures Payable(v0) && x == v0.value {
        if (key0, x) !in head {
          OutcomeComesFromColumns(rec, matchId, bookmakerId, marketId, cols[1..], cols[0].outcome, x);
          assert false;
        }
      }
    } else {
      assert cols[1..][k - 1] == cols[k];
      BookmakerOddsExact(rec, matchId, bookmakerId, marketId, cols[1..], k - 1);
    }
  }

  lemma {:induction false} OutcomeComesFromColumns(rec: Record, matchId: nat, bookmakerId: nat,
                                                   marketId: nat, cols: seq<OddsColumn>, o: string, x: real)
    requires (OddsKey(matchId, bookmakerId, marketId, o), x) in BookmakerOdds(rec, matchId, bookmakerId, marketId, cols)
    ensures exists l :: 0 <= l < |cols| && cols[l].outcome == o
  {
    if cols != [] {
      var v0 := NumberAt(rec, cols[0].column);
      if !(Payable(v0) && o == cols[0].outcome) {
        OutcomeComesFromColumns(rec, matchId, bookmakerId, marketId, cols[1..], o, x);
        var l :| 0 <= l < |cols[1..]| && cols[1..][l].outcome == o;
        assert cols[l + 1].outcome == o;
      }
    }
  }

  function ColumnCount(bmap: seq<BookmakerColumns>): nat {
    if bmap == [] then 0 else |bmap[0].1| + ColumnCount(bmap[1..])
  }

  /**
   * The odds rows of one joined staging row: for each bookmaker of the map, in map
   * order, its payable outcomes in column order.
   */
  function RowOdds(rec: Record, matchId: nat, ids: map<string, nat>, marketId: nat,
                   bmap: seq<BookmakerColumns>): (r: seq<(OddsKey, real)>)
    requires forall i :: 0 <= i < |bmap| ==> bmap[i].0 in ids
    ensures |r| <= ColumnCount(bmap)
    ensures forall e :: e in r ==> e.1 > 1.0 && e.0.matchId == matchId && e.0.market == marketId
    ensures forall e :: e in r ==> exists i :: 0 <= i < |bmap| && e.0.bookmaker == ids[bmap[i].0]
  {
    if bmap == [] then []
    else
      var head := BookmakerOdds(rec, matchId, ids[bmap[0].0], marketId, bmap[0].1);
      var tail := RowOdds(rec, matchId, ids, marketId, bmap[1..]);
      assert forall e :: e in tail ==> exists i :: 1 <= i < |bmap| && e.0.bookmaker == ids[bmap[i].0] by {
        forall e | e in tail ensures exists i :: 1 <= i < |bmap| && e.0.bookmaker == ids[bmap[i].0] {
          var i :| 0 <= i < |bmap[1..]| && e.0.bookmaker == ids[bmap[1..][i].0];
          assert bmap[i + 1] == bmap[1..][i];
        }
      }
      head + tail
  }

  /** At most 12 full-time result rows and at most 4 Over/Under rows per joined staging row. */
  lemma RowOddsBounds()
    ensures ColumnCount(OneXTwoMap) == 12
    ensures ColumnCount(OverUnderMap) == 4
  {
    assert OneXTwoMap[1..][1..][1..][1..] == [];
    assert OverUnderMap[1..][1..] == [];
  }

  // ---------------------------------------------------------------- points rule

  /**
   * The points CASE of the per-matchday report: the home side gets 3 for 'H', the
   * away side 3 for 'A', either side 1 for 'D', and 0 otherwise.
   */
  function Points(team: nat, homeTeam: nat, awayTeam: nat, ftr: Option<string>): (p: nat)
    ensures p == 0 || p == 1 || p == 3
    ensures p == 1 <==> (team == homeTeam || team == awayTeam) && ftr == Some("D")
    ensures p == 3 <==> (team == homeTeam && ftr == Some("H")) || (team != homeTeam && team == awayTeam && ftr == Some("A"))
  {
    if team == homeTeam then
      (if ftr == Some("H") then 3 else if ftr == Some("D") then 1 else 0)
    else if team == awayTeam then
      (if ftr == Some("A") then 3 else if ftr == Some("D") then 1 else 0)
    else 0
  }

  /** A decided match between two different teams hands out 3 points for a win and 2 for a draw. */
  lemma PointsPerMatch(homeTeam: nat, awayTeam: nat, ftr: string)
    requires homeTeam != awayTeam && ftr in {"H", "D", "A"}
    ensures Points(homeTeam, homeTeam, awayTeam, Some(ftr)) + Points(awayTeam, homeTeam, awayTeam, Some(ftr))
         == if ftr == "D" then 2 else 3
  {
  }
}
