/**
 * One season from its games to its summary (data/collect-data.py:103-184),
 * and the league table that puts short seasons on a full-season footing
 * (data/collect-data.py:191-209).
 */
module Pipeline {
  import opened Wrappers
  import opened Records
  import opened Tracker
  import opened Seasons
  import opened Aggregator

  /** What the end of a season leaves behind for the league table. */
  datatype SeasonSummary = SeasonSummary(year: int, lastGameNo: int, short: bool, tankiness: Tankiness)

  /** Feed the season's regular-season games, in order, to a new tracker. */
  method PlaySeason(games: seq<Game>) returns (season: Season)
    ensures fresh(season) && season.Valid() && season.Current() == Replay(games)
    ensures season.averages == map[]
  {
    season := new Season();
    var i := 0;
    while i < |games|
      invariant 0 <= i <= |games|
      invariant fresh(season) && season.Valid()
      invariant season.Current() == Replay(games[..i])
      invariant season.averages == map[]
    {
      season.ProcessGame(games[i]);
      assert games[..i + 1][..i] == games[..i];
      i := i + 1;
    }
    assert games[..i] == games;
  }

  /**
   * The end of a season: the pass over the game numbers, then the
   * tankiness at the game number the pass stopped at.
   */
  method EndSeason(season: Season, year: int) returns (r: Result<SeasonSummary, SeasonError>)
    requires season.Valid()
    modifies season`averages
    ensures season.Valid() && season.Current() == old(season.Current())
    ensures r == Err(MissingSnapshot) <==> 1 !in season.ledger
    ensures 1 in season.ledger ==>
      var n := LastGameNo(season.ledger, SeasonCap(year));
      n in season.ledger && (r == Err(NoLosingTeams) <==> LosingTeams(season.ledger[n]) == map[])
    ensures r.Ok? ==> ResultFits(year, season.Current(), r.value)
    ensures var n := LastGameNo(season.ledger, SeasonCap(year));
      forall g :: g in season.averages <==> g in old(season.averages) || 1 <= g <= n
    ensures var n := LastGameNo(season.ledger, SeasonCap(year));
      forall g :: 1 <= g <= n ==> season.ledger[g] != map[] && season.averages[g] == MeanDist(season.ledger[g])
    ensures var n := LastGameNo(season.ledger, SeasonCap(year));
      forall g :: g in old(season.averages) && !(1 <= g <= n) ==> season.averages[g] == old(season.averages)[g]
  {
    ghost var s := season.Current();
    LedgerKeysPositive(s);
    var lastGameNo, short := season.Finalize(year);
    assert season.Current() == s;
    LastGameNoUnique(s.ledger, SeasonCap(year), lastGameNo);
    assert lastGameNo in s.ledger <==> 1 in s.ledger by {
      if lastGameNo == 0 {
        assert 1 !in s.ledger;
      } else {
        assert 1 in s.ledger;
      }
    }
    var t := SeasonTankiness(season.ledger, lastGameNo);
    match t {
      case Err(e) =>
        r := Err(e);
      case Ok(v) =>
        SnapshotWellFormed(s, lastGameNo);
        LosingMeanBounds(s.ledger[lastGameNo], lastGameNo);
        r := Ok(SeasonSummary(year, lastGameNo, short, v));
    }
  }

  /**
   * One season from its games to its summary: the summary is missing
   * exactly when the season had no games, and otherwise fails exactly when
   * no team has a losing record at the game number the season stopped at.
   */
  method RunSeason(year: int, games: seq<Game>) returns (season: Season, r: Result<SeasonSummary, SeasonError>)
    ensures fresh(season) && season.Valid() && season.Current() == Replay(games)
    ensures r == Err(MissingSnapshot) <==> games == []
    ensures games != [] ==>
      var ledger := Replay(games).ledger;
      var n := LastGameNo(ledger, SeasonCap(year));
      n in ledger && (r == Err(NoLosingTeams) <==> LosingTeams(ledger[n]) == map[])
    ensures r.Ok? ==> ResultFits(year, Replay(games), r.value)
    ensures var ledger := Replay(games).ledger;
      forall g :: g in season.averages <==> 1 <= g <= LastGameNo(ledger, SeasonCap(year))
    ensures var ledger := Replay(games).ledger;
      forall g :: 1 <= g <= LastGameNo(ledger, SeasonCap(year)) ==>
        ledger[g] != map[] && season.averages[g] == MeanDist(ledger[g])
  {
    season := PlaySeason(games);
    r := EndSeason(season, year);
    ReplayFirstGame(games);
  }

  /**
   * A summary fits a season's final state when its last game number is
   * the one the end-of-season pass stops at (the game number before the
   * first one no team reached, capped by the season's length), it is short
   * exactly when it was cut early or the year is 2020, and its losing-team
   * count and average are those of that game number's row, the average
   * lying between 1 and the game number.
   */
  ghost predicate ResultFits(year: int, s: State, summary: SeasonSummary)
  {
    var n := summary.lastGameNo;
    && summary.year == year
    && n == LastGameNo(s.ledger, SeasonCap(year))
    && n >= 1
    && (summary.short <==> year == 2020 || n < SeasonCap(year))
    && LosingTeams(s.ledger[n]) != map[]
    && summary.tankiness.numLosingTeams == |LosingTeams(s.ledger[n])|
    && summary.tankiness.avgLosingDist == MeanDist(LosingTeams(s.ledger[n]))
    && 1.0 <= summary.tankiness.avgLosingDist <= n as real
  }

  /** NUM_GAMES_IN_A_SEASON as line 19 sets it. */
  const FullSeasonAsWritten: int := 16

  /** The length of a season in the 82-game era the script covers (line 151). */
  const FullSeason: int := 82

  /** One line of the league table. */
  datatype ToplineRow = ToplineRow(year: int, realOrProjected: real, realIfShort: Option<real>)

  /**
   * A season's line of the league table with `fullSeason` as the length to
   * project to: a full season reports its average as is; a short one
   * reports it scaled by fullSeason / lastGameNo, keeping the raw value
   * beside it.
   */
  function ToplineRowWith(fullSeason: int, summary: SeasonSummary): (r: ToplineRow)
    requires summary.short ==> summary.lastGameNo > 0
    ensures r.year == summary.year
    ensures !summary.short ==> r.realOrProjected == summary.tankiness.avgLosingDist && r.realIfShort == None
    ensures summary.short ==> r.realIfShort == Some(summary.tankiness.avgLosingDist)
    ensures summary.short ==>
      r.realOrProjected * (summary.lastGameNo as real) == (fullSeason as real) * summary.tankiness.avgLosingDist
  {
    var raw := summary.tankiness.avgLosingDist;
    if !summary.short then ToplineRow(summary.year, raw, None)
    else
      var n := summary.lastGameNo as real;
      var projected := ((fullSeason as real) / n) * raw;
      assert projected * n == (fullSeason as real) * raw by {
        assert (fullSeason as real) / n * n == fullSeason as real;
      }
      ToplineRow(summary.year, projected, Some(raw))
  }

  /** The league-table line as lines 199-203 compute it. */
  function ToplineRowAsWritten(summary: SeasonSummary): ToplineRow
    requires summary.short ==> summary.lastGameNo > 0
  {
    ToplineRowWith(FullSeasonAsWritten, summary)
  }

  /** The league-table line projected to the 82-game season. */
  function ToplineRowOf(summary: SeasonSummary): ToplineRow
    requires summary.short ==> summary.lastGameNo > 0
  {
    ToplineRowWith(FullSeason, summary)
  }

  /**
   * As written, the 63-game 2020 season with losing teams on average x > 0
   * games below .500 is reported as fewer than x games below, so the
   * "projection" shrinks it.
   */
  lemma AsWrittenShrinks2020(x: real, numLosing: nat)
    requires x > 0.0
    ensures ToplineRowAsWritten(SeasonSummary(2020, 63, true, Tankiness(numLosing, x))).realOrProjected < x
  {
    var r := ToplineRowAsWritten(SeasonSummary(2020, 63, true, Tankiness(numLosing, x)));
    assert r.realOrProjected * 63.0 == 16.0 * x;
  }

  /** Projected to 82 games, a short season's value never falls below its raw value. */
  lemma ProjectionNeverShrinks(summary: SeasonSummary)
    requires summary.short && 0 < summary.lastGameNo <= FullSeason
    requires summary.tankiness.avgLosingDist >= 0.0
    ensures summary.tankiness.avgLosingDist <= ToplineRowOf(summary).realOrProjected
  {
    var raw := summary.tankiness.avgLosingDist;
    var n := summary.lastGameNo as real;
    var k := 82.0 / n;
    assert k * n == 82.0;
    assert k >= 1.0 by {
      assert 82.0 >= n;
    }
    assert ToplineRowOf(summary).realOrProjected == k * raw;
    var d := k - 1.0;
    assert d * raw >= 0.0;
    assert k * raw == raw + d * raw;
  }

  /**
   * The league table: one line per season in order, each projected to the
   * 82-game season when the season was short.
   */
  method Topline(summaries: seq<SeasonSummary>) returns (rows: seq<ToplineRow>)
    requires forall i :: 0 <= i < |summaries| ==> summaries[i].short ==> summaries[i].lastGameNo > 0
    ensures |rows| == |summaries|
    ensures forall i :: 0 <= i < |rows| ==> rows[i] == ToplineRowOf(summaries[i])
  {
    rows := [];
    for i := 0 to |summaries|
      invariant |rows| == i
      invariant forall j :: 0 <= j < i ==> rows[j] == ToplineRowOf(summaries[j])
    {
      var summary := summaries[i];
      var raw := summary.tankiness.avgLosingDist;
      var row: ToplineRow;
      if !summary.short {
        row := ToplineRow(summary.year, raw, None);
      } else {
        var projected := ((FullSeason as real) / (summary.lastGameNo as real)) * raw;
        row := ToplineRow(summary.year, projected, Some(raw));
      }
      rows := rows + [row];
    }
  }
}
