/**
 * The season's "tankiness" (data/collect-data.py:167-184): among the
 * teams with a losing record at the game number the end-of-season pass
 * stopped at (the one before the first game number no team reached, or the
 * season's cap), how many are there and how far, on average, are they below .500.
 */
module Aggregator {
  import opened Wrappers
  import opened Records

  /** The two ways the summary cannot be computed. */
  datatype SeasonError =
    | MissingSnapshot  // no entries at the last game number (lastGameNo = 0)
    | NoLosingTeams    // no team has a losing record: the average divides by zero

  datatype Tankiness = Tankiness(numLosingTeams: nat, avgLosingDist: real)

  /** The entries of the teams whose record is losing. */
  function LosingTeams(row: Row): (r: Row)
    ensures forall t :: t in r <==> t in row && row[t].kind == Losing
    ensures forall t :: t in r ==> r[t] == row[t]
    ensures |r| <= |row|
  {
    var r := map t | t in row && row[t].kind == Losing :: row[t];
    SubsetCard(r.Keys, row.Keys);
    r
  }

  /**
   * Take the last game number's row, keep its losing teams, count them and
   * add up their distances from .500, then divide the total by the count.
   */
  method SeasonTankiness(ledger: map<int, Row>, lastGameNo: int) returns (r: Result<Tankiness, SeasonError>)
    ensures r == Err(MissingSnapshot) <==> lastGameNo !in ledger
    ensures r == Err(NoLosingTeams) <==> lastGameNo in ledger && LosingTeams(ledger[lastGameNo]) == map[]
    ensures r.Ok? ==>
      var losing := LosingTeams(ledger[lastGameNo]);
      && losing != map[]
      && r.value.numLosingTeams == |losing| <= |ledger[lastGameNo]|
      && r.value.avgLosingDist == MeanDist(losing)
  {
    if lastGameNo !in ledger {
      return Err(MissingSnapshot);
    }
    var snapshot := ledger[lastGameNo];
    var losingTeams := LosingTeams(snapshot);
    var numLosingTeams := |losingTeams|;

    var totalLosingDist := 0;
    var rest := losingTeams;
    while rest != map[]
      invariant forall t :: t in rest ==> t in losingTeams && rest[t] == losingTeams[t]
      invariant totalLosingDist + TotalDist(rest) == TotalDist(losingTeams)
      decreases |rest|
    {
      var team :| team in rest;
      totalLosingDist := totalLosingDist + rest[team].dist;
      TotalDistRemove(rest, team);
      rest := rest - {team};
    }

    if numLosingTeams == 0 {
      return Err(NoLosingTeams);
    }
    r := Ok(Tankiness(numLosingTeams, (totalLosingDist as real) / (numLosingTeams as real)));
  }

  /**
   * When every entry of the snapshot is well formed at its game number,
   * each losing team is at least one game and at most `g` games below
   * .500, and so is their average.
   */
  lemma LosingMeanBounds(row: Row, g: int)
    requires forall t :: t in row ==> WellFormed(row[t], g)
    requires LosingTeams(row) != map[]
    ensures 1.0 <= MeanDist(LosingTeams(row)) <= g as real
  {
    var losing := LosingTeams(row);
    forall t | t in losing ensures 1 <= losing[t].dist <= g {
      WellFormedBounds(row[t], g);
    }
    MeanDistBounds(losing, 1, g);
  }
}
