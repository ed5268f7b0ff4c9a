/**
 * One season's tracker state as an object, updated in place game by game
 * (process_game_row, data/collect-data.py:51-100), and the end-of-season
 * pass over the game numbers (data/collect-data.py:149-165).
 */
module Seasons {
  import opened Records
  import opened Tracker

  /** Lines 151-153: the game number the season is checked up to. */
  function SeasonCap(year: int): nat
  {
    if year == 2020 then 63 else 82
  }

  /**
   * The game number the end-of-season pass stops at: the largest n up to
   * the cap such that every game number 1..n has a row. It is the game
   * number before the first one that no team reached, or the cap.
   */
  ghost function LastGameNo(ledger: map<int, Row>, cap: nat): (n: nat)
    ensures n <= cap
    ensures forall g :: 1 <= g <= n ==> g in ledger
    ensures n < cap ==> n + 1 !in ledger
  {
    if cap == 0 then 0
    else
      var m := LastGameNo(ledger, cap - 1);
      if m == cap - 1 && cap in ledger then cap else m
  }

  /** The three properties above pin the stopping game number down uniquely. */
  lemma LastGameNoUnique(ledger: map<int, Row>, cap: nat, n: int)
    requires 0 <= n <= cap
    requires forall g :: 1 <= g <= n ==> g in ledger
    requires n < cap ==> n + 1 !in ledger
    ensures n == LastGameNo(ledger, cap)
  {
    var m := LastGameNo(ledger, cap);
  }

  /**
   * Game numbers present in a season's ledger are downward closed: an
   * entry at h belongs to a team that, by prefix-closedness, also has one
   * at every earlier game number. So once a game number is missing, every
   * later one is missing too.
   */
  lemma LedgerDownClosed(s: State)
    requires Inv(s)
    ensures forall g, h :: 1 <= g <= h && h in s.ledger ==> g in s.ledger
  {
    forall g, h | 1 <= g <= h && h in s.ledger ensures g in s.ledger {
      var t :| t in s.ledger[h];
      assert HasEntry(s, h, t);
      assert HasEntry(s, g, t);
    }
  }

  lemma NoGameAfterGap(s: State, g: int)
    requires Inv(s)
    requires g >= 1 && g !in s.ledger
    ensures forall h :: h >= g ==> h !in s.ledger
  {
    LedgerDownClosed(s);
  }

  /** Game numbers start at 1. */
  lemma LedgerKeysPositive(s: State)
    requires Inv(s)
    ensures forall g :: g in s.ledger ==> g >= 1
  {
    forall g | g in s.ledger ensures g >= 1 {
      var t :| t in s.ledger[g];
      assert HasEntry(s, g, t);
    }
  }

  /** Every entry of a row is well formed at the row's game number. */
  lemma SnapshotWellFormed(s: State, g: int)
    requires Inv(s) && g in s.ledger
    ensures forall t :: t in s.ledger[g] ==> WellFormed(s.ledger[g][t], g)
  {
    forall t | t in s.ledger[g] ensures WellFormed(s.ledger[g][t], g) {
      assert HasEntry(s, g, t);
    }
  }

  /** The teams with an entry at a later game number all have one at the earlier. */
  lemma TeamsShrink(s: State, g: int)
    requires Inv(s)
    requires g >= 1 && g + 1 in s.ledger
    ensures g in s.ledger && s.ledger[g + 1].Keys <= s.ledger[g].Keys
    ensures |s.ledger[g + 1]| <= |s.ledger[g]|
  {
    var t :| t in s.ledger[g + 1];
    assert HasEntry(s, g + 1, t);
    assert HasEntry(s, g, t);
    forall u | u in s.ledger[g + 1] ensures u in s.ledger[g] {
      assert HasEntry(s, g + 1, u);
      assert HasEntry(s, g, u);
    }
    SubsetCard(s.ledger[g + 1].Keys, s.ledger[g].Keys);
  }

  /**
   * The average distance from .500 at a game number lies between 0 and the
   * game number itself (no team can be further from .500 than games played).
   */
  lemma MeanWithinGameNumber(s: State, g: int)
    requires Inv(s) && g in s.ledger
    ensures s.ledger[g] != map[]
    ensures 0.0 <= MeanDist(s.ledger[g]) <= g as real
  {
    var row := s.ledger[g];
    forall t | t in row ensures 0 <= row[t].dist <= g {
      assert HasEntry(s, g, t);
      WellFormedBounds(row[t], g);
    }
    MeanDistBounds(row, 0, g);
  }

  /** A season's tracker: the fields process_game_row and the end-of-season pass update. */
  class Season {
    var gamesPlayed: map<Team, int>
    var ledger: map<int, Row>
    var totals: map<int, int>
    /** avgGamesFrom500 per game number, written by Finalize. */
    var averages: map<int, real>

    function Current(): State
      reads this
    {
      State(gamesPlayed, ledger, totals)
    }

    ghost predicate Valid()
      reads this
    {
      Inv(Current())
    }

    /** A new season: no team has played, the ledger is empty (lines 104-105). */
    constructor ()
      ensures Valid() && Current() == Empty && averages == map[]
    {
      gamesPlayed, ledger, totals, averages := map[], map[], map[], map[];
    }

    /**
     * process_game_row: decide winner and loser from the points, then for
     * each of them in turn bump its game number, read its wins from its
     * previous entry, store the new entry and add its distance into the
     * game number's total.
     */
    method ProcessGame(game: Game)
      requires Valid()
      modifies this
      ensures Valid()
      ensures Current() == PlayGame(old(Current()), game)
      ensures averages == old(averages)
    {
      var winningTeam := if game.vizPts > game.homePts then game.visitor else game.home;
      var losingTeam := if game.vizPts < game.homePts then game.visitor else game.home;
      var teams := [winningTeam, losingTeam];
      var i := 0;
      while i < |teams|
        invariant 0 <= i <= |teams|
        invariant Current() == StepTeams(old(Current()), teams[..i], winningTeam)
        invariant averages == old(averages)
      {
        StepTeamsNext(old(Current()), teams, winningTeam, i);
        RecordResult(teams[i], teams[i] == winningTeam);
        i := i + 1;
      }
      assert teams[..i] == teams;
      PlayGameKeepsInv(old(Current()), game);
    }

    /**
     * One iteration of process_game_row's loop: bump the team's game
     * number, read its wins from its previous entry (none before game 1),
     * store the new entry and add its distance to the game number's total.
     */
    method RecordResult(team: Team, won: bool)
      requires Readable(Current(), team) && totals.Keys == ledger.Keys
      modifies this
      ensures Current() == Step(old(Current()), team, won)
      ensures averages == old(averages)
    {
      ghost var before := Current();
      StepInPlace(before, team, won);

      var played, rows, sums := gamesPlayed, ledger, totals;
      var teamGameNo := if team !in played then 1 else played[team] + 1;
      played := played[team := teamGameNo];
      if teamGameNo !in rows {
        rows := rows[teamGameNo := map[]];
        sums := sums[teamGameNo := 0];
      }

      var teamWins: int;
      var teamLosses: int;
      if teamGameNo != 1 {
        teamWins := rows[teamGameNo - 1][team].wins;
        if won {
          teamWins := teamWins + 1;
        }
        teamLosses := teamGameNo - teamWins;
      } else {
        teamWins := if won then 1 else 0;
        teamLosses := if won then 0 else 1;
      }

      var entry := Classify(teamWins, teamLosses);
      rows := rows[teamGameNo := rows[teamGameNo][team := entry]];
      sums := sums[teamGameNo := sums[teamGameNo] + entry.dist];
      assert played == Step(before, team, won).gamesPlayed;
      assert rows == Step(before, team, won).ledger;
      assert sums == Step(before, team, won).totals;
      gamesPlayed, ledger, totals := played, rows, sums;
    }

    /**
     * The end-of-season pass: walk game numbers 1 up to the season's cap,
     * storing each one's average distance from .500 over the teams that
     * reached it; at the first game number no team reached, stop and end
     * the season one game earlier. The season is short when it stopped
     * early or the year is 2020.
     */
    method Finalize(year: int) returns (lastGameNo: int, short: bool)
      requires RowsNonEmpty(Current()) && TotalsMatch(Current())
      modifies this`averages
      ensures 0 <= lastGameNo <= SeasonCap(year)
      ensures forall g :: 1 <= g <= lastGameNo ==> g in ledger
      ensures lastGameNo < SeasonCap(year) ==> lastGameNo + 1 !in ledger
      ensures short <==> year == 2020 || lastGameNo < SeasonCap(year)
      ensures forall g :: g in averages <==> g in old(averages) || 1 <= g <= lastGameNo
      ensures forall g :: 1 <= g <= lastGameNo ==> ledger[g] != map[] && averages[g] == MeanDist(ledger[g])
      ensures forall g :: g in old(averages) && !(1 <= g <= lastGameNo) ==> averages[g] == old(averages)[g]
    {
      var cap := SeasonCap(year);
      lastGameNo := cap;
      short := year == 2020;
      for gameNo := 1 to cap + 1
        invariant lastGameNo == cap
        invariant short == (year == 2020)
        invariant forall g :: 1 <= g < gameNo ==> g in ledger
        invariant forall g :: g in averages <==> g in old(averages) || 1 <= g < gameNo
        invariant forall g :: 1 <= g < gameNo ==> ledger[g] != map[] && averages[g] == MeanDist(ledger[g])
        invariant forall g :: g in old(averages) && !(1 <= g < gameNo) ==> averages[g] == old(averages)[g]
      {
        if gameNo in ledger {
          var numTeams := |ledger[gameNo]|;
          averages := averages[gameNo := (totals[gameNo] as real) / (numTeams as real)];
        } else {
          lastGameNo := gameNo - 1;
          short := true;
          break;
        }
      }
    }
  }
}
