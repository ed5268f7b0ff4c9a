/**
 * The running-record tracker of data/collect-data.py (process_game_row):
 * per season, each team's game count and a ledger that stores, under
 * every game number, each team's record after that many games, plus the
 * running total of distances from .500 at that game number.
 */
module Tracker {
  import opened Records

  /** One game row: the visiting team and its points, the home team and its points. */
  datatype Game = Game(visitor: Team, vizPts: int, home: Team, homePts: int)

  /** The season's mutable state, as values. */
  datatype State = State(gamesPlayed: map<Team, int>, ledger: map<int, Row>, totals: map<int, int>)

  const Empty := State(map[], map[], map[])

  /** The ledger holds an entry for team `t` at game number `g`. */
  predicate HasEntry(s: State, g: int, t: Team)
  {
    g in s.ledger && t in s.ledger[g]
  }

  /** Every team in the count map has played at least one game. */
  ghost predicate CountsPositive(s: State)
  {
    forall t :: t in s.gamesPlayed ==> s.gamesPlayed[t] >= 1
  }

  /** Each team has an entry at every game number from 1 up to its count. */
  ghost predicate PrefixClosed(s: State)
  {
    forall t, g :: t in s.gamesPlayed && 1 <= g <= s.gamesPlayed[t] ==> HasEntry(s, g, t)
  }

  /** No team has an entry beyond its count. */
  ghost predicate NoEntryBeyond(s: State)
  {
    forall g, t :: HasEntry(s, g, t) ==> t in s.gamesPlayed && 1 <= g <= s.gamesPlayed[t]
  }

  /** A game number is present only with at least one entry, and with a total. */
  ghost predicate RowsNonEmpty(s: State)
  {
    && (forall g :: g in s.ledger ==> s.ledger[g] != map[])
    && s.totals.Keys == s.ledger.Keys
  }

  /** Each game number's total is the sum of its row's distances. */
  ghost predicate TotalsMatch(s: State)
    requires s.totals.Keys == s.ledger.Keys
  {
    forall g :: g in s.ledger ==> s.totals[g] == TotalDist(s.ledger[g])
  }

  /** Every entry is well formed at its game number. */
  ghost predicate EntriesWellFormed(s: State)
  {
    forall g, t :: HasEntry(s, g, t) ==> WellFormed(s.ledger[g][t], g)
  }

  /** From game number g - 1 to g the team's wins grow by 0 or 1. */
  ghost predicate WinsStep(s: State, g: int, t: Team)
  {
    HasEntry(s, g, t) && g > 1 ==>
      HasEntry(s, g - 1, t) && 0 <= s.ledger[g][t].wins - s.ledger[g - 1][t].wins <= 1
  }

  /** A team's wins are cumulative along its ledger. */
  ghost predicate WinsCumulative(s: State)
  {
    forall g, t :: WinsStep(s, g, t)
  }

  /** The invariant process_game_row keeps. */
  ghost predicate Inv(s: State)
  {
    && CountsPositive(s)
    && PrefixClosed(s)
    && NoEntryBeyond(s)
    && RowsNonEmpty(s)
    && TotalsMatch(s)
    && EntriesWellFormed(s)
    && WinsCumulative(s)
  }

  /** The number of games `team` has played so far (0 before its first). */
  function Played(s: State, team: Team): int
  {
    if team in s.gamesPlayed then s.gamesPlayed[team] else 0
  }

  /** The game number `team`'s next game gets (line 64). */
  function GameNo(s: State, team: Team): int
  {
    if team !in s.gamesPlayed then 1 else s.gamesPlayed[team] + 1
  }

  /** The ledger entry that line 72 reads for `team`'s next game is present. */
  predicate Readable(s: State, team: Team)
  {
    GameNo(s, team) != 1 ==> HasEntry(s, GameNo(s, team) - 1, team)
  }

  /** The team's cumulative wins so far, read from its latest ledger entry. */
  function WinsSoFar(s: State, team: Team): int
  {
    if GameNo(s, team) != 1 && HasEntry(s, GameNo(s, team) - 1, team)
    then s.ledger[GameNo(s, team) - 1][team].wins
    else 0
  }

  /** Under the invariant the read always succeeds and finds 0..Played wins. */
  lemma InvReadable(s: State, team: Team)
    requires CountsPositive(s) && PrefixClosed(s) && EntriesWellFormed(s)
    ensures Readable(s, team)
    ensures Played(s, team) >= 0 && GameNo(s, team) == Played(s, team) + 1
    ensures 0 <= WinsSoFar(s, team) <= Played(s, team)
  {
    if team in s.gamesPlayed {
      var n := s.gamesPlayed[team];
      assert HasEntry(s, n, team);
      assert WellFormed(s.ledger[n][team], n);
    }
  }

  /** The team has no entry yet at the game number its next game gets. */
  lemma NoEntryAhead(s: State, team: Team)
    requires NoEntryBeyond(s)
    ensures !HasEntry(s, GameNo(s, team), team)
  {
  }

  /** The entry stored for `team`'s next game: previous wins plus the win if it won, classified. */
  function StepEntry(s: State, team: Team, won: bool): Entry
  {
    var g := GameNo(s, team);
    var wins := WinsSoFar(s, team) + (if won then 1 else 0);
    Classify(wins, g - wins)
  }

  /**
   * One pass of the loop body of process_game_row for `team`: bump its
   * game number, store the new entry in that game number's row (created
   * empty with a zero total if absent) and add its distance to the total.
   */
  function Step(s: State, team: Team, won: bool): State
  {
    var g := GameNo(s, team);
    var row := if g in s.ledger then s.ledger[g] else map[];
    var total := if g in s.totals then s.totals[g] else 0;
    var e := StepEntry(s, team, won);
    State(s.gamesPlayed[team := g], s.ledger[g := row[team := e]], s.totals[g := total + e.dist])
  }

  lemma StepShape(s: State, team: Team, won: bool)
    ensures var r, g := Step(s, team, won), GameNo(s, team);
      && r.gamesPlayed == s.gamesPlayed[team := g]
      && g in r.ledger && r.ledger[g] == (if g in s.ledger then s.ledger[g] else map[])[team := StepEntry(s, team, won)]
      && (forall h :: h != g ==> (h in r.ledger <==> h in s.ledger))
      && (forall h :: h != g && h in s.ledger ==> r.ledger[h] == s.ledger[h])
      && r.totals.Keys == s.totals.Keys + {g}
  {
  }

  /** Step written the way process_game_row updates the season in place. */
  lemma StepInPlace(s: State, team: Team, won: bool)
    requires Readable(s, team) && s.totals.Keys == s.ledger.Keys
    ensures var g := GameNo(s, team);
      var ledger0 := if g in s.ledger then s.ledger else s.ledger[g := map[]];
      var totals0 := if g in s.ledger then s.totals else s.totals[g := 0];
      var wins := (if g != 1 then ledger0[g - 1][team].wins else 0) + (if won then 1 else 0);
      var e := Classify(wins, g - wins);
      && Step(s, team, won).gamesPlayed == s.gamesPlayed[team := g]
      && Step(s, team, won).ledger == ledger0[g := ledger0[g][team := e]]
      && Step(s, team, won).totals == totals0[g := totals0[g] + e.dist]
  {
    var g := GameNo(s, team);
    var wins := (if g != 1 then s.ledger[g - 1][team].wins else 0) + (if won then 1 else 0);
    assert StepEntry(s, team, won) == Classify(wins, g - wins);
  }

  lemma StepPrefixClosed(s: State, team: Team, won: bool)
    requires CountsPositive(s) && PrefixClosed(s)
    ensures CountsPositive(Step(s, team, won)) && PrefixClosed(Step(s, team, won))
  {
    StepShape(s, team, won);
    var r, g := Step(s, team, won), GameNo(s, team);
    forall t, h | t in r.gamesPlayed && 1 <= h <= r.gamesPlayed[t]
      ensures HasEntry(r, h, t)
    {
      if t == team && h == g {
      } else if t == team {
        assert h <= s.gamesPlayed[t];
        assert HasEntry(s, h, t);
      } else {
        assert HasEntry(s, h, t);
      }
    }
  }

  lemma StepNoEntryBeyond(s: State, team: Team, won: bool)
    requires NoEntryBeyond(s) && Played(s, team) >= 0
    ensures NoEntryBeyond(Step(s, team, won))
  {
    StepShape(s, team, won);
    var r, g := Step(s, team, won), GameNo(s, team);
    forall h, t | HasEntry(r, h, t)
      ensures t in r.gamesPlayed && 1 <= h <= r.gamesPlayed[t]
    {
      if h != g || t != team {
        assert HasEntry(s, h, t);
      }
    }
  }

  lemma StepRowsNonEmpty(s: State, team: Team, won: bool)
    requires RowsNonEmpty(s)
    ensures RowsNonEmpty(Step(s, team, won))
  {
    StepShape(s, team, won);
    var r, g := Step(s, team, won), GameNo(s, team);
    forall h | h in r.ledger ensures r.ledger[h] != map[] {
      if h == g {
        assert team in r.ledger[g];
      } else {
        assert r.ledger[h] == s.ledger[h];
      }
    }
  }

  lemma StepTotals(s: State, team: Team, won: bool)
    requires RowsNonEmpty(s) && TotalsMatch(s) && NoEntryBeyond(s)
    ensures Step(s, team, won).totals.Keys == Step(s, team, won).ledger.Keys
    ensures TotalsMatch(Step(s, team, won))
  {
    StepShape(s, team, won);
    NoEntryAhead(s, team);
    var r, g := Step(s, team, won), GameNo(s, team);
    var row := if g in s.ledger then s.ledger[g] else map[];
    TotalDistInsert(row, team, StepEntry(s, team, won));
    assert r.totals[g] == TotalDist(r.ledger[g]) by {
      if g !in s.ledger {
        assert row == map[];
      }
    }
    forall h | h in r.ledger ensures r.totals[h] == TotalDist(r.ledger[h]) {
      if h != g {
        assert r.ledger[h] == s.ledger[h];
      }
    }
  }

  lemma StepEntriesWellFormed(s: State, team: Team, won: bool)
    requires CountsPositive(s) && PrefixClosed(s) && EntriesWellFormed(s)
    ensures EntriesWellFormed(Step(s, team, won))
  {
    InvReadable(s, team);
    assert WellFormed(StepEntry(s, team, won), GameNo(s, team));
    StepOldEntriesWellFormed(s, team, won);
  }

  lemma StepOldEntriesWellFormed(s: State, team: Team, won: bool)
    requires EntriesWellFormed(s)
    requires WellFormed(StepEntry(s, team, won), GameNo(s, team))
    ensures EntriesWellFormed(Step(s, team, won))
  {
    StepShape(s, team, won);
    var r, g := Step(s, team, won), GameNo(s, team);
    forall h, t | HasEntry(r, h, t)
      ensures WellFormed(r.ledger[h][t], h)
    {
      if h != g || t != team {
        assert HasEntry(s, h, t);
        assert r.ledger[h][t] == s.ledger[h][t];
      }
    }
  }

  lemma StepWinsCumulative(s: State, team: Team, won: bool)
    requires WinsCumulative(s) && NoEntryBeyond(s) && Readable(s, team) && Played(s, team) >= 0
    ensures WinsCumulative(Step(s, team, won))
  {
    StepShape(s, team, won);
    var r, g := Step(s, team, won), GameNo(s, team);
    forall h, t ensures WinsStep(r, h, t) {
      if h == g && t == team {
        if g > 1 {
          assert r.ledger[g - 1] == s.ledger[g - 1];
        }
      } else if HasEntry(r, h, t) && h > 1 {
        assert HasEntry(s, h, t);
        assert WinsStep(s, h, t);
        assert HasEntry(s, h - 1, t);
        if h - 1 == g {
          assert t != team;
        }
      }
    }
  }

  /** A step keeps the invariant. */
  lemma StepKeepsInv(s: State, team: Team, won: bool)
    requires Inv(s)
    ensures Inv(Step(s, team, won))
  {
    InvReadable(s, team);
    StepPrefixClosed(s, team, won);
    StepNoEntryBeyond(s, team, won);
    StepRowsNonEmpty(s, team, won);
    StepTotals(s, team, won);
    StepEntriesWellFormed(s, team, won);
    StepWinsCumulative(s, team, won);
  }

  /** A step advances only `team` and credits it a win exactly when `won`. */
  lemma StepEffect(s: State, team: Team, won: bool)
    requires Played(s, team) >= 0
    ensures forall t :: Played(Step(s, team, won), t) == Played(s, t) + (if t == team then 1 else 0)
    ensures WinsSoFar(Step(s, team, won), team) == WinsSoFar(s, team) + (if won then 1 else 0)
    ensures forall t :: WinsSoFar(Step(s, team, won), t) == WinsSoFar(s, t) || t == team
  {
    StepShape(s, team, won);
    var r, g := Step(s, team, won), GameNo(s, team);
    assert HasEntry(r, g, team);
    forall t | t != team ensures WinsSoFar(r, t) == WinsSoFar(s, t) {
      assert GameNo(r, t) == GameNo(s, t);
      var h := GameNo(s, t) - 1;
      if h == g {
        assert HasEntry(r, h, t) == HasEntry(s, h, t);
      }
    }
  }

  /** `r` keeps every entry of `s` unchanged. */
  ghost predicate Extends(s: State, r: State)
  {
    forall g, t :: HasEntry(s, g, t) ==> HasEntry(r, g, t) && r.ledger[g][t] == s.ledger[g][t]
  }

  /** A step overwrites no existing entry: the team has none yet at its new game number. */
  lemma StepExtends(s: State, team: Team, won: bool)
    requires NoEntryBeyond(s)
    ensures Extends(s, Step(s, team, won))
  {
    StepShape(s, team, won);
    NoEntryAhead(s, team);
    var r, g := Step(s, team, won), GameNo(s, team);
    forall h, t | HasEntry(s, h, t)
      ensures HasEntry(r, h, t) && r.ledger[h][t] == s.ledger[h][t]
    {
      if h == g {
        assert t != team;
      }
    }
  }

  /** The loop of process_game_row over `teams`, in order; a team is credited a win when it is `winner`. */
  function StepTeams(s: State, teams: seq<Team>, winner: Team): State
    decreases |teams|
  {
    if teams == [] then s
    else
      var team := teams[|teams| - 1];
      Step(StepTeams(s, teams[..|teams| - 1], winner), team, team == winner)
  }

  lemma {:induction false} StepTeamsKeepsInv(s: State, teams: seq<Team>, winner: Team)
    requires Inv(s)
    ensures Inv(StepTeams(s, teams, winner))
    decreases |teams|
  {
    if teams != [] {
      var team := teams[|teams| - 1];
      StepTeamsKeepsInv(s, teams[..|teams| - 1], winner);
      StepKeepsInv(StepTeams(s, teams[..|teams| - 1], winner), team, team == winner);
    }
  }

  /**
   * After any run of steps from a valid state, the next team's previous
   * entry can be read, and one more step extends the run.
   */
  lemma StepTeamsNext(s: State, teams: seq<Team>, winner: Team, i: int)
    requires Inv(s) && 0 <= i < |teams|
    ensures var r := StepTeams(s, teams[..i], winner);
      && Readable(r, teams[i]) && r.totals.Keys == r.ledger.Keys
      && StepTeams(s, teams[..i + 1], winner) == Step(r, teams[i], teams[i] == winner)
  {
    StepTeamsKeepsInv(s, teams[..i], winner);
    InvReadable(StepTeams(s, teams[..i], winner), teams[i]);
    assert teams[..i + 1][..i] == teams[..i];
  }

  /** Line 59: the visitor wins on more points, otherwise the home team is taken as winner. */
  function Winner(game: Game): Team
  {
    if game.vizPts > game.homePts then game.visitor else game.home
  }

  /** Line 60: the visitor loses on fewer points, otherwise the home team is taken as loser. */
  function Loser(game: Game): Team
  {
    if game.vizPts < game.homePts then game.visitor else game.home
  }

  /** process_game_row: the winner, then the loser. */
  function PlayGame(s: State, game: Game): State
  {
    StepTeams(s, [Winner(game), Loser(game)], Winner(game))
  }

  /** process_game_row as two steps: the winner credited a win, then the loser (credited one only if it is the winner). */
  lemma PlayGameUnfold(s: State, game: Game)
    ensures PlayGame(s, game) ==
              Step(Step(s, Winner(game), true), Loser(game), Loser(game) == Winner(game))
  {
    var w, l := Winner(game), Loser(game);
    assert [w][..0] == [];
    assert StepTeams(s, [w], w) == Step(s, w, true);
    assert [w, l][..1] == [w];
    assert StepTeams(s, [w, l], w) == Step(StepTeams(s, [w], w), l, l == w);
  }

  lemma PlayGameKeepsInv(s: State, game: Game)
    requires Inv(s)
    ensures Inv(PlayGame(s, game))
  {
    StepTeamsKeepsInv(s, [Winner(game), Loser(game)], Winner(game));
  }

  /** The state after a season's games, played in order from an empty state. */
  function Replay(games: seq<Game>): State
    decreases |games|
  {
    if games == [] then Empty
    else PlayGame(Replay(games[..|games| - 1]), games[|games| - 1])
  }

  lemma {:induction false} ReplayInv(games: seq<Game>)
    ensures Inv(Replay(games))
    decreases |games|
  {
    if games != [] {
      ReplayInv(games[..|games| - 1]);
      PlayGameKeepsInv(Replay(games[..|games| - 1]), games[|games| - 1]);
    }
  }

  /** How many times the loop of process_game_row visits `t` for this game. */
  function Appearances(game: Game, t: Team): nat
  {
    (if Winner(game) == t then 1 else 0) + (if Loser(game) == t then 1 else 0)
  }

  /** How many wins the game credits `t`: every visit when `t` is the winner, none otherwise. */
  function WinCredits(game: Game, t: Team): nat
  {
    if Winner(game) == t then Appearances(game, t) else 0
  }

  /** A game adds Appearances to each team's count and WinCredits to its wins. */
  lemma PlayGameCounts(s: State, game: Game)
    requires CountsPositive(s)
    ensures forall t :: Played(PlayGame(s, game), t) == Played(s, t) + Appearances(game, t)
    ensures forall t :: WinsSoFar(PlayGame(s, game), t) == WinsSoFar(s, t) + WinCredits(game, t)
  {
    var w, l := Winner(game), Loser(game);
    var s1 := Step(s, w, true);
    var r := PlayGame(s, game);
    PlayGameUnfold(s, game);
    StepEffect(s, w, true);
    StepEffect(s1, l, l == w);
    forall t ensures Played(r, t) == Played(s, t) + Appearances(game, t) {
      assert Played(r, t) == Played(s1, t) + (if t == l then 1 else 0);
    }
    forall t ensures WinsSoFar(r, t) == WinsSoFar(s, t) + WinCredits(game, t) {
      if t != w && t != l {
        assert WinsSoFar(r, t) == WinsSoFar(s1, t) == WinsSoFar(s, t);
      }
    }
  }

  /** A game overwrites no entry already in the ledger. */
  lemma PlayGameExtends(s: State, game: Game)
    requires Inv(s)
    ensures Extends(s, PlayGame(s, game))
  {
    var w, l := Winner(game), Loser(game);
    PlayGameUnfold(s, game);
    StepExtends(s, w, true);
    StepKeepsInv(s, w, true);
    StepExtends(Step(s, w, true), l, l == w);
  }

  /**
   * With distinct teams and unequal scores, the team with more points gets
   * one more game and one more win, the other one more game and no win,
   * and every other team is untouched.
   */
  lemma DecidedGame(s: State, game: Game)
    requires CountsPositive(s)
    requires game.visitor != game.home && game.vizPts != game.homePts
    ensures {Winner(game), Loser(game)} == {game.visitor, game.home} && Winner(game) != Loser(game)
    ensures Winner(game) == game.visitor <==> game.vizPts > game.homePts
    ensures Played(PlayGame(s, game), Winner(game)) == Played(s, Winner(game)) + 1
    ensures WinsSoFar(PlayGame(s, game), Winner(game)) == WinsSoFar(s, Winner(game)) + 1
    ensures Played(PlayGame(s, game), Loser(game)) == Played(s, Loser(game)) + 1
    ensures WinsSoFar(PlayGame(s, game), Loser(game)) == WinsSoFar(s, Loser(game))
    ensures forall t :: t != Winner(game) && t != Loser(game) ==>
              Played(PlayGame(s, game), t) == Played(s, t) && WinsSoFar(PlayGame(s, game), t) == WinsSoFar(s, t)
  {
    PlayGameCounts(s, game);
  }

  /**
   * Equal scores (which the league does not allow): lines 59-60 make the
   * home team both winner and loser, so it is visited twice and credited
   * two games and two wins, while the visitor is not counted at all.
   */
  lemma TieQuirk(s: State, game: Game)
    requires CountsPositive(s)
    requires game.visitor != game.home && game.vizPts == game.homePts
    ensures Winner(game) == game.home && Loser(game) == game.home
    ensures Played(PlayGame(s, game), game.home) == Played(s, game.home) + 2
    ensures WinsSoFar(PlayGame(s, game), game.home) == WinsSoFar(s, game.home) + 2
    ensures Played(PlayGame(s, game), game.visitor) == Played(s, game.visitor)
  {
    PlayGameCounts(s, game);
  }

  /** Games `t` has been counted in over a season. */
  function GamesOf(games: seq<Game>, t: Team): nat
    decreases |games|
  {
    if games == [] then 0 else GamesOf(games[..|games| - 1], t) + Appearances(games[|games| - 1], t)
  }

  /** Wins `t` has been credited over a season. */
  function WinsOf(games: seq<Game>, t: Team): nat
    decreases |games|
  {
    if games == [] then 0 else WinsOf(games[..|games| - 1], t) + WinCredits(games[|games| - 1], t)
  }

  /**
   * After a season, each team's game number is the number of games it was
   * counted in and its latest entry holds the wins it was credited.
   */
  lemma {:induction false} ReplayCounts(games: seq<Game>, t: Team)
    ensures Played(Replay(games), t) == GamesOf(games, t)
    ensures WinsSoFar(Replay(games), t) == WinsOf(games, t)
    decreases |games|
  {
    if games != [] {
      var prefix := games[..|games| - 1];
      ReplayCounts(prefix, t);
      ReplayInv(prefix);
      PlayGameCounts(Replay(prefix), games[|games| - 1]);
    }
  }

  /** Game number 1 is in the ledger exactly when at least one game was played. */
  lemma {:induction false} ReplayFirstGame(games: seq<Game>)
    ensures 1 in Replay(games).ledger <==> games != []
  {
    if games != [] {
      var prefix := games[..|games| - 1];
      var game := games[|games| - 1];
      var r := Replay(games);
      ReplayInv(prefix);
      ReplayInv(games);
      PlayGameCounts(Replay(prefix), game);
      var w := Winner(game);
      assert Played(r, w) >= 1;
      assert w in r.gamesPlayed;
      assert HasEntry(r, 1, w);
    }
  }
}
