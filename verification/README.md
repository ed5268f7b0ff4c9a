# nba-tank: running records, season truncation and tankiness

A Dafny model of the core of `data/collect-data.py` from the nba-tank
project. The script walks every NBA regular season from 1968 to 2020 game by
game. For each team it keeps a running record in a per-season ledger keyed by
game number: cumulative wins, the distance from an even (.500) record, and a
label (winning, losing or .500). Each game number's row also carries the sum
of the distances in it.

When a season ends, the script takes every game number up to the season's
length (82 games, or 63 in 2020). For each one it stores the average distance
over the teams that reached it. At the first game number that no team reached
it stops, and the season becomes "short".

At the game number where that pass stopped (the one before the first game
number no team reached, or the season's length) it then counts the teams with a losing
record and averages how far below .500 they are. This is the season's
"tankiness". A league table reports that value. For a short season the table
also projects the value to a full season.

Layout:

- `records.dfy`: module `Records`, plus the `Wrappers` module for `Option`/`Result`.
  - `Entry` is one team's record at one game number.
  - `Classify` turns wins and losses into an entry.
  - `TotalDist` and `MeanDist` sum and average the distances in a row.
- `tracker.dfy`: module `Tracker`, the tracker as values.
  - `State` holds the games played, the ledger and the totals.
  - `Step` is one pass of the per-team loop body.
  - `PlayGame` is one game; `Replay` is a whole sequence of games.
  - `Inv` is the invariant every reachable state satisfies, with lemmas about what a game does.
- `season.dfy`: module `Seasons`.
  - Class `Season` holds the same fields, updated in place by `ProcessGame` (through `RecordResult`).
  - `Finalize` is the end-of-season pass; it fills `averages`.
  - Lemmas about the ledger's shape.
- `aggregator.dfy`: module `Aggregator`, the tankiness summary with its two error outcomes.
- `pipeline.dfy`: module `Pipeline`, one season end to end and the league table with its projection.

Decisions about the behaviour of the code:

- The distance from .500 is the integer `wins - losses` taken absolutely, with `losses = gameNo - wins`. That is `|wins - losses|`, twice `|wins - gameNo/2|`.
- A game has one winner and one loser; a tie never counts as half a win. A tied score makes the home team both winner and loser (`Tracker.TieQuirk`).
- Where the code would stop with an error, the model returns one. With no losing teams the code divides by zero (line 182); the model returns `NoLosingTeams`. With no row at game number 1 the code's lookup at line 170 fails; the model returns `MissingSnapshot`.
- No game record is validated.
- A season is cut only at a game number no team reached. A game number that only some teams reached is averaged over the teams present, and the tankiness may be taken at such a game number.

## Model

| member | source | states |
|---|---|---|
| Records.Classify | data/collect-data.py:80-93 | the stored wins are the given wins; the distance is the non-negative difference between wins and losses; the label is winning exactly when wins exceed losses, losing exactly when losses exceed wins, and .500 exactly when the distance is 0 |
| Records.WellFormedBounds | data/collect-data.py:71-93 | an entry built at game number g has 0..g wins, is at most g games from .500, and if losing is at least one game below |
| Records.TotalDistRemove | data/collect-data.py:97-98 | a row's total distance is any one team's distance plus the total of the rest, whichever order the teams were added in |
| Records.TotalDistInsert | data/collect-data.py:97-98 | adding a team's entry to a row adds exactly its distance to the row's total |
| Records.TotalDistBounds | data/collect-data.py:157-158 | if every distance in a row lies in lo..hi, the total lies between the number of teams times lo and times hi |
| Records.MeanDistBounds | data/collect-data.py:157-158 | if every distance in a non-empty row lies in lo..hi, the row's mean distance (its total over its number of teams) lies in lo..hi too |
| Tracker.InvReadable | data/collect-data.py:64-72 | in every reachable state, the previous entry a team's next game reads exists; its game number is games played plus one; its wins so far lie in 0..games played |
| Tracker.NoEntryAhead | data/collect-data.py:64-94 | a team never has an entry yet at the game number its next game gets, so storing that entry overwrites nothing |
| Tracker.StepKeepsInv | data/collect-data.py:62-98 | one pass of the per-team loop body preserves the invariant, namely: positive game counts; each team has entries exactly at 1..games played; rows are non-empty; each total is its row's summed distance; every entry is well formed; wins rise by 0 or 1 per game number |
| Tracker.StepEffect | data/collect-data.py:64-76 | the team's game count goes up by exactly 1 and every other team's count is unchanged; its wins go up by 1 if it won and stay the same otherwise; no other team's wins change |
| Tracker.StepExtends | data/collect-data.py:89-94 | every ledger entry present before the step is still present afterwards and unchanged |
| Tracker.StepTeamsKeepsInv | data/collect-data.py:62-98 | running the per-team loop body over any list of teams preserves the invariant |
| Tracker.PlayGameKeepsInv | data/collect-data.py:51-100 | processing one game preserves the invariant |
| Tracker.PlayGameCounts | data/collect-data.py:59-76 | every team's game count rises by its number of appearances in the game; its wins rise by the number of times it is credited as the winner |
| Tracker.PlayGameExtends | data/collect-data.py:51-100 | processing a game never overwrites or removes an existing entry |
| Tracker.DecidedGame | data/collect-data.py:59-76 | for two distinct teams and a decided score: the winner is the visitor exactly when the visitor scored more; winner and loser each play one more game; the winner gains one win and the loser none; every other team is unchanged |
| Tracker.TieQuirk | data/collect-data.py:59-62 | on a tied score the home team counts as both winner and loser, so it plays two games and gains two wins; the visitor plays none |
| Tracker.ReplayInv | data/collect-data.py:103-146 | every state reached by feeding games in order from an empty season satisfies the invariant |
| Tracker.ReplayCounts | data/collect-data.py:103-146 | after a sequence of games, each team's game count is its number of appearances, and its wins are the number of times it was credited as the winner |
| Tracker.ReplayFirstGame | data/collect-data.py:64-69 | game number 1 has a row exactly when at least one game was played |
| Seasons.LastGameNo | data/collect-data.py:151-165 | the game number the end-of-season pass stops at is at most the cap, every game number from 1 up to it has a row, and below the cap the next one has none |
| Seasons.LastGameNoUnique | data/collect-data.py:151-165 | those three facts determine the stopping game number uniquely |
| Seasons.LedgerDownClosed | data/collect-data.py:155-163 | the game numbers present in the ledger are downward closed, so the first gap ends the season |
| Seasons.NoGameAfterGap | data/collect-data.py:160-163 | once a game number is missing from the ledger, every later one is missing too |
| Seasons.LedgerKeysPositive | data/collect-data.py:64-69 | game numbers start at 1 |
| Seasons.SnapshotWellFormed | data/collect-data.py:167-174 | every entry in a row is well formed at that row's game number |
| Seasons.TeamsShrink | data/collect-data.py:155-158 | the teams present at a game number are among those present at the game number before, so the number of teams averaged over never grows |
| Seasons.MeanWithinGameNumber | data/collect-data.py:155-158 | a game number's average distance from .500 lies between 0 and the game number |
| Seasons.Season.constructor | data/collect-data.py:103-106 | a new season has an empty ledger and satisfies the invariant |
| Seasons.Season.RecordResult | data/collect-data.py:62-98 | the in-place update for one team, given that the previous entry it reads exists, leaves exactly the state one step of the value model gives; the averages are untouched |
| Seasons.Season.ProcessGame | data/collect-data.py:51-100 | the in-place update of one game keeps the invariant and leaves exactly the state that processing the game in the value model gives |
| Seasons.Season.Finalize | data/collect-data.py:149-165 | requires non-empty rows whose totals are their summed distances. Then: 0 <= lastGameNo <= cap, where cap is 63 in 2020 and 82 otherwise; every game number 1..lastGameNo is present; when lastGameNo < cap, game number lastGameNo + 1 is absent; the season is short exactly when the year is 2020 or lastGameNo < cap; the average stored at each game number up to lastGameNo is that row's mean distance; no other average changes |
| Aggregator.LosingTeams | data/collect-data.py:174 | the kept teams are exactly the ones labelled losing, with their entries unchanged, and there are no more of them than teams in the row |
| Aggregator.SeasonTankiness | data/collect-data.py:167-184 | it fails with a missing snapshot exactly when lastGameNo has no row; it fails with no losing teams exactly when the row has none; otherwise the count is the number of losing teams and the average is their summed distance over that count |
| Aggregator.LosingMeanBounds | data/collect-data.py:174-181 | with well-formed entries, the losing teams' average distance lies between 1 and the game number |
| Pipeline.PlaySeason | data/collect-data.py:103-146 | a new tracker fed the season's games in order ends in exactly the replayed state, which satisfies the invariant |
| Pipeline.EndSeason | data/collect-data.py:149-184 | the ledger is left as it was; the summary is missing exactly when game number 1 has no row; otherwise, with n the game number before the first one no team reached (capped by the season's length), it fails with no losing teams exactly when row n has none, and a summary has last game number n, is short exactly when the year is 2020 or n is below the cap, and carries row n's losing-team count and average, which lies between 1 and n; the averages at 1..n are those rows' mean distances, and no other average changes |
| Pipeline.RunSeason | data/collect-data.py:103-184 | the season's final state is the replay of its games; the summary is missing exactly when there were no games; otherwise, with n the replayed ledger's stopping game number, it fails with no losing teams exactly when row n has none, and a summary fits the replayed state as EndSeason states; the averages are stored at exactly 1..n, each the mean distance of that row |
| Pipeline.ToplineRowWith | data/collect-data.py:195-203 | a full season reports its raw value and an empty second column; a short season keeps the raw value in the second column, and its projected value times lastGameNo equals the full length times the raw value |
| Pipeline.AsWrittenShrinks2020 | data/collect-data.py:19 | with the constant as written (16), the 63-game 2020 season's positive value is reported as a smaller projected value |
| Pipeline.ProjectionNeverShrinks | data/collect-data.py:195-203 | projected to 82 games, a short season's non-negative value is never below its raw value |
| Pipeline.Topline | data/collect-data.py:191-209 | one line per season, in order, each as ToplineRowWith gives it with the 82-game length |

## Left out

- Fetching the monthly schedule pages, parsing HTML rows, and the crawl loop over months (lines 43-56, 108-146). `RunSeason` takes the season's regular-season games as a sequence, already in order.
- The crawl details: 404 handling, the playoffs divider, and the year-specific skips for September 2019 and April in 1980 and 2020 (lines 112-116). They decide which games reach the tracker, and that is the input here.
- Logging, the `uniqueTeams` set (line 100), and writing the JSON and CSV files.
- `pctLosingTeams` (line 176), which is computed but never reported.
- Rounding of the tankiness average to three decimals, and the string formatting of the table. All averages here are exact reals.
- Line 72's dictionary lookup raises when a team's previous entry is missing. `Seasons.Season.RecordResult` requires that entry instead. The invariant that `ProcessGame` keeps (`Tracker.InvReadable`) shows the lookup always succeeds.
- `Tracker.WinsSoFar` is total: it reads 0 where the code would fail. Only states satisfying the invariant are reasoned about, and in them the read succeeds.
- Pipeline.ToplineRowWith: the table's values are reals, not the decimal strings the code writes.
- Pipeline.Topline: the membership test on the short-seasons dictionary is modelled by the summary's `short` flag, which `Finalize` sets in exactly the same cases.

## Findings

| source | as written | input that shows it | evidently intended | confidence | as-written member | corrected member |
|---|---|---|---|---|---|---|
| data/collect-data.py:19 | the projection to a full season scales by NUM_GAMES_IN_A_SEASON / lastGameNo, with NUM_GAMES_IN_A_SEASON = 16 | the 2020 season (lastGameNo = 63, losing teams on average x > 0 games below .500) is reported as 16/63 * x, which is less than x | scale to the 82-game season the script covers (lines 16 and 151), so a short season is never projected below its raw value | medium, not executed | Pipeline.AsWrittenShrinks2020 | Pipeline.ProjectionNeverShrinks |
