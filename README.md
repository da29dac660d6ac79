# Weighted-wins NFL rankings, modelled in Dafny

The ranking script `scripts/calculate_rankings.py` reads a season schedule and
ranks every team by a weighted score. When a team wins, it scores the number of
games the beaten opponent has won. When it loses, it scores minus the number of
games the winning opponent has lost. Ties count in the record but add nothing
to either weighted score. The total is the sum of the two weighted scores.
Rows are ordered by total, highest first. Equal totals keep alphabetical order
because the script sorts stably over the teams in name order. The weekly
snapshot holds the week, the season and the ranked rows. It is produced only
once the latest completed week is 2 or later.

This project models that pipeline, from the schedule to the snapshot, in six
modules:

- `Schedule` (`schedule.dfy`): the game rows and the boolean-mask filters the
  script applies. This covers completed games, the current week and the
  schema check.
- `Records` (`records.dfy`): a team's win/loss/tie record, with the optional
  week limit, and the win percentage.
- `Weights` (`weights.dfy`): weighted wins, weighted losses and the total.
  The two accumulating loops are methods proved equal to recursive
  specification functions, and the properties are proved about those
  functions.
- `TeamOrder` (`teamorder.dfy`): Python's `<` on strings, and `sorted` over
  the set of teams.
- `Rankings` (`rankings.dfy`): the ranking rows and the loop that builds them.
  Also the stable sort by descending total, the characterisation
  `IsRankingOf` with its uniqueness, the formatting functions and the gate
  of `main`.
- `Scenarios` (`scenarios.dfy`): the six fixture schedules of
  `tests/test_calculate_rankings.py` (week 2, week 4, with ties, incomplete,
  no wins, no losses) and what the model computes for them: records,
  percentages, weighted scores, totals, current weeks and rankings. The
  incomplete fixture is handled as written. For the other five the values
  are proved for every schedule of the same shape, and the fixture is shown
  to have that shape. The test expectations on these values that the code
  meets are proved. The two it does not meet are listed under "## Findings".
  The tests of formatting, JSON output, field types and files are not
  restated. The fractional weighted score of `test_format_team_ranking`
  cannot be written in the model; see "## Left out".

Modelling choices:

- A schedule is a `seq<Game>`.
- A score is `Option<int>`, where `None` means not yet played. `result` is
  an `int`, and its sign decides the outcome. That it equals the home score
  minus the away score is a convention of the data: `Game` does not enforce
  it, and only the fixtures built by `Scenarios.Played` follow it.
- The table's columns are a `set<string>`.
- Weighted scores are integers. They are sums of counts, so the script's
  floats never hold a fraction.
- The win percentage is an exact `real`.
- `through_week` is an `Option<int>`. The code tests it for truthiness,
  so `None` and `Some(0)` both mean "no limit".

## Model

| member | source | states |
|---|---|---|
| Schedule.Counts | scripts/calculate_rankings.py:152-167 | a win, loss or tie of a team is a game the team plays in: as home side with a positive (negative) result, as away side with a negative (positive) one, and a result of 0 for a tie |
| Schedule.Filter | scripts/calculate_rankings.py:82 | the masked rows are exactly the input rows the mask keeps, and there are no more of them than input rows |
| Schedule.FilterAppend | scripts/calculate_rankings.py:82 | masking preserves row order: the mask of a concatenation is the concatenation of the masks |
| Schedule.FilterMultiset | scripts/calculate_rankings.py:82 | every kept row occurs as often as in the input, and every dropped row not at all |
| Schedule.FilterPermutation | scripts/calculate_rankings.py:82 | masking a reordered schedule keeps a reordering of the same rows |
| Schedule.FilterKeepsAll | scripts/calculate_rankings.py:82 | a mask that every row passes returns the input unchanged |
| Schedule.FilterCommute | scripts/calculate_rankings.py:146-149 | two masks applied one after the other give the same rows in either order |
| Schedule.GetGameResults | scripts/calculate_rankings.py:69-85 | the result is exactly the rows whose home score is present |
| Schedule.GameResultsIdempotent | scripts/calculate_rankings.py:69-85 | filtering completed games a second time changes nothing |
| Schedule.MaxWeek | scripts/calculate_rankings.py:104 | the result is at least every game's week and is the week of some game |
| Schedule.GetCurrentWeek | scripts/calculate_rankings.py:88-106 | 0 when no game is completed; otherwise the largest week of a completed game, since it bounds every completed game and is the week of one |
| Schedule.MissingFields | scripts/calculate_rankings.py:124 | the result is exactly the required fields not among the columns |
| Schedule.ValidateData | scripts/calculate_rankings.py:109-131 | true if and only if each of the six required columns week, home_team, away_team, home_score, away_score and result is present |
| Records.Limited | scripts/calculate_rankings.py:148 | `if through_week:` is false exactly for no value and for 0; every other value, negative ones included, is a limit |
| Records.CountedGames | scripts/calculate_rankings.py:146-149 | the counted games are exactly the completed ones, and only those up to the week limit when `through_week` is truthy |
| Records.Tally | scripts/calculate_rankings.py:152-167 | a count is at most the number of games, and 0 exactly when no game is of that kind for the team |
| Records.GetTeamRecord | scripts/calculate_rankings.py:134-169 | each component is 0 exactly when no counted game is of that kind for the team; a team without completed games is 0-0-0 |
| Records.RecordOfAppendedGame | scripts/calculate_rankings.py:146-167 | one more schedule row adds 1 to exactly the components it counts for (completed, inside the week limit, of that kind), and nothing else |
| Records.OutcomesPartitionGames | scripts/calculate_rankings.py:152-167 | wins, losses and ties partition the games involving the team, when no game has a team play itself |
| Records.RecordTotalsGamesPlayed | scripts/calculate_rankings.py:146-169 | wins + losses + ties equals the number of counted games the team played, under the same hypothesis |
| Records.RecordPermutation | scripts/calculate_rankings.py:146-169 | the record does not depend on the order of the schedule's rows |
| Records.RecordThroughWeek | scripts/calculate_rankings.py:148-149 | a week limit never raises a count; limit 0 (falsy) or a limit at or past the current week gives the full record |
| Records.CalculateWinPercentage | scripts/calculate_rankings.py:172-188 | 0.0 with no games; otherwise pct × games = wins + ties/2; always between 0.0 and 1.0 |
| Records.WinPercentageExtremes | scripts/calculate_rankings.py:184-188 | 1.0 exactly when the team has won and neither lost nor tied; 0.0 exactly when it has neither won nor tied |
| Weights.Opponent | scripts/calculate_rankings.py:215 | the opponent is a side of the game, and for a team that plays in it the opponent is the team itself only when a team plays itself |
| Weights.OpponentSum | scripts/calculate_rankings.py:211-221 | the accumulation over the team's games of a kind: each game of that kind adds the opponent's full-season count of the kind, other games add nothing (its properties are the OpponentSum lemmas below) |
| Weights.WeightedWins | scripts/calculate_rankings.py:191-224 | weighted wins are never negative |
| Weights.WeightedLosses | scripts/calculate_rankings.py:227-260 | weighted losses are never positive |
| Weights.OpponentSumAppend | scripts/calculate_rankings.py:213-221 | accumulating over two row lists in turn adds their sums |
| Weights.OpponentSumStep | scripts/calculate_rankings.py:221 | one more game of the kind adds the opponent's count of that kind |
| Weights.OpponentSumOfSelected | scripts/calculate_rankings.py:206-209 | summing over only the masked wins (or losses) equals summing over all completed games while skipping the others |
| Weights.OpponentSumZero | scripts/calculate_rankings.py:213-221 | the sum is 0 exactly when every opponent counted contributes 0 |
| Weights.OpponentSumBound | scripts/calculate_rankings.py:213-221 | the sum is at most the number of games of that kind times the number of completed games |
| Weights.OpponentSumMonotone | scripts/calculate_rankings.py:218 | opponents' counts that grow make the sum grow, strictly when a counted opponent's count grows strictly |
| Weights.OpponentSumPermutation | scripts/calculate_rankings.py:213-221 | the sum does not depend on the order of the games |
| Weights.CalculateWeightedWins | scripts/calculate_rankings.py:203-224 | the loop over the team's wins returns WeightedWins, the sum of the beaten opponents' full-season win counts |
| Weights.CalculateWeightedLosses | scripts/calculate_rankings.py:239-260 | the loop over the team's losses returns WeightedLosses, minus the sum of the winning opponents' full-season loss counts |
| Weights.CalculateTotalScore | scripts/calculate_rankings.py:263-274 | with no weighted losses the total is the weighted wins, and with no weighted wins it is the weighted losses; losses at most 0 never raise the total above the wins, and wins at least 0 never lower it below the losses |
| Weights.WeightedWinsBound | scripts/calculate_rankings.py:205-224 | 0 ≤ weighted wins ≤ wins × completed games; no wins gives 0 |
| Weights.WeightedLossesBound | scripts/calculate_rankings.py:241-260 | −(losses × completed games) ≤ weighted losses ≤ 0; no losses gives 0 |
| Weights.WeightedWinsPositive | scripts/calculate_rankings.py:205-224 | weighted wins are positive if and only if the team beat an opponent that has a win |
| Weights.WeightedLossesNegative | scripts/calculate_rankings.py:241-260 | weighted losses are negative if and only if the team lost to an opponent that has a loss |
| Weights.WeightedScoresPermutation | scripts/calculate_rankings.py:203-260 | both weighted scores are independent of the order of the schedule's rows |
| Weights.CountsGrowWithSchedule | scripts/calculate_rankings.py:218 | a further row never lowers any team's count of any kind |
| Weights.RescoredAgainstCurrentRecords | scripts/calculate_rankings.py:218 | opponents are weighted by their current records: a later game never lowers weighted wins or raises weighted losses, and moves them strictly when a past opponent's count of that kind grows |
| Weights.TieChangesNoWeights | scripts/calculate_rankings.py:206-209 | a tied row leaves both weighted scores of every team unchanged |
| TeamOrder.LexLess | scripts/calculate_rankings.py:293 | Python's `<` on `str`: the first differing character decides, and a proper prefix sorts before any extension of it |
| TeamOrder.LexLessIrreflexive | scripts/calculate_rankings.py:293 | no team name sorts before itself |
| TeamOrder.LexLessAsymmetric | scripts/calculate_rankings.py:293 | two names never sort before each other |
| TeamOrder.LexLessTransitive | scripts/calculate_rankings.py:293 | the name order is transitive |
| TeamOrder.LexLessTotal | scripts/calculate_rankings.py:293 | of two different names one sorts first |
| TeamOrder.FirstTeam | scripts/calculate_rankings.py:293 | every non-empty set of teams has a first team in name order |
| TeamOrder.SortTeams | scripts/calculate_rankings.py:293 | `sorted(teams)`: strictly ascending, exactly the set's teams, each once |
| Rankings.TeamsOf | scripts/calculate_rankings.py:288-289 | a team is ranked if and only if it is the home or away side of some completed game |
| Rankings.RankingRow | scripts/calculate_rankings.py:296-311 | the row for a team carries that team, a win percentage in [0, 1], weighted wins at least 0 and weighted losses at most 0 |
| Rankings.RankingRowFacts | scripts/calculate_rankings.py:296-311 | every row holds its team, a percentage in [0, 1], weighted wins ≥ 0, weighted losses ≤ 0 and total = their sum; no wins gives no weighted wins and no losses no weighted losses |
| Rankings.WithTotal | scripts/calculate_rankings.py:314 | the subsequence of rows with a given total holds exactly the rows with that total |
| Rankings.WithTotalAppend | scripts/calculate_rankings.py:314 | selecting rows by total distributes over concatenation |
| Rankings.InsertByTotal | scripts/calculate_rankings.py:314 | inserting one row adds exactly that row (as a multiset) |
| Rankings.InsertByTotalOrdered | scripts/calculate_rankings.py:314 | inserting into rows ordered by descending total keeps them ordered |
| Rankings.InsertByTotalStable | scripts/calculate_rankings.py:314 | the inserted row lands after every row of the same total and leaves their order alone |
| Rankings.SortByTotal | scripts/calculate_rankings.py:314 | `sort(key=total, reverse=True)`: non-increasing totals, a permutation of the input, and for every total the rows with that total in their input order (stability) |
| Rankings.WithTotalPositions | scripts/calculate_rankings.py:314 | two rows of equal total keep their relative order in the subsequence of that total |
| Rankings.WithTotalAscending | scripts/calculate_rankings.py:293 | a subsequence of name-ordered rows is name-ordered |
| Rankings.StableSortBreaksTiesByTeam | scripts/calculate_rankings.py:293-314 | stably sorting name-ordered rows by descending total orders rows of equal total by team name |
| Rankings.IsRankingOf | scripts/calculate_rankings.py:277-316 | the result of the script: one row for each team of a completed game and no other, each row that team's record, percentage and weighted scores, totals non-increasing, equal totals in team-name order (uniqueness is RankingIsUnique) |
| Rankings.CalculateAllRankings | scripts/calculate_rankings.py:277-316 | the result is a ranking of the schedule: each row holds its team's record, win percentage, weighted scores and total; every team of the schedule has a row; totals are non-increasing and equal totals are in team-name order |
| Rankings.RowsToRanking | scripts/calculate_rankings.py:289-314 | name-ordered rows, one per team, sorted stably by total, form a ranking of the schedule |
| Rankings.TeamSet | scripts/calculate_rankings.py:289 | the set holds exactly the rows' teams |
| Rankings.TeamSetSize | scripts/calculate_rankings.py:289 | rows with distinct teams have as many teams as rows |
| Rankings.RankingHasOneRowPerTeam | scripts/calculate_rankings.py:289-311 | a ranking has exactly one row per team of the schedule |
| Rankings.RanksAboveAsymmetric | scripts/calculate_rankings.py:293-314 | the final order (total descending, then name) is irreflexive and asymmetric |
| Rankings.RanksAboveOrderUnique | scripts/calculate_rankings.py:293-314 | two lists with the same rows, both strictly in that order, are equal |
| Rankings.RankingIsUnique | scripts/calculate_rankings.py:277-316 | a schedule has exactly one ranking, so the output is fully determined |
| Rankings.RankingIgnoresGameOrder | scripts/calculate_rankings.py:277-316 | reordering the schedule's rows does not change its ranking |
| Rankings.FormatTeamRanking | scripts/calculate_rankings.py:319-338 | formatting a row returns the same eight fields unchanged |
| Rankings.FormatWeekData | scripts/calculate_rankings.py:341-359 | the snapshot carries the week, season 2025 and the rankings in the same order with the same fields |
| Rankings.RunRankings | scripts/calculate_rankings.py:425-452 | stops exactly when nothing was fetched, when a required column is missing, or when the current week is below 2; otherwise the snapshot is for the current week (≥ 2), season 2025, with a ranking of the fetched schedule |
| Scenarios.IncompleteGamesFiltered | tests/test_calculate_rankings.py:170-212 | unplayed games are dropped in order: two games remain and the current week is 1; an empty schedule gives no games and week 0; a schedule of unplayed games gives week 0 |
| Scenarios.WeekTwoCurrentWeek | tests/test_calculate_rankings.py:188-191 | the week-2 fixture's current week is 2 |
| Scenarios.ValidateDataAccepts | tests/test_calculate_rankings.py:215-217 | a table with the six required columns passes the schema check |
| Scenarios.ValidateDataRejects | tests/test_calculate_rankings.py:220-228 | a table with only week and home_team fails the schema check |
| Scenarios.RecordOfFour | scripts/calculate_rankings.py:152-167 | over four completed games a count is the sum of each game's contribution |
| Scenarios.KCRecordOfShape | tests/test_calculate_rankings.py:237-239 | KC is 2-0-0 in every schedule shaped like the week-2 fixture |
| Scenarios.BUFRecordOfShape | tests/test_calculate_rankings.py:241-243 | BUF is 1-1-0 there |
| Scenarios.BALRecordOfShape | tests/test_calculate_rankings.py:36-58 | BAL is 1-1-0 there |
| Scenarios.NYJRecordOfShape | tests/test_calculate_rankings.py:245-247 | NYJ is 0-2-0 there |
| Scenarios.WeekTwoRecords | tests/test_calculate_rankings.py:235-247 | the records of the week-2 fixture |
| Scenarios.FirstWeekOfShape | scripts/calculate_rankings.py:148-149 | through week 1 only the first two games count |
| Scenarios.ThroughWeekOneOfShape | tests/test_calculate_rankings.py:250-258 | through week 1 KC and BUF are 1-0-0 and BAL has no win |
| Scenarios.WeekTwoThroughWeekOne | tests/test_calculate_rankings.py:250-258 | the same for the week-2 fixture |
| Scenarios.TiesRecordsOfShape | tests/test_calculate_rankings.py:261-269 | with the week-1 game tied, KC and BAL are both 1-0-1 |
| Scenarios.WithTiesRecords | tests/test_calculate_rankings.py:261-269 | the same for the tie fixture |
| Scenarios.WinPercentageExamples | tests/test_calculate_rankings.py:288-306 | the percentages of the test cases: 1.0 for 2-0-0, 0.5 for 1-1-0, 0.0 for 0-2-0, 0.75 for 1-0-1, 0.25 for 0-1-1 and 0.0 with no games |
| Scenarios.WithTiesRankings | tests/test_calculate_rankings.py:651-663 | a ranking of the tie shape has a KC row, and every KC row has one tie and a percentage of 0.75 |
| Scenarios.TotalScoreExamples | tests/test_calculate_rankings.py:402-416 | the totals of the test cases: 5 for (10, −5), 0 for (0, 0), −1 for (2, −3), 15 for an undefeated (15, 0) and −10 for a winless (0, −10) |
| Scenarios.OpponentSumOfFour | scripts/calculate_rankings.py:213-221 | over four completed games a weighted score is the sum of each game's weight |
| Scenarios.KCWeightsOfShape | tests/test_calculate_rankings.py:313-323 | KC's weighted wins are 2 (BAL's and BUF's one win each) and its weighted losses 0 |
| Scenarios.BUFWeightsOfShape | tests/test_calculate_rankings.py:326-335 | BUF's weighted wins are 0 (NYJ never won) and its weighted losses 0 (KC never lost) |
| Scenarios.BALWeightsOfShape | tests/test_calculate_rankings.py:36-58 | BAL's weighted scores are both 0 |
| Scenarios.NYJLossWeightsOfShape | tests/test_calculate_rankings.py:359-369 | NYJ's losses are weighted by BUF's and BAL's one loss each |
| Scenarios.NYJWeightsOfShape | tests/test_calculate_rankings.py:359-369 | NYJ's weighted wins are 0 and its weighted losses −2 |
| Scenarios.WeekTwoWeightedKC | tests/test_calculate_rankings.py:313-323 | KC's weighted scores in the week-2 fixture |
| Scenarios.WeekTwoWeightedBUF | tests/test_calculate_rankings.py:326-335 | BUF's weighted scores in the week-2 fixture, weighted losses included (lines 372-381) |
| Scenarios.WeekTwoWeightedBAL | tests/test_calculate_rankings.py:36-58 | BAL's weighted scores in the week-2 fixture |
| Scenarios.WeekTwoWeightedNYJ | tests/test_calculate_rankings.py:359-369 | NYJ's weighted scores in the week-2 fixture |
| Scenarios.WeekTwoUsesFinalRecords | scripts/calculate_rankings.py:218 | a week-1 win over BAL is weighted by BAL's full-season win, not by its record at the time (none) |
| Scenarios.TeamsOfFour | scripts/calculate_rankings.py:288-289 | the teams of four completed games are their eight sides |
| Scenarios.WeekTwoTeams | tests/test_calculate_rankings.py:428-432 | the week-2 fixture has the four teams KC, BAL, BUF and NYJ |
| Scenarios.WeekTwoRowsOrdered | tests/test_calculate_rankings.py:439-441 | the expected rows are ordered by total, with BAL before BUF on their tie |
| Scenarios.RowsFromScores | scripts/calculate_rankings.py:289-314 | a schedule with the fixture's teams and rows has the expected rows as a ranking |
| Scenarios.KCRowOfShape | tests/test_calculate_rankings.py:560-566 | KC's row is 2-0-0, 1.0, weighted wins 2, weighted losses 0, total 2 |
| Scenarios.BALRowOfShape | tests/test_calculate_rankings.py:423-441 | BAL's row is 1-1-0, 0.5, 0, 0, total 0 |
| Scenarios.BUFRowOfShape | tests/test_calculate_rankings.py:423-441 | BUF's row is 1-1-0, 0.5, 0, 0, total 0 |
| Scenarios.NYJRowOfShape | tests/test_calculate_rankings.py:423-441 | NYJ's row is 0-2-0, 0.0, 0, −2, total −2 |
| Scenarios.RankingsOfShape | tests/test_calculate_rankings.py:423-441 | every schedule shaped like the week-2 fixture has exactly one ranking: KC, BAL, BUF, NYJ |
| Scenarios.WeekTwoRankings | tests/test_calculate_rankings.py:538-566 | the week-2 fixture's ranking is KC, BAL, BUF, NYJ; KC leads with 2-0 and weighted wins 2 |
| Scenarios.WeekFourCurrentWeek | tests/test_calculate_rankings.py:194-197 | the current week of every schedule shaped like the week-4 fixture is 4 |
| Scenarios.UnbeatenSidesWeighNothing | scripts/calculate_rankings.py:205-260 | when every home side is one of a set of teams, every visitor is outside it and no visitor wins, every team's weighted wins and weighted losses are 0 |
| Scenarios.RowOfTeam | scripts/calculate_rankings.py:288-311 | a side of a completed game has a row in every ranking, and each of its rows is its RankingRow |
| Scenarios.WeekFourWeightedWins | tests/test_calculate_rankings.py:344-352 | in the week-4 shape PHI and KC have wins but weighted wins of 0 |
| Scenarios.WeekFourRankings | tests/test_calculate_rankings.py:569-595 | a ranking of the week-4 shape is not empty, and every row has a percentage in [0, 1], total = weighted wins + weighted losses, and total 0; NE's weighted losses are 0 (lines 390-395) |
| Scenarios.NoWinsRecord | tests/test_calculate_rankings.py:272-275 | in the no-wins shape NYJ is 0-2-0 |
| Scenarios.NoWinsWeights | tests/test_calculate_rankings.py:338-341 | NYJ's weighted wins are 0, and so are its weighted losses, since KC and BAL never lost |
| Scenarios.NoWinsRankings | tests/test_calculate_rankings.py:617-631 | the no-wins shape ranks NYJ, with no wins, weighted wins 0, weighted losses 0 and total 0 |
| Scenarios.NoLossesRecord | tests/test_calculate_rankings.py:278-281 | in the no-losses shape KC is 2-0-0 |
| Scenarios.NoLossesWeights | tests/test_calculate_rankings.py:384-387 | KC's weighted losses are 0, and so are its weighted wins, since NYJ and BAL never won |
| Scenarios.NoLossesRankings | tests/test_calculate_rankings.py:634-648 | the no-losses shape ranks KC, with no losses, weighted losses 0, weighted wins 0 and total 0, so both "at least 0" expectations hold |

## Left out

- `fetch_nfl_data` (network access through `nfl_data_py`, retries, sleeping): the fetched table is an input, `Option<Table>` in `RunRankings`. `None` stands for every case in which the fetch returns None: it failed on every attempt, the library returned nothing, or it returned an empty table (scripts/calculate_rankings.py:49-51, 63-64). So the script never passes an empty table on, and `RunRankings`'s outcome for `Some(Table(_, []))` (too early, week 0) is never reached from `main`.
- `save_json_snapshot` (file system, backups, JSON writing and re-reading): `RunRankings` stops once the snapshot is formatted.
- The `timestamp` field of `format_week_data`: it reads the wall clock, so `WeekData` carries only week, season and rankings.
- Logging and the console table of the top ten teams in `main`: they are output only and change no value.
- Rounding: `round(win_pct, 3)` and `round(..., 2)` on the weighted scores and total are not modelled. The percentage is an exact `real`. The weighted scores and total are integers, which rounding to 2 places leaves unchanged.
- Floating point: the script sums counts into floats, which is exact at these magnitudes, so integers are used.
- pandas mechanics (DataFrame copies, `iterrows`, `unique`, dtypes): a table is a `seq<Game>` and its columns a `set<string>`. A row with a missing score but a non-null `result` is not distinguished, because every count first drops rows without a home score.
- Exceptions raised inside `main` (re-raised by its `except`): not modelled.
- Rankings.SortByTotal: the script sorts the list in place with Timsort; the model sorts a local sequence by stable insertion. Both are specified by the same properties: the output order is non-increasing, it is a permutation of the input, and rows of equal total keep their input order.
- Records.RecordTotalsGamesPlayed and Records.OutcomesPartitionGames: both assume no game has a team play itself. Python would count such a decided game as both a win and a loss.
- The ranked teams are the teams of completed games, as in the code. They are not a fixed list of 32 teams.
- Rejecting negative scores or unknown team codes is not in the code, so it is not modelled.
- `test_format_team_ranking` (tests/test_calculate_rankings.py:476-495) formats a row whose weighted wins are 2.5. The weighted fields of `TeamRanking` are integers, because the script's weighted scores are sums of counts, so that row cannot be written. `Rankings.FormatTeamRanking` still states that the eight fields pass through unchanged.
- Breaking ties by win percentage is not in the code, so it is not modelled. The only tie-break is the name order that the stable sort preserves.

## Findings

Two expectations of `tests/test_calculate_rankings.py` contradict the weighting rule of the script. The script does what its docstrings say (scripts/calculate_rankings.py:193-194, 229-230): a win is weighted by the beaten opponent's final number of wins, and a loss by the winning opponent's final number of losses. The model follows the script. The corrected members state when the expected sign does hold.

| source | as written | input that shows it | evidently intended | confidence | as-written member | corrected member |
|---|---|---|---|---|---|---|
| tests/test_calculate_rankings.py:344-352 | expects PHI's and KC's weighted wins in the week-4 fixture to be above 0 because both have won | the week-4 fixture: every visitor loses or ties, so PHI and KC beat only teams without a win, and both weighted wins are 0 | weighted wins are above 0 exactly when the team beat an opponent that has a win | not executed | Scenarios.WeekFourWeightedWins | Weights.WeightedWinsPositive |
| tests/test_calculate_rankings.py:617-631 | expects NYJ's weighted losses and total in the no-wins fixture to be below 0 because it lost both games | the no-wins fixture: NYJ loses to KC and BAL, who never lose, so NYJ's weighted losses and total are 0 | weighted losses are below 0 exactly when the team lost to an opponent that has a loss | not executed | Scenarios.NoWinsRankings | Weights.WeightedLossesNegative |
