/**
 * The schedules of tests/test_calculate_rankings.py and what the model
 * computes for them.
 */
module Scenarios {
  import opened Schedule
  import opened Records
  import opened Weights
  import opened TeamOrder
  import opened Rankings

  function Played(week: int, home: Team, away: Team, homeScore: int, awayScore: int): Game {
    Game(week, home, away, Some(homeScore), Some(awayScore), homeScore - awayScore)
  }

  /** Week 1: KC beats BAL, BUF beats NYJ; week 2: KC beats BUF, BAL beats NYJ. */
  const WeekTwo: seq<Game> := [
    Played(1, "KC", "BAL", 27, 20),
    Played(1, "BUF", "NYJ", 24, 17),
    Played(2, "KC", "BUF", 28, 21),
    Played(2, "BAL", "NYJ", 21, 14)]

  /** The first two games of WeekTwo played, the week-2 games still without scores. */
  const Incomplete: seq<Game> := [
    WeekTwo[0],
    WeekTwo[1],
    Game(2, "KC", "BUF", None, None, 0),
    Game(2, "BAL", "NYJ", None, None, 0)]

  /** As WeekTwo, but KC and BAL tie in week 1. */
  const WithTies: seq<Game> := [
    Played(1, "KC", "BAL", 24, 24),
    WeekTwo[1],
    WeekTwo[2],
    WeekTwo[3]]

  /** The rows `mask` keeps of a single game. */
  function Kept(game: Game, mask: Mask): seq<Game> {
    if Keeps(mask, game) then [game] else []
  }

  lemma FilterSingle(game: Game, mask: Mask)
    ensures Filter([game], mask) == Kept(game, mask)
  {
    assert [game][1..] == [];
  }

  /** Filtering a four-game schedule, one game at a time. */
  lemma FilterFour(schedule: seq<Game>, mask: Mask)
    requires |schedule| == 4
    ensures Filter(schedule, mask) ==
      Kept(schedule[0], mask) + Kept(schedule[1], mask) + Kept(schedule[2], mask) + Kept(schedule[3], mask)
  {
    var a, b, c, d := schedule[0], schedule[1], schedule[2], schedule[3];
    assert schedule == [a] + [b] + [c] + [d];
    FilterAppend([a] + [b] + [c], [d], mask);
    FilterAppend([a] + [b], [c], mask);
    FilterAppend([a], [b], mask);
    FilterSingle(a, mask);
    FilterSingle(b, mask);
    FilterSingle(c, mask);
    FilterSingle(d, mask);
  }

  /** Unplayed games are dropped (tests/test_calculate_rankings.py:170-185, 200-212). */
  lemma IncompleteGamesFiltered()
    ensures GetGameResults(Incomplete) == WeekTwo[..2]
    ensures GetCurrentWeek(Incomplete) == 1
    ensures GetGameResults([]) == [] && GetCurrentWeek([]) == 0
    ensures GetCurrentWeek(Incomplete[2..]) == 0
  {
    FilterFour(Incomplete, Completed);
    assert Incomplete[0] in GetGameResults(Incomplete);
  }

  /** The current week of WeekTwo is 2 (tests/test_calculate_rankings.py:188-191). */
  lemma WeekTwoCurrentWeek()
    ensures GetCurrentWeek(WeekTwo) == 2
  {
    WeekTwoCompleted();
    var rest := [WeekTwo[1], WeekTwo[2], WeekTwo[3]];
    assert WeekTwo[1..] == rest;
    assert rest[1..] == [WeekTwo[2], WeekTwo[3]];
    assert rest[1..][1..] == [WeekTwo[3]];
  }

  /** The schema check accepts the six columns of the schedule (tests/test_calculate_rankings.py:215-217). */
  lemma ValidateDataAccepts()
    ensures ValidateData({"week", "home_team", "away_team", "home_score", "away_score", "result"})
  {
  }

  /** A table without `away_team` is refused (tests/test_calculate_rankings.py:220-228). */
  lemma ValidateDataRejects()
    ensures !ValidateData({"week", "home_team"})
  {
    assert RequiredFields[2] == "away_team";
    assert "away_team"[0] != "home_team"[0];
    assert "away_team" != "week";
  }

  /**
   * The shape of WeekTwo: four completed home wins, KC over BAL and BUF over
   * NYJ in week 1, KC over BUF and BAL over NYJ in week 2. The lemmas below
   * hold for every schedule of this shape; WeekTwo is one.
   */
  predicate PairedLikeWeekTwo(schedule: seq<Game>) {
    && |schedule| == 4
    && (forall i :: 0 <= i < 4 ==> schedule[i].homeScore.Some? && schedule[i].result > 0)
    && schedule[0].week == 1 && schedule[0].homeTeam == "KC" && schedule[0].awayTeam == "BAL"
    && schedule[1].week == 1 && schedule[1].homeTeam == "BUF" && schedule[1].awayTeam == "NYJ"
    && schedule[2].week == 2 && schedule[2].homeTeam == "KC" && schedule[2].awayTeam == "BUF"
    && schedule[3].week == 2 && schedule[3].homeTeam == "BAL" && schedule[3].awayTeam == "NYJ"
  }

  lemma WeekTwoShape()
    ensures PairedLikeWeekTwo(WeekTwo)
  {
  }

  /** Every game of a schedule shaped like WeekTwo is completed. */
  lemma CompletedOfShape(schedule: seq<Game>)
    requires PairedLikeWeekTwo(schedule)
    ensures GetGameResults(schedule) == schedule
    ensures CountedGames(schedule, None) == schedule
  {
    FilterKeepsAll(schedule, Completed);
  }

  lemma WeekTwoCompleted()
    ensures GetGameResults(WeekTwo) == WeekTwo
    ensures CountedGames(WeekTwo, None) == WeekTwo
  {
    WeekTwoShape();
    CompletedOfShape(WeekTwo);
  }

  /** A record over four completed games, game by game. */
  lemma RecordOfFour(schedule: seq<Game>, team: Team, kind: Kind)
    requires |schedule| == 4 && GetGameResults(schedule) == schedule
    ensures KindCount(GetTeamRecord(schedule, team, None), kind) ==
      |Kept(schedule[0], Outcome(team, kind))| + |Kept(schedule[1], Outcome(team, kind))| +
      |Kept(schedule[2], Outcome(team, kind))| + |Kept(schedule[3], Outcome(team, kind))|
  {
    RecordKind(schedule, team, None, kind);
    FilterFour(schedule, Outcome(team, kind));
  }

  lemma KCRecordOfShape(schedule: seq<Game>)
    requires PairedLikeWeekTwo(schedule)
    ensures GetTeamRecord(schedule, "KC", None) == Record(2, 0, 0)
  {
    CompletedOfShape(schedule);
    RecordOfFour(schedule, "KC", Win);
    RecordOfFour(schedule, "KC", Loss);
    RecordOfFour(schedule, "KC", Tie);
  }

  lemma BUFRecordOfShape(schedule: seq<Game>)
    requires PairedLikeWeekTwo(schedule)
    ensures GetTeamRecord(schedule, "BUF", None) == Record(1, 1, 0)
  {
    CompletedOfShape(schedule);
    RecordOfFour(schedule, "BUF", Win);
    RecordOfFour(schedule, "BUF", Loss);
    RecordOfFour(schedule, "BUF", Tie);
  }

  lemma BALRecordOfShape(schedule: seq<Game>)
    requires PairedLikeWeekTwo(schedule)
    ensures GetTeamRecord(schedule, "BAL", None) == Record(1, 1, 0)
  {
    CompletedOfShape(schedule);
    RecordOfFour(schedule, "BAL", Win);
    RecordOfFour(schedule, "BAL", Loss);
    RecordOfFour(schedule, "BAL", Tie);
  }

  lemma NYJRecordOfShape(schedule: seq<Game>)
    requires PairedLikeWeekTwo(schedule)
    ensures GetTeamRecord(schedule, "NYJ", None) == Record(0, 2, 0)
  {
    CompletedOfShape(schedule);
    RecordOfFour(schedule, "NYJ", Win);
    RecordOfFour(schedule, "NYJ", Loss);
    RecordOfFour(schedule, "NYJ", Tie);
  }

  /** The records of tests/test_calculate_rankings.py:235-247. */
  lemma WeekTwoRecords()
    ensures GetTeamRecord(WeekTwo, "KC", None) == Record(2, 0, 0)
    ensures GetTeamRecord(WeekTwo, "BUF", None) == Record(1, 1, 0)
    ensures GetTeamRecord(WeekTwo, "BAL", None) == Record(1, 1, 0)
    ensures GetTeamRecord(WeekTwo, "NYJ", None) == Record(0, 2, 0)
  {
    WeekTwoShape();
    KCRecordOfShape(WeekTwo);
    BUFRecordOfShape(WeekTwo);
    BALRecordOfShape(WeekTwo);
    NYJRecordOfShape(WeekTwo);
  }

  /** A record through week 1 counts only the first two games. */
  lemma FirstWeekOfShape(schedule: seq<Game>, team: Team, kind: Kind)
    requires PairedLikeWeekTwo(schedule)
    ensures KindCount(GetTeamRecord(schedule, team, Some(1)), kind) ==
            |Kept(schedule[0], Outcome(team, kind))| + |Kept(schedule[1], Outcome(team, kind))|
  {
    var firstWeek := [schedule[0]] + [schedule[1]];
    assert CountedGames(schedule, Some(1)) == firstWeek by {
      CompletedOfShape(schedule);
      FilterFour(schedule, ThroughWeek(1));
    }
    RecordKind(schedule, team, Some(1), kind);
    FilterAppend([schedule[0]], [schedule[1]], Outcome(team, kind));
    FilterSingle(schedule[0], Outcome(team, kind));
    FilterSingle(schedule[1], Outcome(team, kind));
  }

  lemma ThroughWeekOneOfShape(schedule: seq<Game>)
    requires PairedLikeWeekTwo(schedule)
    ensures GetTeamRecord(schedule, "KC", Some(1)) == Record(1, 0, 0)
    ensures GetTeamRecord(schedule, "BUF", Some(1)) == Record(1, 0, 0)
    ensures GetTeamRecord(schedule, "BAL", Some(1)).wins == 0
  {
    FirstWeekOfShape(schedule, "KC", Win);
    FirstWeekOfShape(schedule, "KC", Loss);
    FirstWeekOfShape(schedule, "KC", Tie);
    FirstWeekOfShape(schedule, "BUF", Win);
    FirstWeekOfShape(schedule, "BUF", Loss);
    FirstWeekOfShape(schedule, "BUF", Tie);
    FirstWeekOfShape(schedule, "BAL", Win);
  }

  /** Through week 1, KC and BUF are 1-0 and BAL has not won (tests/test_calculate_rankings.py:250-258). */
  lemma WeekTwoThroughWeekOne()
    ensures GetTeamRecord(WeekTwo, "KC", Some(1)) == Record(1, 0, 0)
    ensures GetTeamRecord(WeekTwo, "BUF", Some(1)) == Record(1, 0, 0)
    ensures GetTeamRecord(WeekTwo, "BAL", Some(1)).wins == 0
  {
    WeekTwoShape();
    ThroughWeekOneOfShape(WeekTwo);
  }

  /** The shape of WithTies: WeekTwo with KC and BAL level in week 1. */
  predicate PairedLikeWithTies(schedule: seq<Game>) {
    && |schedule| == 4
    && (forall i :: 0 <= i < 4 ==> schedule[i].homeScore.Some?)
    && schedule[0].homeTeam == "KC" && schedule[0].awayTeam == "BAL" && schedule[0].result == 0
    && schedule[1].homeTeam == "BUF" && schedule[1].awayTeam == "NYJ" && schedule[1].result > 0
    && schedule[2].homeTeam == "KC" && schedule[2].awayTeam == "BUF" && schedule[2].result > 0
    && schedule[3].homeTeam == "BAL" && schedule[3].awayTeam == "NYJ" && schedule[3].result > 0
  }

  lemma TiesRecordsOfShape(schedule: seq<Game>)
    requires PairedLikeWithTies(schedule)
    ensures GetTeamRecord(schedule, "KC", None) == Record(1, 0, 1)
    ensures GetTeamRecord(schedule, "BAL", None) == Record(1, 0, 1)
  {
    FilterKeepsAll(schedule, Completed);
    RecordOfFour(schedule, "KC", Win);
    RecordOfFour(schedule, "KC", Loss);
    RecordOfFour(schedule, "KC", Tie);
    RecordOfFour(schedule, "BAL", Win);
    RecordOfFour(schedule, "BAL", Loss);
    RecordOfFour(schedule, "BAL", Tie);
  }

  /** A tie counts for both sides (tests/test_calculate_rankings.py:261-269). */
  lemma WithTiesRecords()
    ensures GetTeamRecord(WithTies, "KC", None) == Record(1, 0, 1)
    ensures GetTeamRecord(WithTies, "BAL", None) == Record(1, 0, 1)
  {
    assert PairedLikeWithTies(WithTies);
    TiesRecordsOfShape(WithTies);
  }

  /** KC's row in a ranking of the tie shape: one tie and a percentage of 0.75 (tests/test_calculate_rankings.py:651-663). */
  lemma WithTiesRankings(schedule: seq<Game>, rankings: seq<TeamRanking>)
    requires PairedLikeWithTies(schedule)
    requires IsRankingOf(schedule, rankings)
    ensures exists i :: 0 <= i < |rankings| && rankings[i].team == "KC"
    ensures forall i :: 0 <= i < |rankings| && rankings[i].team == "KC" ==>
      rankings[i].ties == 1 && rankings[i].winPct == 0.75
  {
    RowOfTeam(schedule, rankings, 0, "KC");
    TiesRecordsOfShape(schedule);
    assert CalculateWinPercentage(1, 0, 1) == 0.75;
  }

  /** The percentages of tests/test_calculate_rankings.py:288-306. */
  lemma WinPercentageExamples()
    ensures CalculateWinPercentage(2, 0, 0) == 1.0
    ensures CalculateWinPercentage(1, 1, 0) == 0.5
    ensures CalculateWinPercentage(0, 2, 0) == 0.0
    ensures CalculateWinPercentage(1, 0, 1) == 0.75
    ensures CalculateWinPercentage(0, 1, 1) == 0.25
    ensures CalculateWinPercentage(0, 0, 0) == 0.0
  {
  }

  /** The totals of tests/test_calculate_rankings.py:402-416, the last two for an undefeated and a winless team. */
  lemma TotalScoreExamples()
    ensures CalculateTotalScore(10, -5) == 5
    ensures CalculateTotalScore(0, 0) == 0
    ensures CalculateTotalScore(2, -3) == -1
    ensures CalculateTotalScore(15, 0) == 15
    ensures CalculateTotalScore(0, -10) == -10
  {
    var basic := [CalculateTotalScore(10, -5), CalculateTotalScore(0, 0), CalculateTotalScore(2, -3)];
    assert basic == [5, 0, -1];
  }

  /** What one game adds to a weighted score. */
  function Weight(game: Game, schedule: seq<Game>, team: Team, kind: Kind): nat {
    if Counts(game, team, kind) then OpponentCount(schedule, game, team, kind) else 0
  }

  /** A weighted score over four completed games, game by game. */
  lemma OpponentSumOfFour(schedule: seq<Game>, team: Team, kind: Kind)
    requires |schedule| == 4 && GetGameResults(schedule) == schedule
    ensures OpponentSum(GetGameResults(schedule), schedule, team, kind) ==
      Weight(schedule[0], schedule, team, kind) + Weight(schedule[1], schedule, team, kind) +
      Weight(schedule[2], schedule, team, kind) + Weight(schedule[3], schedule, team, kind)
  {
    var a, b, c, d := schedule[0], schedule[1], schedule[2], schedule[3];
    assert schedule == [a] + [b] + [c] + [d];
    OpponentSumAppend([a] + [b] + [c], [d], schedule, team, kind);
    OpponentSumAppend([a] + [b], [c], schedule, team, kind);
    OpponentSumAppend([a], [b], schedule, team, kind);
    assert [a][1..] == [] && [b][1..] == [] && [c][1..] == [] && [d][1..] == [];
  }

  lemma KCWeightsOfShape(schedule: seq<Game>)
    requires PairedLikeWeekTwo(schedule)
    ensures WeightedWins(schedule, "KC") == 2 && WeightedLosses(schedule, "KC") == 0
  {
    CompletedOfShape(schedule);
    BALRecordOfShape(schedule);
    BUFRecordOfShape(schedule);
    OpponentSumOfFour(schedule, "KC", Win);
    OpponentSumOfFour(schedule, "KC", Loss);
  }

  lemma BUFWeightsOfShape(schedule: seq<Game>)
    requires PairedLikeWeekTwo(schedule)
    ensures WeightedWins(schedule, "BUF") == 0 && WeightedLosses(schedule, "BUF") == 0
  {
    CompletedOfShape(schedule);
    NYJRecordOfShape(schedule);
    KCRecordOfShape(schedule);
    OpponentSumOfFour(schedule, "BUF", Win);
    OpponentSumOfFour(schedule, "BUF", Loss);
  }

  lemma BALWeightsOfShape(schedule: seq<Game>)
    requires PairedLikeWeekTwo(schedule)
    ensures WeightedWins(schedule, "BAL") == 0 && WeightedLosses(schedule, "BAL") == 0
  {
    CompletedOfShape(schedule);
    NYJRecordOfShape(schedule);
    KCRecordOfShape(schedule);
    OpponentSumOfFour(schedule, "BAL", Win);
    OpponentSumOfFour(schedule, "BAL", Loss);
  }

  lemma NYJLossWeightsOfShape(schedule: seq<Game>)
    requires PairedLikeWeekTwo(schedule)
    ensures OpponentSum(schedule, schedule, "NYJ", Loss) == 2
  {
    CompletedOfShape(schedule);
    BUFRecordOfShape(schedule);
    BALRecordOfShape(schedule);
    OpponentSumOfFour(schedule, "NYJ", Loss);
  }

  lemma NYJWeightsOfShape(schedule: seq<Game>)
    requires PairedLikeWeekTwo(schedule)
    ensures WeightedWins(schedule, "NYJ") == 0 && WeightedLosses(schedule, "NYJ") == -2
  {
    CompletedOfShape(schedule);
    NYJLossWeightsOfShape(schedule);
    OpponentSumOfFour(schedule, "NYJ", Win);
  }

  /** KC's wins are weighted by BAL's and BUF's one win each; KC lost no game (tests/test_calculate_rankings.py:313-323). */
  lemma WeekTwoWeightedKC()
    ensures WeightedWins(WeekTwo, "KC") == 2 && WeightedLosses(WeekTwo, "KC") == 0
  {
    WeekTwoShape();
    KCWeightsOfShape(WeekTwo);
  }

  /** BUF beat only the winless NYJ and lost only to the unbeaten KC (tests/test_calculate_rankings.py:326-335, 372-381). */
  lemma WeekTwoWeightedBUF()
    ensures WeightedWins(WeekTwo, "BUF") == 0 && WeightedLosses(WeekTwo, "BUF") == 0
  {
    WeekTwoShape();
    BUFWeightsOfShape(WeekTwo);
  }

  /** BAL, like BUF, beat the winless NYJ and lost to the unbeaten KC. */
  lemma WeekTwoWeightedBAL()
    ensures WeightedWins(WeekTwo, "BAL") == 0 && WeightedLosses(WeekTwo, "BAL") == 0
  {
    WeekTwoShape();
    BALWeightsOfShape(WeekTwo);
  }

  /** NYJ won nothing and lost to BUF and BAL, one loss each (tests/test_calculate_rankings.py:359-369). */
  lemma WeekTwoWeightedNYJ()
    ensures WeightedWins(WeekTwo, "NYJ") == 0 && WeightedLosses(WeekTwo, "NYJ") == -2
  {
    WeekTwoShape();
    NYJWeightsOfShape(WeekTwo);
  }

  /**
   * Weighting uses the opponents' final records: through week 1 BAL had no
   * win, yet KC's week-1 win over BAL is weighted by BAL's one final win.
   */
  lemma WeekTwoUsesFinalRecords()
    ensures GetTeamRecord(WeekTwo, "BAL", Some(1)).wins == 0
    ensures WeightedWins(WeekTwo, "KC") ==
            GetTeamRecord(WeekTwo, "BAL", None).wins + GetTeamRecord(WeekTwo, "BUF", None).wins
  {
    WeekTwoThroughWeekOne();
    WeekTwoWeightedKC();
    WeekTwoRecords();
  }

  /** The row each team of WeekTwo gets. */
  const RowKC := TeamRanking("KC", 2, 0, 0, 1.0, 2, 0, 2)
  const RowBAL := TeamRanking("BAL", 1, 1, 0, 0.5, 0, 0, 0)
  const RowBUF := TeamRanking("BUF", 1, 1, 0, 0.5, 0, 0, 0)
  const RowNYJ := TeamRanking("NYJ", 0, 2, 0, 0.0, 0, -2, -2)

  /** Total descending; BAL and BUF tie on 0 and stay in name order. */
  const WeekTwoRows: seq<TeamRanking> := [RowKC, RowBAL, RowBUF, RowNYJ]

  /** The teams of four completed games are their eight sides. */
  lemma TeamsOfFour(schedule: seq<Game>)
    requires |schedule| == 4
    requires forall i :: 0 <= i < 4 ==> schedule[i].homeScore.Some?
    ensures TeamsOf(schedule) ==
      {schedule[0].homeTeam, schedule[0].awayTeam, schedule[1].homeTeam, schedule[1].awayTeam,
       schedule[2].homeTeam, schedule[2].awayTeam, schedule[3].homeTeam, schedule[3].awayTeam}
  {
    var sides := {schedule[0].homeTeam, schedule[0].awayTeam, schedule[1].homeTeam, schedule[1].awayTeam,
                  schedule[2].homeTeam, schedule[2].awayTeam, schedule[3].homeTeam, schedule[3].awayTeam};
    forall t | t in TeamsOf(schedule)
      ensures t in sides
    {
      var g :| g in schedule && g.homeScore.Some? && (g.homeTeam == t || g.awayTeam == t);
      var i :| 0 <= i < 4 && schedule[i] == g;
    }
    forall t | t in sides
      ensures t in TeamsOf(schedule)
    {
      assert schedule[0] in schedule && schedule[1] in schedule;
      assert schedule[2] in schedule && schedule[3] in schedule;
    }
  }

  lemma TeamsOfShape(schedule: seq<Game>)
    requires PairedLikeWeekTwo(schedule)
    ensures TeamsOf(schedule) == {"KC", "BAL", "BUF", "NYJ"}
  {
    TeamsOfFour(schedule);
  }

  /** The teams of WeekTwo. */
  lemma WeekTwoTeams()
    ensures TeamsOf(WeekTwo) == {"KC", "BAL", "BUF", "NYJ"}
  {
    WeekTwoShape();
    TeamsOfShape(WeekTwo);
  }

  /** WeekTwoRows is ordered by total, and by team where totals are equal. */
  lemma WeekTwoRowsOrdered()
    ensures forall i, j :: 0 <= i < j < |WeekTwoRows| ==> WeekTwoRows[i].total >= WeekTwoRows[j].total
    ensures forall i, j :: 0 <= i < j < |WeekTwoRows| && WeekTwoRows[i].total == WeekTwoRows[j].total ==>
              LexLess(WeekTwoRows[i].team, WeekTwoRows[j].team)
  {
    assert LexLess("BAL", "BUF") by {
      assert "BAL"[1..] == "AL" && "BUF"[1..] == "UF";
    }
  }

  /** Four values, each the image of its own key. */
  lemma ImagesOfFour<K, V>(f: K -> V, key: V -> K, a: V, b: V, c: V, d: V)
    requires a == f(key(a)) && b == f(key(b)) && c == f(key(c)) && d == f(key(d))
    ensures forall i :: 0 <= i < 4 ==> [a, b, c, d][i] == f(key([a, b, c, d][i]))
  {
  }

  /** Four rows, each the row of its own team. */
  lemma RowsOfFour(schedule: seq<Game>, a: TeamRanking, b: TeamRanking, c: TeamRanking, d: TeamRanking)
    requires a == RankingRow(schedule, a.team) && b == RankingRow(schedule, b.team)
    requires c == RankingRow(schedule, c.team) && d == RankingRow(schedule, d.team)
    ensures forall i :: 0 <= i < 4 ==> [a, b, c, d][i] == RankingRow(schedule, [a, b, c, d][i].team)
  {
    ImagesOfFour(t => RankingRow(schedule, t), (row: TeamRanking) => row.team, a, b, c, d);
  }

  /** Every row of WeekTwoRows is the row of its team. */
  lemma RowsMatchTeams(schedule: seq<Game>)
    requires RankingRow(schedule, "KC") == RowKC && RankingRow(schedule, "BAL") == RowBAL
    requires RankingRow(schedule, "BUF") == RowBUF && RankingRow(schedule, "NYJ") == RowNYJ
    ensures forall i :: 0 <= i < |WeekTwoRows| ==> WeekTwoRows[i] == RankingRow(schedule, WeekTwoRows[i].team)
  {
    RowsOfFour(schedule, RowKC, RowBAL, RowBUF, RowNYJ);
  }

  /** The teams of WeekTwoRows are the four teams. */
  lemma RowsAreTeams(teams: set<Team>)
    requires teams == {"KC", "BAL", "BUF", "NYJ"}
    ensures forall i :: 0 <= i < |WeekTwoRows| ==> WeekTwoRows[i].team in teams
  {
  }

  /** Every team of a schedule with WeekTwo's teams has a row in WeekTwoRows. */
  lemma RowsCoverTeams(schedule: seq<Game>)
    requires TeamsOf(schedule) == {"KC", "BAL", "BUF", "NYJ"}
    ensures forall t :: t in TeamsOf(schedule) ==> exists i :: 0 <= i < |WeekTwoRows| && WeekTwoRows[i].team == t
  {
    var rows := WeekTwoRows;
    forall t | t in TeamsOf(schedule)
      ensures exists i :: 0 <= i < |rows| && rows[i].team == t
    {
      if t == "KC" {
        assert rows[0].team == t;
      } else if t == "BAL" {
        assert rows[1].team == t;
      } else if t == "BUF" {
        assert rows[2].team == t;
      } else {
        assert rows[3].team == t;
      }
    }
  }

  /** Any schedule with WeekTwo's teams and rows is ranked as WeekTwoRows. */
  lemma RowsFromScores(schedule: seq<Game>)
    requires TeamsOf(schedule) == {"KC", "BAL", "BUF", "NYJ"}
    requires RankingRow(schedule, "KC") == RowKC
    requires RankingRow(schedule, "BAL") == RowBAL
    requires RankingRow(schedule, "BUF") == RowBUF
    requires RankingRow(schedule, "NYJ") == RowNYJ
    ensures IsRankingOf(schedule, WeekTwoRows)
  {
    RowsMatchTeams(schedule);
    RowsAreTeams(TeamsOf(schedule));
    RowsCoverTeams(schedule);
    WeekTwoRowsOrdered();
  }

  /** A row is determined by the team's record and weighted scores. */
  lemma RowOfScores(schedule: seq<Game>, team: Team, record: Record, weightedWins: int, weightedLosses: int, winPct: real)
    requires GetTeamRecord(schedule, team, None) == record
    requires WeightedWins(schedule, team) == weightedWins && WeightedLosses(schedule, team) == weightedLosses
    requires CalculateWinPercentage(record.wins, record.losses, record.ties) == winPct
    ensures RankingRow(schedule, team) ==
      TeamRanking(team, record.wins, record.losses, record.ties, winPct,
                  weightedWins, weightedLosses, weightedWins + weightedLosses)
  {
  }

  lemma KCRowOfShape(schedule: seq<Game>)
    requires PairedLikeWeekTwo(schedule)
    ensures RankingRow(schedule, "KC") == RowKC
  {
    KCRecordOfShape(schedule);
    KCWeightsOfShape(schedule);
    RowOfScores(schedule, "KC", Record(2, 0, 0), 2, 0, 1.0);
  }

  lemma BALRowOfShape(schedule: seq<Game>)
    requires PairedLikeWeekTwo(schedule)
    ensures RankingRow(schedule, "BAL") == RowBAL
  {
    assert CalculateWinPercentage(1, 1, 0) == 0.5 by { WinPercentageExamples(); }
    BALRecordOfShape(schedule);
    BALWeightsOfShape(schedule);
    RowOfScores(schedule, "BAL", Record(1, 1, 0), 0, 0, 0.5);
  }

  lemma BUFRowOfShape(schedule: seq<Game>)
    requires PairedLikeWeekTwo(schedule)
    ensures RankingRow(schedule, "BUF") == RowBUF
  {
    assert CalculateWinPercentage(1, 1, 0) == 0.5 by { WinPercentageExamples(); }
    BUFRecordOfShape(schedule);
    BUFWeightsOfShape(schedule);
    RowOfScores(schedule, "BUF", Record(1, 1, 0), 0, 0, 0.5);
  }

  lemma NYJRowOfShape(schedule: seq<Game>)
    requires PairedLikeWeekTwo(schedule)
    ensures RankingRow(schedule, "NYJ") == RowNYJ
  {
    NYJRecordOfShape(schedule);
    NYJWeightsOfShape(schedule);
    RowOfScores(schedule, "NYJ", Record(0, 2, 0), 0, -2, 0.0);
  }

  /** Every schedule shaped like WeekTwo has exactly one ranking: WeekTwoRows. */
  lemma RankingsOfShape(schedule: seq<Game>, rankings: seq<TeamRanking>)
    requires PairedLikeWeekTwo(schedule)
    requires IsRankingOf(schedule, rankings)
    ensures rankings == WeekTwoRows
  {
    TeamsOfShape(schedule);
    KCRowOfShape(schedule);
    BALRowOfShape(schedule);
    BUFRowOfShape(schedule);
    NYJRowOfShape(schedule);
    RowsFromScores(schedule);
    RankingIsUnique(schedule, rankings, WeekTwoRows);
  }

  /**
   * The rankings of WeekTwo are KC, BAL, BUF, NYJ: BAL and BUF tie on 0 and
   * keep their alphabetical order (tests/test_calculate_rankings.py:423-441, 538-565).
   */
  lemma WeekTwoRankings(rankings: seq<TeamRanking>)
    requires IsRankingOf(WeekTwo, rankings)
    ensures rankings == WeekTwoRows
  {
    WeekTwoShape();
    RankingsOfShape(WeekTwo, rankings);
  }

  /**
   * Four home teams (PHI, KC, DAL, SF) each play a different visitor in each
   * of weeks 1 to 4 and never lose; SF and LAR tie in week 2.
   */
  const WeekFour: seq<Game> := [
    Played(1, "PHI", "NE", 25, 20), Played(1, "KC", "LAC", 44, 21),
    Played(1, "DAL", "NYG", 40, 0), Played(1, "SF", "ARI", 30, 10),
    Played(2, "PHI", "BUF", 34, 28), Played(2, "KC", "CHI", 41, 10),
    Played(2, "DAL", "NYJ", 30, 10), Played(2, "SF", "LAR", 30, 30),
    Played(3, "PHI", "WAS", 25, 11), Played(3, "KC", "MIN", 28, 20),
    Played(3, "DAL", "MIA", 20, 17), Played(3, "SF", "SEA", 42, 27),
    Played(4, "PHI", "TB", 25, 11), Played(4, "KC", "DEN", 19, 8),
    Played(4, "DAL", "CLE", 20, 17), Played(4, "SF", "LV", 35, 14)]

  const WeekFourHomes: set<Team> := {"PHI", "KC", "DAL", "SF"}

  /** KC beats NYJ in week 1 and BAL beats NYJ in week 2. */
  const NoWins: seq<Game> := [Played(1, "KC", "NYJ", 27, 20), Played(2, "BAL", "NYJ", 21, 14)]

  /** KC beats NYJ in week 1 and BAL in week 2. */
  const NoLosses: seq<Game> := [Played(1, "KC", "NYJ", 27, 20), Played(2, "KC", "BAL", 28, 21)]

  /** Every game is completed and none is later than the last one, which is in `week`. */
  lemma CurrentWeekOf(schedule: seq<Game>, week: int)
    requires forall i :: 0 <= i < |schedule| ==> schedule[i].homeScore.Some? && schedule[i].week <= week
    requires schedule != [] && schedule[|schedule| - 1].week == week
    ensures GetCurrentWeek(schedule) == week
  {
    assert schedule[|schedule| - 1] in schedule;
  }

  /**
   * Every game has its home side among `homes` and its away side outside
   * them, and no visitor wins: the visitors never win and the home teams
   * never lose.
   */
  predicate HomeSidesUnbeaten(schedule: seq<Game>, homes: set<Team>) {
    forall i :: 0 <= i < |schedule| ==>
      schedule[i].homeTeam in homes && schedule[i].awayTeam !in homes && schedule[i].result >= 0
  }

  lemma UnbeatenRecords(schedule: seq<Game>, homes: set<Team>, team: Team)
    requires HomeSidesUnbeaten(schedule, homes)
    ensures team !in homes ==> GetTeamRecord(schedule, team, None).wins == 0
    ensures team in homes ==> GetTeamRecord(schedule, team, None).losses == 0
  {
    forall g | g in schedule
      ensures team !in homes ==> !Counts(g, team, Win)
      ensures team in homes ==> !Counts(g, team, Loss)
    {
      var i :| 0 <= i < |schedule| && schedule[i] == g;
    }
  }

  /**
   * In such a schedule a win is only ever over a visitor, who has no win, and
   * a loss only ever to a home team, which has no loss: every weighted score
   * is 0, however many games a team has won or lost.
   */
  lemma UnbeatenSidesWeighNothing(schedule: seq<Game>, homes: set<Team>, team: Team)
    requires HomeSidesUnbeaten(schedule, homes)
    ensures WeightedWins(schedule, team) == 0 && WeightedLosses(schedule, team) == 0
  {
    WeightedWinsPositive(schedule, team);
    WeightedLossesNegative(schedule, team);
    forall g | g in schedule && Counts(g, team, Win)
      ensures GetTeamRecord(schedule, Opponent(g, team), None).wins == 0
    {
      var i :| 0 <= i < |schedule| && schedule[i] == g;
      assert Opponent(g, team) == g.awayTeam;
      UnbeatenRecords(schedule, homes, g.awayTeam);
    }
    forall g | g in schedule && Counts(g, team, Loss)
      ensures GetTeamRecord(schedule, Opponent(g, team), None).losses == 0
    {
      var i :| 0 <= i < |schedule| && schedule[i] == g;
      assert Opponent(g, team) == g.homeTeam;
      UnbeatenRecords(schedule, homes, g.homeTeam);
    }
  }

  /**
   * The shape of WeekFour: sixteen completed games in weeks 1 to 4, the last
   * in week 4, each with a home side among WeekFourHomes, a visitor outside
   * them and no away win; PHI and KC win the first two.
   */
  predicate PairedLikeWeekFour(schedule: seq<Game>) {
    && |schedule| == 16
    && HomeSidesUnbeaten(schedule, WeekFourHomes)
    && (forall i :: 0 <= i < 16 ==> schedule[i].homeScore.Some? && schedule[i].week <= 4)
    && schedule[15].week == 4
    && schedule[0].homeTeam == "PHI" && schedule[0].result > 0
    && schedule[1].homeTeam == "KC" && schedule[1].result > 0
  }

  lemma WeekFourShape()
    ensures PairedLikeWeekFour(WeekFour)
  {
    assert forall i :: 0 <= i < 16 ==> WeekFour[i].homeTeam in WeekFourHomes;
    assert forall i :: 0 <= i < 16 ==> WeekFour[i].awayTeam !in WeekFourHomes;
  }

  /** The current week of a schedule shaped like WeekFour is 4 (tests/test_calculate_rankings.py:194-197, 574-575). */
  lemma WeekFourCurrentWeek(schedule: seq<Game>)
    requires PairedLikeWeekFour(schedule)
    ensures GetCurrentWeek(schedule) == 4
  {
    CurrentWeekOf(schedule, 4);
  }

  /** A home team that won a game of such a schedule has a win, but no weighted win. */
  lemma UnbeatenHomeWinner(schedule: seq<Game>, homes: set<Team>, i: int)
    requires HomeSidesUnbeaten(schedule, homes)
    requires 0 <= i < |schedule| && schedule[i].homeScore.Some? && schedule[i].result > 0
    ensures GetTeamRecord(schedule, schedule[i].homeTeam, None).wins > 0
    ensures WeightedWins(schedule, schedule[i].homeTeam) == 0
  {
    assert schedule[i] in CountedGames(schedule, None);
    UnbeatenSidesWeighNothing(schedule, homes, schedule[i].homeTeam);
  }

  /** A team of a completed game has a row, and every row of that team is its RankingRow. */
  lemma RowOfTeam(schedule: seq<Game>, rankings: seq<TeamRanking>, i: int, team: Team)
    requires IsRankingOf(schedule, rankings)
    requires 0 <= i < |schedule| && schedule[i].homeScore.Some?
    requires schedule[i].homeTeam == team || schedule[i].awayTeam == team
    ensures exists k :: 0 <= k < |rankings| && rankings[k].team == team
    ensures forall k :: 0 <= k < |rankings| && rankings[k].team == team ==> rankings[k] == RankingRow(schedule, team)
  {
    assert schedule[i] in schedule;
    assert team in TeamsOf(schedule);
  }

  /**
   * Every ranking of such a schedule with a completed game has rows, each
   * with a percentage in [0, 1], total = weighted wins + weighted losses,
   * and total 0.
   */
  lemma UnbeatenRankings(schedule: seq<Game>, homes: set<Team>, rankings: seq<TeamRanking>)
    requires HomeSidesUnbeaten(schedule, homes)
    requires IsRankingOf(schedule, rankings)
    requires schedule != [] && schedule[0].homeScore.Some?
    ensures |rankings| > 0
    ensures forall i :: 0 <= i < |rankings| ==>
      && 0.0 <= rankings[i].winPct <= 1.0
      && rankings[i].total == rankings[i].weightedWins + rankings[i].weightedLosses
      && rankings[i].total == 0
  {
    RowOfTeam(schedule, rankings, 0, schedule[0].homeTeam);
    forall i | 0 <= i < |rankings|
      ensures 0.0 <= rankings[i].winPct <= 1.0
      ensures rankings[i].total == rankings[i].weightedWins + rankings[i].weightedLosses
      ensures rankings[i].total == 0
    {
      RankingRowFacts(schedule, rankings[i].team);
      UnbeatenSidesWeighNothing(schedule, homes, rankings[i].team);
    }
  }

  /**
   * PHI and KC have won, yet their weighted wins are 0: each beat only
   * visitors that never won a game.
   */
  lemma WeekFourWeightedWins(schedule: seq<Game>)
    requires PairedLikeWeekFour(schedule)
    ensures GetTeamRecord(schedule, "PHI", None).wins > 0 && WeightedWins(schedule, "PHI") == 0
    ensures GetTeamRecord(schedule, "KC", None).wins > 0 && WeightedWins(schedule, "KC") == 0
  {
    UnbeatenHomeWinner(schedule, WeekFourHomes, 0);
    UnbeatenHomeWinner(schedule, WeekFourHomes, 1);
  }

  /**
   * A ranking of a schedule shaped like WeekFour is not empty, and every row
   * has a percentage in [0, 1], total = weighted wins + weighted losses, and
   * total 0 (tests/test_calculate_rankings.py:569-595); NE's weighted losses
   * are 0 (392-395).
   */
  lemma WeekFourRankings(schedule: seq<Game>, rankings: seq<TeamRanking>)
    requires PairedLikeWeekFour(schedule)
    requires IsRankingOf(schedule, rankings)
    ensures |rankings| > 0
    ensures forall i :: 0 <= i < |rankings| ==>
      && 0.0 <= rankings[i].winPct <= 1.0
      && rankings[i].total == rankings[i].weightedWins + rankings[i].weightedLosses
      && rankings[i].total == 0
    ensures WeightedLosses(schedule, "NE") == 0
  {
    UnbeatenRankings(schedule, WeekFourHomes, rankings);
    UnbeatenSidesWeighNothing(schedule, WeekFourHomes, "NE");
  }

  /** A record over two games, game by game. */
  lemma RecordOfTwo(a: Game, b: Game, team: Team, kind: Kind)
    ensures KindCount(GetTeamRecord([a, b], team, None), kind) ==
            Contribution(a, team, None, kind) + Contribution(b, team, None, kind)
  {
    assert GetTeamRecord([], team, None) == Record(0, 0, 0);
    RecordOfAppendedGame([], a, team, None, kind);
    assert [] + [a] == [a];
    RecordOfAppendedGame([a], b, team, None, kind);
    assert [a] + [b] == [a, b];
  }

  /** The shape of NoWins: KC beats NYJ, then BAL beats NYJ. */
  predicate PairedLikeNoWins(schedule: seq<Game>) {
    && |schedule| == 2
    && (forall i :: 0 <= i < 2 ==> schedule[i].homeScore.Some? && schedule[i].result > 0)
    && schedule[0].homeTeam == "KC" && schedule[0].awayTeam == "NYJ"
    && schedule[1].homeTeam == "BAL" && schedule[1].awayTeam == "NYJ"
  }

  lemma NoWinsShape()
    ensures PairedLikeNoWins(NoWins)
  {
  }

  /** NYJ loses both games (tests/test_calculate_rankings.py:272-275). */
  lemma NoWinsRecord(schedule: seq<Game>)
    requires PairedLikeNoWins(schedule)
    ensures GetTeamRecord(schedule, "NYJ", None) == Record(0, 2, 0)
  {
    assert schedule == [schedule[0], schedule[1]];
    RecordOfTwo(schedule[0], schedule[1], "NYJ", Win);
    RecordOfTwo(schedule[0], schedule[1], "NYJ", Loss);
    RecordOfTwo(schedule[0], schedule[1], "NYJ", Tie);
  }

  /**
   * NYJ's weighted wins are 0 (tests/test_calculate_rankings.py:338-341), and
   * so are its weighted losses: KC and BAL, who beat it, never lost.
   */
  lemma NoWinsWeights(schedule: seq<Game>)
    requires PairedLikeNoWins(schedule)
    ensures WeightedWins(schedule, "NYJ") == 0 && WeightedLosses(schedule, "NYJ") == 0
  {
    assert HomeSidesUnbeaten(schedule, {"KC", "BAL"});
    UnbeatenSidesWeighNothing(schedule, {"KC", "BAL"}, "NYJ");
  }

  /** NYJ's row: no wins, weighted wins 0, weighted losses 0 and total 0 (tests/test_calculate_rankings.py:617-631). */
  lemma NoWinsRankings(schedule: seq<Game>, rankings: seq<TeamRanking>)
    requires PairedLikeNoWins(schedule)
    requires IsRankingOf(schedule, rankings)
    ensures exists i :: 0 <= i < |rankings| && rankings[i].team == "NYJ"
    ensures forall i :: 0 <= i < |rankings| && rankings[i].team == "NYJ" ==>
      rankings[i].wins == 0 && rankings[i].weightedWins == 0 &&
      rankings[i].weightedLosses == 0 && rankings[i].total == 0
  {
    RowOfTeam(schedule, rankings, 0, "NYJ");
    NoWinsRecord(schedule);
    NoWinsWeights(schedule);
    RowOfScores(schedule, "NYJ", Record(0, 2, 0), 0, 0, 0.0);
  }

  /** The shape of NoLosses: KC beats NYJ, then BAL. */
  predicate PairedLikeNoLosses(schedule: seq<Game>) {
    && |schedule| == 2
    && (forall i :: 0 <= i < 2 ==> schedule[i].homeScore.Some? && schedule[i].result > 0)
    && schedule[0].homeTeam == "KC" && schedule[0].awayTeam == "NYJ"
    && schedule[1].homeTeam == "KC" && schedule[1].awayTeam == "BAL"
  }

  lemma NoLossesShape()
    ensures PairedLikeNoLosses(NoLosses)
  {
  }

  /** KC wins both games (tests/test_calculate_rankings.py:278-281). */
  lemma NoLossesRecord(schedule: seq<Game>)
    requires PairedLikeNoLosses(schedule)
    ensures GetTeamRecord(schedule, "KC", None) == Record(2, 0, 0)
  {
    assert schedule == [schedule[0], schedule[1]];
    RecordOfTwo(schedule[0], schedule[1], "KC", Win);
    RecordOfTwo(schedule[0], schedule[1], "KC", Loss);
    RecordOfTwo(schedule[0], schedule[1], "KC", Tie);
  }

  /**
   * KC's weighted losses are 0 (tests/test_calculate_rankings.py:384-387), and
   * so are its weighted wins: NYJ and BAL, whom it beat, never won.
   */
  lemma NoLossesWeights(schedule: seq<Game>)
    requires PairedLikeNoLosses(schedule)
    ensures WeightedLosses(schedule, "KC") == 0 && WeightedWins(schedule, "KC") == 0
  {
    assert HomeSidesUnbeaten(schedule, {"KC"});
    UnbeatenSidesWeighNothing(schedule, {"KC"}, "KC");
  }

  /** KC's row: no losses, weighted losses 0, weighted wins and total 0 (tests/test_calculate_rankings.py:634-648). */
  lemma NoLossesRankings(schedule: seq<Game>, rankings: seq<TeamRanking>)
    requires PairedLikeNoLosses(schedule)
    requires IsRankingOf(schedule, rankings)
    ensures exists i :: 0 <= i < |rankings| && rankings[i].team == "KC"
    ensures forall i :: 0 <= i < |rankings| && rankings[i].team == "KC" ==>
      rankings[i].losses == 0 && rankings[i].weightedLosses == 0 &&
      rankings[i].weightedWins == 0 && rankings[i].total == 0
  {
    RowOfTeam(schedule, rankings, 0, "KC");
    NoLossesRecord(schedule);
    NoLossesWeights(schedule);
    RowOfScores(schedule, "KC", Record(2, 0, 0), 0, 0, 1.0);
  }
}
