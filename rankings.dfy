/**
 * Ranking assembly (calculate_all_rankings), the output rows
 * (format_team_ranking, format_week_data) and the run's gates (main).
 */
module Rankings {
  import opened Schedule
  import opened Records
  import opened Weights
  import opened TeamOrder

  /** One output row; the script rounds the last four fields for display, the model keeps them exact. */
  datatype TeamRanking = TeamRanking(
    team: Team,
    wins: nat,
    losses: nat,
    ties: nat,
    winPct: real,
    weightedWins: int,
    weightedLosses: int,
    total: int)

  /** The teams that appear, at home or away, in some completed game. */
  function TeamsOf(schedule: seq<Game>): (teams: set<Team>)
    ensures forall t :: t in teams <==>
      exists g :: g in schedule && g.homeScore.Some? && (g.homeTeam == t || g.awayTeam == t)
  {
    var completed := GetGameResults(schedule);
    (set g | g in completed :: g.homeTeam) + (set g | g in completed :: g.awayTeam)
  }

  /** The row the script builds for `team`: its full record and weighted scores. */
  function RankingRow(schedule: seq<Game>, team: Team): (row: TeamRanking)
    ensures row.team == team
    ensures 0.0 <= row.winPct <= 1.0
    ensures row.weightedWins >= 0 && row.weightedLosses <= 0
  {
    var record := GetTeamRecord(schedule, team, None);
    var weightedWins := WeightedWins(schedule, team);
    var weightedLosses := WeightedLosses(schedule, team);
    TeamRanking(team, record.wins, record.losses, record.ties,
                CalculateWinPercentage(record.wins, record.losses, record.ties),
                weightedWins, weightedLosses, CalculateTotalScore(weightedWins, weightedLosses))
  }

  /**
   * What every row satisfies: a percentage in [0, 1], weighted wins at least
   * 0 and weighted losses at most 0, total their sum; no wins gives no
   * weighted wins, no losses no weighted losses, so a team whose games are all
   * ties (or that has none) has total 0.
   */
  lemma RankingRowFacts(schedule: seq<Game>, team: Team)
    ensures var row := RankingRow(schedule, team);
      && row.team == team
      && 0.0 <= row.winPct <= 1.0
      && row.weightedWins >= 0 && row.weightedLosses <= 0
      && row.total == row.weightedWins + row.weightedLosses
      && (row.wins == 0 ==> row.weightedWins == 0)
      && (row.losses == 0 ==> row.weightedLosses == 0)
      && (row.wins == 0 && row.losses == 0 ==> row.total == 0)
  {
    WeightedWinsBound(schedule, team);
    WeightedLossesBound(schedule, team);
  }

  /** Rows ordered by total, highest first. */
  predicate NonIncreasing(rows: seq<TeamRanking>) {
    forall i, j :: 0 <= i < j < |rows| ==> rows[i].total >= rows[j].total
  }

  /** Rows in strictly ascending team order. */
  predicate TeamsAscending(rows: seq<TeamRanking>) {
    forall i, j :: 0 <= i < j < |rows| ==> LexLess(rows[i].team, rows[j].team)
  }

  /** The rows whose total is `total`, in their order. */
  function WithTotal(rows: seq<TeamRanking>, total: int): (kept: seq<TeamRanking>)
    ensures forall r :: r in kept <==> r in rows && r.total == total
  {
    if rows == [] then []
    else (if rows[0].total == total then [rows[0]] else []) + WithTotal(rows[1..], total)
  }

  lemma {:induction false} WithTotalAppend(a: seq<TeamRanking>, b: seq<TeamRanking>, total: int)
    ensures WithTotal(a + b, total) == WithTotal(a, total) + WithTotal(b, total)
  {
    if a == [] {
      assert a + b == b;
    } else {
      assert (a + b)[0] == a[0];
      assert (a + b)[1..] == a[1..] + b;
      WithTotalAppend(a[1..], b, total);
    }
  }

  /**
   * Inserts `row` after every row whose total is at least its own: one step
   * of a stable sort by descending total.
   */
  function InsertByTotal(sorted: seq<TeamRanking>, row: TeamRanking): (result: seq<TeamRanking>)
    ensures forall r :: r in result <==> r in sorted || r == row
    ensures multiset(result) == multiset(sorted) + multiset{row}
  {
    if sorted == [] then [row]
    else if sorted[0].total >= row.total then
      assert sorted == [sorted[0]] + sorted[1..];
      [sorted[0]] + InsertByTotal(sorted[1..], row)
    else
      [row] + sorted
  }

  /** Inserting into rows ordered by descending total leaves them so ordered. */
  lemma {:induction false} InsertByTotalOrdered(sorted: seq<TeamRanking>, row: TeamRanking)
    requires NonIncreasing(sorted)
    ensures NonIncreasing(InsertByTotal(sorted, row))
  {
    if sorted != [] && sorted[0].total >= row.total {
      InsertByTotalOrdered(sorted[1..], row);
      var rest := InsertByTotal(sorted[1..], row);
      forall k | 0 <= k < |rest|
        ensures rest[k].total <= sorted[0].total
      {
        assert rest[k] in rest;
        if rest[k] != row {
          var m :| 0 <= m < |sorted[1..]| && sorted[1..][m] == rest[k];
          assert sorted[m + 1] == rest[k];
        }
      }
    }
  }

  /** No row has this total: none is selected. */
  lemma {:induction false} WithTotalNone(rows: seq<TeamRanking>, total: int)
    requires forall k :: 0 <= k < |rows| ==> rows[k].total != total
    ensures WithTotal(rows, total) == []
  {
    if rows != [] {
      WithTotalNone(rows[1..], total);
    }
  }

  /** Insertion keeps, for every total, the rows with that total in their order, the new one last. */
  lemma {:induction false} InsertByTotalStable(sorted: seq<TeamRanking>, row: TeamRanking, total: int)
    requires NonIncreasing(sorted)
    ensures WithTotal(InsertByTotal(sorted, row), total) ==
            WithTotal(sorted, total) + (if row.total == total then [row] else [])
  {
    if sorted == [] {
    } else if sorted[0].total >= row.total {
      InsertByTotalStable(sorted[1..], row, total);
      InsertAfterHeadStable(sorted, row, total);
    } else {
      InsertAtHeadStable(sorted, row, total);
    }
  }

  /** The inductive step of InsertByTotalStable, when `row` goes after the first row. */
  lemma InsertAfterHeadStable(sorted: seq<TeamRanking>, row: TeamRanking, total: int)
    requires sorted != [] && sorted[0].total >= row.total
    requires WithTotal(InsertByTotal(sorted[1..], row), total) ==
             WithTotal(sorted[1..], total) + (if row.total == total then [row] else [])
    ensures WithTotal(InsertByTotal(sorted, row), total) ==
            WithTotal(sorted, total) + (if row.total == total then [row] else [])
  {
    var added := if row.total == total then [row] else [];
    var first := if sorted[0].total == total then [sorted[0]] else [];
    var rest := InsertByTotal(sorted[1..], row);
    var inserted := [sorted[0]] + rest;
    assert InsertByTotal(sorted, row) == inserted;
    assert inserted[0] == sorted[0] && inserted[1..] == rest;
    assert WithTotal(inserted, total) == first + WithTotal(rest, total);
    assert WithTotal(sorted, total) == first + WithTotal(sorted[1..], total);
    AppendAssociative(first, WithTotal(sorted[1..], total), added);
  }

  /** The base case of InsertByTotalStable, when `row` goes first. */
  lemma InsertAtHeadStable(sorted: seq<TeamRanking>, row: TeamRanking, total: int)
    requires NonIncreasing(sorted) && sorted != [] && sorted[0].total < row.total
    ensures WithTotal(InsertByTotal(sorted, row), total) ==
            WithTotal(sorted, total) + (if row.total == total then [row] else [])
  {
    assert ([row] + sorted)[1..] == sorted;
    if row.total == total {
      WithTotalNone(sorted, total);
    }
  }

  /**
   * `rankings.sort(key=total, reverse=True)`: a stable sort by descending
   * total. The result is a reordering of the rows, highest total first, and
   * rows with equal totals keep their relative order.
   */
  method SortByTotal(rows: seq<TeamRanking>) returns (sorted: seq<TeamRanking>)
    ensures NonIncreasing(sorted)
    ensures multiset(sorted) == multiset(rows)
    ensures forall total :: WithTotal(sorted, total) == WithTotal(rows, total)
  {
    sorted := [];
    for i := 0 to |rows|
      invariant NonIncreasing(sorted)
      invariant multiset(sorted) == multiset(rows[..i])
      invariant forall total :: WithTotal(sorted, total) == WithTotal(rows[..i], total)
    {
      PrefixStep(rows, i);
      forall total
        ensures WithTotal(InsertByTotal(sorted, rows[i]), total) == WithTotal(rows[..i + 1], total)
      {
        InsertByTotalStable(sorted, rows[i], total);
        WithTotalAppend(rows[..i], [rows[i]], total);
      }
      InsertByTotalOrdered(sorted, rows[i]);
      sorted := InsertByTotal(sorted, rows[i]);
    }
    PrefixWhole(rows);
  }

  /** Two rows with equal totals appear in `WithTotal` in the order they have in `rows`. */
  lemma WithTotalPositions(rows: seq<TeamRanking>, i: nat, j: nat) returns (p: nat, q: nat)
    requires i < j < |rows| && rows[i].total == rows[j].total
    ensures p < q < |WithTotal(rows, rows[i].total)|
    ensures WithTotal(rows, rows[i].total)[p] == rows[i] && WithTotal(rows, rows[i].total)[q] == rows[j]
  {
    var total := rows[i].total;
    var left, right := WithTotal(rows[..j], total), WithTotal(rows[j..], total);
    assert rows == rows[..j] + rows[j..];
    WithTotalAppend(rows[..j], rows[j..], total);
    assert rows[..j][i] == rows[i];
    assert rows[i] in left;
    p :| 0 <= p < |left| && left[p] == rows[i];
    assert rows[j..][0] == rows[j];
    assert right == [rows[j]] + WithTotal(rows[j..][1..], total);
    q := |left|;
    assert (left + right)[q] == right[0];
  }

  /** Selecting the rows with one total from team-ascending rows leaves them team-ascending. */
  lemma {:induction false} WithTotalAscending(rows: seq<TeamRanking>, total: int)
    requires TeamsAscending(rows)
    ensures TeamsAscending(WithTotal(rows, total))
  {
    if rows != [] {
      WithTotalAscending(rows[1..], total);
      var rest := WithTotal(rows[1..], total);
      forall r | r in rest
        ensures LexLess(rows[0].team, r.team)
      {
        var k :| 0 <= k < |rows[1..]| && rows[1..][k] == r;
        assert rows[k + 1] == r;
      }
      if rows[0].total == total {
        var kept := [rows[0]] + rest;
        forall i, j | 0 <= i < j < |kept|
          ensures LexLess(kept[i].team, kept[j].team)
        {
          assert kept[j] == rest[j - 1];
          assert rest[j - 1] in rest;
          if i > 0 {
            assert kept[i] == rest[i - 1];
          }
        }
      }
    }
  }

  /** The order the assembled rankings are in: total descending, then team ascending. */
  predicate RanksAbove(x: TeamRanking, y: TeamRanking) {
    x.total > y.total || (x.total == y.total && LexLess(x.team, y.team))
  }

  /**
   * Sorting team-ascending rows stably by descending total orders rows of
   * equal total by team: the name order is the only tie-break.
   */
  lemma StableSortBreaksTiesByTeam(rows: seq<TeamRanking>, sorted: seq<TeamRanking>)
    requires TeamsAscending(rows)
    requires NonIncreasing(sorted)
    requires forall total :: WithTotal(sorted, total) == WithTotal(rows, total)
    ensures forall i, j :: 0 <= i < j < |sorted| ==> RanksAbove(sorted[i], sorted[j])
  {
    forall i, j | 0 <= i < j < |sorted|
      ensures RanksAbove(sorted[i], sorted[j])
    {
      if sorted[i].total == sorted[j].total {
        var total := sorted[i].total;
        var p, q := WithTotalPositions(sorted, i, j);
        WithTotalAscending(rows, total);
        assert WithTotal(sorted, total) == WithTotal(rows, total);
      }
    }
  }

  /**
   * What the assembled rankings are: one row for each team that appears in a
   * completed game and no other, each row that team's record and weighted
   * scores, ordered by total descending and, for equal totals, by team.
   */
  ghost predicate IsRankingOf(schedule: seq<Game>, rankings: seq<TeamRanking>) {
    && (forall i :: 0 <= i < |rankings| ==>
          rankings[i].team in TeamsOf(schedule) && rankings[i] == RankingRow(schedule, rankings[i].team))
    && (forall t :: t in TeamsOf(schedule) ==> exists i :: 0 <= i < |rankings| && rankings[i].team == t)
    && (forall i, j :: 0 <= i < j < |rankings| ==> rankings[i].total >= rankings[j].total)
    && (forall i, j :: 0 <= i < j < |rankings| && rankings[i].total == rankings[j].total ==>
          LexLess(rankings[i].team, rankings[j].team))
  }

  /** calculate_all_rankings: a row per team in name order, then a stable sort by descending total. */
  method CalculateAllRankings(schedule: seq<Game>) returns (rankings: seq<TeamRanking>)
    ensures IsRankingOf(schedule, rankings)
  {
    var teams := TeamsOf(schedule);
    var order := SortTeams(teams);
    ghost var expected := seq(|order|, k requires 0 <= k < |order| => RankingRow(schedule, order[k]));
    var rows: seq<TeamRanking> := [];
    for i := 0 to |order|
      invariant rows == expected[..i]
    {
      var team := order[i];
      var record := GetTeamRecord(schedule, team, None);
      var winPct := CalculateWinPercentage(record.wins, record.losses, record.ties);
      var weightedWins := CalculateWeightedWins(schedule, team);
      var weightedLosses := CalculateWeightedLosses(schedule, team);
      var total := CalculateTotalScore(weightedWins, weightedLosses);
      var row := TeamRanking(team, record.wins, record.losses, record.ties,
                             winPct, weightedWins, weightedLosses, total);
      assert row == expected[i];
      PrefixStep(expected, i);
      rows := rows + [row];
    }
    PrefixWhole(expected);
    rankings := SortByTotal(rows);
    RowsToRanking(schedule, teams, order, rows, rankings);
  }

  /** The facts CalculateAllRankings has gathered give IsRankingOf. */
  lemma RowsToRanking(schedule: seq<Game>, teams: set<Team>, order: seq<Team>,
                      rows: seq<TeamRanking>, rankings: seq<TeamRanking>)
    requires teams == TeamsOf(schedule)
    requires Ascending(order) && forall t :: t in order <==> t in teams
    requires |rows| == |order| && forall k :: 0 <= k < |rows| ==> rows[k] == RankingRow(schedule, order[k])
    requires NonIncreasing(rankings) && multiset(rankings) == multiset(rows)
    requires forall total :: WithTotal(rankings, total) == WithTotal(rows, total)
    ensures IsRankingOf(schedule, rankings)
  {
    StableSortBreaksTiesByTeam(rows, rankings);
    forall i | 0 <= i < |rankings|
      ensures rankings[i].team in TeamsOf(schedule) && rankings[i] == RankingRow(schedule, rankings[i].team)
    {
      assert rankings[i] in multiset(rows);
      var k :| 0 <= k < |rows| && rows[k] == rankings[i];
      assert order[k] in order;
    }
    forall t | t in TeamsOf(schedule)
      ensures exists i :: 0 <= i < |rankings| && rankings[i].team == t
    {
      var k :| 0 <= k < |order| && order[k] == t;
      assert rows[k] in multiset(rankings);
      var i :| 0 <= i < |rankings| && rankings[i] == rows[k];
    }
  }

  /** The set of teams of a sequence of rows. */
  function TeamSet(rows: seq<TeamRanking>): (teams: set<Team>)
    ensures forall t :: t in teams <==> exists i :: 0 <= i < |rows| && rows[i].team == t
  {
    if rows == [] then {}
    else
      var rest := TeamSet(rows[1..]);
      assert forall i :: 0 < i < |rows| ==> rows[i] == rows[1..][i - 1];
      {rows[0].team} + rest
  }

  lemma {:induction false} TeamSetSize(rows: seq<TeamRanking>)
    requires forall i, j :: 0 <= i < j < |rows| ==> rows[i].team != rows[j].team
    ensures |TeamSet(rows)| == |rows|
  {
    if rows != [] {
      TeamSetSize(rows[1..]);
      assert rows[0].team !in TeamSet(rows[1..]);
    }
  }

  /** Rankings hold exactly one row per team: no team twice, as many rows as teams. */
  lemma RankingHasOneRowPerTeam(schedule: seq<Game>, rankings: seq<TeamRanking>)
    requires IsRankingOf(schedule, rankings)
    ensures forall i, j :: 0 <= i < j < |rankings| ==> rankings[i].team != rankings[j].team
    ensures |rankings| == |TeamsOf(schedule)|
  {
    forall i, j | 0 <= i < j < |rankings|
      ensures rankings[i].team != rankings[j].team
    {
      if rankings[i].team == rankings[j].team {
        LexLessIrreflexive(rankings[i].team);
      }
    }
    TeamSetSize(rankings);
    assert TeamSet(rankings) == TeamsOf(schedule);
  }

  lemma RanksAboveAsymmetric(x: TeamRanking, y: TeamRanking)
    ensures RanksAbove(x, y) ==> !RanksAbove(y, x)
    ensures !RanksAbove(x, x)
  {
    LexLessAsymmetric(x.team, y.team);
    LexLessIrreflexive(x.team);
  }

  lemma HeadIn<T>(s: seq<T>)
    ensures s != [] ==> s[0] in s
  {
  }

  /** Two sequences strictly ordered by RanksAbove with the same members are equal. */
  lemma {:induction false} RanksAboveOrderUnique(a: seq<TeamRanking>, b: seq<TeamRanking>)
    requires forall i, j :: 0 <= i < j < |a| ==> RanksAbove(a[i], a[j])
    requires forall i, j :: 0 <= i < j < |b| ==> RanksAbove(b[i], b[j])
    requires forall x :: x in a <==> x in b
    ensures a == b
  {
    if a == [] {
      HeadIn(b);
    } else {
      assert a[0] in a;
      HeadIn(b);
      var k :| 0 <= k < |b| && b[k] == a[0];
      var l :| 0 <= l < |a| && a[l] == b[0];
      assert k > 0 ==> RanksAbove(b[0], a[0]);
      assert l > 0 ==> RanksAbove(a[0], b[0]);
      RanksAboveAsymmetric(a[0], b[0]);
      assert a[0] == b[0];
      forall x
        ensures x in a[1..] <==> x in b[1..]
      {
        if x in a[1..] {
          var l :| 0 <= l < |a[1..]| && a[1..][l] == x;
          assert RanksAbove(a[0], a[l + 1]);
          RanksAboveAsymmetric(x, x);
          assert x in b;
          var k :| 0 <= k < |b| && b[k] == x;
          assert b[1..][k - 1] == x;
        }
        if x in b[1..] {
          var l :| 0 <= l < |b[1..]| && b[1..][l] == x;
          assert RanksAbove(b[0], b[l + 1]);
          RanksAboveAsymmetric(x, x);
          assert x in a;
          var k :| 0 <= k < |a| && a[k] == x;
          assert a[1..][k - 1] == x;
        }
      }
      RanksAboveOrderUnique(a[1..], b[1..]);
      assert a == [a[0]] + a[1..] && b == [b[0]] + b[1..];
    }
  }

  /** The rankings of a schedule are determined by it: any two results are equal. */
  lemma RankingIsUnique(schedule: seq<Game>, a: seq<TeamRanking>, b: seq<TeamRanking>)
    requires IsRankingOf(schedule, a) && IsRankingOf(schedule, b)
    ensures a == b
  {
    forall x
      ensures x in a <==> x in b
    {
      if x in a {
        var i :| 0 <= i < |a| && a[i] == x;
        var j :| 0 <= j < |b| && b[j].team == x.team;
      }
      if x in b {
        var j :| 0 <= j < |b| && b[j] == x;
        var i :| 0 <= i < |a| && a[i].team == x.team;
      }
    }
    RanksAboveOrderUnique(a, b);
  }

  /** Reordering the rows of the schedule changes nothing in the rankings. */
  lemma RankingIgnoresGameOrder(s1: seq<Game>, s2: seq<Game>, rankings: seq<TeamRanking>)
    requires multiset(s1) == multiset(s2)
    requires IsRankingOf(s1, rankings)
    ensures IsRankingOf(s2, rankings)
  {
    assert forall g :: g in s1 <==> g in s2 by {
      forall g ensures g in s1 <==> g in s2 {
        assert g in s1 <==> g in multiset(s1);
        assert g in s2 <==> g in multiset(s2);
      }
    }
    assert TeamsOf(s1) == TeamsOf(s2);
    forall t
      ensures RankingRow(s1, t) == RankingRow(s2, t)
    {
      RecordPermutation(s1, s2, t, None);
      WeightedScoresPermutation(s1, s2, t);
    }
  }

  /** format_team_ranking: the eight fields, copied unchanged. */
  function FormatTeamRanking(teamData: TeamRanking): (formatted: TeamRanking)
    ensures formatted == teamData
  {
    TeamRanking(teamData.team, teamData.wins, teamData.losses, teamData.ties,
                teamData.winPct, teamData.weightedWins, teamData.weightedLosses, teamData.total)
  }

  const CurrentSeason: int := 2025

  /** A snapshot of one week, without the wall-clock timestamp. */
  datatype WeekData = WeekData(week: int, season: int, rankings: seq<TeamRanking>)

  /** format_week_data: every ranking formatted, in the same order. */
  function FormatWeekData(week: int, rankings: seq<TeamRanking>): (data: WeekData)
    ensures data.week == week && data.season == CurrentSeason
    ensures |data.rankings| == |rankings|
    ensures forall i :: 0 <= i < |rankings| ==> data.rankings[i] == rankings[i]
  {
    var formatted := seq(|rankings|, i requires 0 <= i < |rankings| => FormatTeamRanking(rankings[i]));
    WeekData(week, CurrentSeason, formatted)
  }

  /** The fetched schedule table: its column names and its rows. */
  datatype Table = Table(columns: set<string>, games: seq<Game>)

  /** How a run of the script ends (before the snapshot is written). */
  datatype RunOutcome =
    | FetchFailed
    | InvalidData
    | TooEarly(currentWeek: int)
    | Snapshot(weekData: WeekData)

  /**
   * main, from the fetched table to the week's snapshot: stop when there is
   * no data, when a required column is missing, or before two weeks are
   * complete; otherwise rank the teams and format the snapshot.
   */
  method RunRankings(fetched: Option<Table>) returns (outcome: RunOutcome)
    ensures fetched.None? <==> outcome.FetchFailed?
    ensures outcome.InvalidData? <==> fetched.Some? && !ValidateData(fetched.value.columns)
    ensures outcome.TooEarly? <==>
      fetched.Some? && ValidateData(fetched.value.columns) && GetCurrentWeek(fetched.value.games) < 2
    ensures outcome.TooEarly? ==> outcome.currentWeek == GetCurrentWeek(fetched.value.games)
    ensures outcome.Snapshot? ==>
      && fetched.Some?
      && outcome.weekData.week == GetCurrentWeek(fetched.value.games) >= 2
      && outcome.weekData.season == CurrentSeason
      && IsRankingOf(fetched.value.games, outcome.weekData.rankings)
  {
    if fetched.None? {
      return FetchFailed;
    }
    var schedule := fetched.value;
    if !ValidateData(schedule.columns) {
      return InvalidData;
    }
    var currentWeek := GetCurrentWeek(schedule.games);
    if currentWeek < 2 {
      return TooEarly(currentWeek);
    }
    var rankings := CalculateAllRankings(schedule.games);
    var weekData := FormatWeekData(currentWeek, rankings);
    assert weekData.rankings == rankings;
    outcome := Snapshot(weekData);
  }
}
