/**
 * A team's win/loss/tie record (get_team_record) and its win percentage
 * (calculate_win_percentage).
 */
module Records {
  import opened Schedule

  /**
   * `through_week` limits the record only when it is truthy: absent and 0
   * both mean "every completed week"; any other value, negative ones included,
   * is a limit.
   */
  predicate Limited(throughWeek: Option<int>)
    ensures !Limited(throughWeek) <==> throughWeek == None || throughWeek == Some(0)
  {
    throughWeek.Some? && throughWeek.value != 0
  }

  /** The games a record is counted over: completed ones, through the week limit if there is one. */
  function CountedGames(schedule: seq<Game>, throughWeek: Option<int>): (games: seq<Game>)
    ensures forall g :: g in games <==>
      g in schedule && g.homeScore.Some? && (Limited(throughWeek) ==> g.week <= throughWeek.value)
  {
    var completed := GetGameResults(schedule);
    if Limited(throughWeek) then Filter(completed, ThroughWeek(throughWeek.value)) else completed
  }

  datatype Record = Record(wins: nat, losses: nat, ties: nat)

  /** The component of a record that counts games of `kind`. */
  function KindCount(record: Record, kind: Kind): nat {
    match kind
    case Win => record.wins
    case Loss => record.losses
    case Tie => record.ties
  }

  /** The number of `games` that are a `kind` for `team`: the length of the masked rows. */
  function Tally(games: seq<Game>, team: Team, kind: Kind): (n: nat)
    ensures n <= |games|
    ensures n == 0 <==> forall g :: g in games ==> !Counts(g, team, kind)
  {
    var kept := Filter(games, Outcome(team, kind));
    assert kept != [] ==> kept[0] in kept;
    |kept|
  }

  /** A team's record: the number of counted games that are a win, a loss and a tie for it. */
  function GetTeamRecord(schedule: seq<Game>, team: Team, throughWeek: Option<int>): (record: Record)
    ensures record.wins == 0 <==> forall g :: g in CountedGames(schedule, throughWeek) ==> !Counts(g, team, Win)
    ensures record.losses == 0 <==> forall g :: g in CountedGames(schedule, throughWeek) ==> !Counts(g, team, Loss)
    ensures record.ties == 0 <==> forall g :: g in CountedGames(schedule, throughWeek) ==> !Counts(g, team, Tie)
    ensures (forall g :: g in schedule && g.homeScore.Some? ==> g.homeTeam != team && g.awayTeam != team) ==>
              record == Record(0, 0, 0)
  {
    var games := CountedGames(schedule, throughWeek);
    Record(Tally(games, team, Win), Tally(games, team, Loss), Tally(games, team, Tie))
  }

  /** The `kind` component of a record is the tally of that kind over the counted games. */
  lemma RecordKind(schedule: seq<Game>, team: Team, throughWeek: Option<int>, kind: Kind)
    ensures KindCount(GetTeamRecord(schedule, team, throughWeek), kind) == Tally(CountedGames(schedule, throughWeek), team, kind)
  {
  }

  /** What one more row of the schedule adds to `team`'s record. */
  function Contribution(game: Game, team: Team, throughWeek: Option<int>, kind: Kind): nat {
    if game.homeScore.Some? && (Limited(throughWeek) ==> game.week <= throughWeek.value) && Counts(game, team, kind)
    then 1 else 0
  }

  /**
   * The record is built one game at a time: appending a row adds 1 to exactly
   * the components that row counts for, and nothing else changes.
   */
  lemma RecordOfAppendedGame(schedule: seq<Game>, game: Game, team: Team, throughWeek: Option<int>, kind: Kind)
    ensures KindCount(GetTeamRecord(schedule + [game], team, throughWeek), kind) ==
            KindCount(GetTeamRecord(schedule, team, throughWeek), kind) + Contribution(game, team, throughWeek, kind)
  {
    RecordKind(schedule + [game], team, throughWeek, kind);
    RecordKind(schedule, team, throughWeek, kind);
    FilterAppend(schedule, [game], Completed);
    var completed := GetGameResults(schedule);
    var added := Filter([game], Completed);
    if Limited(throughWeek) {
      var limit := ThroughWeek(throughWeek.value);
      FilterAppend(completed, added, limit);
      FilterAppend(Filter(completed, limit), Filter(added, limit), Outcome(team, kind));
    } else {
      FilterAppend(completed, added, Outcome(team, kind));
    }
  }

  /** With no game between a team and itself, each game a team played is exactly one of win, loss, tie. */
  lemma {:induction false} OutcomesPartitionGames(games: seq<Game>, team: Team)
    requires forall g :: g in games ==> g.homeTeam != g.awayTeam
    ensures |Filter(games, Outcome(team, Win))| + |Filter(games, Outcome(team, Loss))| + |Filter(games, Outcome(team, Tie))|
         == |Filter(games, Involving(team))|
  {
    if games != [] {
      OutcomesPartitionGames(games[1..], team);
    }
  }

  /**
   * Wins, losses and ties add up to the number of counted games the team
   * played in, when no game lists the same team on both sides.
   */
  lemma RecordTotalsGamesPlayed(schedule: seq<Game>, team: Team, throughWeek: Option<int>)
    requires forall g :: g in schedule ==> g.homeTeam != g.awayTeam
    ensures var record := GetTeamRecord(schedule, team, throughWeek);
      record.wins + record.losses + record.ties == |Filter(CountedGames(schedule, throughWeek), Involving(team))|
  {
    OutcomesPartitionGames(CountedGames(schedule, throughWeek), team);
  }

  /** A record does not depend on the order of the rows of the schedule. */
  lemma RecordPermutation(a: seq<Game>, b: seq<Game>, team: Team, throughWeek: Option<int>)
    requires multiset(a) == multiset(b)
    ensures GetTeamRecord(a, team, throughWeek) == GetTeamRecord(b, team, throughWeek)
  {
    FilterPermutation(a, b, Completed);
    var gamesA, gamesB := CountedGames(a, throughWeek), CountedGames(b, throughWeek);
    if Limited(throughWeek) {
      FilterPermutation(GetGameResults(a), GetGameResults(b), ThroughWeek(throughWeek.value));
    }
    assert multiset(gamesA) == multiset(gamesB);
    FilterPermutation(gamesA, gamesB, Outcome(team, Win));
    FilterPermutation(gamesA, gamesB, Outcome(team, Loss));
    FilterPermutation(gamesA, gamesB, Outcome(team, Tie));
  }

  /**
   * A week limit never raises a component of the record; a limit of 0, or one
   * at or past the latest completed week, gives the full record.
   */
  lemma RecordThroughWeek(schedule: seq<Game>, team: Team, limit: int, kind: Kind)
    ensures KindCount(GetTeamRecord(schedule, team, Some(limit)), kind) <=
            KindCount(GetTeamRecord(schedule, team, None), kind)
    ensures limit == 0 || limit >= GetCurrentWeek(schedule) ==>
              GetTeamRecord(schedule, team, Some(limit)) == GetTeamRecord(schedule, team, None)
  {
    RecordKind(schedule, team, Some(limit), kind);
    RecordKind(schedule, team, None, kind);
    var completed := GetGameResults(schedule);
    if limit != 0 {
      FilterCommute(completed, ThroughWeek(limit), Outcome(team, kind));
      if limit >= GetCurrentWeek(schedule) {
        FilterKeepsAll(completed, ThroughWeek(limit));
      }
    }
  }

  /** Win percentage, a tie counting as half a win; 0 for a team with no games. */
  function CalculateWinPercentage(wins: nat, losses: nat, ties: nat): (pct: real)
    ensures wins + losses + ties == 0 ==> pct == 0.0
    ensures wins + losses + ties > 0 ==>
      pct * (wins + losses + ties) as real == wins as real + ties as real / 2.0
    ensures 0.0 <= pct <= 1.0
  {
    var totalGames := wins + losses + ties;
    if totalGames == 0 then 0.0
    else
      var share := wins as real + 0.5 * ties as real;
      assert 0.0 <= share <= totalGames as real;
      share / totalGames as real
  }

  /** The percentage is 1 exactly for an unbeaten, untied record and 0 exactly without wins or ties. */
  lemma WinPercentageExtremes(wins: nat, losses: nat, ties: nat)
    ensures CalculateWinPercentage(wins, losses, ties) == 1.0 <==> wins > 0 && losses == 0 && ties == 0
    ensures CalculateWinPercentage(wins, losses, ties) == 0.0 <==> wins == 0 && ties == 0
  {
    var pct := CalculateWinPercentage(wins, losses, ties);
    var n := (wins + losses + ties) as real;
    if wins + losses + ties > 0 {
      assert pct * n == wins as real + ties as real / 2.0;
      if pct == 1.0 {
        assert n == wins as real + ties as real / 2.0;
      }
    }
  }
}
