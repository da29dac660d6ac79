/**
 * Weighted wins and weighted losses (calculate_weighted_wins,
 * calculate_weighted_losses) and the total score (calculate_total_score).
 *
 * Every game a team won is weighted by its opponent's win count, and every
 * game it lost by its opponent's loss count, both taken over ALL completed
 * games of the schedule: past games are re-scored against the opponent's
 * current record, not its record in the week the game was played.
 */
module Weights {
  import opened Schedule
  import opened Records

  /** The other side of `game` for `team` (the home team whenever `team` is not at home). */
  function Opponent(game: Game, team: Team): (other: Team)
    ensures other == game.homeTeam || other == game.awayTeam
    ensures game.homeTeam == team || game.awayTeam == team ==>
              (other == team <==> game.homeTeam == game.awayTeam)
  {
    if game.homeTeam == team then game.awayTeam else game.homeTeam
  }

  /** The opponent's `kind` count over every completed game of the schedule. */
  function OpponentCount(schedule: seq<Game>, game: Game, team: Team, kind: Kind): nat {
    KindCount(GetTeamRecord(schedule, Opponent(game, team), None), kind)
  }

  /** Over the games of `games` that are a `kind` for `team`, the sum of the opponents' `kind` counts. */
  function OpponentSum(games: seq<Game>, schedule: seq<Game>, team: Team, kind: Kind): nat {
    if games == [] then 0
    else (if Counts(games[0], team, kind) then OpponentCount(schedule, games[0], team, kind) else 0)
         + OpponentSum(games[1..], schedule, team, kind)
  }

  /** Weighted wins: over the completed games `team` won, the sum of the opponents' win counts. */
  function WeightedWins(schedule: seq<Game>, team: Team): (score: int)
    ensures score >= 0
  {
    OpponentSum(GetGameResults(schedule), schedule, team, Win)
  }

  /** Weighted losses: over the completed games `team` lost, minus the sum of the opponents' loss counts. */
  function WeightedLosses(schedule: seq<Game>, team: Team): (score: int)
    ensures score <= 0
  {
    -(OpponentSum(GetGameResults(schedule), schedule, team, Loss) as int)
  }

  lemma {:induction false} OpponentSumAppend(a: seq<Game>, b: seq<Game>, schedule: seq<Game>, team: Team, kind: Kind)
    ensures OpponentSum(a + b, schedule, team, kind) == OpponentSum(a, schedule, team, kind) + OpponentSum(b, schedule, team, kind)
  {
    if a == [] {
      assert a + b == b;
    } else {
      assert (a + b)[0] == a[0];
      assert (a + b)[1..] == a[1..] + b;
      OpponentSumAppend(a[1..], b, schedule, team, kind);
    }
  }

  /** One more game of the right kind adds its opponent's count. */
  lemma OpponentSumStep(games: seq<Game>, game: Game, schedule: seq<Game>, team: Team, kind: Kind)
    requires Counts(game, team, kind)
    ensures OpponentSum(games + [game], schedule, team, kind) ==
            OpponentSum(games, schedule, team, kind) + OpponentCount(schedule, game, team, kind)
  {
    OpponentSumAppend(games, [game], schedule, team, kind);
    assert [game][1..] == [];
  }

  /** Summing over only the games of the right kind (the script's pre-filter) gives the same sum. */
  lemma {:induction false} OpponentSumOfSelected(games: seq<Game>, schedule: seq<Game>, team: Team, kind: Kind)
    ensures OpponentSum(Filter(games, Outcome(team, kind)), schedule, team, kind) == OpponentSum(games, schedule, team, kind)
  {
    if games != [] {
      OpponentSumOfSelected(games[1..], schedule, team, kind);
    }
  }

  /** The sum is zero exactly when every opponent in a game of the right kind has a zero count. */
  lemma {:induction false} OpponentSumZero(games: seq<Game>, schedule: seq<Game>, team: Team, kind: Kind)
    ensures OpponentSum(games, schedule, team, kind) == 0 <==>
      forall g :: g in games && Counts(g, team, kind) ==> OpponentCount(schedule, g, team, kind) == 0
  {
    if games != [] {
      OpponentSumZero(games[1..], schedule, team, kind);
      assert forall g :: g in games <==> g == games[0] || g in games[1..];
    }
  }

  /** No opponent count exceeds the number of completed games, so each game adds at most that much. */
  lemma {:induction false} OpponentSumBound(games: seq<Game>, schedule: seq<Game>, team: Team, kind: Kind)
    ensures OpponentSum(games, schedule, team, kind) <= |Filter(games, Outcome(team, kind))| * |GetGameResults(schedule)|
  {
    if games != [] {
      OpponentSumBound(games[1..], schedule, team, kind);
      var n := |GetGameResults(schedule)|;
      var rest := |Filter(games[1..], Outcome(team, kind))|;
      var head := if Counts(games[0], team, kind) then OpponentCount(schedule, games[0], team, kind) else 0;
      assert OpponentSum(games, schedule, team, kind) == head + OpponentSum(games[1..], schedule, team, kind);
      if Counts(games[0], team, kind) {
        RecordKind(schedule, Opponent(games[0], team), None, kind);
        assert head <= n;
        assert |Filter(games, Outcome(team, kind))| == rest + 1;
        MultiplyOneMore(rest, n);
      }
    }
  }

  lemma MultiplyOneMore(k: nat, n: nat)
    ensures (k + 1) * n == k * n + n
  {
  }

  /**
   * When every team's `kind` count is at least as large under `later` as under
   * `earlier`, the sum is at least as large; it is strictly larger when some
   * game of the right kind has an opponent whose count grew.
   */
  lemma {:induction false} OpponentSumMonotone(games: seq<Game>, earlier: seq<Game>, later: seq<Game>, team: Team, kind: Kind)
    requires forall x :: KindCount(GetTeamRecord(earlier, x, None), kind) <= KindCount(GetTeamRecord(later, x, None), kind)
    ensures OpponentSum(games, earlier, team, kind) <= OpponentSum(games, later, team, kind)
    ensures (exists g :: g in games && Counts(g, team, kind) &&
               OpponentCount(earlier, g, team, kind) < OpponentCount(later, g, team, kind)) ==>
            OpponentSum(games, earlier, team, kind) < OpponentSum(games, later, team, kind)
  {
    if games != [] {
      OpponentSumMonotone(games[1..], earlier, later, team, kind);
      assert forall g :: g in games <==> g == games[0] || g in games[1..];
      assert OpponentCount(earlier, games[0], team, kind) <= OpponentCount(later, games[0], team, kind);
    }
  }

  /** A sum over a reordering of the games is the same sum. */
  lemma {:induction false} OpponentSumPermutation(a: seq<Game>, b: seq<Game>, schedule: seq<Game>, team: Team, kind: Kind)
    requires multiset(a) == multiset(b)
    ensures OpponentSum(a, schedule, team, kind) == OpponentSum(b, schedule, team, kind)
    decreases |a|
  {
    if a == [] {
      assert |b| == |multiset(b)| == 0;
    } else {
      var j := PermutationSplit(a, b);
      OpponentSumPermutation(a[1..], b[..j] + b[j + 1..], schedule, team, kind);
      var before, after := b[..j], b[j + 1..];
      assert b == before + ([b[j]] + after);
      OpponentSumAppend(before, [b[j]] + after, schedule, team, kind);
      OpponentSumAppend(before, after, schedule, team, kind);
      assert ([b[j]] + after)[1..] == after;
    }
  }

  /** Weighted wins (calculate_weighted_wins): the won games, each weighted by the opponent's current wins. */
  method CalculateWeightedWins(schedule: seq<Game>, team: Team) returns (weightedWins: int)
    ensures weightedWins == WeightedWins(schedule, team)
  {
    var completed := GetGameResults(schedule);
    var teamWins := Filter(completed, Outcome(team, Win));
    weightedWins := 0;
    for i := 0 to |teamWins|
      invariant weightedWins == OpponentSum(teamWins[..i], schedule, team, Win)
    {
      var game := teamWins[i];
      var opponent := if game.homeTeam == team then game.awayTeam else game.homeTeam;
      var oppRecord := GetTeamRecord(schedule, opponent, None);
      PrefixStep(teamWins, i);
      OpponentSumStep(teamWins[..i], game, schedule, team, Win);
      weightedWins := weightedWins + oppRecord.wins;
    }
    PrefixWhole(teamWins);
    OpponentSumOfSelected(completed, schedule, team, Win);
  }

  /** Weighted losses (calculate_weighted_losses): the lost games, each subtracting the opponent's current losses. */
  method CalculateWeightedLosses(schedule: seq<Game>, team: Team) returns (weightedLosses: int)
    ensures weightedLosses == WeightedLosses(schedule, team)
  {
    var completed := GetGameResults(schedule);
    var teamLosses := Filter(completed, Outcome(team, Loss));
    weightedLosses := 0;
    for i := 0 to |teamLosses|
      invariant weightedLosses == -(OpponentSum(teamLosses[..i], schedule, team, Loss) as int)
    {
      var game := teamLosses[i];
      var opponent := if game.homeTeam == team then game.awayTeam else game.homeTeam;
      var oppRecord := GetTeamRecord(schedule, opponent, None);
      PrefixStep(teamLosses, i);
      OpponentSumStep(teamLosses[..i], game, schedule, team, Loss);
      weightedLosses := weightedLosses - oppRecord.losses;
    }
    PrefixWhole(teamLosses);
    OpponentSumOfSelected(completed, schedule, team, Loss);
  }

  /** Total score (calculate_total_score): weighted wins plus the (non-positive) weighted losses. */
  function CalculateTotalScore(weightedWins: int, weightedLosses: int): (total: int)
    ensures weightedLosses == 0 ==> total == weightedWins
    ensures weightedWins == 0 ==> total == weightedLosses
    ensures weightedLosses <= 0 ==> total <= weightedWins
    ensures weightedWins >= 0 ==> total >= weightedLosses
  {
    weightedWins + weightedLosses
  }

  /** Weighted wins lie between 0 and wins times the number of completed games; 0 without a win. */
  lemma WeightedWinsBound(schedule: seq<Game>, team: Team)
    ensures 0 <= WeightedWins(schedule, team) <= GetTeamRecord(schedule, team, None).wins * |GetGameResults(schedule)|
    ensures GetTeamRecord(schedule, team, None).wins == 0 ==> WeightedWins(schedule, team) == 0
  {
    OpponentSumBound(GetGameResults(schedule), schedule, team, Win);
    RecordKind(schedule, team, None, Win);
  }

  /** Weighted losses lie between minus losses times the number of completed games and 0; 0 without a loss. */
  lemma WeightedLossesBound(schedule: seq<Game>, team: Team)
    ensures -(GetTeamRecord(schedule, team, None).losses * |GetGameResults(schedule)|) <= WeightedLosses(schedule, team) <= 0
    ensures GetTeamRecord(schedule, team, None).losses == 0 ==> WeightedLosses(schedule, team) == 0
  {
    OpponentSumBound(GetGameResults(schedule), schedule, team, Loss);
    RecordKind(schedule, team, None, Loss);
  }

  /** Weighted wins are positive exactly when the team beat some opponent that has won a game. */
  lemma WeightedWinsPositive(schedule: seq<Game>, team: Team)
    ensures WeightedWins(schedule, team) > 0 <==>
      exists g :: g in schedule && g.homeScore.Some? && Counts(g, team, Win) &&
        GetTeamRecord(schedule, Opponent(g, team), None).wins > 0
  {
    OpponentSumZero(GetGameResults(schedule), schedule, team, Win);
  }

  /** Weighted losses are negative exactly when the team lost to some opponent that has lost a game. */
  lemma WeightedLossesNegative(schedule: seq<Game>, team: Team)
    ensures WeightedLosses(schedule, team) < 0 <==>
      exists g :: g in schedule && g.homeScore.Some? && Counts(g, team, Loss) &&
        GetTeamRecord(schedule, Opponent(g, team), None).losses > 0
  {
    OpponentSumZero(GetGameResults(schedule), schedule, team, Loss);
  }

  /** Weighted scores do not depend on the order of the rows of the schedule. */
  lemma WeightedScoresPermutation(a: seq<Game>, b: seq<Game>, team: Team)
    requires multiset(a) == multiset(b)
    ensures WeightedWins(a, team) == WeightedWins(b, team)
    ensures WeightedLosses(a, team) == WeightedLosses(b, team)
  {
    FilterPermutation(a, b, Completed);
    forall x
      ensures GetTeamRecord(a, x, None) == GetTeamRecord(b, x, None)
    {
      RecordPermutation(a, b, x, None);
    }
    forall kind | kind == Win || kind == Loss
      ensures OpponentSum(GetGameResults(a), a, team, kind) == OpponentSum(GetGameResults(b), b, team, kind)
    {
      OpponentSumPermutation(GetGameResults(a), GetGameResults(b), a, team, kind);
      OpponentSumMonotone(GetGameResults(b), a, b, team, kind);
      OpponentSumMonotone(GetGameResults(b), b, a, team, kind);
    }
  }

  /** Appending a row never lowers any team's count of any kind. */
  lemma CountsGrowWithSchedule(schedule: seq<Game>, game: Game, kind: Kind)
    ensures forall x :: KindCount(GetTeamRecord(schedule, x, None), kind) <= KindCount(GetTeamRecord(schedule + [game], x, None), kind)
  {
    forall x
      ensures KindCount(GetTeamRecord(schedule, x, None), kind) <= KindCount(GetTeamRecord(schedule + [game], x, None), kind)
    {
      RecordOfAppendedGame(schedule, game, x, None, kind);
    }
  }

  /**
   * Past games are re-scored against current records: a new result never
   * lowers a team's weighted wins nor raises its weighted losses, and it
   * raises the weighted wins of every team that earlier beat the new game's
   * winner (lowers the weighted losses of every team that earlier lost to the
   * new game's loser).
   */
  lemma RescoredAgainstCurrentRecords(schedule: seq<Game>, game: Game, team: Team)
    ensures WeightedWins(schedule + [game], team) >= WeightedWins(schedule, team)
    ensures WeightedLosses(schedule + [game], team) <= WeightedLosses(schedule, team)
    ensures game.homeScore.Some? &&
            (exists g :: g in schedule && g.homeScore.Some? && Counts(g, team, Win) && Counts(game, Opponent(g, team), Win))
            ==>
            WeightedWins(schedule + [game], team) > WeightedWins(schedule, team)
    ensures game.homeScore.Some? &&
            (exists g :: g in schedule && g.homeScore.Some? && Counts(g, team, Loss) && Counts(game, Opponent(g, team), Loss))
            ==>
            WeightedLosses(schedule + [game], team) < WeightedLosses(schedule, team)
  {
    var later := schedule + [game];
    var completed := GetGameResults(schedule);
    FilterAppend(schedule, [game], Completed);
    forall kind | kind == Win || kind == Loss
      ensures OpponentSum(completed, schedule, team, kind) <= OpponentSum(GetGameResults(later), later, team, kind)
      ensures game.homeScore.Some? &&
              (exists g :: g in schedule && g.homeScore.Some? && Counts(g, team, kind) && Counts(game, Opponent(g, team), kind))
              ==>
              OpponentSum(completed, schedule, team, kind) < OpponentSum(GetGameResults(later), later, team, kind)
    {
      CountsGrowWithSchedule(schedule, game, kind);
      OpponentSumMonotone(completed, schedule, later, team, kind);
      OpponentSumAppend(completed, Filter([game], Completed), later, team, kind);
      if game.homeScore.Some? &&
         exists g :: g in schedule && g.homeScore.Some? && Counts(g, team, kind) && Counts(game, Opponent(g, team), kind)
      {
        var g :| g in schedule && g.homeScore.Some? && Counts(g, team, kind) && Counts(game, Opponent(g, team), kind);
        RecordOfAppendedGame(schedule, game, Opponent(g, team), None, kind);
        assert g in completed;
      }
    }
  }

  /** A tied game, once completed, changes no team's weighted wins or weighted losses. */
  lemma TieChangesNoWeights(schedule: seq<Game>, game: Game, team: Team)
    requires game.result == 0
    ensures WeightedWins(schedule + [game], team) == WeightedWins(schedule, team)
    ensures WeightedLosses(schedule + [game], team) == WeightedLosses(schedule, team)
  {
    var later := schedule + [game];
    var completed := GetGameResults(schedule);
    FilterAppend(schedule, [game], Completed);
    forall kind | kind == Win || kind == Loss
      ensures OpponentSum(completed, schedule, team, kind) == OpponentSum(GetGameResults(later), later, team, kind)
    {
      forall x
        ensures KindCount(GetTeamRecord(schedule, x, None), kind) == KindCount(GetTeamRecord(later, x, None), kind)
      {
        RecordOfAppendedGame(schedule, game, x, None, kind);
      }
      OpponentSumMonotone(completed, schedule, later, team, kind);
      OpponentSumMonotone(completed, later, schedule, team, kind);
      OpponentSumAppend(completed, Filter([game], Completed), later, team, kind);
    }
  }
}
