/**
 * The season schedule as a sequence of game records, and the boolean-mask
 * filters the ranking script applies to it (scripts/calculate_rankings.py).
 */
module Schedule {

  datatype Option<T> = None | Some(value: T)

  /** A team abbreviation such as "KC". */
  type Team = string

  /**
   * One row of the schedule. `result` is the home score minus the away score:
   * above 0 the home team won, below 0 the away team won, 0 is a tie.
   * The scores are absent for a game that has not been played yet.
   */
  datatype Game = Game(
    week: int,
    homeTeam: Team,
    awayTeam: Team,
    homeScore: Option<int>,
    awayScore: Option<int>,
    result: int)

  /** What a game means for one team, as counted in a record. */
  datatype Kind = Win | Loss | Tie

  /** True when `game` is a `kind` for `team`, by the sign of `result` and the side `team` played. */
  predicate Counts(game: Game, team: Team, kind: Kind)
    ensures Counts(game, team, kind) ==> game.homeTeam == team || game.awayTeam == team
  {
    match kind
    case Win => (game.homeTeam == team && game.result > 0) || (game.awayTeam == team && game.result < 0)
    case Loss => (game.homeTeam == team && game.result < 0) || (game.awayTeam == team && game.result > 0)
    case Tie => (game.homeTeam == team || game.awayTeam == team) && game.result == 0
  }

  /** The boolean masks the script selects rows with. */
  datatype Mask =
    | Completed                        // home_score is present
    | ThroughWeek(limit: int)          // week <= limit
    | Outcome(team: Team, kind: Kind)  // a win, loss or tie of `team`
    | Involving(team: Team)            // `team` is the home or the away side

  predicate Keeps(mask: Mask, game: Game) {
    match mask
    case Completed => game.homeScore.Some?
    case ThroughWeek(limit) => game.week <= limit
    case Outcome(team, kind) => Counts(game, team, kind)
    case Involving(team) => game.homeTeam == team || game.awayTeam == team
  }

  /** The rows of `games` the mask selects, in their original order. */
  function Filter(games: seq<Game>, mask: Mask): (kept: seq<Game>)
    ensures |kept| <= |games|
    ensures forall g :: g in kept <==> g in games && Keeps(mask, g)
  {
    if games == [] then []
    else if Keeps(mask, games[0]) then [games[0]] + Filter(games[1..], mask)
    else Filter(games[1..], mask)
  }

  /** Filtering distributes over concatenation: the order of the kept rows is the input order. */
  lemma {:induction false} FilterAppend(a: seq<Game>, b: seq<Game>, mask: Mask)
    ensures Filter(a + b, mask) == Filter(a, mask) + Filter(b, mask)
  {
    if a == [] {
      assert a + b == b;
    } else {
      assert (a + b)[0] == a[0];
      assert (a + b)[1..] == a[1..] + b;
      FilterAppend(a[1..], b, mask);
    }
  }

  /** How often each game occurs among the kept rows. */
  lemma {:induction false} FilterMultiset(games: seq<Game>, mask: Mask)
    ensures forall g :: multiset(Filter(games, mask))[g] == if Keeps(mask, g) then multiset(games)[g] else 0
  {
    if games != [] {
      FilterMultiset(games[1..], mask);
      assert games == [games[0]] + games[1..];
      assert multiset(games) == multiset{games[0]} + multiset(games[1..]);
    }
  }

  /** Filtering a reordering of the schedule keeps a reordering of the same rows. */
  lemma FilterPermutation(a: seq<Game>, b: seq<Game>, mask: Mask)
    requires multiset(a) == multiset(b)
    ensures multiset(Filter(a, mask)) == multiset(Filter(b, mask))
    ensures |Filter(a, mask)| == |Filter(b, mask)|
  {
    FilterMultiset(a, mask);
    FilterMultiset(b, mask);
    assert multiset(Filter(a, mask)) == multiset(Filter(b, mask));
    assert |multiset(Filter(a, mask))| == |Filter(a, mask)|;
  }

  /** A mask that every row passes changes nothing. */
  lemma {:induction false} FilterKeepsAll(games: seq<Game>, mask: Mask)
    requires forall g :: g in games ==> Keeps(mask, g)
    ensures Filter(games, mask) == games
  {
    if games != [] {
      FilterKeepsAll(games[1..], mask);
    }
  }

  /** Two masks applied one after the other select the same rows in either order. */
  lemma {:induction false} FilterCommute(games: seq<Game>, first: Mask, second: Mask)
    ensures Filter(Filter(games, first), second) == Filter(Filter(games, second), first)
  {
    if games != [] {
      FilterCommute(games[1..], first, second);
    }
  }

  /** Completed-game filter (get_game_results): rows whose home score is present. */
  function GetGameResults(schedule: seq<Game>): (completed: seq<Game>)
    ensures forall g :: g in completed <==> g in schedule && g.homeScore.Some?
  {
    Filter(schedule, Completed)
  }

  /** Filtering the completed games again changes nothing. */
  lemma GameResultsIdempotent(schedule: seq<Game>)
    ensures GetGameResults(GetGameResults(schedule)) == GetGameResults(schedule)
  {
    FilterKeepsAll(GetGameResults(schedule), Completed);
  }

  /** The largest week among a non-empty list of games. */
  function MaxWeek(games: seq<Game>): (week: int)
    requires games != []
    ensures forall g :: g in games ==> g.week <= week
    ensures exists g :: g in games && g.week == week
  {
    if |games| == 1 then games[0].week
    else
      var rest := MaxWeek(games[1..]);
      assert forall g :: g in games[1..] ==> g in games;
      if games[0].week >= rest then games[0].week else rest
  }

  /** The latest completed week (get_current_week), 0 when no game is completed. */
  function GetCurrentWeek(schedule: seq<Game>): (week: int)
    ensures (forall g :: g in schedule ==> g.homeScore.None?) ==> week == 0
    ensures forall g :: g in schedule && g.homeScore.Some? ==> g.week <= week
    ensures (exists g :: g in schedule && g.homeScore.Some?) ==>
              exists g :: g in schedule && g.homeScore.Some? && g.week == week
  {
    var completed := GetGameResults(schedule);
    if completed == [] then 0 else MaxWeek(completed)
  }

  /** The columns the script needs before it computes anything. */
  const RequiredFields: seq<string> := ["week", "home_team", "away_team", "home_score", "away_score", "result"]

  /** The required fields absent from `columns`, in the order they are listed. */
  function MissingFields(required: seq<string>, columns: set<string>): (missing: seq<string>)
    ensures |missing| <= |required|
    ensures forall f :: f in missing <==> f in required && f !in columns
  {
    if required == [] then []
    else (if required[0] in columns then [] else [required[0]]) + MissingFields(required[1..], columns)
  }

  /** Schema check (validate_data) over the set of column names of the schedule table. */
  function ValidateData(columns: set<string>): (valid: bool)
    ensures valid <==> forall i :: 0 <= i < |RequiredFields| ==> RequiredFields[i] in columns
  {
    var missing := MissingFields(RequiredFields, columns);
    assert missing != [] ==> missing[0] in missing;
    missing == []
  }

  /** Splits a reordering at the position of the first element of the original. */
  lemma PermutationSplit<T>(a: seq<T>, b: seq<T>) returns (j: nat)
    requires a != [] && multiset(a) == multiset(b)
    ensures j < |b| && b[j] == a[0]
    ensures multiset(a[1..]) == multiset(b[..j] + b[j + 1..])
  {
    assert a == [a[0]] + a[1..];
    assert a[0] in multiset(b);
    j :| 0 <= j < |b| && b[j] == a[0];
    assert b == b[..j] + [b[j]] + b[j + 1..];
    assert multiset(b) == multiset(b[..j]) + multiset{a[0]} + multiset(b[j + 1..]);
    assert multiset(b[..j] + b[j + 1..]) == multiset(b[..j]) + multiset(b[j + 1..]);
    assert multiset(a) == multiset{a[0]} + multiset(a[1..]);
    assert multiset(a[1..]) == multiset(a) - multiset{a[0]};
    assert multiset(b[..j] + b[j + 1..]) == multiset(b) - multiset{a[0]};
  }

  /** The prefix of length i + 1 is the prefix of length i followed by element i. */
  lemma PrefixStep<T>(s: seq<T>, i: nat)
    requires i < |s|
    ensures s[..i + 1] == s[..i] + [s[i]]
  {
  }

  lemma AppendAssociative<T>(a: seq<T>, b: seq<T>, c: seq<T>)
    ensures a + (b + c) == (a + b) + c
  {
  }

  lemma PrefixWhole<T>(s: seq<T>)
    ensures s[..|s|] == s
  {
  }
}
