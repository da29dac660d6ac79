/**
 * The order of team abbreviations: Python's `<` on `str`, which compares
 * code points from the left and puts a proper prefix first, and `sorted` over
 * the set of teams (scripts/calculate_rankings.py, `sorted(teams)`).
 */
module TeamOrder {
  import opened Schedule

  predicate LexLess(a: string, b: string)
    ensures |a| < |b| && a == b[..|a|] ==> LexLess(a, b)
  {
    if |a| == 0 then |b| > 0
    else if |b| == 0 then false
    else if a[0] != b[0] then a[0] < b[0]
    else LexLess(a[1..], b[1..])
  }

  lemma {:induction false} LexLessIrreflexive(a: string)
    ensures !LexLess(a, a)
  {
    if |a| > 0 {
      LexLessIrreflexive(a[1..]);
    }
  }

  lemma {:induction false} LexLessAsymmetric(a: string, b: string)
    ensures LexLess(a, b) ==> !LexLess(b, a)
  {
    if |a| > 0 && |b| > 0 && a[0] == b[0] {
      LexLessAsymmetric(a[1..], b[1..]);
    }
  }

  lemma {:induction false} LexLessTransitive(a: string, b: string, c: string)
    requires LexLess(a, b) && LexLess(b, c)
    ensures LexLess(a, c)
  {
    if |a| > 0 && |b| > 0 && |c| > 0 && a[0] == b[0] && b[0] == c[0] {
      LexLessTransitive(a[1..], b[1..], c[1..]);
    }
  }

  lemma {:induction false} LexLessTotal(a: string, b: string)
    requires a != b
    ensures LexLess(a, b) || LexLess(b, a)
  {
    if |a| > 0 && |b| > 0 && a[0] == b[0] {
      assert a == [a[0]] + a[1..] && b == [b[0]] + b[1..];
      LexLessTotal(a[1..], b[1..]);
    }
  }

  /** Every non-empty set of teams has a first team in this order. */
  lemma {:induction false} FirstTeam(teams: set<Team>) returns (first: Team)
    requires teams != {}
    ensures first in teams
    ensures forall t :: t in teams && t != first ==> LexLess(first, t)
    decreases teams
  {
    var x :| x in teams;
    if teams == {x} {
      first := x;
    } else {
      var rest := FirstTeam(teams - {x});
      if LexLess(x, rest) {
        first := x;
        forall t | t in teams && t != x
          ensures LexLess(x, t)
        {
          if t != rest {
            LexLessTransitive(x, rest, t);
          }
        }
      } else {
        LexLessTotal(x, rest);
        first := rest;
      }
    }
  }

  /** Strictly ascending: so also free of duplicates. */
  predicate Ascending(teams: seq<Team>) {
    forall i, j :: 0 <= i < j < |teams| ==> LexLess(teams[i], teams[j])
  }

  /** `sorted(teams)`: the teams of the set, each once, in ascending order. */
  method SortTeams(teams: set<Team>) returns (sorted: seq<Team>)
    ensures Ascending(sorted)
    ensures forall t :: t in sorted <==> t in teams
    ensures |sorted| == |teams|
  {
    sorted := [];
    var rest := teams;
    while rest != {}
      invariant rest <= teams
      invariant forall t :: t in sorted <==> t in teams && t !in rest
      invariant Ascending(sorted)
      invariant forall t, u :: t in sorted && u in rest ==> LexLess(t, u)
      invariant |sorted| + |rest| == |teams|
      decreases rest
    {
      ghost var least := FirstTeam(rest);
      var first :| first in rest && forall t :: t in rest && t != first ==> LexLess(first, t);
      sorted := sorted + [first];
      rest := rest - {first};
    }
  }
}
