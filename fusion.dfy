/** Reciprocal-rank fusion, the meaning of the hybrid SQL query: the vector branch and the
    full-text branch each give a ranked list of ids (already cut to 20 rows); every id in either
    list scores `1/(60 + rank)` from each list it appears in (0 from a list it is absent from);
    the ids are ordered by score, highest first, and the first 20 are kept.
    SQL's `RANK()` gives tied rows the same rank; here rank is the 1-based position, which is
    the same when the branch has no ties. The order among equal fused scores, which SQL leaves
    unspecified, is fixed here as: vector-branch order, then text-only ids in text order. */
module Fusion {
  import opened Common

  /** The RRF constant `k`. */
  const RrfK := 60
  /** The `LIMIT` of each branch and of the fused result. */
  const BranchLimit := 20

  /** The 1-based rank of `x` in a branch. */
  function Rank<T(==,!new)>(branch: seq<T>, x: T): (r: nat)
    requires x in branch
    ensures 1 <= r <= |branch|
    ensures branch[r - 1] == x && x !in branch[..r - 1]
  {
    IndexOf(branch, x) + 1
  }

  /** What one branch adds to the fused score of `x`: `COALESCE(1.0 / (k + rank), 0.0)`. */
  function Contribution<T(==,!new)>(branch: seq<T>, x: T): real
  {
    if x in branch then 1.0 / (RrfK + Rank(branch, x)) as real else 0.0
  }

  /** The fused score of `x`. */
  function Score<T(==,!new)>(v: seq<T>, t: seq<T>, x: T): real
  {
    Contribution(v, x) + Contribution(t, x)
  }

  /** The ids of `t` that are not in `v`, in `t`'s order. */
  function Missing<T(==,!new)>(t: seq<T>, v: seq<T>): (r: seq<T>)
    ensures forall x :: x in r <==> x in t && x !in v
    ensures Distinct(t) ==> Distinct(r)
  {
    if t == [] then []
    else
      var rest := Missing(t[1..], v);
      if t[0] in v then rest
      else
        assert Distinct(t) ==> t[0] !in t[1..];
        [t[0]] + rest
  }

  /** The rows of the full outer join: every id of either branch, once. */
  function UnionIds<T(==,!new)>(v: seq<T>, t: seq<T>): (r: seq<T>)
    ensures forall x :: x in r <==> x in v || x in t
    ensures Distinct(v) && Distinct(t) ==> Distinct(r)
  {
    var m := Missing(t, v);
    var r := v + m;
    assert Distinct(v) && Distinct(t) ==> forall i, j :: 0 <= i < j < |r| ==> r[i] != r[j] by {
      if Distinct(v) && Distinct(t) {
        forall i, j | 0 <= i < j < |r| ensures r[i] != r[j] {
          if j >= |v| && i < |v| {
            assert r[j] == m[j - |v|] && r[j] in m;
          } else if j >= |v| {
            assert r[i] == m[i - |v|] && r[j] == m[j - |v|];
          }
        }
      }
    }
    r
  }

  /** Non-increasing in fused score: `ORDER BY score DESC`. */
  predicate SortedByScore<T(==,!new)>(v: seq<T>, t: seq<T>, s: seq<T>)
  {
    forall i, j :: 0 <= i < j < |s| ==> Score(v, t, s[i]) >= Score(v, t, s[j])
  }

  /** Putting `h` in front of a sorted list keeps it sorted when `h` scores at least as much as
      every element. */
  lemma SortedCons<T(!new)>(v: seq<T>, t: seq<T>, h: T, s: seq<T>)
    requires SortedByScore(v, t, s)
    requires forall y :: y in s ==> Score(v, t, h) >= Score(v, t, y)
    ensures SortedByScore(v, t, [h] + s)
  {
    var r := [h] + s;
    forall i, j | 0 <= i < j < |r| ensures Score(v, t, r[i]) >= Score(v, t, r[j]) {
      assert r[j] == s[j - 1];
      if i > 0 {
        assert r[i] == s[i - 1];
      }
    }
  }

  /** The tail of a sorted list is sorted, and its head scores at least as much as every element
      of the tail. */
  lemma HeadIsTop<T(!new)>(v: seq<T>, t: seq<T>, s: seq<T>)
    requires SortedByScore(v, t, s) && s != []
    ensures SortedByScore(v, t, s[1..])
    ensures forall y :: y in s[1..] ==> Score(v, t, s[0]) >= Score(v, t, y)
  {
    var tail := s[1..];
    forall i, j | 0 <= i < j < |tail| ensures Score(v, t, tail[i]) >= Score(v, t, tail[j]) {
      assert tail[i] == s[i + 1] && tail[j] == s[j + 1];
    }
    forall y | y in tail ensures Score(v, t, s[0]) >= Score(v, t, y) {
      var k :| 0 <= k < |tail| && tail[k] == y;
      assert s[k + 1] == y;
    }
  }

  /** A sequence holding the elements of `s` and `x` holds nothing else. */
  lemma MembersOfInsert<T>(r: seq<T>, x: T, s: seq<T>)
    requires multiset(r) == multiset(s) + multiset{x}
    ensures forall y :: y in r ==> y == x || y in s
  {
    forall y | y in r ensures y == x || y in s {
      assert y in multiset(r);
    }
  }

  /** Insert `x` after every element scoring at least as much. */
  function Insert<T(==,!new)>(v: seq<T>, t: seq<T>, x: T, s: seq<T>): (r: seq<T>)
    requires SortedByScore(v, t, s)
    ensures SortedByScore(v, t, r)
    ensures multiset(r) == multiset(s) + multiset{x}
  {
    if s == [] then [x]
    else if Score(v, t, s[0]) >= Score(v, t, x) then
      HeadIsTop(v, t, s);
      var rest := Insert(v, t, x, s[1..]);
      assert s == [s[0]] + s[1..];
      MembersOfInsert(rest, x, s[1..]);
      SortedCons(v, t, s[0], rest);
      [s[0]] + rest
    else
      HeadIsTop(v, t, s);
      SortedCons(v, t, x, s);
      [x] + s
  }

  /** Inserting an id that is not yet present keeps the ids distinct. */
  lemma {:induction false} InsertKeepsDistinct<T(!new)>(v: seq<T>, t: seq<T>, x: T, s: seq<T>)
    requires SortedByScore(v, t, s) && Distinct(s) && x !in s
    ensures Distinct(Insert(v, t, x, s))
  {
    if s != [] && Score(v, t, s[0]) >= Score(v, t, x) {
      assert s == [s[0]] + s[1..];
      InsertKeepsDistinct(v, t, x, s[1..]);
      var rest := Insert(v, t, x, s[1..]);
      assert s[0] !in rest by {
        assert s[0] !in multiset(s[1..]) + multiset{x};
      }
      assert Insert(v, t, x, s) == [s[0]] + rest;
    }
  }

  /** The ids ordered by fused score, highest first (a stable insertion sort). */
  function SortByScore<T(==,!new)>(v: seq<T>, t: seq<T>, ids: seq<T>): (r: seq<T>)
    ensures SortedByScore(v, t, r)
    ensures multiset(r) == multiset(ids)
    ensures Distinct(ids) ==> Distinct(r)
  {
    if ids == [] then []
    else
      var init := ids[..|ids| - 1];
      var last := ids[|ids| - 1];
      assert ids == init + [last];
      var sorted := SortByScore(v, t, init);
      assert Distinct(ids) ==> last !in multiset(sorted) by {
        if Distinct(ids) {
          forall j | 0 <= j < |init| ensures init[j] != last {
            assert ids[j] != ids[|ids| - 1];
          }
        }
      }
      if Distinct(ids) then
        InsertKeepsDistinct(v, t, last, sorted);
        Insert(v, t, last, sorted)
      else Insert(v, t, last, sorted)
  }

  /** The hybrid query: full outer join, order by fused score, limit 20. */
  function Fuse<T(==,!new)>(v: seq<T>, t: seq<T>): (r: seq<T>)
    ensures SortedByScore(v, t, r)
    ensures |r| <= BranchLimit
    ensures forall x :: x in r ==> x in v || x in t
  {
    var s := SortByScore(v, t, UnionIds(v, t));
    var r := Take(s, BranchLimit);
    forall x | x in r ensures x in v || x in t {
      assert x in multiset(s);
    }
    r
  }

  // ---- Properties of the fused ranking ----

  /** The most one branch can add: the score of a first place. */
  const TopContribution: real := 1.0 / (RrfK + 1) as real

  lemma ContributionBounds<T(!new)>(branch: seq<T>, x: T)
    ensures x in branch ==> 0.0 < Contribution(branch, x) <= TopContribution
    ensures x !in branch ==> Contribution(branch, x) == 0.0
  {
    if x in branch {
      var n := (RrfK + Rank(branch, x)) as real;
      assert n >= (RrfK + 1) as real;
      ReciprocalAntitone((RrfK + 1) as real, n);
    }
  }

  lemma ReciprocalAntitone(a: real, b: real)
    requires 0.0 < a <= b
    ensures 0.0 < 1.0 / b <= 1.0 / a
    ensures a < b ==> 1.0 / b < 1.0 / a
  {
    assert 1.0 / b == (1.0 / a) * (a / b);
  }

  /** Every id of the fused list scores above zero, and at most what a first place in both branches gives. */
  lemma {:induction false} FusedScoresPositive<T(!new)>(v: seq<T>, t: seq<T>, x: T)
    requires x in Fuse(v, t)
    ensures 0.0 < Score(v, t, x) <= 2.0 * TopContribution
  {
    ContributionBounds(v, x);
    ContributionBounds(t, x);
  }

  /** An id ranked strictly better in one branch and no worse in the other (absence being worst)
      scores strictly higher. */
  lemma {:induction false} BetterRankScoresHigher<T(!new)>(v: seq<T>, t: seq<T>, x: T, y: T)
    requires x in v && (y in v ==> Rank(v, x) < Rank(v, y))
    requires y in t ==> x in t && Rank(t, x) <= Rank(t, y)
    ensures Score(v, t, x) > Score(v, t, y)
  {
    ContributionBounds(v, y);
    ContributionBounds(t, y);
    ContributionBounds(t, x);
    if y in v {
      ReciprocalAntitone((RrfK + Rank(v, x)) as real, (RrfK + Rank(v, y)) as real);
    }
    if y in t {
      ReciprocalAntitone((RrfK + Rank(t, x)) as real, (RrfK + Rank(t, y)) as real);
    }
  }

  /** The fused list is exactly the best-scoring 20 of the union: an id of either branch that
      did not make it scores no more than any id that did. */
  lemma {:induction false} FuseIsTopScores<T(!new)>(v: seq<T>, t: seq<T>, x: T, y: T)
    requires x in v || x in t
    requires x !in Fuse(v, t) && y in Fuse(v, t)
    ensures Score(v, t, y) >= Score(v, t, x)
  {
    var s := SortByScore(v, t, UnionIds(v, t));
    var r := Fuse(v, t);
    assert x in multiset(UnionIds(v, t));
    assert x in multiset(s);
    var j :| 0 <= j < |s| && s[j] == x;
    var i :| 0 <= i < |r| && r[i] == y;
    assert r == s[..|r|];
    forall k | 0 <= k < |r| ensures s[k] != x {
      assert s[k] == r[k];
    }
    assert s[i] == y;
  }

  /** When the branches hold no duplicate ids, neither does the fused list, and it holds
      min(20, size of the union) ids: nothing is dropped below the limit. */
  lemma {:induction false} FuseDistinctAndFull<T(!new)>(v: seq<T>, t: seq<T>)
    requires Distinct(v) && Distinct(t)
    ensures Distinct(Fuse(v, t))
    ensures |Fuse(v, t)| == if |UnionIds(v, t)| < BranchLimit then |UnionIds(v, t)| else BranchLimit
    ensures |UnionIds(v, t)| <= BranchLimit ==> forall x :: x in Fuse(v, t) <==> x in v || x in t
  {
    var u := UnionIds(v, t);
    var s := SortByScore(v, t, u);
    assert |s| == |multiset(s)| == |multiset(u)| == |u|;
    if |u| <= BranchLimit {
      assert Fuse(v, t) == s;
      forall x | x in v || x in t ensures x in s {
        assert x in multiset(u);
      }
    }
  }
}
