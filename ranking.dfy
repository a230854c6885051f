/**
 * The ranking view: each fetched profile paired with its number of completed
 * tasks, ordered by that number, largest first, ties in fetch order.
 */
module Ranking {
  import opened Wrappers
  import opened Records

  /** A profile with its completed-task count (`{ ...p, completed_count }`). */
  datatype RankEntry = RankEntry(profile: Profile, count: nat)

  /** `count || 0`: a missing count ranks as zero. */
  function CountOrZero(c: Option<nat>): (n: nat)
    ensures c.None? ==> n == 0
    ensures c.Some? ==> n == c.value
  {
    c.GetOr(0)
  }

  /** The profiles paired, position by position, with the counts fetched for them. */
  function PairCounts(profs: seq<Profile>, counts: seq<Option<nat>>): (r: seq<RankEntry>)
    requires |counts| == |profs|
    ensures |r| == |profs|
    ensures forall i :: 0 <= i < |r| ==> r[i] == RankEntry(profs[i], CountOrZero(counts[i]))
    decreases |profs|
  {
    if profs == [] then []
    else [RankEntry(profs[0], CountOrZero(counts[0]))] + PairCounts(profs[1..], counts[1..])
  }

  /** Counts never increase from left to right. */
  ghost predicate NonIncreasing(s: seq<RankEntry>) {
    forall i, j :: 0 <= i < j < |s| ==> s[i].count >= s[j].count
  }

  /** The entries whose count is `c`, in order. */
  function WithCount(s: seq<RankEntry>, c: nat): seq<RankEntry>
    decreases |s|
  {
    if s == [] then []
    else if s[0].count == c then [s[0]] + WithCount(s[1..], c)
    else WithCount(s[1..], c)
  }

  /** `x` placed before the first entry whose count does not exceed its own. */
  function Insert(x: RankEntry, t: seq<RankEntry>): (r: seq<RankEntry>)
    ensures |r| == |t| + 1
    decreases |t|
  {
    if t == [] then [x]
    else if t[0].count <= x.count then [x] + t
    else [t[0]] + Insert(x, t[1..])
  }

  /**
   * `results.sort((a, b) => b.completed_count - a.completed_count)`: the
   * stable descending sort by count, written as an insertion sort.
   */
  function RankSort(s: seq<RankEntry>): (r: seq<RankEntry>)
    ensures |r| == |s|
    decreases |s|
  {
    if s == [] then []
    else Insert(s[0], RankSort(s[1..]))
  }

  lemma {:induction false} InsertNonIncreasing(x: RankEntry, t: seq<RankEntry>)
    requires NonIncreasing(t)
    ensures NonIncreasing(Insert(x, t))
    decreases |t|
  {
    if t != [] && t[0].count > x.count {
      InsertNonIncreasing(x, t[1..]);
      InsertBounded(x, t[1..], t[0].count);
    }
  }

  /** An insertion into entries of count at most `b` keeps every count at most `b`. */
  lemma {:induction false} InsertBounded(x: RankEntry, t: seq<RankEntry>, b: nat)
    requires x.count <= b
    requires forall i :: 0 <= i < |t| ==> t[i].count <= b
    ensures forall i :: 0 <= i < |Insert(x, t)| ==> Insert(x, t)[i].count <= b
    decreases |t|
  {
    if t != [] && t[0].count > x.count {
      InsertBounded(x, t[1..], b);
    }
  }

  /** Inserting adds `x` and loses nothing. */
  lemma {:induction false} InsertPermutation(x: RankEntry, t: seq<RankEntry>)
    ensures multiset(Insert(x, t)) == multiset(t) + multiset{x}
    decreases |t|
  {
    if t != [] && t[0].count > x.count {
      InsertPermutation(x, t[1..]);
      assert t == [t[0]] + t[1..];
    }
  }

  /** The ranking holds exactly the paired entries: no profile is dropped or repeated. */
  lemma {:induction false} RankSortPermutation(s: seq<RankEntry>)
    ensures multiset(RankSort(s)) == multiset(s)
    decreases |s|
  {
    if s != [] {
      RankSortPermutation(s[1..]);
      InsertPermutation(s[0], RankSort(s[1..]));
      assert s == [s[0]] + s[1..];
    }
  }

  /** The ranking is ordered by count, largest first. */
  lemma {:induction false} RankSortNonIncreasing(s: seq<RankEntry>)
    ensures NonIncreasing(RankSort(s))
    decreases |s|
  {
    if s != [] {
      RankSortNonIncreasing(s[1..]);
      InsertNonIncreasing(s[0], RankSort(s[1..]));
    }
  }

  /** Inserting `x` puts it first among the entries of its own count and disturbs no other count. */
  lemma {:induction false} InsertWithCount(x: RankEntry, t: seq<RankEntry>, c: nat)
    ensures WithCount(Insert(x, t), c) == if x.count == c then [x] + WithCount(t, c) else WithCount(t, c)
    decreases |t|
  {
    if t == [] {
    } else if t[0].count <= x.count {
      assert ([x] + t)[1..] == t;
    } else {
      InsertWithCount(x, t[1..], c);
      assert ([t[0]] + Insert(x, t[1..]))[1..] == Insert(x, t[1..]);
      if x.count == c {
        assert ([x] + WithCount(t[1..], c)) == [x] + WithCount(t, c);
      }
    }
  }

  /** The sort is stable: the entries of any one count keep their fetch order. */
  lemma {:induction false} RankSortStable(s: seq<RankEntry>, c: nat)
    ensures WithCount(RankSort(s), c) == WithCount(s, c)
    decreases |s|
  {
    if s != [] {
      RankSortStable(s[1..], c);
      InsertWithCount(s[0], RankSort(s[1..]), c);
    }
  }

  lemma {:induction false} WithCountMember(s: seq<RankEntry>, c: nat, e: RankEntry)
    requires e in WithCount(s, c)
    ensures e in s && e.count == c
    decreases |s|
  {
    if s[0] != e || s[0].count != c {
      WithCountMember(s[1..], c, e);
    }
  }

  lemma {:induction false} WithCountHead(s: seq<RankEntry>)
    requires s != []
    ensures WithCount(s, s[0].count) != [] && WithCount(s, s[0].count)[0] == s[0]
  {
  }

  /**
   * The ranking is the only order with these properties: a permutation that is
   * ordered by count, largest first, and keeps each count's fetch order is the
   * one `RankSort` produces.
   */
  lemma {:induction false} RankOrderUnique(s: seq<RankEntry>, r: seq<RankEntry>)
    requires NonIncreasing(r)
    requires forall c: nat :: WithCount(r, c) == WithCount(s, c)
    ensures r == RankSort(s)
  {
    var q := RankSort(s);
    RankSortNonIncreasing(s);
    forall c: nat ensures WithCount(r, c) == WithCount(q, c) {
      RankSortStable(s, c);
    }
    SameCountsSame(r, q);
  }

  /** Two count-ordered lists that agree on every count's entries are equal. */
  lemma {:induction false} SameCountsSame(u: seq<RankEntry>, v: seq<RankEntry>)
    requires NonIncreasing(u) && NonIncreasing(v)
    requires forall c: nat :: WithCount(u, c) == WithCount(v, c)
    ensures u == v
    decreases |u| + |v|
  {
    if u == [] && v == [] {
    } else if u == [] {
      WithCountHead(v);
    } else if v == [] {
      WithCountHead(u);
    } else {
      WithCountHead(u);
      WithCountHead(v);
      // u[0] occurs in v, so v[0] counts at least as much; and symmetrically.
      WithCountMember(v, u[0].count, u[0]);
      WithCountMember(u, v[0].count, v[0]);
      var m := u[0].count;
      assert v[0].count == m by {
        var a :| 0 <= a < |v| && v[a] == u[0];
        var b :| 0 <= b < |u| && u[b] == v[0];
      }
      assert u[0] == v[0];
      forall c: nat ensures WithCount(u[1..], c) == WithCount(v[1..], c) {
        if c == m {
          assert WithCount(u[1..], c) == WithCount(u, c)[1..];
          assert WithCount(v[1..], c) == WithCount(v, c)[1..];
        } else {
          assert WithCount(u, c) == WithCount(u[1..], c);
          assert WithCount(v, c) == WithCount(v[1..], c);
        }
      }
      SameCountsSame(u[1..], v[1..]);
      assert u == [u[0]] + u[1..];
      assert v == [v[0]] + v[1..];
    }
  }

  /** The entries ranked from the fetched profiles and their counts. */
  function Rank(profs: seq<Profile>, counts: seq<Option<nat>>): seq<RankEntry>
    requires |counts| == |profs|
  {
    RankSort(PairCounts(profs, counts))
  }

  /**
   * The ranking holds every fetched profile exactly once with its count (a
   * missing count as zero), ordered by count, largest first, ties in fetch order.
   */
  lemma RankSpec(profs: seq<Profile>, counts: seq<Option<nat>>)
    requires |counts| == |profs|
    ensures multiset(Rank(profs, counts)) == multiset(PairCounts(profs, counts))
    ensures NonIncreasing(Rank(profs, counts))
    ensures forall c: nat :: WithCount(Rank(profs, counts), c) == WithCount(PairCounts(profs, counts), c)
  {
    var s := PairCounts(profs, counts);
    RankSortPermutation(s);
    RankSortNonIncreasing(s);
    forall c: nat ensures WithCount(RankSort(s), c) == WithCount(s, c) {
      RankSortStable(s, c);
    }
  }

  /** Profiles with 3, 7 and 0 completed tasks rank as 7, 3, 0. */
  lemma RankExample(p1: Profile, p2: Profile, p3: Profile)
    ensures Rank([p1, p2, p3], [Some(3), Some(7), None])
         == [RankEntry(p2, 7), RankEntry(p1, 3), RankEntry(p3, 0)]
  {
    var e1, e2, e3 := RankEntry(p1, 3), RankEntry(p2, 7), RankEntry(p3, 0);
    assert PairCounts([p1, p2, p3], [Some(3), Some(7), None]) == [e1, e2, e3];
    assert [e1, e2, e3][1..] == [e2, e3] && [e2, e3][1..] == [e3] && [e3][1..] == [];
    assert RankSort([e3]) == [e3];
    assert RankSort([e2, e3]) == Insert(e2, [e3]) == [e2, e3];
    assert [e2, e3][1..] == [e3];
    assert Insert(e1, [e2, e3]) == [e2] + Insert(e1, [e3]) == [e2, e1, e3];
  }
}
