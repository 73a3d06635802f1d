/**
  The bounded history of one test: one file per observation, written and pruned by any number of
  processes that take no lock and act on stale listings of the directory.
 */
module History {
  import opened Common

  const LIMIT: nat := 32

  /** An observation; the file that holds it is named by its ID. */
  datatype Obs = Obs(id: string, at: int, payload: string)

  // ------------------------------------------------------------------------------------------
  // The order: newest first, then by ID
  // ------------------------------------------------------------------------------------------

  predicate StrLess(a: string, b: string) {
    if b == [] then false
    else if a == [] then true
    else a[0] < b[0] || (a[0] == b[0] && StrLess(a[1..], b[1..]))
  }

  lemma {:induction false} StrTotal(a: string, b: string)
    ensures a == b || StrLess(a, b) || StrLess(b, a)
    ensures !(StrLess(a, b) && (a == b || StrLess(b, a)))
  {
    if a != [] && b != [] {
      StrTotal(a[1..], b[1..]);
      assert a == [a[0]] + a[1..] && b == [b[0]] + b[1..];
    }
  }

  lemma {:induction false} StrTransitive(a: string, b: string, c: string)
    requires StrLess(a, b) && StrLess(b, c)
    ensures StrLess(a, c)
  {
    if a != [] && b != [] && c != [] && a[0] == b[0] == c[0] {
      StrTransitive(a[1..], b[1..], c[1..]);
    }
  }

  predicate Newer(a: Obs, b: Obs) {
    a.at > b.at || (a.at == b.at && StrLess(a.id, b.id))
  }

  lemma NewerOrder(a: Obs, b: Obs)
    ensures a.id != b.id ==> Newer(a, b) != Newer(b, a)
    ensures a.id == b.id && a.at == b.at ==> !Newer(a, b)
  {
    StrTotal(a.id, b.id);
  }

  lemma NewerTransitive(a: Obs, b: Obs, c: Obs)
    requires Newer(a, b) && Newer(b, c)
    ensures Newer(a, c)
  {
    if a.at == b.at == c.at {
      StrTransitive(a.id, b.id, c.id);
    }
  }

  /** Observations with the same ID are the same. */
  ghost predicate Identified(s: set<Obs>) {
    forall a, b | a in s && b in s && a.id == b.id :: a == b
  }

  // ------------------------------------------------------------------------------------------
  // Ranks and rankings
  // ------------------------------------------------------------------------------------------

  ghost function Above(s: set<Obs>, o: Obs): set<Obs> {
    set x | x in s && Newer(x, o)
  }

  /** How many observations of `s` are newer than `o`. */
  ghost function RankIn(s: set<Obs>, o: Obs): nat {
    |Above(s, o)|
  }

  lemma RankGrows(s: set<Obs>, t: set<Obs>, o: Obs)
    requires s <= t
    ensures RankIn(s, o) <= RankIn(t, o)
  {
    CardSubset(Above(s, o), Above(t, o));
  }

  ghost predicate Descends(q: seq<Obs>) {
    forall i, j | 0 <= i < j < |q| :: Newer(q[i], q[j])
  }

  /** `q` lists the observations of `s`, newest first. */
  ghost predicate Ranking(q: seq<Obs>, s: set<Obs>) {
    Elements(q) == s && Descends(q)
  }

  lemma {:induction false} DistinctCard(q: seq<Obs>)
    requires forall i, j | 0 <= i < j < |q| :: q[i] != q[j]
    ensures |Elements(q)| == |q|
  {
    if q != [] {
      var last := q[|q| - 1];
      DistinctCard(q[..|q| - 1]);
      assert q == q[..|q| - 1] + [last];
      assert Elements(q) == Elements(q[..|q| - 1]) + {last};
    }
  }

  lemma DescendsDistinct(q: seq<Obs>)
    requires Descends(q)
    ensures forall i, j | 0 <= i < j < |q| :: q[i] != q[j]
  {
    forall i, j | 0 <= i < j < |q|
      ensures q[i] != q[j]
    {
      NewerOrder(q[i], q[j]);
    }
  }

  /** In a ranking, the position of an observation is its rank. */
  lemma RankIsPosition(q: seq<Obs>, s: set<Obs>, i: nat)
    requires Ranking(q, s) && Identified(s) && i < |q|
    ensures RankIn(s, q[i]) == i
  {
    DescendsDistinct(q);
    DistinctCard(q[..i]);
    forall x
      ensures x in Above(s, q[i]) <==> x in Elements(q[..i])
    {
      if x in q {
        var j :| 0 <= j < |q| && q[j] == x;
        NewerOrder(q[i], q[j]);
        assert j < i ==> q[..i][j] == x;
      }
    }
    assert Above(s, q[i]) == Elements(q[..i]);
  }

  /** The newest `k` of a set, given all of it. */
  ghost predicate Covers(got: set<Obs>, log: set<Obs>, k: nat) {
    got <= log && forall o | o in log && RankIn(log, o) < k :: o in got
  }

  /** Among the newest, an observation ranks the same in every covering subset. */
  lemma CoverKeepsRank(got: set<Obs>, log: set<Obs>, k: nat, o: Obs)
    requires Covers(got, log, k) && Identified(log) && o in log && RankIn(log, o) < k
    ensures RankIn(got, o) == RankIn(log, o)
  {
    forall x | x in Above(log, o)
      ensures x in got
    {
      forall y | y in Above(log, x)
        ensures y in Above(log, o)
      {
        NewerTransitive(y, x, o);
      }
      CardSubset(Above(log, x), Above(log, o));
    }
    assert Above(got, o) == Above(log, o);
  }

  function Take(q: seq<Obs>, k: nat): seq<Obs> {
    if |q| <= k then q else q[..k]
  }

  /** Cut to `k`, the rankings of a log and of any subset that has its newest `k` are the same. */
  lemma CoverAgrees(q: seq<Obs>, got: set<Obs>, l: seq<Obs>, log: set<Obs>, k: nat)
    requires Ranking(q, got) && Ranking(l, log) && Covers(got, log, k) && Identified(log)
    ensures Take(q, k) == Take(l, k)
  {
    forall i | 0 <= i < |l| && i < k
      ensures i < |q| && q[i] == l[i]
    {
      CoverPosition(q, got, l, log, k, i);
    }
    CoverLength(q, got, l, log, k);
  }

  lemma CoverPosition(q: seq<Obs>, got: set<Obs>, l: seq<Obs>, log: set<Obs>, k: nat, i: nat)
    requires Ranking(q, got) && Ranking(l, log) && Covers(got, log, k) && Identified(log) && i < |l| && i < k
    ensures i < |q| && q[i] == l[i]
  {
    RankIsPosition(l, log, i);
    assert l[i] in Elements(l);
    assert l[i] in got;
    assert l[i] in Elements(q);
    var j :| 0 <= j < |q| && q[j] == l[i];
    RankIsPosition(q, got, j);
    CoverKeepsRank(got, log, k, l[i]);
  }

  lemma CoverLength(q: seq<Obs>, got: set<Obs>, l: seq<Obs>, log: set<Obs>, k: nat)
    requires Ranking(q, got) && Ranking(l, log) && Covers(got, log, k) && Identified(log)
    ensures |Take(q, k)| == |Take(l, k)|
  {
    DescendsDistinct(q);
    DescendsDistinct(l);
    DistinctCard(q);
    DistinctCard(l);
    CardSubset(got, log);
    var n := Min(|l|, k);
    if n > 0 {
      CoverPosition(q, got, l, log, k, n - 1);
    }
  }

  // ------------------------------------------------------------------------------------------
  // The order, in terms of times and IDs alone
  // ------------------------------------------------------------------------------------------

  /** The strings agree up to `k`, where `a` has the smaller character. */
  ghost predicate DiffersAt(a: string, b: string, k: nat) {
    k < |a| && k < |b| && a[..k] == b[..k] && a[k] < b[k]
  }

  lemma DiffersBehind(x: char, a: string, b: string, k: nat)
    ensures DiffersAt([x] + a, [x] + b, k + 1) <==> DiffersAt(a, b, k)
    ensures !DiffersAt([x] + a, [x] + b, 0)
  {
    if k < |a| && k < |b| {
      assert ([x] + a)[..k + 1] == [x] + a[..k] && ([x] + b)[..k + 1] == [x] + b[..k];
      assert ([x] + a)[..k + 1][1..] == a[..k] && ([x] + b)[..k + 1][1..] == b[..k];
    }
  }

  lemma DiffersFirst(a: string, b: string, k: nat)
    requires a != [] && b != [] && a[0] != b[0]
    ensures DiffersAt(a, b, k) <==> k == 0 && a[0] < b[0]
  {
    if 0 < k < |a| && k < |b| {
      assert a[..k][0] != b[..k][0];
    }
  }

  /** The order of IDs is that of a dictionary: a proper prefix, or the first difference decides. */
  lemma {:induction false} StrLessIff(a: string, b: string)
    ensures StrLess(a, b) <==> a < b || exists k: nat :: DiffersAt(a, b, k)
  {
    if a != [] && b != [] {
      if a[0] == b[0] {
        var c, d := a[1..], b[1..];
        assert a == [a[0]] + c && b == [a[0]] + d;
        StrLessIff(c, d);
        PrefixBehind(a[0], c, d);
        DiffersBehindIff(a[0], c, d);
      } else {
        forall k: nat
          ensures DiffersAt(a, b, k) <==> k == 0 && a[0] < b[0]
        {
          DiffersFirst(a, b, k);
        }
        assert !(a < b);
        assert a[0] < b[0] <==> DiffersAt(a, b, 0);
      }
    } else {
      assert b != [] ==> [] < b;
    }
  }

  lemma PrefixBehind(x: char, a: string, b: string)
    ensures [x] + a < [x] + b <==> a < b
  {
    if [x] + a < [x] + b {
      assert forall i | 0 <= i < |a| :: ([x] + a)[i + 1] == a[i] && ([x] + b)[i + 1] == b[i];
      assert a == b[..|a|];
    }
  }

  lemma DiffersBehindIff(x: char, a: string, b: string)
    ensures (exists k: nat :: DiffersAt([x] + a, [x] + b, k)) <==> exists k: nat :: DiffersAt(a, b, k)
  {
    if k: nat :| DiffersAt([x] + a, [x] + b, k) {
      DiffersBehind(x, a, b, if k == 0 then 0 else k - 1);
      assert DiffersAt(a, b, k - 1);
    }
    if k: nat :| DiffersAt(a, b, k) {
      DiffersBehind(x, a, b, k);
    }
  }

  /** Later times come first; equal times in the order of their IDs. */
  ghost predicate NewestFirst(q: seq<Obs>) {
    forall i, j | 0 <= i < j < |q| :: q[i].at > q[j].at || (q[i].at == q[j].at && StrLess(q[i].id, q[j].id))
  }

  /** Nothing in `gone` is later than anything in `kept`. */
  ghost predicate NoneLater(gone: set<Obs>, kept: set<Obs>) {
    forall o, k | o in gone && k in kept :: o.at <= k.at
  }

  lemma RankingIsNewestFirst(q: seq<Obs>, s: set<Obs>)
    requires Ranking(q, s)
    ensures NewestFirst(q)
  {
  }

  /** The later of two observations ranks before the other. */
  lemma LaterRanksFirst(s: set<Obs>, o: Obs, k: Obs)
    requires o in s && o.at > k.at
    ensures RankIn(s, o) < RankIn(s, k)
  {
    forall x | x in Above(s, o)
      ensures x in Above(s, k) && x != o
    {
      NewerTransitive(x, o, k);
      NewerOrder(x, o);
    }
    assert o in Above(s, k) && o !in Above(s, o);
    CardSubset(Above(s, o) + {o}, Above(s, k));
  }

  /** Cutting by rank cuts nothing later than what is kept. */
  lemma CutIsOldest(all: set<Obs>, kept: set<Obs>, limit: nat)
    requires forall o :: o in kept <==> o in all && RankIn(all, o) < limit
    ensures NoneLater(all - kept, kept)
  {
    forall o, k | o in all - kept && k in kept
      ensures o.at <= k.at
    {
      if o.at > k.at {
        LaterRanksFirst(all, o, k);
      }
    }
  }

  /** An observation with `n` before it has `n` others that are at least as late. */
  lemma RankMeansLater(s: set<Obs>, o: Obs)
    ensures RankIn(s, o) <= |set x | x in s && x != o && x.at >= o.at|
  {
    forall x | x in Above(s, o)
      ensures x != o && x.at >= o.at
    {
      NewerOrder(x, o);
    }
    CardSubset(Above(s, o), set x | x in s && x != o && x.at >= o.at);
  }

  /** The first part of a list sorted by time holds nothing earlier than the rest. */
  lemma PrefixIsNewest(q: seq<Obs>, k: nat)
    requires NewestFirst(q) && k <= |q|
    ensures NewestFirst(q[..k]) && NoneLater(Elements(q) - Elements(q[..k]), Elements(q[..k])) && Elements(q[..k]) <= Elements(q)
  {
    forall o, x | o in Elements(q) - Elements(q[..k]) && x in Elements(q[..k])
      ensures o.at <= x.at
    {
      var j :| 0 <= j < |q| && q[j] == o;
      var i :| 0 <= i < k && q[..k][i] == x;
      assert forall i | 0 <= i < k :: q[..k][i] == q[i] && q[..k][i] in Elements(q[..k]);
    }
  }
}
