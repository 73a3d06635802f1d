/** Concurrent writers and pruners of one history directory, and one process's calls on it. */
module HistoryStore {
  import opened Common
  import opened History

  // ------------------------------------------------------------------------------------------
  // Any number of processes
  // ------------------------------------------------------------------------------------------

  /**
    A process that reads the directory: it lists the files once, then opens them one by one, and
    finds some gone. A pruner goes on to remove what it ranks beyond the limit, file by file.
    `since` is a history variable: what had been written when the directory was listed.
   */
  datatype Proc =
    | Reading(todo: set<string>, got: set<Obs>, since: set<Obs>)
    | Removing(victims: set<Obs>)

  /** `log` is every observation ever written, `files` those still there. */
  datatype Disk = Disk(log: set<Obs>, files: set<Obs>, procs: seq<Proc>)

  datatype Step =
    | Write(o: Obs)
    | List
    | ReadFile(p: nat, id: string)
    | Rank(p: nat)
    | Remove(p: nat, o: Obs)

  ghost predicate CanStep(d: Disk, x: Step) {
    match x
    case Write(o) => forall a | a in d.log && a.id == o.id :: a == o
    case List => true
    case ReadFile(p, id) => p < |d.procs| && d.procs[p].Reading? && id in d.procs[p].todo
    case Rank(p) => p < |d.procs| && d.procs[p].Reading? && d.procs[p].todo == {}
    case Remove(p, o) => p < |d.procs| && d.procs[p].Removing? && o in d.procs[p].victims
  }

  function Ids(s: set<Obs>): set<string> {
    set o | o in s :: o.id
  }

  ghost function Surplus(got: set<Obs>): set<Obs> {
    set o | o in got && RankIn(got, o) >= LIMIT
  }

  ghost function StepOf(d: Disk, x: Step): Disk
    requires CanStep(d, x)
  {
    match x
    case Write(o) => d.(log := d.log + {o}, files := d.files + {o})
    case List => d.(procs := d.procs + [Reading(Ids(d.files), {}, d.log)])
    case ReadFile(p, id) =>
      var r := d.procs[p];
      d.(procs := d.procs[p := Reading(r.todo - {id}, r.got + (set o | o in d.files && o.id == id), r.since)])
    case Rank(p) => d.(procs := d.procs[p := Removing(Surplus(d.procs[p].got))])
    case Remove(p, o) =>
      d.(files := d.files - {o}, procs := d.procs[p := Removing(d.procs[p].victims - {o})])
  }

  ghost predicate Legal(d: Disk, steps: seq<Step>)
    decreases |steps|
  {
    steps != [] ==> CanStep(d, steps[0]) && Legal(StepOf(d, steps[0]), steps[1..])
  }

  ghost function Run(d: Disk, steps: seq<Step>): Disk
    requires Legal(d, steps)
    decreases |steps|
  {
    if steps == [] then d else Run(StepOf(d, steps[0]), steps[1..])
  }

  const EMPTY: Disk := Disk({}, {}, [])

  // ------------------------------------------------------------------------------------------
  // What every interleaving keeps
  // ------------------------------------------------------------------------------------------

  ghost predicate Recent(log: set<Obs>, o: Obs) {
    o in log && RankIn(log, o) < LIMIT
  }

  /** A reader has, or will still find, all it listed that is recent; a pruner removes nothing recent. */
  ghost predicate ProcOk(log: set<Obs>, p: Proc) {
    match p
    case Reading(todo, got, since) =>
      && got <= log && since <= log
      && forall o | o in since && Recent(log, o) :: o in got || o.id in todo
    case Removing(victims) =>
      forall o | o in victims :: o in log && !Recent(log, o)
  }

  ghost predicate DiskInv(d: Disk) {
    && Identified(d.log) && d.files <= d.log
    && (forall o | Recent(d.log, o) :: o in d.files)
    && (forall p | 0 <= p < |d.procs| :: ProcOk(d.log, d.procs[p]))
  }

  /** What is not recent never becomes so. */
  lemma RecentFades(s: set<Obs>, t: set<Obs>, o: Obs)
    requires s <= t && o in s && Recent(t, o)
    ensures Recent(s, o)
  {
    RankGrows(s, t, o);
  }

  lemma ProcAges(s: set<Obs>, t: set<Obs>, p: Proc)
    requires s <= t && ProcOk(s, p)
    ensures ProcOk(t, p)
  {
    match p
    case Reading(todo, got, since) =>
      forall o | o in since && Recent(t, o)
        ensures o in got || o.id in todo
      {
        RecentFades(s, t, o);
      }
    case Removing(victims) =>
      forall o | o in victims
        ensures o in t && !Recent(t, o)
      {
        if Recent(t, o) {
          RecentFades(s, t, o);
        }
      }
  }

  lemma WriteKeeps(d: Disk, o: Obs)
    requires DiskInv(d) && CanStep(d, Write(o))
    ensures DiskInv(StepOf(d, Write(o)))
  {
    var log := d.log + {o};
    forall p | 0 <= p < |d.procs|
      ensures ProcOk(log, d.procs[p])
    {
      ProcAges(d.log, log, d.procs[p]);
    }
    forall x | Recent(log, x)
      ensures x in d.files + {o}
    {
      if x != o {
        RecentFades(d.log, log, x);
      }
    }
  }

  lemma ListKeeps(d: Disk)
    requires DiskInv(d)
    ensures DiskInv(StepOf(d, List))
  {
    var p := Reading(Ids(d.files), {}, d.log);
    forall o | o in d.log && Recent(d.log, o)
      ensures o.id in p.todo
    {
      assert o in d.files;
    }
    assert ProcOk(d.log, p);
  }

  /** A file that is gone when it is opened was not recent. */
  lemma ReadKeeps(d: Disk, p: nat, id: string)
    requires DiskInv(d) && CanStep(d, ReadFile(p, id))
    ensures DiskInv(StepOf(d, ReadFile(p, id)))
  {
    var e := StepOf(d, ReadFile(p, id));
    assert ProcOk(d.log, d.procs[p]);
    assert ProcOk(d.log, e.procs[p]);
  }

  /** Whatever part of the directory a pruner saw, what it ranks beyond the limit is not recent. */
  lemma SurplusIsOld(log: set<Obs>, got: set<Obs>, o: Obs)
    requires got <= log && o in Surplus(got)
    ensures o in log && !Recent(log, o)
  {
    RankGrows(got, log, o);
  }

  lemma RankKeeps(d: Disk, p: nat)
    requires DiskInv(d) && CanStep(d, Rank(p))
    ensures DiskInv(StepOf(d, Rank(p)))
  {
    var e := StepOf(d, Rank(p));
    assert ProcOk(d.log, d.procs[p]);
    forall o | o in e.procs[p].victims
      ensures o in d.log && !Recent(d.log, o)
    {
      SurplusIsOld(d.log, d.procs[p].got, o);
    }
    assert ProcOk(d.log, e.procs[p]);
  }

  lemma RemoveKeeps(d: Disk, p: nat, o: Obs)
    requires DiskInv(d) && CanStep(d, Remove(p, o))
    ensures DiskInv(StepOf(d, Remove(p, o)))
  {
    var e := StepOf(d, Remove(p, o));
    assert ProcOk(d.log, d.procs[p]);
    assert ProcOk(d.log, e.procs[p]);
  }

  lemma StepKeeps(d: Disk, x: Step)
    requires DiskInv(d) && CanStep(d, x)
    ensures DiskInv(StepOf(d, x))
  {
    match x
    case Write(o) => WriteKeeps(d, o);
    case List => ListKeeps(d);
    case ReadFile(p, id) => ReadKeeps(d, p, id);
    case Rank(p) => RankKeeps(d, p);
    case Remove(p, o) => RemoveKeeps(d, p, o);
  }

  lemma {:induction false} RunKeeps(d: Disk, steps: seq<Step>)
    requires DiskInv(d) && Legal(d, steps)
    ensures DiskInv(Run(d, steps))
    decreases |steps|
  {
    if steps != [] {
      StepKeeps(d, steps[0]);
      RunKeeps(StepOf(d, steps[0]), steps[1..]);
    }
  }

  /** However writers and pruners interleave, the store has the newest 32 observations ever written. */
  lemma RecentIsNeverLost(steps: seq<Step>)
    requires Legal(EMPTY, steps)
    ensures Covers(Run(EMPTY, steps).files, Run(EMPTY, steps).log, LIMIT)
  {
    RunKeeps(EMPTY, steps);
    var d := Run(EMPTY, steps);
    forall o | o in d.log && RankIn(d.log, o) < LIMIT
      ensures o in d.files
    {
      assert Recent(d.log, o);
    }
  }

  /** In any run, a pruner removes an observation only while at least 32 others in the log are as late or later. */
  lemma PrunesOnlyOld(steps: seq<Step>, p: nat, o: Obs)
    requires Legal(EMPTY, steps) && CanStep(Run(EMPTY, steps), Remove(p, o))
    ensures var log := Run(EMPTY, steps).log; o in log && |set x | x in log && x != o && x.at >= o.at| >= 32
  {
    RunKeeps(EMPTY, steps);
    var d := Run(EMPTY, steps);
    assert ProcOk(d.log, d.procs[p]);
    RankMeansLater(d.log, o);
  }

  lemma CoversFewer(got: set<Obs>, log: set<Obs>, k: nat, n: nat)
    requires Covers(got, log, n) && k <= n
    ensures Covers(got, log, k)
  {
  }

  /** A lookup of at most 32 observations answers as if nothing had ever been pruned. */
  lemma LookupIsUnbounded(steps: seq<Step>, found: seq<Obs>, all: seq<Obs>, k: nat)
    requires Legal(EMPTY, steps) && k <= LIMIT
    requires Ranking(found, Run(EMPTY, steps).files) && Ranking(all, Run(EMPTY, steps).log)
    ensures Take(found, k) == Take(all, k)
  {
    RecentIsNeverLost(steps);
    RunKeeps(EMPTY, steps);
    var d := Run(EMPTY, steps);
    CoversFewer(d.files, d.log, k, LIMIT);
    CoverAgrees(found, d.files, all, d.log, k);
  }

  /**
    A reader racing with writers and pruners finds, of what was there when it listed the directory,
    all that is still recent when it ends; and if nothing was written meanwhile, its answer is that
    of the unbounded log however much was pruned under it.
   */
  lemma RacingReaderFindsRecent(steps: seq<Step>, p: nat)
    requires Legal(EMPTY, steps)
    requires var d := Run(EMPTY, steps); p < |d.procs| && d.procs[p].Reading? && d.procs[p].todo == {}
    ensures var d := Run(EMPTY, steps); var r := d.procs[p];
      && r.got <= d.log && (forall o | o in r.since && Recent(d.log, o) :: o in r.got)
      && (forall found, all, k: nat | r.since == d.log && k <= LIMIT && Ranking(found, r.got) && Ranking(all, d.log) ::
            Take(found, k) == Take(all, k))
  {
    RunKeeps(EMPTY, steps);
    var d := Run(EMPTY, steps);
    var r := d.procs[p];
    assert ProcOk(d.log, r);
    forall found, all, k: nat | r.since == d.log && k <= LIMIT && Ranking(found, r.got) && Ranking(all, d.log)
      ensures Take(found, k) == Take(all, k)
    {
      forall o | o in d.log && RankIn(d.log, o) < k
        ensures o in r.got
      {
        assert Recent(d.log, o);
      }
      CoverAgrees(found, r.got, all, d.log, k);
    }
  }

  /** Recording an observation again, pruned or not, changes no answer. */
  lemma RerecordIsIdempotent(steps: seq<Step>, o: Obs, before: seq<Obs>, after: seq<Obs>, all: seq<Obs>, k: nat)
    requires Legal(EMPTY, steps) && k <= LIMIT && o in Run(EMPTY, steps).log
    requires CanStep(Run(EMPTY, steps), Write(o)) && Ranking(all, Run(EMPTY, steps).log)
    requires Ranking(before, Run(EMPTY, steps).files) && Ranking(after, StepOf(Run(EMPTY, steps), Write(o)).files)
    ensures Take(before, k) == Take(after, k)
  {
    var d := Run(EMPTY, steps);
    LookupIsUnbounded(steps, before, all, k);
    RunKeeps(EMPTY, steps);
    StepKeeps(d, Write(o));
    var e := StepOf(d, Write(o));
    assert e.log == d.log;
    forall x | x in e.log && RankIn(e.log, x) < k
      ensures x in e.files
    {
      assert Recent(e.log, x);
    }
    CoverAgrees(after, e.files, all, e.log, k);
  }

  // ------------------------------------------------------------------------------------------
  // One process
  // ------------------------------------------------------------------------------------------

  function Insert(o: Obs, q: seq<Obs>): seq<Obs> {
    if q == [] then [o]
    else if Newer(o, q[0]) then [o] + q
    else [q[0]] + Insert(o, q[1..])
  }

  function Sort(q: seq<Obs>): seq<Obs> {
    if q == [] then [] else Insert(q[0], Sort(q[1..]))
  }

  lemma {:induction false} InsertElements(o: Obs, q: seq<Obs>)
    ensures Elements(Insert(o, q)) == {o} + Elements(q) && |Insert(o, q)| == |q| + 1
  {
    if q != [] {
      InsertElements(o, q[1..]);
      assert Elements(q) == {q[0]} + Elements(q[1..]);
      assert Elements([q[0]] + Insert(o, q[1..])) == {q[0]} + Elements(Insert(o, q[1..]));
    }
  }

  lemma {:induction false} InsertDescends(o: Obs, q: seq<Obs>)
    requires Descends(q) && forall x | x in q :: x.id != o.id
    ensures Descends(Insert(o, q))
  {
    if q != [] {
      NewerOrder(o, q[0]);
      if Newer(o, q[0]) {
        forall j | 0 < j < |q|
          ensures Newer(o, q[j])
        {
          NewerTransitive(o, q[0], q[j]);
        }
      } else {
        var rest := Insert(o, q[1..]);
        InsertDescends(o, q[1..]);
        InsertElements(o, q[1..]);
        forall j | 0 <= j < |rest|
          ensures Newer(q[0], rest[j])
        {
          assert rest[j] in Elements(rest);
        }
      }
    }
  }

  lemma {:induction false} SortRanks(q: seq<Obs>)
    requires forall i, j | 0 <= i < j < |q| :: q[i].id != q[j].id
    ensures Ranking(Sort(q), Elements(q)) && |Sort(q)| == |q|
  {
    if q != [] {
      SortRanks(q[1..]);
      var rest := Sort(q[1..]);
      InsertElements(q[0], rest);
      assert Elements(q) == {q[0]} + Elements(q[1..]);
      forall x | x in rest
        ensures x.id != q[0].id
      {
        assert x in Elements(rest);
        assert x in q[1..];
      }
      InsertDescends(q[0], rest);
    }
  }

  function IdsOf(q: seq<Obs>): set<string> {
    Ids(Elements(q))
  }

  lemma {:induction false} IdsCard(q: seq<Obs>)
    ensures |IdsOf(q)| <= |q|
  {
    if q != [] {
      IdsCard(q[1..]);
      assert IdsOf(q) == {q[0].id} + IdsOf(q[1..]);
    }
  }

  lemma IdsNext(q: seq<Obs>, i: nat)
    requires i < |q|
    ensures IdsOf(q[..i + 1]) == IdsOf(q[..i]) + {q[i].id}
  {
    assert q[..i + 1] == q[..i] + [q[i]];
    assert forall x :: x in q[..i + 1] <==> x in q[..i] || x == q[i];
  }

  ghost function ValuesOf(files: map<string, Obs>): set<Obs> {
    set id | id in files :: files[id]
  }

  lemma {:induction false} ValuesCard(files: map<string, Obs>)
    ensures |ValuesOf(files)| <= |files|
    decreases |files|
  {
    if files != map[] {
      var id :| id in files;
      var rest := files - {id};
      assert rest.Keys == files.Keys - {id} && |rest| == |rest.Keys| && |files| == |files.Keys|;
      ValuesCard(rest);
      assert ValuesOf(files) <= ValuesOf(rest) + {files[id]} by {
        forall x | x in files
          ensures files[x] in ValuesOf(rest) + {files[id]}
        {
          assert x != id ==> x in rest && rest[x] == files[x];
        }
      }
      CardSubset(ValuesOf(files), ValuesOf(rest) + {files[id]});
    }
  }

  class HistoryDir {
    var files: map<string, Obs>

    /** Each file holds the observation it is named after. */
    ghost predicate Valid()
      reads this
    {
      forall id | id in files :: files[id].id == id
    }

    ghost function Stored(): set<Obs>
      reads this
    {
      ValuesOf(files)
    }

    constructor ()
      ensures Valid() && Stored() == {}
    {
      files := map[];
    }

    lemma StoredIsIdentified()
      requires Valid()
      ensures Identified(Stored())
    {
    }

    method WriteObservation(o: Obs)
      requires Valid()
      modifies this
      ensures Valid() && files == old(files)[o.id := o]
    {
      files := files[o.id := o];
    }

    /** Opens every listed file, in whatever order the directory lists them. */
    method ReadAll() returns (q: seq<Obs>)
      requires Valid()
      ensures Elements(q) == Stored() && |q| == |files| && forall i, j | 0 <= i < j < |q| :: q[i].id != q[j].id
    {
      q := [];
      var todo := files.Keys;
      while todo != {}
        invariant todo <= files.Keys && |q| + |todo| == |files.Keys|
        invariant forall x :: x in q <==> x.id in files && x.id !in todo && files[x.id] == x
        invariant forall i, j | 0 <= i < j < |q| :: q[i].id != q[j].id
        decreases |todo|
      {
        var id :| id in todo;
        ghost var was := q;
        assert forall i | 0 <= i < |q| :: q[i] in q;
        q := q + [files[id]];
        todo := todo - {id};
        assert forall x :: x in q <==> x in was || x == files[id];
      }
    }

    /** The observations, newest first, or None if there are none. */
    method Read() returns (r: Option<seq<Obs>>)
      requires Valid()
      ensures r.None? <==> Stored() == {}
      ensures r.Some? ==> Ranking(r.value, Stored()) && NewestFirst(r.value)
    {
      var q := ReadAll();
      SortRanks(q);
      RankingIsNewestFirst(Sort(q), Stored());
      if q == [] {
        return None;
      }
      assert q[0] in Elements(q);
      return Some(Sort(q));
    }

    /** The latest observations, 32 unless another number is asked for. */
    method Lookup(recent: int) returns (r: Option<seq<Obs>>)
      requires Valid()
      ensures r.None? <==> Stored() == {}
      ensures r.Some? ==> exists all :: Ranking(all, Stored()) && r.value == Take(all, if recent <= 0 then 32 else recent)
      ensures r.Some? ==>
        && NewestFirst(r.value) && |r.value| == Min(|Stored()|, if recent <= 0 then 32 else recent)
        && Elements(r.value) <= Stored() && NoneLater(Stored() - Elements(r.value), Elements(r.value))
    {
      var limit := if recent <= 0 then LIMIT else recent;
      r := Read();
      if r.Some? {
        ghost var all := r.value;
        DescendsDistinct(all);
        DistinctCard(all);
        PrefixIsNewest(all, Min(limit, |all|));
        assert all[..|all|] == all;
        hide Ranking, NewestFirst, NoneLater, Descends;
        if |r.value| > limit {
          r := Some(r.value[..limit]);
        }
        assert r.value == Take(all, limit);
      }
    }

    method RemoveAll(surplus: seq<Obs>)
      modifies this
      ensures files == old(files) - IdsOf(surplus)
    {
      assert files - IdsOf(surplus[..0]) == files;
      for i := 0 to |surplus|
        invariant files == old(files) - IdsOf(surplus[..i])
      {
        IdsNext(surplus, i);
        files := files - {surplus[i].id};
      }
      assert surplus[..|surplus|] == surplus;
    }

    /** Removes the observations beyond the limit. */
    method Prune(limit: nat)
      requires Valid()
      modifies this
      ensures Valid() && |files| <= limit
      ensures forall o :: o in Stored() <==> o in old(Stored()) && RankIn(old(Stored()), o) < limit
      ensures |files| == Min(limit, |old(files)|) && NoneLater(old(Stored()) - Stored(), Stored())
    {
      var q := ReadAll();
      SortRanks(q);
      var sorted := Sort(q);
      StoredIsIdentified();
      ghost var before, all := files, Stored();
      RemoveAll(sorted[Min(limit, |sorted|)..]);
      PruneSpec(before, all, sorted, limit, files);
      CutIsOldest(all, Stored(), limit);
    }

    static lemma PruneSpec(before: map<string, Obs>, all: set<Obs>, sorted: seq<Obs>, limit: nat, after: map<string, Obs>)
      requires (forall id | id in before :: before[id].id == id) && all == ValuesOf(before)
      requires Ranking(sorted, all) && Identified(all)
      requires after == before - IdsOf(sorted[Min(limit, |sorted|)..])
      ensures |after| == Min(limit, |sorted|)
      ensures forall id | id in after :: after[id].id == id
      ensures forall o :: o in ValuesOf(after) <==> o in all && RankIn(all, o) < limit
    {
      SortedRanks(all, sorted);
      assert Descends(sorted);
      hide Ranking, RankIn, Identified, IdsOf, Elements, Descends, ValuesOf;
      var kept := Min(limit, |sorted|);
      PrunedIsRecent(before, all, sorted, kept, after);
      KeptAll(all, sorted, kept, after);
      SurvivorsIff(before, all, after, kept, IdsOf(sorted[kept..]));
    }

    static lemma SurvivorsIff(before: map<string, Obs>, all: set<Obs>, after: map<string, Obs>, kept: nat, gone: set<string>)
      requires all == ValuesOf(before) && after == before - gone
      requires forall id | id in after :: after[id].id == id && RankIn(all, after[id]) < kept
      requires forall o | o in all && RankIn(all, o) < kept :: o.id in after && after[o.id] == o
      ensures forall o :: o in ValuesOf(after) <==> o in all && RankIn(all, o) < kept
    {
      hide RankIn;
      forall id | id in after
        ensures after[id] in all
      {
        assert before[id] == after[id];
      }
    }

    /** None of the first observations was lost, so there are as many files as were to be kept. */
    static lemma KeptAll(all: set<Obs>, sorted: seq<Obs>, kept: nat, after: map<string, Obs>)
      requires Descends(sorted) && kept <= |sorted|
      requires forall i | 0 <= i < |sorted| :: RankIn(all, sorted[i]) == i && sorted[i] in all
      requires forall o | o in all && RankIn(all, o) < kept :: o.id in after && after[o.id] == o
      ensures |after| >= kept
    {
      hide RankIn;
      var first := sorted[..kept];
      DescendsDistinct(sorted);
      DistinctCard(first);
      forall o | o in first
        ensures o in ValuesOf(after)
      {
        var i :| 0 <= i < kept && first[i] == o;
        assert sorted[i] == o;
        assert after[o.id] == o;
      }
      CardSubset(Elements(first), ValuesOf(after));
      ValuesCard(after);
    }

    /** In a ranking every observation has its position as rank, so no rank reaches the length. */
    static lemma SortedRanks(all: set<Obs>, sorted: seq<Obs>)
      requires Ranking(sorted, all) && Identified(all)
      ensures Elements(sorted) == all
      ensures forall i | 0 <= i < |sorted| :: RankIn(all, sorted[i]) == i && sorted[i] in all
      ensures forall o | o in all :: RankIn(all, o) < |sorted|
    {
      hide RankIn;
      forall i | 0 <= i < |sorted|
        ensures RankIn(all, sorted[i]) == i && sorted[i] in all
      {
        RankIsPosition(sorted, all, i);
        assert sorted[i] in Elements(sorted);
      }
      forall o | o in all
        ensures RankIn(all, o) < |sorted|
      {
        assert o in Elements(sorted);
        var i :| 0 <= i < |sorted| && sorted[i] == o;
      }
    }

    static lemma LaterIds(sorted: seq<Obs>, kept: nat)
      requires kept <= |sorted|
      ensures forall j | kept <= j < |sorted| :: sorted[j].id in IdsOf(sorted[kept..])
    {
      forall j | kept <= j < |sorted|
        ensures sorted[j].id in IdsOf(sorted[kept..])
      {
        assert sorted[kept..][j - kept] == sorted[j];
      }
    }

    static lemma KeptEarly(before: map<string, Obs>, sorted: seq<Obs>, kept: nat, id: string) returns (j: nat)
      requires kept <= |sorted| && id in before && before[id].id == id && before[id] in sorted && id !in IdsOf(sorted[kept..])
      ensures j < kept && sorted[j] == before[id] && id in IdsOf(sorted[..kept])
    {
      j :| 0 <= j < |sorted| && sorted[j] == before[id];
      LaterIds(sorted, kept);
      hide IdsOf;
      assert j < kept;
      IdsHas(sorted[..kept], j);
    }

    static lemma IdsHas(q: seq<Obs>, j: nat)
      requires j < |q|
      ensures q[j].id in IdsOf(q)
    {
    }

    static lemma RankedIsKept(before: map<string, Obs>, all: set<Obs>, sorted: seq<Obs>, kept: nat, o: Obs)
      requires kept <= |sorted| && all == ValuesOf(before) && (forall id | id in before :: before[id].id == id)
      requires forall i | 0 <= i < |sorted| :: RankIn(all, sorted[i]) == i && sorted[i] in all
      requires o in all && RankIn(all, o) < kept
      ensures o.id in before && before[o.id] == o && o.id !in IdsOf(sorted[kept..])
    {
      hide RankIn;
      var late := sorted[kept..];
      forall x | x in late
        ensures x.id != o.id
      {
        var j :| 0 <= j < |late| && late[j] == x;
        assert sorted[kept + j] == x;
      }
    }

    static lemma PrunedIsRecent(before: map<string, Obs>, all: set<Obs>, sorted: seq<Obs>, kept: nat, after: map<string, Obs>)
      requires kept <= |sorted| && (forall id | id in before :: before[id].id == id)
      requires all == ValuesOf(before) && Elements(sorted) == all
      requires forall i | 0 <= i < |sorted| :: RankIn(all, sorted[i]) == i && sorted[i] in all
      requires after == before - IdsOf(sorted[kept..])
      ensures |after| <= kept
      ensures forall id | id in after :: after[id].id == id && RankIn(all, after[id]) < kept
      ensures forall o | o in all && RankIn(all, o) < kept :: o.id in after && after[o.id] == o
    {
      hide RankIn, IdsOf;
      forall id | id in after
        ensures id in IdsOf(sorted[..kept]) && RankIn(all, after[id]) < kept
      {
        assert before[id] in Elements(sorted);
        var j := KeptEarly(before, sorted, kept, id);
      }
      IdsCard(sorted[..kept]);
      CardSubset(after.Keys, IdsOf(sorted[..kept]));
      forall o | o in all && RankIn(all, o) < kept
        ensures o.id in after && after[o.id] == o
      {
        RankedIsKept(before, all, sorted, kept, o);
      }
    }

    /** Writes each observation once. */
    method WriteAll(observations: seq<Obs>)
      requires Valid()
      modifies this
      ensures Valid() && (observations == [] ==> files == old(files))
      ensures Identified(old(Stored()) + Elements(observations)) ==> Stored() == old(Stored()) + Elements(observations)
    {
      var seen: set<string> := {};
      ghost var all, first := Stored() + Elements(observations), Stored();
      hide Identified, Elements, IdsOf, ValuesOf;
      assert IdsOf(observations[..0]) == {} && Elements(observations[..0]) == {} by {
        NothingWritten(observations);
      }
      for i := 0 to |observations|
        invariant Valid() && seen == IdsOf(observations[..i]) && (i == 0 ==> files == old(files))
        invariant Identified(all) ==> Stored() == first + Elements(observations[..i])
      {
        var o := observations[i];
        IdsNext(observations, i);
        SeenOrNew(observations, i, all);
        if o.id in seen {
          continue;
        }
        seen := seen + {o.id};
        if Identified(all) {
          WriteAdds(files, all, o);
        }
        WriteObservation(o);
      }
      assert observations[..|observations|] == observations;
    }

    static lemma NothingWritten(observations: seq<Obs>)
      ensures IdsOf(observations[..0]) == {} && Elements(observations[..0]) == {}
    {
    }

    static lemma SeenOrNew(observations: seq<Obs>, i: nat, all: set<Obs>)
      requires i < |observations| && Elements(observations) <= all
      ensures Elements(observations[..i + 1]) == Elements(observations[..i]) + {observations[i]}
      ensures observations[i] in all && Elements(observations[..i]) <= all
      ensures Identified(all) && observations[i].id in IdsOf(observations[..i]) ==> observations[i] in Elements(observations[..i])
    {
      var o := observations[i];
      assert observations[..i + 1] == observations[..i] + [o];
      assert o in Elements(observations);
      forall x | x in observations[..i]
        ensures x in all
      {
        assert x in Elements(observations);
      }
    }

    static lemma WriteAdds(was: map<string, Obs>, all: set<Obs>, o: Obs)
      requires (forall id | id in was :: was[id].id == id) && ValuesOf(was) <= all && o in all && Identified(all)
      ensures ValuesOf(was[o.id := o]) == ValuesOf(was) + {o}
    {
      var now := was[o.id := o];
      assert forall id | id in was :: was[id] in ValuesOf(was);
      forall x
        ensures x in ValuesOf(now) <==> x in ValuesOf(was) || x == o
      {
        if x in ValuesOf(was) && x != o {
          assert x.id != o.id && now[x.id] == x;
        }
        assert now[o.id] == o;
      }
    }

    /** Records observations and prunes: left alone, the directory holds the newest 32 of all. */
    method Record(observations: seq<Obs>)
      requires Valid()
      modifies this
      ensures Valid() && (observations != [] ==> |files| <= LIMIT) && (observations == [] ==> files == old(files))
      ensures var all := old(Stored()) + Elements(observations);
        observations != [] && Identified(all) ==>
          && (forall o :: o in Stored() <==> o in all && RankIn(all, o) < LIMIT)
          && NoneLater(all - Stored(), Stored())
    {
      WriteAll(observations);
      if observations != [] {
        Prune(LIMIT);
      }
    }
  }
}
