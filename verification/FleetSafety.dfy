/**
  What every run of the leader keeps: the lease structure, exactly-once commits with
  conservation of every counter, the load bound, the verdict and the wake-up.
 */
module FleetSafety {
  import opened Common
  import opened Fleet

  // ------------------------------------------------------------------------------------------
  // The lease structure
  // ------------------------------------------------------------------------------------------

  lemma RemoveKeepsLinked(s: State, ids: set<nat>)
    requires Linked(s)
    ensures Linked(RemoveLeases(s, ids))
  {
  }

  lemma RemoveKeepsPaired(s: State, ids: set<nat>)
    requires Paired(s)
    ensures Paired(RemoveLeases(s, ids))
  {
    var r := RemoveLeases(s, ids);
    forall t | 0 <= t < |r.work|
      ensures PairedIn(r, t)
    {
      assert PairedIn(s, t);
      CardSubset(r.work[t].leases, s.work[t].leases);
    }
  }

  /** Leasing an unleased task, or a second copy of an overdue one, keeps the lease structure. */
  ghost predicate Eligible(s: State, w: nat, now: int, t: nat) {
    t < |s.work| && !s.work[t].done && (s.work[t].leases == {} || Speculative(s, w, now, t))
  }

  lemma NextIsEligible(s: State, w: nat, now: int, t: nat)
    requires w < |s.workers| && PkgsKnown(s) && NextChoice(s, w, now, Some(t))
    ensures Eligible(s, w, now, t)
    ensures s.work[t].leases != {} ==> !AnyFresh(s)
  {
  }

  lemma AddKeepsLinked(s: State, w: nat, now: int, t: nat)
    requires Linked(s) && w < |s.workers| && t < |s.work|
    ensures Linked(AddLease(s, w, t, now))
  {
    var r := AddLease(s, w, t, now);
    assert r.nextID !in s.leases;
    forall v, id | 0 <= v < |r.workers| && id in r.workers[v].leases
      ensures id in r.leases && r.leases[id].worker == v
    {
      assert id in s.workers[v].leases || (v == w && id == r.nextID);
    }
    forall u, id | 0 <= u < |r.work| && id in r.work[u].leases
      ensures id in r.leases && r.leases[id].task == u
    {
      assert id in s.work[u].leases || (u == t && id == r.nextID);
    }
    assert PkgsKnown(r);
  }

  lemma AddKeepsPaired(s: State, w: nat, now: int, t: nat)
    requires Linked(s) && Paired(s) && w < |s.workers| && Eligible(s, w, now, t)
    ensures Paired(AddLease(s, w, t, now))
  {
    var r := AddLease(s, w, t, now);
    forall u | 0 <= u < |r.work|
      ensures PairedIn(r, u)
    {
      assert PairedIn(s, u);
      if u == t {
        assert r.work[t].leases == s.work[t].leases + {r.nextID};
        assert r.nextID !in s.leases;
        if s.work[t].leases != {} {
          Singleton(s.work[t].leases);
        }
      }
    }
  }

  lemma AddKeepsInv(s: State, w: nat, now: int, t: nat)
    requires LeaseInv(s) && w < |s.workers| && s.workers[w].error == "" && Eligible(s, w, now, t)
    ensures LeaseInv(AddLease(s, w, t, now))
  {
    AddKeepsLinked(s, w, now, t);
    AddKeepsPaired(s, w, now, t);
  }

  /** The same leases, between the same workers and tasks, issued at the same times. */
  ghost predicate SameShape(s: State, r: State) {
    && |r.workers| == |s.workers| && |r.work| == |s.work| && |r.pkgs| == |s.pkgs|
    && r.nextID == s.nextID && r.leases.Keys == s.leases.Keys
    && (forall id | id in s.leases ::
          && r.leases[id].task == s.leases[id].task && r.leases[id].worker == s.leases[id].worker
          && r.leases[id].issued == s.leases[id].issued)
    && (forall w | 0 <= w < |s.workers| :: r.workers[w].leases == s.workers[w].leases)
    && (forall t | 0 <= t < |s.work| ::
          r.work[t].leases == s.work[t].leases && r.work[t].estimate == s.work[t].estimate && r.work[t].pkg == s.work[t].pkg)
  }

  lemma ShapeKeepsLinked(s: State, r: State)
    requires SameShape(s, r) && Linked(s)
    ensures Linked(r)
  {
    forall w, id | 0 <= w < |r.workers| && id in r.workers[w].leases
      ensures id in r.leases && r.leases[id].worker == w
    {
      assert id in s.workers[w].leases;
    }
    forall t, id | 0 <= t < |r.work| && id in r.work[t].leases
      ensures id in r.leases && r.leases[id].task == t
    {
      assert id in s.work[t].leases;
    }
  }

  lemma ShapeKeepsPaired(s: State, r: State)
    requires SameShape(s, r) && Paired(s)
    ensures Paired(r)
  {
    forall t | 0 <= t < |r.work|
      ensures PairedIn(r, t)
    {
      assert PairedIn(s, t);
    }
  }

  lemma ShapeKeeps(s: State, r: State)
    requires SameShape(s, r)
    ensures Linked(s) ==> Linked(r)
    ensures Paired(s) ==> Paired(r)
  {
    hide SameShape, Linked, Paired;
    if Linked(s) {
      ShapeKeepsLinked(s, r);
    }
    if Paired(s) {
      ShapeKeepsPaired(s, r);
    }
  }

  /** Revoking leases after a bookkeeping edit keeps the invariant, if it silences what must be quiet. */
  lemma EditThenRemove(s: State, r: State, ids: set<nat>)
    requires LeaseInv(s) && SameShape(s, r)
    requires forall t | 0 <= t < |r.work| && r.work[t].done :: s.work[t].done || s.work[t].leases <= ids
    requires forall w | 0 <= w < |r.workers| && r.workers[w].error != "" :: s.workers[w].error != "" || s.workers[w].leases <= ids
    ensures LeaseInv(RemoveLeases(r, ids))
  {
    ShapeKeeps(s, r);
    RemoveKeepsLinked(r, ids);
    RemoveKeepsPaired(r, ids);
  }

  lemma GiveUpKeepsLeases(s: State, w: nat, error: string)
    requires LeaseInv(s) && w < |s.workers|
    ensures LeaseInv(GiveUp(s, w, error))
  {
    var bad := s.workers[w].(error := if error == "" then "helper execution error" else error);
    hide Paired, Linked;
    EditThenRemove(s, s.(workers := s.workers[w := bad], notifies := s.notifies + 1), s.workers[w].leases);
  }

  lemma FinishKeepsLeases(s: State, w: nat, t: nat, r: WorkerResult)
    requires LeaseInv(s) && w < |s.workers| && t < |s.work|
    ensures LeaseInv(Finish(s, w, t, r))
  {
    EditThenRemove(s, Book(s, w, t, r), s.work[t].leases);
  }

  lemma AcceptKeepsLeases(s: State, w: nat, r: WorkerResult)
    requires LeaseInv(s) && w < |s.workers|
    ensures LeaseInv(Accept(s, w, r))
  {
    if !Ignored(s, w, r) {
      GiveUpKeepsLeases(s, w, r.error);
      FinishKeepsLeases(s, w, s.leases[r.lease].task, r);
    }
  }

  lemma DisconnectKeepsLeases(s: State, w: nat, error: string)
    requires LeaseInv(s) && w < |s.workers|
    ensures LeaseInv(Disconnect(s, w, error))
  {
    var gone := s.workers[w].(connected := false, error := if error == "" then s.workers[w].error else error);
    hide Paired, Linked;
    EditThenRemove(s, s.(workers := s.workers[w := gone], notifies := s.notifies + 1), s.workers[w].leases);
  }

  lemma HeartbeatShape(s: State, w: nat, req: Request, now: int)
    requires w < |s.workers|
    ensures SameShape(s, Heartbeat(s, w, req, now))
  {
  }

  lemma HeartbeatKeepsLeases(s: State, w: nat, req: Request, now: int)
    requires LeaseInv(s) && w < |s.workers|
    ensures SameShape(s, Heartbeat(s, w, req, now)) && LeaseInv(Heartbeat(s, w, req, now))
  {
    HeartbeatShape(s, w, req, now);
    hide SameShape, Linked, Paired;
    ShapeKeeps(s, Heartbeat(s, w, req, now));
  }

  /** A heartbeat changes the state of exactly the live leases it names, and dates their first running report. */
  lemma HeartbeatReports(s: State, w: nat, req: Request, now: int, id: nat)
    requires Linked(s) && w < |s.workers| && id in s.leases
    ensures var was, got := s.leases[id], Heartbeat(s, w, req, now).leases[id];
      && got.task == was.task && got.worker == was.worker && got.issued == was.issued
      && (was.worker == w && id in req.active && req.active[id].Reported? ==>
            && got.state == req.active[id].state
            && (was.started.Some? || got.state != Running ==> got.started == was.started)
            && (was.started.None? && got.state == Running ==> got.started == Some(now)))
      && (was.worker != w || id !in req.active || req.active[id] == Other ==> got == was)
  {
  }

  lemma {:induction false} BatchKeepsLeases(s: State, w: nat, limit: int, now: int, picks: seq<nat>)
    requires LeaseInv(s) && w < |s.workers| && s.workers[w].error == "" && InQueue(s, picks)
    requires Batch(s, w, limit, now, picks)
    ensures LeaseInv(AddLeases(s, w, now, picks))
    decreases |picks|
  {
    assert PkgsKnown(s);
    hide Linked, Paired, Quiet, NextChoice, Room;
    if picks != [] {
      NextIsEligible(s, w, now, picks[0]);
      AddKeepsInv(s, w, now, picks[0]);
      BatchKeepsLeases(AddLease(s, w, picks[0], now), w, limit - 1, now, picks[1..]);
    }
  }

  lemma LocalShape(s: State, w: nat, now: int, begun: int, t: nat)
    requires w < |s.workers| && t < |s.work|
    ensures SameShape(AddLease(s, w, t, now), LocalAssign(s, w, now, begun, t))
  {
  }

  lemma LocalKeepsLeases(s: State, w: nat, now: int, begun: int, t: nat)
    requires LeaseInv(s) && w < |s.workers| && s.workers[w].error == "" && t < |s.work|
    requires Batch(s, w, 1, now, [t])
    ensures LeaseInv(LocalAssign(s, w, now, begun, t))
  {
    assert PkgsKnown(s) && NextChoice(s, w, now, Some([t][0]));
    hide Linked, Paired, SameShape, NextChoice, Batch;
    NextIsEligible(s, w, now, t);
    AddKeepsInv(s, w, now, t);
    LocalShape(s, w, now, begun, t);
    ShapeKeeps(AddLease(s, w, t, now), LocalAssign(s, w, now, begun, t));
  }

  lemma ExchangeKeepsLeases(s: State, w: nat, req: Request, now: int, picks: seq<nat>)
    requires LeaseInv(s) && Enabled(s, EExchange(w, req, now, picks))
    ensures LeaseInv(ExchangeTail(s, w, req, now, picks).0)
  {
    HeartbeatKeepsLeases(s, w, req, now);
    hide LeaseInv, Batch, SameShape;
    if Assigns(s, w) {
      BatchKeepsLeases(Heartbeat(s, w, req, now), w, ExchangeLimit(s, w), now, picks);
    }
  }

  lemma StopKeepsLeases(s: State)
    requires LeaseInv(s)
    ensures LeaseInv(RemoveLeases(s.(stopped := true), s.leases.Keys))
  {
    EditThenRemove(s, s.(stopped := true), s.leases.Keys);
  }

  /** The events that touch flags only. */
  predicate IsFlag(e: Event) {
    e.EShutdown? || e.ECancel? || e.ENotify? || e.ELoopCheck? || e.ELoopWake?
  }

  /** What such an event may change. */
  ghost predicate OnlyFlags(s: State, r: State) {
    r == s.(stopped := r.stopped, cancelled := r.cancelled, wake := r.wake, notifies := r.notifies, loop := r.loop)
  }

  lemma FlagsKeepLeases(s: State, r: State)
    requires LeaseInv(s) && OnlyFlags(s, r)
    ensures LeaseInv(r)
  {
    ShapeKeeps(s, r);
  }

  lemma StepKeepsLeases(s: State, e: Event)
    requires LeaseInv(s) && Enabled(s, e)
    requires s.ready || (s.work == [] && s.leases == map[])
    ensures LeaseInv(Apply(s, e))
  {
    hide Linked, Paired, Quiet, Batch, TailPicks, Sorted;
    match e {
      case EAccept(w, r) => AcceptKeepsLeases(s, w, r);
      case EDisconnect(w, error) => DisconnectKeepsLeases(s, w, error);
      case EExchange(w, req, now, picks) => ExchangeKeepsLeases(s, w, req, now, picks);
      case ELocalAssign(w, now, begun, t) => LocalKeepsLeases(s, w, now, begun, t);
      case EStop => StopKeepsLeases(s);
      case EStart(work, pkgs, w) => StartKeepsLeases(s, work, pkgs, w);
      case EAddWorker(slots, leader) => AddWorkerKeepsLeases(s, slots, leader);
      case _ => FlagsKeepLeases(s, Apply(s, e));
    }
  }

  lemma AddWorkerKeepsLeases(s: State, slots: nat, leader: bool)
    requires LeaseInv(s)
    ensures LeaseInv(AddWorker(s, slots, leader))
  {
    var r := AddWorker(s, slots, leader);
    forall t | 0 <= t < |r.work|
      ensures PairedIn(r, t)
    {
      assert PairedIn(s, t);
    }
  }

  lemma StartKeepsLeases(s: State, work: seq<Task>, pkgs: seq<Package>, w: nat)
    requires LeaseInv(s) && Enabled(s, EStart(work, pkgs, w)) && s.leases == map[]
    ensures LeaseInv(Apply(s, EStart(work, pkgs, w)))
  {
    var r := Apply(s, EStart(work, pkgs, w));
    forall t | 0 <= t < |r.work|
      ensures PairedIn(r, t)
    {
    }
  }

  // ------------------------------------------------------------------------------------------
  // Exactly-once commits and conservation
  // ------------------------------------------------------------------------------------------

  function Completed(w: Worker): nat { w.completed }
  function Cached(w: Worker): nat { w.cached }
  function Failed(w: Worker): nat { w.failed }
  function Duration(w: Worker): nat { w.duration }
  function NumFails(p: Package): nat { p.numFails }
  function RunIn(p: Package): nat { p.runIn }
  function DoneCount(t: Task): nat { if t.done then 1 else 0 }
  function Failure(c: Commit): nat { if c.result.passed then 0 else 1 }
  function CacheHit(c: Commit): nat { if c.result.cached then 1 else 0 }
  function TimeOf(c: Commit): nat { c.result.duration }
  function InfraError(c: Commit): nat { if c.result.infra then 1 else 0 }

  /** Every counter is conserved: the workers' totals, the packages' totals and the commits agree. */
  ghost predicate Conserved(s: State) {
    && s.done == |s.commits| == Sum(s.work, DoneCount) == Sum(s.workers, Completed)
    && Sum(s.workers, Failed) == Sum(s.pkgs, NumFails) == Sum(s.commits, Failure)
    && Sum(s.workers, Cached) == s.cacheHits == Sum(s.commits, CacheHit)
    && Sum(s.workers, Duration) == Sum(s.pkgs, RunIn) == Sum(s.commits, TimeOf)
    && |s.infra| == Sum(s.commits, InfraError)
  }

  /** Each commit finished a different task, and a task is done exactly when it was committed. */
  ghost predicate OncePerTask(s: State) {
    && (forall i | 0 <= i < |s.commits| :: s.commits[i].task < |s.work|)
    && (forall i, j | 0 <= i < j < |s.commits| :: s.commits[i].task != s.commits[j].task)
    && (forall t | 0 <= t < |s.work| :: s.work[t].done <==> exists i :: 0 <= i < |s.commits| && s.commits[i].task == t)
  }

  /** `r` differs from `s` in leases, connections and known binaries only. */
  ghost predicate Untouched(s: State, r: State) {
    && |r.workers| == |s.workers| && |r.work| == |s.work|
    && (forall w | 0 <= w < |s.workers| ::
          r.workers[w] == s.workers[w].(connected := r.workers[w].connected, error := r.workers[w].error,
                                        binaries := r.workers[w].binaries, leases := r.workers[w].leases))
    && (forall t | 0 <= t < |s.work| :: r.work[t] == s.work[t].(leases := r.work[t].leases))
    && r == s.(workers := r.workers, work := r.work, leases := r.leases, nextID := r.nextID,
               stopped := r.stopped, notifies := r.notifies)
  }

  lemma UntouchedConserved(s: State, r: State)
    requires Untouched(s, r) && Conserved(s)
    ensures Conserved(r)
  {
    SumPointwise(s.work, r.work, DoneCount);
    SumPointwise(s.workers, r.workers, Completed);
    SumPointwise(s.workers, r.workers, Failed);
    SumPointwise(s.workers, r.workers, Cached);
    SumPointwise(s.workers, r.workers, Duration);
  }

  lemma BookWorkers(s: State, w: nat, t: nat, r: WorkerResult)
    requires w < |s.workers| && t < |s.work| && s.work[t].pkg < |s.pkgs|
    ensures var b := Book(s, w, t, r);
      && Sum(b.workers, Completed) == Sum(s.workers, Completed) + 1
      && Sum(b.workers, Failed) == Sum(s.workers, Failed) + Failure(Commit(t, w, r))
      && Sum(b.workers, Cached) == Sum(s.workers, Cached) + CacheHit(Commit(t, w, r))
      && Sum(b.workers, Duration) == Sum(s.workers, Duration) + r.duration
  {
    var c := Credit(s.workers[w], r);
    SumUpdate(s.workers, w, c, Completed);
    SumUpdate(s.workers, w, c, Failed);
    SumUpdate(s.workers, w, c, Cached);
    SumUpdate(s.workers, w, c, Duration);
  }

  lemma BookCommits(s: State, w: nat, t: nat, r: WorkerResult)
    requires w < |s.workers| && t < |s.work| && s.work[t].pkg < |s.pkgs|
    ensures var b := Book(s, w, t, r);
      && Sum(b.commits, Failure) == Sum(s.commits, Failure) + Failure(Commit(t, w, r))
      && Sum(b.commits, CacheHit) == Sum(s.commits, CacheHit) + CacheHit(Commit(t, w, r))
      && Sum(b.commits, TimeOf) == Sum(s.commits, TimeOf) + r.duration
      && Sum(b.commits, InfraError) == Sum(s.commits, InfraError) + InfraError(Commit(t, w, r))
  {
    var c := [Commit(t, w, r)];
    SumAppend(s.commits, c, Failure);
    SumAppend(s.commits, c, CacheHit);
    SumAppend(s.commits, c, TimeOf);
    SumAppend(s.commits, c, InfraError);
  }

  lemma BookConserves(s: State, w: nat, t: nat, r: WorkerResult)
    requires Conserved(s) && w < |s.workers| && t < |s.work| && s.work[t].pkg < |s.pkgs| && !s.work[t].done
    ensures Conserved(Book(s, w, t, r))
  {
    BookWorkers(s, w, t, r);
    BookCommits(s, w, t, r);
    SumUpdate(s.work, t, s.work[t].(done := true), DoneCount);
    var p := s.work[t].pkg;
    SumUpdate(s.pkgs, p, Charge(s.pkgs[p], r), NumFails);
    SumUpdate(s.pkgs, p, Charge(s.pkgs[p], r), RunIn);
  }

  lemma UntouchedOnce(s: State, r: State)
    requires Untouched(s, r) && OncePerTask(s)
    ensures OncePerTask(r)
  {
  }

  lemma BookOnce(s: State, w: nat, t: nat, r: WorkerResult)
    requires OncePerTask(s) && w < |s.workers| && t < |s.work| && s.work[t].pkg < |s.pkgs| && !s.work[t].done
    ensures OncePerTask(Book(s, w, t, r))
  {
    var b := Book(s, w, t, r);
    assert forall i | 0 <= i < |s.commits| :: b.commits[i] == s.commits[i];
    assert b.commits[|s.commits|].task == t;
    forall u | 0 <= u < |b.work|
      ensures b.work[u].done <==> exists i :: 0 <= i < |b.commits| && b.commits[i].task == u
    {
      if s.work[u].done {
        var i :| 0 <= i < |s.commits| && s.commits[i].task == u;
        assert b.commits[i].task == u;
      }
    }
  }

  // ------------------------------------------------------------------------------------------
  // Fail-fast, the run loop and the wake-up token
  // ------------------------------------------------------------------------------------------

  ghost predicate LoopInv(s: State) {
    && (s.failFast ==> Sum(s.commits, Failure) <= 1 && (Sum(s.commits, Failure) == 1 ==> s.cancelled))
    && (s.loop == Exited ==> s.done == |s.work| || s.cancelled)
    && (s.loop == Waiting && s.done == |s.work| && !s.cancelled ==> s.wake || s.notifies > 0)
    && (!s.ready ==> s.work == [] && s.leases == map[] && s.commits == [] && s.pkgs == [] && s.loop == Checking)
    && Sorted(s.work)
  }

  /** The error run() returns, after the loop exited. */
  datatype Verdict = Passed | InfraFailure | TestsFailed(n: nat) | Interrupted

  function RunVerdict(s: State): Verdict {
    if s.infra != [] then InfraFailure
    else if Sum(s.pkgs, NumFails) != 0 then TestsFailed(Sum(s.pkgs, NumFails))
    else if s.cancelled then Interrupted
    else Passed
  }

  // ------------------------------------------------------------------------------------------
  // The load bound
  // ------------------------------------------------------------------------------------------

  function MaxEstimate(work: seq<Task>): nat {
    if work == [] then 0 else Max(work[0].estimate, MaxEstimate(work[1..]))
  }

  lemma {:induction false} MaxEstimateBounds(work: seq<Task>, t: nat)
    requires t < |work|
    ensures work[t].estimate <= MaxEstimate(work)
  {
    if t > 0 {
      MaxEstimateBounds(work[1..], t - 1);
    }
  }

  lemma {:induction false} MaxEstimateSame(a: seq<Task>, b: seq<Task>)
    requires |a| == |b| && forall t | 0 <= t < |a| :: a[t].estimate == b[t].estimate
    ensures MaxEstimate(a) == MaxEstimate(b)
  {
    if a != [] {
      MaxEstimateSame(a[1..], b[1..]);
    }
  }

  /**
    A helper holds at most ten leases beyond its slots; and any worker that holds more leases than
    slots has less than one batch of work plus one task.
   */
  ghost predicate LoadedIn(s: State, w: nat)
    requires w < |s.workers|
  {
    var k := s.workers[w];
    && (k.leader || |k.leases| <= k.slots + BATCH_LIMIT)
    && (|k.leases| <= k.slots || Held(s, w) < BATCH_TARGET * k.slots + MaxEstimate(s.work))
  }

  ghost predicate LoadInv(s: State) {
    forall w | 0 <= w < |s.workers| :: LoadedIn(s, w)
  }

  /** Worker `w` of `r` holds a part of what it holds in `s`. */
  ghost predicate Lighter(s: State, r: State, w: nat) {
    && w < |s.workers| && w < |r.workers|
    && r.workers[w].slots == s.workers[w].slots && r.workers[w].leader == s.workers[w].leader
    && r.workers[w].leases <= s.workers[w].leases
    && (forall id | id in r.workers[w].leases ::
          id in s.leases && id in r.leases && r.leases[id].task == s.leases[id].task)
  }

  ghost predicate SameEstimates(s: State, r: State) {
    |r.work| == |s.work| && forall t | 0 <= t < |s.work| :: r.work[t].estimate == s.work[t].estimate
  }

  lemma LighterKeepsLoad(s: State, r: State, w: nat)
    requires Lighter(s, r, w) && SameEstimates(s, r)
    ensures |r.workers[w].leases| <= |s.workers[w].leases| && Held(r, w) <= Held(s, w)
    ensures LoadedIn(s, w) ==> LoadedIn(r, w)
  {
    var ids := r.workers[w].leases;
    CardSubset(ids, s.workers[w].leases);
    SetSumEqual(ids, EstimateOf(r), EstimateOf(s));
    SetSumSubset(ids, s.workers[w].leases, EstimateOf(s));
    MaxEstimateSame(s.work, r.work);
  }

  lemma AddHeld(s: State, w: nat, t: nat, now: int)
    requires w < |s.workers| && t < |s.work| && s.nextID + 1 !in s.workers[w].leases
    ensures Held(AddLease(s, w, t, now), w) == Held(s, w) + s.work[t].estimate
  {
    var r := AddLease(s, w, t, now);
    var ids := s.workers[w].leases;
    assert r.workers[w].leases == ids + {r.nextID};
    hide SetSum;
    SetSumRemove(r.workers[w].leases, r.nextID, EstimateOf(r));
    assert r.workers[w].leases - {r.nextID} == ids;
    SetSumEqual(ids, EstimateOf(r), EstimateOf(s));
  }

  lemma AddLoadsOwn(s: State, w: nat, t: nat, now: int)
    requires Linked(s) && w < |s.workers| && t < |s.work| && Room(s, w)
    requires s.workers[w].leader || |s.workers[w].leases| < s.workers[w].slots + BATCH_LIMIT
    ensures LoadedIn(AddLease(s, w, t, now), w)
  {
    hide Linked, Held, MaxEstimate, EstimateOf;
    var r := AddLease(s, w, t, now);
    FreshNumber(s, w);
    AddHeld(s, w, t, now);
    MaxEstimateSame(s.work, r.work);
    MaxEstimateBounds(s.work, t);
    AddOne(s.workers[w].leases, r.nextID);
  }

  lemma FreshNumber(s: State, w: nat)
    requires Linked(s) && w < |s.workers|
    ensures s.nextID + 1 !in s.workers[w].leases
  {
    assert forall id | id in s.workers[w].leases :: id in s.leases;
    assert s.nextID + 1 !in s.leases;
  }

  lemma AddOne(a: set<nat>, x: nat)
    requires x !in a
    ensures |a + {x}| == |a| + 1
  {
  }

  lemma AddLoadsOther(s: State, w: nat, t: nat, now: int, v: nat)
    requires Linked(s) && w < |s.workers| && t < |s.work| && v < |s.workers| && v != w && LoadedIn(s, v)
    ensures LoadedIn(AddLease(s, w, t, now), v)
  {
    hide LoadedIn;
    LighterKeepsLoad(s, AddLease(s, w, t, now), v);
  }

  lemma AddKeepsLoad(s: State, w: nat, t: nat, now: int)
    requires Linked(s) && LoadInv(s) && w < |s.workers| && t < |s.work| && Room(s, w)
    requires s.workers[w].leader || |s.workers[w].leases| < s.workers[w].slots + BATCH_LIMIT
    ensures LoadInv(AddLease(s, w, t, now))
  {
    hide LoadedIn, Linked, Room;
    forall v | 0 <= v < |s.workers|
      ensures LoadedIn(AddLease(s, w, t, now), v)
    {
      if v == w {
        AddLoadsOwn(s, w, t, now);
      } else {
        AddLoadsOther(s, w, t, now, v);
      }
    }
  }

  lemma {:induction false} BatchKeepsLoad(s: State, w: nat, limit: int, now: int, picks: seq<nat>)
    requires LeaseInv(s) && LoadInv(s) && w < |s.workers| && s.workers[w].error == "" && InQueue(s, picks)
    requires Batch(s, w, limit, now, picks)
    requires s.workers[w].leader || limit <= s.workers[w].slots + BATCH_LIMIT - |s.workers[w].leases|
    ensures LoadInv(AddLeases(s, w, now, picks))
    decreases |picks|
  {
    assert PkgsKnown(s);
    hide LoadInv, Linked, Paired, Quiet, NextChoice, Room;
    if picks != [] {
      NextIsEligible(s, w, now, picks[0]);
      AddKeepsInv(s, w, now, picks[0]);
      AddKeepsLoad(s, w, picks[0], now);
      BatchKeepsLoad(AddLease(s, w, picks[0], now), w, limit - 1, now, picks[1..]);
    }
  }

  lemma AllLighter(s: State, r: State)
    requires |r.workers| == |s.workers| && SameEstimates(s, r) && LoadInv(s)
    requires forall w | 0 <= w < |s.workers| :: Lighter(s, r, w)
    ensures LoadInv(r)
  {
    forall w | 0 <= w < |r.workers|
      ensures LoadedIn(r, w)
    {
      assert LoadedIn(s, w);
      LighterKeepsLoad(s, r, w);
    }
  }

  lemma ExchangeKeepsLoad(s: State, w: nat, req: Request, now: int, picks: seq<nat>)
    requires LeaseInv(s) && LoadInv(s) && Enabled(s, EExchange(w, req, now, picks))
    ensures LoadInv(ExchangeTail(s, w, req, now, picks).0)
  {
    var beat := Heartbeat(s, w, req, now);
    HeartbeatKeepsLeases(s, w, req, now);
    AllLighter(s, beat);
    if Assigns(s, w) {
      BatchKeepsLoad(beat, w, ExchangeLimit(s, w), now, picks);
    }
  }

  lemma LocalKeepsLoad(s: State, w: nat, now: int, begun: int, t: nat)
    requires LeaseInv(s) && LoadInv(s) && Enabled(s, ELocalAssign(w, now, begun, t))
    ensures LoadInv(LocalAssign(s, w, now, begun, t))
  {
    assert NextChoice(s, w, now, Some([t][0]));
    AddKeepsLoad(s, w, t, now);
    AddKeepsLinked(s, w, now, t);
    AllLighter(AddLease(s, w, t, now), LocalAssign(s, w, now, begun, t));
  }

  lemma AddWorkerKeepsLoad(s: State, slots: nat, leader: bool)
    requires Linked(s) && LoadInv(s)
    ensures LoadInv(AddWorker(s, slots, leader))
  {
    var r := AddWorker(s, slots, leader);
    forall w | 0 <= w < |r.workers|
      ensures LoadedIn(r, w)
    {
      if w < |s.workers| {
        assert LoadedIn(s, w);
        LighterKeepsLoad(s, r, w);
      }
    }
  }

  lemma StartKeepsLoad(s: State, work: seq<Task>, pkgs: seq<Package>, w: nat)
    requires Linked(s) && s.leases == map[] && Enabled(s, EStart(work, pkgs, w))
    ensures LoadInv(Apply(s, EStart(work, pkgs, w)))
  {
    var r := Apply(s, EStart(work, pkgs, w));
    forall v | 0 <= v < |r.workers|
      ensures LoadedIn(r, v)
    {
      assert forall id | id in s.workers[v].leases :: id in s.leases;
      assert r.workers[v].leases == {};
    }
  }

  lemma AcceptKeepsLoad(s: State, w: nat, r: WorkerResult)
    requires Linked(s) && LoadInv(s) && w < |s.workers|
    ensures LoadInv(Accept(s, w, r))
  {
    if !Ignored(s, w, r) {
      GiveUpKeepsLoad(s, w, r.error);
      FinishKeepsLoad(s, w, s.leases[r.lease].task, r);
    }
  }

  lemma GiveUpKeepsLoad(s: State, w: nat, error: string)
    requires Linked(s) && LoadInv(s) && w < |s.workers|
    ensures LoadInv(GiveUp(s, w, error))
  {
    AllLighter(s, GiveUp(s, w, error));
  }

  lemma FinishKeepsLoad(s: State, w: nat, t: nat, r: WorkerResult)
    requires Linked(s) && LoadInv(s) && w < |s.workers| && t < |s.work|
    ensures LoadInv(Finish(s, w, t, r))
  {
    AllLighter(s, Finish(s, w, t, r));
  }

  lemma RemoveKeepsLoad(s: State, r: State, ids: set<nat>)
    requires Linked(s) && LoadInv(s) && r.workers == s.workers && r.work == s.work && r.leases == s.leases
    ensures LoadInv(RemoveLeases(r, ids))
  {
    AllLighter(s, RemoveLeases(r, ids));
  }

  lemma DisconnectKeepsLoad(s: State, w: nat, error: string)
    requires Linked(s) && LoadInv(s) && w < |s.workers|
    ensures LoadInv(Disconnect(s, w, error))
  {
    AllLighter(s, Disconnect(s, w, error));
  }

  lemma SameLeasesKeepLoad(s: State, r: State)
    requires Linked(s) && LoadInv(s) && r.workers == s.workers && r.work == s.work && r.leases == s.leases
    ensures LoadInv(r)
  {
    AllLighter(s, r);
  }

  lemma StepKeepsLoad(s: State, e: Event)
    requires LeaseInv(s) && LoadInv(s) && LoopInv(s) && Enabled(s, e)
    ensures LoadInv(Apply(s, e))
  {
    hide LoadInv, Linked, Paired, Quiet, Batch, TailPicks, Sorted;
    match e {
      case EExchange(w, req, now, picks) => ExchangeKeepsLoad(s, w, req, now, picks);
      case ELocalAssign(w, now, begun, t) => LocalKeepsLoad(s, w, now, begun, t);
      case EAddWorker(slots, leader) => AddWorkerKeepsLoad(s, slots, leader);
      case EStart(work, pkgs, w) => StartKeepsLoad(s, work, pkgs, w);
      case EAccept(w, r) => AcceptKeepsLoad(s, w, r);
      case EDisconnect(w, error) => DisconnectKeepsLoad(s, w, error);
      case EStop => RemoveKeepsLoad(s, s.(stopped := true), s.leases.Keys);
      case _ => SameLeasesKeepLoad(s, Apply(s, e));
    }
  }

  // ------------------------------------------------------------------------------------------
  // Every run
  // ------------------------------------------------------------------------------------------

  ghost predicate Inv(s: State) {
    LeaseInv(s) && LoadInv(s) && Books(s)
  }

  lemma InitialInv(failFast: bool)
    ensures Inv(Initial(failFast))
  {
  }

  lemma {:induction false} AddLeasesUntouched(s: State, w: nat, now: int, picks: seq<nat>)
    requires w < |s.workers| && InQueue(s, picks)
    ensures Untouched(s, AddLeases(s, w, now, picks))
    ensures AddLeases(s, w, now, picks).stopped == s.stopped && AddLeases(s, w, now, picks).notifies == s.notifies
    decreases |picks|
  {
    if picks != [] {
      AddLeasesUntouched(AddLease(s, w, picks[0], now), w, now, picks[1..]);
    }
  }

  ghost predicate Books(s: State) {
    Conserved(s) && OncePerTask(s) && LoopInv(s)
  }

  lemma FinishKeepsBooks(s: State, w: nat, t: nat, r: WorkerResult)
    requires Books(s) && w < |s.workers| && t < |s.work| && s.work[t].pkg < |s.pkgs|
    requires !s.work[t].done && !s.cancelled && s.ready
    ensures Books(Finish(s, w, t, r))
  {
    var b := Book(s, w, t, r);
    BookConserves(s, w, t, r);
    BookOnce(s, w, t, r);
    AllDone(s.work);
    BookKeepsLoop(s, w, t, r);
    UntouchedKeepsBooks(b, Finish(s, w, t, r));
  }

  /** The done count reaches the number of tasks exactly when every task is done. */
  lemma {:induction false} AllDone(work: seq<Task>)
    ensures Sum(work, DoneCount) <= |work|
    ensures Sum(work, DoneCount) == |work| <==> forall t | 0 <= t < |work| :: work[t].done
  {
    if work != [] {
      AllDone(work[1..]);
      assert forall t | 0 < t < |work| :: work[t] == work[1..][t - 1];
    }
  }

  lemma BookKeepsLoop(s: State, w: nat, t: nat, r: WorkerResult)
    requires LoopInv(s) && w < |s.workers| && t < |s.work| && s.work[t].pkg < |s.pkgs|
    requires s.done < |s.work| && !s.cancelled && s.ready
    ensures LoopInv(Book(s, w, t, r))
  {
    BookCommits(s, w, t, r);
  }

  lemma UntouchedKeepsBooks(s: State, r: State)
    requires Books(s) && Untouched(s, r)
    requires r.notifies >= s.notifies && (!s.ready ==> r.leases == map[])
    ensures Books(r)
  {
    UntouchedConserved(s, r);
    UntouchedOnce(s, r);
  }

  lemma AcceptKeepsBooks(s: State, w: nat, r: WorkerResult)
    requires Inv(s) && w < |s.workers|
    ensures Books(Accept(s, w, r))
  {
    if !Ignored(s, w, r) {
      assert s.leases[r.lease].worker == w;
      hide Paired, Quiet, LoadInv, Conserved, OncePerTask;
      if r.infra && !s.workers[w].leader {
        UntouchedKeepsBooks(s, GiveUp(s, w, r.error));
      } else {
        FinishKeepsBooks(s, w, s.leases[r.lease].task, r);
      }
    }
  }

  lemma ExchangeKeepsBooks(s: State, w: nat, req: Request, now: int, picks: seq<nat>)
    requires Books(s) && w < |s.workers| && PkgsKnown(s) && InQueue(s, picks) && (!s.ready ==> picks == [])
    ensures Books(ExchangeTail(s, w, req, now, picks).0)
  {
    AddLeasesUntouched(Heartbeat(s, w, req, now), w, now, picks);
    UntouchedKeepsBooks(s, ExchangeTail(s, w, req, now, picks).0);
  }

  lemma DisconnectKeepsBooks(s: State, w: nat, error: string)
    requires Books(s) && w < |s.workers|
    ensures Books(Disconnect(s, w, error))
  {
    UntouchedKeepsBooks(s, Disconnect(s, w, error));
  }

  lemma ExchangeStepKeepsBooks(s: State, w: nat, req: Request, now: int, picks: seq<nat>)
    requires Books(s) && Enabled(s, EExchange(w, req, now, picks))
    ensures Books(ExchangeTail(s, w, req, now, picks).0)
  {
    hide Books, Batch;
    ExchangeKeepsBooks(s, w, req, now, picks);
  }

  lemma LocalKeepsBooks(s: State, w: nat, now: int, begun: int, t: nat)
    requires Books(s) && w < |s.workers| && t < |s.work| && s.ready
    ensures Books(LocalAssign(s, w, now, begun, t))
  {
    hide Books;
    UntouchedKeepsBooks(s, LocalAssign(s, w, now, begun, t));
  }

  lemma StopKeepsBooks(s: State)
    requires Books(s)
    ensures Books(RemoveLeases(s.(stopped := true), s.leases.Keys))
  {
    UntouchedKeepsBooks(s, RemoveLeases(s.(stopped := true), s.leases.Keys));
  }

  lemma StepKeepsBooks(s: State, e: Event)
    requires Inv(s) && Enabled(s, e)
    ensures Books(Apply(s, e))
  {
    hide LeaseInv, LoadInv, Books, Linked, Batch, TailPicks, Sorted;
    match e {
      case EAccept(w, res) => AcceptKeepsBooks(s, w, res);
      case EExchange(w, req, now, picks) => ExchangeStepKeepsBooks(s, w, req, now, picks);
      case EAddWorker(slots, leader) => AddWorkerKeepsBooks(s, slots, leader);
      case EStart(work, pkgs, w) => StartKeepsBooks(s, work, pkgs, w);
      case EDisconnect(w, error) => DisconnectKeepsBooks(s, w, error);
      case ELocalAssign(w, now, begun, t) => LocalKeepsBooks(s, w, now, begun, t);
      case EStop => StopKeepsBooks(s);
      case _ => FlagsKeepBooks(s, e);
    }
  }

  lemma FlagsKeepCounts(s: State, r: State)
    requires Conserved(s) && OncePerTask(s) && OnlyFlags(s, r)
    ensures Conserved(r) && OncePerTask(r)
  {
  }

  lemma FlagsKeepBooks(s: State, e: Event)
    requires Books(s) && Enabled(s, e) && IsFlag(e)
    ensures Books(Apply(s, e))
  {
    FlagsKeepCounts(s, Apply(s, e));
    hide Conserved, OncePerTask, Sum;
  }

  lemma AddWorkerKeepsBooks(s: State, slots: nat, leader: bool)
    requires Books(s)
    ensures Books(AddWorker(s, slots, leader))
  {
    var added := [Worker(leader, slots, true, "", 0, 0, 0, 0, {}, {})];
    SumAppend(s.workers, added, Completed);
    SumAppend(s.workers, added, Failed);
    SumAppend(s.workers, added, Cached);
    SumAppend(s.workers, added, Duration);
  }

  lemma StartKeepsBooks(s: State, work: seq<Task>, pkgs: seq<Package>, w: nat)
    requires Books(s) && Enabled(s, EStart(work, pkgs, w))
    ensures Books(Apply(s, EStart(work, pkgs, w)))
  {
    var r := Apply(s, EStart(work, pkgs, w));
    SumZero(work, DoneCount);
    SumZero(pkgs, NumFails);
    SumZero(pkgs, RunIn);
    SumPointwise(s.workers, r.workers, Completed);
    SumPointwise(s.workers, r.workers, Failed);
    SumPointwise(s.workers, r.workers, Cached);
    SumPointwise(s.workers, r.workers, Duration);
  }

  lemma StepKeepsInv(s: State, e: Event)
    requires Inv(s) && Enabled(s, e)
    ensures Inv(Apply(s, e))
  {
    StepKeepsLeases(s, e);
    StepKeepsLoad(s, e);
    StepKeepsBooks(s, e);
  }

  /** Every reachable state of the leader satisfies the invariant. */
  lemma {:induction false} RunKeepsInv(s: State, events: seq<Event>)
    requires Inv(s) && Legal(s, events)
    ensures Inv(Run(s, events))
    decreases |events|
  {
    if events != [] {
      StepKeepsInv(s, events[0]);
      RunKeepsInv(Apply(s, events[0]), events[1..]);
    }
  }

  /** A run may go on with any event that is enabled at its end. */
  lemma {:induction false} RunOneMore(s: State, events: seq<Event>, e: Event)
    requires Legal(s, events) && Enabled(Run(s, events), e)
    ensures Legal(s, events + [e]) && Run(s, events + [e]) == Apply(Run(s, events), e)
    decreases |events|
  {
    var all := events + [e];
    if events == [] {
      assert all == [e];
      assert [e][1..] == [];
    } else {
      assert all[0] == events[0] && all[1..] == events[1..] + [e];
      RunOneMore(Apply(s, events[0]), events[1..], e);
    }
  }

  /**
    Whatever workers, results, exchanges, disconnections and clocks a run brings: the three lease
    maps describe one set, a task has at most two leases, far apart and on different workers,
    finished tasks and failed workers have none, every counter is conserved, and no task is
    committed twice.
   */
  lemma EveryRunIsSound(failFast: bool, events: seq<Event>)
    requires Legal(Initial(failFast), events)
    ensures var s := Run(Initial(failFast), events);
      Linked(s) && Paired(s) && Quiet(s) && Conserved(s) && OncePerTask(s) && Sorted(s.work)
  {
    InitialInv(failFast);
    RunKeepsInv(Initial(failFast), events);
  }

  /** However leases come and go, a helper never holds more than ten leases beyond its slots, nor more than a batch and a task. */
  lemma LoadIsBounded(failFast: bool, events: seq<Event>, w: nat)
    requires Legal(Initial(failFast), events) && w < |Run(Initial(failFast), events).workers|
    ensures var s := Run(Initial(failFast), events);
      var k := s.workers[w];
      && (k.leader || |k.leases| <= k.slots + 10)
      && (|k.leases| <= k.slots || Held(s, w) < 3_000_000_000 * k.slots + MaxEstimate(s.work))
  {
    InitialInv(failFast);
    RunKeepsInv(Initial(failFast), events);
    assert LoadedIn(Run(Initial(failFast), events), w);
  }

  // ------------------------------------------------------------------------------------------
  // What a run promises
  // ------------------------------------------------------------------------------------------

  /** `r` follows `s`: surviving leases keep their task and worker, every other lease has a new number. */
  ghost predicate Follows(s: State, r: State) {
    && s.nextID <= r.nextID
    && (forall id | id in r.leases ::
          if id in s.leases then r.leases[id].task == s.leases[id].task && r.leases[id].worker == s.leases[id].worker
          else s.nextID < id)
  }

  lemma {:induction false} AddLeasesFollow(s: State, w: nat, now: int, picks: seq<nat>)
    requires Linked(s) && w < |s.workers| && InQueue(s, picks)
    ensures Follows(s, AddLeases(s, w, now, picks)) && Linked(AddLeases(s, w, now, picks))
    decreases |picks|
  {
    if picks != [] {
      AddKeepsLinked(s, w, now, picks[0]);
      AddLeasesFollow(AddLease(s, w, picks[0], now), w, now, picks[1..]);
    }
  }

  lemma ExchangeFollows(s: State, w: nat, req: Request, now: int, picks: seq<nat>)
    requires LeaseInv(s) && w < |s.workers| && InQueue(s, picks)
    ensures Follows(s, ExchangeTail(s, w, req, now, picks).0)
  {
    HeartbeatKeepsLeases(s, w, req, now);
    AddLeasesFollow(Heartbeat(s, w, req, now), w, now, picks);
  }

  lemma AcceptFollows(s: State, w: nat, r: WorkerResult)
    requires Linked(s) && w < |s.workers|
    ensures Follows(s, Accept(s, w, r))
  {
  }

  lemma StepFollows(s: State, e: Event)
    requires LeaseInv(s) && Enabled(s, e)
    ensures Follows(s, Apply(s, e))
  {
    hide Paired, Quiet, Batch, TailPicks, Sorted, Accept, ExchangeTail;
    match e {
      case EExchange(w, req, now, picks) => ExchangeFollows(s, w, req, now, picks);
      case EAccept(w, r) => AcceptFollows(s, w, r);
      case EDisconnect(w, error) => assert Follows(s, Disconnect(s, w, error));
      case ELocalAssign(w, now, begun, t) => assert Follows(s, LocalAssign(s, w, now, begun, t));
      case _ =>
    }
  }

  /** A lease number is never reused: once revoked, it is revoked for the rest of the run. */
  lemma {:induction false} RevokedForever(s: State, events: seq<Event>, id: nat)
    requires Inv(s) && Legal(s, events) && id <= s.nextID && id !in s.leases
    ensures id <= Run(s, events).nextID && id !in Run(s, events).leases
    decreases |events|
  {
    if events != [] {
      StepFollows(s, events[0]);
      StepKeepsInv(s, events[0]);
      RevokedForever(Apply(s, events[0]), events[1..], id);
    }
  }

  /** A late, duplicate or revoked result changes nothing, whichever worker sends it and whenever. */
  lemma LateResultChangesNothing(s: State, events: seq<Event>, w: nat, r: WorkerResult)
    requires Inv(s) && Legal(s, events) && r.lease <= s.nextID && r.lease !in s.leases
    requires w < |Run(s, events).workers| && Linked(Run(s, events))
    ensures Accept(Run(s, events), w, r) == Run(s, events)
  {
    RevokedForever(s, events, r.lease);
  }

  /** Accepting a result ends its lease, so a second result for the same lease is late. */
  lemma AcceptEndsLease(s: State, w: nat, r: WorkerResult)
    requires Inv(s) && w < |s.workers| && r.lease in s.workers[w].leases && !s.stopped && !s.cancelled
    ensures r.lease !in Accept(s, w, r).leases && r.lease <= Accept(s, w, r).nextID
  {
    var t := s.leases[r.lease].task;
    assert r.lease in s.work[t].leases;
  }

  lemma AcceptAppends(s: State, w: nat, r: WorkerResult)
    requires w < |s.workers| && Linked(s)
    ensures s.commits <= Accept(s, w, r).commits && Accept(s, w, r).failFast == s.failFast
  {
    hide DropFromWorkers, DropFromWork;
  }

  lemma ExchangeAppends(s: State, w: nat, req: Request, now: int, picks: seq<nat>)
    requires w < |s.workers| && PkgsKnown(s) && InQueue(s, picks)
    ensures var r := ExchangeTail(s, w, req, now, picks).0; r.commits == s.commits && r.failFast == s.failFast
  {
    AddLeasesUntouched(Heartbeat(s, w, req, now), w, now, picks);
  }

  /** An event only appends commits, and whether to fail fast is fixed. */
  lemma StepAppends(s: State, e: Event)
    requires Enabled(s, e)
    ensures s.commits <= Apply(s, e).commits && Apply(s, e).failFast == s.failFast
  {
    hide Linked, Batch, TailPicks, Sorted, PkgsKnown, Accept, ExchangeTail, DropFromWorkers, DropFromWork;
    match e {
      case EAccept(w, r) => AcceptAppends(s, w, r);
      case EExchange(w, req, now, picks) => ExchangeAppends(s, w, req, now, picks);
      case _ =>
    }
  }

  /** A committed result is final: later events only append to the commits. */
  lemma {:induction false} CommitsAreFinal(s: State, events: seq<Event>)
    requires Inv(s) && Legal(s, events)
    ensures s.commits <= Run(s, events).commits
    decreases |events|
  {
    if events != [] {
      StepAppends(s, events[0]);
      StepKeepsInv(s, events[0]);
      CommitsAreFinal(Apply(s, events[0]), events[1..]);
    }
  }

  ghost predicate Clean(c: Commit) {
    c.result.passed && !c.result.infra
  }

  /**
    run() returns nil exactly when every task was committed exactly once, each as passed without
    an infrastructure error, and the run was not interrupted.
   */
  lemma VerdictIsSound(failFast: bool, events: seq<Event>)
    requires Legal(Initial(failFast), events)
    ensures var s := Run(Initial(failFast), events);
      s.loop == Exited ==>
        (RunVerdict(s) == Passed <==>
          && !s.cancelled && |s.commits| == |s.work| && OncePerTask(s)
          && (forall t | 0 <= t < |s.work| :: s.work[t].done)
          && (forall i | 0 <= i < |s.commits| :: Clean(s.commits[i])))
  {
    InitialInv(failFast);
    RunKeepsInv(Initial(failFast), events);
    hide Run, LeaseInv, LoadInv, Books, RunVerdict, OncePerTask;
    if Run(Initial(failFast), events).loop == Exited {
      VerdictOf(Run(Initial(failFast), events));
    }
  }

  lemma VerdictOf(s: State)
    requires Books(s) && s.loop == Exited
    ensures RunVerdict(s) == Passed <==>
      && !s.cancelled && |s.commits| == |s.work| && OncePerTask(s)
      && (forall t | 0 <= t < |s.work| :: s.work[t].done)
      && (forall i | 0 <= i < |s.commits| :: Clean(s.commits[i]))
  {
    AllDone(s.work);
    AllClean(s.commits);
    hide OncePerTask, Sum, Clean;
  }

  lemma AllClean(commits: seq<Commit>)
    ensures Sum(commits, Failure) == 0 && Sum(commits, InfraError) == 0 <==> forall i | 0 <= i < |commits| :: Clean(commits[i])
  {
    SumZero(commits, Failure);
    SumZero(commits, InfraError);
    assert forall i | 0 <= i < |commits| :: Clean(commits[i]) <==> Failure(commits[i]) == 0 && InfraError(commits[i]) == 0;
  }

  /** With fail-fast, at most one failure is ever recorded, however many results arrive. */
  lemma FailFastRecordsOneFailure(events: seq<Event>)
    requires Legal(Initial(true), events)
    ensures Sum(Run(Initial(true), events).pkgs, NumFails) <= 1
  {
    InitialInv(true);
    RunKeepsInv(Initial(true), events);
    FailFastFixed(Initial(true), events);
  }

  lemma {:induction false} FailFastFixed(s: State, events: seq<Event>)
    requires Inv(s) && Legal(s, events)
    ensures Run(s, events).failFast == s.failFast
    decreases |events|
  {
    if events != [] {
      StepAppends(s, events[0]);
      StepKeepsInv(s, events[0]);
      FailFastFixed(Apply(s, events[0]), events[1..]);
    }
  }

  /** The run loop never sleeps through the last commit: the token is there, or a notify will bring it. */
  lemma NoLostWakeup(failFast: bool, events: seq<Event>)
    requires Legal(Initial(failFast), events)
    ensures var s := Run(Initial(failFast), events);
      s.loop == Waiting && (s.done == |s.work| || s.cancelled) ==>
        || Enabled(s, ELoopWake(true)) || Enabled(s, ELoopWake(false))
        || (Enabled(s, ENotify) && Enabled(Apply(s, ENotify), ELoopWake(true)))
  {
    InitialInv(failFast);
    RunKeepsInv(Initial(failFast), events);
  }

  /**
    On the sorted queue, fresh work is never starved and the choice is near-greedy: whenever some
    task is unleased, nextLocked returns an unleased task among the first five, whose estimate is
    within a fifth of the largest estimate of any unleased task.
   */
  lemma ChoiceIsNearGreedy(s: State, w: nat, now: int, choice: Option<nat>, i: nat)
    requires Inv(s) && w < |s.workers| && NextChoice(s, w, now, choice) && Fresh(s, i)
    ensures choice.Some? && Fresh(s, choice.value) && FreshBefore(s, choice.value) < 5
    ensures s.work[choice.value].estimate >= s.work[i].estimate - s.work[i].estimate / 5
  {
    var t := choice.value;
    var f: nat :| FreshChoice(s, w, f, t);
    assert f <= i;
    assert s.work[f].estimate >= s.work[i].estimate;
  }
}
