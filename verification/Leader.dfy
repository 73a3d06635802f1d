/**
  The leader as the program keeps it: mutable maps and counters, and the status fields that the
  progress line and the web page read. For every event of the Fleet model there is a method that
  performs it and keeps the derived status in agreement with the leases, so that agreement is a law
  of every run.
 */
module Leaders {
  import opened Common
  import opened Fleet
  import opened FleetSafety
  import opened SlowestFirstQueue

  datatype PkgState = Built | Testing | Finished

  // ------------------------------------------------------------------------------------------
  // Derived status
  // ------------------------------------------------------------------------------------------

  ghost predicate RunsNow(s: State, t: nat)
    requires t < |s.work|
  {
    exists id :: id in s.work[t].leases && id in s.leases && s.leases[id].state == Running
  }

  /** `at` is the earliest start among the running leases of task `t`. */
  ghost predicate EarliestStart(s: State, t: nat, at: Option<int>)
    requires t < |s.work|
  {
    && at.Some?
    && (exists id :: id in s.work[t].leases && id in s.leases && s.leases[id].state == Running && s.leases[id].started == at)
    && (forall id | id in s.work[t].leases && id in s.leases && s.leases[id].state == Running ::
          s.leases[id].started.Some? && at.value <= s.leases[id].started.value)
  }

  /** An undone test is shown running exactly when a live lease of it is, since that lease's start. */
  ghost predicate TestAgrees(s: State, t: nat, running: bool, started: Option<int>)
    requires t < |s.work|
  {
    !s.work[t].done ==> (running <==> RunsNow(s, t)) && (running ==> EarliestStart(s, t, started))
  }

  ghost predicate AllOf(work: seq<Task>, p: nat) {
    forall t | 0 <= t < |work| && work[t].pkg == p :: work[t].done
  }

  ghost predicate SomeOf(work: seq<Task>, p: nat) {
    exists t :: 0 <= t < |work| && work[t].pkg == p
  }

  /** Every test's status agrees with its leases, except possibly that of `t`. */
  ghost predicate TestsAgreeBut(s: State, running: seq<bool>, started: seq<Option<int>>, t: int) {
    && |running| == |s.work| && |started| == |s.work|
    && forall u | 0 <= u < |s.work| && u != t :: TestAgrees(s, u, running[u], started[u])
  }

  /** A package with runnable tests is shown finished exactly when all of them are done. */
  ghost predicate PackagesAgree(s: State, pkgState: seq<PkgState>) {
    |pkgState| == |s.pkgs| && forall p | 0 <= p < |s.pkgs| && SomeOf(s.work, p) :: pkgState[p] == Finished <==> AllOf(s.work, p)
  }

  /** Running leases have a start time. */
  ghost predicate Timed(s: State) {
    forall id | id in s.leases && s.leases[id].state == Running :: s.leases[id].started.Some?
  }

  /** The lease maps describe one set, and the status of every test but `t` is up to date. */
  ghost predicate Consistent(s: State, running: seq<bool>, started: seq<Option<int>>, pkgState: seq<PkgState>, t: int) {
    Linked(s) && Timed(s) && TestsAgreeBut(s, running, started, t) && PackagesAgree(s, pkgState)
  }

  // ------------------------------------------------------------------------------------------
  // Revoking one lease at a time
  // ------------------------------------------------------------------------------------------

  lemma DropOne(s: State, id: nat)
    requires Linked(s) && id in s.leases
    ensures var l := s.leases[id];
      && DropFromWorkers(s.workers, {id}) == s.workers[l.worker := s.workers[l.worker].(leases := s.workers[l.worker].leases - {id})]
      && DropFromWork(s.work, {id}) == s.work[l.task := s.work[l.task].(leases := s.work[l.task].leases - {id})]
  {
    forall w | 0 <= w < |s.workers| && w != s.leases[id].worker
      ensures s.workers[w].leases - {id} == s.workers[w].leases
    {
    }
    forall t | 0 <= t < |s.work| && t != s.leases[id].task
      ensures s.work[t].leases - {id} == s.work[t].leases
    {
    }
  }

  lemma DropMore(s: State, a: set<nat>, id: nat)
    ensures RemoveLeases(RemoveLeases(s, a), {id}) == RemoveLeases(s, a + {id})
  {
    var x, y := RemoveLeases(RemoveLeases(s, a), {id}), RemoveLeases(s, a + {id});
    assert forall w | 0 <= w < |s.workers| :: s.workers[w].leases - a - {id} == s.workers[w].leases - (a + {id});
    assert forall t | 0 <= t < |s.work| :: s.work[t].leases - a - {id} == s.work[t].leases - (a + {id});
    assert x.leases == y.leases;
    assert x.workers == y.workers;
    assert x.work == y.work;
  }

  lemma DropNone(s: State)
    ensures RemoveLeases(s, {}) == s
  {
    assert forall w | 0 <= w < |s.workers| :: s.workers[w].leases - {} == s.workers[w].leases;
    assert forall t | 0 <= t < |s.work| :: s.work[t].leases - {} == s.work[t].leases;
    assert s.leases - {} == s.leases;
    assert DropFromWorkers(s.workers, {}) == s.workers;
    assert DropFromWork(s.work, {}) == s.work;
  }

  /** A task whose own leases are untouched keeps its status. */
  lemma StatusFrame(s: State, r: State, t: nat, running: bool, started: Option<int>)
    requires t < |s.work| && t < |r.work| && TestAgrees(s, t, running, started)
    requires r.work[t].done == s.work[t].done && r.work[t].leases == s.work[t].leases
    requires forall id | id in s.work[t].leases :: id in s.leases && id in r.leases && r.leases[id] == s.leases[id]
    ensures TestAgrees(r, t, running, started)
  {
    if RunsNow(s, t) {
      var id :| id in s.work[t].leases && s.leases[id].state == Running;
      assert r.leases[id].state == Running;
    }
    if running && !s.work[t].done {
      var id :| id in s.work[t].leases && s.leases[id].state == Running && s.leases[id].started == started;
      assert r.leases[id].started == started;
    }
  }

  /** Packages read only which of their tests are done. */
  lemma PackageFrame(a: seq<Task>, b: seq<Task>, p: nat)
    requires |a| == |b| && forall t | 0 <= t < |a| :: a[t].pkg == b[t].pkg && a[t].done == b[t].done
    ensures SomeOf(a, p) == SomeOf(b, p) && AllOf(a, p) == AllOf(b, p)
  {
    if SomeOf(a, p) {
      var t :| 0 <= t < |a| && a[t].pkg == p;
      assert b[t].pkg == p;
    }
    if SomeOf(b, p) {
      var t :| 0 <= t < |b| && b[t].pkg == p;
      assert a[t].pkg == p;
    }
  }

  /** Revoking a lease leaves the status of every other task, and of the packages, as it was. */
  lemma RevokeFrame(s: State, id: nat, running: seq<bool>, started: seq<Option<int>>, pkgState: seq<PkgState>)
    requires Consistent(s, running, started, pkgState, -1) && id in s.leases
    ensures Consistent(RemoveLeases(s, {id}), running, started, pkgState, s.leases[id].task) && s.leases[id].task < |s.work|
  {
    var r := RemoveLeases(s, {id});
    RemoveKeepsLinked(s, {id});
    forall u | 0 <= u < |s.work| && u != s.leases[id].task
      ensures TestAgrees(r, u, running[u], started[u])
    {
      assert r.work[u].leases == s.work[u].leases;
      StatusFrame(s, r, u, running[u], started[u]);
    }
    forall p: nat
      ensures SomeOf(s.work, p) == SomeOf(r.work, p) && AllOf(s.work, p) == AllOf(r.work, p)
    {
      PackageFrame(s.work, r.work, p);
    }
  }

  /** Storing a recomputed status makes it agree, and an undone test's package is not finished. */
  lemma StatusSet(s: State, running: seq<bool>, started: seq<Option<int>>, pkgState: seq<PkgState>, t: nat, on: bool, since: Option<int>)
    requires t < |s.work| && !s.work[t].done
    requires Consistent(s, running, started, pkgState, t) && TestAgrees(s, t, on, since)
    ensures s.work[t].pkg < |pkgState| && |running| == |s.work| && |started| == |s.work|
    ensures Consistent(s, running[t := on], started[t := since], pkgState, -1)
    ensures Consistent(s, running[t := on], started[t := since], pkgState[s.work[t].pkg := Testing], -1)
  {
  }

  /** The status reads the tasks' leases and done flags, and nothing else. */
  lemma EditFrame(s: State, r: State, running: seq<bool>, started: seq<Option<int>>, pkgState: seq<PkgState>)
    requires r.work == s.work && r.leases == s.leases && |r.pkgs| == |s.pkgs| && SameShape(s, r)
    requires Consistent(s, running, started, pkgState, -1)
    ensures Consistent(r, running, started, pkgState, -1)
  {
    ShapeKeeps(s, r);
    forall u | 0 <= u < |s.work| && !s.work[u].done
      ensures TestAgrees(r, u, running[u], started[u])
    {
      assert RunsNow(r, u) == RunsNow(s, u);
      assert running[u] ==> EarliestStart(r, u, started[u]) == EarliestStart(s, u, started[u]);
    }
  }

  /** Booking a result finishes one test: no other test changes, and its package is finished if it was the last. */
  lemma BookFrame(s: State, b: State, w: nat, t: nat, r: WorkerResult, on: seq<bool>, since: seq<Option<int>>,
                  ps: seq<PkgState>, on': seq<bool>, ps': seq<PkgState>)
    requires w < |s.workers| && t < |s.work| && PkgsKnown(s) && b == Book(s, w, t, r)
    requires Consistent(s, on, since, ps, -1)
    requires on' == on[t := false] && |ps'| == |ps|
    requires forall p | 0 <= p < |ps| && p != s.work[t].pkg :: ps'[p] == ps[p]
    requires AllOf(b.work, s.work[t].pkg) ==> ps'[s.work[t].pkg] == Finished
    requires !AllOf(b.work, s.work[t].pkg) ==> ps'[s.work[t].pkg] == ps[s.work[t].pkg]
    requires !s.work[t].done
    ensures Consistent(b, on', since, ps', -1)
  {
    ShapeKeeps(s, b);
    forall u | 0 <= u < |b.work|
      ensures TestAgrees(b, u, on'[u], since[u])
    {
      if u != t {
        assert RunsNow(b, u) == RunsNow(s, u);
        assert on[u] && !s.work[u].done ==> EarliestStart(b, u, since[u]);
      }
    }
    forall p | 0 <= p < |b.pkgs| && SomeOf(b.work, p)
      ensures ps'[p] == Finished <==> AllOf(b.work, p)
    {
      var u :| 0 <= u < |b.work| && b.work[u].pkg == p;
      assert s.work[u].pkg == p;
      if p == s.work[t].pkg {
        assert !AllOf(s.work, p);
      } else {
        assert forall v | 0 <= v < |s.work| && v != t :: b.work[v] == s.work[v];
      }
    }
  }

  /** The leader does exactly what the event says, where the event may happen. */
  ghost predicate Performs(s: State, e: Event, r: State) {
    Enabled(s, e) && r == Apply(s, e)
  }

  /** The events of accepting some results one after the other. */
  function AcceptEvents(w: nat, results: seq<WorkerResult>): seq<Event> {
    seq(|results|, i requires 0 <= i < |results| => EAccept(w, results[i]))
  }

  /** The run `events` leads from `s` to `r`. */
  ghost predicate Leads(s: State, events: seq<Event>, r: State) {
    Legal(s, events) && r == Run(s, events)
  }

  lemma LeadsOn(s: State, events: seq<Event>, m: State, e: Event, r: State)
    requires Leads(s, events, m) && Performs(m, e, r)
    ensures Leads(s, events + [e], r)
  {
    RunOneMore(s, events, e);
  }

  lemma AcceptEventsNext(w: nat, results: seq<WorkerResult>, i: nat)
    requires i < |results|
    ensures AcceptEvents(w, results[..i + 1]) == AcceptEvents(w, results[..i]) + [EAccept(w, results[i])]
  {
  }

  lemma AcceptKeepsWorkers(s: State, w: nat, r: WorkerResult)
    requires w < |s.workers| && Linked(s)
    ensures var a := Fleet.Accept(s, w, r); |a.workers| == |s.workers| && a.workers[w].leader == s.workers[w].leader
  {
  }

  /** Flags are not part of the status. */
  lemma FlagFrame(s: State, r: State, running: seq<bool>, started: seq<Option<int>>, pkgState: seq<PkgState>)
    requires LeaseInv(s) && Consistent(s, running, started, pkgState, -1)
    requires OnlyFlags(s, r)
    ensures LeaseInv(r) && Consistent(r, running, started, pkgState, -1)
  {
    FlagsKeepLeases(s, r);
    EditFrame(s, r, running, started, pkgState);
  }

  /** What booking a result leaves in place. */
  lemma BookedShape(s: State, w: nat, t: nat, r: WorkerResult, running: seq<bool>, started: seq<Option<int>>, pkgState: seq<PkgState>)
    requires Consistent(s, running, started, pkgState, -1) && w < |s.workers| && t < |s.work|
    ensures s.work[t].pkg < |s.pkgs| && PkgsKnown(s) && |pkgState| == |s.pkgs| && |running| == |s.work| && |started| == |s.work|
    ensures var b := Book(s, w, t, r); PkgsKnown(b) && b.work[t].leases == s.work[t].leases <= b.leases.Keys
  {
    HeldByTask(s, t);
  }

  lemma HeldByTask(s: State, t: nat)
    requires Linked(s) && t < |s.work|
    ensures s.work[t].leases <= s.leases.Keys
  {
  }

  /** The status of a finished test is nobody's concern. */
  lemma DoneAgrees(s: State, running: seq<bool>, started: seq<Option<int>>, t: nat)
    requires t < |s.work| && s.work[t].done && TestsAgreeBut(s, running, started, t)
    ensures TestsAgreeBut(s, running, started, -1)
  {
  }

  lemma HeldAreLive(s: State, w: nat)
    requires Linked(s) && w < |s.workers|
    ensures s.workers[w].leases <= s.leases.Keys
  {
  }

  lemma {:induction false} FreshBeforeGrows(s: State, i: nat, j: nat)
    requires i <= j
    ensures FreshBefore(s, i) <= FreshBefore(s, j)
  {
    if i < j {
      FreshBeforeGrows(s, i, j - 1);
    }
  }

  lemma {:induction false} FreshBeforeFirst(s: State, f: nat)
    requires forall j | 0 <= j < f :: !Fresh(s, j)
    ensures FreshBefore(s, f) == 0
  {
    if f > 0 {
      FreshBeforeFirst(s, f - 1);
    }
  }

  /** Each pick was legal when it was made; unlike Batch, more picks may follow. */
  ghost predicate Partial(s: State, w: nat, now: int, picks: seq<nat>)
    requires w < |s.workers| && PkgsKnown(s)
    decreases |picks|
  {
    picks != [] ==> Takes(s, w, now, picks[0]) && Partial(AddLease(s, w, picks[0], now), w, now, picks[1..])
  }

  lemma {:induction false} PartialInQueue(s: State, w: nat, now: int, picks: seq<nat>)
    requires w < |s.workers| && PkgsKnown(s) && Partial(s, w, now, picks)
    ensures InQueue(s, picks)
    decreases |picks|
  {
    if picks != [] {
      PartialInQueue(AddLease(s, w, picks[0], now), w, now, picks[1..]);
      forall i | 0 <= i < |picks|
        ensures picks[i] < |s.work|
      {
        if i > 0 {
          assert picks[i] == picks[1..][i - 1];
        }
      }
    }
  }

  lemma {:induction false} AddOneMore(s: State, w: nat, now: int, picks: seq<nat>, t: nat)
    requires w < |s.workers| && PkgsKnown(s) && InQueue(s, picks) && t < |s.work|
    ensures AddLeases(s, w, now, picks + [t]) == AddLease(AddLeases(s, w, now, picks), w, t, now)
    ensures Works(s, w, now, picks + [t]) == Works(s, w, now, picks) + [WorkOf(AddLeases(s, w, now, picks), t)]
    decreases |picks|
  {
    if picks != [] {
      assert (picks + [t])[1..] == picks[1..] + [t];
      AddOneMore(AddLease(s, w, picks[0], now), w, now, picks[1..], t);
    } else {
      assert picks + [t] == [t];
    }
  }

  lemma {:induction false} PartialMore(s: State, w: nat, now: int, picks: seq<nat>, t: nat)
    requires w < |s.workers| && PkgsKnown(s) && Partial(s, w, now, picks) && InQueue(s, picks) && t < |s.work|
    requires Takes(AddLeases(s, w, now, picks), w, now, t)
    ensures Partial(s, w, now, picks + [t])
    decreases |picks|
  {
    if picks != [] {
      assert (picks + [t])[1..] == picks[1..] + [t];
      PartialMore(AddLease(s, w, picks[0], now), w, now, picks[1..], t);
    } else {
      assert picks + [t] == [t];
    }
  }

  lemma {:induction false} PartialIsBatch(s: State, w: nat, limit: int, now: int, picks: seq<nat>)
    requires w < |s.workers| && PkgsKnown(s) && Partial(s, w, now, picks) && InQueue(s, picks)
    requires |picks| <= limit || picks == []
    requires Stops(AddLeases(s, w, now, picks), w, limit - |picks|, now)
    ensures Batch(s, w, limit, now, picks)
    decreases |picks|
  {
    hide Takes, Stops;
    assert picks == [] ==> AddLeases(s, w, now, picks) == s;
    if picks != [] {
      PartialIsBatch(AddLease(s, w, picks[0], now), w, limit - 1, now, picks[1..]);
    }
  }

  /** A new lease is queued, so it changes no status. */
  lemma IssueFrame(s: State, w: nat, t: nat, now: int, running: seq<bool>, started: seq<Option<int>>, pkgState: seq<PkgState>)
    requires Consistent(s, running, started, pkgState, -1) && w < |s.workers| && t < |s.work|
    ensures Consistent(AddLease(s, w, t, now), running, started, pkgState, -1)
  {
    var r := AddLease(s, w, t, now);
    AddKeepsLinked(s, w, now, t);
    forall u | 0 <= u < |s.work|
      ensures TestAgrees(r, u, running[u], started[u])
    {
      QueuedFrame(s, r, u, running[u], started[u]);
    }
    forall p: nat
      ensures SomeOf(s.work, p) == SomeOf(r.work, p) && AllOf(s.work, p) == AllOf(r.work, p)
    {
      PackageFrame(s.work, r.work, p);
    }
  }

  /** Gaining queued leases does not change a test's status. */
  lemma QueuedFrame(s: State, r: State, t: nat, running: bool, started: Option<int>)
    requires t < |s.work| && t < |r.work| && TestAgrees(s, t, running, started)
    requires r.work[t].done == s.work[t].done && s.work[t].leases <= r.work[t].leases
    requires forall id | id in s.work[t].leases :: id in s.leases && id in r.leases && r.leases[id] == s.leases[id]
    requires forall id | id in r.work[t].leases && id !in s.work[t].leases :: id in r.leases && r.leases[id].state == Queued
    ensures TestAgrees(r, t, running, started)
  {
    if RunsNow(s, t) {
      var id :| id in s.work[t].leases && s.leases[id].state == Running;
      assert r.leases[id].state == Running;
    }
    if running && !s.work[t].done {
      var id :| id in s.work[t].leases && s.leases[id].state == Running && s.leases[id].started == started;
      assert r.leases[id].started == started;
    }
  }

  /** One more pick leaves the leader consistent. */
  lemma TakeOne(s: State, w: nat, now: int, t: nat, running: seq<bool>, started: seq<Option<int>>, pkgState: seq<PkgState>)
    requires w < |s.workers| && LeaseInv(s) && s.workers[w].error == "" && Eligible(s, w, now, t)
    requires Consistent(s, running, started, pkgState, -1)
    ensures var q := AddLease(s, w, t, now);
      LeaseInv(q) && Consistent(q, running, started, pkgState, -1) && Held(q, w) == Held(s, w) + s.work[t].estimate
  {
    AddKeepsInv(s, w, now, t);
    IssueFrame(s, w, t, now, running, started, pkgState);
    assert s.nextID + 1 !in s.leases;
    AddHeld(s, w, t, now);
  }

  /** `r` is what leasing `picks` to `w` made of `s`, and `batch` what the worker is sent. */
  ghost predicate Assigned(s: State, r: State, w: nat, limit: int, now: int, picks: seq<nat>, batch: seq<Work>) {
    && w < |s.workers| && PkgsKnown(s) && |picks| == |batch| <= Max(0, limit)
    && InQueue(s, picks) && Partial(s, w, now, picks)
    && r == AddLeases(s, w, now, picks) && batch == Works(s, w, now, picks)
  }

  lemma AssignedNothing(s: State, w: nat, limit: int, now: int)
    requires w < |s.workers| && PkgsKnown(s)
    ensures Assigned(s, s, w, limit, now, [], [])
  {
  }

  /** The summed estimates of worker `w`, which may still be given work. */
  ghost predicate Busy(s: State, w: nat, duration: nat) {
    w < |s.workers| && s.workers[w].error == "" && duration == Held(s, w)
  }

  ghost predicate Idle(s: State, w: nat, now: int) {
    w < |s.workers| && PkgsKnown(s) && Stops(s, w, 1, now)
  }

  /** One turn of the assignment loop: a lease on the chosen task, or none to give. */
  ghost predicate Took(s: State, r: State, w: nat, now: int, taken: Option<nat>, item: Work) {
    && w < |s.workers| && PkgsKnown(s)
    && match taken
       case None => r == s && Idle(s, w, now)
       case Some(t) => t < |s.work| && Takes(s, w, now, t) && r == AddLease(s, w, t, now) && item == WorkOf(s, t)
  }

  lemma AssignMore(s: State, r: State, q: State, w: nat, limit: int, now: int, picks: seq<nat>, batch: seq<Work>,
                   taken: Option<nat>, item: Work)
    requires Assigned(s, r, w, limit, now, picks, batch) && |batch| < limit && Took(r, q, w, now, taken, item)
    ensures taken.None? ==> Idle(q, w, now) && Assigned(s, q, w, limit, now, picks, batch)
    ensures taken.Some? ==> Assigned(s, q, w, limit, now, picks + [taken.value], batch + [item])
  {
    if taken.Some? {
      AddOneMore(s, w, now, picks, taken.value);
      PartialMore(s, w, now, picks, taken.value);
    }
  }

  lemma AssignedIsBatch(s: State, r: State, w: nat, limit: int, now: int, picks: seq<nat>, batch: seq<Work>)
    requires Assigned(s, r, w, limit, now, picks, batch)
    requires |batch| >= limit || Idle(r, w, now)
    ensures InQueue(s, picks) && r == AddLeases(s, w, now, picks) && batch == Works(s, w, now, picks)
    ensures Batch(s, w, limit, now, picks)
  {
    PartialIsBatch(s, w, limit, now, picks);
  }

  /** The state after the reports on the leases in `seen` were taken in. */
  ghost function Beaten(s: State, w: nat, active: map<nat, Report>, seen: set<nat>, now: int): State
    requires w < |s.workers|
  {
    s.(leases := map id | id in s.leases ::
         if id in s.workers[w].leases && id in active && id in seen
         then ReportLease(s.leases[id], active[id], now) else s.leases[id])
  }

  lemma BeatenMore(s: State, w: nat, active: map<nat, Report>, seen: set<nat>, now: int, id: nat)
    requires w < |s.workers| && id in active && id !in seen
    ensures var b, c := Beaten(s, w, active, seen, now), Beaten(s, w, active, seen + {id}, now);
      if id in s.workers[w].leases && id in s.leases
      then c == b.(leases := b.leases[id := ReportLease(b.leases[id], active[id], now)])
      else c == b
  {
    var b, c := Beaten(s, w, active, seen, now), Beaten(s, w, active, seen + {id}, now);
    if id in s.workers[w].leases && id in s.leases {
      assert c.leases == b.leases[id := ReportLease(b.leases[id], active[id], now)];
    } else {
      assert c.leases == b.leases;
    }
  }

  /** `r` has taken in every report but those in `todo`; `cancel` are the unknown leases among them. */
  ghost predicate Reporting(s: State, r: State, w: nat, active: map<nat, Report>, todo: set<nat>, cancel: set<nat>, now: int) {
    && w < |s.workers| && todo <= active.Keys && s.workers[w].leases <= s.leases.Keys
    && r == Beaten(s, w, active, active.Keys - todo, now)
    && cancel == set id | id in active.Keys - todo && id !in s.workers[w].leases
  }

  lemma ReportingNothing(s: State, w: nat, active: map<nat, Report>, now: int)
    requires Linked(s) && w < |s.workers|
    ensures Reporting(s, s, w, active, active.Keys, {}, now)
  {
    assert active.Keys - active.Keys == {};
    assert Beaten(s, w, active, {}, now).leases == s.leases;
    HeldAreLive(s, w);
  }

  lemma ReportMore(s: State, r: State, w: nat, active: map<nat, Report>, todo: set<nat>, cancel: set<nat>, now: int, id: nat)
    requires Reporting(s, r, w, active, todo, cancel, now) && id in todo
    ensures id in active && w < |s.workers|
    ensures if id in s.workers[w].leases
      then id in r.leases && Reporting(s, r.(leases := r.leases[id := ReportLease(r.leases[id], active[id], now)]), w, active, todo - {id}, cancel, now)
      else Reporting(s, r, w, active, todo - {id}, cancel + {id}, now)
  {
    BeatenMore(s, w, active, active.Keys - todo, now, id);
    assert active.Keys - (todo - {id}) == active.Keys - todo + {id};
  }

  lemma BeatenIsHeartbeat(s: State, w: nat, req: Request, now: int)
    requires w < |s.workers|
    ensures var k := s.workers[w].(binaries := s.workers[w].binaries + req.binaries);
      && Beaten(s.(workers := s.workers[w := k]), w, req.active, {}, now) == s.(workers := s.workers[w := k])
      && Beaten(s.(workers := s.workers[w := k]), w, req.active, req.active.Keys, now) == Heartbeat(s, w, req, now)
  {
    var k := s.workers[w].(binaries := s.workers[w].binaries + req.binaries);
    assert Beaten(s.(workers := s.workers[w := k]), w, req.active, {}, now).leases == s.leases;
    assert Beaten(s.(workers := s.workers[w := k]), w, req.active, req.active.Keys, now).leases == Heartbeat(s, w, req, now).leases;
  }

  lemma OthersKeepStatus(s: State, r: State, t: nat, running: seq<bool>, started: seq<Option<int>>)
    requires Linked(s) && TestsAgreeBut(s, running, started, -1) && r.work == s.work && r.leases.Keys == s.leases.Keys
    requires forall id | id in s.leases && s.leases[id].task != t :: r.leases[id] == s.leases[id]
    ensures TestsAgreeBut(r, running, started, t)
  {
    forall u | 0 <= u < |s.work| && u != t
      ensures TestAgrees(r, u, running[u], started[u])
    {
      StatusFrame(s, r, u, running[u], started[u]);
    }
  }

  lemma ReportKeepsInv(s: State, id: nat, report: Report, now: int)
    requires LeaseInv(s) && id in s.leases
    ensures var l := ReportLease(s.leases[id], report, now);
      && l.task < |s.work| && !s.work[l.task].done && l.task == s.leases[id].task
      && LeaseInv(s.(leases := s.leases[id := l]))
  {
    var r := s.(leases := s.leases[id := ReportLease(s.leases[id], report, now)]);
    assert id in s.work[s.leases[id].task].leases;
    ReportShape(s, id, report, now);
    hide SameShape, Linked, Paired;
    ShapeKeeps(s, r);
  }

  lemma ReportShape(s: State, id: nat, report: Report, now: int)
    requires id in s.leases
    ensures SameShape(s, s.(leases := s.leases[id := ReportLease(s.leases[id], report, now)]))
  {
  }

  /** A report in no state the leader knows changes nothing. */
  lemma ReportOther(s: State, id: nat, now: int)
    requires id in s.leases
    ensures s.(leases := s.leases[id := ReportLease(s.leases[id], Other, now)]) == s
  {
    assert s.leases[id := s.leases[id]] == s.leases;
  }

  /** A report on one lease keeps the structure, and the status of every other test. */
  lemma ReportFrame(s: State, id: nat, report: Report, now: int, running: seq<bool>, started: seq<Option<int>>, pkgState: seq<PkgState>)
    requires LeaseInv(s) && id in s.leases && Consistent(s, running, started, pkgState, -1)
    ensures var l := ReportLease(s.leases[id], report, now);
      && l.task < |s.work| && !s.work[l.task].done
      && LeaseInv(s.(leases := s.leases[id := l]))
      && Consistent(s.(leases := s.leases[id := l]), running, started, pkgState, if report == Other then -1 else l.task)
  {
    hide LeaseInv, Linked, Timed, TestsAgreeBut, PackagesAgree;
    ReportKeepsInv(s, id, report, now);
    var l := ReportLease(s.leases[id], report, now);
    var r := s.(leases := s.leases[id := l]);
    if report == Other {
      ReportOther(s, id, now);
    } else {
      ReportTimed(s, r, id, report, now);
      ReportKeepsOthers(s, r, id, l, running, started);
      LinkedOf(r);
      SamePackages(s, r, pkgState);
    }
  }

  lemma LinkedOf(s: State)
    requires LeaseInv(s)
    ensures Linked(s)
  {
  }

  lemma ReportKeepsOthers(s: State, r: State, id: nat, l: Lease, running: seq<bool>, started: seq<Option<int>>)
    requires Linked(s) && TestsAgreeBut(s, running, started, -1) && id in s.leases && l.task == s.leases[id].task
    requires r == s.(leases := s.leases[id := l])
    ensures TestsAgreeBut(r, running, started, l.task)
  {
    hide Linked, TestsAgreeBut;
    OthersKeepStatus(s, r, l.task, running, started);
  }

  lemma ReportTimed(s: State, r: State, id: nat, report: Report, now: int)
    requires Timed(s) && id in s.leases && r.leases == s.leases[id := ReportLease(s.leases[id], report, now)]
    ensures Timed(r)
  {
  }

  lemma SamePackages(s: State, r: State, pkgState: seq<PkgState>)
    requires r.work == s.work && |r.pkgs| == |s.pkgs| && PackagesAgree(s, pkgState)
    ensures PackagesAgree(r, pkgState)
  {
  }

  /** The package of an undone test may be shown as testing. */
  lemma TestingFrame(s: State, running: seq<bool>, started: seq<Option<int>>, pkgState: seq<PkgState>, t: nat)
    requires t < |s.work| && !s.work[t].done && Consistent(s, running, started, pkgState, -1)
    ensures s.work[t].pkg < |pkgState| && Consistent(s, running, started, pkgState[s.work[t].pkg := Testing], -1)
  {
    StatusSet(s, running, started, pkgState, t, running[t], started[t]);
    assert running == running[t := running[t]] && started == started[t := started[t]];
  }

  /** Learning binaries changes neither leases nor status. */
  lemma LearnFrame(s: State, w: nat, binaries: set<string>, running: seq<bool>, started: seq<Option<int>>, pkgState: seq<PkgState>)
    requires LeaseInv(s) && w < |s.workers| && Consistent(s, running, started, pkgState, -1)
    ensures var r := s.(workers := s.workers[w := s.workers[w].(binaries := s.workers[w].binaries + binaries)]);
      LeaseInv(r) && Consistent(r, running, started, pkgState, -1)
  {
    var r := s.(workers := s.workers[w := s.workers[w].(binaries := s.workers[w].binaries + binaries)]);
    ShapeKeeps(s, r);
    EditFrame(s, r, running, started, pkgState);
  }

  lemma ReportedAll(s: State, r: State, w: nat, req: Request, cancel: set<nat>, now: int)
    requires w < |s.workers|
    requires Reporting(s.(workers := s.workers[w := s.workers[w].(binaries := s.workers[w].binaries + req.binaries)]),
                       r, w, req.active, {}, cancel, now)
    ensures r == Heartbeat(s, w, req, now)
    ensures cancel == set id | id in req.active && id !in s.workers[w].leases
  {
    BeatenIsHeartbeat(s, w, req, now);
    assert req.active.Keys - {} == req.active.Keys;
  }

  lemma PkgsKnownIn(s: State)
    requires LeaseInv(s)
    ensures PkgsKnown(s)
  {
  }

  lemma NothingAssigned(s: State, w: nat, now: int)
    requires w < |s.workers| && PkgsKnown(s)
    ensures InQueue(s, []) && AddLeases(s, w, now, []) == s && Works(s, w, now, []) == []
  {
  }

  /** A heartbeat does not change what the tail of an exchange decides by. */
  lemma TailSeesSame(s: State, w: nat, req: Request, now: int)
    requires w < |s.workers|
    ensures var b := Heartbeat(s, w, req, now);
      && |b.workers| == |s.workers| && b.workers[w].error == s.workers[w].error && |b.work| == |s.work|
      && RunOver(b) == RunOver(s) && Assigns(b, w) == Assigns(s, w) && ExchangeLimit(b, w) == ExchangeLimit(s, w)
  {
  }

  lemma DisconnectPerforms(s: State, w: nat, error: string)
    requires w < |s.workers|
    ensures Performs(s, EDisconnect(w, error), Fleet.Disconnect(s, w, error))
  {
    hide Fleet.Disconnect;
  }

  lemma AcceptPerforms(s: State, w: nat, r: WorkerResult)
    requires w < |s.workers| && Linked(s)
    ensures Performs(s, EAccept(w, r), Fleet.Accept(s, w, r))
  {
    hide Fleet.Accept, Linked;
  }

  lemma ExchangePerforms(s: State, w: nat, req: Request, now: int, picks: seq<nat>)
    requires w < |s.workers| && !s.workers[w].leader && PkgsKnown(s) && InQueue(s, picks) && TailPicks(s, w, req, now, picks)
    ensures Performs(s, EExchange(w, req, now, picks), ExchangeTail(s, w, req, now, picks).0)
  {
    hide TailPicks, ExchangeTail;
  }

  lemma LocalPerforms(s: State, w: nat, now: int, begun: int, t: nat)
    requires w < |s.workers| && s.workers[w].leader && PkgsKnown(s) && t < |s.work| && Assigns(s, w) && Batch(s, w, 1, now, [t])
    ensures Performs(s, ELocalAssign(w, now, begun, t), Fleet.LocalAssign(s, w, now, begun, t))
  {
    hide Batch, Assigns, Fleet.LocalAssign;
  }

  /** What a batch of at most one pick means. */
  lemma PickedOne(s: State, r: State, w: nat, now: int, picks: seq<nat>, batch: seq<Work>)
    requires w < |s.workers| && PkgsKnown(s) && Linked(s) && InQueue(s, picks) && Batch(s, w, 1, now, picks)
    requires r == AddLeases(s, w, now, picks) && batch == Works(s, w, now, picks)
    ensures batch == [] ==> r == s && Stops(s, w, 1, now)
    ensures batch != [] ==>
      && |picks| == 1 && picks[0] < |s.work| && Batch(s, w, 1, now, [picks[0]]) && r == AddLease(s, w, picks[0], now)
      && batch[0].lease == r.nextID && r.leases[r.nextID] == Lease(picks[0], w, now, None, Queued)
  {
    if picks != [] {
      BatchOfOne(s, w, now, picks);
      hide Batch, Stops, Works, AddLeases;
    } else {
      hide Stops;
    }
  }

  lemma BatchOfOne(s: State, w: nat, now: int, picks: seq<nat>)
    requires w < |s.workers| && PkgsKnown(s) && InQueue(s, picks) && Batch(s, w, 1, now, picks) && picks != []
    ensures picks == [picks[0]] && Works(s, w, now, picks) == [WorkOf(s, picks[0])]
    ensures AddLeases(s, w, now, picks) == AddLease(s, w, picks[0], now)
  {
    assert Batch(AddLease(s, w, picks[0], now), w, 0, now, picks[1..]);
    assert picks[1..] == [];
  }

  lemma StopFrame(s: State, running: seq<bool>, started: seq<Option<int>>, pkgState: seq<PkgState>)
    requires LeaseInv(s) && Consistent(s, running, started, pkgState, -1)
    ensures Consistent(s.(stopped := true), running, started, pkgState, -1)
    ensures LeaseInv(RemoveLeases(s.(stopped := true), s.leases.Keys))
  {
    EditThenRemove(s, s.(stopped := true), s.leases.Keys);
    EditFrame(s, s.(stopped := true), running, started, pkgState);
  }

  lemma AddWorkerFrame(s: State, slots: nat, leader: bool, running: seq<bool>, started: seq<Option<int>>, pkgState: seq<PkgState>)
    requires LeaseInv(s) && Consistent(s, running, started, pkgState, -1)
    ensures Consistent(Fleet.AddWorker(s, slots, leader), running, started, pkgState, -1)
  {
    var r := Fleet.AddWorker(s, slots, leader);
    AddWorkerKeepsLeases(s, slots, leader);
    OthersKeepStatus(s, r, |s.work|, running, started);
    SamePackages(s, r, pkgState);
  }

  lemma StartIsEnabled(s: State, tasks: seq<Task>, queue: seq<Task>, packages: seq<Package>, w: nat)
    requires !s.ready && w < |s.workers| && s.workers[w].leader && Sorted(queue)
    requires forall t | 0 <= t < |tasks| :: tasks[t].pkg < |packages| && !tasks[t].done && tasks[t].leases == {}
    requires forall p | 0 <= p < |packages| :: packages[p].numFails == 0 && packages[p].runIn == 0
    requires forall k | 0 <= k < |queue| :: queue[k] in tasks
    ensures Enabled(s, EStart(queue, packages, w))
  {
  }

  /** Nothing runs and no package is finished when the queue opens. */
  function Repeat<T>(n: nat, x: T): (r: seq<T>)
    ensures |r| == n && forall i | 0 <= i < n :: r[i] == x
  {
    seq(n, _ => x)
  }

  lemma StartFrame(s: State, queue: seq<Task>, packages: seq<Package>, w: nat)
    requires LeaseInv(s) && s.leases == map[] && Enabled(s, EStart(queue, packages, w))
    ensures var r := Apply(s, EStart(queue, packages, w));
      && LeaseInv(r) && w < |s.workers| && (forall t | 0 <= t < |queue| :: queue[t].pkg < |packages|)
      && Consistent(r, Repeat(|queue|, false), Repeat(|queue|, None), Repeat(|packages|, Built), -1)
  {
    StartKeepsLeases(s, queue, packages, w);
  }

  class Leader {
    var workers: seq<Worker>
    var work: seq<Task>
    var leases: map<nat, Lease>
    var nextID: nat
    var ready: bool
    var stopped: bool
    var cancelled: bool
    const failFast: bool
    var done: nat
    var pkgs: seq<Package>
    var cacheHits: nat
    var cacheChecks: nat
    var infra: seq<string>
    ghost var commits: seq<Commit>
    var wake: bool
    ghost var notifies: nat
    ghost var loop: Loop

    // Status fields, one per task or package.
    var running: seq<bool>
    var started: seq<Option<int>>
    var pkgState: seq<PkgState>

    ghost function View(): State
      reads this
    {
      State(workers, work, leases, nextID, ready, stopped, cancelled, failFast, done,
            pkgs, cacheHits, cacheChecks, infra, commits, wake, notifies, loop)
    }

    ghost predicate SoundBut(t: int)
      reads this
    {
      Consistent(View(), running, started, pkgState, t)
    }

    ghost predicate Valid()
      reads this
    {
      SoundBut(-1) && LeaseInv(View())
    }

    constructor (failFast: bool)
      ensures Valid() && View() == Initial(failFast)
    {
      workers, work, leases, nextID, ready, stopped, cancelled := [], [], map[], 0, false, false, false;
      this.failFast := failFast;
      done, pkgs, cacheHits, cacheChecks, infra, commits, wake, notifies := 0, [], 0, 0, [], [], false, 0;
      loop := Checking;
      running, started, pkgState := [], [], [];
    }

    /** Scans a task's leases, in any order, for the earliest running one. */
    method EarliestRunning(ids: set<nat>) returns (on: bool, since: Option<int>)
      requires ids <= leases.Keys && Timed(View())
      ensures on <==> exists id :: id in ids && leases[id].state == Running
      ensures on ==> since.Some? && exists id :: id in ids && leases[id].state == Running && leases[id].started == since
      ensures forall id | id in ids && leases[id].state == Running :: on && since.value <= leases[id].started.value
    {
      on, since := false, None;
      var todo := ids;
      while todo != {}
        invariant todo <= ids
        invariant on <==> since.Some?
        invariant on ==> exists id :: id in ids && leases[id].state == Running && leases[id].started == since
        invariant forall id | id in ids && id !in todo && leases[id].state == Running :: on && since.value <= leases[id].started.value
        decreases todo
      {
        var id :| id in todo;
        todo := todo - {id};
        if leases[id].state == Running {
          on := true;
          if since.None? || leases[id].started.value < since.value {
            since := leases[id].started;
          }
        }
      }
    }

    /** A test's status, as its leases say. */
    method StatusOf(t: nat) returns (on: bool, since: Option<int>)
      requires t < |work| && work[t].leases <= leases.Keys && Timed(View())
      ensures TestAgrees(View(), t, on, since)
    {
      on, since := EarliestRunning(work[t].leases);
      assert on <==> RunsNow(View(), t);
    }

    /** Recomputes a test's status from its leases. */
    method UpdateRunning(t: nat)
      requires SoundBut(t) && t < |work|
      modifies `running, `started, `pkgState
      ensures SoundBut(-1)
    {
      HeldByTask(View(), t);
      hide Linked, TestsAgreeBut, PackagesAgree, TestAgrees, Timed;
      if work[t].done {
        DoneAgrees(View(), running, started, t);
        return;
      }
      var on, since := StatusOf(t);
      StatusSet(View(), running, started, pkgState, t, on, since);
      hide Consistent;
      Show(t, on, since);
    }

    /** Writes a test's status down, and that its package is testing if the test runs. */
    method Show(t: nat, on: bool, since: Option<int>)
      requires t < |work| == |running| == |started| && work[t].pkg < |pkgState|
      modifies `running, `started, `pkgState
      ensures running == old(running)[t := on] && started == old(started)[t := since]
      ensures pkgState == if on then old(pkgState)[work[t].pkg := Testing] else old(pkgState)
    {
      running, started := running[t := on], started[t := since];
      if running[t] {
        pkgState := pkgState[work[t].pkg := Testing];
      }
    }

    /** Deletes a lease from the fleet's, its worker's and its task's map. */
    method DeleteLease(id: nat)
      requires Linked(View()) && id in leases
      modifies `leases, `workers, `work
      ensures View() == RemoveLeases(old(View()), {id})
    {
      DropOne(View(), id);
      var l := leases[id];
      leases := leases - {id};
      workers := workers[l.worker := workers[l.worker].(leases := workers[l.worker].leases - {id})];
      work := work[l.task := work[l.task].(leases := work[l.task].leases - {id})];
    }

    method RevokeOne(id: nat)
      requires SoundBut(-1) && id in leases
      modifies this
      ensures SoundBut(-1) && View() == RemoveLeases(old(View()), {id})
    {
      RevokeFrame(View(), id, running, started, pkgState);
      var t := leases[id].task;
      DeleteLease(id);
      UpdateRunning(t);
    }

    /** Revokes a set of leases, in any order. */
    method RevokeAll(ids: set<nat>)
      requires SoundBut(-1) && ids <= leases.Keys
      modifies this
      ensures SoundBut(-1) && View() == RemoveLeases(old(View()), ids)
    {
      var todo := ids;
      DropNone(View());
      assert ids - todo == {};
      while todo != {}
        invariant SoundBut(-1) && todo <= ids && todo <= leases.Keys
        invariant View() == RemoveLeases(old(View()), ids - todo)
        decreases todo
      {
        var id :| id in todo;
        DropMore(old(View()), ids - todo, id);
        assert ids - (todo - {id}) == ids - todo + {id};
        RevokeOne(id);
        todo := todo - {id};
      }
      assert ids - todo == ids;
    }

    /** Replaces a worker's record, keeping its leases. */
    method SetWorker(w: nat, k: Worker)
      requires SoundBut(-1) && w < |workers| && k.leases == workers[w].leases
      modifies `workers, `notifies
      ensures SoundBut(-1) && View() == old(View()).(workers := old(workers)[w := k], notifies := old(notifies) + 1)
    {
      ghost var s := View();
      workers, notifies := workers[w := k], notifies + 1;
      ShapeKeeps(s, View());
      EditFrame(s, View(), running, started, pkgState);
    }

    method Disconnect(w: nat, error: string)
      requires Valid() && w < |workers|
      modifies this
      ensures Valid() && View() == Fleet.Disconnect(old(View()), w, error)
      ensures Performs(old(View()), EDisconnect(w, error), View())
    {
      hide Consistent, LeaseInv, Linked, Performs;
      DisconnectKeepsLeases(View(), w, error);
      LinkedOf(View());
      HeldAreLive(View(), w);
      DisconnectPerforms(View(), w, error);
      SetWorker(w, workers[w].(connected := false, error := if error == "" then workers[w].error else error));
      RevokeAll(workers[w].leases);
    }

    /** Books a committed result with its worker, its task and its package. */
    method BookParties(w: nat, t: nat, r: WorkerResult)
      requires w < |workers| && t < |work| && work[t].pkg < |pkgs|
      modifies `workers, `work, `pkgs
      ensures workers == old(workers)[w := Credit(old(workers)[w], r)]
      ensures work == old(work)[t := old(work)[t].(done := true)]
      ensures pkgs == old(pkgs)[old(work)[t].pkg := Charge(old(pkgs)[old(work)[t].pkg], r)]
    {
      var p, hit, miss := work[t].pkg, if r.cached then 1 else 0, if r.passed then 0 else 1;
      work := work[t := work[t].(done := true)];
      workers := workers[w := workers[w].(
        completed := workers[w].completed + 1, duration := workers[w].duration + r.duration,
        cached := workers[w].cached + hit, failed := workers[w].failed + miss)];
      pkgs := pkgs[p := pkgs[p].(runIn := pkgs[p].runIn + r.duration, numFails := pkgs[p].numFails + miss)];
    }

    /** Books a committed result in the run's counters. */
    method BookTotals(w: nat, t: nat, r: WorkerResult)
      modifies `done, `cacheChecks, `cacheHits, `infra, `commits, `cancelled, `notifies
      ensures done == old(done) + 1 && notifies == old(notifies) + 1 && commits == old(commits) + [Commit(t, w, r)]
      ensures cacheChecks == old(cacheChecks) + r.cacheChecks && cacheHits == old(cacheHits) + (if r.cached then 1 else 0)
      ensures infra == if r.infra then old(infra) + [r.error] else old(infra)
      ensures cancelled == (old(cancelled) || (failFast && !r.passed))
    {
      done, notifies, commits := done + 1, notifies + 1, commits + [Commit(t, w, r)];
      cacheChecks := cacheChecks + r.cacheChecks;
      if r.cached {
        cacheHits := cacheHits + 1;
      }
      if r.infra {
        infra := infra + [r.error];
      }
      if failFast && !r.passed {
        cancelled := true;
      }
    }

    method BookResult(w: nat, t: nat, r: WorkerResult)
      requires w < |workers| && t < |work| && work[t].pkg < |pkgs|
      modifies `workers, `work, `pkgs, `done, `cacheChecks, `cacheHits, `infra, `commits, `cancelled, `notifies
      ensures View() == Book(old(View()), w, t, r)
    {
      BookParties(w, t, r);
      BookTotals(w, t, r);
    }

    /** The package of a test that just finished is finished once none of its tests is left. */
    method FinishPackage(t: nat)
      requires PkgsKnown(View()) && t < |work| && work[t].done && |pkgState| == |pkgs| && |running| == |work|
      modifies `running, `pkgState
      ensures running == old(running)[t := false] && |pkgState| == |pkgs|
      ensures forall p | 0 <= p < |pkgs| && p != work[t].pkg :: pkgState[p] == old(pkgState)[p]
      ensures AllOf(work, work[t].pkg) ==> pkgState[work[t].pkg] == Finished
      ensures !AllOf(work, work[t].pkg) ==> pkgState[work[t].pkg] == old(pkgState)[work[t].pkg]
    {
      running := running[t := false];
      var p := work[t].pkg;
      var allDone, i := true, 0;
      while i < |work|
        invariant 0 <= i <= |work|
        invariant allDone <==> forall u | 0 <= u < i && work[u].pkg == p :: work[u].done
      {
        if work[i].pkg == p && !work[i].done {
          allDone := false;
        }
        i := i + 1;
      }
      if allDone {
        pkgState := pkgState[p := Finished];
      }
    }

    /** Commits the result of a live lease. */
    method CommitResult(w: nat, t: nat, r: WorkerResult)
      requires Valid() && w < |workers| && t < |work| && !work[t].done
      modifies this
      ensures Valid() && View() == Finish(old(View()), w, t, r)
    {
      ghost var s, on, since, ps := View(), running, started, pkgState;
      FinishKeepsLeases(s, w, t, r);
      BookedShape(s, w, t, r, on, since, ps);
      hide LeaseInv, Consistent, Linked, AllOf;
      BookResult(w, t, r);
      FinishPackage(t);
      BookFrame(s, View(), w, t, r, on, since, ps, running, pkgState);
      RevokeAll(work[t].leases);
    }

    /** Takes a failing helper out of service and releases its work. */
    method GiveUp(w: nat, error: string)
      requires Valid() && w < |workers|
      modifies this
      ensures Valid() && View() == Fleet.GiveUp(old(View()), w, error)
    {
      hide Consistent, LeaseInv, Linked;
      GiveUpKeepsLeases(View(), w, error);
      LinkedOf(View());
      HeldAreLive(View(), w);
      SetWorker(w, workers[w].(error := if error == "" then "helper execution error" else error));
      RevokeAll(workers[w].leases);
    }

    /** Commits one result, unless it is late, duplicated or revoked. */
    method Accept(w: nat, r: WorkerResult)
      requires Valid() && w < |workers|
      modifies this
      ensures Valid() && View() == Fleet.Accept(old(View()), w, r)
      ensures Performs(old(View()), EAccept(w, r), View())
    {
      AcceptPerforms(View(), w, r);
      hide Performs;
      if r.lease !in workers[w].leases || work[leases[r.lease].task].done || stopped || cancelled {
        return;
      }
      if r.infra && !workers[w].leader {
        GiveUp(w, r.error);
      } else {
        CommitResult(w, leases[r.lease].task, r);
      }
    }

    /** Chooses the next task for worker `w`: fresh work by affinity within a window of five, else an overdue copy. */
    method Next(w: nat, now: int) returns (choice: Option<nat>)
      requires Linked(View()) && w < |workers|
      ensures NextChoice(View(), w, now, choice)
    {
      choice := NextFresh(w);
      if choice.None? {
        choice := NextSpeculative(w, now);
      }
    }

    method NextFresh(w: nat) returns (choice: Option<nat>)
      requires PkgsKnown(View()) && w < |workers|
      ensures choice.None? ==> !AnyFresh(View())
      ensures choice.Some? ==> exists f: nat :: FreshChoice(View(), w, f, choice.value)
    {
      ghost var s := View();
      var first, window, i := 0, 0, 0;
      while i < |work|
        invariant 0 <= i <= |work| && window == FreshBefore(s, i) < 5
        invariant window == 0 ==> forall j | 0 <= j < i :: !Fresh(s, j)
        invariant window > 0 ==> 0 <= first < i && FirstFresh(s, first)
        invariant window > 0 ==> forall j | first <= j < i && Fresh(s, j) :: !Warm(s, w, j, s.work[first].estimate)
      {
        if !work[i].done && work[i].leases == {} {
          if window == 0 {
            first := i;
          }
          var m := work[first].estimate;
          if pkgs[work[i].pkg].hash in workers[w].binaries && work[i].estimate >= m - m / 5 {
            assert FreshChoice(s, w, first, i);
            return Some(i);
          }
          window := window + 1;
          if window == 5 {
            i := i + 1;
            break;
          }
        }
        i := i + 1;
      }
      if window > 0 {
        forall j | 0 <= j < |work| && Fresh(s, j) && FreshBefore(s, j) < 5
          ensures !Warm(s, w, j, s.work[first].estimate)
        {
          if j >= i {
            FreshBeforeGrows(s, i, j);
          }
        }
        FreshBeforeFirst(s, first);
        assert FreshChoice(s, w, first, first);
        return Some(first);
      }
      return None;
    }

    method NextSpeculative(w: nat, now: int) returns (choice: Option<nat>)
      requires Linked(View()) && w < |workers|
      ensures choice.None? ==> forall t :: !Speculative(View(), w, now, t)
      ensures choice.Some? ==> Speculative(View(), w, now, choice.value) && forall j | 0 <= j < choice.value :: !Speculative(View(), w, now, j)
    {
      ghost var s := View();
      var i := 0;
      while i < |work|
        invariant 0 <= i <= |work|
        invariant forall j | 0 <= j < i :: !Speculative(s, w, now, j)
      {
        if !work[i].done && |work[i].leases| == 1 {
          Singleton(work[i].leases);
          var id :| id in work[i].leases;
          if leases[id].worker != w && now - leases[id].issued > Overdue(work[i].estimate) {
            return Some(i);
          }
        }
        i := i + 1;
      }
      return None;
    }

    /** Creates a lease in all three maps. */
    method Issue(w: nat, t: nat, now: int)
      requires w < |workers| && t < |work|
      modifies `leases, `workers, `work, `nextID
      ensures View() == AddLease(old(View()), w, t, now)
    {
      nextID := nextID + 1;
      leases := leases[nextID := Lease(t, w, now, None, Queued)];
      workers := workers[w := workers[w].(leases := workers[w].leases + {nextID})];
      work := work[t := work[t].(leases := work[t].leases + {nextID})];
    }

    method HeldEstimates(w: nat) returns (duration: nat)
      requires Linked(View()) && w < |workers|
      ensures duration == Held(View(), w)
    {
      duration := 0;
      var todo := workers[w].leases;
      ghost var f := EstimateOf(View());
      while todo != {}
        invariant todo <= workers[w].leases
        invariant duration + SetSum(todo, f) == SetSum(workers[w].leases, f)
        decreases todo
      {
        var id :| id in todo;
        SetSumRemove(todo, id, f);
        duration := duration + work[leases[id].task].estimate;
        todo := todo - {id};
      }
    }

    /** Leases one more task to `w`, if it has room and there is one. */
    method AssignOne(w: nat, duration: nat, now: int) returns (taken: Option<nat>, item: Work, estimate: nat)
      requires Valid() && Busy(View(), w, duration)
      modifies `leases, `workers, `work, `nextID
      ensures Valid() && Busy(View(), w, duration + estimate)
      ensures Took(old(View()), View(), w, now, taken, item)
    {
      hide Consistent, Paired, Quiet, NextChoice, Held;
      item, estimate, taken := Work(0, 0, "", ""), 0, None;
      if |workers[w].leases| < workers[w].slots || duration < BATCH_TARGET * workers[w].slots {
        taken := Next(w, now);
        if taken.Some? {
          var t := taken.value;
          NextIsEligible(View(), w, now, t);
          item, estimate := Work(nextID + 1, work[t].pkg, work[t].test, pkgs[work[t].pkg].hash), work[t].estimate;
          TakeOne(View(), w, now, t, running, started, pkgState);
          Issue(w, t, now);
        }
      }
    }

    /** One turn of the assignment loop. */
    method AssignStep(w: nat, limit: int, now: int, duration: nat, batch: seq<Work>, ghost s: State, ghost picks: seq<nat>)
      returns (more: bool, duration': nat, batch': seq<Work>, ghost picks': seq<nat>)
      requires Valid() && Busy(View(), w, duration) && Assigned(s, View(), w, limit, now, picks, batch) && |batch| < limit
      modifies `leases, `workers, `work, `nextID
      ensures Valid() && Busy(View(), w, duration') && Assigned(s, View(), w, limit, now, picks', batch')
      ensures if more then |batch'| == |batch| + 1 else Idle(View(), w, now)
    {
      hide *;
      ghost var r := View();
      var taken, item, estimate := AssignOne(w, duration, now);
      AssignMore(s, r, View(), w, limit, now, picks, batch, taken, item);
      more, duration' := taken.Some?, duration + estimate;
      batch', picks' := if more then batch + [item] else batch, if more then picks + [taken.value] else picks;
    }

    /** Leases tasks to `w` until the batch is full, the worker is busy or nothing is left for it. */
    method AssignBatch(w: nat, limit: int, now: int) returns (batch: seq<Work>, ghost picks: seq<nat>)
      requires Valid() && w < |workers| && workers[w].error == ""
      modifies `leases, `workers, `work, `nextID
      ensures Valid() && Assigned(old(View()), View(), w, limit, now, picks, batch)
      ensures |batch| >= limit || Idle(View(), w, now)
    {
      ghost var s := View();
      batch, picks := [], [];
      var duration := HeldEstimates(w);
      var more := true;
      AssignedNothing(s, w, limit, now);
      hide *;
      while more && |batch| < limit
        invariant Valid() && Busy(View(), w, duration) && Assigned(s, View(), w, limit, now, picks, batch)
        invariant !more ==> Idle(View(), w, now)
        decreases more, limit - |batch|
      {
        more, duration, batch, picks := AssignStep(w, limit, now, duration, batch, s, picks);
      }
    }

    method Assign(w: nat, limit: int, now: int) returns (batch: seq<Work>, ghost picks: seq<nat>)
      requires Valid() && w < |workers|
      modifies `leases, `workers, `work, `nextID
      ensures Valid() && InQueue(old(View()), picks)
      ensures View() == AddLeases(old(View()), w, now, picks) && batch == Works(old(View()), w, now, picks)
      ensures if MayAssign(old(View()), w) then Batch(old(View()), w, limit, now, picks) else picks == []
    {
      batch, picks := [], [];
      if ready && !stopped && !cancelled && workers[w].error == "" {
        ghost var s := View();
        batch, picks := AssignBatch(w, limit, now);
        AssignedIsBatch(s, View(), w, limit, now, picks, batch);
      }
    }

    /** Recomputes the status of an undone test and shows its package as testing. */
    method Refresh(t: nat)
      requires SoundBut(t) && t < |work| && !work[t].done
      modifies `running, `started, `pkgState
      ensures SoundBut(-1)
    {
      hide Consistent;
      UpdateRunning(t);
      TestingFrame(View(), running, started, pkgState, t);
      pkgState := pkgState[work[t].pkg := Testing];
    }

    /** Takes in what the worker reports about one of its live leases. */
    method ReportOne(id: nat, report: Report, now: int)
      requires Valid() && id in leases
      modifies `leases, `running, `started, `pkgState
      ensures Valid() && View() == old(View()).(leases := old(leases)[id := ReportLease(old(leases)[id], report, now)])
    {
      hide Consistent, LeaseInv, ReportLease;
      ReportFrame(View(), id, report, now, running, started, pkgState);
      var l := ReportLease(leases[id], report, now);
      leases := leases[id := l];
      if report != Other {
        Refresh(l.task);
      }
    }

    /** Takes in all reports, in any order; leases the worker no longer holds are to be cancelled. */
    method ReportAll(w: nat, active: map<nat, Report>, now: int) returns (cancel: set<nat>)
      requires Valid() && w < |workers|
      modifies `leases, `running, `started, `pkgState
      ensures Valid() && Reporting(old(View()), View(), w, active, {}, cancel, now)
    {
      ghost var s := View();
      var held, todo := workers[w].leases, active.Keys;
      cancel := {};
      ReportingNothing(s, w, active, now);
      hide *;
      while todo != {}
        invariant Valid() && Reporting(s, View(), w, active, todo, cancel, now)
        decreases todo
      {
        var id :| id in todo;
        ReportMore(s, View(), w, active, todo, cancel, now, id);
        todo := todo - {id};
        if id in held {
          ReportOne(id, active[id], now);
        } else {
          cancel := cancel + {id};
        }
      }
    }

    /**
      A whole exchange: every result in order, then the tail. The lock is released in between, and
      what others do then is in the runs of the composed system; here nobody else does anything.
     */
    method Exchange(w: nat, req: Request, now: int) returns (res: Response, ghost mid: State, ghost picks: seq<nat>)
      requires Valid() && w < |workers|
      modifies this
      ensures Valid() && Leads(old(View()), AcceptEvents(w, req.results), mid)
      ensures LeaseInv(mid) && w < |mid.workers| && InQueue(mid, picks) && TailPicks(mid, w, req, now, picks)
      ensures View() == ExchangeTail(mid, w, req, now, picks).0 && res == ExchangeTail(mid, w, req, now, picks).1
      ensures !old(workers)[w].leader ==>
        Leads(old(View()), AcceptEvents(w, req.results) + [EExchange(w, req, now, picks)], View())
    {
      ghost var s := View();
      AcceptResults(w, req.results);
      mid := View();
      hide Consistent, LeaseInv, Leads, Performs, ExchangeTail, TailPicks;
      res, picks := FinishExchange(w, req, now);
      if !mid.workers[w].leader {
        LeadsOn(s, AcceptEvents(w, req.results), mid, EExchange(w, req, now, picks), View());
      }
    }

    method AcceptResults(w: nat, results: seq<WorkerResult>)
      requires Valid() && w < |workers|
      modifies this
      ensures Valid() && w < |workers| && workers[w].leader == old(workers)[w].leader
      ensures Leads(old(View()), AcceptEvents(w, results), View())
    {
      ghost var first := View();
      assert Leads(first, AcceptEvents(w, results[..0]), first);
      for i := 0 to |results|
        invariant Valid() && w < |workers| && workers[w].leader == old(workers)[w].leader
        invariant Leads(first, AcceptEvents(w, results[..i]), View())
      {
        ghost var s := View();
        AcceptEventsNext(w, results, i);
        AcceptKeepsWorkers(s, w, results[i]);
        hide Consistent, LeaseInv, Leads, Performs, Fleet.Accept;
        Accept(w, results[i]);
        LeadsOn(first, AcceptEvents(w, results[..i]), s, EAccept(w, results[i]), View());
      }
      assert results[..|results|] == results;
    }

    /** What the run returns: infrastructure errors first, then the number of failures, then the interruption. */
    method Outcome() returns (v: Verdict)
      ensures v == RunVerdict(View())
    {
      if infra != [] {
        return InfraFailure;
      }
      var failed := 0;
      for i := 0 to |pkgs|
        invariant failed == Sum(pkgs[..i], NumFails)
      {
        assert pkgs[..i + 1] == pkgs[..i] + [pkgs[i]];
        SumAppend(pkgs[..i], [pkgs[i]], NumFails);
        failed := failed + pkgs[i].numFails;
      }
      assert pkgs[..|pkgs|] == pkgs;
      if failed != 0 {
        return TestsFailed(failed);
      }
      return if cancelled then Interrupted else Passed;
    }

    /** The tail of an exchange: the heartbeat, the cancellations and a new batch. */
    method FinishExchange(w: nat, req: Request, now: int) returns (res: Response, ghost picks: seq<nat>)
      requires Valid() && w < |workers|
      modifies this
      ensures Valid() && InQueue(old(View()), picks) && TailPicks(old(View()), w, req, now, picks)
      ensures View() == ExchangeTail(old(View()), w, req, now, picks).0
      ensures res == ExchangeTail(old(View()), w, req, now, picks).1
      ensures !old(workers)[w].leader ==> Performs(old(View()), EExchange(w, req, now, picks), View())
    {
      ghost var s := View();
      PkgsKnownIn(s);
      TailSeesSame(s, w, req, now);
      hide Consistent, LeaseInv, Linked, PkgsKnown, Batch, AddLeases, Works, Performs, Heartbeat, RunOver, Assigns, ExchangeLimit;
      var cancel := TakeReports(w, req, now);
      var batch, over, error;
      batch, over, error, picks := Refill(w, now);
      res := Response(batch, cancel, over, error);
      if !s.workers[w].leader {
        ExchangePerforms(s, w, req, now, picks);
      }
    }

    /** Tells whether the run is over and, if not, fills the helper's batch. */
    method Refill(w: nat, now: int) returns (batch: seq<Work>, over: bool, error: string, ghost picks: seq<nat>)
      requires Valid() && w < |workers|
      modifies `leases, `workers, `work, `nextID
      ensures Valid() && InQueue(old(View()), picks)
      ensures View() == AddLeases(old(View()), w, now, picks) && batch == Works(old(View()), w, now, picks)
      ensures over == RunOver(old(View())) && error == old(workers)[w].error
      ensures if Assigns(old(View()), w) then Batch(old(View()), w, ExchangeLimit(old(View()), w), now, picks) else picks == []
    {
      PkgsKnownIn(View());
      hide Consistent, LeaseInv, Linked, PkgsKnown, Batch, AddLeases, Works;
      over, error := stopped || cancelled || (ready && done == |work|), workers[w].error;
      batch, picks := [], [];
      if !over && error == "" {
        var limit := Min(BATCH_LIMIT, workers[w].slots + BATCH_LIMIT - |workers[w].leases|);
        batch, picks := Assign(w, limit, now);
      } else {
        NothingAssigned(View(), w, now);
      }
    }

    /** Learns the helper's binaries, then takes in its reports. */
    method TakeReports(w: nat, req: Request, now: int) returns (cancel: set<nat>)
      requires Valid() && w < |workers|
      modifies `workers, `leases, `running, `started, `pkgState
      ensures Valid() && View() == Heartbeat(old(View()), w, req, now)
      ensures cancel == set id | id in req.active && id !in old(workers)[w].leases
    {
      ghost var s := View();
      LearnFrame(s, w, req.binaries, running, started, pkgState);
      workers := workers[w := workers[w].(binaries := workers[w].binaries + req.binaries)];
      hide Consistent, LeaseInv;
      cancel := ReportAll(w, req.active, now);
      ReportedAll(s, View(), w, req, cancel, now);
    }

    /** A free local slot leases a task and starts it. */
    method LocalAssign(w: nat, now: int, begun: int) returns (started': Option<nat>)
      requires Valid() && w < |workers|
      modifies this
      ensures Valid()
      ensures started'.None? ==> View() == old(View()) && (!old(Assigns(View(), w)) || Stops(old(View()), w, 1, now))
      ensures started'.Some? ==>
        && old(Assigns(View(), w)) && started'.value < |old(work)| && Batch(old(View()), w, 1, now, [started'.value])
        && View() == Fleet.LocalAssign(old(View()), w, now, begun, started'.value)
        && (old(workers)[w].leader ==> Performs(old(View()), ELocalAssign(w, now, begun, started'.value), View()))
    {
      started' := None;
      if stopped || cancelled || (ready && done == |work|) {
        return;
      }
      ghost var picks;
      var batch;
      ghost var s := View();
      PkgsKnownIn(s);
      LinkedOf(s);
      hide Consistent, LeaseInv, Linked, PkgsKnown, Batch, AddLeases, Works, Performs, Stops;
      batch, picks := Assign(w, 1, now);
      if MayAssign(s, w) {
        PickedOne(s, View(), w, now, picks, batch);
      } else {
        NothingAssigned(s, w, now);
      }
      if batch != [] {
        var id := batch[0].lease;
        started' := Some(leases[id].task);
        Begin(id, begun);
        if s.workers[w].leader {
          LocalPerforms(s, w, now, begun, started'.value);
        }
      }
    }

    /** Marks a fresh lease as running. */
    method Begin(id: nat, begun: int)
      requires Valid() && id in leases && leases[id].state == Queued && leases[id].started == None
      modifies `leases, `running, `started, `pkgState
      ensures Valid() && View() == old(View()).(leases := old(leases)[id := old(leases)[id].(started := Some(begun), state := Running)])
    {
      ReportOne(id, Reported(Running), begun);
    }

    /** Ends the run: no result is accepted any more, and every lease is revoked. */
    method Stop()
      requires Valid() && loop == Exited
      modifies this
      ensures Valid() && Performs(old(View()), EStop, View()) && leases == map[]
    {
      StopFrame(View(), running, started, pkgState);
      hide Consistent, LeaseInv;
      stopped := true;
      RevokeAll(leases.Keys);
    }

    /** A notify leaves one token, however many come before it is taken. */
    method Notify()
      requires Valid() && notifies > 0
      modifies `wake, `notifies
      ensures Valid() && Performs(old(View()), ENotify, View())
    {
      hide Consistent, LeaseInv, Linked, TailPicks, Batch, Sorted, RemoveLeases;
      FlagFrame(View(), View().(wake := true, notifies := notifies - 1), running, started, pkgState);
      wake, notifies := true, notifies - 1;
    }

    /** The loop of run looks whether it is over. */
    method CheckLoop() returns (over: bool)
      requires Valid() && ready && loop == Checking
      modifies `loop
      ensures Valid() && Performs(old(View()), ELoopCheck, View()) && (over <==> loop == Exited)
    {
      over := done == |work| || cancelled;
      hide Consistent, LeaseInv, Linked, TailPicks, Batch, Sorted, RemoveLeases;
      FlagFrame(View(), View().(loop := if over then Exited else Waiting), running, started, pkgState);
      loop := if over then Exited else Waiting;
    }

    /** The loop of run wakes up by a token, or because the context is done. */
    method WakeLoop(token: bool)
      requires Valid() && loop == Waiting && (if token then wake else cancelled)
      modifies `loop, `wake
      ensures Valid() && Performs(old(View()), ELoopWake(token), View())
    {
      hide Consistent, LeaseInv, Linked, TailPicks, Batch, Sorted, RemoveLeases;
      FlagFrame(View(), View().(loop := Checking, wake := wake && !token), running, started, pkgState);
      loop := Checking;
      if token {
        wake := false;
      }
    }

    /** The context is cancelled. */
    method Cancel()
      requires Valid()
      modifies `cancelled
      ensures Valid() && Performs(old(View()), ECancel, View())
    {
      hide Consistent, LeaseInv, Linked, TailPicks, Batch, Sorted, RemoveLeases;
      FlagFrame(View(), View().(cancelled := true), running, started, pkgState);
      cancelled := true;
    }

    method Shutdown()
      requires Valid()
      modifies `stopped
      ensures Valid() && Performs(old(View()), EShutdown, View())
    {
      hide Consistent, LeaseInv, Linked, TailPicks, Batch, Sorted, RemoveLeases;
      FlagFrame(View(), View().(stopped := true), running, started, pkgState);
      stopped := true;
    }

    method AddWorker(slots: nat, leader: bool) returns (w: nat)
      requires Valid()
      modifies `workers
      ensures Valid() && Performs(old(View()), EAddWorker(slots, leader), View()) && w == |old(workers)|
    {
      AddWorkerKeepsLeases(View(), slots, leader);
      AddWorkerFrame(View(), slots, leader, running, started, pkgState);
      hide Consistent, LeaseInv;
      w := |workers|;
      workers := workers + [Worker(leader, slots, true, "", 0, 0, 0, 0, {}, {})];
    }

    /** Opens the queue: the tasks, slowest first, keeping the given order among equals. */
    method Start(tasks: seq<Task>, packages: seq<Package>, w: nat) returns (queue: seq<Task>)
      requires Valid() && !ready && leases == map[] && w < |workers| && workers[w].leader
      requires forall t | 0 <= t < |tasks| :: tasks[t].pkg < |packages| && !tasks[t].done && tasks[t].leases == {}
      requires forall p | 0 <= p < |packages| :: packages[p].numFails == 0 && packages[p].runIn == 0
      modifies this
      ensures SameOrder(queue, tasks)
      ensures Valid() && Performs(old(View()), EStart(queue, packages, w), View())
    {
      queue := SlowestFirst(tasks);
      StartIsEnabled(View(), tasks, queue, packages, w);
      Open(queue, packages, w);
    }

    method Open(queue: seq<Task>, packages: seq<Package>, w: nat)
      requires Valid() && leases == map[] && Enabled(View(), EStart(queue, packages, w))
      modifies this
      ensures Valid() && View() == Apply(old(View()), EStart(queue, packages, w))
    {
      StartFrame(View(), queue, packages, w);
      hide Consistent, LeaseInv, Enabled, Sorted, Apply;
      FillQueue(queue, packages, w);
      running, started, pkgState := Repeat(|queue|, false), Repeat(|queue|, None), Repeat(|packages|, Built);
    }

    method FillQueue(queue: seq<Task>, packages: seq<Package>, w: nat)
      requires Enabled(View(), EStart(queue, packages, w))
      modifies `workers, `work, `pkgs, `ready
      ensures View() == Apply(old(View()), EStart(queue, packages, w))
    {
      var hashes := set t | 0 <= t < |queue| :: packages[queue[t].pkg].hash;
      workers := workers[w := workers[w].(binaries := workers[w].binaries + hashes)];
      work, pkgs, ready := queue, packages, true;
    }
  }
}
