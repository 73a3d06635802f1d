/** What every turn of the helper's loop and every step of its jobs keeps. */
module HelperSafety {
  import opened Common
  import opened Fleet
  import opened Helpers

  // ------------------------------------------------------------------------------------------
  // Filling slots
  // ------------------------------------------------------------------------------------------

  /** Starting jobs touches the queue, the free slots and the executions' states, and nothing else. */
  ghost predicate Started(h: Helper, g: Helper) {
    && g == h.(execs := g.execs, queue := g.queue, running := g.running, jobs := g.jobs)
    && |g.execs| == |h.execs|
    && (forall i | 0 <= i < |h.execs| :: g.execs[i] == h.execs[i].(state := g.execs[i].state))
    && (forall e | e in h.jobs :: e in g.jobs && g.jobs[e] == h.jobs[e])
    && (forall e | e in g.jobs && e !in h.jobs :: g.jobs[e] == Preparing)
  }

  lemma StartOneCounts(h: Helper)
    requires Counted(h) && h.running < h.slots && h.queue != [] && h.queue[0] !in h.jobs
    ensures Counted(StartOne(h))
  {
    var g, e := StartOne(h), h.queue[0];
    if IsActive(h, e) {
      assert g.jobs.Keys == h.jobs.Keys + {e};
      assert |g.jobs| == |g.jobs.Keys| && |h.jobs| == |h.jobs.Keys|;
    }
  }

  lemma StartOneLines(h: Helper)
    requires Lined(h) && h.queue != []
    ensures Lined(StartOne(h))
  {
    var g := StartOne(h);
    assert |g.execs| == |h.execs| && forall x | x in g.jobs :: x in h.jobs || x == h.queue[0];
    hide StartOne;
    forall i | 0 <= i < |g.queue|
      ensures g.queue[i] == h.queue[i + 1] && g.queue[i] < |g.execs| && g.queue[i] !in g.jobs
    {
    }
  }

  lemma StillQueued(queue: seq<nat>, x: nat)
    requires x in queue && x != queue[0]
    ensures x in queue[1..]
  {
    var i :| 0 <= i < |queue| && queue[i] == x;
    assert queue[1..][i - 1] == x;
  }

  lemma StartOnePlaces(h: Helper)
    requires Placed(h) && h.queue != []
    ensures Placed(StartOne(h))
  {
    var g, e := StartOne(h), h.queue[0];
    forall id | id in g.active
      ensures g.active[id] in g.jobs || g.active[id] in g.queue
    {
      var a := h.active[id];
      if a == e {
        assert IsActive(h, e);
      } else if a in h.queue {
        StillQueued(h.queue, a);
      }
    }
  }

  lemma StartOneKeeps(h: Helper)
    requires Slotted(h) && h.running < h.slots && h.queue != []
    ensures Slotted(StartOne(h)) && Started(h, StartOne(h))
  {
    assert h.queue[0] !in h.jobs;
    hide Counted, Lined, Placed;
    StartOneCounts(h);
    StartOneLines(h);
    StartOnePlaces(h);
    StartOneFrame(h);
  }

  lemma StartOneFrame(h: Helper)
    requires h.queue != [] && h.queue[0] !in h.jobs
    ensures Started(h, StartOne(h))
  {
  }

  /** After every turn all slots are busy or nothing is queued. */
  lemma {:induction false} StartKeeps(h: Helper)
    requires Slotted(h)
    ensures Slotted(Start(h)) && Saturated(Start(h)) && Started(h, Start(h))
    decreases |h.queue|
  {
    if h.running < h.slots && h.queue != [] {
      StartOneKeeps(h);
      StartKeeps(StartOne(h));
    }
  }

  // ------------------------------------------------------------------------------------------
  // Responses
  // ------------------------------------------------------------------------------------------

  lemma CancelKeepsSlotted(h: Helper, ids: set<nat>)
    requires Slotted(h)
    ensures Slotted(Cancel(h, ids))
  {
  }

  lemma CancelKeepsFaithful(h: Helper, ids: set<nat>, hash: nat -> string)
    requires Placed(h) && Faithful(h, hash)
    ensures Faithful(Cancel(h, ids), hash)
  {
    var g := Cancel(h, ids);
    assert forall i | 0 <= i < |h.execs| :: g.execs[i].work == h.execs[i].work;
    forall id | id in g.active
      ensures !g.execs[g.active[id]].cancelled
    {
      assert h.execs[h.active[id]].work.lease == id;
    }
    forall e | e in g.jobs && e < |g.execs|
      ensures JobFaithful(g.execs[e], g.jobs[e])
    {
      assert JobFaithful(h.execs[e], h.jobs[e]);
    }
  }

  lemma EnqueueKeepsSlotted(h: Helper, work: Work)
    requires Slotted(h)
    ensures Slotted(Enqueue(h, work))
  {
    var g := Enqueue(h, work);
    assert g.queue[|h.queue|] == |h.execs|;
    forall id | id in g.active
      ensures g.active[id] in g.jobs || g.active[id] in g.queue
    {
      if id != work.lease && h.active[id] in h.queue {
        assert h.active[id] in g.queue;
      }
    }
  }

  /** Works the helper has not seen, each with the leader's binary for its package. */
  ghost predicate Acceptable(h: Helper, works: seq<Work>, hash: nat -> string) {
    && (forall i, j | 0 <= i < j < |works| :: works[i].lease != works[j].lease)
    && (forall i, e | 0 <= i < |works| && 0 <= e < |h.execs| :: works[i].lease != h.execs[e].work.lease)
    && (forall i | 0 <= i < |works| :: works[i].binary == hash(works[i].pkg))
  }

  lemma EnqueueKeepsFaithful(h: Helper, works: seq<Work>, hash: nat -> string)
    requires Slotted(h) && Faithful(h, hash) && works != [] && Acceptable(h, works, hash)
    ensures Faithful(Enqueue(h, works[0]), hash) && Acceptable(Enqueue(h, works[0]), works[1..], hash)
  {
    var g, rest := Enqueue(h, works[0]), works[1..];
    assert forall i | 0 <= i < |rest| :: rest[i] == works[i + 1];
    forall e | e in g.jobs
      ensures JobFaithful(g.execs[e], g.jobs[e])
    {
      assert JobFaithful(h.execs[e], h.jobs[e]);
    }
  }

  lemma {:induction false} EnqueueAllKeeps(h: Helper, works: seq<Work>, hash: nat -> string)
    requires Slotted(h) && Faithful(h, hash) && Acceptable(h, works, hash)
    ensures Slotted(EnqueueAll(h, works)) && Faithful(EnqueueAll(h, works), hash)
    decreases |works|
  {
    if works != [] {
      EnqueueKeepsSlotted(h, works[0]);
      EnqueueKeepsFaithful(h, works, hash);
      EnqueueAllKeeps(Enqueue(h, works[0]), works[1..], hash);
    }
  }

  lemma StartedKeepsFaithful(h: Helper, g: Helper, hash: nat -> string)
    requires Slotted(h) && Faithful(h, hash) && Started(h, g)
    ensures Faithful(g, hash)
  {
    forall e | e in g.jobs && e < |g.execs|
      ensures JobFaithful(g.execs[e], g.jobs[e])
    {
      if e in h.jobs {
        assert JobFaithful(h.execs[e], h.jobs[e]);
      }
    }
  }

  /** The loop's flags are not part of its discipline. */
  lemma FlagsKeep(h: Helper, g: Helper, hash: nat -> string)
    requires g == h.(dirty := g.dirty, inFlight := g.inFlight, over := g.over)
    ensures Slotted(h) ==> Slotted(g)
    ensures Saturated(h) ==> Saturated(g)
    ensures Faithful(h, hash) ==> Faithful(g, hash)
  {
  }

  lemma AcceptableFrame(h: Helper, g: Helper, ks: seq<Work>, f: nat -> string)
    requires Acceptable(h, ks, f) && |g.execs| == |h.execs| && forall e | 0 <= e < |h.execs| :: g.execs[e].work == h.execs[e].work
    ensures Acceptable(g, ks, f)
  {
  }

  lemma CancelKeepsWorks(h: Helper, ids: set<nat>)
    ensures |Cancel(h, ids).execs| == |h.execs| && forall e | 0 <= e < |h.execs| :: Cancel(h, ids).execs[e].work == h.execs[e].work
  {
  }

  lemma ReceiveKeeps(h: Helper, res: Response, hash: nat -> string)
    requires Slotted(h) && Saturated(h) && Faithful(h, hash) && Acceptable(h, res.work, hash)
    ensures var g := Receive(h, res); Slotted(g) && Saturated(g) && Faithful(g, hash)
  {
    hide Counted, Lined, Placed, Saturated, Faithful, Acceptable, Cancel, EnqueueAll, Start, Started;
    var m := h.(inFlight := false);
    if res.error != "" || res.done {
      FlagsKeep(h, m.(over := true), hash);
    } else {
      FlagsKeep(h, m, hash);
      var c := Cancel(m, res.cancel);
      CancelKeepsSlotted(m, res.cancel);
      CancelKeepsFaithful(m, res.cancel, hash);
      CancelKeepsWorks(m, res.cancel);
      AcceptableFrame(h, c, res.work, hash);
      EnqueueAllKeeps(c, res.work, hash);
      StartKeeps(EnqueueAll(c, res.work));
      StartedKeepsFaithful(EnqueueAll(c, res.work), Start(EnqueueAll(c, res.work)), hash);
    }
  }

  // ------------------------------------------------------------------------------------------
  // Jobs
  // ------------------------------------------------------------------------------------------

  /** A job's progress changes no slot and no place. */
  lemma ProgressKeepsSlotted(h: Helper, g: Helper)
    requires Slotted(h) && g.jobs.Keys == h.jobs.Keys && g.execs == h.execs
    requires g.queue == h.queue && g.active == h.active && g.running == h.running && g.slots == h.slots
    ensures Slotted(g)
  {
    assert |g.jobs| == |g.jobs.Keys| && |h.jobs| == |h.jobs.Keys|;
  }

  lemma ProgressKeepsFaithful(h: Helper, g: Helper, e: nat, hash: nat -> string)
    requires Faithful(h, hash) && g.execs == h.execs && g.active == h.active && e < |h.execs|
    requires forall x | x in g.jobs && x != e :: x in h.jobs && g.jobs[x] == h.jobs[x]
    requires e in g.jobs ==> JobFaithful(h.execs[e], g.jobs[e])
    requires forall p | p in g.bins :: g.bins[p] == hash(p)
    ensures Faithful(g, hash)
  {
    forall x | x in g.jobs && x < |g.execs|
      ensures JobFaithful(g.execs[x], g.jobs[x])
    {
      assert x != e ==> JobFaithful(h.execs[x], h.jobs[x]);
    }
  }

  lemma PrepareKeepsSlotted(h: Helper, e: nat, built: Option<string>)
    requires Slotted(h) && e in h.jobs && e < |h.execs|
    ensures Slotted(Prepare(h, e, built))
  {
    var g := Prepare(h, e, built);
    assert g.jobs.Keys == h.jobs.Keys;
    ProgressKeepsSlotted(h, g);
  }

  /** Whether kept or built, the binary of a package is the leader's. */
  lemma BinaryIsLeaders(h: Helper, e: nat, built: Option<string>, hash: nat -> string)
    requires Faithful(h, hash) && e < |h.execs|
    ensures var work := h.execs[e].work; var b := Binary(h, work, built);
      work.binary == hash(work.pkg) && (b.Some? ==> b.value == work.binary)
  {
  }

  lemma PrepareKeepsFaithful(h: Helper, e: nat, built: Option<string>, hash: nat -> string)
    requires Faithful(h, hash) && e in h.jobs && e < |h.execs|
    ensures Faithful(Prepare(h, e, built), hash)
  {
    var g := Prepare(h, e, built);
    BinaryIsLeaders(h, e, built, hash);
    assert forall p | p in h.bins :: h.bins[p] == hash(p);
    hide Faithful, Binary;
    assert JobFaithful(h.execs[e], g.jobs[e]);
    ProgressKeepsFaithful(h, g, e, hash);
  }

  lemma PrepareKeeps(h: Helper, e: nat, built: Option<string>, hash: nat -> string)
    requires Slotted(h) && Saturated(h) && Faithful(h, hash) && e in h.jobs
    ensures var g := Prepare(h, e, built); Slotted(g) && Saturated(g) && Faithful(g, hash)
  {
    PrepareKeepsSlotted(h, e, built);
    PrepareKeepsFaithful(h, e, built, hash);
  }

  lemma ExecuteKeeps(h: Helper, e: nat, outcome: WorkerResult, hash: nat -> string)
    requires Slotted(h) && Saturated(h) && Faithful(h, hash) && e in h.jobs && h.jobs[e].Prepared?
    ensures var g := Execute(h, e, outcome); Slotted(g) && Saturated(g) && Faithful(g, hash)
  {
    var g := Execute(h, e, outcome);
    assert g.jobs.Keys == h.jobs.Keys;
    ProgressKeepsSlotted(h, g);
    hide Lined, Placed;
    assert JobFaithful(h.execs[e], h.jobs[e]);
    ProgressKeepsFaithful(h, g, e, hash);
  }

  /** A ready message changes the state of at most one execution. */
  lemma OnReadyChanges(h: Helper)
    requires h.readies != []
    ensures var g := OnReady(h);
      && g == h.(execs := g.execs, readies := g.readies, binaries := g.binaries, dirty := true) && |g.execs| == |h.execs|
      && forall i | 0 <= i < |h.execs| :: g.execs[i] == h.execs[i].(state := g.execs[i].state)
  {
  }

  lemma OnReadyKeeps(h: Helper, hash: nat -> string)
    requires Slotted(h) && Saturated(h) && Faithful(h, hash) && h.readies != []
    ensures var g := OnReady(h); Slotted(g) && Saturated(g) && Faithful(g, hash)
  {
    OnReadyChanges(h);
    hide OnReady;
    StatesKeepSlotted(h, OnReady(h));
    StatesKeepFaithful(h, OnReady(h), hash);
  }

  lemma StatesKeepSlotted(h: Helper, g: Helper)
    requires Slotted(h) && |g.execs| == |h.execs| && forall i | 0 <= i < |h.execs| :: g.execs[i] == h.execs[i].(state := g.execs[i].state)
    requires g == h.(execs := g.execs, readies := g.readies, binaries := g.binaries, dirty := true)
    ensures Slotted(g)
  {
  }

  lemma StatesKeepFaithful(h: Helper, g: Helper, hash: nat -> string)
    requires Faithful(h, hash) && |g.execs| == |h.execs| && forall i | 0 <= i < |h.execs| :: g.execs[i] == h.execs[i].(state := g.execs[i].state)
    requires g == h.(execs := g.execs, readies := g.readies, binaries := g.binaries, dirty := true)
    ensures Faithful(g, hash)
  {
    forall x | x in g.jobs && x < |g.execs|
      ensures JobFaithful(g.execs[x], g.jobs[x])
    {
      assert JobFaithful(h.execs[x], h.jobs[x]);
    }
  }

  /** Reaping a job frees one slot. */
  lemma ReapCounts(h: Helper, e: nat)
    requires Counted(h) && Lined(h) && e in h.jobs && h.jobs[e].Ended?
    ensures h.running > 0 && Counted(Reaped(h, e)) && Lined(Reaped(h, e))
  {
    assert e in h.jobs.Keys && |h.jobs| == |h.jobs.Keys|;
    var g := Reaped(h, e);
    assert g.jobs.Keys == h.jobs.Keys - {e} && |g.jobs| == |g.jobs.Keys|;
  }

  /** Only the active execution of a lease can end it: an active lease's job is that execution. */
  lemma ReapPlaces(h: Helper, e: nat)
    requires Placed(h) && e in h.jobs && h.jobs[e].Ended? && h.running > 0
    requires e < |h.execs| && h.jobs[e].result.lease == h.execs[e].work.lease
    ensures Placed(Reaped(h, e))
  {
    var g := Reaped(h, e);
    forall id | id in g.active
      ensures g.active[id] in g.jobs || g.active[id] in g.queue
    {
      assert h.active[id] in h.jobs || h.active[id] in h.queue;
      assert h.active[id] != e;
    }
  }

  lemma ReapKeeps(h: Helper, e: nat, hash: nat -> string)
    requires Slotted(h) && Faithful(h, hash) && e in h.jobs && h.jobs[e].Ended?
    ensures h.running > 0
    ensures var g := Reap(h, e); Slotted(g) && Saturated(g) && Faithful(g, hash)
    ensures AllReportable(h, h.pending) ==> AllReportable(Reap(h, e), Reap(h, e).pending)
  {
    ReapCounts(h, e);
    assert JobFaithful(h.execs[e], h.jobs[e]);
    ReapPlaces(h, e);
    var m := Reaped(h, e);
    ReapedFaithful(h, e, hash);
    StartKeeps(m);
    StartedKeepsFaithful(m, Start(m), hash);
    if AllReportable(h, h.pending) {
      ReapReports(h, e, hash);
      ReportableFrame(m, Start(m), m.pending);
    }
  }

  lemma ReapedFaithful(h: Helper, e: nat, hash: nat -> string)
    requires Slotted(h) && Faithful(h, hash) && e in h.jobs && h.jobs[e].Ended? && h.running > 0
    ensures Faithful(Reaped(h, e), hash)
  {
    var g := Reaped(h, e);
    forall x | x in g.jobs && x < |g.execs|
      ensures JobFaithful(g.execs[x], g.jobs[x])
    {
      assert JobFaithful(h.execs[x], h.jobs[x]);
    }
  }

  /** An ended job whose lease is still active is its active execution, was not cancelled, and ran the lease's test. */
  lemma ActiveIsGenuine(h: Helper, e: nat, hash: nat -> string)
    requires Slotted(h) && Faithful(h, hash) && e in h.jobs && h.jobs[e].Ended?
    ensures e < |h.execs|
    ensures var r := h.jobs[e].result;
      r.lease in h.active ==>
        && !h.execs[e].cancelled && h.execs[e].work.lease == r.lease
        && (r.infra || r.ran == Some(Genuine(h.execs[e].work)))
  {
    var r := h.jobs[e].result;
    assert JobFaithful(h.execs[e], h.jobs[e]);
    if r.lease in h.active {
      assert h.execs[h.active[r.lease]].work.lease == r.lease;
      assert h.active[r.lease] == e;
    }
  }

  /** A cancelled job's result is never reported; what is reported ran the lease's own test on the leader's binary. */
  lemma ReapReports(h: Helper, e: nat, hash: nat -> string)
    requires Slotted(h) && Faithful(h, hash) && e in h.jobs && h.jobs[e].Ended? && h.running > 0
    requires AllReportable(h, h.pending)
    ensures e < |h.execs| && AllReportable(Reaped(h, e), Reaped(h, e).pending)
    ensures h.execs[e].cancelled ==> Reaped(h, e).pending == h.pending
  {
    ActiveIsGenuine(h, e, hash);
    hide Slotted, Faithful;
    var g, r := Reaped(h, e), h.jobs[e].result;
    ReportableFrame(h, g, h.pending);
    if r.lease in h.active {
      assert Reportable(g, r);
    }
  }

  /** Reportability depends on the works, which no step changes. */
  lemma ReportableFrame(h: Helper, g: Helper, rs: seq<WorkerResult>)
    requires AllReportable(h, rs) && |h.execs| <= |g.execs|
    requires forall i | 0 <= i < |h.execs| :: g.execs[i].work == h.execs[i].work
    ensures AllReportable(g, rs)
  {
    forall i | 0 <= i < |rs|
      ensures Reportable(g, rs[i])
    {
      var e :| 0 <= e < |h.execs| && h.execs[e].work.lease == rs[i].lease && (rs[i].infra || rs[i].ran == Some(Genuine(h.execs[e].work)));
      assert g.execs[e].work == h.execs[e].work;
    }
  }
}
