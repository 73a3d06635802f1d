/** What each turn of the helper's loop and each step of a job does, in terms of leases and executions alone. */
module HelperEffects {
  import opened Common
  import opened Fleet
  import opened Helpers
  import opened HelperSafety

  /** Execution `e` is the one its lease stands for. */
  ghost predicate Stands(h: Helper, e: nat) {
    e < |h.execs| && h.execs[e].work.lease in h.active && h.active[h.execs[e].work.lease] == e
  }

  /** Between `h` and `g` the first `n` queued executions were taken: those that stand got a job, and nothing else did. */
  ghost predicate Took(h: Helper, g: Helper, n: nat) {
    && n <= |h.queue| && g.queue == h.queue[n..]
    && (forall e :: e in g.jobs <==> e in h.jobs || (e in h.queue[..n] && Stands(h, e)))
    && (forall e | e in h.jobs :: g.jobs[e] == h.jobs[e])
    && (forall e | e in g.jobs && e !in h.jobs :: g.jobs[e] == Preparing && e < |g.execs| && g.execs[e].state == Building)
    && |g.execs| == |h.execs| && (forall e | 0 <= e < |h.execs| :: g.execs[e].work == h.execs[e].work) && g.active == h.active
    && (forall e: nat | e < |h.execs| && (e in h.jobs || e !in g.jobs) :: g.execs[e] == h.execs[e])
  }

  lemma StartOneTakes(h: Helper)
    requires Lined(h) && h.queue != []
    ensures Took(h, StartOne(h), 1)
  {
    assert h.queue[..1] == [h.queue[0]];
    assert IsActive(h, h.queue[0]) <==> Stands(h, h.queue[0]);
  }

  lemma TookMore(h: Helper, m: Helper, g: Helper, n: nat)
    requires h.queue != [] && Took(h, m, 1) && Took(m, g, n)
    ensures Took(h, g, n + 1)
  {
    TakenTogether(h.queue, n);
    forall e: nat
      ensures Stands(m, e) <==> Stands(h, e)
      ensures e in h.queue[..n + 1] <==> e in h.queue[..1] || e in m.queue[..n]
    {
    }
    hide Stands;
  }

  lemma TakenTogether(queue: seq<nat>, n: nat)
    requires queue != [] && n < |queue|
    ensures queue[..n + 1] == queue[..1] + queue[1..][..n] && queue[1..][n..] == queue[n + 1..]
  {
  }

  /** Jobs start in the order in which their leases came, and those cancelled while queued never start. */
  lemma {:induction false} StartIsFifo(h: Helper) returns (n: nat)
    requires Lined(h)
    ensures Took(h, Start(h), n) && (n < |h.queue| ==> Start(h).running >= h.slots)
    decreases |h.queue|
  {
    n := 0;
    if h.running < h.slots && h.queue != [] {
      StartOneTakes(h);
      StartOneLines(h);
      n := StartIsFifo(StartOne(h));
      hide Start, StartOne, Took, Lined;
      TookMore(h, StartOne(h), Start(StartOne(h)), n);
      n := n + 1;
    } else {
      assert h.queue[..0] == [] && h.queue[0..] == h.queue;
    }
  }

  /** A helper begins idle and asks at once. */
  lemma BeginsByAsking(slots: nat)
    ensures var h := NewHelper(slots);
      && h.slots == slots && h.execs == [] && h.active == map[] && h.queue == [] && h.running == 0 && h.jobs == map[]
      && h.pending == [] && h.bins == map[] && h.dirty && !h.inFlight && !h.over
  {
  }

  /** A request says of every active lease which state its execution is in, and hands over all results and binaries. */
  lemma SendSays(h: Helper)
    requires Placed(h)
    ensures var (g, req) := SendRequest(h);
      && req.active.Keys == h.active.Keys
      && (forall id | id in h.active :: req.active[id] == Reported(h.execs[h.active[id]].state))
      && req.results == h.pending && req.binaries == h.binaries
      && g.pending == [] && g.binaries == {} && !g.dirty && g.inFlight
      && g.active == h.active && g.execs == h.execs && g.queue == h.queue && g.jobs == h.jobs && g.running == h.running
  {
  }

  /** Cancelling takes exactly the named leases out, and marks exactly the executions that stood for them. */
  lemma CancelIsExact(h: Helper, ids: set<nat>)
    ensures var g := Cancel(h, ids);
      && (forall id :: id in g.active <==> id in h.active && id !in ids) && (forall id | id in g.active :: g.active[id] == h.active[id])
      && |g.execs| == |h.execs|
      && (forall e | 0 <= e < |h.execs| ::
            && g.execs[e].work == h.execs[e].work && g.execs[e].state == h.execs[e].state
            && (g.execs[e].cancelled <==> h.execs[e].cancelled || (Stands(h, e) && h.execs[e].work.lease in ids)))
  {
    var g := Cancel(h, ids);
    forall e | 0 <= e < |h.execs|
      ensures g.execs[e].cancelled <==> h.execs[e].cancelled || (Stands(h, e) && h.execs[e].work.lease in ids)
    {
      assert IsActive(h, e) <==> Stands(h, e);
    }
  }

  /** A new work item is queued last, in a state of its own, as the execution its lease stands for. */
  lemma EnqueueIsLast(h: Helper, work: Work)
    ensures var g, e := Enqueue(h, work), |h.execs|;
      && |g.execs| == e + 1 && g.execs[..e] == h.execs && g.execs[e] == Exec(work, Queued, false)
      && g.queue == h.queue + [e] && Stands(g, e)
      && (forall id | id in h.active && id != work.lease :: id in g.active && g.active[id] == h.active[id])
  {
  }

  /** The loop ends on a response with an error or the end of the run, and on no other. */
  lemma ReceiveEnds(h: Helper, res: Response)
    requires !h.over
    ensures Receive(h, res).over <==> res.error != "" || res.done
    ensures !Receive(h, res).inFlight
  {
    if res.error == "" && !res.done {
      var q := EnqueueAll(Cancel(h.(inFlight := false), res.cancel), res.work);
      EnqueueAllKeepsFlags(Cancel(h.(inFlight := false), res.cancel), res.work);
      StartKeepsFlags(q);
    }
  }

  lemma {:induction false} EnqueueAllKeepsFlags(h: Helper, works: seq<Work>)
    ensures EnqueueAll(h, works).over == h.over && EnqueueAll(h, works).inFlight == h.inFlight
    decreases |works|
  {
    if works != [] {
      EnqueueAllKeepsFlags(Enqueue(h, works[0]), works[1..]);
    }
  }

  lemma {:induction false} StartKeepsFlags(h: Helper)
    ensures Start(h).over == h.over && Start(h).inFlight == h.inFlight
    decreases |h.queue|
  {
    if h.running < h.slots && h.queue != [] {
      StartKeepsFlags(StartOne(h));
    }
  }

  /** A ready message makes the execution its lease stands for running, announces the binary, and asks for an exchange. */
  lemma ReadyMeans(h: Helper)
    requires Placed(h) && h.readies != []
    ensures var g, m := OnReady(h), h.readies[0];
      && g.readies == h.readies[1..] && g.dirty && (forall b :: b in g.binaries <==> b in h.binaries || b == m.hash)
      && |g.execs| == |h.execs|
      && (forall e | 0 <= e < |h.execs| ::
            g.execs[e] == h.execs[e].(state := if m.lease in h.active && h.active[m.lease] == e then Running else h.execs[e].state))
  {
  }

  /** The job has a binary: kept from an earlier lease of the package, or just built with the hash the leader asked for. */
  ghost predicate HasBinary(h: Helper, work: Work, built: Option<string>) {
    work.pkg in h.bins || built == Some(work.binary)
  }

  /**
    Preparing a job goes on to the test exactly if there is a binary and the lease was not cancelled,
    and then announces it. Without a binary the job ends in an infrastructure error; cancelled, it
    ends with nothing to report. A binary once obtained is kept.
   */
  lemma PrepareOutcome(h: Helper, e: nat, built: Option<string>)
    requires e in h.jobs && e < |h.execs|
    ensures var g, x := Prepare(h, e, built), h.execs[e];
      && e in g.jobs
      && (g.jobs[e].Prepared? <==> HasBinary(h, x.work, built) && !x.cancelled)
      && (g.jobs[e].Prepared? ==>
            && g.jobs[e].hash == (if x.work.pkg in h.bins then h.bins[x.work.pkg] else x.work.binary)
            && g.readies == h.readies + [ReadyMsg(x.work.lease, g.jobs[e].hash)])
      && (!g.jobs[e].Prepared? ==> g.readies == h.readies && g.jobs[e].Ended? && g.jobs[e].result.lease == x.work.lease)
      && (g.jobs[e].Ended? ==>
            && (g.jobs[e].result.infra <==> !HasBinary(h, x.work, built)) && g.jobs[e].result.ran == None
            && !g.jobs[e].result.passed && !g.jobs[e].result.cached && g.jobs[e].result.duration == 0 && g.jobs[e].result.cacheChecks == 0)
      && (HasBinary(h, x.work, built) ==> x.work.pkg in g.bins)
      && (forall p | p in h.bins :: p in g.bins && g.bins[p] == h.bins[p])
  {
  }

  /** A reaped result waits to be reported exactly if its lease is still active, and then the lease is active no more. */
  lemma ReapHandsOver(h: Helper, e: nat)
    requires e in h.jobs && h.jobs[e].Ended? && h.running > 0
    ensures var g, r := Reaped(h, e), h.jobs[e].result;
      && g.pending == (if r.lease in h.active then h.pending + [r] else h.pending) && g.dirty
      && g.active.Keys == h.active.Keys - {r.lease} && g.jobs.Keys == h.jobs.Keys - {e} && g.running == h.running - 1
      && g.queue == h.queue && g.execs == h.execs && g.bins == h.bins
  {
  }
}
