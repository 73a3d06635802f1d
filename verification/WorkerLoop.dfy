/**
  The helper's loop as the program runs it: fields updated in place, one turn per message. Each
  turn is proved to do what the corresponding function of Helpers says.
 */
module WorkerLoops {
  import opened Common
  import opened Fleet
  import opened Helpers
  import opened HelperSafety

  lemma ElementsNext(s: seq<nat>, k: nat)
    requires k < |s|
    ensures Elements(s[..k + 1]) == Elements(s[..k]) + {s[k]}
  {
    var a := s[..k + 1];
    assert a == s[..k] + [s[k]];
  }

  /** What cancelling one lease does: its active execution is marked and forgotten. */
  function Forget(h: Helper, id: nat): Helper {
    if id in h.active && h.active[id] < |h.execs|
    then h.(active := h.active - {id}, execs := h.execs[h.active[id] := h.execs[h.active[id]].(cancelled := true)])
    else h
  }

  lemma CancelNone(h: Helper)
    ensures Cancel(h, {}) == h
  {
    assert Cancel(h, {}).execs == h.execs;
    assert h.active - {} == h.active;
  }

  /** Cancelling leases one after the other cancels them all. */
  lemma CancelNext(h: Helper, ids: set<nat>, id: nat)
    requires Placed(h)
    ensures Cancel(h, ids + {id}) == Forget(Cancel(h, ids), id)
  {
    var g, n := Cancel(h, ids), Cancel(h, ids + {id});
    assert n.active == g.active - {id};
    if id in h.active && id !in ids {
      CancelMarks(h, ids, id);
    } else {
      assert forall i | 0 <= i < |h.execs| && IsActive(h, i) :: h.execs[i].work.lease == id ==> id in ids;
      assert n.execs == g.execs;
    }
  }

  lemma CancelMarks(h: Helper, ids: set<nat>, id: nat)
    requires Placed(h) && id in h.active && id !in ids
    ensures var g, e := Cancel(h, ids), h.active[id];
      e < |g.execs| && Cancel(h, ids + {id}).execs == g.execs[e := g.execs[e].(cancelled := true)]
  {
    var e := h.active[id];
    assert h.execs[e].work.lease == id;
    forall i | 0 <= i < |h.execs|
      ensures Cancel(h, ids + {id}).execs[i] == if i == e then Cancel(h, ids).execs[i].(cancelled := true) else Cancel(h, ids).execs[i]
    {
    }
  }

  lemma {:induction false} EnqueueNext(h: Helper, ks: seq<Work>, k: Work)
    ensures EnqueueAll(h, ks + [k]) == Enqueue(EnqueueAll(h, ks), k)
    decreases |ks|
  {
    if ks == [] {
      assert ks + [k] == [k];
    } else {
      assert (ks + [k])[1..] == ks[1..] + [k];
      EnqueueNext(Enqueue(h, ks[0]), ks[1..], k);
    }
  }

  lemma {:induction false} EnqueueAllSlotted(h: Helper, ks: seq<Work>)
    requires Slotted(h)
    ensures Slotted(EnqueueAll(h, ks))
    decreases |ks|
  {
    if ks != [] {
      EnqueueKeepsSlotted(h, ks[0]);
      EnqueueAllSlotted(Enqueue(h, ks[0]), ks[1..]);
    }
  }

  class WorkerLoop {
    const slots: nat
    var execs: seq<Exec>
    var active: map<nat, nat>
    var queue: seq<nat>
    var running: nat
    var jobs: map<nat, Stage>
    var readies: seq<ReadyMsg>
    var pending: seq<WorkerResult>
    var binaries: set<string>
    var bins: map<nat, string>
    var dirty: bool
    var inFlight: bool
    var over: bool

    function View(): Helper
      reads this
    {
      Helper(slots, execs, active, queue, running, jobs, readies, pending, binaries, bins, dirty, inFlight, over)
    }

    ghost predicate Valid()
      reads this
    {
      Slotted(View()) && Saturated(View())
    }

    constructor (slots: nat)
      ensures Valid() && View() == NewHelper(slots)
    {
      this.slots := slots;
      execs, active, queue, running, jobs := [], map[], [], 0, map[];
      readies, pending, binaries, bins := [], [], {}, map[];
      dirty, inFlight, over := true, false, false;
    }

    /** Takes the head of the queue, and gives it a slot unless it was cancelled while queued. */
    method StartNext()
      requires queue != [] && queue[0] < |execs|
      modifies this`queue, this`execs, this`running, this`jobs
      ensures View() == StartOne(old(View()))
    {
      var e := queue[0];
      queue := queue[1..];
      if execs[e].work.lease in active && active[execs[e].work.lease] == e {
        execs := execs[e := execs[e].(state := Building)];
        running := running + 1;
        jobs := jobs[e := Preparing];
      }
    }

    /** Fills the free slots from the queue. */
    method StartJobs()
      requires Slotted(View())
      modifies this
      ensures View() == Start(old(View())) && Valid()
    {
      StartKeeps(View());
      while running < slots && queue != []
        invariant Slotted(View()) && Start(View()) == Start(old(View()))
        decreases |queue|
      {
        StartOneKeeps(View());
        hide Slotted, Saturated;
        StartNext();
      }
    }

    /** Hands the pending results to the exchange and starts collecting anew. */
    method Send() returns (req: Request)
      requires Valid()
      modifies this
      ensures (View(), req) == SendRequest(old(View())) && Valid()
    {
      req := Request(ActiveReport(View()), binaries, pending);
      pending, binaries := [], {};
      dirty, inFlight := false, true;
    }

    method CancelLease(id: nat)
      requires Slotted(View())
      modifies this`active, this`execs
      ensures View() == Forget(old(View()), id)
    {
      if id in active {
        var e := active[id];
        execs := execs[e := execs[e].(cancelled := true)];
        active := active - {id};
      }
    }

    /** Forgets the cancelled leases; their jobs run on, unreported. */
    method CancelLeases(cancel: seq<nat>)
      requires Slotted(View())
      modifies this`active, this`execs
      ensures View() == Cancel(old(View()), Elements(cancel)) && Slotted(View())
    {
      ghost var h := View();
      CancelNone(h);
      CancelKeepsSlotted(h, {});
      hide Counted, Lined, Cancel, Forget, Placed;
      assert Elements(cancel[..0]) == {};
      for k := 0 to |cancel|
        invariant View() == Cancel(h, Elements(cancel[..k])) && Slotted(View())
      {
        CancelNext(h, Elements(cancel[..k]), cancel[k]);
        ElementsNext(cancel, k);
        CancelLease(cancel[k]);
        CancelKeepsSlotted(h, Elements(cancel[..k + 1]));
      }
      assert cancel[..|cancel|] == cancel;
    }

    method EnqueueWorks(works: seq<Work>)
      requires Slotted(View())
      modifies this
      ensures View() == EnqueueAll(old(View()), works) && Slotted(View())
    {
      ghost var h := View();
      for k := 0 to |works|
        invariant View() == EnqueueAll(h, works[..k])
      {
        EnqueueNext(h, works[..k], works[k]);
        assert works[..k + 1] == works[..k] + [works[k]];
        active := active[works[k].lease := |execs|];
        queue := queue + [|execs|];
        execs := execs + [Exec(works[k], Queued, false)];
      }
      assert works[..|works|] == works;
      EnqueueAllSlotted(h, works);
    }

    /** A response arrived: it ends the loop, or cancels leases and brings new ones. */
    method OnResponse(works: seq<Work>, cancel: seq<nat>, done: bool, error: string)
      requires Valid()
      modifies this
      ensures View() == Receive(old(View()), Response(works, Elements(cancel), done, error)) && Valid()
    {
      inFlight := false;
      if error != "" || done {
        over := true;
        return;
      }
      CancelLeases(cancel);
      EnqueueWorks(works);
      StartJobs();
    }

    /** A job has its binary: the leader is told at the next exchange. */
    method OnReadyMessage()
      requires Valid() && readies != []
      modifies this
      ensures View() == OnReady(old(View())) && Valid()
    {
      var m := readies[0];
      readies := readies[1..];
      binaries := binaries + {m.hash};
      if m.lease in active {
        var e := active[m.lease];
        execs := execs[e := execs[e].(state := Running)];
      }
      dirty := true;
    }

    /** A job ended: its slot is free, and its result is reported if the lease is still active. */
    method OnResult(e: nat)
      requires Valid() && e in jobs && jobs[e].Ended? && e < |execs| && jobs[e].result.lease == execs[e].work.lease
      modifies this
      ensures old(running) > 0 && View() == Reap(old(View()), e) && Valid()
    {
      ghost var h := View();
      ReapCounts(h, e);
      ReapPlaces(h, e);
      assert Reap(h, e) == Start(Reaped(h, e));
      hide Counted, Lined, Placed, Start, Reap;
      DropJob(e);
      StartJobs();
    }

    method DropJob(e: nat)
      requires e in jobs && jobs[e].Ended? && running > 0
      modifies this`running, this`jobs, this`active, this`pending, this`dirty
      ensures View() == Reaped(old(View()), e)
    {
      var r := jobs[e].result;
      running := running - 1;
      jobs := jobs - {e};
      if r.lease in active {
        active := active - {r.lease};
        pending := pending + [r];
      }
      dirty := true;
    }

    /** The binary for a package: kept from an earlier build, or built now and compared with the leader's. */
    method BinaryFor(work: Work, built: Option<string>) returns (binary: Option<string>)
      modifies this`bins
      ensures binary == Binary(old(View()), work, built)
      ensures bins == if binary.Some? then old(bins)[work.pkg := binary.value] else old(bins)
    {
      if work.pkg in bins {
        assert bins[work.pkg := bins[work.pkg]] == bins;
        return Some(bins[work.pkg]);
      }
      if built.None? || built.value != work.binary {
        return None;
      }
      bins := bins[work.pkg := built.value];
      return built;
    }

    /** A job prepares its binary, and announces it unless the lease was cancelled meanwhile. */
    method PrepareJob(e: nat, built: Option<string>)
      requires Valid() && e in jobs && e < |execs|
      modifies this
      ensures View() == Prepare(old(View()), e, built) && Valid()
    {
      ghost var h := View();
      PrepareKeepsSlotted(h, e, built);
      var binary := BinaryFor(execs[e].work, built);
      if binary.None? {
        jobs := jobs[e := Ended(BLANK.(lease := execs[e].work.lease, infra := true, error := "binary"))];
      } else if execs[e].cancelled {
        jobs := jobs[e := Ended(BLANK.(lease := execs[e].work.lease))];
      } else {
        readies := readies + [ReadyMsg(execs[e].work.lease, binary.value)];
        jobs := jobs[e := Prepared(binary.value)];
      }
      assert View() == Prepare(h, e, built);
    }
  }
}
