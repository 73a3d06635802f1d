/**
  Where a committed verdict comes from: in every run, a result that a helper committed is what some
  execution of that very lease returned, field by field.
 */
module Provenance {
  import opened Common
  import opened Fleet
  import opened FleetSafety
  import opened Helpers
  import opened HelperSafety
  import opened Systems
  import opened SystemSafety

  /** The two say the same about the test, whatever lease they are for. */
  predicate SameOutcome(a: WorkerResult, b: WorkerResult) {
    && a.passed == b.passed && a.cached == b.cached && a.duration == b.duration
    && a.cacheChecks == b.cacheChecks && a.error == b.error && a.infra == b.infra
  }

  /** The step ran the lease of result `r` on a helper, with the outcome that `r` reports. */
  ghost predicate Backs(s: System, x: Step, r: WorkerResult) {
    && x.JobExecuted? && x.c < |s.conns| && x.e < |s.conns[x.c].helper.execs|
    && s.conns[x.c].helper.execs[x.e].work.lease == r.lease && SameOutcome(x.outcome, r)
  }

  /** A result that claims an execution has one in the past. */
  ghost predicate Backed(s: System, past: seq<Step>, r: WorkerResult) {
    r.ran.Some? ==> exists k :: 0 <= k < |past| && Backs(s, past[k], r)
  }

  /** The results a connection holds: of ended jobs, waiting to be sent, or in the request. */
  ghost function ResultsIn(c: Conn): set<WorkerResult> {
    (set e | e in c.helper.jobs && c.helper.jobs[e].Ended? :: c.helper.jobs[e].result)
    + Elements(c.helper.pending)
    + (if c.chan.Asked? then Elements(c.chan.req.results) else {})
  }

  ghost predicate Traced(s: System, past: seq<Step>) {
    && (forall c, r | 0 <= c < |s.conns| && r in ResultsIn(s.conns[c]) :: Backed(s, past, r))
    && (forall i | 0 <= i < |s.leader.commits| :: CommitTraced(s, past, s.leader.commits[i]))
  }

  /** A commit of the leader's own slots needs no helper behind it. */
  ghost predicate CommitTraced(s: System, past: seq<Step>, k: Commit) {
    k.worker < |s.leader.workers| && (!s.leader.workers[k.worker].leader ==> Backed(s, past, k.result))
  }

  // ------------------------------------------------------------------------------------------
  // Works never change
  // ------------------------------------------------------------------------------------------

  ghost predicate WorksStay(h: Helper, g: Helper) {
    |h.execs| <= |g.execs| && forall e | 0 <= e < |h.execs| :: g.execs[e].work == h.execs[e].work
  }

  ghost predicate AllWorksStay(s: System, t: System) {
    |s.conns| <= |t.conns| && forall c | 0 <= c < |s.conns| :: WorksStay(s.conns[c].helper, t.conns[c].helper)
  }

  lemma BackedStays(s: System, t: System, past: seq<Step>, x: Step, r: WorkerResult)
    requires AllWorksStay(s, t) && Backed(s, past, r)
    ensures Backed(t, past + [x], r)
  {
    if r.ran.Some? {
      var k :| 0 <= k < |past| && Backs(s, past[k], r);
      assert (past + [x])[k] == past[k];
      assert WorksStay(s.conns[past[k].c].helper, t.conns[past[k].c].helper);
      assert Backs(t, (past + [x])[k], r);
    }
  }

  // ------------------------------------------------------------------------------------------
  // What a step does to the results a connection holds
  // ------------------------------------------------------------------------------------------

  /** The results of ended jobs. */
  ghost function JobResults(h: Helper): set<WorkerResult> {
    set e | e in h.jobs && h.jobs[e].Ended? :: h.jobs[e].result
  }

  /** Starting jobs ends none, and keeps every work. */
  lemma {:induction false} StartEndsNone(h: Helper)
    ensures var g := Start(h);
      JobResults(g) <= JobResults(h) && g.pending == h.pending && |g.execs| == |h.execs| && WorksStay(h, g)
    decreases |h.queue|
  {
    if h.running < h.slots && h.queue != [] {
      StartOneEndsNone(h);
      StartEndsNone(StartOne(h));
    }
  }

  lemma StartOneEndsNone(h: Helper)
    requires h.queue != []
    ensures var g := StartOne(h);
      JobResults(g) <= JobResults(h) && g.pending == h.pending && |g.execs| == |h.execs| && WorksStay(h, g)
  {
    var g := StartOne(h);
    forall e | e in g.jobs && g.jobs[e].Ended?
      ensures g.jobs[e].result in JobResults(h)
    {
      assert e in h.jobs && h.jobs[e] == g.jobs[e];
    }
  }

  lemma {:induction false} EnqueueAllEndsNone(h: Helper, ks: seq<Work>)
    ensures EnqueueAll(h, ks).jobs == h.jobs
    decreases |ks|
  {
    if ks != [] {
      EnqueueAllEndsNone(Enqueue(h, ks[0]), ks[1..]);
    }
  }

  lemma ReceiveEndsNone(h: Helper, res: Response)
    ensures var g := Receive(h, res); JobResults(g) <= JobResults(h) && g.pending == h.pending && WorksStay(h, g)
  {
    if res.error == "" && !res.done {
      var m := h.(inFlight := false);
      var c := Cancel(m, res.cancel);
      var q := EnqueueAll(c, res.work);
      CancelKeepsWorks(m, res.cancel);
      EnqueueAllEndsNone(c, res.work);
      EnqueueAllAdds(c, res.work);
      StartEndsNone(q);
      hide Start, EnqueueAll, Cancel;
      assert JobResults(q) == JobResults(h);
    }
  }

  /** The result a step of a helper brings into being, if any. */
  ghost function NewResults(h: Helper, x: Step): set<WorkerResult>
    requires HelperEnabled(h, x)
  {
    match x
    case JobPrepared(_, e, built) => if Prepare(h, e, built).jobs[e].Ended? then {Prepare(h, e, built).jobs[e].result} else {}
    case JobExecuted(_, e, outcome) => if Execute(h, e, outcome).jobs[e].Ended? then {Execute(h, e, outcome).jobs[e].result} else {}
    case _ => {}
  }

  lemma ReapMovesResult(h: Helper, e: nat)
    requires e in h.jobs && h.jobs[e].Ended? && h.running > 0
    ensures var g := Reap(h, e);
      JobResults(g) + Elements(g.pending) <= JobResults(h) + Elements(h.pending) && WorksStay(h, g)
  {
    var m := Reaped(h, e);
    StartEndsNone(m);
    assert h.jobs[e].result in JobResults(h);
    forall r | r in m.pending
      ensures r in JobResults(h) + Elements(h.pending)
    {
      assert r in h.pending || r == h.jobs[e].result;
    }
    forall x | x in m.jobs && m.jobs[x].Ended?
      ensures m.jobs[x].result in JobResults(h)
    {
      assert h.jobs[x] == m.jobs[x];
    }
    hide Start;
  }

  lemma JobStepResults(h: Helper, g: Helper, e: nat)
    requires g.jobs.Keys == h.jobs.Keys && e in g.jobs && forall x | x in h.jobs && x != e :: g.jobs[x] == h.jobs[x]
    ensures JobResults(g) <= JobResults(h) + (if g.jobs[e].Ended? then {g.jobs[e].result} else {})
  {
    forall x | x in g.jobs && g.jobs[x].Ended?
      ensures g.jobs[x].result in JobResults(h) + (if g.jobs[e].Ended? then {g.jobs[e].result} else {})
    {
      if x != e {
        assert h.jobs[x] == g.jobs[x];
      }
    }
  }

  lemma HelperStepResults(h: Helper, x: Step)
    requires HelperEnabled(h, x)
    ensures var g := HelperStep(h, x);
      JobResults(g) + Elements(g.pending) <= JobResults(h) + Elements(h.pending) + NewResults(h, x) && WorksStay(h, g)
  {
    if x.JobReaped? {
      ReapMovesResult(h, x.e);
    } else if x.JobPrepared? {
      JobStepResults(h, Prepare(h, x.e, x.built), x.e);
    } else if x.JobExecuted? {
      JobStepResults(h, Execute(h, x.e, x.outcome), x.e);
    } else if x.TakeReady? {
      OnReadyChanges(h);
    }
  }

  /** A new result claims no execution, or has just been executed with that outcome. */
  lemma NewIsBacked(s: System, t: System, past: seq<Step>, x: Step, r: WorkerResult)
    requires x.JobPrepared? || x.JobExecuted?
    requires x.c < |s.conns| && HelperEnabled(s.conns[x.c].helper, x) && AllWorksStay(s, t) && r in NewResults(s.conns[x.c].helper, x)
    ensures Backed(t, past + [x], r)
  {
    var h := s.conns[x.c].helper;
    if x.JobExecuted? {
      assert (past + [x])[|past|] == x;
      assert WorksStay(h, t.conns[x.c].helper);
      assert SameOutcome(x.outcome, r) && r.lease == h.execs[x.e].work.lease;
      assert Backs(t, (past + [x])[|past|], r);
    }
  }

  lemma StepWorksStay(s: System, x: Step)
    requires CanStep(s, x)
    ensures AllWorksStay(s, StepOf(s, x))
  {
    var t := StepOf(s, x);
    ConnsStay(s, x);
    forall c | 0 <= c < |s.conns|
      ensures WorksStay(s.conns[c].helper, t.conns[c].helper)
    {
      if c == Owner(x) {
        OwnStepResults(s, x);
      }
    }
  }

  /** The results a connection's own step leaves in it are those it had, and the new one. */
  lemma OwnStepResults(s: System, x: Step)
    requires CanStep(s, x) && Owner(x) >= 0
    ensures |StepOf(s, x).conns| == |s.conns| && x.c < |s.conns|
    ensures WorksStay(s.conns[x.c].helper, StepOf(s, x).conns[x.c].helper)
    ensures ResultsIn(StepOf(s, x).conns[x.c]) <=
      ResultsIn(s.conns[x.c]) + if HelperEnabled(s.conns[x.c].helper, x) then NewResults(s.conns[x.c].helper, x) else {}
  {
    hide Enabled;
    var c, d := s.conns[x.c], StepOf(s, x).conns[x.c];
    assert ResultsIn(c) == JobResults(c.helper) + Elements(c.helper.pending) + (if c.chan.Asked? then Elements(c.chan.req.results) else {});
    assert ResultsIn(d) == JobResults(d.helper) + Elements(d.helper.pending) + (if d.chan.Asked? then Elements(d.chan.req.results) else {});
    hide ResultsIn, JobResults, WorksStay;
    if x.Send? {
      SendResults(c.helper);
    } else if x.Deliver? {
      ReceiveEndsNone(c.helper, c.chan.res);
    } else if x.AcceptNext? || x.Tail? || x.Hangup? {
      SameWorks(c.helper);
    } else {
      HelperStepResults(c.helper, x);
    }
  }

  lemma SameWorks(h: Helper)
    ensures WorksStay(h, h)
  {
  }

  lemma SendResults(h: Helper)
    ensures var (g, req) := SendRequest(h);
      JobResults(g) == JobResults(h) && g.pending == [] && req.results == h.pending && WorksStay(h, g)
  {
  }

  // ------------------------------------------------------------------------------------------
  // Every step
  // ------------------------------------------------------------------------------------------

  /** After any step, every result in a connection is backed. */
  lemma ResultsTraced(s: System, past: seq<Step>, x: Step, d: nat, r: WorkerResult)
    requires CanStep(s, x) && Traced(s, past) && AllWorksStay(s, StepOf(s, x))
    requires d < |StepOf(s, x).conns| && r in ResultsIn(StepOf(s, x).conns[d])
    ensures Backed(StepOf(s, x), past + [x], r)
  {
    var t := StepOf(s, x);
    ConnsStay(s, x);
    if d == Owner(x) {
      OwnStepResults(s, x);
      hide ResultsIn, AllWorksStay;
      if r in ResultsIn(s.conns[d]) {
        BackedStays(s, t, past, x, r);
      } else {
        hide StepOf, CanStep;
        NewIsBacked(s, t, past, x, r);
      }
    } else if d < |s.conns| {
      hide ResultsIn, AllWorksStay, StepOf, CanStep;
      BackedStays(s, t, past, x, r);
    } else {
      JoinBringsNone(s, x);
    }
  }

  lemma JoinBringsNone(s: System, x: Step)
    requires CanStep(s, x) && x.Join?
    ensures |StepOf(s, x).conns| == |s.conns| + 1 && ResultsIn(StepOf(s, x).conns[|s.conns|]) == {}
  {
  }

  /** What an accept may commit. */
  ghost predicate CommitsAtMost(l: State, r: State, w: nat, res: WorkerResult) {
    r.commits == l.commits || exists t :: r.commits == l.commits + [Commit(t, w, res)]
  }

  lemma AcceptCommitsAtMost(l: State, w: nat, res: WorkerResult)
    requires Linked(l) && w < |l.workers|
    ensures CommitsAtMost(l, Accept(l, w, res), w, res)
  {
    hide DropFromWork, DropFromWorkers;
    var r := Accept(l, w, res);
    if r.commits != l.commits {
      assert r.commits == l.commits + [Commit(l.leases[res.lease].task, w, res)];
    }
  }

  /** The commit a step may add. */
  lemma StepCommits(s: System, x: Step)
    requires CanStep(s, x)
    ensures x.AcceptNext? ==>
      CommitsAtMost(s.leader, StepOf(s, x).leader, s.conns[x.c].worker, s.conns[x.c].chan.req.results[s.conns[x.c].chan.accepted])
    ensures x.Local? && x.event.EAccept? ==> CommitsAtMost(s.leader, StepOf(s, x).leader, x.event.w, x.event.r)
    ensures !x.AcceptNext? && !(x.Local? && x.event.EAccept?) ==> StepOf(s, x).leader.commits == s.leader.commits
  {
    hide Accept, ExchangeTail, Linked, Batch, TailPicks, Sorted, PkgsKnown, HelperStep, HelperEnabled;
    if x.AcceptNext? {
      AcceptCommitsAtMost(s.leader, s.conns[x.c].worker, s.conns[x.c].chan.req.results[s.conns[x.c].chan.accepted]);
    } else if x.Local? && x.event.EAccept? {
      AcceptCommitsAtMost(s.leader, x.event.w, x.event.r);
    } else if x.Local? {
      LocalCommits(s.leader, x.event);
    } else if x.Tail? {
      ExchangeAppends(s.leader, s.conns[x.c].worker, s.conns[x.c].chan.req, x.now, x.picks);
    }
  }

  /** A commit stays traced while workers keep their roles and works stay. */
  lemma CommitStays(s: System, t: System, past: seq<Step>, x: Step, k: Commit)
    requires CanStep(s, x) && CommitTraced(s, past, k) && AllWorksStay(s, t) && OnlyGains(s.leader, t.leader, Gainer(s, x))
    ensures CommitTraced(t, past + [x], k)
  {
    hide AllWorksStay, Backed;
    if !t.leader.workers[k.worker].leader {
      BackedStays(s, t, past, x, k.result);
    }
  }

  lemma AppendedCommitsTraced(s: System, t: System, past: seq<Step>, x: Step, w: nat, res: WorkerResult)
    requires Traced(s, past) && AllWorksStay(s, t) && CanStep(s, x) && OnlyGains(s.leader, t.leader, Gainer(s, x))
    requires CommitsAtMost(s.leader, t.leader, w, res) && w < |s.leader.workers|
    requires s.leader.workers[w].leader || Backed(s, past, res)
    ensures forall i | 0 <= i < |t.leader.commits| :: CommitTraced(t, past + [x], t.leader.commits[i])
  {
    forall i | 0 <= i < |t.leader.commits|
      ensures CommitTraced(t, past + [x], t.leader.commits[i])
    {
      var k := t.leader.commits[i];
      if i < |s.leader.commits| {
        assert k == s.leader.commits[i];
      } else {
        assert k.worker == w && k.result == res;
      }
      hide AllWorksStay, Backed, OnlyGains, CanStep;
      CommitStays(s, t, past, x, k);
    }
  }

  lemma CommitsTraced(s: System, past: seq<Step>, x: Step)
    requires SystemInv(s) && CanStep(s, x) && Traced(s, past) && AllWorksStay(s, StepOf(s, x))
    ensures forall i | 0 <= i < |StepOf(s, x).leader.commits| :: CommitTraced(StepOf(s, x), past + [x], StepOf(s, x).leader.commits[i])
  {
    var t := StepOf(s, x);
    LeaderStep(s, x);
    StepCommits(s, x);
    assert OnlyGains(s.leader, t.leader, Gainer(s, x));
    hide StepOf, SystemInv, Safe, AllWorksStay, OnlyGains, CommitsAtMost, Backed;
    if x.AcceptNext? {
      var c := s.conns[x.c];
      AcceptedIsTraced(s, past, x.c);
      AppendedCommitsTraced(s, t, past, x, c.worker, c.chan.req.results[c.chan.accepted]);
    } else if x.Local? && x.event.EAccept? {
      AppendedCommitsTraced(s, t, past, x, x.event.w, x.event.r);
    } else {
      forall i | 0 <= i < |t.leader.commits|
        ensures CommitTraced(t, past + [x], t.leader.commits[i])
      {
        CommitStays(s, t, past, x, s.leader.commits[i]);
      }
    }
  }

  lemma AcceptedIsTraced(s: System, past: seq<Step>, c: nat)
    requires SystemInv(s) && Traced(s, past) && CanStep(s, AcceptNext(c))
    ensures s.conns[c].worker < |s.leader.workers| && Backed(s, past, s.conns[c].chan.req.results[s.conns[c].chan.accepted])
  {
    hide Inv, GenuineCommits, Enabled, Backed;
    assert ConnOk(s.leader, s.conns[c]);
    var rs := s.conns[c].chan.req.results;
    assert rs[s.conns[c].chan.accepted] in Elements(rs);
    assert rs[s.conns[c].chan.accepted] in ResultsIn(s.conns[c]);
  }

  lemma StepTraces(s: System, past: seq<Step>, x: Step)
    requires SystemInv(s) && CanStep(s, x) && Traced(s, past)
    ensures Traced(StepOf(s, x), past + [x])
  {
    StepWorksStay(s, x);
    CommitsTraced(s, past, x);
    hide SystemInv, CanStep, StepOf, AllWorksStay, ResultsIn, Backed, CommitTraced;
    forall d, r | 0 <= d < |StepOf(s, x).conns| && r in ResultsIn(StepOf(s, x).conns[d])
      ensures Backed(StepOf(s, x), past + [x], r)
    {
      ResultsTraced(s, past, x, d, r);
    }
  }

  lemma {:induction false} RunTraces(s: System, past: seq<Step>, steps: seq<Step>)
    requires SystemInv(s) && Traced(s, past) && LegalRun(s, steps)
    ensures Traced(RunOf(s, steps), past + steps)
    decreases |steps|
  {
    hide SystemInv, Traced, CanStep, StepOf;
    if steps == [] {
      assert past + steps == past;
    } else {
      StepKeepsSystem(s, steps[0]);
      StepTraces(s, past, steps[0]);
      RunTraces(StepOf(s, steps[0]), past + [steps[0]], steps[1..]);
      assert past + [steps[0]] + steps[1..] == past + steps;
    }
  }

  lemma BootedTrace(failFast: bool, steps: seq<Step>)
    requires LegalRun(Boot(failFast), steps)
    ensures Traced(RunOf(Boot(failFast), steps), steps)
  {
    hide RunOf, LegalRun;
    BootIsTraced(failFast);
    hide SystemInv, Traced, Boot;
    RunTraces(Boot(failFast), [], steps);
    assert [] + steps == steps;
  }

  lemma BootIsTraced(failFast: bool)
    ensures SystemInv(Boot(failFast)) && Traced(Boot(failFast), [])
  {
    InitialInv(failFast);
    hide Inv;
  }

  /**
    In every run, for every commit that a helper's result made and that is no infrastructure error,
    some execution step of the run, on the helper that holds that very lease, had the outcome that
    was committed: whether it passed, whether it was cached, how long it took, its cache checks and
    its error.
   */
  lemma CommitIsWhatRan(failFast: bool, steps: seq<Step>, i: nat)
    requires LegalRun(Boot(failFast), steps)
    requires var l := RunOf(Boot(failFast), steps).leader;
      && i < |l.commits| && !l.commits[i].result.infra
      && l.commits[i].worker < |l.workers| && !l.workers[l.commits[i].worker].leader
    ensures var s := RunOf(Boot(failFast), steps);
      var r := s.leader.commits[i].result;
      exists k :: 0 <= k < |steps| && match steps[k]
        case JobExecuted(c, e, outcome) =>
          && c < |s.conns| && e < |s.conns[c].helper.execs| && s.conns[c].helper.execs[e].work.lease == r.lease
          && r.passed == outcome.passed && r.cached == outcome.cached && r.duration == outcome.duration
          && r.cacheChecks == outcome.cacheChecks && r.error == outcome.error
        case _ => false
  {
    hide RunOf, LegalRun;
    EveryCommitIsGenuine(failFast, steps, i);
    BootedTrace(failFast, steps);
    var s := RunOf(Boot(failFast), steps);
    assert CommitTraced(s, steps, s.leader.commits[i]);
    hide Traced;
    var k :| 0 <= k < |steps| && Backs(s, steps[k], s.leader.commits[i].result);
  }
}
