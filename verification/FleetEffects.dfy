/**
  What each critical section of the leader does, said in terms of leases, workers and commits alone:
  which leases go, which stay, what is committed, what is answered, and what is handed out.
 */
module FleetEffects {
  import opened Common
  import opened Fleet
  import opened FleetSafety

  // ------------------------------------------------------------------------------------------
  // Results
  // ------------------------------------------------------------------------------------------

  /** Exactly the leases of task `t` are revoked; the others stay as they are. */
  ghost predicate RevokesTask(s: State, r: State, t: nat) {
    && (forall id :: id in r.leases <==> id in s.leases && s.leases[id].task != t)
    && (forall id | id in r.leases :: r.leases[id] == s.leases[id])
  }

  /** Exactly the leases of worker `w` are revoked; the others stay as they are. */
  ghost predicate RevokesWorker(s: State, r: State, w: nat) {
    && (forall id :: id in r.leases <==> id in s.leases && s.leases[id].worker != w)
    && (forall id | id in r.leases :: r.leases[id] == s.leases[id])
  }

  /** Nobody's error or connection changes, but for worker `w`. */
  ghost predicate OthersUntouched(s: State, r: State, w: int) {
    && |r.workers| == |s.workers|
    && forall v | 0 <= v < |s.workers| && v != w :: r.workers[v].error == s.workers[v].error && r.workers[v].connected == s.workers[v].connected
  }

  /** Worker `w` and nobody else is credited with the result. */
  ghost predicate Credits(s: State, r: State, w: nat, res: WorkerResult)
    requires w < |s.workers|
  {
    && |r.workers| == |s.workers|
    && (forall v | 0 <= v < |s.workers| && v != w ::
          && r.workers[v].completed == s.workers[v].completed && r.workers[v].duration == s.workers[v].duration
          && r.workers[v].cached == s.workers[v].cached && r.workers[v].failed == s.workers[v].failed)
    && r.workers[w].completed == s.workers[w].completed + 1
    && r.workers[w].duration == s.workers[w].duration + res.duration
    && r.workers[w].cached == s.workers[w].cached + (if res.cached then 1 else 0)
    && r.workers[w].failed == s.workers[w].failed + (if res.passed then 0 else 1)
  }

  /** Package `p` and no other is charged with the result. */
  ghost predicate Charges(s: State, r: State, p: nat, res: WorkerResult)
    requires p < |s.pkgs|
  {
    && |r.pkgs| == |s.pkgs| && (forall q | 0 <= q < |s.pkgs| && q != p :: r.pkgs[q] == s.pkgs[q])
    && r.pkgs[p].hash == s.pkgs[p].hash && r.pkgs[p].runIn == s.pkgs[p].runIn + res.duration
    && r.pkgs[p].numFails == s.pkgs[p].numFails + (if res.passed then 0 else 1)
  }

  /** Task `t` and no other becomes done. */
  ghost predicate Finishes(s: State, r: State, t: nat) {
    |r.work| == |s.work| && forall u | 0 <= u < |s.work| :: r.work[u].done <==> s.work[u].done || u == t
  }

  lemma FinishRevokes(s: State, w: nat, t: nat, r: WorkerResult)
    requires Linked(s) && w < |s.workers| && t < |s.work|
    ensures RevokesTask(s, Finish(s, w, t, r), t)
  {
    var f := Finish(s, w, t, r);
    forall id
      ensures id in f.leases <==> id in s.leases && s.leases[id].task != t
    {
    }
  }

  /**
    A real result of a live lease is committed at once: the very result, for the leased task, by that
    worker. Exactly the leases of that task go, its copies included; no worker loses its standing.
   */
  lemma AcceptCommits(s: State, w: nat, r: WorkerResult)
    requires LeaseInv(s) && w < |s.workers| && r.lease in s.workers[w].leases && !s.stopped && !s.cancelled
    requires !r.infra || s.workers[w].leader
    ensures r.lease in s.leases && s.leases[r.lease].task < |s.work|
    ensures var t, a := s.leases[r.lease].task, Accept(s, w, r);
      && a.commits == s.commits + [Commit(t, w, r)]
      && !s.work[t].done && Finishes(s, a, t) && s.work[t].pkg < |s.pkgs|
      && Credits(s, a, w, r) && Charges(s, a, s.work[t].pkg, r) && a.done == s.done + 1
      && a.cacheHits == s.cacheHits + (if r.cached then 1 else 0)
      && RevokesTask(s, a, t) && OthersUntouched(s, a, -1)
      && a.infra == (if r.infra then s.infra + [r.error] else s.infra)
      && a.cacheChecks == s.cacheChecks + r.cacheChecks
      && (a.cancelled <==> s.failFast && !r.passed)
  {
    var t := s.leases[r.lease].task;
    assert !s.work[t].done && s.work[t].pkg < |s.pkgs|;
    hide Paired, Quiet, RevokesTask, Finish, GiveUp, Credits, Charges, Finishes, OthersUntouched;
    FinishRevokes(s, w, t, r);
    FinishMeans(s, w, t, r);
    assert Accept(s, w, r) == Finish(s, w, t, r);
  }

  lemma FinishMeans(s: State, w: nat, t: nat, r: WorkerResult)
    requires w < |s.workers| && t < |s.work| && s.work[t].pkg < |s.pkgs|
    ensures var a := Finish(s, w, t, r);
      && a.commits == s.commits + [Commit(t, w, r)] && Finishes(s, a, t) && OthersUntouched(s, a, -1)
      && Credits(s, a, w, r) && Charges(s, a, s.work[t].pkg, r) && a.done == s.done + 1 && a.notifies == s.notifies + 1
      && a.cacheHits == s.cacheHits + (if r.cached then 1 else 0)
      && a.infra == (if r.infra then s.infra + [r.error] else s.infra) && a.cacheChecks == s.cacheChecks + r.cacheChecks
      && (a.cancelled <==> s.cancelled || (s.failFast && !r.passed))
  {
  }

  lemma GiveUpRevokes(s: State, w: nat, error: string)
    requires Linked(s) && w < |s.workers|
    ensures RevokesWorker(s, GiveUp(s, w, error), w)
  {
    var f := GiveUp(s, w, error);
    forall id
      ensures id in f.leases <==> id in s.leases && s.leases[id].worker != w
    {
    }
  }

  /** An infrastructure error of a helper commits nothing: it takes the helper out of service, and exactly its leases go. */
  lemma AcceptGivesUp(s: State, w: nat, r: WorkerResult)
    requires LeaseInv(s) && w < |s.workers| && r.lease in s.workers[w].leases && !s.stopped && !s.cancelled
    requires r.infra && !s.workers[w].leader
    ensures var a := Accept(s, w, r);
      && a.commits == s.commits && a.done == s.done && a.infra == s.infra && a.cancelled == s.cancelled
      && OthersUntouched(s, a, w) && RevokesWorker(s, a, w)
      && a.workers[w].error == (if r.error == "" then "helper execution error" else r.error) && a.workers[w].error != ""
      && a.workers[w].connected == s.workers[w].connected
      && |a.work| == |s.work| && forall t | 0 <= t < |s.work| :: a.work[t].done == s.work[t].done
  {
    assert !s.work[s.leases[r.lease].task].done;
    hide Paired, Quiet, RevokesWorker, Finish, GiveUp;
    GiveUpRevokes(s, w, r.error);
    GiveUpMeans(s, w, r.error);
    assert Accept(s, w, r) == GiveUp(s, w, r.error);
  }

  lemma GiveUpMeans(s: State, w: nat, error: string)
    requires w < |s.workers|
    ensures var a := GiveUp(s, w, error);
      && a.commits == s.commits && a.done == s.done && a.infra == s.infra && a.cancelled == s.cancelled && OthersUntouched(s, a, w)
      && a.notifies == s.notifies + 1
      && a.workers[w].error == (if error == "" then "helper execution error" else error) && a.workers[w].error != ""
      && a.workers[w].connected == s.workers[w].connected
      && |a.work| == |s.work| && forall t | 0 <= t < |s.work| :: a.work[t].done == s.work[t].done
  {
  }

  /** A result without a live lease of its worker, or after the end of the run, changes nothing. */
  lemma AcceptIgnores(s: State, w: nat, r: WorkerResult)
    requires Linked(s) && w < |s.workers| && (r.lease !in s.workers[w].leases || s.stopped || s.cancelled)
    ensures Accept(s, w, r) == s
  {
  }

  /** The end of the run revokes every lease of every worker and commits nothing. */
  lemma StopRevokesAll(s: State)
    requires Linked(s) && Enabled(s, EStop)
    ensures var r := Apply(s, EStop);
      && r.stopped && r.leases == map[] && r.commits == s.commits
      && |r.workers| == |s.workers| && forall w | 0 <= w < |r.workers| :: r.workers[w].leases == {}
  {
    var r := Apply(s, EStop);
    assert r.leases == map[];
  }

  /** A local slot's lease is running from the moment it begins; no other lease changes. */
  lemma LocalStarts(s: State, w: nat, now: int, begun: int, t: nat)
    requires Linked(s) && w < |s.workers| && t < |s.work|
    ensures var r := LocalAssign(s, w, now, begun, t);
      && r.nextID == s.nextID + 1 && r.nextID !in s.leases
      && r.leases == s.leases[r.nextID := Lease(t, w, now, Some(begun), Running)]
  {
  }

  /** A broken connection releases exactly the helper's leases and keeps an earlier error unless there is a new one. */
  lemma DisconnectReleases(s: State, w: nat, error: string)
    requires Linked(s) && w < |s.workers|
    ensures var a := Disconnect(s, w, error);
      && RevokesWorker(s, a, w) && OthersUntouched(s, a, w)
      && !a.workers[w].connected && a.workers[w].error == (if error == "" then s.workers[w].error else error)
      && a.commits == s.commits && a.done == s.done
  {
    var f := Disconnect(s, w, error);
    forall id
      ensures id in f.leases <==> id in s.leases && s.leases[id].worker != w
    {
    }
  }

  // ------------------------------------------------------------------------------------------
  // Exchanges
  // ------------------------------------------------------------------------------------------

  /** The heartbeat adds the helper's new binaries to what the leader knows of it, and of nobody else. */
  lemma HeartbeatLearns(s: State, w: nat, req: Request, now: int)
    requires w < |s.workers|
    ensures var b := Heartbeat(s, w, req, now);
      && |b.workers| == |s.workers|
      && (forall h :: h in b.workers[w].binaries <==> h in s.workers[w].binaries || h in req.binaries)
      && (forall v | 0 <= v < |s.workers| && v != w :: b.workers[v] == s.workers[v])
  {
  }

  /** The response cancels exactly the reported leases that are not live, and says when the run is over or the helper failed. */
  lemma TailAnswers(s: State, w: nat, req: Request, now: int, picks: seq<nat>)
    requires w < |s.workers| && PkgsKnown(s) && InQueue(s, picks)
    ensures var res := ExchangeTail(s, w, req, now, picks).1;
      && (forall id :: id in res.cancel <==> id in req.active && id !in s.workers[w].leases)
      && (res.done <==> s.stopped || s.cancelled || (s.ready && s.done == |s.work|))
      && res.error == s.workers[w].error
  {
  }

  lemma {:induction false} BatchStops(s: State, w: nat, limit: int, now: int, picks: seq<nat>)
    requires w < |s.workers| && PkgsKnown(s) && InQueue(s, picks) && Batch(s, w, limit, now, picks)
    ensures Stops(AddLeases(s, w, now, picks), w, limit - |picks|, now)
    decreases |picks|
  {
    hide Stops, Takes;
    if picks != [] {
      BatchStops(AddLease(s, w, picks[0], now), w, limit - 1, now, picks[1..]);
    }
  }

  lemma {:induction false} AddLeasesCount(s: State, w: nat, now: int, picks: seq<nat>)
    requires Linked(s) && w < |s.workers| && InQueue(s, picks)
    ensures var r := AddLeases(s, w, now, picks);
      |r.workers[w].leases| == |s.workers[w].leases| + |picks| && r.workers[w].slots == s.workers[w].slots
    decreases |picks|
  {
    if picks != [] {
      var m := AddLease(s, w, picks[0], now);
      FreshNumber(s, w);
      AddOne(s.workers[w].leases, m.nextID);
      AddKeepsLinked(s, w, now, picks[0]);
      hide Linked;
      AddLeasesCount(m, w, now, picks[1..]);
    }
  }

  /** No task is left that is neither done nor leased. */
  ghost predicate NothingUnleased(s: State) {
    forall t | 0 <= t < |s.work| :: s.work[t].done || s.work[t].leases != {}
  }

  /** Every task that is neither done nor leased has an owner or a taker: a stop means a full batch, full slots or no fresh work. */
  lemma StopMeans(r: State, w: nat, left: int, now: int)
    requires w < |r.workers| && PkgsKnown(r) && Stops(r, w, left, now)
    ensures left <= 0 || |r.workers[w].leases| >= r.workers[w].slots || NothingUnleased(r)
  {
    if left > 0 && Room(r, w) {
      assert NextChoice(r, w, now, None);
      forall t | 0 <= t < |r.work|
        ensures r.work[t].done || r.work[t].leases != {}
      {
        assert !Fresh(r, t);
      }
    }
  }

  /**
    An exchange never leaves a helper idle while there is fresh work: while the run goes on, a helper
    without error gets ten leases, or ends up with at least as many leases as slots, or no task is
    left unleased.
   */
  lemma ExchangeRefills(s: State, w: nat, req: Request, now: int, picks: seq<nat>)
    requires LeaseInv(s) && Enabled(s, EExchange(w, req, now, picks))
    requires s.ready && !s.stopped && !s.cancelled && s.done != |s.work| && s.workers[w].error == ""
    ensures var r := ExchangeTail(s, w, req, now, picks).0;
      |picks| >= 10 || |r.workers[w].leases| >= r.workers[w].slots || NothingUnleased(r)
  {
    var beat, limit := Heartbeat(s, w, req, now), ExchangeLimit(s, w);
    HeartbeatKeepsLeases(s, w, req, now);
    BatchStops(beat, w, limit, now, picks);
    AddLeasesCount(beat, w, now, picks);
    hide LeaseInv, SameShape, Stops, Batch, AddLeases, NothingUnleased;
    StopMeans(AddLeases(beat, w, now, picks), w, limit - |picks|, now);
    assert beat.workers[w].leases == s.workers[w].leases && beat.workers[w].slots == s.workers[w].slots;
  }

  /** While the queue is not open, or when the run is over or the helper failed, an exchange hands out nothing. */
  lemma ExchangeHoldsBack(s: State, w: nat, req: Request, now: int, picks: seq<nat>)
    requires Enabled(s, EExchange(w, req, now, picks))
    requires !s.ready || s.stopped || s.cancelled || s.done == |s.work| || s.workers[w].error != ""
    ensures picks == [] && ExchangeTail(s, w, req, now, picks).1.work == []
  {
    hide Batch;
  }

  // ------------------------------------------------------------------------------------------
  // Choices
  // ------------------------------------------------------------------------------------------

  /** A task that nobody has done or leased. */
  predicate Unleased(s: State, t: int) {
    0 <= t < |s.work| && !s.work[t].done && s.work[t].leases == {}
  }

  lemma {:induction false} FreshBeforeCounts(s: State, i: nat)
    ensures FreshBefore(s, i) == |set k | 0 <= k < i && Unleased(s, k)|
  {
    var all := set k | 0 <= k < i && Unleased(s, k);
    if i > 0 {
      FreshBeforeCounts(s, i - 1);
      var most := set k | 0 <= k < i - 1 && Unleased(s, k);
      assert all == most + (if Unleased(s, i - 1) then {i - 1} else {});
    } else {
      assert all == {};
    }
  }

  /**
    Binary affinity is honoured: if one of the first five unleased tasks is within a fifth of every
    unleased estimate and the worker has its binary, the chosen task is one whose binary the worker
    has, no further down the queue.
   */
  lemma AffinityIsHonoured(s: State, w: nat, now: int, t: nat, j: nat)
    requires w < |s.workers| && PkgsKnown(s) && NextChoice(s, w, now, Some(t))
    requires Unleased(s, j) && |set k | 0 <= k < j && Unleased(s, k)| < 5
    requires s.pkgs[s.work[j].pkg].hash in s.workers[w].binaries
    requires forall i | Unleased(s, i) :: s.work[j].estimate >= s.work[i].estimate - s.work[i].estimate / 5
    ensures t <= j && t < |s.work| && s.pkgs[s.work[t].pkg].hash in s.workers[w].binaries
  {
    FreshBeforeCounts(s, j);
    assert Fresh(s, j);
    var f: nat :| FreshChoice(s, w, f, t);
    assert Unleased(s, f);
    assert Warm(s, w, j, s.work[f].estimate);
  }

  /** When nothing is unleased, an overdue task of another worker is copied: more than ten seconds and three estimates old. */
  lemma OverdueIsCopied(s: State, w: nat, now: int, choice: Option<nat>, t: nat, id: nat)
    requires w < |s.workers| && PkgsKnown(s) && NextChoice(s, w, now, choice) && NothingUnleased(s)
    requires t < |s.work| && !s.work[t].done && s.work[t].leases == {id} && id in s.leases && s.leases[id].worker != w
    requires now - s.leases[id].issued > 10_000_000_000 && now - s.leases[id].issued > 3 * s.work[t].estimate
    ensures choice.Some? && choice.value <= t
  {
    assert !AnyFresh(s);
    assert Speculative(s, w, now, t);
  }

  /** In every run two live leases of a task were issued more than ten seconds and three estimates apart, to different workers. */
  lemma CopiesAreFarApart(failFast: bool, events: seq<Event>, t: nat, a: nat, b: nat)
    requires Legal(Initial(failFast), events) && t < |Run(Initial(failFast), events).work| && a != b
    requires var ids := Run(Initial(failFast), events).work[t].leases; a in ids && b in ids
    ensures var s := Run(Initial(failFast), events);
      && a in s.leases && b in s.leases && s.leases[a].worker != s.leases[b].worker
      && var gap := if s.leases[a].issued < s.leases[b].issued then s.leases[b].issued - s.leases[a].issued else s.leases[a].issued - s.leases[b].issued;
         gap > 10_000_000_000 && gap > 3 * s.work[t].estimate
  {
    EveryRunIsSound(failFast, events);
    assert PairedIn(Run(Initial(failFast), events), t);
  }

  // ------------------------------------------------------------------------------------------
  // The beginning and the end
  // ------------------------------------------------------------------------------------------

  /** A run begins with nothing: the queue is not open, nobody has joined, nothing was leased, committed or signalled. */
  lemma BeginsEmpty(failFast: bool)
    ensures var s := Initial(failFast);
      && s.workers == [] && s.work == [] && s.pkgs == [] && s.leases == map[] && s.nextID == 0 && s.commits == [] && s.infra == []
      && !s.ready && !s.stopped && !s.cancelled && s.failFast == failFast && !s.wake && s.notifies == 0 && s.loop == Checking
  {
  }

  /** A commit, a helper that gives up and a disconnection each owe one notify; an ignored result owes none. */
  lemma OwesNotify(s: State, w: nat, r: WorkerResult, error: string)
    requires LeaseInv(s) && w < |s.workers|
    ensures Disconnect(s, w, error).notifies == s.notifies + 1
    ensures Accept(s, w, r).notifies == s.notifies + (if r.lease in s.workers[w].leases && !s.stopped && !s.cancelled then 1 else 0)
  {
    AcceptOwes(s, w, r);
    hide Accept, DropFromWorkers, DropFromWork, Linked;
  }

  lemma AcceptOwes(s: State, w: nat, r: WorkerResult)
    requires LeaseInv(s) && w < |s.workers|
    ensures Accept(s, w, r).notifies == s.notifies + (if r.lease in s.workers[w].leases && !s.stopped && !s.cancelled then 1 else 0)
  {
    if r.lease in s.workers[w].leases {
      var t := s.leases[r.lease].task;
      assert !s.work[t].done && s.work[t].pkg < |s.pkgs|;
      hide Paired, Quiet, Finish, GiveUp, Credits, Charges, Finishes, OthersUntouched;
      FinishMeans(s, w, t, r);
      GiveUpMeans(s, w, r.error);
    }
  }

  /** A notify pays what is owed once and leaves the token. */
  lemma NotifyPays(s: State)
    requires Enabled(s, ENotify)
    ensures Apply(s, ENotify) == s.(notifies := s.notifies - 1, wake := true)
  {
  }

  /** Waking by the token takes it; waking by the context leaves it. */
  lemma WakingTakes(s: State, token: bool)
    requires Enabled(s, ELoopWake(token))
    ensures var r := Apply(s, ELoopWake(token)); r.loop == Checking && (r.wake <==> s.wake && !token)
  {
  }

  /** The loop ends exactly when every task is done or the context is, and otherwise waits. */
  lemma LoopEnds(s: State)
    requires Enabled(s, ELoopCheck)
    ensures var r := Apply(s, ELoopCheck);
      (r.loop == Exited <==> s.done == |s.work| || s.cancelled) && (r.loop == Exited || r.loop == Waiting)
  {
  }

  /** Shutting down stops the run for good, and cancelling cancels it. */
  lemma EndsAreEnds(s: State)
    ensures Enabled(s, EShutdown) && Apply(s, EShutdown).stopped
    ensures Enabled(s, ECancel) && Apply(s, ECancel).cancelled
  {
  }

  /** A new worker comes last, with its slots, connected, without error, leases or counts. */
  lemma NewWorkerIsFresh(s: State, slots: nat, leader: bool)
    ensures var r := AddWorker(s, slots, leader);
      && |r.workers| == |s.workers| + 1 && r.workers[..|s.workers|] == s.workers
      && var k := r.workers[|s.workers|];
         && k.leader == leader && k.slots == slots && k.connected && k.error == "" && k.leases == {} && k.binaries == {}
         && k.completed == 0 && k.failed == 0 && k.cached == 0 && k.duration == 0
  {
  }

  /** Once the queue is open, the leader's own worker is known to have the binary of every task. */
  lemma LeaderHasEveryBinary(s: State, work: seq<Task>, pkgs: seq<Package>, w: nat, t: nat)
    requires Enabled(s, EStart(work, pkgs, w)) && t < |work|
    ensures var r := Apply(s, EStart(work, pkgs, w));
      r.ready && r.work == work && w < |r.workers| && r.pkgs[r.work[t].pkg].hash in r.workers[w].binaries
  {
    hide Sorted;
  }

  lemma {:induction false} FailuresCount(commits: seq<Commit>)
    ensures Sum(commits, Failure) == |set i | 0 <= i < |commits| && !commits[i].result.passed|
  {
    var all := set i | 0 <= i < |commits| && !commits[i].result.passed;
    if commits == [] {
      assert all == {};
    } else {
      var n, last := |commits| - 1, commits[|commits| - 1];
      var most := commits[..n];
      FailuresCount(most);
      assert commits == most + [last];
      SumAppend(most, [last], Failure);
      assert [last][1..] == [];
      assert all == (set i | 0 <= i < |most| && !most[i].result.passed) + (if last.result.passed then {} else {n});
    }
  }

  ghost predicate SomeInfra(s: State) {
    exists i :: 0 <= i < |s.commits| && s.commits[i].result.infra
  }

  /**
    The verdict of every finished run, in the order it is looked for: an infrastructure error if some
    commit is one; else the number of commits that failed, if any did; else the interruption, if
    there was one.
   */
  lemma VerdictSays(failFast: bool, events: seq<Event>)
    requires Legal(Initial(failFast), events)
    ensures var s := Run(Initial(failFast), events);
      var failed := |set i | 0 <= i < |s.commits| && !s.commits[i].result.passed|;
      match RunVerdict(s)
      case InfraFailure => SomeInfra(s)
      case TestsFailed(n) => !SomeInfra(s) && failed > 0 && n == failed
      case Interrupted => !SomeInfra(s) && failed == 0 && s.cancelled
      case Passed => !SomeInfra(s) && failed == 0 && !s.cancelled
  {
    InitialInv(failFast);
    RunKeepsInv(Initial(failFast), events);
    hide Run, LeaseInv, LoadInv;
    var s := Run(Initial(failFast), events);
    FailuresCount(s.commits);
    SumZero(s.commits, InfraError);
    assert SomeInfra(s) <==> Sum(s.commits, InfraError) != 0;
  }
}
