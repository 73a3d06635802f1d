/** No lease leaks and no result is forged, in every interleaving of leader, helpers and jobs. */
module SystemSafety {
  import opened Common
  import opened Fleet
  import opened FleetSafety
  import opened Helpers
  import opened HelperSafety
  import opened Systems

  // ------------------------------------------------------------------------------------------
  // What a step of the leader means for a helper that takes no part in it
  // ------------------------------------------------------------------------------------------

  /** The tests and binaries of an open queue never change. */
  ghost predicate SameTests(l: State, r: State) {
    l.ready ==>
      && r.ready && |r.work| == |l.work| && |r.pkgs| == |l.pkgs|
      && (forall t | 0 <= t < |l.work| :: r.work[t].pkg == l.work[t].pkg && r.work[t].test == l.work[t].test)
      && (forall p | 0 <= p < |l.pkgs| :: r.pkgs[p].hash == l.pkgs[p].hash)
  }

  /** Only worker `w` may gain leases. */
  ghost predicate OnlyGains(l: State, r: State, w: int) {
    && |l.workers| <= |r.workers|
    && (forall v | 0 <= v < |l.workers| :: r.workers[v].leader == l.workers[v].leader)
    && (forall v | 0 <= v < |l.workers| && v != w :: r.workers[v].leases <= l.workers[v].leases)
    && (l.stopped ==> r.stopped) && (l.cancelled ==> r.cancelled)
  }

  ghost predicate Moves(l: State, r: State, w: int) {
    Follows(l, r) && SameTests(l, r) && OnlyGains(l, r, w)
  }

  lemma SameHashes(l: State, r: State)
    requires SameTests(l, r) && l.ready
    ensures forall p: nat :: HashOf(r)(p) == HashOf(l)(p)
  {
  }

  lemma FaithfulFrame(h: Helper, f: nat -> string, g: nat -> string)
    requires Faithful(h, f) && forall p: nat :: f(p) == g(p)
    ensures Faithful(h, g)
  {
  }

  lemma HelperFrame(l: State, r: State, h: Helper)
    requires HelperOk(l, h) && SameTests(l, r)
    ensures HelperOk(r, h)
  {
    if l.ready {
      SameHashes(l, r);
      FaithfulFrame(h, HashOf(l), HashOf(r));
    }
  }

  lemma MatchesFrame(l: State, r: State, w: nat, k: Work)
    requires Matches(l, w, k) && Follows(l, r) && SameTests(l, r) && l.ready
    ensures Matches(r, w, k)
  {
  }

  lemma ExecsMatchFrame(l: State, r: State, w: nat, h: Helper)
    requires ExecsMatch(l, w, h) && Follows(l, r) && SameTests(l, r) && (!l.ready ==> h.execs == [])
    ensures ExecsMatch(r, w, h)
  {
    forall e | 0 <= e < |h.execs|
      ensures Matches(r, w, h.execs[e].work)
    {
      MatchesFrame(l, r, w, h.execs[e].work);
    }
  }

  lemma ChannelFrame(l: State, r: State, c: Conn)
    requires ChannelOk(l, c) && Follows(l, r) && SameTests(l, r) && c.worker < |l.workers| && c.worker < |r.workers|
    requires r.workers[c.worker].leases <= l.workers[c.worker].leases && (!l.ready ==> l.nextID == 0)
    ensures ChannelOk(r, c)
  {
    if c.chan.Answered? {
      var ks := c.chan.res.work;
      forall i | 0 <= i < |ks|
        ensures l.ready && Matches(r, c.worker, ks[i]) && ks[i].binary == HashOf(r)(ks[i].pkg)
      {
        assert Matches(l, c.worker, ks[i]);
        MatchesFrame(l, r, c.worker, ks[i]);
      }
    }
  }

  lemma ConnFrame(l: State, r: State, w: int, c: Conn)
    requires ConnOk(l, c) && Moves(l, r, w) && c.worker != w && (!l.ready ==> l.nextID == 0)
    ensures ConnOk(r, c)
  {
    HelperFrame(l, r, c.helper);
    ExecsMatchFrame(l, r, c.worker, c.helper);
    ChannelFrame(l, r, c);
  }

  // ------------------------------------------------------------------------------------------
  // The leader's steps
  // ------------------------------------------------------------------------------------------

  lemma AcceptMoves(l: State, w: nat, r: WorkerResult)
    requires Linked(l) && w < |l.workers|
    ensures Moves(l, Accept(l, w, r), -1)
  {
    AcceptFollows(l, w, r);
    if !Ignored(l, w, r) {
      var t := l.leases[r.lease].task;
      hide Linked;
      GiveUpMoves(l, w, r.error);
      FinishMoves(l, w, t, r);
    }
  }

  lemma GiveUpMoves(l: State, w: nat, error: string)
    requires w < |l.workers|
    ensures SameTests(l, GiveUp(l, w, error)) && OnlyGains(l, GiveUp(l, w, error), -1)
  {
  }

  lemma FinishMoves(l: State, w: nat, t: nat, r: WorkerResult)
    requires w < |l.workers| && t < |l.work| && l.work[t].pkg < |l.pkgs|
    ensures SameTests(l, Finish(l, w, t, r)) && OnlyGains(l, Finish(l, w, t, r), -1)
  {
  }

  lemma DisconnectMoves(l: State, w: nat, error: string)
    requires Linked(l) && w < |l.workers|
    ensures Moves(l, Disconnect(l, w, error), -1)
  {
  }

  lemma {:induction false} AddLeasesGain(l: State, w: nat, now: int, picks: seq<nat>)
    requires w < |l.workers| && InQueue(l, picks)
    ensures OnlyGains(l, AddLeases(l, w, now, picks), w)
    decreases |picks|
  {
    if picks != [] {
      AddLeasesGain(AddLease(l, w, picks[0], now), w, now, picks[1..]);
    }
  }

  lemma UntouchedSameTests(l: State, r: State)
    requires Untouched(l, r)
    ensures SameTests(l, r)
  {
  }

  lemma TailMoves(l: State, w: nat, req: Request, now: int, picks: seq<nat>)
    requires LeaseInv(l) && w < |l.workers| && InQueue(l, picks)
    ensures Moves(l, ExchangeTail(l, w, req, now, picks).0, w)
  {
    var beat := Heartbeat(l, w, req, now);
    ExchangeFollows(l, w, req, now, picks);
    AddLeasesGain(beat, w, now, picks);
    AddLeasesUntouched(beat, w, now, picks);
    UntouchedSameTests(l, AddLeases(beat, w, now, picks));
  }

  lemma LocalAssignMoves(l: State, w: nat, now: int, begun: int, t: nat)
    requires w < |l.workers| && t < |l.work|
    ensures var r := LocalAssign(l, w, now, begun, t); SameTests(l, r) && OnlyGains(l, r, w)
  {
  }

  lemma StopMoves(l: State)
    ensures var r := RemoveLeases(l.(stopped := true), l.leases.Keys); SameTests(l, r) && OnlyGains(l, r, -1)
  {
  }

  lemma StartMoves(l: State, work: seq<Task>, pkgs: seq<Package>, w: nat)
    requires Enabled(l, EStart(work, pkgs, w))
    ensures var r := Apply(l, EStart(work, pkgs, w)); SameTests(l, r) && OnlyGains(l, r, -1)
  {
    hide Sorted;
  }

  lemma FlagMoves(l: State, r: State)
    requires OnlyFlags(l, r) && (l.stopped ==> r.stopped) && (l.cancelled ==> r.cancelled)
    ensures SameTests(l, r) && OnlyGains(l, r, -1)
  {
  }

  lemma AddWorkerMoves(l: State, slots: nat, leader: bool)
    ensures var r := AddWorker(l, slots, leader); SameTests(l, r) && OnlyGains(l, r, -1)
  {
  }

  lemma LocalMoves(l: State, e: Event)
    requires Inv(l) && IsLocal(l, e) && Enabled(l, e)
    ensures Moves(l, Apply(l, e), if e.ELocalAssign? then e.w else -1)
  {
    StepFollows(l, e);
    hide Follows, SameTests, OnlyGains, Paired, Quiet, LoadInv, Books, Batch, TailPicks, Sorted;
    if e.EAccept? {
      AcceptMoves(l, e.w, e.r);
    } else if e.ELocalAssign? {
      LocalAssignMoves(l, e.w, e.now, e.begun, e.t);
    } else if e.EStop? {
      StopMoves(l);
    } else if e.EStart? {
      StartMoves(l, e.work, e.pkgs, e.w);
    } else if e.EAddWorker? {
      AddWorkerMoves(l, e.slots, e.leader);
    } else if IsFlag(e) {
      FlagMoves(l, Apply(l, e));
    }
  }

  lemma EventSameTests(l: State, e: Event)
    requires Inv(l) && Enabled(l, e)
    ensures SameTests(l, Apply(l, e))
  {
    match e {
      case EAccept(w, r) => AcceptMoves(l, w, r);
      case EExchange(w, req, now, picks) => TailMoves(l, w, req, now, picks);
      case EDisconnect(w, error) => DisconnectMoves(l, w, error);
      case EAddWorker(slots, leader) => AddWorkerMoves(l, slots, leader);
      case _ => LocalMoves(l, e);
    }
  }

  lemma {:induction false} RunSameTests(s: State, events: seq<Event>)
    requires Inv(s) && Legal(s, events) && s.ready
    ensures SameTests(s, Run(s, events))
    decreases |events|
  {
    if events != [] {
      StepKeepsInv(s, events[0]);
      EventSameTests(s, events[0]);
      RunSameTests(Apply(s, events[0]), events[1..]);
    }
  }

  /** A finished test stays finished and stays in its package, whatever happens later. */
  lemma DoneIsForever(s: State, events: seq<Event>, t: nat)
    requires Inv(s) && Legal(s, events) && s.ready && t < |s.work| && s.work[t].done
    ensures var r := Run(s, events); |r.work| == |s.work| && r.work[t].done && r.work[t].pkg == s.work[t].pkg
  {
    var r := Run(s, events);
    RunSameTests(s, events);
    RunKeepsInv(s, events);
    CommitsAreFinal(s, events);
    var i :| 0 <= i < |s.commits| && s.commits[i].task == t;
    assert r.commits[i] == s.commits[i];
  }

  // ------------------------------------------------------------------------------------------
  // The helper's own turns
  // ------------------------------------------------------------------------------------------

  /** A turn keeps the works and loses no lease: an active lease stays active or its result is pending. */
  ghost predicate Keeps(h: Helper, g: Helper) {
    && |g.execs| == |h.execs| && (forall e | 0 <= e < |h.execs| :: g.execs[e].work == h.execs[e].work)
    && (forall id | id in h.active :: id in g.active || InResults(g.pending, id))
    && (forall id | InResults(h.pending, id) :: InResults(g.pending, id))
    && (h.over ==> g.over)
  }

  lemma ReapedKeepsLeases(h: Helper, e: nat)
    requires e in h.jobs && h.jobs[e].Ended? && h.running > 0
    ensures Keeps(h, Reaped(h, e))
  {
    var m, r := Reaped(h, e), h.jobs[e].result;
    assert forall i | 0 <= i < |h.pending| :: m.pending[i] == h.pending[i];
    if r.lease in h.active {
      assert m.pending[|h.pending|] == r;
    }
  }

  lemma StartedKeepsLeases(h: Helper, m: Helper, g: Helper)
    requires Keeps(h, m) && Started(m, g)
    ensures Keeps(h, g)
  {
  }

  lemma ReapKeepsLeases(h: Helper, e: nat)
    requires e in h.jobs && h.jobs[e].Ended? && h.running > 0 && Slotted(Reaped(h, e))
    ensures Keeps(h, Reap(h, e))
  {
    var m := Reaped(h, e);
    ReapedKeepsLeases(h, e);
    StartKeeps(m);
    assert Reap(h, e) == Start(m);
    hide Slotted, Started, Keeps, Start;
    StartedKeepsLeases(h, m, Start(m));
  }

  lemma ReapStep(l: State, h: Helper, e: nat)
    requires HelperOk(l, h) && e in h.jobs && h.jobs[e].Ended?
    ensures h.running > 0 && HelperOk(l, Reap(h, e)) && Keeps(h, Reap(h, e))
  {
    ReapKeeps(h, e, HashOf(l));
    ReapCounts(h, e);
    assert JobFaithful(h.execs[e], h.jobs[e]);
    ReapPlaces(h, e);
    hide Counted, Lined, Placed, Faithful, AllReportable, Saturated;
    ReapKeepsLeases(h, e);
  }

  /** A step of a job or a ready message changes neither what is active nor what is pending. */
  lemma QuietStep(h: Helper, g: Helper)
    requires |g.execs| == |h.execs| && (forall e | 0 <= e < |h.execs| :: g.execs[e].work == h.execs[e].work)
    requires g.active == h.active && g.pending == h.pending && g.over == h.over && AllReportable(h, h.pending)
    ensures Keeps(h, g) && AllReportable(g, g.pending)
  {
    ReportableFrame(h, g, h.pending);
  }

  lemma FlagStep(l: State, h: Helper, g: Helper)
    requires HelperOk(l, h) && g == h.(dirty := g.dirty, over := g.over) && (h.over ==> g.over)
    ensures HelperOk(l, g) && Keeps(h, g)
  {
    ReportableFrame(h, g, h.pending);
  }

  lemma ReadyStep(l: State, h: Helper)
    requires HelperOk(l, h) && h.readies != []
    ensures HelperOk(l, OnReady(h)) && Keeps(h, OnReady(h))
  {
    hide Slotted, Saturated, Faithful, AllReportable, Keeps;
    OnReadyKeeps(h, HashOf(l));
    OnReadyChanges(h);
    hide OnReady;
    QuietStep(h, OnReady(h));
  }

  lemma PreparedStep(l: State, h: Helper, e: nat, built: Option<string>)
    requires HelperOk(l, h) && e in h.jobs && e < |h.execs|
    ensures HelperOk(l, Prepare(h, e, built)) && Keeps(h, Prepare(h, e, built))
  {
    hide Slotted, Saturated, Faithful, AllReportable, Keeps;
    PrepareKeeps(h, e, built, HashOf(l));
    BinaryIsOf(l, h, e, built);
    QuietStep(h, Prepare(h, e, built));
  }

  /** Nothing was leased before the queue opened, so nothing was built. */
  lemma BinaryIsOf(l: State, h: Helper, e: nat, built: Option<string>)
    requires HelperOk(l, h) && e < |h.execs|
    ensures l.ready
  {
  }

  lemma ExecutedStep(l: State, h: Helper, e: nat, outcome: WorkerResult)
    requires HelperOk(l, h) && e in h.jobs && e < |h.execs| && h.jobs[e].Prepared?
    ensures HelperOk(l, Execute(h, e, outcome)) && Keeps(h, Execute(h, e, outcome))
  {
    hide Slotted, Saturated, Faithful, AllReportable, Keeps;
    ExecuteKeeps(h, e, outcome, HashOf(l));
    QuietStep(h, Execute(h, e, outcome));
  }

  lemma HelperStepKeeps(l: State, h: Helper, x: Step)
    requires HelperOk(l, h) && HelperEnabled(h, x)
    ensures HelperOk(l, HelperStep(h, x)) && Keeps(h, HelperStep(h, x))
  {
    hide HelperOk, Keeps, OnReady, Prepare, Execute, Reap;
    if x.TakeReady? {
      ReadyStep(l, h);
    } else if x.JobPrepared? {
      PreparedStep(l, h, x.e, x.built);
    } else if x.JobExecuted? {
      ExecutedStep(l, h, x.e, x.outcome);
    } else if x.JobReaped? {
      ReapStep(l, h, x.e);
    } else if x.Quit? || x.Tick? {
      FlagStep(l, h, HelperStep(h, x));
    }
  }

  lemma SomewhereStill(c: Conn, g: Helper, id: nat)
    requires Somewhere(c, id) && Keeps(c.helper, g)
    ensures Somewhere(c.(helper := g), id)
  {
  }

  lemma HelperTurn(l: State, c: Conn, g: Helper)
    requires ConnOk(l, c) && HelperOk(l, g) && Keeps(c.helper, g)
    ensures ConnOk(l, c.(helper := g))
  {
    var d := c.(helper := g);
    forall e | 0 <= e < |g.execs|
      ensures Matches(l, c.worker, g.execs[e].work)
    {
      assert Matches(l, c.worker, c.helper.execs[e].work);
    }
    if c.chan.Asked? {
      ReportableFrame(c.helper, g, c.chan.req.results);
    } else if c.chan.Answered? {
      AcceptableFrame(c.helper, g, c.chan.res.work, HashOf(l));
    }
    forall id | NoLeakApplies(l, c) && !g.over && id in l.workers[c.worker].leases
      ensures Somewhere(d, id)
    {
      SomewhereStill(c, g, id);
    }
  }

  lemma SendReports(l: State, w: nat, h: Helper)
    requires Placed(h) && ExecsMatch(l, w, h)
    ensures forall id | id in ActiveReport(h) :: id <= l.nextID
  {
    forall id | id in h.active
      ensures id <= l.nextID
    {
      assert Matches(l, w, h.execs[h.active[id]].work);
    }
  }

  lemma SentHelper(l: State, w: nat, h: Helper)
    requires HelperOk(l, h) && ExecsMatch(l, w, h)
    ensures var g := SendRequest(h).0; HelperOk(l, g) && ExecsMatch(l, w, g) && AllReportable(g, h.pending)
  {
    var g := SendRequest(h).0;
    SendKeeps(h, g, HashOf(l));
    hide Slotted, Saturated, Faithful, Matches;
    ReportableFrame(h, g, h.pending);
  }

  /** What is sent is not part of the loop's discipline. */
  lemma SendKeeps(h: Helper, g: Helper, hash: nat -> string)
    requires Slotted(h) && Saturated(h) && Faithful(h, hash) && g == SendRequest(h).0
    ensures Slotted(g) && Saturated(g) && Faithful(g, hash)
  {
  }

  lemma SendTurn(l: State, c: Conn)
    requires ConnOk(l, c) && c.chan == Free
    ensures var (h, req) := SendRequest(c.helper); ConnOk(l, c.(helper := h, chan := Asked(req, 0)))
  {
    var (h, req) := SendRequest(c.helper);
    var d := c.(helper := h, chan := Asked(req, 0));
    assert req.results[0..] == c.helper.pending;
    SendReports(l, c.worker, c.helper);
    SentHelper(l, c.worker, c.helper);
    hide HelperOk, ExecsMatch, AllReportable;
    forall id | NoLeakApplies(l, c) && id in l.workers[c.worker].leases
      ensures Somewhere(d, id)
    {
      assert Somewhere(c, id);
    }
  }

  // ------------------------------------------------------------------------------------------
  // Exchanges
  // ------------------------------------------------------------------------------------------

  /** Accepting the next result of a request ends its lease, so the shorter remainder still covers the rest. */
  lemma AcceptTurn(l: State, c: Conn)
    requires Inv(l) && ConnOk(l, c) && c.chan.Asked? && c.chan.accepted < |c.chan.req.results| && (!l.ready ==> l.nextID == 0)
    ensures var k := c.chan.accepted;
      ConnOk(Accept(l, c.worker, c.chan.req.results[k]), c.(chan := Asked(c.chan.req, k + 1)))
  {
    hide LoadInv, Books, Paired, Quiet, Somewhere, HelperOk, ExecsMatch, AllReportable;
    var rs, k := c.chan.req.results, c.chan.accepted;
    var r, d := Accept(l, c.worker, rs[k]), c.(chan := Asked(c.chan.req, k + 1));
    AcceptMoves(l, c.worker, rs[k]);
    AcceptKeepsLeases(l, c.worker, rs[k]);
    hide Inv, LeaseInv, Linked, Accept;
    ConnFrame(l, r, -1, c);
    hide Moves;
    forall id | NoLeakApplies(r, d) && id in r.workers[c.worker].leases
      ensures Somewhere(d, id)
    {
      AcceptLeaves(l, c, id);
    }
    Rechannel(r, c, d.chan);
  }

  /** Changing what a channel carries keeps a connection sound if the leases are still covered. */
  lemma Rechannel(l: State, c: Conn, chan: Channel)
    requires ConnOk(l, c) && ChannelOk(l, c.(chan := chan)) && (chan == Closed ==> l.workers[c.worker].leases == {})
    requires NoLeakApplies(l, c.(chan := chan)) ==> forall id | id in l.workers[c.worker].leases :: Somewhere(c.(chan := chan), id)
    ensures ConnOk(l, c.(chan := chan))
  {
  }

  lemma AcceptLeaves(l: State, c: Conn, id: nat)
    requires Inv(l) && NoLeak(l, c) && c.worker < |l.workers| && c.chan.Asked? && c.chan.accepted < |c.chan.req.results|
    requires var r := Accept(l, c.worker, c.chan.req.results[c.chan.accepted]);
      Moves(l, r, -1) && NoLeakApplies(r, c) && id in r.workers[c.worker].leases && LeaseInv(r)
    ensures Somewhere(c.(chan := Asked(c.chan.req, c.chan.accepted + 1)), id)
  {
    var rs, k := c.chan.req.results, c.chan.accepted;
    assert id in l.workers[c.worker].leases;
    assert Somewhere(c, id);
    if rs[k].lease == id {
      AcceptEndsLease(l, c.worker, rs[k]);
    }
    assert rs[k + 1..] == rs[k..][1..];
    if InResults(rs[k..], id) && rs[k].lease != id {
      var i :| 0 <= i < |rs[k..]| && rs[k..][i].lease == id;
      assert rs[k + 1..][i - 1].lease == id;
    }
  }

  /** A batch of work items, numbered on from the leader's last lease. */
  ghost predicate Numbered(l: State, ks: seq<Work>) {
    forall i | 0 <= i < |ks| :: ks[i].lease == l.nextID + 1 + i && ks[i].binary == HashOf(l)(ks[i].pkg)
  }

  lemma {:induction false} WorksNumbered(l: State, w: nat, now: int, picks: seq<nat>)
    requires w < |l.workers| && PkgsKnown(l) && InQueue(l, picks)
    ensures Numbered(l, Works(l, w, now, picks)) && |Works(l, w, now, picks)| == |picks|
    ensures AddLeases(l, w, now, picks).nextID == l.nextID + |picks|
    decreases |picks|
  {
    if picks != [] {
      var m, rest := AddLease(l, w, picks[0], now), picks[1..];
      WorksNumbered(m, w, now, rest);
      var ks := Works(m, w, now, rest);
      assert Works(l, w, now, picks) == [WorkOf(l, picks[0])] + ks;
      assert forall p: nat :: HashOf(m)(p) == HashOf(l)(p);
    }
  }

  /** Leases issued earlier stay as they are. */
  lemma {:induction false} AddLeasesKeep(l: State, w: nat, now: int, picks: seq<nat>)
    requires w < |l.workers| && InQueue(l, picks) && forall id | id in l.leases :: id <= l.nextID
    ensures forall id | id in l.leases :: id in AddLeases(l, w, now, picks).leases && AddLeases(l, w, now, picks).leases[id] == l.leases[id]
    decreases |picks|
  {
    if picks != [] {
      AddLeasesKeep(AddLease(l, w, picks[0], now), w, now, picks[1..]);
    }
  }

  lemma SameTestsMatch(l: State, r: State, w: nat, k: Work)
    requires Matches(l, w, k) && k.lease in l.leases && k.lease in r.leases && r.leases[k.lease] == l.leases[k.lease]
    requires l.nextID <= r.nextID && r.pkgs == l.pkgs && |r.work| == |l.work|
    requires forall t | 0 <= t < |l.work| :: r.work[t].pkg == l.work[t].pkg && r.work[t].test == l.work[t].test
    ensures Matches(r, w, k)
  {
    assert HashOf(r)(k.pkg) == HashOf(l)(k.pkg);
  }

  /** Each new work item names the task just leased under its number. */
  lemma {:induction false} WorksMatch(l: State, w: nat, now: int, picks: seq<nat>)
    requires Linked(l) && w < |l.workers| && InQueue(l, picks)
    ensures AllMatch(AddLeases(l, w, now, picks), w, Works(l, w, now, picks))
    decreases |picks|
  {
    if picks != [] {
      var m, rest, k := AddLease(l, w, picks[0], now), picks[1..], WorkOf(l, picks[0]);
      AddKeepsLinked(l, w, now, picks[0]);
      WorksMatch(m, w, now, rest);
      FirstWorkMatches(l, w, now, picks);
      hide Linked, Matches, AddLease;
      assert Works(l, w, now, picks) == [k] + Works(m, w, now, rest);
    }
  }

  lemma FirstWorkMatches(l: State, w: nat, now: int, picks: seq<nat>)
    requires Linked(l) && w < |l.workers| && InQueue(l, picks) && picks != []
    ensures Matches(AddLeases(l, w, now, picks), w, WorkOf(l, picks[0]))
  {
    NumbersBounded(l);
    hide Linked, Matches, WorkOf, Works;
    var m, rest, k := AddLease(l, w, picks[0], now), picks[1..], WorkOf(l, picks[0]);
    AddKeepsLinked(l, w, now, picks[0]);
    IssuedMatches(l, w, now, picks[0]);
    NumbersBounded(m);
    AddLeasesKeep(m, w, now, rest);
    WorksNumbered(m, w, now, rest);
    AddLeasesUntouched(m, w, now, rest);
    SameTestsMatch(m, AddLeases(m, w, now, rest), w, k);
  }

  lemma NumbersBounded(l: State)
    requires Linked(l)
    ensures PkgsKnown(l) && forall id | id in l.leases :: id <= l.nextID
  {
  }

  lemma IssuedMatches(l: State, w: nat, now: int, t: nat)
    requires w < |l.workers| && t < |l.work| && PkgsKnown(l)
    ensures var m, k := AddLease(l, w, t, now), WorkOf(l, t); Matches(m, w, k) && k.lease in m.leases
  {
  }

  /** The worker's leases are the old ones and those in the batch. */
  lemma {:induction false} WorksCover(l: State, w: nat, now: int, picks: seq<nat>, id: nat)
    requires w < |l.workers| && PkgsKnown(l) && InQueue(l, picks) && id in AddLeases(l, w, now, picks).workers[w].leases
    ensures id in l.workers[w].leases || InWorks(Works(l, w, now, picks), id)
    decreases |picks|
  {
    if picks != [] {
      var m, rest, k := AddLease(l, w, picks[0], now), picks[1..], WorkOf(l, picks[0]);
      WorksCover(m, w, now, rest, id);
      assert id in m.workers[w].leases ==> id in l.workers[w].leases || id == k.lease;
      hide AddLease, PkgsKnown;
      var ks := Works(m, w, now, rest);
      assert Works(l, w, now, picks)[0] == k;
      assert forall i | 0 <= i < |ks| :: ([k] + ks)[i + 1] == ks[i];
    }
  }

  lemma NumberedIsAcceptable(l: State, w: nat, h: Helper, ks: seq<Work>)
    requires ExecsMatch(l, w, h) && Numbered(l, ks)
    ensures Acceptable(h, ks, HashOf(l))
  {
    forall i, e | 0 <= i < |ks| && 0 <= e < |h.execs|
      ensures ks[i].lease != h.execs[e].work.lease
    {
      assert Matches(l, w, h.execs[e].work);
    }
  }

  lemma AcceptableHash(h: Helper, ks: seq<Work>, f: nat -> string, g: nat -> string)
    requires Acceptable(h, ks, f) && forall p: nat :: f(p) == g(p)
    ensures Acceptable(h, ks, g)
  {
  }

  lemma TailWorks(l: State, w: nat, h: Helper, req: Request, now: int, picks: seq<nat>)
    requires LeaseInv(l) && w < |l.workers| && InQueue(l, picks) && ExecsMatch(l, w, h)
    requires forall id | id in req.active :: id <= l.nextID
    ensures var (r, res) := ExchangeTail(l, w, req, now, picks);
      && AllMatch(r, w, res.work) && Acceptable(h, res.work, HashOf(r)) && res.cancel !! r.workers[w].leases
      && forall id | id in r.workers[w].leases :: id in l.workers[w].leases || InWorks(res.work, id)
  {
    var beat := Heartbeat(l, w, req, now);
    var (r, res) := ExchangeTail(l, w, req, now, picks);
    HeartbeatKeepsLeases(l, w, req, now);
    WorksMatch(beat, w, now, picks);
    WorksNumbered(beat, w, now, picks);
    assert Numbered(l, res.work);
    NumberedIsAcceptable(l, w, h, res.work);
    AcceptableHash(h, res.work, HashOf(l), HashOf(r));
    hide LeaseInv, Heartbeat, AddLeases, Works, Acceptable, AllMatch, ExecsMatch;
    forall id | id in r.workers[w].leases
      ensures id in l.workers[w].leases || InWorks(res.work, id)
    {
      WorksCover(beat, w, now, picks, id);
      HeartbeatHolds(l, w, req, now);
    }
  }

  lemma HeartbeatHolds(l: State, w: nat, req: Request, now: int)
    requires w < |l.workers|
    ensures |Heartbeat(l, w, req, now).workers| == |l.workers| && Heartbeat(l, w, req, now).workers[w].leases == l.workers[w].leases
  {
  }

  /** The response carries every lease it created. */
  lemma TailTurn(l: State, c: Conn, now: int, picks: seq<nat>)
    requires Inv(l) && ConnOk(l, c) && c.chan.Asked? && c.chan.accepted == |c.chan.req.results|
    requires Enabled(l, EExchange(c.worker, c.chan.req, now, picks))
    ensures var (r, res) := ExchangeTail(l, c.worker, c.chan.req, now, picks); ConnOk(r, c.(chan := Answered(res)))
  {
    var (r, res) := ExchangeTail(l, c.worker, c.chan.req, now, picks);
    var d := c.(chan := Answered(res));
    TailMoves(l, c.worker, c.chan.req, now, picks);
    HelperFrame(l, r, c.helper);
    ExecsMatchFrame(l, r, c.worker, c.helper);
    TailWorks(l, c.worker, c.helper, c.chan.req, now, picks);
    hide Inv, ExchangeTail, Moves, HelperOk, ExecsMatch, AllMatch, Acceptable;
    forall id | NoLeakApplies(r, d) && id in r.workers[c.worker].leases
      ensures Somewhere(d, id)
    {
      if id in l.workers[c.worker].leases {
        assert Somewhere(c, id);
        assert c.chan.req.results[c.chan.accepted..] == [];
      }
    }
  }

  /** What a response adds to a helper: its works, in order, behind the executions it knows. */
  ghost predicate Added(h: Helper, g: Helper, ks: seq<Work>) {
    && |g.execs| == |h.execs| + |ks|
    && (forall e | 0 <= e < |h.execs| :: g.execs[e].work == h.execs[e].work)
    && (forall i | 0 <= i < |ks| :: g.execs[|h.execs| + i].work == ks[i])
    && (forall id | id in h.active || InWorks(ks, id) :: id in g.active)
    && g.pending == h.pending && g.over == h.over && g.bins == h.bins
  }

  lemma {:induction false} EnqueueAllAdds(h: Helper, ks: seq<Work>)
    ensures Added(h, EnqueueAll(h, ks), ks)
    decreases |ks|
  {
    if ks != [] {
      var m, rest := Enqueue(h, ks[0]), ks[1..];
      EnqueueAllAdds(m, rest);
      var g := EnqueueAll(h, ks);
      assert g == EnqueueAll(m, rest);
      forall i | 0 <= i < |ks|
        ensures g.execs[|h.execs| + i].work == ks[i]
      {
        if i > 0 {
          assert g.execs[|m.execs| + (i - 1)].work == rest[i - 1];
        } else {
          assert g.execs[|h.execs|].work == m.execs[|h.execs|].work;
        }
      }
      forall id | InWorks(ks, id)
        ensures id in g.active
      {
        var i :| 0 <= i < |ks| && ks[i].lease == id;
        if i > 0 {
          assert rest[i - 1].lease == id;
          assert InWorks(rest, id);
        } else {
          assert id in m.active;
        }
      }
    }
  }

  /** What a response makes of a helper: cancelled leases leave, new ones become active. */
  ghost predicate Took(h: Helper, g: Helper, res: Response) {
    && |g.execs| == |h.execs| + |res.work|
    && (forall e | 0 <= e < |h.execs| :: g.execs[e].work == h.execs[e].work)
    && (forall i | 0 <= i < |res.work| :: g.execs[|h.execs| + i].work == res.work[i])
    && (forall id | id in h.active && id !in res.cancel :: id in g.active)
    && (forall id | InWorks(res.work, id) :: id in g.active)
    && g.pending == h.pending && g.over == h.over && g.bins == h.bins
  }

  lemma CancelTakes(h: Helper, res: Response)
    ensures Took(h, EnqueueAll(Cancel(h, res.cancel), res.work), res)
  {
    var c := Cancel(h, res.cancel);
    assert forall e | 0 <= e < |h.execs| :: c.execs[e].work == h.execs[e].work;
    EnqueueAllAdds(c, res.work);
    hide EnqueueAll;
  }

  lemma StartedTakes(h: Helper, m: Helper, q: Helper, g: Helper, res: Response)
    requires m == h.(inFlight := m.inFlight) && Took(m, q, res) && Started(q, g)
    ensures Took(h, g, res)
  {
  }

  lemma ReceiveTakes(h: Helper, res: Response)
    requires res.error == "" && !res.done && Slotted(EnqueueAll(Cancel(h.(inFlight := false), res.cancel), res.work))
    ensures Took(h, Receive(h, res), res)
  {
    hide Slotted;
    var m := h.(inFlight := false);
    var q := EnqueueAll(Cancel(m, res.cancel), res.work);
    CancelTakes(m, res);
    StartKeeps(q);
    assert Receive(h, res) == Start(q);
    hide Start, EnqueueAll, Cancel, Receive, Started, Took;
    StartedTakes(h, m, q, Start(q), res);
  }

  lemma EnqueuedSlotted(l: State, h: Helper, res: Response)
    requires HelperOk(l, h) && Acceptable(h, res.work, HashOf(l))
    ensures Slotted(EnqueueAll(Cancel(h.(inFlight := false), res.cancel), res.work))
  {
    var m := h.(inFlight := false);
    CancelKeepsSlotted(m, res.cancel);
    CancelKeepsFaithful(m, res.cancel, HashOf(l));
    EnqueueAllKeeps(Cancel(m, res.cancel), res.work, HashOf(l));
  }

  lemma DeliverOk(l: State, h: Helper, res: Response)
    requires HelperOk(l, h) && Acceptable(h, res.work, HashOf(l)) && (!l.ready ==> res.work == [])
    ensures HelperOk(l, Receive(h, res))
    ensures res.error == "" && !res.done ==> Took(h, Receive(h, res), res)
  {
    ReceiveKeeps(h, res, HashOf(l));
    EnqueuedSlotted(l, h, res);
    hide Slotted, Saturated, Faithful, Acceptable, EnqueueAll, Start, Cancel;
    if res.error == "" && !res.done {
      ReceiveTakes(h, res);
    }
    ReportableFrame(h, Receive(h, res), h.pending);
  }

  lemma DeliverMatches(l: State, w: nat, h: Helper, g: Helper, ks: seq<Work>)
    requires ExecsMatch(l, w, h) && AllMatch(l, w, ks) && |g.execs| == |h.execs| + |ks|
    requires forall e | 0 <= e < |h.execs| :: g.execs[e].work == h.execs[e].work
    requires forall i | 0 <= i < |ks| :: g.execs[|h.execs| + i].work == ks[i]
    ensures ExecsMatch(l, w, g)
  {
    forall e | 0 <= e < |g.execs|
      ensures Matches(l, w, g.execs[e].work)
    {
      if e < |h.execs| {
        assert Matches(l, w, h.execs[e].work);
      } else {
        assert g.execs[|h.execs| + (e - |h.execs|)].work == ks[e - |h.execs|];
      }
    }
  }

  /** Nothing was leased before the queue opened, so nothing was sent. */
  lemma NoEarlyWorks(l: State, w: nat, ks: seq<Work>)
    requires AllMatch(l, w, ks) && l.nextID == 0
    ensures ks == []
  {
    assert |ks| == 0 || Matches(l, w, ks[0]);
  }

  lemma DeliverLast(l: State, c: Conn)
    requires ConnOk(l, c) && c.chan.Answered? && (c.chan.res.error != "" || c.chan.res.done)
    ensures ConnOk(l, c.(helper := Receive(c.helper, c.chan.res), chan := Free))
  {
    var g := Receive(c.helper, c.chan.res);
    ReportableFrame(c.helper, g, c.helper.pending);
    forall e | 0 <= e < |g.execs|
      ensures Matches(l, c.worker, g.execs[e].work)
    {
      assert Matches(l, c.worker, c.helper.execs[e].work);
    }
  }

  lemma DeliverMore(l: State, c: Conn, g: Helper)
    requires ConnOk(l, c) && c.chan.Answered? && HelperOk(l, g) && Took(c.helper, g, c.chan.res)
    ensures ConnOk(l, c.(helper := g, chan := Free))
  {
    hide HelperOk, Acceptable;
    var d := c.(helper := g, chan := Free);
    DeliverMatches(l, c.worker, c.helper, g, c.chan.res.work);
    forall id | NoLeakApplies(l, d) && id in l.workers[c.worker].leases
      ensures Somewhere(d, id)
    {
      assert Somewhere(c, id);
      assert id !in c.chan.res.cancel;
    }
  }

  lemma DeliverTurn(l: State, c: Conn)
    requires ConnOk(l, c) && c.chan.Answered? && (!l.ready ==> l.nextID == 0)
    ensures ConnOk(l, c.(helper := Receive(c.helper, c.chan.res), chan := Free))
  {
    hide Receive, HelperOk, Acceptable, AllMatch, Took, ExecsMatch, Somewhere, NoLeak;
    if c.chan.res.error != "" || c.chan.res.done {
      DeliverLast(l, c);
    } else {
      if !l.ready {
        NoEarlyWorks(l, c.worker, c.chan.res.work);
      }
      DeliverOk(l, c.helper, c.chan.res);
      DeliverMore(l, c, Receive(c.helper, c.chan.res));
    }
  }

  lemma HangupTurn(l: State, c: Conn, error: string)
    requires Inv(l) && ConnOk(l, c) && (!l.ready ==> l.nextID == 0)
    ensures ConnOk(Disconnect(l, c.worker, error), c.(chan := Closed))
  {
    var r := Disconnect(l, c.worker, error);
    DisconnectMoves(l, c.worker, error);
    ConnFrame(l, r, -1, c);
    assert r.workers[c.worker].leases == {};
    Rechannel(r, c, Closed);
  }

  // ------------------------------------------------------------------------------------------
  // Genuine commits
  // ------------------------------------------------------------------------------------------

  lemma GenuineFrame(l: State, r: State)
    requires GenuineCommits(l) && SameTests(l, r) && r.commits == l.commits && (!l.ready ==> l.commits == [])
    ensures GenuineCommits(r)
  {
    forall i | 0 <= i < |r.commits|
      ensures r.commits[i].task < |r.work| && (r.commits[i].result.infra || r.commits[i].result.ran == Some(GenuineRun(r, r.commits[i].task)))
    {
      assert GenuineRun(r, l.commits[i].task) == GenuineRun(l, l.commits[i].task);
    }
  }

  /** Accepting a result that is genuine for its live lease keeps every commit genuine. */
  lemma AcceptGenuine(l: State, w: nat, r: WorkerResult)
    requires Inv(l) && GenuineCommits(l) && w < |l.workers|
    requires r.lease in l.workers[w].leases && l.leases[r.lease].task < |l.work| ==> r.infra || r.ran == Some(GenuineRun(l, l.leases[r.lease].task))
    ensures GenuineCommits(Accept(l, w, r))
  {
    var a := Accept(l, w, r);
    AcceptMoves(l, w, r);
    if a.commits == l.commits {
      GenuineFrame(l, a);
    } else {
      var t := l.leases[r.lease].task;
      assert a.commits == l.commits + [Commit(t, w, r)];
      hide Inv, Accept, Follows;
      GenuineAppend(l, a, Commit(t, w, r));
    }
  }

  lemma GenuineAppend(l: State, a: State, c: Commit)
    requires GenuineCommits(l) && SameTests(l, a) && l.ready && a.commits == l.commits + [c]
    requires c.task < |l.work| && (c.result.infra || c.result.ran == Some(GenuineRun(l, c.task)))
    ensures GenuineCommits(a)
  {
    forall i | 0 <= i < |a.commits|
      ensures a.commits[i].task < |a.work| && (a.commits[i].result.infra || a.commits[i].result.ran == Some(GenuineRun(a, a.commits[i].task)))
    {
      assert GenuineRun(a, a.commits[i].task) == GenuineRun(l, a.commits[i].task);
    }
  }

  /** A result a helper reports for a live lease ran that lease's own test on the leader's binary. */
  lemma ReportedIsGenuine(l: State, c: Conn, r: WorkerResult)
    requires Linked(l) && ConnOk(l, c) && Reportable(c.helper, r) && r.lease in l.leases
    ensures r.infra || r.ran == Some(GenuineRun(l, l.leases[r.lease].task))
  {
    var h := c.helper;
    var e :| 0 <= e < |h.execs| && h.execs[e].work.lease == r.lease && (r.infra || r.ran == Some(Genuine(h.execs[e].work)));
    assert Matches(l, c.worker, h.execs[e].work);
  }

  // ------------------------------------------------------------------------------------------
  // Every step
  // ------------------------------------------------------------------------------------------

  /** What a step of the system does to the leader: the invariant, the commits and the other connections hold. */
  ghost predicate Safe(l: State, r: State, w: int) {
    Inv(r) && GenuineCommits(r) && Moves(l, r, w) && (!r.ready ==> r.nextID == 0)
  }

  ghost predicate LeaderOk(l: State) {
    Inv(l) && GenuineCommits(l) && (!l.ready ==> l.nextID == 0)
  }

  lemma LocalAssignCommits(l: State, w: nat, now: int, begun: int, t: nat)
    requires w < |l.workers| && t < |l.work|
    ensures var r := LocalAssign(l, w, now, begun, t); r.commits == l.commits && r.ready == l.ready
  {
  }

  lemma LocalCommits(l: State, e: Event)
    requires IsLocal(l, e) && Enabled(l, e) && !e.EAccept?
    ensures Apply(l, e).commits == l.commits && (!l.ready ==> Apply(l, e).nextID == l.nextID)
    ensures l.ready ==> Apply(l, e).ready
  {
    hide Batch, TailPicks, Sorted, Linked, PkgsKnown, DropFromWork, DropFromWorkers, LocalAssign, Accept, Disconnect, ExchangeTail;
    if e.ELocalAssign? {
      LocalAssignCommits(l, e.w, e.now, e.begun, e.t);
    }
  }

  lemma LocalSafe(l: State, e: Event)
    requires LeaderOk(l) && IsLocal(l, e) && Enabled(l, e)
    ensures Safe(l, Apply(l, e), if e.ELocalAssign? then e.w else -1)
  {
    StepKeepsInv(l, e);
    LocalMoves(l, e);
    if e.EAccept? {
      AcceptGenuine(l, e.w, e.r);
      AcceptCommon(l, e.w, e.r);
    } else {
      LocalCommits(l, e);
      hide Apply, Enabled, IsLocal;
      GenuineFrame(l, Apply(l, e));
    }
  }

  lemma AcceptCommon(l: State, w: nat, r: WorkerResult)
    requires Linked(l) && w < |l.workers|
    ensures Accept(l, w, r).ready == l.ready && Accept(l, w, r).nextID == l.nextID
  {
  }

  lemma AcceptSafe(l: State, c: Conn)
    requires LeaderOk(l) && ConnOk(l, c) && c.chan.Asked? && c.chan.accepted < |c.chan.req.results|
    ensures Safe(l, Accept(l, c.worker, c.chan.req.results[c.chan.accepted]), -1)
  {
    var r := c.chan.req.results[c.chan.accepted];
    assert Reportable(c.helper, r);
    StepKeepsInv(l, EAccept(c.worker, r));
    AcceptMoves(l, c.worker, r);
    AcceptCommon(l, c.worker, r);
    if r.lease in l.workers[c.worker].leases {
      ReportedIsGenuine(l, c, r);
    }
    hide ConnOk, Accept;
    AcceptGenuine(l, c.worker, r);
  }

  lemma TailSafe(l: State, w: nat, req: Request, now: int, picks: seq<nat>)
    requires LeaderOk(l) && Enabled(l, EExchange(w, req, now, picks))
    ensures Safe(l, ExchangeTail(l, w, req, now, picks).0, w)
  {
    StepKeepsInv(l, EExchange(w, req, now, picks));
    TailMoves(l, w, req, now, picks);
    AddLeasesUntouched(Heartbeat(l, w, req, now), w, now, picks);
    GenuineFrame(l, ExchangeTail(l, w, req, now, picks).0);
  }

  lemma HangupSafe(l: State, w: nat, error: string)
    requires LeaderOk(l) && w < |l.workers|
    ensures Safe(l, Disconnect(l, w, error), -1)
  {
    StepKeepsInv(l, EDisconnect(w, error));
    DisconnectMoves(l, w, error);
    GenuineFrame(l, Disconnect(l, w, error));
  }

  lemma JoinSafe(l: State, slots: nat)
    requires LeaderOk(l)
    ensures Safe(l, AddWorker(l, slots, false), -1)
  {
    StepKeepsInv(l, EAddWorker(slots, false));
    GenuineFrame(l, AddWorker(l, slots, false));
  }

  lemma JoinTurn(l: State, slots: nat)
    requires LeaderOk(l)
    ensures ConnOk(AddWorker(l, slots, false), Conn(|l.workers|, NewHelper(slots), Free))
  {
  }

  /** The worker that may gain leases in a step, or -1. */
  function Gainer(s: System, x: Step): int
    requires CanStep(s, x)
  {
    match x
    case Local(e) => if e.ELocalAssign? then e.w else -1
    case Tail(c, _, _) => s.conns[c].worker
    case _ => -1
  }

  lemma LeaderStep(s: System, x: Step)
    requires SystemInv(s) && CanStep(s, x)
    ensures Safe(s.leader, StepOf(s, x).leader, Gainer(s, x))
  {
    hide Inv, GenuineCommits, Apply, Accept, ExchangeTail, Disconnect, Moves;
    StillSafe(s.leader);
    match x {
      case Local(e) => LocalSafe(s.leader, e);
      case Join(slots) => JoinSafe(s.leader, slots);
      case AcceptNext(c) => AcceptSafe(s.leader, s.conns[c]);
      case Tail(c, now, picks) => TailSafe(s.leader, s.conns[c].worker, s.conns[c].chan.req, now, picks);
      case Hangup(c, error) => HangupSafe(s.leader, s.conns[c].worker, error);
      case _ =>
    }
  }

  lemma StillSafe(l: State)
    requires LeaderOk(l)
    ensures Safe(l, l, -1)
  {
  }

  /** The connection a step belongs to, or -1. */
  function Owner(x: Step): int {
    match x
    case Local(_) => -1
    case Join(_) => -1
    case _ => x.c
  }

  lemma OwnTurn(s: System, x: Step)
    requires SystemInv(s) && CanStep(s, x) && Owner(x) >= 0
    ensures |StepOf(s, x).conns| == |s.conns| && ConnOk(StepOf(s, x).leader, StepOf(s, x).conns[x.c])
  {
    hide SystemInv, CanStep, StepOf, ConnOk;
    if x.AcceptNext? {
      OwnAccept(s, x.c);
    } else if x.Tail? {
      OwnTail(s, x.c, x.now, x.picks);
    } else if x.Hangup? {
      OwnHangup(s, x.c, x.error);
    } else if x.Send? {
      OwnSend(s, x.c);
    } else if x.Deliver? {
      OwnDeliver(s, x.c);
    } else {
      OwnHelperStep(s, x);
    }
  }

  lemma OwnSend(s: System, c: nat)
    requires SystemInv(s) && CanStep(s, Send(c))
    ensures var r := StepOf(s, Send(c)); |r.conns| == |s.conns| && ConnOk(r.leader, r.conns[c])
  {
    hide Inv, GenuineCommits;
    assert ConnOk(s.leader, s.conns[c]);
    hide ConnOk;
    SendTurn(s.leader, s.conns[c]);
  }

  lemma OwnDeliver(s: System, c: nat)
    requires SystemInv(s) && CanStep(s, Deliver(c))
    ensures var r := StepOf(s, Deliver(c)); |r.conns| == |s.conns| && ConnOk(r.leader, r.conns[c])
  {
    hide Inv, GenuineCommits;
    assert ConnOk(s.leader, s.conns[c]);
    hide ConnOk, Receive;
    DeliverTurn(s.leader, s.conns[c]);
  }

  lemma OwnHelperStep(s: System, x: Step)
    requires SystemInv(s) && CanStep(s, x)
    requires x.Quit? || x.Tick? || x.TakeReady? || x.JobPrepared? || x.JobExecuted? || x.JobReaped?
    ensures |StepOf(s, x).conns| == |s.conns| && ConnOk(StepOf(s, x).leader, StepOf(s, x).conns[x.c])
  {
    hide Inv, GenuineCommits;
    assert ConnOk(s.leader, s.conns[x.c]);
    hide ConnOk, HelperStep, HelperEnabled, Enabled, IsLocal;
    OwnHelper(s.leader, s.conns[x.c], x);
  }

  lemma OwnAccept(s: System, c: nat)
    requires SystemInv(s) && CanStep(s, AcceptNext(c))
    ensures var r := StepOf(s, AcceptNext(c)); |r.conns| == |s.conns| && ConnOk(r.leader, r.conns[c])
  {
    hide Inv, GenuineCommits, ConnOk, Accept, Linked, Enabled;
    assert ConnOk(s.leader, s.conns[c]);
    AcceptTurn(s.leader, s.conns[c]);
  }

  lemma OwnTail(s: System, c: nat, now: int, picks: seq<nat>)
    requires SystemInv(s) && CanStep(s, Tail(c, now, picks))
    ensures var r := StepOf(s, Tail(c, now, picks)); |r.conns| == |s.conns| && ConnOk(r.leader, r.conns[c])
  {
    hide Inv, GenuineCommits;
    assert ConnOk(s.leader, s.conns[c]);
    hide ConnOk, ExchangeTail, TailPicks;
    TailTurn(s.leader, s.conns[c], now, picks);
  }

  lemma OwnHangup(s: System, c: nat, error: string)
    requires SystemInv(s) && CanStep(s, Hangup(c, error))
    ensures var r := StepOf(s, Hangup(c, error)); |r.conns| == |s.conns| && ConnOk(r.leader, r.conns[c])
  {
    hide Inv, GenuineCommits;
    assert ConnOk(s.leader, s.conns[c]);
    hide ConnOk, Disconnect;
    HangupTurn(s.leader, s.conns[c], error);
  }

  lemma OwnHelper(l: State, c: Conn, x: Step)
    requires ConnOk(l, c) && HelperEnabled(c.helper, x)
    ensures ConnOk(l, c.(helper := HelperStep(c.helper, x)))
  {
    HelperStepKeeps(l, c.helper, x);
    hide HelperOk, HelperStep;
    HelperTurn(l, c, HelperStep(c.helper, x));
  }

  /** A step touches its own connection only; a join adds one at the end. */
  lemma ConnsStay(s: System, x: Step)
    requires CanStep(s, x)
    ensures |StepOf(s, x).conns| == |s.conns| + (if x.Join? then 1 else 0)
    ensures forall d | 0 <= d < |s.conns| ::
      StepOf(s, x).conns[d].worker == s.conns[d].worker && (d != Owner(x) ==> StepOf(s, x).conns[d] == s.conns[d])
    ensures x.Join? ==> StepOf(s, x).conns[|s.conns|].worker == |s.leader.workers|
  {
    hide Enabled;
  }

  /** The other connections only see the leader move. */
  lemma OtherTurn(s: System, x: Step, d: nat)
    requires SystemInv(s) && CanStep(s, x) && d < |s.conns| && d != Owner(x)
    requires Moves(s.leader, StepOf(s, x).leader, Gainer(s, x))
    ensures d < |StepOf(s, x).conns| && StepOf(s, x).conns[d] == s.conns[d] && ConnOk(StepOf(s, x).leader, s.conns[d])
  {
    ConnsStay(s, x);
    assert ConnOk(s.leader, s.conns[d]);
    GainsElsewhere(s, x, d);
    hide StepOf, CanStep, Inv, GenuineCommits, Moves, HelperOk, ExecsMatch, ChannelOk, NoLeak, ClosedHoldsNone;
    ConnFrame(s.leader, StepOf(s, x).leader, Gainer(s, x), s.conns[d]);
  }

  lemma GainsElsewhere(s: System, x: Step, d: nat)
    requires CanStep(s, x) && d < |s.conns| && d != Owner(x) && ConnOk(s.leader, s.conns[d])
    requires forall c, d | 0 <= c < d < |s.conns| :: s.conns[c].worker != s.conns[d].worker
    ensures s.conns[d].worker != Gainer(s, x)
  {
    hide HelperOk, ExecsMatch, ChannelOk, NoLeak, ClosedHoldsNone;
  }

  lemma WorkersStay(s: System, x: Step)
    requires SystemInv(s) && CanStep(s, x)
    ensures forall c, d | 0 <= c < d < |StepOf(s, x).conns| :: StepOf(s, x).conns[c].worker != StepOf(s, x).conns[d].worker
  {
    ConnsStay(s, x);
    hide Inv, GenuineCommits, StepOf, CanStep;
    forall c | 0 <= c < |s.conns|
      ensures s.conns[c].worker < |s.leader.workers|
    {
      assert ConnOk(s.leader, s.conns[c]);
    }
  }

  lemma StepKeepsSystem(s: System, x: Step)
    requires SystemInv(s) && CanStep(s, x)
    ensures SystemInv(StepOf(s, x))
  {
    var t := StepOf(s, x);
    LeaderStep(s, x);
    WorkersStay(s, x);
    forall d | 0 <= d < |t.conns|
      ensures ConnOk(t.leader, t.conns[d])
    {
      EachTurn(s, x, d);
    }
  }

  lemma EachTurn(s: System, x: Step, d: nat)
    requires SystemInv(s) && CanStep(s, x) && d < |StepOf(s, x).conns|
    requires Moves(s.leader, StepOf(s, x).leader, Gainer(s, x))
    ensures ConnOk(StepOf(s, x).leader, StepOf(s, x).conns[d])
  {
    hide SystemInv, CanStep, StepOf, ConnOk, Moves;
    ConnsStay(s, x);
    if d == Owner(x) {
      OwnTurn(s, x);
    } else if x.Join? && d == |s.conns| {
      OwnJoin(s, x.slots);
    } else {
      OtherTurn(s, x, d);
    }
  }

  lemma OwnJoin(s: System, slots: nat)
    requires SystemInv(s) && CanStep(s, Join(slots))
    ensures var r := StepOf(s, Join(slots)); |r.conns| == |s.conns| + 1 && ConnOk(r.leader, r.conns[|s.conns|])
  {
    hide Inv, GenuineCommits, ConnOk;
    JoinTurn(s.leader, slots);
  }

  // ------------------------------------------------------------------------------------------
  // Every run
  // ------------------------------------------------------------------------------------------

  lemma {:induction false} RunKeepsSystem(s: System, steps: seq<Step>)
    requires SystemInv(s) && LegalRun(s, steps)
    ensures SystemInv(RunOf(s, steps))
    decreases |steps|
  {
    if steps != [] {
      StepKeepsSystem(s, steps[0]);
      RunKeepsSystem(StepOf(s, steps[0]), steps[1..]);
    }
  }

  lemma BootedRun(failFast: bool, steps: seq<Step>)
    requires LegalRun(Boot(failFast), steps)
    ensures SystemInv(RunOf(Boot(failFast), steps))
  {
    InitialInv(failFast);
    RunKeepsSystem(Boot(failFast), steps);
  }

  /**
    No lease leaks: at every point of every run, a lease the leader holds for a connected helper is
    active there, pending there, in the unaccepted part of its request, or in the response to it.
   */
  lemma NoLeaseLeaks(failFast: bool, steps: seq<Step>, c: nat, id: nat)
    requires LegalRun(Boot(failFast), steps)
    requires var s := RunOf(Boot(failFast), steps);
      && c < |s.conns| && s.conns[c].chan != Closed && !s.conns[c].helper.over && !s.leader.stopped && !s.leader.cancelled
      && s.conns[c].worker < |s.leader.workers| && id in s.leader.workers[s.conns[c].worker].leases
    ensures Somewhere(RunOf(Boot(failFast), steps).conns[c], id)
  {
    BootedRun(failFast, steps);
    var s := RunOf(Boot(failFast), steps);
    assert ConnOk(s.leader, s.conns[c]);
  }

  /**
    Every commit of every run is an infrastructure error or an execution of the committed task's own
    test on the binary with the leader's hash, whichever helper ran it and however often it was leased.
   */
  lemma EveryCommitIsGenuine(failFast: bool, steps: seq<Step>, i: nat)
    requires LegalRun(Boot(failFast), steps) && i < |RunOf(Boot(failFast), steps).leader.commits|
    ensures var l := RunOf(Boot(failFast), steps).leader;
      var k := l.commits[i];
      k.task < |l.work| && (k.result.infra || k.result.ran == Some(GenuineRun(l, k.task)))
  {
    BootedRun(failFast, steps);
  }

  /** After every turn of every helper: the slot count, the places of active leases and the busy slots. */
  lemma HelperDiscipline(failFast: bool, steps: seq<Step>, c: nat)
    requires LegalRun(Boot(failFast), steps) && c < |RunOf(Boot(failFast), steps).conns|
    ensures var h := RunOf(Boot(failFast), steps).conns[c].helper;
      && h.running == |h.jobs| <= h.slots && (h.running == h.slots || h.queue == [])
      && (forall id | id in h.active :: (h.active[id] in h.jobs) != (h.active[id] in h.queue))
      && (forall p | p in h.bins :: h.bins[p] == HashOf(RunOf(Boot(failFast), steps).leader)(p))
  {
    BootedRun(failFast, steps);
    var s := RunOf(Boot(failFast), steps);
    assert ConnOk(s.leader, s.conns[c]);
    var h := s.conns[c].helper;
    forall id | id in h.active
      ensures (h.active[id] in h.jobs) != (h.active[id] in h.queue)
    {
      assert forall i | 0 <= i < |h.queue| :: h.queue[i] !in h.jobs;
    }
  }

  /**
    At every point of every run, reaping a job whose lease was cancelled reports nothing, and a result
    that waits to be reported is an infrastructure error or ran the work of an execution of its lease.
   */
  lemma CancelledIsNeverReported(failFast: bool, steps: seq<Step>, c: nat, e: nat)
    requires LegalRun(Boot(failFast), steps) && CanStep(RunOf(Boot(failFast), steps), JobReaped(c, e))
    ensures var s := RunOf(Boot(failFast), steps);
      var h := s.conns[c].helper;
      && e < |h.execs|
      && (h.execs[e].cancelled ==> StepOf(s, JobReaped(c, e)).conns[c].helper.pending == h.pending)
      && AllReportable(h, h.pending)
  {
    hide RunOf, LegalRun, Inv, GenuineCommits, Slotted, Saturated, Faithful, AllReportable, ExecsMatch, ChannelOk, NoLeak, Reap;
    BootedRun(failFast, steps);
    var s := RunOf(Boot(failFast), steps);
    assert ConnOk(s.leader, s.conns[c]);
    ReapPending(s.leader, s.conns[c].helper, e);
  }

  lemma ReapPending(l: State, h: Helper, e: nat)
    requires HelperOk(l, h) && e in h.jobs && h.jobs[e].Ended? && h.running > 0
    ensures e < |h.execs| && (h.execs[e].cancelled ==> Reap(h, e).pending == h.pending)
  {
    ReapReports(h, e, HashOf(l));
    ReapCounts(h, e);
    assert JobFaithful(h.execs[e], h.jobs[e]);
    ReapPlaces(h, e);
    var m := Reaped(h, e);
    StartKeeps(m);
    assert Reap(h, e) == Start(m);
  }
}
