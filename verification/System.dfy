/**
  The whole distributed run: one leader and any number of helpers, each behind a channel that
  carries one request or one response at a time and may break at any moment. A run is any
  interleaving of the leader's critical sections, the helpers' turns and their jobs' progress.
 */
module Systems {
  import opened Common
  import opened Fleet
  import opened FleetSafety
  import opened Helpers
  import opened HelperSafety

  datatype Channel =
    | Free
    | Asked(req: Request, accepted: nat)   // the leader has accepted the first results of the request
    | Answered(res: Response)
    | Closed

  datatype Conn = Conn(worker: nat, helper: Helper, chan: Channel)

  datatype System = System(leader: State, conns: seq<Conn>)

  /** The leader's binary hash for a package. */
  function HashOf(l: State): nat -> string {
    (p: nat) => if p < |l.pkgs| then l.pkgs[p].hash else ""
  }

  datatype Step =
    | Local(event: Event)
    | Join(slots: nat)
    | Send(c: nat)
    | AcceptNext(c: nat)
    | Tail(c: nat, now: int, picks: seq<nat>)
    | Deliver(c: nat)
    | Hangup(c: nat, error: string)
    | Quit(c: nat)
    | Tick(c: nat)
    | TakeReady(c: nat)
    | JobPrepared(c: nat, e: nat, built: Option<string>)
    | JobExecuted(c: nat, e: nat, outcome: WorkerResult)
    | JobReaped(c: nat, e: nat)

  /** The execution of the task a lease stands for, on the leader's binary. */
  function GenuineRun(l: State, t: nat): Execution
    requires t < |l.work|
  {
    Execution(l.work[t].pkg, l.work[t].test, HashOf(l)(l.work[t].pkg))
  }

  /** Events of the leader alone; a local slot runs the very task it leased. */
  ghost predicate IsLocal(l: State, e: Event) {
    match e
    case EAddWorker(_, leader) => leader
    case EExchange(_, _, _, _) => false
    case EDisconnect(_, _) => false
    case EAccept(w, r) =>
      && w < |l.workers| && l.workers[w].leader
      && (r.lease in l.leases && l.leases[r.lease].task < |l.work| ==>
            r.infra || r.ran == Some(GenuineRun(l, l.leases[r.lease].task)))
    case _ => true
  }

  /** A helper's own turn or job step. */
  ghost predicate HelperEnabled(h: Helper, x: Step) {
    && !h.over
    && match x
       case Quit(_) => true
       case Tick(_) => true
       case TakeReady(_) => h.readies != []
       case JobPrepared(_, e, _) => e in h.jobs && e < |h.execs| && h.jobs[e] == Preparing
       case JobExecuted(_, e, _) => e in h.jobs && e < |h.execs| && h.jobs[e].Prepared?
       case JobReaped(_, e) => e in h.jobs && h.jobs[e].Ended? && h.running > 0
       case _ => false
  }

  function HelperStep(h: Helper, x: Step): Helper
    requires HelperEnabled(h, x)
  {
    match x
    case Quit(_) => h.(over := true)
    case Tick(_) => h.(dirty := true)
    case TakeReady(_) => OnReady(h)
    case JobPrepared(_, e, built) => Prepare(h, e, built)
    case JobExecuted(_, e, outcome) => Execute(h, e, outcome)
    case JobReaped(_, e) => Reap(h, e)
    case _ => h
  }

  ghost predicate CanStep(s: System, x: Step) {
    match x
    case Local(e) => IsLocal(s.leader, e) && Enabled(s.leader, e)
    case Join(slots) => 1 <= slots <= 1024
    case Send(c) =>
      c < |s.conns| && s.conns[c].chan == Free && !s.conns[c].helper.over && s.conns[c].helper.dirty && !s.conns[c].helper.inFlight
    case AcceptNext(c) =>
      && c < |s.conns| && s.conns[c].chan.Asked? && s.conns[c].chan.accepted < |s.conns[c].chan.req.results|
      && Enabled(s.leader, EAccept(s.conns[c].worker, s.conns[c].chan.req.results[s.conns[c].chan.accepted]))
    case Tail(c, now, picks) =>
      && c < |s.conns| && s.conns[c].chan.Asked? && s.conns[c].chan.accepted == |s.conns[c].chan.req.results|
      && Enabled(s.leader, EExchange(s.conns[c].worker, s.conns[c].chan.req, now, picks))
    case Deliver(c) => c < |s.conns| && s.conns[c].chan.Answered? && !s.conns[c].helper.over
    case Hangup(c, error) =>
      c < |s.conns| && s.conns[c].chan != Closed && Enabled(s.leader, EDisconnect(s.conns[c].worker, error))
    case _ => x.c < |s.conns| && HelperEnabled(s.conns[x.c].helper, x)
  }

  function StepOf(s: System, x: Step): System
    requires CanStep(s, x)
  {
    match x
    case Local(e) => s.(leader := Apply(s.leader, e))
    case Join(slots) =>
      System(AddWorker(s.leader, slots, false), s.conns + [Conn(|s.leader.workers|, NewHelper(slots), Free)])
    case Send(c) =>
      var (h, req) := SendRequest(s.conns[c].helper);
      s.(conns := s.conns[c := s.conns[c].(helper := h, chan := Asked(req, 0))])
    case AcceptNext(c) =>
      var k := s.conns[c].chan.accepted;
      System(Accept(s.leader, s.conns[c].worker, s.conns[c].chan.req.results[k]),
             s.conns[c := s.conns[c].(chan := Asked(s.conns[c].chan.req, k + 1))])
    case Tail(c, now, picks) =>
      var (l, res) := ExchangeTail(s.leader, s.conns[c].worker, s.conns[c].chan.req, now, picks);
      System(l, s.conns[c := s.conns[c].(chan := Answered(res))])
    case Deliver(c) =>
      s.(conns := s.conns[c := s.conns[c].(helper := Receive(s.conns[c].helper, s.conns[c].chan.res), chan := Free)])
    case Hangup(c, error) =>
      System(Disconnect(s.leader, s.conns[c].worker, error), s.conns[c := s.conns[c].(chan := Closed)])
    case _ => s.(conns := s.conns[x.c := s.conns[x.c].(helper := HelperStep(s.conns[x.c].helper, x))])
  }

  ghost predicate LegalRun(s: System, steps: seq<Step>)
    decreases |steps|
  {
    steps != [] ==> CanStep(s, steps[0]) && LegalRun(StepOf(s, steps[0]), steps[1..])
  }

  ghost function RunOf(s: System, steps: seq<Step>): System
    requires LegalRun(s, steps)
    decreases |steps|
  {
    if steps == [] then s else RunOf(StepOf(s, steps[0]), steps[1..])
  }

  function Boot(failFast: bool): System {
    System(Initial(failFast), [])
  }

  // ------------------------------------------------------------------------------------------
  // What links a helper to the leader
  // ------------------------------------------------------------------------------------------

  /** A work item is what the leader leased: if the lease is live, it names that worker's task. */
  ghost predicate Matches(l: State, w: nat, k: Work) {
    && 1 <= k.lease <= l.nextID && k.binary == HashOf(l)(k.pkg)
    && (k.lease in l.leases ==>
          && l.leases[k.lease].worker == w && l.leases[k.lease].task < |l.work|
          && l.work[l.leases[k.lease].task].pkg == k.pkg && l.work[l.leases[k.lease].task].test == k.test)
  }

  ghost predicate AllMatch(l: State, w: nat, ks: seq<Work>) {
    forall i | 0 <= i < |ks| :: Matches(l, w, ks[i])
  }

  ghost predicate ExecsMatch(l: State, w: nat, h: Helper) {
    forall e | 0 <= e < |h.execs| :: Matches(l, w, h.execs[e].work)
  }

  ghost predicate ChannelOk(l: State, c: Conn) {
    match c.chan
    case Free => true
    case Asked(req, k) =>
      AllReportable(c.helper, req.results) && k <= |req.results| && forall id | id in req.active :: id <= l.nextID
    case Answered(res) =>
      && AllMatch(l, c.worker, res.work) && Acceptable(c.helper, res.work, HashOf(l))
      && (c.worker < |l.workers| ==> res.cancel !! l.workers[c.worker].leases)
    case Closed => true
  }

  ghost predicate HelperOk(l: State, h: Helper) {
    && Slotted(h) && Saturated(h) && Faithful(h, HashOf(l)) && AllReportable(h, h.pending)
    && (!l.ready ==> h.execs == [] && h.bins == map[])
  }

  predicate InResults(rs: seq<WorkerResult>, id: nat) {
    exists i :: 0 <= i < |rs| && rs[i].lease == id
  }

  predicate InWorks(ks: seq<Work>, id: nat) {
    exists i :: 0 <= i < |ks| && ks[i].lease == id
  }

  /** Where a lease may be while neither side has given it up. */
  predicate Somewhere(c: Conn, id: nat) {
    || id in c.helper.active
    || InResults(c.helper.pending, id)
    || (c.chan.Asked? && c.chan.accepted <= |c.chan.req.results| && InResults(c.chan.req.results[c.chan.accepted..], id))
    || (c.chan.Answered? && InWorks(c.chan.res.work, id))
  }

  /** The run goes on and the helper is connected. */
  ghost predicate NoLeakApplies(l: State, c: Conn) {
    c.worker < |l.workers| && !l.stopped && !l.cancelled && !c.helper.over && c.chan != Closed
  }

  /** Until the run stops, every lease the leader holds for a connected helper is accounted for there. */
  ghost predicate NoLeak(l: State, c: Conn) {
    NoLeakApplies(l, c) ==>
      forall id | id in l.workers[c.worker].leases :: Somewhere(c, id)
  }

  /** A broken connection leaves no lease behind. */
  ghost predicate ClosedHoldsNone(l: State, c: Conn) {
    c.chan == Closed && c.worker < |l.workers| ==> l.workers[c.worker].leases == {}
  }

  ghost predicate ConnOk(l: State, c: Conn) {
    && c.worker < |l.workers| && !l.workers[c.worker].leader
    && HelperOk(l, c.helper) && ExecsMatch(l, c.worker, c.helper) && ChannelOk(l, c)
    && NoLeak(l, c) && ClosedHoldsNone(l, c)
  }

  /** Every committed result is an infrastructure error or a run of the committed test on the leader's binary. */
  ghost predicate GenuineCommits(l: State) {
    forall i | 0 <= i < |l.commits| ::
      l.commits[i].task < |l.work| && (l.commits[i].result.infra || l.commits[i].result.ran == Some(GenuineRun(l, l.commits[i].task)))
  }

  ghost predicate SystemInv(s: System) {
    && Inv(s.leader) && GenuineCommits(s.leader) && (!s.leader.ready ==> s.leader.nextID == 0)
    && (forall c | 0 <= c < |s.conns| :: ConnOk(s.leader, s.conns[c]))
    && (forall c, d | 0 <= c < d < |s.conns| :: s.conns[c].worker != s.conns[d].worker)
  }
}
