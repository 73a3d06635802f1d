/**
  The leader of a distributed run as a transition system.

  The leader hands out uniquely numbered leases on tests. Workers, tasks and packages are
  identified by their position; a lease is identified by its number. Every transition is one
  critical section of the leader's lock, so a run is any sequence of them.
 */
module Fleet {
  import opened Common

  // Durations and instants are counted in nanoseconds.
  const BATCH_LIMIT: nat := 10
  const BATCH_TARGET: nat := 3_000_000_000
  const OVERDUE_FLOOR: nat := 10_000_000_000

  datatype LeaseState = Queued | Building | Running

  datatype Lease = Lease(task: nat, worker: nat, issued: int, started: Option<int>, state: LeaseState)

  datatype Worker = Worker(
    leader: bool, slots: nat, connected: bool, error: string,
    completed: nat, cached: nat, failed: nat, duration: nat,
    binaries: set<string>, leases: set<nat>)

  datatype Task = Task(pkg: nat, test: string, estimate: nat, done: bool, leases: set<nat>)

  /** Every package is linked once, so its test binary has one hash for the whole run. */
  datatype Package = Package(hash: string, numFails: nat, runIn: nat)

  /** What a reported test execution ran. */
  datatype Execution = Execution(pkg: nat, test: string, hash: string)

  datatype WorkerResult = WorkerResult(
    lease: nat, passed: bool, cached: bool, duration: nat, cacheChecks: nat,
    error: string, infra: bool, ran: Option<Execution>)

  datatype Commit = Commit(task: nat, worker: nat, result: WorkerResult)

  datatype Loop = Checking | Waiting | Exited

  datatype State = State(
    workers: seq<Worker>, work: seq<Task>, leases: map<nat, Lease>, nextID: nat,
    ready: bool, stopped: bool, cancelled: bool, failFast: bool, done: nat,
    pkgs: seq<Package>, cacheHits: nat, cacheChecks: nat, infra: seq<string>,
    commits: seq<Commit>,          // history variable: the results committed, in order
    wake: bool, notifies: nat,     // the one-token channel, and notify calls not yet made
    loop: Loop)

  /** What a helper reports about a lease it holds; `Other` is any state the leader ignores. */
  datatype Report = Reported(state: LeaseState) | Other

  datatype Request = Request(active: map<nat, Report>, binaries: set<string>, results: seq<WorkerResult>)

  datatype Work = Work(lease: nat, pkg: nat, test: string, binary: string)

  datatype Response = Response(work: seq<Work>, cancel: set<nat>, done: bool, error: string)

  function Initial(failFast: bool): State {
    State([], [], map[], 0, false, false, false, failFast, 0, [], 0, 0, [], [], false, 0, Checking)
  }

  // ------------------------------------------------------------------------------------------
  // Elementary edits
  // ------------------------------------------------------------------------------------------

  function DropFromWorkers(ws: seq<Worker>, ids: set<nat>): (r: seq<Worker>)
    ensures |r| == |ws|
  {
    seq(|ws|, i requires 0 <= i < |ws| => ws[i].(leases := ws[i].leases - ids))
  }

  function DropFromWork(ts: seq<Task>, ids: set<nat>): (r: seq<Task>)
    ensures |r| == |ts|
  {
    seq(|ts|, i requires 0 <= i < |ts| => ts[i].(leases := ts[i].leases - ids))
  }

  /** Revokes a set of leases in all three maps. */
  function RemoveLeases(s: State, ids: set<nat>): State {
    s.(leases := s.leases - ids,
       workers := DropFromWorkers(s.workers, ids),
       work := DropFromWork(s.work, ids))
  }

  /** Leases task `t` to worker `w` under the next number. */
  function AddLease(s: State, w: nat, t: nat, now: int): State
    requires w < |s.workers| && t < |s.work|
  {
    var id := s.nextID + 1;
    s.(nextID := id,
       leases := s.leases[id := Lease(t, w, now, None, Queued)],
       workers := s.workers[w := s.workers[w].(leases := s.workers[w].leases + {id})],
       work := s.work[t := s.work[t].(leases := s.work[t].leases + {id})])
  }

  function BinaryOf(s: State, t: nat): string
    requires t < |s.work| && s.work[t].pkg < |s.pkgs|
  {
    s.pkgs[s.work[t].pkg].hash
  }

  /** The wire form of the lease that AddLease is about to create. */
  function WorkOf(s: State, t: nat): Work
    requires t < |s.work| && s.work[t].pkg < |s.pkgs|
  {
    Work(s.nextID + 1, s.work[t].pkg, s.work[t].test, BinaryOf(s, t))
  }

  function Credit(w: Worker, r: WorkerResult): Worker {
    w.(completed := w.completed + 1,
       duration := w.duration + r.duration,
       cached := w.cached + (if r.cached then 1 else 0),
       failed := w.failed + (if r.passed then 0 else 1))
  }

  function Charge(p: Package, r: WorkerResult): Package {
    p.(numFails := p.numFails + (if r.passed then 0 else 1), runIn := p.runIn + r.duration)
  }

  /** Marks task `t` done with result `r`, before its leases are revoked. */
  function Book(s: State, w: nat, t: nat, r: WorkerResult): State
    requires w < |s.workers| && t < |s.work| && s.work[t].pkg < |s.pkgs|
  {
    s.(workers := s.workers[w := Credit(s.workers[w], r)],
       work := s.work[t := s.work[t].(done := true)],
       pkgs := s.pkgs[s.work[t].pkg := Charge(s.pkgs[s.work[t].pkg], r)],
       done := s.done + 1,
       cacheChecks := s.cacheChecks + r.cacheChecks,
       cacheHits := s.cacheHits + (if r.cached then 1 else 0),
       infra := if r.infra then s.infra + [r.error] else s.infra,
       commits := s.commits + [Commit(t, w, r)],
       cancelled := s.cancelled || (s.failFast && !r.passed),
       notifies := s.notifies + 1)
  }

  // ------------------------------------------------------------------------------------------
  // The choice of the next task
  // ------------------------------------------------------------------------------------------

  function Overdue(estimate: nat): nat {
    Max(OVERDUE_FLOOR, 3 * estimate)
  }

  predicate Fresh(s: State, i: int) {
    0 <= i < |s.work| && !s.work[i].done && s.work[i].leases == {}
  }

  /** How many unleased tasks precede position `i` of the queue. */
  function FreshBefore(s: State, i: nat): nat {
    if i == 0 then 0 else FreshBefore(s, i - 1) + (if Fresh(s, i - 1) then 1 else 0)
  }

  /** Worker `w` has the binary of task `i`, which is within 20% of the estimate `m`. */
  predicate Warm(s: State, w: nat, i: nat, m: nat)
    requires w < |s.workers| && i < |s.work| && s.work[i].pkg < |s.pkgs|
  {
    BinaryOf(s, i) in s.workers[w].binaries && s.work[i].estimate >= m - m / 5
  }

  ghost predicate FirstFresh(s: State, f: nat) {
    Fresh(s, f) && forall j | 0 <= j < f :: !Fresh(s, j)
  }

  predicate PkgsKnown(s: State) {
    forall t | 0 <= t < |s.work| :: s.work[t].pkg < |s.pkgs|
  }

  /** Among the first five unleased tasks: the first warm one, or else the head `f` of the queue. */
  ghost predicate FreshChoice(s: State, w: nat, f: nat, t: nat)
    requires w < |s.workers| && PkgsKnown(s)
  {
    && FirstFresh(s, f) && Fresh(s, t) && f <= t && FreshBefore(s, t) < 5
    && var m := s.work[f].estimate;
       || (Warm(s, w, t, m) && forall j | f <= j < t && Fresh(s, j) :: !Warm(s, w, j, m))
       || (t == f && forall j | 0 <= j < |s.work| && Fresh(s, j) && FreshBefore(s, j) < 5 :: !Warm(s, w, j, m))
  }

  /** Task `t` has one lease, held by another worker and overdue. */
  ghost predicate Speculative(s: State, w: nat, now: int, t: nat) {
    && t < |s.work| && !s.work[t].done && |s.work[t].leases| == 1
    && forall id | id in s.work[t].leases ::
         id in s.leases && s.leases[id].worker != w && now - s.leases[id].issued > Overdue(s.work[t].estimate)
  }

  ghost predicate AnyFresh(s: State) {
    exists i :: Fresh(s, i)
  }

  /** What nextLocked returns. */
  ghost predicate NextChoice(s: State, w: nat, now: int, choice: Option<nat>)
    requires w < |s.workers| && PkgsKnown(s)
  {
    if AnyFresh(s) then
      choice.Some? && exists f: nat :: FreshChoice(s, w, f, choice.value)
    else
      match choice
      case None => forall t :: !Speculative(s, w, now, t)
      case Some(t) => Speculative(s, w, now, t) && forall j | 0 <= j < t :: !Speculative(s, w, now, j)
  }

  ghost function EstimateOf(s: State): nat -> nat {
    id => if id in s.leases && s.leases[id].task < |s.work| then s.work[s.leases[id].task].estimate else 0
  }

  /** The summed estimates of the leases worker `w` holds. */
  ghost function Held(s: State, w: nat): nat
    requires w < |s.workers|
  {
    SetSum(s.workers[w].leases, EstimateOf(s))
  }

  ghost predicate Room(s: State, w: nat)
    requires w < |s.workers|
  {
    !(|s.workers[w].leases| >= s.workers[w].slots && Held(s, w) >= BATCH_TARGET * s.workers[w].slots)
  }

  predicate MayAssign(s: State, w: nat)
    requires w < |s.workers|
  {
    s.ready && !s.stopped && !s.cancelled && s.workers[w].error == ""
  }

  /** assignLocked stops here: the batch is full, the worker is busy, or no task is left for it. */
  ghost predicate Stops(s: State, w: nat, limit: int, now: int)
    requires w < |s.workers| && PkgsKnown(s)
  {
    limit <= 0 || !Room(s, w) || NextChoice(s, w, now, None)
  }

  /** assignLocked leases task `t` next. */
  ghost predicate Takes(s: State, w: nat, now: int, t: nat)
    requires w < |s.workers| && PkgsKnown(s)
  {
    Room(s, w) && NextChoice(s, w, now, Some(t)) && t < |s.work|
  }

  /** Leasing `picks` to `w` one after the other is what assignLocked does with this limit. */
  ghost predicate Batch(s: State, w: nat, limit: int, now: int, picks: seq<nat>)
    requires w < |s.workers| && PkgsKnown(s)
    decreases |picks|
  {
    if picks == [] then
      Stops(s, w, limit, now)
    else
      limit > 0 && Takes(s, w, now, picks[0]) && Batch(AddLease(s, w, picks[0], now), w, limit - 1, now, picks[1..])
  }

  predicate InQueue(s: State, picks: seq<nat>) {
    forall i | 0 <= i < |picks| :: picks[i] < |s.work|
  }

  function AddLeases(s: State, w: nat, now: int, picks: seq<nat>): (r: State)
    requires w < |s.workers| && InQueue(s, picks)
    ensures |r.workers| == |s.workers| && |r.work| == |s.work| && r.pkgs == s.pkgs
    ensures PkgsKnown(s) ==> PkgsKnown(r)
    decreases |picks|
  {
    if picks == [] then s else AddLeases(AddLease(s, w, picks[0], now), w, now, picks[1..])
  }

  function Works(s: State, w: nat, now: int, picks: seq<nat>): (r: seq<Work>)
    requires w < |s.workers| && PkgsKnown(s) && InQueue(s, picks)
    decreases |picks|
  {
    if picks == [] then []
    else [WorkOf(s, picks[0])] + Works(AddLease(s, w, picks[0], now), w, now, picks[1..])
  }

  // ------------------------------------------------------------------------------------------
  // Transitions
  // ------------------------------------------------------------------------------------------

  function AddWorker(s: State, slots: nat, leader: bool): State {
    s.(workers := s.workers + [Worker(leader, slots, true, "", 0, 0, 0, 0, {}, {})])
  }

  function Disconnect(s: State, w: nat, error: string): State
    requires w < |s.workers|
  {
    var gone := s.workers[w].(connected := false, error := if error == "" then s.workers[w].error else error);
    RemoveLeases(s.(workers := s.workers[w := gone], notifies := s.notifies + 1), s.workers[w].leases)
  }

  /** A result is late, duplicated or revoked, or the run is over. */
  predicate Ignored(s: State, w: nat, r: WorkerResult)
    requires w < |s.workers|
  {
    || r.lease !in s.workers[w].leases
    || (r.lease in s.leases && s.leases[r.lease].task < |s.work| && s.work[s.leases[r.lease].task].done)
    || s.stopped || s.cancelled
  }

  /** A helper that cannot execute loses all its leases; another machine gets the work. */
  function GiveUp(s: State, w: nat, error: string): State
    requires w < |s.workers|
  {
    var bad := s.workers[w].(error := if error == "" then "helper execution error" else error);
    RemoveLeases(s.(workers := s.workers[w := bad], notifies := s.notifies + 1), s.workers[w].leases)
  }

  /** Books the result and revokes every lease of the task, this one and any other copy. */
  function Finish(s: State, w: nat, t: nat, r: WorkerResult): State
    requires w < |s.workers| && t < |s.work| && s.work[t].pkg < |s.pkgs|
  {
    RemoveLeases(Book(s, w, t, r), s.work[t].leases)
  }

  function Accept(s: State, w: nat, r: WorkerResult): State
    requires w < |s.workers| && Linked(s)
  {
    if Ignored(s, w, r) then s
    else if r.infra && !s.workers[w].leader then GiveUp(s, w, r.error)
    else Finish(s, w, s.leases[r.lease].task, r)
  }

  function ReportLease(l: Lease, p: Report, now: int): Lease {
    match p
    case Other => l
    case Reported(st) =>
      l.(state := st, started := if st == Running && l.started.None? then Some(now) else l.started)
  }

  /** The heartbeat half of exchange: new binaries, and the reported state of each live lease. */
  function Heartbeat(s: State, w: nat, req: Request, now: int): State
    requires w < |s.workers|
  {
    s.(workers := s.workers[w := s.workers[w].(binaries := s.workers[w].binaries + req.binaries)],
       leases := map id | id in s.leases ::
         if id in s.workers[w].leases && id in req.active
         then ReportLease(s.leases[id], req.active[id], now) else s.leases[id])
  }

  predicate RunOver(s: State) {
    s.stopped || s.cancelled || (s.ready && s.done == |s.work|)
  }

  function ExchangeLimit(s: State, w: nat): int
    requires w < |s.workers|
  {
    Min(BATCH_LIMIT, s.workers[w].slots + BATCH_LIMIT - |s.workers[w].leases|)
  }

  predicate Assigns(s: State, w: nat)
    requires w < |s.workers|
  {
    !RunOver(s) && s.workers[w].error == "" && MayAssign(s, w)
  }

  /** The tail of exchange, after every result of the request was accepted. */
  function ExchangeTail(s: State, w: nat, req: Request, now: int, picks: seq<nat>): (State, Response)
    requires w < |s.workers| && PkgsKnown(s) && InQueue(s, picks)
  {
    var beat := Heartbeat(s, w, req, now);
    var cancel := set id | id in req.active && id !in s.workers[w].leases;
    (AddLeases(beat, w, now, picks),
     Response(Works(beat, w, now, picks), cancel, RunOver(s), s.workers[w].error))
  }

  ghost predicate TailPicks(s: State, w: nat, req: Request, now: int, picks: seq<nat>)
    requires w < |s.workers| && PkgsKnown(s)
  {
    var beat := Heartbeat(s, w, req, now);
    if Assigns(s, w) then Batch(beat, w, ExchangeLimit(s, w), now, picks) else picks == []
  }

  /** A local slot leases one task and starts it at once. */
  function LocalAssign(s: State, w: nat, now: int, begun: int, t: nat): State
    requires w < |s.workers| && t < |s.work|
  {
    var a := AddLease(s, w, t, now);
    a.(leases := a.leases[a.nextID := Lease(t, w, now, Some(begun), Running)])
  }

  ghost predicate Sorted(work: seq<Task>) {
    forall i, j | 0 <= i < j < |work| :: work[i].estimate >= work[j].estimate
  }

  datatype Event =
    | EAddWorker(slots: nat, leader: bool)
    | EStart(work: seq<Task>, pkgs: seq<Package>, w: nat)
    | EAccept(w: nat, r: WorkerResult)
    | EExchange(w: nat, req: Request, now: int, picks: seq<nat>)
    | EDisconnect(w: nat, error: string)
    | ELocalAssign(w: nat, now: int, begun: int, t: nat)
    | EStop
    | EShutdown
    | ECancel
    | ENotify
    | ELoopCheck
    | ELoopWake(token: bool)

  ghost predicate Enabled(s: State, e: Event) {
    match e
    case EAddWorker(_, _) => true
    case EStart(work, pkgs, w) =>
      && !s.ready && w < |s.workers| && s.workers[w].leader && Sorted(work)
      && (forall t | 0 <= t < |work| :: work[t].pkg < |pkgs| && !work[t].done && work[t].leases == {})
      && (forall p | 0 <= p < |pkgs| :: pkgs[p].numFails == 0 && pkgs[p].runIn == 0)
    case EAccept(w, r) => w < |s.workers| && Linked(s)
    case EExchange(w, req, now, picks) =>
      && w < |s.workers| && !s.workers[w].leader && PkgsKnown(s) && InQueue(s, picks)
      && TailPicks(s, w, req, now, picks)
    case EDisconnect(w, _) => w < |s.workers|
    case ELocalAssign(w, now, begun, t) =>
      && w < |s.workers| && s.workers[w].leader && t < |s.work| && PkgsKnown(s)
      && Assigns(s, w) && Batch(s, w, 1, now, [t])
    case EStop => s.loop == Exited
    case EShutdown => true
    case ECancel => true
    case ENotify => s.notifies > 0
    case ELoopCheck => s.ready && s.loop == Checking
    case ELoopWake(token) => s.loop == Waiting && (if token then s.wake else s.cancelled)
  }

  function Apply(s: State, e: Event): State
    requires Enabled(s, e)
  {
    match e
    case EAddWorker(slots, leader) => AddWorker(s, slots, leader)
    case EStart(work, pkgs, w) =>
      s.(work := work, pkgs := pkgs, ready := true,
         workers := s.workers[w := s.workers[w].(
           binaries := s.workers[w].binaries + set t | 0 <= t < |work| :: pkgs[work[t].pkg].hash)])
    case EAccept(w, r) => Accept(s, w, r)
    case EExchange(w, req, now, picks) => ExchangeTail(s, w, req, now, picks).0
    case EDisconnect(w, error) => Disconnect(s, w, error)
    case ELocalAssign(w, now, begun, t) => LocalAssign(s, w, now, begun, t)
    case EStop => RemoveLeases(s.(stopped := true), s.leases.Keys)
    case EShutdown => s.(stopped := true)
    case ECancel => s.(cancelled := true)
    case ENotify => s.(wake := true, notifies := s.notifies - 1)
    case ELoopCheck => s.(loop := if s.done == |s.work| || s.cancelled then Exited else Waiting)
    case ELoopWake(token) => s.(loop := Checking, wake := s.wake && !token)
  }

  ghost predicate Legal(s: State, events: seq<Event>)
    decreases |events|
  {
    events != [] ==> Enabled(s, events[0]) && Legal(Apply(s, events[0]), events[1..])
  }

  /** The state after a run. */
  ghost function Run(s: State, events: seq<Event>): State
    requires Legal(s, events)
    decreases |events|
  {
    if events == [] then s else Run(Apply(s, events[0]), events[1..])
  }

  // ------------------------------------------------------------------------------------------
  // Invariants
  // ------------------------------------------------------------------------------------------

  /** The fleet's, the workers' and the tasks' lease maps describe the same set of leases. */
  ghost predicate Linked(s: State) {
    && PkgsKnown(s)
    && (forall id | id in s.leases ::
          && 1 <= id <= s.nextID
          && s.leases[id].worker < |s.workers| && s.leases[id].task < |s.work|
          && id in s.workers[s.leases[id].worker].leases && id in s.work[s.leases[id].task].leases)
    && (forall w, id | 0 <= w < |s.workers| && id in s.workers[w].leases :: id in s.leases && s.leases[id].worker == w)
    && (forall t, id | 0 <= t < |s.work| && id in s.work[t].leases :: id in s.leases && s.leases[id].task == t)
  }

  /** Two assignment times so far apart that the later lease is a speculative copy. */
  predicate FarApart(a: Lease, b: Lease, estimate: nat) {
    a.worker != b.worker && (a.issued - b.issued > Overdue(estimate) || b.issued - a.issued > Overdue(estimate))
  }

  /** Task `t` has at most two live leases, on different workers, one issued when the other was overdue. */
  ghost predicate PairedIn(s: State, t: nat)
    requires t < |s.work|
  {
    && |s.work[t].leases| <= 2
    && (forall a, b | a in s.work[t].leases && b in s.work[t].leases && a != b ::
          a in s.leases && b in s.leases && FarApart(s.leases[a], s.leases[b], s.work[t].estimate))
  }

  ghost predicate Paired(s: State) {
    forall t | 0 <= t < |s.work| :: PairedIn(s, t)
  }

  /** Finished tasks and failed workers hold no leases. */
  ghost predicate Quiet(s: State) {
    && (forall t | 0 <= t < |s.work| :: s.work[t].done ==> s.work[t].leases == {})
    && (forall w | 0 <= w < |s.workers| :: s.workers[w].error != "" ==> s.workers[w].leases == {})
  }

  ghost predicate LeaseInv(s: State) {
    Linked(s) && Paired(s) && Quiet(s)
  }
}
