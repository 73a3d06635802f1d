/**
  The helper's event loop: leases queue up, at most `slots` of them run at a time, and one
  exchange with the leader is in flight while they do.

  A leased execution is an object in the program; here it is a position in `execs`, so that the
  loop's comparison of an execution with the active one for its lease compares identities.
 */
module Helpers {
  import opened Common
  import opened Fleet

  datatype Exec = Exec(work: Work, state: LeaseState, cancelled: bool)

  /** A job's progress, up to the moment the loop reaps its result. */
  datatype Stage = Preparing | Prepared(hash: string) | Ended(result: WorkerResult)

  datatype ReadyMsg = ReadyMsg(lease: nat, hash: string)

  datatype Helper = Helper(
    slots: nat, execs: seq<Exec>, active: map<nat, nat>, queue: seq<nat>,
    running: nat, jobs: map<nat, Stage>, readies: seq<ReadyMsg>,
    pending: seq<WorkerResult>, binaries: set<string>, bins: map<nat, string>,
    dirty: bool, inFlight: bool, over: bool)

  function NewHelper(slots: nat): Helper {
    Helper(slots, [], map[], [], 0, map[], [], [], {}, map[], true, false, false)
  }

  // ------------------------------------------------------------------------------------------
  // The turns of the loop
  // ------------------------------------------------------------------------------------------

  /** Execution `e` is still the one its lease stands for. */
  predicate IsActive(h: Helper, e: nat) {
    e < |h.execs| && h.execs[e].work.lease in h.active && h.active[h.execs[e].work.lease] == e
  }

  /** Takes the head of the queue: it gets a slot unless it was cancelled while queued. */
  function StartOne(h: Helper): (g: Helper)
    requires h.queue != []
    ensures g.queue == h.queue[1..]
  {
    var e, rest := h.queue[0], h.queue[1..];
    if IsActive(h, e) then
      h.(queue := rest, running := h.running + 1, jobs := h.jobs[e := Preparing],
         execs := h.execs[e := h.execs[e].(state := Building)])
    else h.(queue := rest)
  }

  /** Fills the free slots from the queue. */
  function Start(h: Helper): Helper
    decreases |h.queue|
  {
    if h.running < h.slots && h.queue != [] then Start(StartOne(h)) else h
  }

  /** What the helper tells the leader about each active lease. */
  function ActiveReport(h: Helper): map<nat, Report> {
    map id | id in h.active :: if h.active[id] < |h.execs| then Reported(h.execs[h.active[id]].state) else Other
  }

  function SendRequest(h: Helper): (Helper, Request) {
    (h.(pending := [], binaries := {}, dirty := false, inFlight := true),
     Request(ActiveReport(h), h.binaries, h.pending))
  }

  function Cancel(h: Helper, ids: set<nat>): Helper {
    h.(active := h.active - ids,
       execs := seq(|h.execs|, i requires 0 <= i < |h.execs| =>
         if IsActive(h, i) && h.execs[i].work.lease in ids then h.execs[i].(cancelled := true) else h.execs[i]))
  }

  function Enqueue(h: Helper, work: Work): Helper {
    h.(execs := h.execs + [Exec(work, Queued, false)],
       active := h.active[work.lease := |h.execs|],
       queue := h.queue + [|h.execs|])
  }

  function EnqueueAll(h: Helper, works: seq<Work>): Helper
    decreases |works|
  {
    if works == [] then h else EnqueueAll(Enqueue(h, works[0]), works[1..])
  }

  function Receive(h: Helper, res: Response): Helper {
    var g := h.(inFlight := false);
    if res.error != "" || res.done then g.(over := true)
    else Start(EnqueueAll(Cancel(g, res.cancel), res.work))
  }

  function OnReady(h: Helper): Helper
    requires h.readies != []
  {
    var m := h.readies[0];
    h.(readies := h.readies[1..], binaries := h.binaries + {m.hash}, dirty := true,
       execs := if m.lease in h.active && h.active[m.lease] < |h.execs|
                then h.execs[h.active[m.lease] := h.execs[h.active[m.lease]].(state := Running)] else h.execs)
  }

  /** The helper without a finished job; the result is reported only if its lease is still active. */
  function Reaped(h: Helper, e: nat): Helper
    requires e in h.jobs && h.jobs[e].Ended? && h.running > 0
  {
    var r := h.jobs[e].result;
    var g := h.(running := h.running - 1, jobs := h.jobs - {e}, dirty := true);
    if r.lease in h.active then g.(active := h.active - {r.lease}, pending := h.pending + [r]) else g
  }

  /** Reaps a finished job and gives its slot away. */
  function Reap(h: Helper, e: nat): Helper
    requires e in h.jobs && h.jobs[e].Ended? && h.running > 0
  {
    Start(Reaped(h, e))
  }

  // ------------------------------------------------------------------------------------------
  // A job: prepare the package's binary, then run the test
  // ------------------------------------------------------------------------------------------

  const BLANK: WorkerResult := WorkerResult(0, false, false, 0, 0, "", false, None)

  /** The binary of a package: the one kept from before, whatever its hash, or a build with the leader's hash. */
  function Binary(h: Helper, work: Work, built: Option<string>): Option<string> {
    if work.pkg in h.bins then Some(h.bins[work.pkg])
    else if built == Some(work.binary) then built
    else None
  }

  /** Where preparing leaves the job: a mismatch ends it, a cancellation ends it unreported. */
  function PrepareStage(x: Exec, binary: Option<string>): Stage {
    match binary
    case None => Ended(BLANK.(lease := x.work.lease, infra := true, error := "binary"))
    case Some(hash) => if x.cancelled then Ended(BLANK.(lease := x.work.lease)) else Prepared(hash)
  }

  function Prepare(h: Helper, e: nat, built: Option<string>): Helper
    requires e in h.jobs && e < |h.execs|
  {
    var x := h.execs[e];
    var binary := Binary(h, x.work, built);
    var stage := PrepareStage(x, binary);
    h.(jobs := h.jobs[e := stage],
       bins := if binary.Some? then h.bins[x.work.pkg := binary.value] else h.bins,
       readies := h.readies + if stage.Prepared? then [ReadyMsg(x.work.lease, stage.hash)] else [])
  }

  /** Runs the test with any outcome; the result names what was run. */
  function Execute(h: Helper, e: nat, outcome: WorkerResult): Helper
    requires e in h.jobs && h.jobs[e].Prepared? && e < |h.execs|
  {
    var work := h.execs[e].work;
    var ran := if outcome.infra then None else Some(Execution(work.pkg, work.test, h.jobs[e].hash));
    var r := outcome.(lease := work.lease, ran := ran);
    h.(jobs := h.jobs[e := Ended(r)])
  }

  // ------------------------------------------------------------------------------------------
  // Discipline of the loop
  // ------------------------------------------------------------------------------------------

  /** `running` counts the unreaped jobs, of which there are no more than slots. */
  ghost predicate Counted(h: Helper) {
    h.running == |h.jobs| <= h.slots && forall e | e in h.jobs :: e < |h.execs|
  }

  /** The queue holds each execution at most once, and none that has a job. */
  ghost predicate Lined(h: Helper) {
    && (forall i | 0 <= i < |h.queue| :: h.queue[i] < |h.execs| && h.queue[i] !in h.jobs)
    && (forall i, j | 0 <= i < j < |h.queue| :: h.queue[i] != h.queue[j])
  }

  /** Every active lease is queued or has an unreaped job. */
  ghost predicate Placed(h: Helper) {
    forall id | id in h.active ::
      && h.active[id] < |h.execs| && h.execs[h.active[id]].work.lease == id
      && (h.active[id] in h.jobs || h.active[id] in h.queue)
  }

  ghost predicate Slotted(h: Helper) {
    Counted(h) && Lined(h) && Placed(h)
  }

  ghost predicate Saturated(h: Helper) {
    h.running == h.slots || h.queue == []
  }

  /** What the execution of `work` on the leader's binary for its package reports. */
  function Genuine(work: Work): Execution {
    Execution(work.pkg, work.test, work.binary)
  }

  /** Each lease has one execution, and every binary in use is the leader's. */
  ghost predicate Faithful(h: Helper, hash: nat -> string) {
    && (forall i, j | 0 <= i < j < |h.execs| :: h.execs[i].work.lease != h.execs[j].work.lease)
    && (forall i | 0 <= i < |h.execs| :: h.execs[i].work.binary == hash(h.execs[i].work.pkg))
    && (forall p | p in h.bins :: h.bins[p] == hash(p))
    && (forall id | id in h.active && h.active[id] < |h.execs| :: !h.execs[h.active[id]].cancelled)
    && (forall e | e in h.jobs && e < |h.execs| :: JobFaithful(h.execs[e], h.jobs[e]))
  }

  predicate JobFaithful(x: Exec, stage: Stage) {
    match stage
    case Preparing => true
    case Prepared(hash) => hash == x.work.binary
    case Ended(r) => r.lease == x.work.lease && (r.infra || x.cancelled || r.ran == Some(Genuine(x.work)))
  }

  /** A result that may be reported: an infrastructure error, or a genuine execution of its lease's test. */
  predicate Reportable(h: Helper, r: WorkerResult) {
    exists e :: 0 <= e < |h.execs| && h.execs[e].work.lease == r.lease && (r.infra || r.ran == Some(Genuine(h.execs[e].work)))
  }

  ghost predicate AllReportable(h: Helper, rs: seq<WorkerResult>) {
    forall i | 0 <= i < |rs| :: Reportable(h, rs[i])
  }
}
