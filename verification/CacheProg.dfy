/**
  Request multiplexing for a GOCACHEPROG helper: many requests share one connection, each waits on
  a channel of its own, and one reader hands out the responses.
 */
module CacheProg {
  import opened Common

  datatype Response = Response(id: nat, body: string)

  /** A waiter's channel with room for one response; the other fields are its history. */
  datatype Chan = Chan(
    buffer: Option<Response>,
    sent: nat, closed: nat,        // how often it was sent to and closed
    given: Option<Response>)       // what was sent to it last

  /** The reader between two responses, between unlocking and handing one over, or stopped by an error. */
  datatype Reader = Idle | Holding(chan: nat, res: Response) | Done

  /** `ids` remembers the request each channel was made for. */
  datatype Client = Client(
    nextID: nat, pending: map<nat, nat>, chans: seq<Chan>, ids: seq<nat>, readErr: bool, reader: Reader)

  const FRESH: Chan := Chan(None, 0, 0, None)

  function NewClient(): Client {
    Client(0, map[], [], [], false, Idle)
  }

  // ------------------------------------------------------------------------------------------
  // The critical sections
  // ------------------------------------------------------------------------------------------

  function Register(c: Client): Client {
    c.(nextID := c.nextID + 1, pending := c.pending[c.nextID + 1 := |c.chans|],
       chans := c.chans + [FRESH], ids := c.ids + [c.nextID + 1])
  }

  /** A request that could not be written waits no longer. */
  function Abandon(c: Client, id: nat): Client {
    c.(pending := c.pending - {id})
  }

  /** The reader looks up the waiter of a response; an unknown or repeated ID has none. */
  function Take(c: Client, res: Response): Client {
    if res.id in c.pending
    then c.(pending := c.pending - {res.id}, reader := Holding(c.pending[res.id], res))
    else c
  }

  function Filled(x: Chan, res: Response): Chan {
    x.(buffer := Some(res), sent := x.sent + 1, given := Some(res))
  }

  function Hand(c: Client): Client
    requires c.reader.Holding? && c.reader.chan < |c.chans|
  {
    var h := c.reader.chan;
    c.(chans := c.chans[h := Filled(c.chans[h], c.reader.res)], reader := Idle)
  }

  predicate IsPending(c: Client, h: nat) {
    h < |c.ids| && c.ids[h] in c.pending && c.pending[c.ids[h]] == h
  }

  /** The connection is gone: every waiter still registered is released. */
  function BreakOff(c: Client): Client {
    c.(readErr := true, reader := Done, pending := map[],
       chans := seq(|c.chans|, h requires 0 <= h < |c.chans| =>
         if IsPending(c, h) then c.chans[h].(closed := c.chans[h].closed + 1) else c.chans[h]))
  }

  function Receive(c: Client, h: nat): Client
    requires h < |c.chans|
  {
    c.(chans := c.chans[h := c.chans[h].(buffer := None)])
  }

  // ------------------------------------------------------------------------------------------
  // What they keep
  // ------------------------------------------------------------------------------------------

  ghost predicate Numbered(c: Client) {
    && |c.ids| == |c.chans|
    && (forall h | 0 <= h < |c.ids| :: 1 <= c.ids[h] <= c.nextID)
    && (forall h, k | 0 <= h < k < |c.ids| :: c.ids[h] != c.ids[k])
  }

  /** A registered channel is untouched and belongs to its ID. */
  ghost predicate Registered(c: Client) {
    forall id | id in c.pending :: c.pending[id] < |c.chans| && c.pending[id] < |c.ids| && c.ids[c.pending[id]] == id && c.chans[c.pending[id]] == FRESH
  }

  /** A channel is sent to once or closed once, never both, and holds only its own response. */
  ghost predicate ChanOk(x: Chan, id: nat) {
    && x.sent + x.closed <= 1 && (x.buffer.Some? ==> x.given == x.buffer)
    && (x.given.Some? <==> x.sent == 1) && (x.given.Some? ==> x.given.value.id == id)
  }

  ghost predicate ChansOk(c: Client) {
    forall h | 0 <= h < |c.chans| && h < |c.ids| :: ChanOk(c.chans[h], c.ids[h])
  }

  /** What the reader holds is for an untouched channel that nobody else can reach. */
  ghost predicate ReaderOk(c: Client) {
    && (c.readErr <==> c.reader == Done) && (c.readErr ==> c.pending == map[])
    && (c.reader.Holding? ==>
          var h := c.reader.chan;
          h < |c.chans| && h < |c.ids| && c.ids[h] == c.reader.res.id && c.chans[h] == FRESH && c.ids[h] !in c.pending)
  }

  ghost predicate ClientInv(c: Client) {
    Numbered(c) && Registered(c) && ChansOk(c) && ReaderOk(c)
  }

  lemma RegisterKeeps(c: Client)
    requires ClientInv(c) && !c.readErr
    ensures ClientInv(Register(c)) && !Register(c).readErr
  {
  }

  lemma AbandonKeeps(c: Client, id: nat)
    requires ClientInv(c)
    ensures ClientInv(Abandon(c, id))
  {
  }

  lemma TakeKeeps(c: Client, res: Response)
    requires ClientInv(c) && c.reader == Idle
    ensures ClientInv(Take(c, res))
  {
  }

  /** The reader never blocks and never sends on a closed channel. */
  lemma HandKeeps(c: Client)
    requires ClientInv(c) && c.reader.Holding?
    ensures c.reader.chan < |c.chans| && c.chans[c.reader.chan] == FRESH && ClientInv(Hand(c))
  {
  }

  lemma BreakOffKeeps(c: Client)
    requires ClientInv(c) && c.reader == Idle
    ensures ClientInv(BreakOff(c))
  {
  }

  lemma ReceiveKeeps(c: Client, h: nat)
    requires ClientInv(c) && h < |c.chans| && (c.chans[h].buffer.Some? || c.chans[h].closed > 0)
    ensures ClientInv(Receive(c, h))
  {
  }

  // ------------------------------------------------------------------------------------------
  // The shim in front of it
  // ------------------------------------------------------------------------------------------

  /** A forwarded request; `h` is the channel its send waits on. */
  datatype Phase =
    | New
    | Writing(h: nat)
    | Waiting(h: nat)
    | Finished(from: Option<nat>, r: Result<Response, string>)
    | Replied(from: Option<nat>, r: Result<Response, string>)

  datatype Task = Task(orig: int, phase: Phase)

  /** A line written back to cmd/go: the reply to a task, or to the close request. */
  datatype Reply = Reply(id: int, task: Option<nat>, r: Result<Response, string>)

  datatype Shim = Shim(client: Client, tasks: seq<Task>, out: seq<Reply>, closing: Option<int>)

  datatype Step =
    | Arrive(orig: int)                                // cmd/go sends a request
    | Answer(t: nat, r: Result<Response, string>)      // not sent on: unsupported, or the connection is gone
    | Begin(t: nat)                                    // send registers
    | Wrote(t: nat)
    | WriteFailed(t: nat)
    | Read(res: Response)                              // any response at all arrives
    | HandOver
    | Break
    | Return(t: nat)                                   // send returns what its channel has
    | GiveUp(t: nat)                                   // its context is done
    | Write(t: nat)                                    // the reply goes to cmd/go
    | Close(orig: int)
    | CloseReply

  ghost predicate Waits(s: Shim, t: nat) {
    t < |s.tasks| && s.tasks[t].phase.Waiting? && s.tasks[t].phase.h < |s.client.chans|
  }

  ghost predicate CanStep(s: Shim, x: Step) {
    match x
    case Arrive(_) => s.closing.None?
    case Answer(t, r) => t < |s.tasks| && s.tasks[t].phase == New
    case Begin(t) => t < |s.tasks| && s.tasks[t].phase == New && !s.client.readErr
    case Wrote(t) => t < |s.tasks| && s.tasks[t].phase.Writing?
    case WriteFailed(t) => t < |s.tasks| && s.tasks[t].phase.Writing? && s.tasks[t].phase.h < |s.client.ids|
    case Read(_) => s.client.reader == Idle
    case HandOver => s.client.reader.Holding? && s.client.reader.chan < |s.client.chans|
    case Break => s.client.reader == Idle
    case Return(t) => Waits(s, t) && (s.client.chans[s.tasks[t].phase.h].buffer.Some? || s.client.chans[s.tasks[t].phase.h].closed > 0)
    case GiveUp(t) => Waits(s, t)
    case Write(t) => t < |s.tasks| && s.tasks[t].phase.Finished?
    case Close(_) => s.closing.None?
    case CloseReply =>
      && s.closing.Some? && (forall t | 0 <= t < |s.tasks| :: s.tasks[t].phase.Replied?)
      && !(s.out != [] && s.out[|s.out| - 1].task.None?)
  }

  function Turn(s: Shim, t: nat, p: Phase): Shim
    requires t < |s.tasks|
  {
    s.(tasks := s.tasks[t := s.tasks[t].(phase := p)])
  }

  /** What send returns for a channel: its response, whose own error comes first, or the read error. */
  function Got(x: Chan): Result<Response, string> {
    if x.buffer.Some? then Ok(x.buffer.value) else Err("read error")
  }

  function StepOf(s: Shim, x: Step): Shim
    requires CanStep(s, x)
  {
    match x
    case Arrive(orig) => s.(tasks := s.tasks + [Task(orig, New)])
    case Answer(t, r) => Turn(s, t, Finished(None, r))
    case Begin(t) => Turn(s, t, Writing(|s.client.chans|)).(client := Register(s.client))
    case Wrote(t) => Turn(s, t, Waiting(s.tasks[t].phase.h))
    case WriteFailed(t) =>
      Turn(s, t, Finished(None, Err("write error"))).(client := Abandon(s.client, s.client.ids[s.tasks[t].phase.h]))
    case Read(res) => s.(client := Take(s.client, res))
    case HandOver => s.(client := Hand(s.client))
    case Break => s.(client := BreakOff(s.client))
    case Return(t) =>
      var h := s.tasks[t].phase.h;
      Turn(s, t, Finished(Some(h), Got(s.client.chans[h]))).(client := Receive(s.client, h))
    case GiveUp(t) => Turn(s, t, Finished(None, Err("context done")))
    case Write(t) =>
      var p := s.tasks[t].phase;
      Turn(s, t, Replied(p.from, p.r)).(out := s.out + [Reply(s.tasks[t].orig, Some(t), p.r)])
    case Close(orig) => s.(closing := Some(orig))
    case CloseReply => s.(out := s.out + [Reply(s.closing.value, None, Ok(Response(0, "")))])
  }

  ghost predicate Legal(s: Shim, steps: seq<Step>)
    decreases |steps|
  {
    steps != [] ==> CanStep(s, steps[0]) && Legal(StepOf(s, steps[0]), steps[1..])
  }

  ghost function Run(s: Shim, steps: seq<Step>): Shim
    requires Legal(s, steps)
    decreases |steps|
  {
    if steps == [] then s else Run(StepOf(s, steps[0]), steps[1..])
  }

  function Fresh(): Shim {
    Shim(NewClient(), [], [], None)
  }

  // ------------------------------------------------------------------------------------------
  // Waiters
  // ------------------------------------------------------------------------------------------

  /** The channel can still be heard from: registered, about to be handed a response, filled or closed. */
  ghost predicate Live(c: Client, h: nat) {
    && h < |c.chans| && h < |c.ids|
    && (IsPending(c, h) || (c.reader.Holding? && c.reader.chan == h) || c.chans[h].buffer.Some? || c.chans[h].closed > 0)
  }

  /** A task waits on a channel that will be heard from, and has only ever got its own response. */
  ghost predicate TaskOk(c: Client, p: Phase) {
    match p
    case New => true
    case Writing(h) => Live(c, h)
    case Waiting(h) => Live(c, h)
    case Finished(from, r) => FromOk(c, from, r)
    case Replied(from, r) => FromOk(c, from, r)
  }

  /** What a send got from its channel: the response given to it, or an error if it was closed instead. */
  ghost predicate FromOk(c: Client, from: Option<nat>, r: Result<Response, string>) {
    from.Some? ==>
      && from.value < |c.ids| && from.value < |c.chans|
      && (c.chans[from.value].sent == 1 || c.chans[from.value].closed == 1)
      && (c.chans[from.value].closed == 1 ==> r.Err?)
      && (c.chans[from.value].given.Some? ==> r == Ok(c.chans[from.value].given.value))
      && (r.Ok? ==> c.chans[from.value].given == Some(r.value) && r.value.id == c.ids[from.value])
  }

  predicate Uses(p: Phase, h: nat) {
    (p.Writing? && p.h == h) || (p.Waiting? && p.h == h)
  }

  ghost predicate OwnChannels(s: Shim) {
    && (forall t | 0 <= t < |s.tasks| :: TaskOk(s.client, s.tasks[t].phase))
    && (forall t, u, h | 0 <= t < u < |s.tasks| && Uses(s.tasks[t].phase, h) :: !Uses(s.tasks[u].phase, h))
  }

  // ------------------------------------------------------------------------------------------
  // Replies
  // ------------------------------------------------------------------------------------------

  ghost predicate ReplyOk(s: Shim, i: nat)
    requires i < |s.out|
  {
    match s.out[i].task
    case Some(t) => t < |s.tasks| && s.tasks[t].phase.Replied? && s.out[i].id == s.tasks[t].orig && s.out[i].r == s.tasks[t].phase.r
    case None =>
      && i == |s.out| - 1 && s.closing == Some(s.out[i].id)
      && forall t | 0 <= t < |s.tasks| :: s.tasks[t].phase.Replied?
  }

  ghost predicate RepliedOnce(s: Shim) {
    && (forall i | 0 <= i < |s.out| :: ReplyOk(s, i))
    && (forall i, j | 0 <= i < j < |s.out| :: s.out[i].task != s.out[j].task)
    && (forall t | 0 <= t < |s.tasks| && s.tasks[t].phase.Replied? :: exists i :: 0 <= i < |s.out| && s.out[i].task == Some(t))
  }

  ghost predicate ShimInv(s: Shim) {
    ClientInv(s.client) && OwnChannels(s) && RepliedOnce(s)
  }

  // ------------------------------------------------------------------------------------------
  // Every step
  // ------------------------------------------------------------------------------------------

  /** A step of the client leaves every other channel within reach. */
  ghost predicate Reaches(c: Client, d: Client, except: int) {
    && |c.ids| <= |d.ids| && (forall h | 0 <= h < |c.ids| :: d.ids[h] == c.ids[h])
    && (forall h: nat | h != except && Live(c, h) :: Live(d, h))
    && |c.chans| <= |d.chans|
    && (forall h | 0 <= h < |c.chans| && c.chans[h].sent + c.chans[h].closed > 0 :: d.chans[h].sent == c.chans[h].sent && d.chans[h].closed == c.chans[h].closed && d.chans[h].given == c.chans[h].given)
  }

  lemma TaskFrame(c: Client, d: Client, except: int, p: Phase)
    requires TaskOk(c, p) && Reaches(c, d, except) && (except >= 0 ==> !Uses(p, except))
    ensures TaskOk(d, p)
  {
  }

  lemma RegisterReaches(c: Client)
    requires ClientInv(c)
    ensures Reaches(c, Register(c), -1) && Live(Register(c), |c.chans|)
  {
    var d := Register(c);
    forall h: nat | Live(c, h)
      ensures Live(d, h)
    {
      assert d.ids[h] == c.ids[h] && d.chans[h] == c.chans[h];
    }
  }

  lemma TakeReaches(c: Client, res: Response)
    requires ClientInv(c) && c.reader == Idle
    ensures Reaches(c, Take(c, res), -1)
  {
  }

  lemma HandReaches(c: Client)
    requires ClientInv(c) && c.reader.Holding?
    ensures Reaches(c, Hand(c), -1)
  {
  }

  lemma BreakReaches(c: Client)
    requires ClientInv(c) && c.reader == Idle
    ensures Reaches(c, BreakOff(c), -1)
  {
  }

  lemma AbandonReaches(c: Client, h: nat)
    requires ClientInv(c) && h < |c.ids|
    ensures Reaches(c, Abandon(c, c.ids[h]), h)
  {
  }

  lemma ReceiveReaches(c: Client, h: nat)
    requires ClientInv(c) && h < |c.chans|
    ensures Reaches(c, Receive(c, h), h)
  {
  }

  /** Task `t` moves to phase `p`, and the client to `d`. */
  lemma TurnKeepsOwn(s: Shim, t: nat, p: Phase, d: Client, except: int)
    requires OwnChannels(s) && t < |s.tasks| && Reaches(s.client, d, except) && TaskOk(d, p)
    requires except >= 0 ==> Uses(s.tasks[t].phase, except)
    requires forall h: nat | Uses(p, h) :: Uses(s.tasks[t].phase, h) || !Live(s.client, h)
    ensures OwnChannels(Turn(s, t, p).(client := d))
  {
    var r := Turn(s, t, p).(client := d);
    forall u | 0 <= u < |s.tasks|
      ensures TaskOk(d, r.tasks[u].phase)
    {
      if u != t {
        TaskFrame(s.client, d, except, s.tasks[u].phase);
      }
    }
    forall u, v, h | 0 <= u < v < |r.tasks| && Uses(r.tasks[u].phase, h)
      ensures !Uses(r.tasks[v].phase, h)
    {
      assert u != t ==> TaskOk(s.client, s.tasks[u].phase);
      assert v != t ==> TaskOk(s.client, s.tasks[v].phase);
    }
  }

  lemma ClientKeepsOwn(s: Shim, d: Client)
    requires OwnChannels(s) && Reaches(s.client, d, -1)
    ensures OwnChannels(s.(client := d))
  {
    forall u | 0 <= u < |s.tasks|
      ensures TaskOk(d, s.tasks[u].phase)
    {
      TaskFrame(s.client, d, -1, s.tasks[u].phase);
    }
  }

  /** A task that is not replied to yet may change; so may the client. */
  lemma QuietKeepsReplies(s: Shim, t: nat, p: Phase, d: Client)
    requires RepliedOnce(s) && t < |s.tasks| && !s.tasks[t].phase.Replied? && !p.Replied?
    ensures RepliedOnce(Turn(s, t, p).(client := d))
  {
    var r := Turn(s, t, p).(client := d);
    forall i | 0 <= i < |r.out|
      ensures ReplyOk(r, i)
    {
      assert ReplyOk(s, i);
    }
  }

  lemma ClientKeepsReplies(s: Shim, d: Client)
    requires RepliedOnce(s)
    ensures RepliedOnce(s.(client := d))
  {
    var r := s.(client := d);
    forall i | 0 <= i < |r.out|
      ensures ReplyOk(r, i)
    {
      assert ReplyOk(s, i);
    }
  }

  lemma WriteKeepsReplies(s: Shim, t: nat)
    requires RepliedOnce(s) && CanStep(s, Write(t))
    ensures RepliedOnce(StepOf(s, Write(t)))
  {
    var r := StepOf(s, Write(t));
    forall i | 0 <= i < |s.out|
      ensures ReplyOk(r, i) && r.out[i] == s.out[i] && s.out[i].task != Some(t)
    {
      assert ReplyOk(s, i);
    }
    assert ReplyOk(r, |s.out|);
    forall u | 0 <= u < |r.tasks| && r.tasks[u].phase.Replied?
      ensures exists i :: 0 <= i < |r.out| && r.out[i].task == Some(u)
    {
      if u == t {
        assert r.out[|s.out|].task == Some(t);
      } else {
        var i :| 0 <= i < |s.out| && s.out[i].task == Some(u);
        assert r.out[i].task == Some(u);
      }
    }
  }

  lemma ArriveKeeps(s: Shim, orig: int)
    requires ShimInv(s) && CanStep(s, Arrive(orig))
    ensures ShimInv(StepOf(s, Arrive(orig)))
  {
    var r := StepOf(s, Arrive(orig));
    forall i | 0 <= i < |r.out|
      ensures ReplyOk(r, i)
    {
      assert ReplyOk(s, i);
    }
  }

  lemma CloseKeeps(s: Shim, x: Step)
    requires ShimInv(s) && CanStep(s, x) && (x.Close? || x.CloseReply?)
    ensures ShimInv(StepOf(s, x))
  {
    var r := StepOf(s, x);
    forall i | 0 <= i < |s.out|
      ensures ReplyOk(r, i) && r.out[i] == s.out[i] && (x.CloseReply? ==> s.out[i].task.Some?)
    {
      assert ReplyOk(s, i);
    }
    if x.CloseReply? {
      assert ReplyOk(r, |s.out|);
      forall u | 0 <= u < |r.tasks| && r.tasks[u].phase.Replied?
        ensures exists i :: 0 <= i < |r.out| && r.out[i].task == Some(u)
      {
        var i :| 0 <= i < |s.out| && s.out[i].task == Some(u);
        assert r.out[i].task == Some(u);
      }
    }
  }

  lemma ReaderStepKeeps(s: Shim, x: Step)
    requires ShimInv(s) && CanStep(s, x) && (x.Read? || x.HandOver? || x.Break?)
    ensures ShimInv(StepOf(s, x))
  {
    hide ClientInv, OwnChannels, RepliedOnce, Reaches;
    match x {
      case Read(res) =>
        TakeKeeps(s.client, res);
        TakeReaches(s.client, res);
      case HandOver =>
        HandKeeps(s.client);
        HandReaches(s.client);
      case Break =>
        BreakOffKeeps(s.client);
        BreakReaches(s.client);
    }
    ClientKeepsOwn(s, StepOf(s, x).client);
    ClientKeepsReplies(s, StepOf(s, x).client);
  }

  lemma SameReaches(c: Client)
    ensures Reaches(c, c, -1)
  {
  }

  lemma TaskStepKeeps(s: Shim, x: Step)
    requires ShimInv(s) && CanStep(s, x)
    requires x.Answer? || x.Begin? || x.Wrote? || x.WriteFailed? || x.Return? || x.GiveUp?
    ensures ShimInv(StepOf(s, x))
  {
    var t, c := x.t, s.client;
    assert TaskOk(c, s.tasks[t].phase);
    hide OwnChannels, RepliedOnce;
    var r := StepOf(s, x);
    var d, p := r.client, r.tasks[t].phase;
    SameReaches(c);
    match x {
      case Answer(_, _) =>
        TurnKeepsOwn(s, t, p, d, -1);
      case Begin(_) =>
        RegisterKeeps(c);
        RegisterReaches(c);
        TurnKeepsOwn(s, t, p, d, -1);
      case Wrote(_) =>
        TurnKeepsOwn(s, t, p, d, -1);
      case WriteFailed(_) =>
        AbandonKeeps(c, c.ids[s.tasks[t].phase.h]);
        AbandonReaches(c, s.tasks[t].phase.h);
        TurnKeepsOwn(s, t, p, d, s.tasks[t].phase.h);
      case Return(_) =>
        ReceiveKeeps(c, s.tasks[t].phase.h);
        ReceiveReaches(c, s.tasks[t].phase.h);
        TurnKeepsOwn(s, t, p, d, s.tasks[t].phase.h);
      case GiveUp(_) =>
        TurnKeepsOwn(s, t, p, d, -1);
    }
    QuietKeepsReplies(s, t, p, d);
  }

  lemma WriteKeeps(s: Shim, t: nat)
    requires ShimInv(s) && CanStep(s, Write(t))
    ensures ShimInv(StepOf(s, Write(t)))
  {
    var r := StepOf(s, Write(t));
    WriteKeepsReplies(s, t);
    assert TaskOk(s.client, s.tasks[t].phase);
    hide RepliedOnce;
    SameReaches(s.client);
    TurnKeepsOwn(s, t, r.tasks[t].phase, s.client, -1);
    assert r.(out := s.out) == Turn(s, t, r.tasks[t].phase).(client := s.client);
  }

  lemma StepKeeps(s: Shim, x: Step)
    requires ShimInv(s) && CanStep(s, x)
    ensures ShimInv(StepOf(s, x))
  {
    hide ShimInv;
    if x.Arrive? {
      ArriveKeeps(s, x.orig);
    } else if x.Close? || x.CloseReply? {
      CloseKeeps(s, x);
    } else if x.Read? || x.HandOver? || x.Break? {
      ReaderStepKeeps(s, x);
    } else if x.Write? {
      WriteKeeps(s, x.t);
    } else {
      TaskStepKeeps(s, x);
    }
  }

  lemma {:induction false} RunKeeps(s: Shim, steps: seq<Step>)
    requires ShimInv(s) && Legal(s, steps)
    ensures ShimInv(Run(s, steps))
    decreases |steps|
  {
    if steps != [] {
      StepKeeps(s, steps[0]);
      RunKeeps(StepOf(s, steps[0]), steps[1..]);
    }
  }

  // ------------------------------------------------------------------------------------------
  // What a run promises
  // ------------------------------------------------------------------------------------------

  /** What the send of a task ended with, from the moment it ended. */
  function ResultOf(p: Phase): Option<(Option<nat>, Result<Response, string>)> {
    if p.Finished? || p.Replied? then Some((p.from, p.r)) else None
  }

  /** No cross-talk: a response that ends a task carries the number its own request, and no other, was sent under. */
  lemma NoCrossTalk(steps: seq<Step>, t: nat, h: nat, res: Response)
    requires Legal(Fresh(), steps) && t < |Run(Fresh(), steps).tasks|
    requires ResultOf(Run(Fresh(), steps).tasks[t].phase) == Some((Some(h), Ok(res)))
    ensures var c := Run(Fresh(), steps).client;
      && h < |c.ids| && res.id == c.ids[h] && forall k | 0 <= k < |c.ids| && c.ids[k] == res.id :: k == h
  {
    RunKeeps(Fresh(), steps);
    var s := Run(Fresh(), steps);
    assert TaskOk(s.client, s.tasks[t].phase);
  }

  /** The reader never blocks on a channel, no channel is both sent to and closed, and none is touched twice. */
  lemma ReaderNeverBlocks(steps: seq<Step>)
    requires Legal(Fresh(), steps)
    ensures var c := Run(Fresh(), steps).client;
      && (c.reader.Holding? ==> CanStep(Run(Fresh(), steps), HandOver) && c.chans[c.reader.chan] == FRESH)
      && (forall h | 0 <= h < |c.chans| :: c.chans[h].sent + c.chans[h].closed <= 1)
  {
    RunKeeps(Fresh(), steps);
    var c := Run(Fresh(), steps).client;
    forall h | 0 <= h < |c.chans|
      ensures c.chans[h].sent + c.chans[h].closed <= 1
    {
      assert ChanOk(c.chans[h], c.ids[h]);
    }
  }

  /** Once reading has failed nobody is registered, and every waiter can return. */
  lemma NobodyWaitsForever(steps: seq<Step>, t: nat)
    requires Legal(Fresh(), steps)
    requires var s := Run(Fresh(), steps); s.client.readErr && t < |s.tasks| && s.tasks[t].phase.Waiting?
    ensures var s := Run(Fresh(), steps); s.client.pending == map[] && CanStep(s, Return(t))
  {
    RunKeeps(Fresh(), steps);
    var s := Run(Fresh(), steps);
    assert TaskOk(s.client, s.tasks[t].phase);
  }

  /** Each request is answered at most once, under its own original ID. */
  lemma OneReplyEach(steps: seq<Step>)
    requires Legal(Fresh(), steps)
    ensures var s := Run(Fresh(), steps);
      && (forall i, j | 0 <= i < j < |s.out| :: s.out[i].task != s.out[j].task)
      && (forall i | 0 <= i < |s.out| && s.out[i].task.Some? :: s.out[i].task.value < |s.tasks| && s.out[i].id == s.tasks[s.out[i].task.value].orig)
  {
    RunKeeps(Fresh(), steps);
    var s := Run(Fresh(), steps);
    forall i | 0 <= i < |s.out| && s.out[i].task.Some?
      ensures s.out[i].task.value < |s.tasks| && s.out[i].id == s.tasks[s.out[i].task.value].orig
    {
      assert ReplyOk(s, i);
    }
  }

  /**
    What cmd/go receives: each reply is the result of its own request's send, and a response that
    came over the connection carries the number that this request, and no other, was sent under.
   */
  lemma ReplyIsOwn(steps: seq<Step>, i: nat)
    requires Legal(Fresh(), steps) && i < |Run(Fresh(), steps).out| && Run(Fresh(), steps).out[i].task.Some?
    ensures var s := Run(Fresh(), steps);
      var t := s.out[i].task.value;
      && t < |s.tasks| && s.out[i].id == s.tasks[t].orig
      && s.tasks[t].phase.Replied? && s.out[i].r == s.tasks[t].phase.r
      && (s.out[i].r.Ok? && s.tasks[t].phase.from.Some? ==>
            var h := s.tasks[t].phase.from.value;
            && h < |s.client.ids| && s.out[i].r.value.id == s.client.ids[h]
            && forall k | 0 <= k < |s.client.ids| && s.client.ids[k] == s.out[i].r.value.id :: k == h)
  {
    RunKeeps(Fresh(), steps);
    var s := Run(Fresh(), steps);
    assert ReplyOk(s, i);
    assert TaskOk(s.client, s.tasks[s.out[i].task.value].phase);
  }

  // ------------------------------------------------------------------------------------------
  // Where a response comes from
  // ------------------------------------------------------------------------------------------

  /** Every response held by the reader or given to a channel was read from the helper. */
  ghost predicate Heard(c: Client, past: seq<Step>) {
    && (c.reader.Holding? ==> Read(c.reader.res) in past)
    && (forall h | 0 <= h < |c.chans| && c.chans[h].given.Some? :: Read(c.chans[h].given.value) in past)
  }

  lemma StepHears(s: Shim, past: seq<Step>, x: Step)
    requires CanStep(s, x) && Heard(s.client, past)
    ensures Heard(StepOf(s, x).client, past + [x])
  {
    assert forall y | y in past :: y in past + [x];
    assert x in past + [x];
  }

  lemma {:induction false} RunHears(s: Shim, past: seq<Step>, steps: seq<Step>)
    requires Legal(s, steps) && Heard(s.client, past)
    ensures Heard(Run(s, steps).client, past + steps)
    decreases |steps|
  {
    if steps == [] {
      assert past + steps == past;
    } else {
      StepHears(s, past, steps[0]);
      RunHears(StepOf(s, steps[0]), past + [steps[0]], steps[1..]);
      assert past + [steps[0]] + steps[1..] == past + steps;
    }
  }

  /**
    What a send returns is what the helper said: if its channel was given a response, that very
    response, which the helper sent in this run; if it was closed, an error.
   */
  lemma ResultIsWhatWasRead(steps: seq<Step>, t: nat, h: nat, r: Result<Response, string>)
    requires Legal(Fresh(), steps) && t < |Run(Fresh(), steps).tasks|
    requires ResultOf(Run(Fresh(), steps).tasks[t].phase) == Some((Some(h), r))
    ensures var c := Run(Fresh(), steps).client;
      && h < |c.chans| && (c.chans[h].closed == 1 ==> r.Err?) && (c.chans[h].sent == 1 ==> r.Ok?)
      && (r.Ok? ==> Read(r.value) in steps)
  {
    RunKeeps(Fresh(), steps);
    RunHears(Fresh(), [], steps);
    assert [] + steps == steps;
    var s := Run(Fresh(), steps);
    assert TaskOk(s.client, s.tasks[t].phase);
    assert ChanOk(s.client.chans[h], s.client.ids[h]);
  }

  predicate RepliedBefore(s: Shim, t: nat, i: nat) {
    exists j :: 0 <= j < i && j < |s.out| && s.out[j].task == Some(t)
  }

  /** The reply to close comes last, after exactly one reply to every request. */
  lemma CloseComesLast(steps: seq<Step>, i: nat)
    requires Legal(Fresh(), steps)
    requires var s := Run(Fresh(), steps); i < |s.out| && s.out[i].task.None?
    ensures var s := Run(Fresh(), steps);
      i == |s.out| - 1 && s.closing == Some(s.out[i].id) && forall t: nat | t < |s.tasks| :: RepliedBefore(s, t, i)
  {
    RunKeeps(Fresh(), steps);
    var s := Run(Fresh(), steps);
    assert ReplyOk(s, i);
    forall t: nat | t < |s.tasks|
      ensures RepliedBefore(s, t, i)
    {
      var j :| 0 <= j < |s.out| && s.out[j].task == Some(t);
      assert j != i;
    }
  }

  // ------------------------------------------------------------------------------------------
  // The program
  // ------------------------------------------------------------------------------------------

  /** Closes one registered channel. */
  function CloseOne(c: Client, id: nat): Client
    requires id in c.pending && c.pending[id] < |c.chans|
  {
    var h := c.pending[id];
    c.(pending := c.pending - {id}, chans := c.chans[h := c.chans[h].(closed := c.chans[h].closed + 1)])
  }

  /** Closing a channel and then the rest closes them all. */
  lemma CloseOneFirst(c: Client, id: nat)
    requires Numbered(c) && Registered(c) && id in c.pending
    ensures BreakOff(CloseOne(c, id)) == BreakOff(c)
  {
    var d, h := CloseOne(c, id), c.pending[id];
    forall k: nat | k < |c.chans|
      ensures BreakOff(d).chans[k] == BreakOff(c).chans[k]
    {
      assert k != h ==> c.ids[k] != id;
    }
    assert BreakOff(d).chans == BreakOff(c).chans;
  }

  lemma CloseOneKeeps(c: Client, id: nat)
    requires Numbered(c) && Registered(c) && id in c.pending
    ensures Numbered(CloseOne(c, id)) && Registered(CloseOne(c, id))
  {
  }

  lemma BreakFlags(c: Client)
    requires Numbered(c) && Registered(c)
    ensures var d := c.(readErr := true, reader := Done); Numbered(d) && Registered(d) && BreakOff(d) == BreakOff(c)
  {
  }

  lemma BreakDone(c: Client)
    requires c.pending == map[] && c.readErr && c.reader == Done
    ensures BreakOff(c) == c
  {
    assert BreakOff(c).chans == c.chans;
  }

  lemma RegisteredHas(c: Client, id: nat)
    requires Registered(c) && id in c.pending
    ensures c.pending[id] < |c.chans|
  {
  }

  /** A response taken and handed over at once. */
  function Answered(c: Client, res: Response): Client {
    var d := Take(c, res);
    if d.reader.Holding? && d.reader.chan < |d.chans| then Hand(d) else d
  }

  lemma AnsweredKeeps(c: Client, res: Response)
    requires ClientInv(c) && c.reader == Idle
    ensures ClientInv(Answered(c, res)) && Answered(c, res).reader == Idle
    ensures res.id in c.pending ==> c.pending[res.id] < |c.chans|
  {
    TakeKeeps(c, res);
    if res.id in c.pending {
      HandKeeps(Take(c, res));
    }
  }

  class CacheProgClient {
    var nextID: nat
    var pending: map<nat, nat>
    var chans: seq<Chan>
    var ids: seq<nat>
    var readErr: bool
    var reader: Reader

    function View(): Client
      reads this
    {
      Client(nextID, pending, chans, ids, readErr, reader)
    }

    ghost predicate Valid()
      reads this
    {
      ClientInv(View())
    }

    constructor ()
      ensures Valid() && View() == NewClient()
    {
      nextID, pending, chans, ids, readErr, reader := 0, map[], [], [], false, Idle;
    }

    /** The first half of send: a number and a channel, or the read error. */
    method Enlist() returns (r: Option<(nat, nat)>)
      requires Valid()
      modifies this
      ensures Valid() && (r.None? <==> old(readErr))
      ensures View() == if old(readErr) then old(View()) else Register(old(View()))
      ensures r.Some? ==> r.value == (nextID, old(|chans|)) && nextID !in old(ids)
    {
      if readErr {
        return None;
      }
      RegisterKeeps(View());
      var h := |chans|;
      nextID := nextID + 1;
      pending := pending[nextID := h];
      chans := chans + [FRESH];
      ids := ids + [nextID];
      return Some((nextID, h));
    }

    method Withdraw(id: nat)
      requires Valid()
      modifies this`pending
      ensures Valid() && View() == Abandon(old(View()), id)
    {
      AbandonKeeps(View(), id);
      pending := pending - {id};
    }

    /** The reader takes a response and hands it to its waiter, if there is one. */
    method OnResponse(res: Response)
      requires Valid() && reader == Idle
      modifies this
      ensures Valid() && reader == Idle && View() == Answered(old(View()), res)
    {
      AnsweredKeeps(View(), res);
      hide ClientInv;
      if res.id in pending {
        var h := pending[res.id];
        pending := pending - {res.id};
        chans := chans[h := Filled(chans[h], res)];
      }
    }

    /** Reading failed: releases every waiter and stops. */
    method OnReadError()
      requires Valid() && reader == Idle
      modifies this
      ensures Valid() && View() == BreakOff(old(View()))
    {
      BreakOffKeeps(View());
      BreakFlags(View());
      hide BreakOff, Numbered, Registered, ChansOk, ReaderOk;
      readErr, reader := true, Done;
      while pending != map[]
        invariant Numbered(View()) && Registered(View()) && readErr && reader == Done
        invariant BreakOff(View()) == BreakOff(old(View()))
        decreases |pending.Keys|
      {
        var id :| id in pending;
        CloseOneFirst(View(), id);
        CloseOneKeeps(View(), id);
        RegisteredHas(View(), id);
        hide CloseOne;
        Release(id);
      }
      BreakDone(View());
    }

    method Release(id: nat)
      requires id in pending && pending[id] < |chans|
      modifies this`pending, this`chans
      ensures View() == CloseOne(old(View()), id) && pending == old(pending) - {id} && |pending.Keys| < |old(pending).Keys|
    {
      var h := pending[id];
      assert (pending - {id}).Keys == pending.Keys - {id};
      pending := pending - {id};
      chans := chans[h := chans[h].(closed := chans[h].closed + 1)];
    }
  }
}
