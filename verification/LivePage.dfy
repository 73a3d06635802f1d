/**
  The live status page: the server sends each rendering as a patch of the one before, and the
  browser rebuilds it. A document is a sequence of code points.
 */
module LivePage {
  import opened Common

  datatype Patch = Patch(seqno: nat, prefix: nat, suffix: nat, insert: string, final: bool)

  /** The patch keeps a prefix and a suffix of the document that do not overlap. */
  predicate Fits(p: Patch, doc: string) {
    p.prefix + p.suffix <= |doc|
  }

  function ApplyTo(doc: string, p: Patch): string
    requires Fits(p, doc)
  {
    doc[..p.prefix] + p.insert + doc[|doc| - p.suffix..]
  }

  // ------------------------------------------------------------------------------------------
  // Making patches
  // ------------------------------------------------------------------------------------------

  /** The first `k` code points agree. */
  predicate SamePrefix(a: string, b: string, k: nat) {
    k <= |a| && k <= |b| && a[..k] == b[..k]
  }

  predicate SameSuffix(a: string, b: string, k: nat) {
    k <= |a| && k <= |b| && a[|a| - k..] == b[|b| - k..]
  }

  /** As long a common prefix as possible, then as long a common suffix as is left. */
  ghost predicate Longest(a: string, b: string, prefix: nat, suffix: nat) {
    && SamePrefix(a, b, prefix) && SameSuffix(a, b, suffix)
    && prefix + suffix <= |a| && prefix + suffix <= |b|
    && (prefix < |a| && prefix < |b| ==> a[prefix] != b[prefix])
    && (prefix + suffix < |a| && prefix + suffix < |b| ==> a[|a| - 1 - suffix] != b[|b| - 1 - suffix])
  }

  /** No other choice keeps more. */
  lemma LongestIsLongest(a: string, b: string, prefix: nat, suffix: nat, p: nat, q: nat)
    requires Longest(a, b, prefix, suffix) && SamePrefix(a, b, p) && SameSuffix(a, b, q)
    requires p + q <= |a| && p + q <= |b|
    ensures p + q <= prefix + suffix
  {
    PrefixAgrees(a, b, p);
    if suffix < q {
      SuffixAgrees(a, b, q, suffix);
    }
  }

  lemma PrefixAgrees(a: string, b: string, k: nat)
    requires SamePrefix(a, b, k)
    ensures forall i | 0 <= i < k :: a[i] == b[i]
  {
    forall i | 0 <= i < k
      ensures a[i] == b[i]
    {
      assert a[..k][i] == b[..k][i];
    }
  }

  lemma SuffixAgrees(a: string, b: string, k: nat, i: nat)
    requires SameSuffix(a, b, k) && i < k
    ensures a[|a| - 1 - i] == b[|b| - 1 - i]
  {
    assert a[|a| - k..][k - 1 - i] == b[|b| - k..][k - 1 - i];
  }

  /** A patch that turns `a` into `b` keeps a common prefix and a common suffix. */
  lemma PatchKeeps(a: string, b: string, p: Patch)
    requires Fits(p, a) && ApplyTo(a, p) == b
    ensures SamePrefix(a, b, p.prefix) && SameSuffix(a, b, p.suffix) && |b| == p.prefix + |p.insert| + p.suffix
  {
    assert b[..p.prefix] == a[..p.prefix];
    assert b[|b| - p.suffix..] == a[|a| - p.suffix..];
  }

  /** The patch turns `a` into `b`, and no patch that does so inserts less. */
  ghost predicate Shortest(a: string, b: string, p: Patch) {
    && Fits(p, a) && ApplyTo(a, p) == b
    && forall q: Patch | Fits(q, a) && ApplyTo(a, q) == b :: |p.insert| <= |q.insert|
  }

  lemma LongestIsShortest(a: string, b: string, p: Patch)
    requires Longest(a, b, p.prefix, p.suffix) && p.insert == b[p.prefix..|b| - p.suffix]
    ensures Shortest(a, b, p)
  {
    var k := p.prefix;
    assert b == b[..k] + b[k..|b| - p.suffix] + b[|b| - p.suffix..];
    forall q: Patch | Fits(q, a) && ApplyTo(a, q) == b
      ensures |p.insert| <= |q.insert|
    {
      PatchKeeps(a, b, q);
      LongestIsLongest(a, b, p.prefix, p.suffix, q.prefix, q.suffix);
    }
  }

  method MakeHTMLPatch(was: string, now: string) returns (p: Patch)
    ensures Shortest(was, now, p) && Longest(was, now, p.prefix, p.suffix) && p.seqno == 0 && !p.final
  {
    var prefix := 0;
    while prefix < |was| && prefix < |now| && was[prefix] == now[prefix]
      invariant SamePrefix(was, now, prefix)
    {
      assert was[..prefix + 1] == was[..prefix] + [was[prefix]];
      assert now[..prefix + 1] == now[..prefix] + [now[prefix]];
      prefix := prefix + 1;
    }
    var suffix := 0;
    while suffix < |was| - prefix && suffix < |now| - prefix && was[|was| - 1 - suffix] == now[|now| - 1 - suffix]
      invariant SameSuffix(was, now, suffix) && prefix + suffix <= |was| && prefix + suffix <= |now|
    {
      assert was[|was| - 1 - suffix..] == [was[|was| - 1 - suffix]] + was[|was| - suffix..];
      assert now[|now| - 1 - suffix..] == [now[|now| - 1 - suffix]] + now[|now| - suffix..];
      suffix := suffix + 1;
    }
    p := Patch(0, prefix, suffix, now[prefix..|now| - suffix], false);
    LongestIsShortest(was, now, p);
  }

  // ------------------------------------------------------------------------------------------
  // The two ends
  // ------------------------------------------------------------------------------------------

  class LiveClient {
    var lastHTML: string
    var seqno: nat

    constructor ()
      ensures lastHTML == "" && seqno == 0
    {
      lastHTML, seqno := "", 0;
    }

    /** Sends a rendering, unless nothing changed and it is not the last one. */
    method Push(html: string, final: bool) returns (sent: Option<Patch>)
      modifies this
      ensures sent.None? <==> html == old(lastHTML) && !final
      ensures sent.None? ==> seqno == old(seqno) && lastHTML == old(lastHTML)
      ensures sent.Some? ==>
        && lastHTML == html && seqno == old(seqno) + 1
        && sent.value.seqno == seqno && sent.value.final == final && Shortest(old(lastHTML), html, sent.value)
    {
      if html == lastHTML && !final {
        return None;
      }
      seqno := seqno + 1;
      var patch := MakeHTMLPatch(lastHTML, html);
      var numbered := patch.(seqno := seqno, final := final);
      LongestIsShortest(lastHTML, html, numbered);
      lastHTML := html;
      return Some(numbered);
    }
  }

  class Page {
    var currentHTML: string

    constructor ()
      ensures currentHTML == ""
    {
      currentHTML := "";
    }

    /** A new connection starts from nothing on both sides. */
    method Connect()
      modifies this
      ensures currentHTML == ""
    {
      currentHTML := "";
    }

    /** Rebuilds the document; the final one is acknowledged by its number. */
    method ApplyPatch(p: Patch) returns (ack: Option<nat>)
      requires Fits(p, currentHTML)
      modifies this
      ensures currentHTML == ApplyTo(old(currentHTML), p)
      ensures ack == if p.final then Some(p.seqno) else None
    {
      var kept := if p.suffix != 0 then currentHTML[|currentHTML| - p.suffix..] else "";
      currentHTML := currentHTML[..p.prefix] + p.insert + kept;
      return if p.final then Some(p.seqno) else None;
    }
  }

  // ------------------------------------------------------------------------------------------
  // A connection
  // ------------------------------------------------------------------------------------------

  datatype Mode = Open | Awaiting | Confirmed

  /**
    One connection: the server's side, the patches on their way, the browser's document, the
    acknowledgements on their way back and the one that waits in the server's channel.
   */
  datatype Session = Session(
    lastHTML: string, seqno: nat, mode: Mode, wire: seq<Patch>, doc: string, up: seq<nat>, acks: Option<nat>)

  function NewSession(): Session {
    Session("", 0, Open, [], "", [], None)
  }

  datatype Step =
    | Send(patch: Patch, html: string)
    | Deliver
    | ReadAck
    | TakeAck
    | Reconnect

  ghost predicate CanStep(s: Session, x: Step) {
    match x
    case Send(p, html) =>
      && s.mode == Open && p.seqno == s.seqno + 1 && Shortest(s.lastHTML, html, p)
      && (html != s.lastHTML || p.final)
    case Deliver => s.wire != [] && Fits(s.wire[0], s.doc)
    case ReadAck => s.up != []
    case TakeAck => s.mode == Awaiting && s.acks.Some?
    case Reconnect => true
  }

  function StepOf(s: Session, x: Step): Session
    requires CanStep(s, x)
  {
    match x
    case Send(p, html) => s.(lastHTML := html, seqno := s.seqno + 1, wire := s.wire + [p], mode := if p.final then Awaiting else Open)
    case Deliver =>
      var p := s.wire[0];
      s.(wire := s.wire[1..], doc := ApplyTo(s.doc, p), up := if p.final then s.up + [p.seqno] else s.up)
    case ReadAck =>
      // An acknowledgement that finds the channel full is dropped.
      s.(up := s.up[1..], acks := if s.up[0] != 0 && s.acks.None? then Some(s.up[0]) else s.acks)
    case TakeAck => s.(acks := None, mode := if s.acks.value == s.seqno then Confirmed else Awaiting)
    case Reconnect => NewSession()
  }

  ghost predicate Legal(s: Session, steps: seq<Step>)
    decreases |steps|
  {
    steps != [] ==> CanStep(s, steps[0]) && Legal(StepOf(s, steps[0]), steps[1..])
  }

  ghost function Run(s: Session, steps: seq<Step>): Session
    requires Legal(s, steps)
    decreases |steps|
  {
    if steps == [] then s else Run(StepOf(s, steps[0]), steps[1..])
  }

  /** The patches on their way fit one after the other and lead from `doc` to `html`. */
  ghost predicate Leads(doc: string, wire: seq<Patch>, html: string)
    decreases |wire|
  {
    if wire == [] then doc == html
    else Fits(wire[0], doc) && Leads(ApplyTo(doc, wire[0]), wire[1..], html)
  }

  /** Only the last patch of a finished session is final, and the last patch carries the server's number. */
  ghost predicate Marked(s: Session) {
    && (forall i | 0 <= i < |s.wire| :: s.wire[i].final <==> i == |s.wire| - 1 && s.mode == Awaiting && s.up == [] && s.acks.None?)
    && (s.wire != [] ==> s.wire[|s.wire| - 1].seqno == s.seqno)
  }

  /** While the server waits, exactly one thing is on its way: the final patch or its acknowledgement. */
  ghost predicate Acknowledges(s: Session) {
    && (s.mode != Awaiting ==> s.up == [] && s.acks.None?)
    && (s.mode == Awaiting ==>
          || (s.wire != [] && s.up == [] && s.acks.None?)
          || (s.wire == [] && s.up == [s.seqno] && s.acks.None?)
          || (s.wire == [] && s.up == [] && s.acks == Some(s.seqno)))
    && (s.mode == Confirmed ==> s.wire == []) && (s.mode != Open ==> s.seqno > 0)
  }

  ghost predicate SessionInv(s: Session) {
    Leads(s.doc, s.wire, s.lastHTML) && Marked(s) && Acknowledges(s)
  }

  lemma {:induction false} LeadsOn(doc: string, wire: seq<Patch>, html: string, p: Patch, next: string)
    requires Leads(doc, wire, html) && Fits(p, html) && ApplyTo(html, p) == next
    ensures Leads(doc, wire + [p], next)
    decreases |wire|
  {
    if wire == [] {
      assert [p][1..] == [];
    } else {
      assert (wire + [p])[0] == wire[0] && (wire + [p])[1..] == wire[1..] + [p];
      LeadsOn(ApplyTo(doc, wire[0]), wire[1..], html, p, next);
    }
  }

  lemma StepKeeps(s: Session, x: Step)
    requires SessionInv(s) && CanStep(s, x)
    ensures SessionInv(StepOf(s, x))
  {
    match x
    case Send(p, html) => LeadsOn(s.doc, s.wire, s.lastHTML, p, html);
    case Deliver => DeliverKeeps(s);
    case ReadAck => assert [s.seqno][1..] == [];
    case TakeAck =>
    case Reconnect =>
  }

  lemma DeliverKeeps(s: Session)
    requires SessionInv(s) && CanStep(s, Deliver)
    ensures SessionInv(StepOf(s, Deliver))
  {
    var r := StepOf(s, Deliver);
    assert s.wire[0].final ==> s.up + [s.wire[0].seqno] == [s.seqno];
    assert forall i | 0 <= i < |r.wire| :: r.wire[i] == s.wire[i + 1];
  }

  lemma {:induction false} RunKeeps(s: Session, steps: seq<Step>)
    requires SessionInv(s) && Legal(s, steps)
    ensures SessionInv(Run(s, steps))
    decreases |steps|
  {
    if steps != [] {
      StepKeeps(s, steps[0]);
      RunKeeps(StepOf(s, steps[0]), steps[1..]);
    }
  }

  /** After any pushes, deliveries and reconnections: once nothing is on its way, both documents are equal. */
  lemma DocumentsAgree(steps: seq<Step>)
    requires Legal(NewSession(), steps)
    ensures var s := Run(NewSession(), steps);
      (s.wire == [] ==> s.doc == s.lastHTML) && (s.wire != [] ==> CanStep(s, Deliver))
  {
    RunKeeps(NewSession(), steps);
  }

  /** A final push succeeds only when the browser shows exactly the final document. */
  lemma FinalIsSeen(steps: seq<Step>)
    requires Legal(NewSession(), steps)
    ensures var s := Run(NewSession(), steps); s.mode == Confirmed ==> s.doc == s.lastHTML
  {
    RunKeeps(NewSession(), steps);
  }

  /** The server keeps one acknowledgement at a time: zero, or one that finds another waiting, is dropped. */
  lemma AckIsKeptOnce(s: Session)
    requires s.up != []
    ensures var r := StepOf(s, ReadAck);
      && r.acks == (if s.acks.Some? then s.acks else if s.up[0] == 0 then None else Some(s.up[0]))
      && r.up == s.up[1..] && r.doc == s.doc && r.lastHTML == s.lastHTML && r.mode == s.mode
  {
  }

  /** The acknowledgement of a final push is never dropped: the connection always has a step left to confirm it. */
  lemma FinalIsConfirmed(steps: seq<Step>)
    requires Legal(NewSession(), steps)
    ensures var s := Run(NewSession(), steps);
      s.mode == Awaiting ==>
        || CanStep(s, Deliver)
        || (CanStep(s, ReadAck) && StepOf(s, ReadAck).acks == Some(s.seqno))
        || (CanStep(s, TakeAck) && StepOf(s, TakeAck).mode == Confirmed)
  {
    RunKeeps(NewSession(), steps);
  }
}
