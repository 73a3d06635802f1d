/**
  The estimated time to completion: list scheduling of the remaining tests on the run's slots, and
  how far it can be from any other schedule.
 */
module Eta {
  import opened Common
  import opened Fleet

  const SECOND: nat := 1_000_000_000

  datatype Estimate = Estimate(known: bool, duration: nat)

  /** A scheduled test as the server knows it; `Absent` if its package or test is not known. */
  datatype Entry = Absent | Entry(done: bool, running: bool, started: int, estimate: Estimate)

  predicate Live(e: Entry) {
    e.Entry? && !e.done
  }

  /** A running test keeps a tail once it exceeds its estimate. */
  function Remaining(e: Entry, now: int): nat
    requires Live(e)
  {
    var d := e.estimate.duration;
    if !e.running then d
    else if now - e.started < d then d - (now - e.started)
    else Max(SECOND, d / 2)
  }

  /** The remaining times of the unfinished tests, in dispatch order. */
  function Remainings(entries: seq<Entry>, now: int): seq<nat> {
    if entries == [] then []
    else (if Live(entries[0]) then [Remaining(entries[0], now)] else []) + Remainings(entries[1..], now)
  }

  function Unknowns(entries: seq<Entry>): nat {
    if entries == [] then 0
    else (if Live(entries[0]) && !entries[0].estimate.known then 1 else 0) + Unknowns(entries[1..])
  }

  function Id(x: nat): nat { x }

  function Total(s: seq<nat>): nat { Sum(s, Id) }

  function Longest(s: seq<nat>): (r: nat)
    ensures forall i | 0 <= i < |s| :: s[i] <= r
    ensures s != [] ==> r in s
  {
    if s == [] then 0 else if |s| == 1 then s[0] else Max(s[0], Longest(s[1..]))
  }

  // ------------------------------------------------------------------------------------------
  // List scheduling
  // ------------------------------------------------------------------------------------------

  /** The first slot with the least load among the first `n`. */
  function LeastOf(slots: seq<nat>, n: nat): (i: nat)
    requires 0 < n <= |slots|
    ensures i < n && forall j | 0 <= j < n :: slots[i] <= slots[j]
    ensures forall j | 0 <= j < i :: slots[i] < slots[j]
  {
    if n == 1 then 0
    else
      var i := LeastOf(slots, n - 1);
      if slots[n - 1] < slots[i] then n - 1 else i
  }

  /** Gives a test to the slot that is free first. */
  function Stack(slots: seq<nat>, d: nat): (r: seq<nat>)
    requires slots != []
    ensures |r| == |slots|
  {
    var i := LeastOf(slots, |slots|);
    slots[i := slots[i] + d]
  }

  /** Gives the queued tests, in order, each to the slot that is free first. */
  function StackAll(slots: seq<nat>, queued: seq<nat>): (r: seq<nat>)
    requires slots != []
    ensures |r| == |slots|
    decreases |queued|
  {
    if queued == [] then slots else StackAll(Stack(slots, queued[0]), queued[1..])
  }

  lemma TotalUpdate(s: seq<nat>, i: nat, x: nat)
    requires i < |s|
    ensures Total(s[i := x]) == Total(s) - s[i] + x
  {
    SumUpdate(s, i, x, Id);
  }

  /** The least load is at most the average, and the greatest at least. */
  lemma {:induction false} TotalBounds(s: seq<nat>, lo: nat, hi: nat)
    requires forall i | 0 <= i < |s| :: lo <= s[i] <= hi
    ensures |s| * lo <= Total(s) <= |s| * hi
  {
    if s != [] {
      TotalBounds(s[1..], lo, hi);
      assert |s| * lo == lo + |s[1..]| * lo && |s| * hi == hi + |s[1..]| * hi;
    }
  }

  lemma {:induction false} PartBelowTotal(s: seq<nat>, i: nat)
    requires i < |s|
    ensures s[i] <= Total(s)
  {
    if i > 0 {
      PartBelowTotal(s[1..], i - 1);
    }
  }

  /** A load within Graham's bound of `m` slots with this total and longest test. */
  ghost predicate Bounded(m: nat, load: nat, total: nat, longest: nat) {
    m * load <= total + (m - 1) * longest
  }

  /** Graham's invariant: no slot exceeds the average by more than the longest test. */
  ghost predicate Graham(slots: seq<nat>, longest: nat) {
    forall i | 0 <= i < |slots| :: Bounded(|slots|, slots[i], Total(slots), longest)
  }

  lemma Grows(m: nat, load: nat, total: nat, longest: nat, d: nat)
    requires Bounded(m, load, total, longest)
    ensures Bounded(m, load, total + d, longest)
  {
  }

  lemma MulMonotone(k: nat, a: nat, b: nat)
    requires a <= b
    ensures k * a <= k * b
  {
  }

  lemma MulPred(m: nat, a: nat)
    requires m > 0
    ensures m * a == a + (m - 1) * a
  {
  }

  lemma MulPlus(m: nat, a: nat, b: nat)
    ensures m * (a + b) == m * a + m * b
  {
  }

  lemma Stacks(m: nat, least: nat, total: nat, longest: nat, d: nat)
    requires m > 0 && m * least <= total && d <= longest
    ensures Bounded(m, least + d, total + d, longest)
  {
    MulPlus(m, least, d);
    MulPred(m, d);
    MulMonotone(m - 1, d, longest);
  }

  lemma Alone(m: nat, load: nat, total: nat, longest: nat)
    requires m > 0 && load <= total && load <= longest
    ensures Bounded(m, load, total, longest)
  {
    MulPred(m, load);
    MulMonotone(m - 1, load, longest);
  }

  lemma GrahamStep(slots: seq<nat>, d: nat, longest: nat)
    requires slots != [] && Graham(slots, longest) && d <= longest
    ensures Graham(Stack(slots, d), longest) && Total(Stack(slots, d)) == Total(slots) + d
  {
    var m, i, total := |slots|, LeastOf(slots, |slots|), Total(slots);
    TotalUpdate(slots, i, slots[i] + d);
    TotalBounds(slots, slots[i], Longest(slots));
    Stacks(m, slots[i], total, longest, d);
    hide Bounded, Total;
    forall j | 0 <= j < m
      ensures Bounded(m, Stack(slots, d)[j], total + d, longest)
    {
      if j != i {
        Grows(m, slots[j], total, longest, d);
      }
    }
  }

  /** List scheduling keeps all the work and the bound. */
  lemma {:induction false} StackAllKeeps(slots: seq<nat>, queued: seq<nat>, longest: nat)
    requires slots != [] && Graham(slots, longest) && forall k | 0 <= k < |queued| :: queued[k] <= longest
    ensures Total(StackAll(slots, queued)) == Total(slots) + Total(queued) && Graham(StackAll(slots, queued), longest)
    decreases |queued|
  {
    hide Graham, Stack;
    if queued != [] {
      GrahamStep(slots, queued[0], longest);
      StackAllKeeps(Stack(slots, queued[0]), queued[1..], longest);
    }
  }

  /** Every test runs within the schedule. */
  lemma {:induction false} StackAllContains(slots: seq<nat>, queued: seq<nat>)
    requires slots != []
    ensures forall i | 0 <= i < |slots| :: slots[i] <= StackAll(slots, queued)[i]
    ensures forall k | 0 <= k < |queued| :: queued[k] <= Longest(StackAll(slots, queued))
    decreases |queued|
  {
    if queued != [] {
      var i, next, after := LeastOf(slots, |slots|), Stack(slots, queued[0]), StackAll(slots, queued);
      StackAllContains(next, queued[1..]);
      assert queued[0] <= next[i] <= after[i];
      forall k | 0 <= k < |queued|
        ensures queued[k] <= Longest(after)
      {
        assert k == 0 || queued[k] == queued[1..][k - 1];
      }
    }
  }

  // ------------------------------------------------------------------------------------------
  // Running tests first
  // ------------------------------------------------------------------------------------------

  datatype Placement = Placement(running: seq<nat>, queued: seq<nat>)

  /** A running test takes a slot of its own while there are any. */
  function Place(m: nat, p: Placement, e: Entry, now: int): Placement {
    if !Live(e) then p
    else if e.running && |p.running| < m then p.(running := p.running + [Remaining(e, now)])
    else p.(queued := p.queued + [Remaining(e, now)])
  }

  function PlaceAll(m: nat, p: Placement, entries: seq<Entry>, now: int): (q: Placement)
    ensures |p.running| <= m ==> |q.running| <= m
    decreases |entries|
  {
    if entries == [] then p else PlaceAll(m, Place(m, p, entries[0], now), entries[1..], now)
  }

  function Work(p: Placement): seq<nat> {
    p.running + p.queued
  }

  /** The placed tests are the old ones and those of `rs`: the same total, and the same times. */
  ghost predicate Gains(p: Placement, q: Placement, rs: seq<nat>) {
    && Total(Work(q)) == Total(Work(p)) + Total(rs)
    && (forall x | x in Work(q) :: x in Work(p) || x in rs)
    && (forall x | x in Work(p) || x in rs :: x in Work(q))
  }

  lemma PlaceGains(m: nat, p: Placement, e: Entry, now: int)
    ensures Gains(p, Place(m, p, e, now), if Live(e) then [Remaining(e, now)] else [])
  {
    if Live(e) {
      var r := Remaining(e, now);
      SumAppend(p.running, p.queued, Id);
      SumAppend(p.running, [r], Id);
      SumAppend(p.queued, [r], Id);
      SumAppend(p.running + [r], p.queued, Id);
      SumAppend(p.running, p.queued + [r], Id);
    }
  }

  lemma {:induction false} PlaceAllGains(m: nat, p: Placement, entries: seq<Entry>, now: int)
    ensures Gains(p, PlaceAll(m, p, entries, now), Remainings(entries, now))
    decreases |entries|
  {
    if entries != [] {
      var q, first := Place(m, p, entries[0], now), if Live(entries[0]) then [Remaining(entries[0], now)] else [];
      PlaceGains(m, p, entries[0], now);
      PlaceAllGains(m, q, entries[1..], now);
      SumAppend(first, Remainings(entries[1..], now), Id);
      hide Place, Total, Work;
      assert Remainings(entries, now) == first + Remainings(entries[1..], now);
    }
  }

  function Zeros(n: nat): seq<nat> {
    seq(n, _ => 0)
  }

  function Padded(m: nat, s: seq<nat>): (r: seq<nat>)
    requires |s| <= m
    ensures |r| == m
  {
    s + Zeros(m - |s|)
  }

  lemma PaddedTotal(m: nat, s: seq<nat>)
    requires |s| <= m
    ensures Total(Padded(m, s)) == Total(s)
  {
    SumAppend(s, Zeros(m - |s|), Id);
    SumZero(Zeros(m - |s|), Id);
  }

  lemma PaddedGraham(m: nat, s: seq<nat>, longest: nat)
    requires |s| <= m && forall k | 0 <= k < |s| :: s[k] <= longest
    ensures Graham(Padded(m, s), longest)
  {
    var p := Padded(m, s);
    forall i | 0 <= i < m
      ensures Bounded(m, p[i], Total(p), longest)
    {
      PartBelowTotal(p, i);
      assert p[i] == if i < |s| then s[i] else 0;
      Alone(m, p[i], Total(p), longest);
    }
  }

  /** The loads of `m` slots after the whole simulation. */
  function Loads(m: nat, entries: seq<Entry>, now: int): (r: seq<nat>)
    requires m > 0
    ensures |r| == m
  {
    var p := PlaceAll(m, Placement([], []), entries, now);
    StackAll(Padded(m, p.running), p.queued)
  }

  /** Slot loads sum exactly to the remaining work, and no slot is far above the average. */
  lemma LoadsBounds(m: nat, entries: seq<Entry>, now: int)
    requires m > 0
    ensures var rs, loads := Remainings(entries, now), Loads(m, entries, now);
      && Total(loads) == Total(rs) && Graham(loads, Longest(rs))
      && forall k | 0 <= k < |rs| :: rs[k] <= Longest(loads)
  {
    var p, rs := PlaceAll(m, Placement([], []), entries, now), Remainings(entries, now);
    PlaceAllGains(m, Placement([], []), entries, now);
    PlacedTimes(p, rs);
    assert Loads(m, entries, now) == StackAll(Padded(m, p.running), p.queued);
    hide *;
    ScheduledBounds(m, p, rs);
  }

  /** The running and the queued tests are those of `rs`. */
  ghost predicate Places(p: Placement, rs: seq<nat>) {
    && (forall i | 0 <= i < |p.running| :: p.running[i] <= Longest(rs))
    && (forall i | 0 <= i < |p.queued| :: p.queued[i] <= Longest(rs))
    && (forall k | 0 <= k < |rs| :: rs[k] in p.running || rs[k] in p.queued)
    && Total(p.running) + Total(p.queued) == Total(rs)
  }

  lemma PlacedTimes(p: Placement, rs: seq<nat>)
    requires Gains(Placement([], []), p, rs)
    ensures Places(p, rs)
  {
    SumAppend(p.running, p.queued, Id);
    forall i | 0 <= i < |p.running|
      ensures p.running[i] <= Longest(rs)
    {
      assert p.running[i] in Work(p);
    }
    forall i | 0 <= i < |p.queued|
      ensures p.queued[i] <= Longest(rs)
    {
      assert p.queued[i] in Work(p);
    }
    forall k | 0 <= k < |rs|
      ensures rs[k] in p.running || rs[k] in p.queued
    {
      assert rs[k] in Work(p);
    }
  }

  lemma ScheduledBounds(m: nat, p: Placement, rs: seq<nat>)
    requires m > 0 && |p.running| <= m && Places(p, rs)
    ensures var loads := StackAll(Padded(m, p.running), p.queued);
      && Total(loads) == Total(rs) && Graham(loads, Longest(rs))
      && forall k | 0 <= k < |rs| :: rs[k] <= Longest(loads)
  {
    hide Graham, StackAll, Total;
    var loads := StackAll(Padded(m, p.running), p.queued);
    PaddedTotal(m, p.running);
    PaddedGraham(m, p.running, Longest(rs));
    StackAllKeeps(Padded(m, p.running), p.queued, Longest(rs));
    StackAllContains(Padded(m, p.running), p.queued);
    forall k | 0 <= k < |rs|
      ensures rs[k] <= Longest(loads)
    {
      if rs[k] in p.running {
        var i :| 0 <= i < |p.running| && p.running[i] == rs[k];
        assert Padded(m, p.running)[i] == rs[k];
      }
    }
  }

  // ------------------------------------------------------------------------------------------
  // Any other schedule
  // ------------------------------------------------------------------------------------------

  predicate Assigns(to: seq<nat>, n: nat, m: nat) {
    |to| == n && forall k | 0 <= k < n :: to[k] < m
  }

  /** The load of slot `i` when test `k` runs on slot `to[k]`. */
  function LoadOf(rs: seq<nat>, to: seq<nat>, i: nat): nat
    requires |rs| == |to|
  {
    if rs == [] then 0 else (if to[0] == i then rs[0] else 0) + LoadOf(rs[1..], to[1..], i)
  }

  /** No slot runs longer than `span`. */
  ghost predicate WithinSpan(rs: seq<nat>, to: seq<nat>, m: nat, span: nat)
    requires |rs| == |to|
  {
    forall i | 0 <= i < m :: LoadOf(rs, to, i) <= span
  }

  lemma {:induction false} TestWithinLoad(rs: seq<nat>, to: seq<nat>, k: nat)
    requires |rs| == |to| && k < |rs|
    ensures rs[k] <= LoadOf(rs, to, to[k])
  {
    if k > 0 {
      TestWithinLoad(rs[1..], to[1..], k - 1);
    }
  }

  function AllLoads(rs: seq<nat>, to: seq<nat>, m: nat): seq<nat>
    requires |rs| == |to|
  {
    seq(m, i requires 0 <= i < m => LoadOf(rs, to, i))
  }

  lemma {:induction false} LoadsSum(rs: seq<nat>, to: seq<nat>, m: nat)
    requires Assigns(to, |rs|, m)
    ensures Total(AllLoads(rs, to, m)) == Total(rs)
  {
    var all := AllLoads(rs, to, m);
    if rs == [] {
      SumZero(all, Id);
    } else {
      var rest := AllLoads(rs[1..], to[1..], m);
      LoadsSum(rs[1..], to[1..], m);
      TotalUpdate(rest, to[0], rs[0] + rest[to[0]]);
      assert all == rest[to[0] := rs[0] + rest[to[0]]];
    }
  }

  /** The work and its longest test bound every schedule from below. */
  lemma SpanBounds(rs: seq<nat>, to: seq<nat>, m: nat, span: nat)
    requires Assigns(to, |rs|, m) && WithinSpan(rs, to, m, span)
    ensures Total(rs) <= m * span && Longest(rs) <= span
  {
    LoadsSum(rs, to, m);
    TotalBounds(AllLoads(rs, to, m), 0, span);
    if rs != [] {
      var k :| 0 <= k < |rs| && rs[k] == Longest(rs);
      TestWithinLoad(rs, to, k);
    }
  }

  // ------------------------------------------------------------------------------------------
  // The estimate
  // ------------------------------------------------------------------------------------------

  function EtaOf(m: nat, entries: seq<Entry>, now: int): nat
    requires m > 0
  {
    Longest(Loads(m, entries, now))
  }

  /** Graham's bound, and the two lower bounds that hold of every schedule. */
  lemma EtaBounds(m: nat, entries: seq<Entry>, now: int)
    requires m > 0
    ensures var rs, eta := Remainings(entries, now), EtaOf(m, entries, now);
      && m * eta <= Total(rs) + (m - 1) * Longest(rs)
      && Total(rs) <= m * eta
      && forall k | 0 <= k < |rs| :: rs[k] <= eta
  {
    var loads, eta := Loads(m, entries, now), EtaOf(m, entries, now);
    LoadsBounds(m, entries, now);
    TotalBounds(loads, 0, eta);
    var i :| 0 <= i < |loads| && loads[i] == eta;
    hide Loads, Total, Longest;
    assert Bounded(m, loads[i], Total(loads), Longest(Remainings(entries, now)));
  }

  /** The estimate is within a factor 2 - 1/m of every assignment of the same tests to m slots. */
  lemma EtaIsNearOptimal(m: nat, entries: seq<Entry>, now: int, to: seq<nat>, span: nat)
    requires m > 0
    requires Assigns(to, |Remainings(entries, now)|, m) && WithinSpan(Remainings(entries, now), to, m, span)
    ensures m * EtaOf(m, entries, now) <= (2 * m - 1) * span
  {
    var rs := Remainings(entries, now);
    EtaBounds(m, entries, now);
    SpanBounds(rs, to, m, span);
    hide *;
    Combine(m, EtaOf(m, entries, now), Total(rs), Longest(rs), span);
  }

  lemma Combine(m: nat, eta: nat, total: nat, longest: nat, span: nat)
    requires m > 0 && m * eta <= total + (m - 1) * longest && total <= m * span && longest <= span
    ensures m * eta <= (2 * m - 1) * span
  {
    MulMonotone(m - 1, longest, span);
    assert (2 * m - 1) * span == m * span + (m - 1) * span;
  }

  // ------------------------------------------------------------------------------------------
  // The program
  // ------------------------------------------------------------------------------------------

  predicate Helps(w: Worker) {
    !w.leader && w.connected && w.error == ""
  }

  function SlotsOf(w: Worker): nat {
    if Helps(w) then w.slots else 0
  }

  method Capacity(jobs: int, workers: seq<Worker>) returns (m: nat)
    ensures m == Max(1, jobs) + Sum(workers, SlotsOf) && m > 0
  {
    m := Max(1, jobs);
    for i := 0 to |workers|
      invariant m == Max(1, jobs) + Sum(workers[..i], SlotsOf) && m > 0
    {
      assert workers[..i + 1] == workers[..i] + [workers[i]];
      SumAppend(workers[..i], [workers[i]], SlotsOf);
      if Helps(workers[i]) {
        m := m + workers[i].slots;
      }
    }
    assert workers[..|workers|] == workers;
  }

  lemma UnknownsNext(entries: seq<Entry>, e: Entry)
    ensures Unknowns(entries + [e]) == Unknowns(entries) + Unknowns([e])
  {
    if entries == [] {
      assert entries + [e] == [e];
    } else {
      assert (entries + [e])[1..] == entries[1..] + [e];
      UnknownsNext(entries[1..], e);
    }
  }

  /** Puts the running tests on slots of their own and queues the rest. */
  method PlaceTests(entries: seq<Entry>, now: int, slots: array<nat>) returns (queued: seq<nat>, unknown: nat)
    requires slots[..] == Zeros(slots.Length)
    modifies slots
    ensures var p := PlaceAll(slots.Length, Placement([], []), entries, now);
      |p.running| <= slots.Length && slots[..] == Padded(slots.Length, p.running) && queued == p.queued
    ensures unknown == Unknowns(entries)
  {
    var m, running := slots.Length, 0;
    queued, unknown := [], 0;
    ghost var p, i := Placement([], []), 0;
    var rest := entries;
    while rest != []
      invariant 0 <= i <= |entries| && rest == entries[i..] && unknown == Unknowns(entries[..i])
      invariant running == |p.running| <= m && queued == p.queued && slots[..] == Padded(m, p.running)
      invariant PlaceAll(m, p, rest, now) == PlaceAll(m, Placement([], []), entries, now)
      decreases |rest|
    {
      var e := rest[0];
      UnknownsNext(entries[..i], e);
      assert entries[..i + 1] == entries[..i] + [e];
      p, i, rest := Place(m, p, e, now), i + 1, rest[1..];
      if !Live(e) {
        continue;
      }
      if !e.estimate.known {
        unknown := unknown + 1;
      }
      var remaining := Remaining(e, now);
      if e.running && running < m {
        slots[running] := remaining;
        running := running + 1;
      } else {
        queued := queued + [remaining];
      }
    }
    assert entries[..i] == entries;
  }

  method LeastSlot(slots: array<nat>) returns (i: nat)
    requires slots.Length > 0
    ensures i == LeastOf(slots[..], slots.Length)
  {
    i := 0;
    for j := 1 to slots.Length
      invariant i == LeastOf(slots[..], j)
    {
      if slots[j] < slots[i] {
        i := j;
      }
    }
  }

  method FillSlots(slots: array<nat>, queued: seq<nat>)
    requires slots.Length > 0
    modifies slots
    ensures slots[..] == StackAll(old(slots[..]), queued)
  {
    for k := 0 to |queued|
      invariant StackAll(slots[..], queued[k..]) == StackAll(old(slots[..]), queued)
    {
      var i := LeastSlot(slots);
      ghost var was := slots[..];
      slots[i] := slots[i] + queued[k];
      assert slots[..] == Stack(was, queued[k]);
      assert queued[k..][0] == queued[k] && queued[k..][1..] == queued[k + 1..];
    }
  }

  /** A test that runs and has not used up its estimate. */
  predicate OnTime(e: Entry, now: int) {
    e.Entry? && !e.done && e.running && now - e.started < e.estimate.duration
  }

  method TestEta(ready: bool, jobs: int, workers: seq<Worker>, entries: seq<Entry>, now: int) returns (eta: nat, unknown: nat, ok: bool)
    ensures ok == ready && (!ok ==> eta == 0 && unknown == 0)
    ensures ok ==> eta == EtaOf(Max(1, jobs) + Sum(workers, SlotsOf), entries, now) && unknown == Unknowns(entries)
    ensures ok && |entries| == 1 && OnTime(entries[0], now) ==> eta + (now - entries[0].started) == entries[0].estimate.duration
  {
    if !ready {
      return 0, 0, false;
    }
    var m := Capacity(jobs, workers);
    var slots := new nat[m](_ => 0);
    assert slots[..] == Zeros(m);
    var queued;
    queued, unknown := PlaceTests(entries, now, slots);
    FillSlots(slots, queued);
    eta := Greatest(slots);
    if |entries| == 1 && entries[0].Entry? && !entries[0].done {
      assert entries == [entries[0]];
      EtaOfOne(m, entries[0], now);
    }
    return eta, unknown, true;
  }

  method Greatest(slots: array<nat>) returns (r: nat)
    requires slots.Length > 0
    ensures r == Longest(slots[..])
  {
    r := slots[0];
    for i := 1 to slots.Length
      invariant (forall k | 0 <= k < i :: slots[k] <= r) && r in slots[..]
    {
      if slots[i] > r {
        r := slots[i];
      }
    }
    assert Longest(slots[..]) in slots[..];
  }

  // ------------------------------------------------------------------------------------------
  // What the estimate is made of
  // ------------------------------------------------------------------------------------------

  /** A test that waits needs its whole estimate. */
  lemma WaitingNeedsAll(e: Entry, now: int)
    requires e.Entry? && !e.done && !e.running
    ensures Remaining(e, now) == e.estimate.duration
  {
  }

  /** A running test needs its estimate when it starts, and a second less for every second that passes within it. */
  lemma RunningNeedsLess(e: Entry, now: int, dt: int)
    requires e.Entry? && !e.done && e.running
    ensures e.estimate.duration > 0 ==> Remaining(e, e.started) == e.estimate.duration
    ensures now - e.started < e.estimate.duration && now + dt - e.started < e.estimate.duration ==>
      Remaining(e, now + dt) == Remaining(e, now) - dt
    ensures now - e.started < e.estimate.duration ==> Remaining(e, now) + (now - e.started) == e.estimate.duration
  {
  }

  /** Past its estimate a test keeps the same tail: a second or half the estimate, whichever is more. */
  lemma OverdueKeepsTail(e: Entry, now: int, later: int)
    requires e.Entry? && !e.done && e.running
    requires now - e.started >= e.estimate.duration && later - e.started >= e.estimate.duration
    ensures Remaining(e, later) == Remaining(e, now)
    ensures Remaining(e, now) >= 1_000_000_000 && Remaining(e, now) >= e.estimate.duration / 2
    ensures Remaining(e, now) == 1_000_000_000 || Remaining(e, now) == e.estimate.duration / 2
  {
  }

  lemma {:induction false} RemainingsAppend(a: seq<Entry>, b: seq<Entry>, now: int)
    ensures Remainings(a + b, now) == Remainings(a, now) + Remainings(b, now)
  {
    if a == [] {
      assert a + b == b;
    } else {
      hide Remaining;
      assert (a + b)[1..] == a[1..] + b && (a + b)[0] == a[0];
      RemainingsAppend(a[1..], b, now);
      var first := if Live(a[0]) then [Remaining(a[0], now)] else [];
      assert first + (Remainings(a[1..], now) + Remainings(b, now)) == first + Remainings(a[1..], now) + Remainings(b, now);
    }
  }

  /** Tests that are done or not known do not count; every other test counts once, in its place. */
  lemma UnfinishedCount(a: seq<Entry>, e: Entry, b: seq<Entry>, now: int)
    ensures e == Absent || e.done ==> Remainings(a + [e] + b, now) == Remainings(a + b, now) && Unknowns(a + [e] + b) == Unknowns(a + b)
    ensures e.Entry? && !e.done ==>
      && Remainings(a + [e] + b, now) == Remainings(a, now) + [Remaining(e, now)] + Remainings(b, now)
      && Unknowns(a + [e] + b) == Unknowns(a + b) + (if e.estimate.known then 0 else 1)
  {
    RemainingsAppend(a + [e], b, now);
    RemainingsAppend(a, [e], now);
    RemainingsAppend(a, b, now);
    UnknownsAppend(a + [e], b);
    UnknownsAppend(a, [e]);
    UnknownsAppend(a, b);
    assert [e][1..] == [];
    hide Remaining;
    assert e == Absent || e.done ==> Remainings([e], now) == [];
    assert e.Entry? && !e.done ==> Remainings([e], now) == [Remaining(e, now)];
  }

  lemma {:induction false} UnknownsAppend(a: seq<Entry>, b: seq<Entry>)
    ensures Unknowns(a + b) == Unknowns(a) + Unknowns(b)
  {
    if a == [] {
      assert a + b == b;
    } else {
      assert (a + b)[1..] == a[1..] + b;
      UnknownsAppend(a[1..], b);
    }
  }

  /** One unfinished test alone: the estimate is its remaining time. */
  lemma EtaOfOne(m: nat, e: Entry, now: int)
    requires m > 0 && e.Entry? && !e.done
    ensures EtaOf(m, [e], now) == Remaining(e, now)
    ensures e.running && now - e.started < e.estimate.duration ==> EtaOf(m, [e], now) + (now - e.started) == e.estimate.duration
  {
    var r: nat, eta: nat := Remaining(e, now), EtaOf(m, [e], now);
    assert [e][1..] == [];
    assert Remainings([e], now) == [r];
    EtaBounds(m, [e], now);
    JustOne(r);
    assert [r][0] <= eta;
    hide Total, Longest, EtaOf, Remaining;
    OneBound(m, eta, r);
  }

  lemma JustOne(r: nat)
    ensures Total([r]) == r && Longest([r]) == r
  {
    var one: seq<nat> := [r];
    var none: seq<nat> := [];
    assert one[1..] == none;
    assert Sum(one, Id) == Id(one[0]) + Sum(one[1..], Id);
    assert Sum(none, Id) == 0;
  }

  lemma OneBound(m: nat, eta: nat, r: nat)
    requires m > 0 && m * eta <= r + (m - 1) * r
    ensures eta <= r
  {
    MulPred(m, r);
    if r < eta {
      MulStrict(m, r, eta);
    }
  }

  lemma MulStrict(m: nat, a: nat, b: nat)
    requires m > 0 && a < b
    ensures m * a < m * b
  {
    MulMonotone(m, a + 1, b);
    MulPlus(m, a, 1);
  }

  /** A connected helper without error adds its slots; nobody else adds any. */
  lemma WorkerAddsSlots(workers: seq<Worker>, k: Worker)
    ensures Sum(workers + [k], SlotsOf) == Sum(workers, SlotsOf) + (if !k.leader && k.connected && k.error == "" then k.slots else 0)
  {
    SumAppend(workers, [k], SlotsOf);
    assert [k][1..] == [];
  }

  /** The remaining times of the running tests, or of the others, in dispatch order. */
  function TimesOf(entries: seq<Entry>, now: int, running: bool): seq<nat> {
    if entries == [] then []
    else
      var first := if entries[0].Entry? && !entries[0].done && entries[0].running == running then [Remaining(entries[0], now)] else [];
      first + TimesOf(entries[1..], now, running)
  }

  /** While there are slots, every running test has one of its own, and exactly the waiting tests are queued. */
  lemma {:induction false} RunningComeFirst(m: nat, p: Placement, entries: seq<Entry>, now: int)
    requires |p.running| + |TimesOf(entries, now, true)| <= m
    ensures var q := PlaceAll(m, p, entries, now);
      q.running == p.running + TimesOf(entries, now, true) && q.queued == p.queued + TimesOf(entries, now, false)
    decreases |entries|
  {
    hide Remaining;
    if entries == [] {
      assert p.running + [] == p.running && p.queued + [] == p.queued;
    } else {
      var e, q := entries[0], Place(m, p, entries[0], now);
      RunningComeFirst(m, q, entries[1..], now);
      if e.Entry? && !e.done {
        if e.running {
          assert p.running + ([Remaining(e, now)] + TimesOf(entries[1..], now, true)) == q.running + TimesOf(entries[1..], now, true);
        } else {
          assert p.queued + ([Remaining(e, now)] + TimesOf(entries[1..], now, false)) == q.queued + TimesOf(entries[1..], now, false);
        }
      }
    }
  }
}
