/** One exchange at a time, and never a helper that cannot start the next one. */
module Progress {
  import opened Common
  import opened Fleet
  import opened FleetSafety
  import opened Helpers
  import opened HelperSafety
  import opened HelperEffects
  import opened Systems
  import opened SystemSafety

  /** The loop believes an exchange is in flight exactly while a request or a response is on its way. */
  ghost predicate FlightAgrees(c: Conn) {
    c.chan != Closed && !c.helper.over ==> (c.helper.inFlight <==> c.chan.Asked? || c.chan.Answered?)
  }

  lemma HelperStepKeepsFlight(h: Helper, x: Step)
    requires HelperEnabled(h, x)
    ensures HelperStep(h, x).inFlight == h.inFlight && (h.over ==> HelperStep(h, x).over)
  {
    if x.JobReaped? {
      StartKeepsFlags(Reaped(h, x.e));
    }
  }

  lemma OwnFlight(s: System, x: Step)
    requires CanStep(s, x) && Owner(x) >= 0 && FlightAgrees(s.conns[x.c])
    ensures |StepOf(s, x).conns| == |s.conns| && FlightAgrees(StepOf(s, x).conns[x.c])
  {
    hide Enabled;
    var c := s.conns[x.c];
    if x.Deliver? {
      ReceiveEnds(c.helper, c.chan.res);
      hide Receive;
    } else if !(x.Send? || x.AcceptNext? || x.Tail? || x.Hangup?) {
      HelperStepKeepsFlight(c.helper, x);
      hide HelperStep;
    }
  }

  lemma StepKeepsFlight(s: System, x: Step)
    requires CanStep(s, x) && forall c | 0 <= c < |s.conns| :: FlightAgrees(s.conns[c])
    ensures forall c | 0 <= c < |StepOf(s, x).conns| :: FlightAgrees(StepOf(s, x).conns[c])
  {
    ConnsStay(s, x);
    if Owner(x) >= 0 {
      OwnFlight(s, x);
    } else if x.Join? {
      assert FlightAgrees(StepOf(s, x).conns[|s.conns|]);
    }
    hide CanStep, StepOf, FlightAgrees;
    forall c | 0 <= c < |StepOf(s, x).conns|
      ensures FlightAgrees(StepOf(s, x).conns[c])
    {
      assert c != Owner(x) && c < |s.conns| ==> StepOf(s, x).conns[c] == s.conns[c];
    }
  }

  lemma {:induction false} RunKeepsFlight(s: System, steps: seq<Step>)
    requires LegalRun(s, steps) && forall c | 0 <= c < |s.conns| :: FlightAgrees(s.conns[c])
    ensures forall c | 0 <= c < |RunOf(s, steps).conns| :: FlightAgrees(RunOf(s, steps).conns[c])
    decreases |steps|
  {
    if steps != [] {
      StepKeepsFlight(s, steps[0]);
      hide FlightAgrees, StepOf;
      RunKeepsFlight(StepOf(s, steps[0]), steps[1..]);
    }
  }

  /**
    In every run, a connected helper whose loop goes on either has one exchange on its way, or can
    start the next one as soon as something is to be said; a tick is enough.
   */
  lemma NextExchangeIsPossible(failFast: bool, steps: seq<Step>, c: nat)
    requires LegalRun(Boot(failFast), steps)
    requires var s := RunOf(Boot(failFast), steps); c < |s.conns| && s.conns[c].chan != Closed && !s.conns[c].helper.over
    ensures var s := RunOf(Boot(failFast), steps);
      && (s.conns[c].helper.inFlight <==> s.conns[c].chan.Asked? || s.conns[c].chan.Answered?)
      && CanStep(s, Tick(c)) && |StepOf(s, Tick(c)).conns| == |s.conns|
      && (!s.conns[c].helper.inFlight ==> CanStep(StepOf(s, Tick(c)), Send(c)))
      && (s.conns[c].helper.inFlight ==> !CanStep(s, Send(c)))
  {
    RunKeepsFlight(Boot(failFast), steps);
    hide RunOf, LegalRun;
    assert FlightAgrees(RunOf(Boot(failFast), steps).conns[c]);
  }

  /** A helper that has left takes no further part. */
  lemma QuitIsForGood(s: System, c: nat)
    requires CanStep(s, Quit(c))
    ensures var t := StepOf(s, Quit(c));
      && |t.conns| == |s.conns| && t.conns[c].helper.over
      && !CanStep(t, Send(c)) && !CanStep(t, Deliver(c)) && !CanStep(t, Tick(c)) && !CanStep(t, TakeReady(c))
  {
  }
}
