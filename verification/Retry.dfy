/**
  Running one test: repetitions, retries of failures, and what is reported, cached and recorded,
  whatever the attempts turn out to do.
 */
module Retry {
  import opened Common

  datatype Outcome = Pass | Fail | Cancel

  /** One attempt; `deps` is None if its inputs could not be captured. */
  datatype Attempt = Attempt(duration: nat, outcome: Outcome, deps: Option<seq<string>>)

  /** What the attempt with this repetition and retry number will do. */
  type Oracle = (nat, nat) -> Attempt

  datatype Verdict = Passed | Flaky | Failed | Interrupted

  datatype Record = Record(verdict: Verdict, total: nat, attempts: nat, deps: Option<seq<string>>)

  datatype Report = Report(
    verdict: Verdict, cached: bool, total: nat, failures: seq<Attempt>, attempts: nat,
    put: Option<seq<string>>, history: Option<Record>)

  // ------------------------------------------------------------------------------------------
  // The attempts that are made
  // ------------------------------------------------------------------------------------------

  /** One repetition, from retry number `retry`: failures are retried up to `max` times. */
  function Tries(oracle: Oracle, max: nat, rep: nat, retry: nat): (r: seq<Attempt>)
    requires retry <= max
    ensures r != []
    decreases max - retry
  {
    var a := oracle(rep, retry);
    if a.outcome == Fail && retry < max then [a] + Tries(oracle, max, rep, retry + 1) else [a]
  }

  function Last(s: seq<Attempt>): Attempt
    requires s != []
  {
    s[|s| - 1]
  }

  /** All attempts from repetition `rep` on; one that does not end in a pass ends the run. */
  function Log(oracle: Oracle, max: nat, count: nat, rep: nat): seq<Attempt>
    requires rep <= count
    decreases count - rep
  {
    if rep == count then []
    else
      var t := Tries(oracle, max, rep, 0);
      if Last(t).outcome == Pass then t + Log(oracle, max, count, rep + 1) else t
  }

  function Duration(a: Attempt): nat { a.duration }

  function FailuresOf(log: seq<Attempt>): seq<Attempt> {
    if log == [] then [] else (if log[0].outcome == Fail then [log[0]] else []) + FailuresOf(log[1..])
  }

  /** All captured inputs, attempt after attempt. */
  function DepsOf(log: seq<Attempt>): seq<string> {
    if log == [] then [] else (if log[0].deps.Some? then log[0].deps.value else []) + DepsOf(log[1..])
  }

  predicate Complete(log: seq<Attempt>) {
    forall i | 0 <= i < |log| :: log[i].deps.Some?
  }

  predicate AllFail(s: seq<Attempt>) {
    forall i | 0 <= i < |s| :: s[i].outcome == Fail
  }

  predicate PassesAll(log: seq<Attempt>) {
    log == [] || Last(log).outcome == Pass
  }

  // ------------------------------------------------------------------------------------------
  // The shape of the log
  // ------------------------------------------------------------------------------------------

  /** A repetition is at most `max` failures and then a pass, a cancellation, or one failure too many. */
  lemma {:induction false} TriesShape(oracle: Oracle, max: nat, rep: nat, retry: nat)
    requires retry <= max
    ensures var t := Tries(oracle, max, rep, retry);
      && |t| <= max - retry + 1 && AllFail(t[..|t| - 1])
      && (Last(t).outcome == Fail ==> |t| == max - retry + 1)
    decreases max - retry
  {
    var a, t := oracle(rep, retry), Tries(oracle, max, rep, retry);
    if a.outcome == Fail && retry < max {
      var rest := Tries(oracle, max, rep, retry + 1);
      TriesShape(oracle, max, rep, retry + 1);
      assert t[..|t| - 1] == [a] + rest[..|rest| - 1];
      assert Last(t) == Last(rest);
    }
  }

  lemma {:induction false} FailuresAppend(a: seq<Attempt>, b: seq<Attempt>)
    ensures FailuresOf(a + b) == FailuresOf(a) + FailuresOf(b)
  {
    if a == [] {
      assert a + b == b;
    } else {
      assert (a + b)[1..] == a[1..] + b && (a + b)[0] == a[0];
      FailuresAppend(a[1..], b);
      var first := if a[0].outcome == Fail then [a[0]] else [];
      assert first + (FailuresOf(a[1..]) + FailuresOf(b)) == first + FailuresOf(a[1..]) + FailuresOf(b);
    }
  }

  lemma {:induction false} AllFailures(s: seq<Attempt>)
    requires AllFail(s)
    ensures FailuresOf(s) == s
  {
    if s != [] {
      AllFailures(s[1..]);
      assert s == [s[0]] + s[1..];
    }
  }

  /** A repetition that ends in a pass has one more attempt than failures. */
  lemma PassingTries(oracle: Oracle, max: nat, rep: nat)
    ensures var t := Tries(oracle, max, rep, 0);
      Last(t).outcome == Pass ==> |FailuresOf(t)| == |t| - 1 <= max
  {
    var t := Tries(oracle, max, rep, 0);
    TriesShape(oracle, max, rep, 0);
    AllFailures(t[..|t| - 1]);
    FailuresAppend(t[..|t| - 1], [Last(t)]);
    assert t == t[..|t| - 1] + [Last(t)];
    assert [Last(t)][1..] == [];
  }

  /** On success there is one pass per repetition: attempts are repetitions and failures. */
  lemma {:induction false} SuccessCounts(oracle: Oracle, max: nat, count: nat, rep: nat)
    requires rep <= count && PassesAll(Log(oracle, max, count, rep))
    ensures |Log(oracle, max, count, rep)| == (count - rep) + |FailuresOf(Log(oracle, max, count, rep))|
    decreases count - rep
  {
    if rep < count {
      var t, rest := Tries(oracle, max, rep, 0), Log(oracle, max, count, rep + 1);
      PassingTries(oracle, max, rep);
      assert rest != [] ==> Last(t + rest) == Last(rest);
      SuccessCounts(oracle, max, count, rep + 1);
      FailuresAppend(t, rest);
    }
  }

  /** On success every repetition passes, with at most `max` failures before its pass. */
  lemma {:induction false} EachPasses(oracle: Oracle, max: nat, count: nat, rep: nat, r: nat)
    requires rep <= r < count && PassesAll(Log(oracle, max, count, rep))
    ensures Last(Tries(oracle, max, r, 0)).outcome == Pass && |FailuresOf(Tries(oracle, max, r, 0))| <= max
    decreases count - rep
  {
    var t, rest := Tries(oracle, max, rep, 0), Log(oracle, max, count, rep + 1);
    assert rest != [] ==> Last(t + rest) == Last(rest);
    if r == rep {
      PassingTries(oracle, max, rep);
    } else {
      EachPasses(oracle, max, count, rep + 1, r);
    }
  }

  /** The last max + 1 attempts all failed. */
  predicate Exhausted(log: seq<Attempt>, max: nat) {
    |log| > max && AllFail(log[|log| - max - 1..])
  }

  lemma ExhaustedHere(t: seq<Attempt>, max: nat)
    requires |t| == max + 1 && AllFail(t[..max]) && Last(t).outcome == Fail
    ensures Exhausted(t, max)
  {
    assert t[0..] == t;
    assert forall i | 0 <= i < max :: t[..max][i] == t[i];
  }

  lemma ExhaustedAfter(t: seq<Attempt>, rest: seq<Attempt>, max: nat)
    requires Exhausted(rest, max)
    ensures Exhausted(t + rest, max)
  {
    var log := t + rest;
    assert log[|log| - max - 1..] == rest[|rest| - max - 1..];
  }

  /** On failure the last max + 1 attempts all failed: no retry was left out, none was wasted. */
  lemma {:induction false} FailureExhausts(oracle: Oracle, max: nat, count: nat, rep: nat)
    requires rep <= count
    ensures var log := Log(oracle, max, count, rep); log != [] && Last(log).outcome == Fail ==> Exhausted(log, max)
    decreases count - rep
  {
    if rep < count {
      hide Exhausted, Tries, AllFail;
      var t := Tries(oracle, max, rep, 0);
      TriesShape(oracle, max, rep, 0);
      if Last(t).outcome == Pass {
        var rest := Log(oracle, max, count, rep + 1);
        FailureExhausts(oracle, max, count, rep + 1);
        LastOfBoth(t, rest);
        if rest != [] && Last(rest).outcome == Fail {
          ExhaustedAfter(t, rest, max);
        }
      } else if Last(t).outcome == Fail {
        ExhaustedHere(t, max);
      }
    }
  }

  lemma LastOfBoth(t: seq<Attempt>, rest: seq<Attempt>)
    requires t + rest != []
    ensures Last(t + rest) == if rest == [] then Last(t) else Last(rest)
  {
    if rest == [] {
      assert t + rest == t;
    }
  }

  // ------------------------------------------------------------------------------------------
  // What is reported
  // ------------------------------------------------------------------------------------------

  function HistoryDeps(log: seq<Attempt>): Option<seq<string>> {
    CompleteDeps(DepsOf(log), Complete(log))
  }

  /** A pass may be cached only if it is the single attempt of a single repetition. */
  function CachePut(log: seq<Attempt>, count: nat, cache: bool): Option<seq<string>> {
    if cache && count == 1 && |log| == 1 && log[0].outcome == Pass then log[0].deps else None
  }

  function ReportOf(log: seq<Attempt>, count: nat, cache: bool): Report {
    var total, failures, n := Sum(log, Duration), FailuresOf(log), |log|;
    if PassesAll(log) then
      var verdict := if failures == [] then Passed else Flaky;
      Report(verdict, false, total, failures, n, CachePut(log, count, cache), Some(Record(verdict, total, n, HistoryDeps(log))))
    else if Last(log).outcome == Fail then
      Report(Failed, false, total, failures, n, None, Some(Record(Failed, total, n, HistoryDeps(log))))
    else
      Report(Interrupted, false, 0, [], n, None, None)
  }

  /** The attempts of a repetition are the oracle's, by their numbers. */
  lemma {:induction false} TriesAreTheOracles(oracle: Oracle, max: nat, rep: nat, retry: nat, i: nat)
    requires retry <= max && i < |Tries(oracle, max, rep, retry)|
    ensures Tries(oracle, max, rep, retry)[i] == oracle(rep, retry + i)
    decreases max - retry
  {
    if i > 0 {
      TriesAreTheOracles(oracle, max, rep, retry + 1, i - 1);
    }
  }

  /** The accounting of a whole run, for every oracle. */
  lemma RunAccounts(oracle: Oracle, max: nat, count: nat, cache: bool)
    ensures var log := Log(oracle, max, count, 0);
      var r := ReportOf(log, count, cache);
      && (r.verdict == Passed || r.verdict == Flaky <==> log == [] || Last(log).outcome == Pass)
      && (r.verdict == Passed || r.verdict == Flaky ==> r.attempts == count + |r.failures|)
      && (r.verdict == Flaky <==> PassesAll(log) && exists i :: 0 <= i < |log| && log[i].outcome == Fail)
      && (r.verdict == Failed <==> log != [] && Last(log).outcome == Fail) && (r.verdict == Failed ==> Exhausted(log, max))
      && (r.verdict == Interrupted ==> r.put.None? && r.history.None?)
  {
    var log := Log(oracle, max, count, 0);
    if PassesAll(log) {
      SuccessCounts(oracle, max, count, 0);
    }
    FailureExhausts(oracle, max, count, 0);
    FailuresMember(log);
    hide Log, Sum, DepsOf, CachePut, HistoryDeps, Exhausted, FailuresOf;
  }

  /**
    What is stored and recorded: inputs are stored exactly for the one passing attempt of a single
    repetition that captured them; the record has the verdict, the total and the number of attempts
    that are reported, and all captured inputs, or none if some capture failed.
   */
  lemma RunRecords(log: seq<Attempt>, count: nat, cache: bool)
    ensures var r := ReportOf(log, count, cache);
      && (r.put.Some? <==> cache && count == 1 && |log| == 1 && log[0].outcome == Pass && log[0].deps.Some?)
      && (r.put.Some? ==> r.put == log[0].deps && r.verdict == Passed)
      && r.attempts == |log|
      && (r.verdict != Interrupted ==> r.total == Sum(log, Duration) && r.failures == FailuresOf(log) && r.history.Some?)
      && (r.history.Some? ==>
            && r.history.value.verdict == r.verdict && r.history.value.total == r.total && r.history.value.attempts == r.attempts
            && (r.history.value.deps.None? <==> exists i :: 0 <= i < |log| && log[i].deps.None?)
            && (r.history.value.deps.Some? ==> r.history.value.deps.value == DepsOf(log)))
  {
    PutIff(log, count, cache);
    hide Sum, DepsOf, FailuresOf, CachePut;
  }

  lemma PutIff(log: seq<Attempt>, count: nat, cache: bool)
    ensures CachePut(log, count, cache).Some? <==> cache && count == 1 && |log| == 1 && log[0].outcome == Pass && log[0].deps.Some?
    ensures CachePut(log, count, cache).Some? ==> CachePut(log, count, cache) == log[0].deps && FailuresOf(log) == [] && PassesAll(log)
    ensures CachePut(log, count, cache).Some? ==> log != []
  {
    if CachePut(log, count, cache).Some? {
      assert log[1..] == [];
    }
  }

  lemma {:induction false} FailuresMember(log: seq<Attempt>)
    ensures FailuresOf(log) != [] <==> exists i :: 0 <= i < |log| && log[i].outcome == Fail
  {
    if log != [] {
      FailuresMember(log[1..]);
      if log[0].outcome != Fail {
        if i :| 0 <= i < |log| && log[i].outcome == Fail {
          assert log[1..][i - 1].outcome == Fail;
        }
        if i :| 0 <= i < |log[1..]| && log[1..][i].outcome == Fail {
          assert log[i + 1].outcome == Fail;
        }
      }
    }
  }

  // ------------------------------------------------------------------------------------------
  // The program
  // ------------------------------------------------------------------------------------------

  /** The variables the loops keep. */
  datatype Tally = Tally(total: nat, failures: seq<Attempt>, attempts: nat, deps: seq<string>, complete: bool)

  const ZERO: Tally := Tally(0, [], 0, [], true)

  /** They sum up the attempts of `log`. */
  ghost predicate Tallies(log: seq<Attempt>, t: Tally) {
    && t.total == Sum(log, Duration) && t.failures == FailuresOf(log) && t.attempts == |log|
    && t.deps == DepsOf(log) && t.complete == Complete(log)
  }

  function Add(t: Tally, a: Attempt): Tally {
    Tally(t.total + a.duration, if a.outcome == Fail then t.failures + [a] else t.failures, t.attempts + 1,
          if a.deps.Some? then t.deps + a.deps.value else t.deps, t.complete && a.deps.Some?)
  }

  lemma {:induction false} DepsAppend(a: seq<Attempt>, b: seq<Attempt>)
    ensures DepsOf(a + b) == DepsOf(a) + DepsOf(b)
  {
    if a == [] {
      assert a + b == b;
    } else {
      assert (a + b)[1..] == a[1..] + b;
      DepsAppend(a[1..], b);
    }
  }

  lemma FailuresNext(log: seq<Attempt>, a: Attempt)
    ensures FailuresOf(log + [a]) == if a.outcome == Fail then FailuresOf(log) + [a] else FailuresOf(log)
  {
    assert [a][1..] == [];
    FailuresAppend(log, [a]);
  }

  lemma DepsNext(log: seq<Attempt>, a: Attempt)
    ensures DepsOf(log + [a]) == if a.deps.Some? then DepsOf(log) + a.deps.value else DepsOf(log)
  {
    assert [a][1..] == [];
    DepsAppend(log, [a]);
  }

  lemma TotalNext(log: seq<Attempt>, a: Attempt)
    ensures Sum(log + [a], Duration) == Sum(log, Duration) + a.duration
  {
    assert [a][1..] == [];
    SumAppend(log, [a], Duration);
  }

  lemma CompleteNext(log: seq<Attempt>, a: Attempt)
    ensures Complete(log + [a]) <==> Complete(log) && a.deps.Some?
  {
    assert forall i | 0 <= i < |log| :: (log + [a])[i] == log[i];
    assert (log + [a])[|log|] == a;
  }

  lemma TallyNext(log: seq<Attempt>, a: Attempt, t: Tally)
    requires Tallies(log, t)
    ensures Tallies(log + [a], Add(t, a))
  {
    hide FailuresOf, DepsOf, Complete, Sum;
    TotalNext(log, a);
    FailuresNext(log, a);
    DepsNext(log, a);
    CompleteNext(log, a);
  }

  /** The log after one more repetition. */
  ghost function After(oracle: Oracle, max: nat, rep: nat, log: seq<Attempt>): (r: seq<Attempt>)
    ensures r != []
  {
    log + Tries(oracle, max, rep, 0)
  }

  /** One repetition: attempts until one passes, is cancelled, or was the last retry. */
  method Repeat(oracle: Oracle, max: nat, repetition: nat, before: Tally, ghost done: seq<Attempt>) returns (t: Tally, last: Attempt)
    requires Tallies(done, before)
    ensures Tallies(After(oracle, max, repetition, done), t) && last == Last(After(oracle, max, repetition, done))
  {
    t := before;
    ghost var log, all := done, After(oracle, max, repetition, done);
    var retry := 0;
    assert Goes(oracle, max, repetition, retry, log, all);
    hide Tallies, Tries, Goes, After;
    while true
      invariant 0 <= retry <= max && Tallies(log, t) && Goes(oracle, max, repetition, retry, log, all)
      decreases max - retry
    {
      last := oracle(repetition, retry);
      TallyNext(log, last, t);
      GoesOn(oracle, max, repetition, retry, log, all);
      log := log + [last];
      t := t.(total := t.total + last.duration, attempts := t.attempts + 1);
      if last.deps.None? {
        t := t.(complete := false);
      } else {
        t := t.(deps := t.deps + last.deps.value);
      }
      if last.outcome == Fail {
        t := t.(failures := t.failures + [last]);
      }
      if last.outcome != Fail || retry == max {
        return;
      }
      retry := retry + 1;
    }
  }

  /** From retry number `retry` on, a repetition completes `log` to `all`. */
  ghost predicate Goes(oracle: Oracle, max: nat, rep: nat, retry: nat, log: seq<Attempt>, all: seq<Attempt>) {
    retry <= max && log + Tries(oracle, max, rep, retry) == all
  }

  /** The next attempt is the last of its repetition, or a failure that is retried. */
  lemma GoesOn(oracle: Oracle, max: nat, rep: nat, retry: nat, log: seq<Attempt>, all: seq<Attempt>)
    requires Goes(oracle, max, rep, retry, log, all)
    ensures var a := oracle(rep, retry);
      if a.outcome == Fail && retry < max then Goes(oracle, max, rep, retry + 1, log + [a], all) else log + [a] == all && Last(all) == a
  {
    var a := oracle(rep, retry);
    if a.outcome == Fail && retry < max {
      assert log + ([a] + Tries(oracle, max, rep, retry + 1)) == log + [a] + Tries(oracle, max, rep, retry + 1);
    }
  }

  lemma ReportIs(log: seq<Attempt>, count: nat, cache: bool, t: Tally)
    requires Tallies(log, t)
    ensures var history := CompleteDeps(t.deps, t.complete);
      var verdict := if t.failures != [] then Flaky else Passed;
      ReportOf(log, count, cache) ==
        if PassesAll(log) then
          Report(verdict, false, t.total, t.failures, t.attempts, CachePut(log, count, cache), Some(Record(verdict, t.total, t.attempts, history)))
        else if Last(log).outcome == Fail then
          Report(Failed, false, t.total, t.failures, t.attempts, None, Some(Record(Failed, t.total, t.attempts, history)))
        else Report(Interrupted, false, 0, [], t.attempts, None, None)
  {
  }

  /** From repetition `rep` on, the run completes `log` to `all`. */
  ghost predicate Leads(oracle: Oracle, max: nat, count: nat, rep: nat, log: seq<Attempt>, all: seq<Attempt>) {
    rep <= count && log + Log(oracle, max, count, rep) == all
  }

  /** A repetition that passes leads to the next; any other is the last. */
  lemma LeadsOn(oracle: Oracle, max: nat, count: nat, rep: nat, log: seq<Attempt>, all: seq<Attempt>)
    requires Leads(oracle, max, count, rep, log, all) && rep < count
    ensures var next := After(oracle, max, rep, log);
      if Last(next).outcome == Pass then Leads(oracle, max, count, rep + 1, next, all) else next == all
  {
    hide Tries;
    var t, rest := Tries(oracle, max, rep, 0), Log(oracle, max, count, rep + 1);
    LastOfBoth(log, t);
    assert log + (t + rest) == log + t + rest;
  }

  /** Without failures, the single attempt of a single repetition is the one whose inputs may be stored. */
  lemma PutIs(log: seq<Attempt>, count: nat, cache: bool, t: Tally)
    requires Tallies(log, t) && PassesAll(log) && |log| == count + |FailuresOf(log)|
    ensures CachePut(log, count, cache) == if cache && t.failures == [] && count == 1 then Last(log).deps else None
  {
    if |log| == 1 && count == 1 {
      assert log[0] == Last(log);
    }
  }

  lemma LeadsEnds(oracle: Oracle, max: nat, count: nat, log: seq<Attempt>, all: seq<Attempt>)
    requires Leads(oracle, max, count, count, log, all)
    ensures log == all
  {
  }

  /** All repetitions, until one does not pass; `last` is the last attempt made. */
  method RunAll(oracle: Oracle, max: nat, count: nat) returns (t: Tally, last: Attempt)
    ensures Tallies(Log(oracle, max, count, 0), t) && EndsWith(Log(oracle, max, count, 0), last)
    ensures Log(oracle, max, count, 0) == [] ==> last.outcome == Pass
  {
    t, last := ZERO, Attempt(0, Pass, None);
    ghost var log: seq<Attempt> := [];
    ghost var all := Log(oracle, max, count, 0);
    assert Tallies(log, t) && Leads(oracle, max, count, 0, log, all) && EndsWith(log, last);
    hide Log, Tries, Tallies, Leads, EndsWith, After;
    for repetition := 0 to count
      invariant Tallies(log, t) && Leads(oracle, max, count, repetition, log, all)
      invariant EndsWith(log, last) && last.outcome == Pass
    {
      LeadsOn(oracle, max, count, repetition, log, all);
      t, last := Repeat(oracle, max, repetition, t, log);
      log := After(oracle, max, repetition, log);
      Ended(log, last);
      if last.outcome != Pass {
        return;
      }
    }
    LeadsEnds(oracle, max, count, log, all);
  }

  ghost predicate EndsWith(log: seq<Attempt>, last: Attempt) {
    log != [] ==> Last(log) == last
  }

  lemma Ended(log: seq<Attempt>, last: Attempt)
    requires log != [] && Last(log) == last
    ensures EndsWith(log, last)
  {
  }

  lemma EndsMeans(log: seq<Attempt>, last: Attempt)
    requires EndsWith(log, last)
    ensures log != [] ==> Last(log) == last
  {
  }

  /** Runs a test, or replays a valid cached pass, whose duration is `hit`. */
  method RunTest(oracle: Oracle, max: nat, count: nat, cache: bool, hit: Option<nat>) returns (r: Report)
    ensures r == if cache && hit.Some? then Report(Passed, true, hit.value, [], 0, None, None)
                 else ReportOf(Log(oracle, max, count, 0), count, cache)
  {
    if cache && hit.Some? {
      return Report(Passed, true, hit.value, [], 0, None, None);
    }
    hide Log, ReportOf, Tallies, CachePut, FailuresOf, CompleteDeps;
    var t, last := RunAll(oracle, max, count);
    ghost var log := Log(oracle, max, count, 0);
    ReportIs(log, count, cache, t);
    if last.outcome == Cancel {
      return Report(Interrupted, false, 0, [], t.attempts, None, None);
    }
    if last.outcome == Fail {
      return Report(Failed, false, t.total, t.failures, t.attempts, None, Some(Record(Failed, t.total, t.attempts, CompleteDeps(t.deps, t.complete))));
    }
    var cacheDeps := if |t.failures| == 0 && count == 1 then last.deps else None;
    SuccessCounts(oracle, max, count, 0);
    PassReport(log, count, cache, t, cacheDeps);
    var put := if |t.failures| == 0 && cache then cacheDeps else None;
    var verdict := if |t.failures| != 0 then Flaky else Passed;
    return Report(verdict, false, t.total, t.failures, t.attempts, put, Some(Record(verdict, t.total, t.attempts, CompleteDeps(t.deps, t.complete))));
  }

  lemma PassReport(log: seq<Attempt>, count: nat, cache: bool, t: Tally, cacheDeps: Option<seq<string>>)
    requires Tallies(log, t) && PassesAll(log) && |log| == count + |FailuresOf(log)|
    requires cacheDeps == if count == 1 && t.failures == [] then Last(log).deps else None
    ensures var verdict := if t.failures != [] then Flaky else Passed;
      ReportOf(log, count, cache) ==
        Report(verdict, false, t.total, t.failures, t.attempts, if t.failures == [] && cache then cacheDeps else None,
               Some(Record(verdict, t.total, t.attempts, CompleteDeps(t.deps, t.complete))))
  {
    PutIs(log, count, cache, t);
    ReportIs(log, count, cache, t);
    hide ReportOf, Tallies, CachePut;
  }

  function CompleteDeps(deps: seq<string>, complete: bool): Option<seq<string>> {
    if complete then Some(deps) else None
  }
}
