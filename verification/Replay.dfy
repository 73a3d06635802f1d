/**
  Soundness of the result cache: if an entry recorded by one run of a deterministic test still
  validates, running the test again makes the same queries and reaches the same verdict.
 */
module Replay {
  import opened Common
  import opened Texts
  import opened ResultCache

  // ------------------------------------------------------------------------------------------
  // Test processes
  // ------------------------------------------------------------------------------------------

  datatype Query = Getenv(name: string) | Open(name: string) | Stat(name: string) | Chdir(name: string)

  datatype Answer = EnvIs(value: Option<string>) | FileIs(meta: string, content: Option<string>) | MetaIs(meta: string) | Moved(ok: bool)

  datatype Action = Ask(query: Query) | Exit(passed: bool)

  /** A deterministic test: what it does next is a function of all it has seen. */
  type Program = seq<Answer> -> Action

  /** How a test process is started; whether a directory can be entered depends on its metadata. */
  datatype Setup = Setup(workDir: string, root: string, enters: string -> bool)

  predicate Enters(w: World, su: Setup, pwd: string, name: string) {
    su.enters(w.meta(Resolve(pwd, name)))
  }

  function Reply(w: World, su: Setup, pwd: string, q: Query): Answer {
    match q
    case Getenv(n) => EnvIs(w.env(n))
    case Open(n) => FileIs(w.meta(Resolve(pwd, n)), w.content(Resolve(pwd, n)))
    case Stat(n) => MetaIs(w.meta(Resolve(pwd, n)))
    case Chdir(n) => Moved(Enters(w, su, pwd, n))
  }

  function PwdAfter(w: World, su: Setup, pwd: string, q: Query): string {
    if q.Chdir? && Enters(w, su, pwd, q.name) then Resolve(pwd, q.name) else pwd
  }

  /** A run of `prog` from `pwd` that has seen `past`, makes the queries of `trace` and exits with `passed`. */
  ghost predicate Runs(prog: Program, w: World, su: Setup, pwd: string, past: seq<Answer>, trace: seq<Query>, passed: bool)
    decreases |trace|
  {
    if trace == [] then prog(past) == Exit(passed)
    else
      && prog(past) == Ask(trace[0])
      && Runs(prog, w, su, PwdAfter(w, su, pwd, trace[0]), past + [Reply(w, su, pwd, trace[0])], trace[1..], passed)
  }

  /** The whole run of a test process: the runtime has read GODEBUG before the test begins. */
  ghost predicate RunsIn(prog: Program, w: World, su: Setup, trace: seq<Query>, passed: bool) {
    Runs(prog, w, su, su.workDir, [EnvIs(w.env("GODEBUG"))], trace, passed)
  }

  // ------------------------------------------------------------------------------------------
  // The log of a process
  // ------------------------------------------------------------------------------------------

  /** A chdir is logged with the directory it led to; one that failed is logged as an open. */
  function LoggedOp(w: World, su: Setup, pwd: string, q: Query): string {
    match q
    case Getenv(_) => "getenv"
    case Open(_) => "open"
    case Stat(_) => "stat"
    case Chdir(n) => if Enters(w, su, pwd, n) then "chdir" else "open"
  }

  function LoggedName(w: World, su: Setup, pwd: string, q: Query): string {
    if q.Chdir? && Enters(w, su, pwd, q.name) then Resolve(pwd, q.name) else q.name
  }

  function LineFor(w: World, su: Setup, pwd: string, q: Query): string {
    LoggedOp(w, su, pwd, q) + [' '] + LoggedName(w, su, pwd, q)
  }

  function LinesFor(w: World, su: Setup, pwd: string, trace: seq<Query>): seq<string>
    decreases |trace|
  {
    if trace == [] then [] else [LineFor(w, su, pwd, trace[0])] + LinesFor(w, su, PwdAfter(w, su, pwd, trace[0]), trace[1..])
  }

  function LogFor(w: World, su: Setup, trace: seq<Query>): string {
    Unlines([HEADER] + LinesFor(w, su, su.workDir, trace))
  }

  /** What is captured from a run: the dependencies parsed from its log, in the world it ran in. */
  function EntryOf(w: World, su: Setup, trace: seq<Query>): Result<seq<Dep>, string> {
    Parse(w, su.workDir, su.root, LogFor(w, su, trace))
  }

  /** A name that a log line carries unharmed: no line break, no NUL, no carriage return at its end. */
  predicate Loggable(name: string) {
    name != "" && OneLine(name) && '\0' !in name
  }

  /** The query leaves a trace in the entry: its name is loggable, and a file it reads is inside the root. */
  predicate Tracked(w: World, su: Setup, pwd: string, q: Query) {
    && Loggable(LoggedName(w, su, pwd, q))
    && (q.Getenv? || (q.Chdir? && Enters(w, su, pwd, q.name)) || WithinRoot(Resolve(pwd, q.name), su.root))
  }

  predicate AllTracked(w: World, su: Setup, pwd: string, trace: seq<Query>)
    decreases |trace|
  {
    trace != [] ==> Tracked(w, su, pwd, trace[0]) && AllTracked(w, su, PwdAfter(w, su, pwd, trace[0]), trace[1..])
  }

  // ------------------------------------------------------------------------------------------
  // What the entry records
  // ------------------------------------------------------------------------------------------

  /** The dependency a tracked query leaves, if its content can be read. */
  function DepFor(w: World, su: Setup, pwd: string, q: Query): Dep {
    var op, name := LoggedOp(w, su, pwd, q), LoggedName(w, su, pwd, q);
    if op == "getenv" then EnvDep(w, name)
    else
      var path := Resolve(pwd, q.name);
      Dep(op, name, path, None, None, Some(Fingerprint(w.meta(path), if op == "open" then w.content(path) else None)))
  }

  predicate Readable(w: World, su: Setup, pwd: string, q: Query) {
    LoggedOp(w, su, pwd, q) == "open" ==> w.content(Resolve(pwd, q.name)).Some?
  }

  lemma LineParses(w: World, su: Setup, pwd: string, q: Query, deps: seq<Dep>)
    requires Tracked(w, su, pwd, q)
    ensures var r := ParseLine(w, su.root, Cursor(pwd, deps), LineFor(w, su, pwd, q));
      && (r.Ok? <==> Readable(w, su, pwd, q))
      && (r.Ok? ==> r.value == Cursor(PwdAfter(w, su, pwd, q), deps + [DepFor(w, su, pwd, q)]))
  {
    hide Resolve, WithinRoot, ParseLine, OneLine;
    ParseCutLine(w, su.root, Cursor(pwd, deps), LoggedOp(w, su, pwd, q), LoggedName(w, su, pwd, q));
    match q {
      case Chdir(n) => ResolveIsAbsolute(pwd, n, pwd);
      case _ =>
    }
  }

  function DepsFor(w: World, su: Setup, pwd: string, trace: seq<Query>): seq<Dep>
    decreases |trace|
  {
    if trace == [] then [] else [DepFor(w, su, pwd, trace[0])] + DepsFor(w, su, PwdAfter(w, su, pwd, trace[0]), trace[1..])
  }

  lemma ParseCons(w: World, root: string, c: Cursor, line: string, rest: seq<string>)
    ensures var r := ParseLine(w, root, c, line);
      ParseLines(w, root, c, [line] + rest) == if r.Ok? then ParseLines(w, root, r.value, rest) else r
  {
    assert ([line] + rest)[1..] == rest;
  }

  /** The process's working directory after a run. */
  function PwdAfterAll(w: World, su: Setup, pwd: string, trace: seq<Query>): string
    decreases |trace|
  {
    if trace == [] then pwd else PwdAfterAll(w, su, PwdAfter(w, su, pwd, trace[0]), trace[1..])
  }

  /** After the lines of any run, the parser's working directory is the process's, and it has the run's inputs in order. */
  lemma {:induction false} LinesParse(w: World, su: Setup, pwd: string, trace: seq<Query>, deps: seq<Dep>)
    requires AllTracked(w, su, pwd, trace)
    ensures var r := ParseLines(w, su.root, Cursor(pwd, deps), LinesFor(w, su, pwd, trace));
      r.Ok? ==> r.value == Cursor(PwdAfterAll(w, su, pwd, trace), deps + DepsFor(w, su, pwd, trace))
    decreases |trace|
  {
    hide ParseLine, LineFor, DepFor, PwdAfter, Tracked, Readable;
    if trace == [] {
      assert deps + [] == deps;
    } else {
      var next, d, line := PwdAfter(w, su, pwd, trace[0]), DepFor(w, su, pwd, trace[0]), LineFor(w, su, pwd, trace[0]);
      LineParses(w, su, pwd, trace[0], deps);
      hide ParseLines;
      ParseCons(w, su.root, Cursor(pwd, deps), line, LinesFor(w, su, next, trace[1..]));
      LinesParse(w, su, next, trace[1..], deps + [d]);
      assert deps + [d] + DepsFor(w, su, next, trace[1..]) == deps + ([d] + DepsFor(w, su, next, trace[1..]));
    }
  }

  lemma LineIsLine(w: World, su: Setup, pwd: string, q: Query)
    requires Tracked(w, su, pwd, q)
    ensures OneLine(LineFor(w, su, pwd, q))
  {
    hide Resolve, WithinRoot;
    var line, name := LineFor(w, su, pwd, q), LoggedName(w, su, pwd, q);
    assert line[|line| - 1] == name[|name| - 1];
    assert '\n' !in LoggedOp(w, su, pwd, q);
  }

  lemma {:induction false} LinesAreLines(w: World, su: Setup, pwd: string, trace: seq<Query>)
    requires AllTracked(w, su, pwd, trace)
    ensures forall i | 0 <= i < |LinesFor(w, su, pwd, trace)| :: OneLine(LinesFor(w, su, pwd, trace)[i])
    decreases |trace|
  {
    hide Tracked, LineFor, PwdAfter, OneLine;
    if trace != [] {
      LineIsLine(w, su, pwd, trace[0]);
      LinesAreLines(w, su, PwdAfter(w, su, pwd, trace[0]), trace[1..]);
    }
  }

  /** All that a run reads, GODEBUG first. */
  function Inputs(w: World, su: Setup, trace: seq<Query>): seq<Dep> {
    [EnvDep(w, "GODEBUG")] + DepsFor(w, su, su.workDir, trace)
  }

  /** The entry captured from a run is the deduplicated list of its inputs. */
  lemma EntryIsInputs(w: World, su: Setup, trace: seq<Query>)
    requires AllTracked(w, su, su.workDir, trace)
    ensures var r := EntryOf(w, su, trace); r.Ok? ==> r.value == KeepLast(Inputs(w, su, trace))
  {
    var lines := [HEADER] + LinesFor(w, su, su.workDir, trace);
    LinesAreLines(w, su, su.workDir, trace);
    assert OneLine(HEADER);
    ScanUnlines(lines);
    assert lines[1..] == LinesFor(w, su, su.workDir, trace);
    LinesParse(w, su, su.workDir, trace, [EnvDep(w, "GODEBUG")]);
  }

  // ------------------------------------------------------------------------------------------
  // Deduplication forgets nothing
  // ------------------------------------------------------------------------------------------

  /** A dependency as the parser makes it in world `w`. */
  predicate Captured(w: World, d: Dep) {
    && '\0' !in d.op && '\0' !in d.name
    && (if d.op == "getenv" then d == EnvDep(w, d.name)
        else d == Dep(d.op, d.name, d.path, None, None, Some(Fingerprint(w.meta(d.path), if d.op == "open" then w.content(d.path) else None))))
  }

  lemma {:induction false} DepsCaptured(w: World, su: Setup, pwd: string, trace: seq<Query>)
    requires AllTracked(w, su, pwd, trace)
    ensures forall d | d in DepsFor(w, su, pwd, trace) :: Captured(w, d)
    decreases |trace|
  {
    hide Tracked, Captured, DepFor, PwdAfter;
    if trace != [] {
      DepCaptured(w, su, pwd, trace[0]);
      DepsCaptured(w, su, PwdAfter(w, su, pwd, trace[0]), trace[1..]);
    }
  }

  lemma DepCaptured(w: World, su: Setup, pwd: string, q: Query)
    requires Tracked(w, su, pwd, q)
    ensures Captured(w, DepFor(w, su, pwd, q))
  {
    hide Resolve, WithinRoot, OneLine;
  }

  lemma CapturedOnce(w: World, a: Dep, b: Dep)
    requires Captured(w, a) && Captured(w, b) && KeyOf(a) == KeyOf(b)
    ensures a == b
  {
    KeyDetermines(a, b);
  }

  /** Captured in one world, dependencies with the same key are the same, so one of each suffices. */
  lemma DedupHolds(w: World, v: World, deps: seq<Dep>)
    requires forall d | d in deps :: Captured(w, d)
    ensures AllHold(v, KeepLast(deps)) <==> AllHold(v, deps)
  {
    var kept := KeepLast(deps);
    KeepLastCovers(deps);
    hide Captured, KeyOf, Holds, KeepLast;
    if AllHold(v, kept) {
      forall i | 0 <= i < |deps|
        ensures Holds(v, deps[i])
      {
        assert KeyOf(deps[i]) in Keys(kept);
        var d :| d in kept && KeyOf(d) == KeyOf(deps[i]);
        CapturedOnce(w, d, deps[i]);
      }
    }
    if AllHold(v, deps) {
      assert forall i | 0 <= i < |kept| :: kept[i] in deps;
    }
  }

  // ------------------------------------------------------------------------------------------
  // Replay
  // ------------------------------------------------------------------------------------------

  /** A recorded input that still holds answers its query as before and leads to the same directory. */
  lemma HoldingAnswers(w: World, v: World, su: Setup, pwd: string, q: Query)
    requires Holds(v, DepFor(w, su, pwd, q))
    ensures Reply(v, su, pwd, q) == Reply(w, su, pwd, q) && PwdAfter(v, su, pwd, q) == PwdAfter(w, su, pwd, q)
  {
    hide Resolve;
  }

  lemma {:induction false} ReplayFrom(prog: Program, w: World, v: World, su: Setup, pwd: string, past: seq<Answer>, trace: seq<Query>, passed: bool)
    requires Runs(prog, w, su, pwd, past, trace, passed) && AllHold(v, DepsFor(w, su, pwd, trace))
    ensures Runs(prog, v, su, pwd, past, trace, passed)
    decreases |trace|
  {
    if trace != [] {
      var next := PwdAfter(w, su, pwd, trace[0]);
      AllHoldCons(v, DepFor(w, su, pwd, trace[0]), DepsFor(w, su, next, trace[1..]));
      HoldingAnswers(w, v, su, pwd, trace[0]);
      hide DepFor, Reply, PwdAfter, AllHold;
      ReplayFrom(prog, w, v, su, next, past + [Reply(w, su, pwd, trace[0])], trace[1..], passed);
    }
  }

  /** A deterministic test has one run in a world. */
  lemma {:induction false} OneRun(prog: Program, w: World, su: Setup, pwd: string, past: seq<Answer>, a: seq<Query>, p: bool, b: seq<Query>, q: bool)
    requires Runs(prog, w, su, pwd, past, a, p) && Runs(prog, w, su, pwd, past, b, q)
    ensures a == b && p == q
    decreases |a|
  {
    if a != [] {
      assert b != [] && a[0] == b[0];
      OneRun(prog, w, su, PwdAfter(w, su, pwd, a[0]), past + [Reply(w, su, pwd, a[0])], a[1..], p, b[1..], q);
      assert a == [a[0]] + a[1..] && b == [b[0]] + b[1..];
    }
  }

  /** The entry recorded from a run validates exactly in the worlds where every input of the run is unchanged. */
  lemma EntryValidIff(w: World, v: World, su: Setup, trace: seq<Query>)
    requires AllTracked(w, su, su.workDir, trace) && EntryOf(w, su, trace).Ok?
    ensures Changed(v, EntryOf(w, su, trace).value) == Ok([]) <==> AllHold(v, Inputs(w, su, trace))
  {
    EntryIsInputs(w, su, trace);
    DepsCaptured(w, su, su.workDir, trace);
    DedupHolds(w, v, Inputs(w, su, trace));
    ValidIff(v, KeepLast(Inputs(w, su, trace)));
  }

  /**
    Replay: any deterministic test, any world it ran in, any later world. If the entry parsed and
    deduplicated from the run's log validates in the later world, the test makes the same queries
    there and reaches the same verdict, and it cannot do anything else.
   */
  lemma ReplayTheorem(prog: Program, w: World, v: World, su: Setup, trace: seq<Query>, passed: bool)
    requires RunsIn(prog, w, su, trace, passed) && AllTracked(w, su, su.workDir, trace)
    requires EntryOf(w, su, trace).Ok?
    requires Changed(v, EntryOf(w, su, trace).value) == Ok([])
    ensures RunsIn(prog, v, su, trace, passed)
    ensures forall other, verdict | RunsIn(prog, v, su, other, verdict) :: other == trace && verdict == passed
  {
    EntryValidIff(w, v, su, trace);
    AllHoldCons(v, EnvDep(w, "GODEBUG"), DepsFor(w, su, su.workDir, trace));
    assert v.env("GODEBUG") == w.env("GODEBUG");
    hide Runs, AllHold, DepsFor, Changed, EntryOf;
    ReplayFrom(prog, w, v, su, su.workDir, [EnvIs(w.env("GODEBUG"))], trace, passed);
    forall other, verdict | RunsIn(prog, v, su, other, verdict)
      ensures other == trace && verdict == passed
    {
      OneRun(prog, v, su, su.workDir, [EnvIs(v.env("GODEBUG"))], trace, passed, other, verdict);
    }
  }

  /** The world that recorded an entry validates it: an unchanged world is always a hit. */
  lemma UnchangedWorldHits(w: World, su: Setup, trace: seq<Query>)
    requires AllTracked(w, su, su.workDir, trace) && EntryOf(w, su, trace).Ok?
    ensures Changed(w, EntryOf(w, su, trace).value) == Ok([])
  {
    EntryValidIff(w, w, su, trace);
    LinesReadable(w, su, su.workDir, trace, [EnvDep(w, "GODEBUG")]);
    LinesAreLines(w, su, su.workDir, trace);
    var lines := [HEADER] + LinesFor(w, su, su.workDir, trace);
    assert OneLine(HEADER);
    ScanUnlines(lines);
    assert lines[1..] == LinesFor(w, su, su.workDir, trace);
    AllHoldCons(w, EnvDep(w, "GODEBUG"), DepsFor(w, su, su.workDir, trace));
  }

  lemma {:induction false} LinesReadable(w: World, su: Setup, pwd: string, trace: seq<Query>, deps: seq<Dep>)
    requires AllTracked(w, su, pwd, trace)
    ensures ParseLines(w, su.root, Cursor(pwd, deps), LinesFor(w, su, pwd, trace)).Ok? ==> AllHold(w, DepsFor(w, su, pwd, trace))
    decreases |trace|
  {
    var lines := LinesFor(w, su, pwd, trace);
    if trace != [] {
      var next, d := PwdAfter(w, su, pwd, trace[0]), DepFor(w, su, pwd, trace[0]);
      LineParses(w, su, pwd, trace[0], deps);
      hide ParseLine, LineFor, DepFor, PwdAfter, Tracked, Readable, Holds;
      assert lines[0] == LineFor(w, su, pwd, trace[0]) && lines[1..] == LinesFor(w, su, next, trace[1..]);
      LinesReadable(w, su, next, trace[1..], deps + [d]);
      if Readable(w, su, pwd, trace[0]) {
        ReadableHolds(w, su, pwd, trace[0]);
      }
      AllHoldCons(w, d, DepsFor(w, su, next, trace[1..]));
    }
  }

  lemma ReadableHolds(w: World, su: Setup, pwd: string, q: Query)
    requires Readable(w, su, pwd, q)
    ensures Holds(w, DepFor(w, su, pwd, q))
  {
    hide Resolve;
  }

  // ------------------------------------------------------------------------------------------
  // The cache in use
  // ------------------------------------------------------------------------------------------

  /** The tests a cache serves: the key holds the binary's hash, the test and its arguments, so it fixes both. */
  datatype Suite = Suite(progs: string -> Program, setups: string -> Setup)

  /** One request to run a test: what a run would do now, and whether a pass may be stored. */
  datatype Visit = Visit(key: string, world: World, trace: seq<Query>, passed: bool, storable: bool)

  ghost predicate Truthful(suite: Suite, v: Visit) {
    && RunsIn(suite.progs(v.key), v.world, suite.setups(v.key), v.trace, v.passed)
    && AllTracked(v.world, suite.setups(v.key), suite.setups(v.key).workDir, v.trace)
  }

  function Capture(suite: Suite, v: Visit): Result<seq<Dep>, string> {
    EntryOf(v.world, suite.setups(v.key), v.trace)
  }

  predicate Hit(store: map<string, seq<Dep>>, v: Visit) {
    v.key in store && Changed(v.world, store[v.key]) == Ok([])
  }

  /** The verdict reported: a pass on a hit, without running the test, and the run's own otherwise. */
  function Reported(store: map<string, seq<Dep>>, v: Visit): bool {
    Hit(store, v) || v.passed
  }

  function StoreAfter(suite: Suite, store: map<string, seq<Dep>>, v: Visit): map<string, seq<Dep>> {
    if !Hit(store, v) && v.passed && v.storable && Capture(suite, v).Ok? then store[v.key := Capture(suite, v).value] else store
  }

  function StoreAfterAll(suite: Suite, store: map<string, seq<Dep>>, visits: seq<Visit>): map<string, seq<Dep>>
    decreases |visits|
  {
    if visits == [] then store else StoreAfterAll(suite, StoreAfter(suite, store, visits[0]), visits[1..])
  }

  /** The entry comes from a passing run of its own test. */
  ghost predicate Earned(suite: Suite, key: string, deps: seq<Dep>) {
    exists v: Visit :: v.key == key && v.passed && Truthful(suite, v) && Capture(suite, v) == Ok(deps)
  }

  ghost predicate AllEarned(suite: Suite, store: map<string, seq<Dep>>) {
    forall key | key in store :: Earned(suite, key, store[key])
  }

  lemma HitIsTruth(suite: Suite, store: map<string, seq<Dep>>, v: Visit)
    requires AllEarned(suite, store) && Truthful(suite, v) && Hit(store, v)
    ensures v.passed
  {
    var u: Visit :| u.key == v.key && u.passed && Truthful(suite, u) && Capture(suite, u) == Ok(store[v.key]);
    hide RunsIn, AllTracked, EntryOf, Changed;
    ReplayTheorem(suite.progs(v.key), u.world, v.world, suite.setups(v.key), u.trace, true);
  }

  lemma VisitKeepsEarned(suite: Suite, store: map<string, seq<Dep>>, v: Visit)
    requires AllEarned(suite, store) && Truthful(suite, v)
    ensures AllEarned(suite, StoreAfter(suite, store, v))
  {
    hide Truthful, Capture, Hit;
  }

  lemma {:induction false} VisitsKeepEarned(suite: Suite, store: map<string, seq<Dep>>, visits: seq<Visit>)
    requires AllEarned(suite, store) && forall i | 0 <= i < |visits| :: Truthful(suite, visits[i])
    ensures AllEarned(suite, StoreAfterAll(suite, store, visits))
    decreases |visits|
  {
    if visits != [] {
      VisitKeepsEarned(suite, store, visits[0]);
      VisitsKeepEarned(suite, StoreAfter(suite, store, visits[0]), visits[1..]);
    }
  }

  /**
    The cache is transparent: over any sequence of runs, tests and worlds, what is reported with
    the cache, warm or cold, is the verdict the test itself reaches in the world of that moment.
   */
  lemma CacheIsTransparent(suite: Suite, visits: seq<Visit>, v: Visit)
    requires (forall i | 0 <= i < |visits| :: Truthful(suite, visits[i])) && Truthful(suite, v)
    ensures Reported(StoreAfterAll(suite, map[], visits), v) == v.passed
  {
    VisitsKeepEarned(suite, map[], visits);
    if Hit(StoreAfterAll(suite, map[], visits), v) {
      HitIsTruth(suite, StoreAfterAll(suite, map[], visits), v);
    }
  }

  /** The cache is of use: a passing run that may be stored is served from then on wherever its inputs are unchanged. */
  lemma StoredIsServed(suite: Suite, store: map<string, seq<Dep>>, v: Visit, u: Visit)
    requires Truthful(suite, v) && v.passed && v.storable && Capture(suite, v).Ok? && !Hit(store, v)
    requires u.key == v.key && AllHold(u.world, Inputs(v.world, suite.setups(v.key), v.trace))
    ensures Hit(StoreAfter(suite, store, v), u) && Reported(StoreAfter(suite, store, v), u)
    ensures forall key | key != v.key :: key in StoreAfter(suite, store, v) <==> key in store
  {
    hide Inputs, EntryOf, Changed, AllTracked, RunsIn;
    EntryValidIff(v.world, u.world, suite.setups(v.key), v.trace);
  }

  /** Asked again in the same world, it is a hit. */
  lemma RepeatIsHit(suite: Suite, store: map<string, seq<Dep>>, v: Visit)
    requires Truthful(suite, v) && v.passed && v.storable && Capture(suite, v).Ok?
    ensures Hit(StoreAfter(suite, store, v), v)
  {
    hide EntryOf, Changed, AllTracked, RunsIn;
    UnchangedWorldHits(v.world, suite.setups(v.key), v.trace);
  }

  /** What failed, or may not be stored, is not stored. */
  lemma OnlyPassesAreStored(suite: Suite, store: map<string, seq<Dep>>, v: Visit)
    requires !v.passed || !v.storable
    ensures StoreAfter(suite, store, v) == store
  {
  }
}
