/**
  When a cache entry watches what a test read: for a test that makes one query, exactly when the
  query is tracked.
 */
module Watching {
  import opened Common
  import opened Texts
  import opened ResultCache
  import opened Replay

  /** A name that makes one line of the log; unlike a loggable one it may end in a carriage return. */
  predicate Legible(name: string) {
    name != "" && '\n' !in name && '\0' !in name
  }

  /** The name the query leaves in the log. */
  function LogName(w: World, su: Setup, q: Query): string {
    LoggedName(w, su, su.workDir, q)
  }

  function PathFor(su: Setup, q: Query): string {
    Resolve(su.workDir, q.name)
  }

  /**
    The entry recorded by a test that made the single query `q` watches it: wherever the entry
    validates, whatever the test, it makes the same query and reaches the same verdict.
   */
  ghost predicate Watched(w: World, su: Setup, q: Query)
    requires EntryOf(w, su, [q]).Ok?
  {
    forall prog: Program, v: World, passed: bool |
      RunsIn(prog, w, su, [q], passed) && Changed(v, EntryOf(w, su, [q]).value) == Ok([]) :: RunsIn(prog, v, su, [q], passed)
  }

  /** No metadata at all would make the chdir end otherwise. */
  ghost predicate Moot(w: World, su: Setup, q: Query) {
    q.Chdir? && forall m: string :: su.enters(m) == su.enters(w.meta(PathFor(su, q)))
  }

  // ------------------------------------------------------------------------------------------
  // The entry of a single query
  // ------------------------------------------------------------------------------------------

  /** What the parser records for the name it reads, which has lost a trailing carriage return. */
  function Recorded(w: World, su: Setup, q: Query): seq<Dep> {
    var op, name := LoggedOp(w, su, su.workDir, q), DropReturn(LogName(w, su, q));
    var path := Resolve(su.workDir, name);
    if op == "getenv" then [EnvDep(w, name)]
    else if op != "chdir" && !WithinRoot(path, su.root) then []
    else [Dep(op, name, path, None, None, Some(Fingerprint(w.meta(path), if op == "open" then w.content(path) else None)))]
  }

  /** Nothing keeps the parser from recording it: a name is left, and what an open read can be read. */
  predicate Recordable(w: World, su: Setup, q: Query) {
    var op, name := LoggedOp(w, su, su.workDir, q), DropReturn(LogName(w, su, q));
    var path := Resolve(su.workDir, name);
    name != "" && (op == "open" && WithinRoot(path, su.root) ==> w.content(path).Some?)
  }

  function Godebug(w: World): Dep {
    EnvDep(w, "GODEBUG")
  }

  lemma ScanReturn(line: string)
    requires '\n' !in line
    ensures ScanLines(Unlines([HEADER] + [line])) == [HEADER] + [DropReturn(line)]
  {
    var lines := [HEADER] + [line];
    assert lines[1..] == [line];
    assert [line][1..] == [];
    assert Unlines([line]) == line + ['\n'] + Unlines([]);
    assert Unlines(lines) == HEADER + ['\n'] + Unlines([line]);
    ScanCons(HEADER, Unlines([line]));
    ScanCons(line, Unlines([]));
    assert [DropReturn(line)] + [] == [DropReturn(line)];
  }

  lemma DropsFromName(op: string, name: string)
    requires name != ""
    ensures DropReturn(op + [' '] + name) == op + [' '] + DropReturn(name)
  {
    var line := op + [' '] + name;
    assert line[|line| - 1] == name[|name| - 1];
    assert line[..|line| - 1] == op + [' '] + name[..|name| - 1];
  }

  lemma NamelessLine(w: World, root: string, c: Cursor, op: string)
    requires ' ' !in op
    ensures ParseLine(w, root, c, op + [' '] + "").Err?
  {
    IndexIsUnique(op, "", ' ');
  }

  lemma OpRecords(w: World, su: Setup, q: Query)
    requires DropReturn(LogName(w, su, q)) != ""
    ensures var r := ParseOp(w, su.root, FirstCursor(w, su.workDir), LoggedOp(w, su, su.workDir, q), DropReturn(LogName(w, su, q)));
      && (r.Ok? <==> Recordable(w, su, q))
      && (r.Ok? ==> r.value.deps == [Godebug(w)] + Recorded(w, su, q))
  {
    hide Resolve, WithinRoot, DropReturn;
    assert [Godebug(w)] + [] == [Godebug(w)];
  }

  lemma SingleLine(w: World, su: Setup, q: Query)
    ensures LinesFor(w, su, su.workDir, [q]) == [LineFor(w, su, su.workDir, q)]
  {
    hide LineFor;
    assert [q][1..] == [];
    assert [LineFor(w, su, su.workDir, q)] + [] == [LineFor(w, su, su.workDir, q)];
  }

  lemma OpIsWord(w: World, su: Setup, q: Query)
    ensures var op := LoggedOp(w, su, su.workDir, q); ' ' !in op && '\n' !in op && '\0' !in op
  {
  }

  /** The entry exists exactly if its query can be recorded, and holds GODEBUG and what was recorded. */
  lemma SingleEntry(w: World, su: Setup, q: Query)
    requires Legible(LogName(w, su, q))
    ensures EntryOf(w, su, [q]).Ok? <==> Recordable(w, su, q)
    ensures EntryOf(w, su, [q]).Ok? ==> EntryOf(w, su, [q]).value == KeepLast([Godebug(w)] + Recorded(w, su, q))
  {
    var op, full := LoggedOp(w, su, su.workDir, q), LogName(w, su, q);
    var line, name, c := LineFor(w, su, su.workDir, q), DropReturn(full), FirstCursor(w, su.workDir);
    OpIsWord(w, su, q);
    SingleLine(w, su, q);
    ScanReturn(line);
    DropsFromName(op, full);
    hide LoggedOp, LoggedName, DropReturn, Resolve, WithinRoot, ScanLines, Unlines, KeepLast, ParseOp, Recorded;
    var cut := op + [' '] + name;
    assert ([HEADER] + [cut])[1..] == [cut] + [];
    ParseCons(w, su.root, c, cut, []);
    if name == "" {
      NamelessLine(w, su.root, c, op);
    } else {
      ParseCutLine(w, su.root, c, op, name);
      OpRecords(w, su, q);
    }
  }

  lemma RecordedIsCaptured(w: World, su: Setup, q: Query)
    requires Legible(LogName(w, su, q))
    ensures forall d | d in [Godebug(w)] + Recorded(w, su, q) :: Captured(w, d)
  {
    hide Resolve, WithinRoot;
    OpIsWord(w, su, q);
    assert Captured(w, Godebug(w));
    forall d | d in Recorded(w, su, q)
      ensures Captured(w, d)
    {
    }
  }

  /** It validates exactly where GODEBUG and what was recorded are unchanged. */
  lemma SingleValidIff(w: World, v: World, su: Setup, q: Query)
    requires Legible(LogName(w, su, q)) && EntryOf(w, su, [q]).Ok?
    ensures Changed(v, EntryOf(w, su, [q]).value) == Ok([]) <==> Holds(v, Godebug(w)) && AllHold(v, Recorded(w, su, q))
  {
    var deps := [Godebug(w)] + Recorded(w, su, q);
    SingleEntry(w, su, q);
    RecordedIsCaptured(w, su, q);
    hide Recorded, EntryOf, Captured, KeepLast, Holds, Godebug;
    DedupHolds(w, v, deps);
    ValidIff(v, KeepLast(deps));
    AllHoldCons(v, Godebug(w), Recorded(w, su, q));
  }

  // ------------------------------------------------------------------------------------------
  // A world that answers otherwise
  // ------------------------------------------------------------------------------------------

  function Flip(value: Option<string>): Option<string> {
    if value.None? then Some("") else None
  }

  /** The same world, but for the variable asked for, or the metadata of the path asked for. */
  function Altered(w: World, su: Setup, q: Query, m: string): World {
    if q.Getenv? then World((x: string) => if x == q.name then Flip(w.env(x)) else w.env(x), w.meta, w.content)
    else World(w.env, (x: string) => if x == PathFor(su, q) then m else w.meta(x), w.content)
  }

  function AnswerIn(w: World, su: Setup, q: Query): Answer {
    Reply(w, su, su.workDir, q)
  }

  /** Unless the query is moot, some metadata changes its answer. */
  lemma SomeAnswerDiffers(w: World, su: Setup, q: Query) returns (m: string)
    requires !Moot(w, su, q)
    ensures AnswerIn(Altered(w, su, q, m), su, q) != AnswerIn(w, su, q)
  {
    hide Resolve;
    var was := w.meta(PathFor(su, q));
    m := was + "x";
    assert |m| == |was| + 1;
    var v := Altered(w, su, q, m);
    assert !q.Getenv? ==> v.meta(PathFor(su, q)) == m;
    if q.Chdir? {
      m :| su.enters(m) != su.enters(w.meta(PathFor(su, q)));
    }
  }

  /** What the parser recorded for an untracked query is something else. */
  lemma RecordedElsewhere(w: World, su: Setup, q: Query)
    requires Legible(LogName(w, su, q)) && Recordable(w, su, q) && !Tracked(w, su, su.workDir, q)
    ensures q.Getenv? ==> q.name != DropReturn(LogName(w, su, q)) && q.name != "GODEBUG"
    ensures forall d | d in Recorded(w, su, q) :: q.Getenv? || d.path != PathFor(su, q)
  {
    if OneLine(LogName(w, su, q)) {
      OutsideRecordsNothing(w, su, q);
    } else {
      ReturnRecordsElsewhere(w, su, q);
    }
  }

  lemma OutsideRecordsNothing(w: World, su: Setup, q: Query)
    requires Legible(LogName(w, su, q)) && OneLine(LogName(w, su, q)) && !Tracked(w, su, su.workDir, q)
    ensures !q.Getenv? && Recorded(w, su, q) == []
  {
    hide Resolve, WithinRoot, Recordable;
    assert DropReturn(LogName(w, su, q)) == LogName(w, su, q);
    hide DropReturn;
  }

  lemma ReturnRecordsElsewhere(w: World, su: Setup, q: Query)
    requires Legible(LogName(w, su, q)) && !OneLine(LogName(w, su, q)) && DropReturn(LogName(w, su, q)) != ""
    ensures q.Getenv? ==> q.name != DropReturn(LogName(w, su, q)) && q.name != "GODEBUG"
    ensures forall d | d in Recorded(w, su, q) :: q.Getenv? || d.path != PathFor(su, q)
  {
    hide Resolve, WithinRoot;
    var full, name := LogName(w, su, q), DropReturn(LogName(w, su, q));
    assert full == name + ['\r'];
    hide DropReturn, OneLine, Legible;
    ReturnMatters(su.workDir, name);
    ResolveIsAbsolute(su.workDir, q.name, su.workDir);
    assert Resolve(su.workDir, full) == PathFor(su, q);
    assert full[|full| - 1] == '\r';
  }

  /** So a world that differs in what was asked alone keeps the entry valid. */
  lemma AlteredStillValid(w: World, su: Setup, q: Query, m: string)
    requires Legible(LogName(w, su, q)) && EntryOf(w, su, [q]).Ok? && !Tracked(w, su, su.workDir, q)
    ensures Changed(Altered(w, su, q, m), EntryOf(w, su, [q]).value) == Ok([])
  {
    SingleEntry(w, su, q);
    SingleValidIff(w, Altered(w, su, q, m), su, q);
    RecordedElsewhere(w, su, q);
    hide EntryOf, Tracked, DropReturn, Recordable, Changed, Legible;
    AlteredHolds(w, su, q, m);
  }

  lemma AlteredHolds(w: World, su: Setup, q: Query, m: string)
    requires Recordable(w, su, q)
    requires q.Getenv? ==> q.name != DropReturn(LogName(w, su, q)) && q.name != "GODEBUG"
    requires forall d | d in Recorded(w, su, q) :: q.Getenv? || d.path != PathFor(su, q)
    ensures Holds(Altered(w, su, q, m), Godebug(w)) && AllHold(Altered(w, su, q, m), Recorded(w, su, q))
  {
    hide Resolve, WithinRoot, DropReturn;
    var deps := Recorded(w, su, q);
    forall i | 0 <= i < |deps|
      ensures Holds(Altered(w, su, q, m), deps[i])
    {
      assert deps[i] in deps;
    }
  }

  /** The test that passes if it sees what it saw. */
  function Remembers(q: Query, a: Answer): Program {
    seen => if |seen| <= 1 then Ask(q) else Exit(seen[1] == a)
  }

  lemma RemembersRuns(v: World, su: Setup, q: Query, a: Answer)
    ensures RunsIn(Remembers(q, a), v, su, [q], AnswerIn(v, su, q) == a)
  {
    var prog, first := Remembers(q, a), [EnvIs(v.env("GODEBUG"))];
    hide Reply, PwdAfter;
    assert [q][1..] == [];
    assert Runs(prog, v, su, PwdAfter(v, su, su.workDir, q), first + [AnswerIn(v, su, q)], [], AnswerIn(v, su, q) == a);
  }

  /** An untracked query is missed: its entry still validates in a world where the test's verdict is another. */
  ghost predicate Missed(w: World, su: Setup, q: Query) {
    exists prog: Program, v: World ::
      && RunsIn(prog, w, su, [q], true) && RunsIn(prog, v, su, [q], false)
      && EntryOf(w, su, [q]).Ok? && Changed(v, EntryOf(w, su, [q]).value) == Ok([])
  }

  lemma UntrackedIsMissed(w: World, su: Setup, q: Query)
    requires Legible(LogName(w, su, q)) && EntryOf(w, su, [q]).Ok? && !Tracked(w, su, su.workDir, q) && !Moot(w, su, q)
    ensures Missed(w, su, q)
  {
    var m := SomeAnswerDiffers(w, su, q);
    var v, prog := Altered(w, su, q, m), Remembers(q, AnswerIn(w, su, q));
    AlteredStillValid(w, su, q, m);
    RemembersRuns(w, su, q, AnswerIn(w, su, q));
    RemembersRuns(v, su, q, AnswerIn(w, su, q));
  }

  // ------------------------------------------------------------------------------------------
  // Exactly when
  // ------------------------------------------------------------------------------------------

  lemma MissedIsNotWatched(w: World, su: Setup, q: Query)
    requires Missed(w, su, q)
    ensures !Watched(w, su, q)
  {
    var prog: Program, v: World :|
      && RunsIn(prog, w, su, [q], true) && RunsIn(prog, v, su, [q], false)
      && EntryOf(w, su, [q]).Ok? && Changed(v, EntryOf(w, su, [q]).value) == Ok([]);
    if RunsIn(prog, v, su, [q], true) {
      OneRun(prog, v, su, su.workDir, [EnvIs(v.env("GODEBUG"))], [q], true, [q], false);
    }
  }

  lemma TrackedIsWatched(w: World, su: Setup, q: Query)
    requires EntryOf(w, su, [q]).Ok? && Tracked(w, su, su.workDir, q)
    ensures Watched(w, su, q)
  {
    assert [q][1..] == [];
    assert AllTracked(w, su, su.workDir, [q]);
    hide RunsIn, EntryOf, Changed, AllTracked;
    forall prog: Program, v: World, passed: bool |
      RunsIn(prog, w, su, [q], passed) && Changed(v, EntryOf(w, su, [q]).value) == Ok([])
      ensures RunsIn(prog, v, su, [q], passed)
    {
      ReplayTheorem(prog, w, v, su, [q], passed);
    }
  }

  lemma MootIsWatched(w: World, su: Setup, q: Query)
    requires Legible(LogName(w, su, q)) && EntryOf(w, su, [q]).Ok? && Moot(w, su, q)
    ensures Watched(w, su, q)
  {
    hide RunsIn, EntryOf, Changed, Legible;
    forall prog: Program, v: World, passed: bool |
      RunsIn(prog, w, su, [q], passed) && Changed(v, EntryOf(w, su, [q]).value) == Ok([])
      ensures RunsIn(prog, v, su, [q], passed)
    {
      hide Moot;
      MootReplay(prog, w, v, su, q, passed);
    }
  }

  lemma MootReplay(prog: Program, w: World, v: World, su: Setup, q: Query, passed: bool)
    requires Legible(LogName(w, su, q)) && EntryOf(w, su, [q]).Ok? && Moot(w, su, q)
    requires RunsIn(prog, w, su, [q], passed) && Changed(v, EntryOf(w, su, [q]).value) == Ok([])
    ensures RunsIn(prog, v, su, [q], passed)
  {
    hide RunsIn, EntryOf, Recorded, AllHold, Changed, Resolve;
    SingleValidIff(w, v, su, q);
    assert v.env("GODEBUG") == w.env("GODEBUG");
    assert AnswerIn(v, su, q) == AnswerIn(w, su, q);
    SameAnswerSameRun(prog, w, v, su, q, passed);
  }

  lemma SameAnswerSameRun(prog: Program, w: World, v: World, su: Setup, q: Query, passed: bool)
    requires RunsIn(prog, w, su, [q], passed) && v.env("GODEBUG") == w.env("GODEBUG") && AnswerIn(v, su, q) == AnswerIn(w, su, q)
    ensures RunsIn(prog, v, su, [q], passed)
  {
    hide Reply, PwdAfter;
    assert [q][1..] == [];
    var seen := [EnvIs(w.env("GODEBUG"))] + [AnswerIn(w, su, q)];
    assert Runs(prog, w, su, PwdAfter(w, su, su.workDir, q), seen, [q][1..], passed);
    assert Runs(prog, v, su, PwdAfter(v, su, su.workDir, q), seen, [], passed);
  }

  /**
    The entry of a single query, in any world and setup, watches what was read for all tests and
    all later worlds if and only if the query is tracked: its logged name does not end in a carriage
    return, and a file it reads is inside the root. The one exception is a chdir that no metadata
    could have made to end otherwise.
   */
  lemma WatchedIffTracked(w: World, su: Setup, q: Query)
    requires Legible(LogName(w, su, q)) && EntryOf(w, su, [q]).Ok?
    ensures Watched(w, su, q) <==> Tracked(w, su, su.workDir, q) || Moot(w, su, q)
  {
    hide Watched, Tracked, Moot, EntryOf, Missed;
    if Tracked(w, su, su.workDir, q) {
      TrackedIsWatched(w, su, q);
    } else if Moot(w, su, q) {
      MootIsWatched(w, su, q);
    } else {
      UntrackedIsMissed(w, su, q);
      MissedIsNotWatched(w, su, q);
    }
  }

  // ------------------------------------------------------------------------------------------
  // The two families that are missed
  // ------------------------------------------------------------------------------------------

  /**
    Every name that ends in a carriage return loses it in the log, so the entry watches another
    variable, file or directory: whatever is asked of it is missed.
   */
  lemma CarriageReturnIsLost(w: World, su: Setup, q: Query, cut: string)
    requires LogName(w, su, q) == cut + ['\r'] && Legible(cut) && Recordable(w, su, q) && !Moot(w, su, q)
    ensures Missed(w, su, q)
  {
    var full := LogName(w, su, q);
    assert full[|full| - 1] == '\r';
    assert !Tracked(w, su, su.workDir, q);
    assert Legible(full);
    hide Missed, Moot, Recordable, EntryOf, LoggedName, Tracked;
    SingleEntry(w, su, q);
    UntrackedIsMissed(w, su, q);
  }

  /** An open, a stat or a failed chdir outside the root, whatever its name, is not rechecked, and so is missed. */
  lemma OutsideIsNotRechecked(w: World, su: Setup, q: Query)
    requires !q.Getenv? && !(q.Chdir? && Enters(w, su, su.workDir, q.name)) && !WithinRoot(PathFor(su, q), su.root)
    requires Loggable(q.name) && !Moot(w, su, q)
    ensures Missed(w, su, q)
  {
    assert DropReturn(q.name) == q.name;
    hide Missed, Moot, EntryOf, Resolve, WithinRoot;
    assert Recordable(w, su, q) && !Tracked(w, su, su.workDir, q);
    SingleEntry(w, su, q);
    UntrackedIsMissed(w, su, q);
  }
}
