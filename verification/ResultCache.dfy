/**
  The result cache: the log a test process leaves, the dependencies parsed from it, and their
  validation in a later world.
 */
module ResultCache {
  import opened Common
  import opened Texts

  // ------------------------------------------------------------------------------------------
  // Worlds and fingerprints
  // ------------------------------------------------------------------------------------------

  /**
    What a test can observe: environment variables, the metadata of a path (what stat and lstat
    report), and its content, or None if that cannot be read. Hashes are injective, so a digest is
    kept as the value it digests.
   */
  datatype World = World(env: string -> Option<string>, meta: string -> string, content: string -> Option<string>)

  datatype Fingerprint = Fingerprint(meta: string, content: Option<string>)

  datatype Dep = Dep(
    op: string, name: string, path: string,
    present: Option<bool>, value: Option<Option<string>>, file: Option<Fingerprint>)

  function EnvDep(w: World, name: string): Dep {
    Dep("getenv", name, "", Some(w.env(name).Some?), Some(w.env(name)), None)
  }

  function FingerprintOf(w: World, path: string, read: bool): Result<Fingerprint, string> {
    if !read then Ok(Fingerprint(w.meta(path), None))
    else match w.content(path)
      case None => Err("unreadable " + path)
      case Some(c) => Ok(Fingerprint(w.meta(path), Some(c)))
  }

  predicate IsFileOp(op: string) {
    op == "open" || op == "stat" || op == "chdir"
  }

  function Current(w: World, was: Dep): Result<Dep, string> {
    if was.op == "getenv" then Ok(EnvDep(w, was.name))
    else if IsFileOp(was.op) then
      match FingerprintOf(w, was.path, was.op == "open")
      case Err(e) => Err(e)
      case Ok(f) => Ok(Dep(was.op, was.name, was.path, None, None, Some(f)))
    else Err("unknown cached dependency operation")
  }

  predicate DepsEqual(a: Dep, b: Dep) {
    && a.op == b.op && a.name == b.name && a.path == b.path && a.value == b.value
    && a.present.Some? == b.present.Some? && (a.present.Some? ==> a.present.value == b.present.value)
    && a.file.Some? == b.file.Some? && (a.file.Some? ==> a.file.value == b.file.value)
  }

  /** A recorded dependency holds in a world: its current form can be read and equals it. */
  predicate Holds(w: World, d: Dep) {
    Current(w, d) == Ok(d)
  }

  predicate AllHold(w: World, deps: seq<Dep>) {
    forall i | 0 <= i < |deps| :: Holds(w, deps[i])
  }

  lemma AllHoldCons(w: World, d: Dep, deps: seq<Dep>)
    ensures AllHold(w, [d] + deps) <==> Holds(w, d) && AllHold(w, deps)
  {
    var all := [d] + deps;
    assert forall i | 0 <= i < |deps| :: all[i + 1] == deps[i];
    assert all[0] == d;
  }

  function Change(was: Dep, now: Dep): seq<Dep> {
    if DepsEqual(was, now) then [] else [was]
  }

  /** The dependencies that changed, in order, or the error of the first one that cannot be read. */
  function Changed(w: World, deps: seq<Dep>): Result<seq<Dep>, string> {
    if deps == [] then Ok([])
    else match Current(w, deps[0])
      case Err(e) => Err(e)
      case Ok(d) =>
        match Changed(w, deps[1..])
        case Err(e) => Err(e)
        case Ok(rest) => Ok(Change(deps[0], d) + rest)
  }

  lemma EqualIffSame(a: Dep, b: Dep)
    ensures DepsEqual(a, b) <==> a == b
  {
    if DepsEqual(a, b) {
      assert a.present == b.present && a.file == b.file;
    }
  }

  /** An entry validates, without error, exactly when every dependency still holds. */
  lemma {:induction false} ValidIff(w: World, deps: seq<Dep>)
    ensures Changed(w, deps) == Ok([]) <==> AllHold(w, deps)
  {
    if deps != [] {
      ValidIff(w, deps[1..]);
      if Current(w, deps[0]).Ok? {
        EqualIffSame(deps[0], Current(w, deps[0]).value);
      }
      assert AllHold(w, deps) <==> Holds(w, deps[0]) && AllHold(w, deps[1..]);
      if Changed(w, deps).Ok? {
        var first, rest := Change(deps[0], Current(w, deps[0]).value), Changed(w, deps[1..]).value;
        assert first + rest == [] <==> first == [] && rest == [];
      }
    }
  }

  /** What is listed as changed is exactly what no longer holds. */
  lemma {:induction false} ChangedLists(w: World, deps: seq<Dep>)
    requires Changed(w, deps).Ok?
    ensures forall d :: d in Changed(w, deps).value <==> d in deps && !Holds(w, d)
  {
    if deps != [] {
      ChangedLists(w, deps[1..]);
      EqualIffSame(deps[0], Current(w, deps[0]).value);
      var first, rest := Change(deps[0], Current(w, deps[0]).value), Changed(w, deps[1..]).value;
      assert forall d :: d in first + rest <==> d in first || d in rest;
      assert forall d :: d in deps <==> d == deps[0] || d in deps[1..];
    }
  }

  lemma {:induction false} ChangedNext(w: World, a: seq<Dep>, d: Dep)
    requires Changed(w, a).Ok?
    ensures Changed(w, a + [d]) ==
      match Current(w, d)
      case Err(e) => Err(e)
      case Ok(x) => Ok(Changed(w, a).value + Change(d, x))
  {
    if a == [] {
      assert a + [d] == [d];
      assert Changed(w, [d][1..]) == Ok([]);
      assert forall c: seq<Dep> :: c + [] == c && [] + c == c;
    } else {
      assert (a + [d])[1..] == a[1..] + [d];
      ChangedNext(w, a[1..], d);
      if Current(w, d).Ok? {
        var first, rest, last := Change(a[0], Current(w, a[0]).value), Changed(w, a[1..]).value, Change(d, Current(w, d).value);
        assert first + (rest + last) == first + rest + last;
      }
    }
  }

  lemma {:induction false} ChangedStops(w: World, a: seq<Dep>, b: seq<Dep>)
    requires Changed(w, a).Err?
    ensures Changed(w, a + b) == Changed(w, a)
  {
    if a != [] {
      assert (a + b)[1..] == a[1..] + b;
      if Changed(w, a[1..]).Err? {
        ChangedStops(w, a[1..], b);
      }
    }
  }

  method ChangedDependencies(w: World, deps: seq<Dep>) returns (r: Result<seq<Dep>, string>)
    ensures r == Changed(w, deps)
    ensures r == Ok([]) <==> AllHold(w, deps)
  {
    ValidIff(w, deps);
    var changes := [];
    for i := 0 to |deps|
      invariant Changed(w, deps[..i]) == Ok(changes)
    {
      ChangedNext(w, deps[..i], deps[i]);
      assert deps[..i + 1] == deps[..i] + [deps[i]];
      var current := Current(w, deps[i]);
      if current.Err? {
        ChangedStops(w, deps[..i + 1], deps[i + 1..]);
        assert deps == deps[..i + 1] + deps[i + 1..];
        return Err(current.error);
      }
      assert Change(deps[i], current.value) == [] ==> changes + [] == changes;
      if !DepsEqual(deps[i], current.value) {
        changes := changes + [deps[i]];
      }
    }
    assert deps[..|deps|] == deps;
    return Ok(changes);
  }

  // ------------------------------------------------------------------------------------------
  // Keep-last deduplication
  // ------------------------------------------------------------------------------------------

  function KeyOf(d: Dep): string {
    d.op + ['\0'] + d.name + ['\0'] + d.path
  }

  function Keys(deps: seq<Dep>): set<string> {
    set d | d in deps :: KeyOf(d)
  }

  function KeepLast(deps: seq<Dep>): seq<Dep> {
    if deps == [] then []
    else if KeyOf(deps[0]) in Keys(deps[1..]) then KeepLast(deps[1..])
    else [deps[0]] + KeepLast(deps[1..])
  }

  /** Operation and name hold no NUL, so the key determines all three of its parts. */
  lemma KeyDetermines(a: Dep, b: Dep)
    requires '\0' !in a.op && '\0' !in a.name && '\0' !in b.op && '\0' !in b.name && KeyOf(a) == KeyOf(b)
    ensures a.op == b.op && a.name == b.name && a.path == b.path
  {
    var x, y := a.name + ['\0'] + a.path, b.name + ['\0'] + b.path;
    assert KeyOf(a) == a.op + ['\0'] + x && KeyOf(b) == b.op + ['\0'] + y;
    CutDetermines(a.op, x, b.op, y);
    CutDetermines(a.name, a.path, b.name, b.path);
  }

  lemma CutDetermines(a: string, x: string, b: string, y: string)
    requires '\0' !in a && '\0' !in b && a + ['\0'] + x == b + ['\0'] + y
    ensures a == b && x == y
  {
    IndexIsUnique(a, x, '\0');
    IndexIsUnique(b, y, '\0');
    var s := a + ['\0'] + x;
    assert s[..|a|] == a && s[..|a|] == b;
    assert s[|a| + 1..] == x && s[|a| + 1..] == y;
  }

  lemma KeysCons(d: Dep, deps: seq<Dep>)
    ensures Keys([d] + deps) == {KeyOf(d)} + Keys(deps)
  {
    assert forall x :: x in [d] + deps <==> x == d || x in deps;
  }

  /** Deduplication keeps every key and invents nothing. */
  lemma {:induction false} KeepLastCovers(deps: seq<Dep>)
    ensures Keys(KeepLast(deps)) == Keys(deps)
    ensures forall d | d in KeepLast(deps) :: d in deps
  {
    if deps != [] {
      KeepLastCovers(deps[1..]);
      assert [deps[0]] + deps[1..] == deps;
      KeysCons(deps[0], deps[1..]);
      KeysCons(deps[0], KeepLast(deps[1..]));
    }
  }

  /** Deduplication keeps each key once. */
  lemma {:induction false} KeepLastIsDistinct(deps: seq<Dep>)
    ensures forall i, j | 0 <= i < j < |KeepLast(deps)| :: KeyOf(KeepLast(deps)[i]) != KeyOf(KeepLast(deps)[j])
  {
    if deps != [] {
      var kept := KeepLast(deps[1..]);
      KeepLastIsDistinct(deps[1..]);
      KeepLastCovers(deps[1..]);
      assert forall i | 0 <= i < |kept| :: kept[i] in kept && KeyOf(kept[i]) in Keys(kept);
      hide KeyOf, Keys;
    }
  }

  /** What is kept for a key is its last dependency. */
  lemma {:induction false} KeepsTheLast(deps: seq<Dep>, i: nat)
    requires i < |deps| && KeyOf(deps[i]) !in Keys(deps[i + 1..])
    ensures deps[i] in KeepLast(deps)
  {
    if i > 0 {
      assert deps[1..][i..] == deps[i + 1..];
      KeepsTheLast(deps[1..], i - 1);
    }
  }

  function Reversed<T>(s: seq<T>): seq<T> {
    if s == [] then [] else Reversed(s[1..]) + [s[0]]
  }

  lemma {:induction false} ReversedSnoc<T>(s: seq<T>, x: T)
    ensures Reversed(s + [x]) == [x] + Reversed(s)
  {
    if s == [] {
      assert Reversed([x]) == Reversed([x][1..]) + [x];
    } else {
      assert (s + [x])[1..] == s[1..] + [x];
      ReversedSnoc(s[1..], x);
    }
  }

  /** Walks backwards, keeps the first sight of each key, and restores the order. */
  method DeduplicateDependencies(deps: seq<Dep>) returns (kept: seq<Dep>)
    ensures kept == KeepLast(deps)
  {
    var ret: seq<Dep> := [];
    var seen: set<string> := {};
    var i := |deps|;
    while i > 0
      invariant 0 <= i <= |deps|
      invariant Reversed(ret) == KeepLast(deps[i..])
      invariant seen == Keys(deps[i..])
    {
      i := i - 1;
      assert deps[i..][0] == deps[i] && deps[i..][1..] == deps[i + 1..];
      assert deps[i..] == [deps[i]] + deps[i + 1..];
      KeysCons(deps[i], deps[i + 1..]);
      var key := KeyOf(deps[i]);
      if key !in seen {
        seen := seen + {key};
        ReversedSnoc(ret, deps[i]);
        ret := ret + [deps[i]];
      }
    }
    assert deps[0..] == deps;
    return Reversed(ret);
  }

  // ------------------------------------------------------------------------------------------
  // Parsing the log
  // ------------------------------------------------------------------------------------------

  /** Where the parser stands: the reconstructed working directory and the dependencies so far. */
  datatype Cursor = Cursor(pwd: string, deps: seq<Dep>)

  /** One operation of the log. Reads outside the root are not recorded; a chdir always is. */
  function ParseOp(w: World, root: string, c: Cursor, op: string, name: string): Result<Cursor, string> {
    if op == "getenv" then Ok(c.(deps := c.deps + [EnvDep(w, name)]))
    else if IsFileOp(op) then
      var path := Resolve(c.pwd, name);
      if op != "chdir" && !WithinRoot(path, root) then Ok(c)
      else match FingerprintOf(w, path, op == "open")
        case Err(e) => Err(e)
        case Ok(f) => Ok(Cursor(if op == "chdir" then path else c.pwd, c.deps + [Dep(op, name, path, None, None, Some(f))]))
    else Err("unknown test log operation")
  }

  function ParseLine(w: World, root: string, c: Cursor, line: string): Result<Cursor, string> {
    var k := IndexOf(line, ' ');
    if k == |line| || k + 1 == |line| then Err("malformed test log line")
    else ParseOp(w, root, c, line[..k], line[k + 1..])
  }

  lemma ParseCutLine(w: World, root: string, c: Cursor, op: string, name: string)
    requires ' ' !in op && name != ""
    ensures ParseLine(w, root, c, op + [' '] + name) == ParseOp(w, root, c, op, name)
  {
    var line := op + [' '] + name;
    IndexIsUnique(op, name, ' ');
    assert line[..|op|] == op && line[|op| + 1..] == name;
  }

  function ParseLines(w: World, root: string, c: Cursor, lines: seq<string>): Result<Cursor, string>
    decreases |lines|
  {
    if lines == [] then Ok(c)
    else match ParseLine(w, root, c, lines[0])
      case Err(e) => Err(e)
      case Ok(next) => ParseLines(w, root, next, lines[1..])
  }

  /** The runtime reads GODEBUG without reporting it, so it comes first whatever the log says. */
  function FirstCursor(w: World, workDir: string): Cursor {
    Cursor(workDir, [EnvDep(w, "GODEBUG")])
  }

  const HEADER: string := "# test log"

  function Parse(w: World, workDir: string, root: string, text: string): Result<seq<Dep>, string> {
    var lines := ScanLines(text);
    if lines == [] || lines[0] != HEADER then Err("malformed test log header")
    else match ParseLines(w, root, FirstCursor(w, workDir), lines[1..])
      case Err(e) => Err(e)
      case Ok(c) => Ok(KeepLast(c.deps))
  }

  /** One line of the log: a dependency more, another working directory, or neither. */
  method ParseLogLine(w: World, root: string, pwd: string, deps: seq<Dep>, line: string) returns (r: Result<Cursor, string>)
    ensures r == ParseLine(w, root, Cursor(pwd, deps), line)
  {
    hide Resolve, WithinRoot;
    var k := IndexOf(line, ' ');
    if k == |line| || k + 1 == |line| {
      return Err("malformed test log line");
    }
    var op, name := line[..k], line[k + 1..];
    if op == "getenv" {
      return Ok(Cursor(pwd, deps + [EnvDep(w, name)]));
    }
    if op != "open" && op != "stat" && op != "chdir" {
      return Err("unknown test log operation");
    }
    var path := Resolve(pwd, name);
    if op != "chdir" && !WithinRoot(path, root) {
      return Ok(Cursor(pwd, deps));
    }
    var fingerprint := FingerprintOf(w, path, op == "open");
    if fingerprint.Err? {
      return Err(fingerprint.error);
    }
    return Ok(Cursor(if op == "chdir" then path else pwd, deps + [Dep(op, name, path, None, None, Some(fingerprint.value))]));
  }

  method ParseTestLog(w: World, workDir: string, root: string, text: string) returns (r: Result<seq<Dep>, string>)
    ensures r == Parse(w, workDir, root, text)
  {
    var lines := ScanLines(text);
    if lines == [] || lines[0] != HEADER {
      return Err("malformed test log header");
    }
    var pwd, deps := workDir, [EnvDep(w, "GODEBUG")];
    hide ParseLine, ScanLines, KeepLast;
    for i := 1 to |lines|
      invariant ParseLines(w, root, Cursor(pwd, deps), lines[i..]) == ParseLines(w, root, FirstCursor(w, workDir), lines[1..])
    {
      assert lines[i..][0] == lines[i] && lines[i..][1..] == lines[i + 1..];
      var next := ParseLogLine(w, root, pwd, deps, lines[i]);
      if next.Err? {
        return Err(next.error);
      }
      pwd, deps := next.value.pwd, next.value.deps;
    }
    var kept := DeduplicateDependencies(deps);
    return Ok(kept);
  }

  // ------------------------------------------------------------------------------------------
  // Which logs are refused
  // ------------------------------------------------------------------------------------------

  /** A line is one of the four operations, a blank, and a name. */
  ghost predicate GoodLine(line: string) {
    exists name: string ::
      && name != ""
      && (line == "getenv" + [' '] + name || line == "open" + [' '] + name || line == "stat" + [' '] + name || line == "chdir" + [' '] + name)
  }

  lemma GoodLineParses(w: World, root: string, c: Cursor, line: string)
    requires GoodLine(line) && forall p :: w.content(p).Some?
    ensures ParseLine(w, root, c, line).Ok?
  {
    hide Resolve, WithinRoot;
    var name: string :|
      && name != ""
      && (line == "getenv" + [' '] + name || line == "open" + [' '] + name || line == "stat" + [' '] + name || line == "chdir" + [' '] + name);
    hide IndexOf, ParseLine;
    if line == "getenv" + [' '] + name {
      ParseCutLine(w, root, c, "getenv", name);
    } else if line == "open" + [' '] + name {
      ParseCutLine(w, root, c, "open", name);
    } else if line == "stat" + [' '] + name {
      ParseCutLine(w, root, c, "stat", name);
    } else {
      ParseCutLine(w, root, c, "chdir", name);
    }
  }

  lemma ParsedLineIsGood(w: World, root: string, c: Cursor, line: string)
    requires ParseLine(w, root, c, line).Ok?
    ensures GoodLine(line)
  {
    hide Resolve, WithinRoot;
    var k := IndexOf(line, ' ');
    var op, name := line[..k], line[k + 1..];
    assert line == op + [' '] + name;
    assert op == "getenv" || op == "open" || op == "stat" || op == "chdir";
    hide ParseLine, IndexOf;
  }

  lemma {:induction false} GoodLines(w: World, root: string, c: Cursor, lines: seq<string>)
    ensures ParseLines(w, root, c, lines).Ok? ==> forall i | 0 <= i < |lines| :: GoodLine(lines[i])
    ensures (forall p :: w.content(p).Some?) && (forall i | 0 <= i < |lines| :: GoodLine(lines[i])) ==> ParseLines(w, root, c, lines).Ok?
    decreases |lines|
  {
    hide ParseLine, GoodLine;
    if lines != [] {
      if forall p :: w.content(p).Some? {
        if GoodLine(lines[0]) {
          GoodLineParses(w, root, c, lines[0]);
        }
      }
      var r := ParseLine(w, root, c, lines[0]);
      if r.Ok? {
        ParsedLineIsGood(w, root, c, lines[0]);
        GoodLines(w, root, r.value, lines[1..]);
        assert forall i | 0 < i < |lines| :: lines[i] == lines[1..][i - 1];
      }
    }
  }

  /** A log is accepted only with its header and good lines throughout; if every file can be read, exactly then. */
  lemma RefusedIffMalformed(w: World, workDir: string, root: string, text: string)
    ensures Parse(w, workDir, root, text).Ok? ==>
      var lines := ScanLines(text); lines != [] && lines[0] == "# test log" && forall i | 1 <= i < |lines| :: GoodLine(lines[i])
    ensures (forall p :: w.content(p).Some?) ==>
      var lines := ScanLines(text);
      (Parse(w, workDir, root, text).Ok? <==> lines != [] && lines[0] == "# test log" && forall i | 1 <= i < |lines| :: GoodLine(lines[i]))
  {
    hide ScanLines, ParseLines, GoodLine, KeepLast;
    var lines := ScanLines(text);
    if lines != [] {
      GoodLines(w, root, FirstCursor(w, workDir), lines[1..]);
      assert forall i | 1 <= i < |lines| :: lines[i] == lines[1..][i - 1];
    }
  }
}
