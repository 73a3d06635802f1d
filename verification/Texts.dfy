/** Strings as the program takes them apart: lines, words and slash-separated paths. */
module Texts {

  // ------------------------------------------------------------------------------------------
  // Searching
  // ------------------------------------------------------------------------------------------

  /** The first position of `c`, or the length. */
  function IndexOf(s: string, c: char): (k: nat)
    ensures k <= |s| && c !in s[..k]
    ensures k < |s| ==> s[k] == c
  {
    if s == [] || s[0] == c then 0 else IndexOf(s[1..], c) + 1
  }

  lemma {:induction false} IndexIsUnique(a: string, b: string, c: char)
    requires c !in a
    ensures IndexOf(a + [c] + b, c) == |a| && IndexOf(a, c) == |a|
  {
    if a != [] {
      assert (a + [c] + b)[1..] == a[1..] + [c] + b;
      IndexIsUnique(a[1..], b, c);
    }
  }

  // ------------------------------------------------------------------------------------------
  // Lines
  // ------------------------------------------------------------------------------------------

  function DropReturn(s: string): string {
    if s != [] && s[|s| - 1] == '\r' then s[..|s| - 1] else s
  }

  /** What a line scanner yields: newline-separated lines without a trailing carriage return. */
  function ScanLines(s: string): seq<string>
    decreases |s|
  {
    if s == [] then []
    else
      var k := IndexOf(s, '\n');
      [DropReturn(s[..k])] + if k < |s| then ScanLines(s[k + 1..]) else []
  }

  function Unlines(lines: seq<string>): string {
    if lines == [] then [] else lines[0] + ['\n'] + Unlines(lines[1..])
  }

  predicate OneLine(s: string) {
    '\n' !in s && DropReturn(s) == s
  }

  lemma ScanCons(line: string, rest: string)
    requires '\n' !in line
    ensures ScanLines(line + ['\n'] + rest) == [DropReturn(line)] + ScanLines(rest)
  {
    var s := line + ['\n'] + rest;
    IndexIsUnique(line, rest, '\n');
    assert s[..|line|] == line;
    assert s[|line| + 1..] == rest;
  }

  /** Scanning gives back exactly the lists of lines without inner line breaks and trailing returns. */
  lemma {:induction false} ScanUnlines(lines: seq<string>)
    ensures ScanLines(Unlines(lines)) == lines <==> forall i | 0 <= i < |lines| :: OneLine(lines[i])
  {
    if lines != [] {
      var s, rest := Unlines(lines), Unlines(lines[1..]);
      if '\n' in lines[0] {
        assert '\n' !in ScanLines(s)[0];
      } else {
        ScanCons(lines[0], rest);
        ScanUnlines(lines[1..]);
        assert ScanLines(s)[1..] == ScanLines(rest);
        assert lines == [lines[0]] + lines[1..];
        assert forall i | 0 <= i < |lines[1..]| :: lines[1..][i] == lines[i + 1];
      }
    }
  }

  // ------------------------------------------------------------------------------------------
  // Paths
  // ------------------------------------------------------------------------------------------

  function Split(s: string, c: char): (parts: seq<string>)
    ensures parts != []
    ensures forall i | 0 <= i < |parts| :: c !in parts[i]
    decreases |s|
  {
    var k := IndexOf(s, c);
    if k == |s| then assert s[..k] == s; [s] else [s[..k]] + Split(s[k + 1..], c)
  }

  /** Every part with a slash before it: the form of a clean absolute path. */
  function Slashed(parts: seq<string>): string {
    if parts == [] then [] else ['/'] + parts[0] + Slashed(parts[1..])
  }

  predicate Plain(part: string) {
    part != "" && part != "." && part != ".." && '/' !in part
  }

  predicate AllPlain(parts: seq<string>) {
    forall i | 0 <= i < |parts| :: Plain(parts[i])
  }

  /** Folds the parts of an absolute path: empty and "." parts vanish, ".." takes back the last part. */
  function Tidy(done: seq<string>, parts: seq<string>): (r: seq<string>)
    requires AllPlain(done) && forall i | 0 <= i < |parts| :: '/' !in parts[i]
    ensures AllPlain(r)
    decreases |parts|
  {
    if parts == [] then done
    else if parts[0] == "" || parts[0] == "." then Tidy(done, parts[1..])
    else if parts[0] == ".." then Tidy(if done == [] then [] else done[..|done| - 1], parts[1..])
    else Tidy(done + [parts[0]], parts[1..])
  }

  function Parts(path: string): (r: seq<string>)
    ensures AllPlain(r)
  {
    Tidy([], Split(path, '/'))
  }

  function PathOf(parts: seq<string>): string {
    if parts == [] then "/" else Slashed(parts)
  }

  /** The shortest equivalent of an absolute path. */
  function Clean(path: string): string {
    PathOf(Parts(path))
  }

  predicate IsAbs(path: string) {
    path != "" && path[0] == '/'
  }

  /** What a file name means in a working directory. */
  function Resolve(pwd: string, name: string): string {
    Clean(if IsAbs(name) then name else pwd + "/" + name)
  }

  /** A separator cuts off the part before it. */
  lemma SplitAt(a: string, b: string, c: char)
    requires c !in a
    ensures Split(a + [c] + b, c) == [a] + Split(b, c) && Split(a, c) == [a]
  {
    var s := a + [c] + b;
    IndexIsUnique(a, b, c);
    assert s[..|a|] == a && s[|a| + 1..] == b;
    assert a[..|a|] == a;
  }

  lemma {:induction false} SplitSlashed(part: string, parts: seq<string>)
    requires '/' !in part && AllPlain(parts)
    ensures Split(part + Slashed(parts), '/') == [part] + parts
    decreases |parts|
  {
    hide Split, IndexOf;
    if parts == [] {
      assert part + Slashed(parts) == part;
      assert [part] + parts == [part];
      SplitAt(part, "", '/');
    } else {
      var rest := parts[0] + Slashed(parts[1..]);
      assert part + Slashed(parts) == part + ['/'] + rest;
      SplitAt(part, rest, '/');
      SplitSlashed(parts[0], parts[1..]);
      assert [parts[0]] + parts[1..] == parts;
    }
  }

  lemma {:induction false} TidyPlain(done: seq<string>, parts: seq<string>)
    requires AllPlain(done) && AllPlain(parts)
    ensures Tidy(done, parts) == done + parts
    decreases |parts|
  {
    if parts != [] {
      TidyPlain(done + [parts[0]], parts[1..]);
      assert done + [parts[0]] + parts[1..] == done + parts;
    } else {
      assert done + parts == done;
    }
  }

  /** Reading back the parts of a clean path gives them unchanged. */
  lemma PartsOfPath(parts: seq<string>)
    requires AllPlain(parts)
    ensures Parts(PathOf(parts)) == parts
  {
    if parts == [] {
      SplitAt("", "", '/');
      assert "" + ['/'] + "" == "/";
      assert Tidy([], [""]) == [];
      assert Tidy([], ["", ""]) == Tidy([], ["", ""][1..]);
    } else {
      SplitSlashed("", parts);
      assert "" + Slashed(parts) == Slashed(parts);
      assert Tidy([], [""] + parts) == Tidy([], parts);
      TidyPlain([], parts);
    }
  }

  lemma CleanIsClean(path: string)
    ensures Clean(Clean(path)) == Clean(path) && IsAbs(Clean(path))
  {
    PartsOfPath(Parts(path));
  }

  /** A resolved path means the same in every working directory. */
  lemma ResolveIsAbsolute(pwd: string, name: string, other: string)
    ensures Resolve(other, Resolve(pwd, name)) == Resolve(pwd, name)
  {
    CleanIsClean(if IsAbs(name) then name else pwd + "/" + name);
  }

  /** The parts with a character added to the last one. */
  function Longer(parts: seq<string>, c: char): seq<string>
    requires parts != []
  {
    parts[..|parts| - 1] + [parts[|parts| - 1] + [c]]
  }

  lemma LongerCons(a: string, parts: seq<string>, c: char)
    requires parts != []
    ensures Longer([a] + parts, c) == [a] + Longer(parts, c)
  {
  }

  /** A character other than the separator lengthens the last part. */
  lemma {:induction false} SplitSnoc(s: string, c: char, sep: char)
    requires c != sep
    ensures Split(s + [c], sep) == Longer(Split(s, sep), c)
    decreases |s|
  {
    hide Split, IndexOf;
    var k := IndexOf(s, sep);
    if k == |s| {
      assert s[..k] == s;
      SplitAt(s, "", sep);
      SplitAt(s + [c], "", sep);
    } else {
      var a, b := s[..k], s[k + 1..];
      SplitAt(a, b, sep);
      SplitAt(a, b + [c], sep);
      assert s == a + [sep] + b;
      assert s + [c] == a + [sep] + (b + [c]);
      SplitSnoc(b, c, sep);
      LongerCons(a, Split(b, sep), c);
    }
  }

  predicate NoSlash(parts: seq<string>) {
    forall i | 0 <= i < |parts| :: '/' !in parts[i]
  }

  lemma {:induction false} TidySnoc(done: seq<string>, parts: seq<string>, x: string)
    requires AllPlain(done) && NoSlash(parts) && '/' !in x
    ensures Tidy(done, parts + [x]) == Tidy(Tidy(done, parts), [x])
    decreases |parts|
  {
    if parts == [] {
      assert parts + [x] == [x];
    } else {
      var all := parts + [x];
      assert all[0] == parts[0] && all[1..] == parts[1..] + [x];
      if parts[0] == "" || parts[0] == "." {
        TidySnoc(done, parts[1..], x);
      } else if parts[0] == ".." {
        TidySnoc(if done == [] then [] else done[..|done| - 1], parts[1..], x);
      } else {
        TidySnoc(done + [parts[0]], parts[1..], x);
      }
    }
  }

  lemma TidyOne(done: seq<string>, x: string)
    requires AllPlain(done) && '/' !in x
    ensures Plain(x) ==> Tidy(done, [x]) == done + [x]
    ensures |Tidy(done, [x])| <= |done| || Tidy(done, [x]) == done + [x]
  {
    assert [x][1..] == [];
  }

  /** A name and the name with a carriage return behind it mean different paths, in every directory. */
  lemma ReturnMatters(pwd: string, cut: string)
    requires cut != ""
    ensures Resolve(pwd, cut + ['\r']) != Resolve(pwd, cut)
  {
    var s := if IsAbs(cut) then cut else pwd + "/" + cut;
    assert s + ['\r'] == if IsAbs(cut + ['\r']) then cut + ['\r'] else pwd + "/" + (cut + ['\r']);
    ReturnMattersClean(s);
  }

  lemma ReturnMattersClean(s: string)
    ensures Clean(s + ['\r']) != Clean(s)
  {
    var parts := Split(s, '/');
    var n := |parts| - 1;
    var last := parts[n];
    SplitSnoc(s, '\r', '/');
    assert parts == parts[..n] + [last];
    var base := Tidy([], parts[..n]);
    TidySnoc([], parts[..n], last);
    TidySnoc([], parts[..n], last + ['\r']);
    assert (last + ['\r'])[|last|] == '\r';
    assert Plain(last + ['\r']);
    TidyOne(base, last);
    TidyOne(base, last + ['\r']);
    assert Parts(s + ['\r']) == base + [last + ['\r']];
    assert Parts(s) == Tidy(base, [last]);
    assert (base + [last + ['\r']])[|base|] != (base + [last])[|base|];
    PartsOfPath(Parts(s));
    PartsOfPath(Parts(s + ['\r']));
  }

  lemma {:induction false} TidyAppend(done: seq<string>, a: seq<string>, b: seq<string>)
    requires AllPlain(done) && NoSlash(a) && NoSlash(b)
    ensures NoSlash(a + b) && Tidy(done, a + b) == Tidy(Tidy(done, a), b)
    decreases |b|
  {
    if b == [] {
      assert a + b == a;
    } else {
      var x, rest := b[0], b[1..];
      assert a + b == a + [x] + rest;
      assert NoSlash(a + [x]);
      TidySnoc(done, a, x);
      TidyAppend(done, a + [x], rest);
      TidyAppendOne(Tidy(done, a), x, rest);
      assert b == [x] + rest;
    }
  }

  lemma TidyAppendOne(done: seq<string>, x: string, rest: seq<string>)
    requires AllPlain(done) && '/' !in x && NoSlash(rest)
    ensures NoSlash([x] + rest) && Tidy(done, [x] + rest) == Tidy(Tidy(done, [x]), rest)
  {
    assert ([x] + rest)[1..] == rest && ([x] + rest)[0] == x;
    assert [x][1..] == [];
  }

  lemma {:induction false} SplitJoin(a: string, b: string, sep: char)
    ensures Split(a + [sep] + b, sep) == Split(a, sep) + Split(b, sep)
    decreases |a|
  {
    var k := IndexOf(a, sep);
    hide Split, IndexOf;
    if k == |a| {
      assert a[..k] == a;
      SplitAt(a, b, sep);
    } else {
      var x, y := a[..k], a[k + 1..];
      SplitAt(x, y, sep);
      SplitAt(x, y + [sep] + b, sep);
      assert a == x + [sep] + y;
      assert a + [sep] + b == x + [sep] + (y + [sep] + b);
      SplitJoin(y, b, sep);
      assert [x] + (Split(y, sep) + Split(b, sep)) == [x] + Split(y, sep) + Split(b, sep);
    }
  }

  /** Going on from a path folds the further parts onto its own. */
  lemma PartsJoin(s: string, b: string)
    ensures NoSlash(Split(b, '/')) && Parts(s + "/" + b) == Tidy(Parts(s), Split(b, '/'))
  {
    SplitJoin(s, b, '/');
    assert s + "/" + b == s + ['/'] + b;
    TidyAppend([], Split(s, '/'), Split(b, '/'));
  }

  /** In a clean directory, a plain name is an entry of it, "." the directory itself and ".." its parent. */
  lemma ResolveStep(ps: seq<string>, x: string)
    requires AllPlain(ps)
    ensures Plain(x) ==> Resolve(PathOf(ps), x) == PathOf(ps + [x])
    ensures Resolve(PathOf(ps), ".") == PathOf(ps)
    ensures Resolve(PathOf(ps), "..") == PathOf(if ps == [] then [] else ps[..|ps| - 1])
  {
    PartsOfPath(ps);
    if Plain(x) {
      OneStep(ps, x);
    }
    OneStep(ps, ".");
    OneStep(ps, "..");
  }

  lemma OneStep(ps: seq<string>, x: string)
    requires AllPlain(ps) && '/' !in x && Parts(PathOf(ps)) == ps && x != ""
    ensures Resolve(PathOf(ps), x) == PathOf(Tidied(ps, x))
  {
    assert x[0] in x;
    PartsJoin(PathOf(ps), x);
    SplitAt(x, "", '/');
    TidyTidied(ps, x);
    hide Split, Tidy, PathOf, Tidied;
  }

  /** What one more name makes of a clean path. */
  function Tidied(ps: seq<string>, x: string): seq<string> {
    if x == "." then ps else if x == ".." then (if ps == [] then [] else ps[..|ps| - 1]) else ps + [x]
  }

  lemma TidyTidied(ps: seq<string>, x: string)
    requires AllPlain(ps) && '/' !in x && x != ""
    ensures Tidy(ps, [x]) == Tidied(ps, x)
  {
    assert [x][1..] == [];
  }

  /** A longer relative name is followed step by step; an absolute one starts anew. */
  lemma ResolveSteps(pwd: string, a: string, b: string, other: string)
    requires a != ""
    ensures !IsAbs(b) ==> Resolve(pwd, a + "/" + b) == Resolve(Resolve(pwd, a), b)
    ensures IsAbs(a) ==> Resolve(pwd, a) == Resolve(other, a)
  {
    var s := if IsAbs(a) then a else pwd + "/" + a;
    assert (a + "/" + b)[0] == a[0];
    assert s + "/" + b == if IsAbs(a + "/" + b) then a + "/" + b else pwd + "/" + (a + "/" + b);
    PartsJoin(s, b);
    PartsOfPath(Parts(s));
    PartsJoin(PathOf(Parts(s)), b);
  }

  // ------------------------------------------------------------------------------------------
  // Containment
  // ------------------------------------------------------------------------------------------

  /** The length of the longest common prefix. */
  function Shared(a: seq<string>, b: seq<string>): (k: nat)
    ensures k <= |a| && k <= |b| && a[..k] == b[..k]
    ensures k < |a| && k < |b| ==> a[k] != b[k]
  {
    if a == [] || b == [] || a[0] != b[0] then 0 else Shared(a[1..], b[1..]) + 1
  }

  /** The parts of the path that leads from `root` to `path`. */
  function Rel(root: seq<string>, path: seq<string>): seq<string> {
    var k := Shared(root, path);
    seq(|root| - k, _ => "..") + path[k..]
  }

  /** The relative path does not climb out of the root. */
  predicate WithinRoot(path: string, root: string) {
    IsAbs(root) && (Rel(Parts(root), Parts(path)) == [] || Rel(Parts(root), Parts(path))[0] != "..")
  }

  /** Containment is component-wise: "/a/bc" is not within "/a/b", and "/a/..b" is within "/a". */
  lemma WithinIffPrefix(path: string, root: string)
    ensures WithinRoot(path, root) <==> IsAbs(root) && Parts(root) <= Parts(path)
  {
    var r, p := Parts(root), Parts(path);
    var k := Shared(r, p);
    if k == |r| {
      assert Rel(r, p) == p[k..];
      assert k < |p| ==> Plain(p[k]);
    } else {
      assert Rel(r, p)[0] == "..";
      assert !(r <= p);
    }
  }
}
