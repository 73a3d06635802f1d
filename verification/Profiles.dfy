/** Profile includes: what a profile means, and the memoised depth-first search that computes it. */
module Profiles {
  import opened Common

  datatype Timeout = Unset | Unparsable | Parsed(duration: int)

  datatype RawProfile = RawProfile(
    includes: seq<string>, packages: seq<string>, exclude: seq<string>, tags: seq<string>, flags: seq<string>,
    short: Option<bool>, race: Option<bool>, timeout: Timeout)

  /** A resolved profile; a timeout of 0 is none. */
  datatype Profile = Profile(
    packages: seq<string>, exclude: seq<string>, tags: seq<string>, flags: seq<string>,
    short: Option<bool>, race: Option<bool>, timeout: nat)

  datatype Error = Unknown(name: string) | Cycle(path: seq<string>) | BadTimeout(name: string)

  type Definitions = map<string, RawProfile>

  const BLANK: Profile := Profile([], [], [], [], None, None, 0)

  // ------------------------------------------------------------------------------------------
  // Merging
  // ------------------------------------------------------------------------------------------

  function AppendUnique(dst: seq<string>, values: seq<string>): seq<string>
    decreases |values|
  {
    if values == [] then dst
    else AppendUnique(if values[0] != "" && values[0] !in dst then dst + [values[0]] else dst, values[1..])
  }

  function Later<T>(a: Option<T>, b: Option<T>): Option<T> {
    if b.Some? then b else a
  }

  function Merge(dst: Profile, src: Profile): Profile {
    Profile(AppendUnique(dst.packages, src.packages), AppendUnique(dst.exclude, src.exclude),
            AppendUnique(dst.tags, src.tags), AppendUnique(dst.flags, src.flags),
            Later(dst.short, src.short), Later(dst.race, src.race),
            if src.timeout != 0 then src.timeout else dst.timeout)
  }

  predicate ValidTimeout(t: Timeout) {
    t == Unset || (t.Parsed? && t.duration > 0)
  }

  /** What a profile says itself, without its includes. */
  function Own(raw: RawProfile): Profile {
    Profile(raw.packages, raw.exclude, raw.tags, raw.flags, raw.short, raw.race,
            if raw.timeout.Parsed? && raw.timeout.duration > 0 then raw.timeout.duration else 0)
  }

  function MergeRaw(name: string, dst: Profile, raw: RawProfile): Result<Profile, Error> {
    if ValidTimeout(raw.timeout) then Ok(Merge(dst, Own(raw))) else Err(BadTimeout(name))
  }

  lemma {:induction false} AppendAppend(a: seq<string>, b: seq<string>, c: seq<string>)
    ensures AppendUnique(AppendUnique(a, b), c) == AppendUnique(a, b + c)
    decreases |b|
  {
    if b == [] {
      assert b + c == c;
    } else {
      assert (b + c)[1..] == b[1..] + c && (b + c)[0] == b[0];
      AppendAppend(if b[0] != "" && b[0] !in a then a + [b[0]] else a, b[1..], c);
    }
  }

  lemma {:induction false} AppendContains(a: seq<string>, b: seq<string>, x: string)
    ensures x in AppendUnique(a, b) <==> x in a || (x in b && x != "")
    decreases |b|
  {
    if b != [] {
      AppendContains(if b[0] != "" && b[0] !in a then a + [b[0]] else a, b[1..], x);
      assert x in b <==> x == b[0] || x in b[1..];
    }
  }

  /** Values already there, or empty, add nothing. */
  lemma AppendOne(a: seq<string>, x: string)
    ensures AppendUnique(a, [x]) == if x != "" && x !in a then a + [x] else a
  {
    assert [x][1..] == [];
  }

  /** Appending a deduplicated list is appending the list. */
  lemma {:induction false} AppendDeduped(a: seq<string>, b: seq<string>, c: seq<string>)
    ensures AppendUnique(a, AppendUnique(b, c)) == AppendUnique(a, b + c)
    decreases |c|
  {
    if c == [] {
      assert b + c == b;
    } else {
      var x, rest := c[0], c[1..];
      var next := if x != "" && x !in b then b + [x] else b;
      AppendDeduped(a, next, rest);
      AppendAppend(a, next, rest);
      AppendAppend(a, b, [x]);
      AppendOne(AppendUnique(a, b), x);
      AppendContains(a, b, x);
      assert b + c == b + [x] + rest;
      AppendAppend(a, b + [x], rest);
    }
  }

  lemma AppendAssociates(a: seq<string>, b: seq<string>, c: seq<string>)
    ensures AppendUnique(AppendUnique(a, b), c) == AppendUnique(a, AppendUnique(b, c))
  {
    AppendAppend(a, b, c);
    AppendDeduped(a, b, c);
  }

  lemma MergeAssociates(a: Profile, b: Profile, c: Profile)
    ensures Merge(Merge(a, b), c) == Merge(a, Merge(b, c))
  {
    hide AppendUnique;
    AppendAssociates(a.packages, b.packages, c.packages);
    AppendAssociates(a.exclude, b.exclude, c.exclude);
    AppendAssociates(a.tags, b.tags, c.tags);
    AppendAssociates(a.flags, b.flags, c.flags);
  }

  lemma MergeBlank(a: Profile)
    ensures Merge(a, BLANK) == a
  {
  }

  // ------------------------------------------------------------------------------------------
  // Meaning
  // ------------------------------------------------------------------------------------------

  function Open(ps: Definitions, path: seq<string>): nat {
    |ps.Keys - Elements(path)|
  }

  lemma OpenDrops(ps: Definitions, path: seq<string>, name: string)
    requires name in ps && name !in path
    ensures Open(ps, path + [name]) < Open(ps, path)
  {
    assert ps.Keys - Elements(path + [name]) == (ps.Keys - Elements(path)) - {name};
  }

  function IndexIn(path: seq<string>, name: string): (i: nat)
    requires name in path
    ensures i < |path| && path[i] == name
  {
    if path[0] == name then 0 else IndexIn(path[1..], name) + 1
  }

  /** The meaning of a profile reached by `path`: its includes in order, each in full, then itself. */
  function Eval(ps: Definitions, name: string, path: seq<string>): Result<Profile, Error>
    decreases Open(ps, path), 0
  {
    if name !in ps then Err(Unknown(name))
    else if name in path then Err(Cycle(path[IndexIn(path, name)..] + [name]))
    else
      OpenDrops(ps, path, name);
      var r := EvalAll(ps, ps[name].includes, path + [name], BLANK);
      if r.Err? then r else MergeRaw(name, r.value, ps[name])
  }

  function EvalAll(ps: Definitions, names: seq<string>, path: seq<string>, acc: Profile): Result<Profile, Error>
    decreases Open(ps, path), 1 + |names|
  {
    if names == [] then Ok(acc)
    else
      var r := Eval(ps, names[0], path);
      if r.Err? then r else EvalAll(ps, names[1..], path, Merge(acc, r.value))
  }

  /** The profiles visited, depth first, each after its includes and as often as it is reached. */
  function Flat(ps: Definitions, name: string, path: seq<string>): seq<string>
    decreases Open(ps, path), 0
  {
    if name !in ps || name in path then []
    else
      OpenDrops(ps, path, name);
      FlatAll(ps, ps[name].includes, path + [name]) + [name]
  }

  function FlatAll(ps: Definitions, names: seq<string>, path: seq<string>): seq<string>
    decreases Open(ps, path), 1 + |names|
  {
    if names == [] then [] else Flat(ps, names[0], path) + FlatAll(ps, names[1..], path)
  }

  // ------------------------------------------------------------------------------------------
  // A successful result does not depend on the path
  // ------------------------------------------------------------------------------------------

  lemma {:induction false} OkAvoidsPath(ps: Definitions, name: string, path: seq<string>)
    requires Eval(ps, name, path).Ok?
    ensures Elements(Flat(ps, name, path)) !! Elements(path)
    decreases Open(ps, path), 0
  {
    OpenDrops(ps, path, name);
    OkAllAvoidPath(ps, ps[name].includes, path + [name], BLANK);
    assert Elements(path) <= Elements(path + [name]);
  }

  lemma {:induction false} OkAllAvoidPath(ps: Definitions, names: seq<string>, path: seq<string>, acc: Profile)
    requires EvalAll(ps, names, path, acc).Ok?
    ensures Elements(FlatAll(ps, names, path)) !! Elements(path)
    decreases Open(ps, path), 1 + |names|
  {
    if names != [] {
      OkAvoidsPath(ps, names[0], path);
      OkAllAvoidPath(ps, names[1..], path, Merge(acc, Eval(ps, names[0], path).value));
    }
  }

  /** From another path that meets none of the visited profiles, the search does the same. */
  lemma {:induction false} OkElsewhere(ps: Definitions, name: string, path: seq<string>, other: seq<string>)
    requires Eval(ps, name, path).Ok? && Elements(Flat(ps, name, path)) !! Elements(other)
    ensures Eval(ps, name, other) == Eval(ps, name, path) && Flat(ps, name, other) == Flat(ps, name, path)
    decreases Open(ps, path), 0
  {
    OpenDrops(ps, path, name);
    var names, below := ps[name].includes, FlatAll(ps, ps[name].includes, path + [name]);
    OkAllAvoidPath(ps, names, path + [name], BLANK);
    assert name in Elements(Flat(ps, name, path));
    assert Elements(below) <= Elements(Flat(ps, name, path));
    assert name in Elements(path + [name]);
    assert Elements(other + [name]) == Elements(other) + {name};
    OkAllElsewhere(ps, names, path + [name], other + [name], BLANK);
  }

  lemma {:induction false} OkAllElsewhere(ps: Definitions, names: seq<string>, path: seq<string>, other: seq<string>, acc: Profile)
    requires EvalAll(ps, names, path, acc).Ok? && Elements(FlatAll(ps, names, path)) !! Elements(other)
    ensures EvalAll(ps, names, other, acc) == EvalAll(ps, names, path, acc) && FlatAll(ps, names, other) == FlatAll(ps, names, path)
    decreases Open(ps, path), 1 + |names|
  {
    if names != [] {
      var first, rest := Flat(ps, names[0], path), FlatAll(ps, names[1..], path);
      assert Elements(first) <= Elements(first + rest) && Elements(rest) <= Elements(first + rest);
      OkElsewhere(ps, names[0], path, other);
      OkAllElsewhere(ps, names[1..], path, other, Merge(acc, Eval(ps, names[0], path).value));
    }
  }

  // ------------------------------------------------------------------------------------------
  // When resolution succeeds
  // ------------------------------------------------------------------------------------------

  /** A chain of include edges; the last name need not be defined. */
  ghost predicate Chain(ps: Definitions, c: seq<string>) {
    c != [] && forall i | 0 <= i < |c| - 1 :: c[i] in ps && c[i + 1] in ps[c[i]].includes
  }

  ghost predicate Distinct(c: seq<string>) {
    forall i, j | 0 <= i < j < |c| :: c[i] != c[j]
  }

  function Last(c: seq<string>): string
    requires c != []
  {
    c[|c| - 1]
  }

  /** Nothing is wrong with the end of this chain. */
  ghost predicate Sound(ps: Definitions, c: seq<string>)
    requires c != []
  {
    && Last(c) in ps && Distinct(c)
    && ps[Last(c)].timeout != Unparsable && (ps[Last(c)].timeout.Parsed? ==> ps[Last(c)].timeout.duration > 0)
  }

  /** Every name reachable from `name` is defined with a valid timeout, and no chain of includes returns to itself. */
  ghost predicate WellFormed(ps: Definitions, name: string) {
    forall c | Chain(ps, c) && c[0] == name :: Sound(ps, c)
  }

  lemma {:induction false} OkIsSound(ps: Definitions, name: string, path: seq<string>, c: seq<string>)
    requires Eval(ps, name, path).Ok? && Chain(ps, c) && c[0] == name
    ensures Sound(ps, c) && Elements(c) !! Elements(path)
    decreases |c|
  {
    if |c| > 1 {
      var names := ps[name].includes;
      var k :| 0 <= k < |names| && names[k] == c[1];
      OpenDrops(ps, path, name);
      EachIsOk(ps, names, path + [name], BLANK, k);
      assert Chain(ps, c[1..]);
      OkIsSound(ps, c[1], path + [name], c[1..]);
      assert c == [name] + c[1..];
      assert name in Elements(path + [name]) && Elements(path) <= Elements(path + [name]);
      assert forall j | 0 < j < |c| :: c[j] in Elements(c[1..]);
    }
  }

  lemma {:induction false} EachIsOk(ps: Definitions, names: seq<string>, path: seq<string>, acc: Profile, k: nat)
    requires EvalAll(ps, names, path, acc).Ok? && k < |names|
    ensures Eval(ps, names[k], path).Ok?
    decreases |names|
  {
    if k > 0 {
      EachIsOk(ps, names[1..], path, Merge(acc, Eval(ps, names[0], path).value), k - 1);
    }
  }

  /** What an error reports is there: `c` is a chain of includes from the start to the fault. */
  ghost predicate Explains(ps: Definitions, e: Error, c: seq<string>)
    requires c != []
  {
    match e
    case Unknown(n) => Last(c) == n && n !in ps
    case BadTimeout(n) => Last(c) == n && n in ps && (ps[n].timeout == Unparsable || (ps[n].timeout.Parsed? && ps[n].timeout.duration <= 0))
    case Cycle(p) => Chain(ps, p) && |p| > 1 && p[0] == Last(p) && |p| <= |c| && c[|c| - |p|..] == p
  }

  /** Every error is explained by a chain of includes that extends the path. */
  lemma {:induction false} ErrIsExplained(ps: Definitions, name: string, path: seq<string>) returns (c: seq<string>)
    requires Eval(ps, name, path).Err? && Chain(ps, path + [name])
    ensures Chain(ps, c) && path + [name] <= c && Explains(ps, Eval(ps, name, path).error, c)
    decreases Open(ps, path), 0
  {
    c := path + [name];
    if name in ps && name in path {
      var i := IndexIn(path, name);
      assert c[i..] == path[i..] + [name];
      forall j | 0 <= j < |c[i..]| - 1
        ensures c[i..][j] in ps && c[i..][j + 1] in ps[c[i..][j]].includes
      {
        assert c[i..][j] == c[i + j] && c[i..][j + 1] == c[i + (j + 1)];
      }
    } else if name in ps {
      OpenDrops(ps, path, name);
      if EvalAll(ps, ps[name].includes, path + [name], BLANK).Err? {
        c := ErrAllIsExplained(ps, name, ps[name].includes, path + [name], BLANK);
      }
    }
  }

  lemma {:induction false} ErrAllIsExplained(ps: Definitions, name: string, names: seq<string>, path: seq<string>, acc: Profile)
    returns (c: seq<string>)
    requires EvalAll(ps, names, path, acc).Err? && Chain(ps, path) && Last(path) == name && name in ps
    requires forall k | 0 <= k < |names| :: names[k] in ps[name].includes
    ensures Chain(ps, c) && path <= c && Explains(ps, EvalAll(ps, names, path, acc).error, c)
    decreases Open(ps, path), 1 + |names|
  {
    var r := Eval(ps, names[0], path);
    if r.Err? {
      assert Chain(ps, path + [names[0]]);
      c := ErrIsExplained(ps, names[0], path);
    } else {
      c := ErrAllIsExplained(ps, name, names[1..], path, Merge(acc, r.value));
    }
  }

  /** Resolution succeeds exactly on well-formed definitions, and a failure names a real fault. */
  lemma ResolvesIff(ps: Definitions, name: string)
    ensures Eval(ps, name, []).Ok? <==> WellFormed(ps, name)
  {
    if Eval(ps, name, []).Ok? {
      forall c | Chain(ps, c) && c[0] == name
        ensures Sound(ps, c)
      {
        OkIsSound(ps, name, [], c);
      }
    } else {
      assert [] + [name] == [name];
      var c := ErrIsExplained(ps, name, []);
      UnsoundIfExplained(ps, Eval(ps, name, []).error, c);
    }
  }

  lemma UnsoundIfExplained(ps: Definitions, e: Error, c: seq<string>)
    requires c != [] && Explains(ps, e, c)
    ensures !Sound(ps, c)
  {
    if e.Cycle? {
      var i := |c| - |e.path|;
      assert c[i] == c[i..][0] && c[|c| - 1] == c[i..][|e.path| - 1];
    }
  }

  /** A reported cycle is a path of include edges that leads back to its start. */
  lemma CycleIsGenuine(ps: Definitions, name: string)
    requires Eval(ps, name, []).Err? && Eval(ps, name, []).error.Cycle?
    ensures var p := Eval(ps, name, []).error.path;
      |p| > 1 && p[0] == p[|p| - 1] && forall i | 0 <= i < |p| - 1 :: p[i] in ps && p[i + 1] in ps[p[i]].includes
  {
    assert [] + [name] == [name];
    var c := ErrIsExplained(ps, name, []);
  }

  // ------------------------------------------------------------------------------------------
  // What it resolves to
  // ------------------------------------------------------------------------------------------

  /** Merges what the named profiles say themselves, in order. */
  function Fold(ps: Definitions, acc: Profile, names: seq<string>): Profile
    decreases |names|
  {
    if names == [] then acc
    else Fold(ps, if names[0] in ps then Merge(acc, Own(ps[names[0]])) else acc, names[1..])
  }

  lemma {:induction false} FoldAppend(ps: Definitions, acc: Profile, a: seq<string>, b: seq<string>)
    ensures Fold(ps, acc, a + b) == Fold(ps, Fold(ps, acc, a), b)
    decreases |a|
  {
    if a == [] {
      assert a + b == b;
    } else {
      assert (a + b)[0] == a[0] && (a + b)[1..] == a[1..] + b;
      FoldAppend(ps, if a[0] in ps then Merge(acc, Own(ps[a[0]])) else acc, a[1..], b);
    }
  }

  lemma {:induction false} FoldMerge(ps: Definitions, dst: Profile, acc: Profile, names: seq<string>)
    ensures Merge(dst, Fold(ps, acc, names)) == Fold(ps, Merge(dst, acc), names)
    decreases |names|
  {
    hide Merge, Own;
    if names != [] {
      if names[0] in ps {
        MergeAssociates(dst, acc, Own(ps[names[0]]));
        FoldMerge(ps, dst, Merge(acc, Own(ps[names[0]])), names[1..]);
      } else {
        FoldMerge(ps, dst, acc, names[1..]);
      }
    }
  }

  /** A resolved profile is the merge of all the profiles in its depth-first order. */
  lemma {:induction false} EvalIsFold(ps: Definitions, name: string, path: seq<string>)
    requires Eval(ps, name, path).Ok?
    ensures Eval(ps, name, path).value == Fold(ps, BLANK, Flat(ps, name, path))
    decreases Open(ps, path), 0
  {
    OpenDrops(ps, path, name);
    var below := FlatAll(ps, ps[name].includes, path + [name]);
    EvalAllIsFold(ps, ps[name].includes, path + [name], BLANK);
    FoldAppend(ps, BLANK, below, [name]);
    hide Merge, Own;
    assert [name][1..] == [];
    assert Fold(ps, Fold(ps, BLANK, below), [name]) == Merge(Fold(ps, BLANK, below), Own(ps[name]));
  }

  lemma {:induction false} EvalAllIsFold(ps: Definitions, names: seq<string>, path: seq<string>, acc: Profile)
    requires EvalAll(ps, names, path, acc).Ok?
    ensures EvalAll(ps, names, path, acc).value == Fold(ps, acc, FlatAll(ps, names, path))
    decreases Open(ps, path), 1 + |names|
  {
    if names != [] {
      var first, rest := Flat(ps, names[0], path), FlatAll(ps, names[1..], path);
      EvalIsFold(ps, names[0], path);
      MergeBlank(acc);
      FoldMerge(ps, acc, BLANK, first);
      EvalAllIsFold(ps, names[1..], path, Merge(acc, Eval(ps, names[0], path).value));
      FoldAppend(ps, acc, first, rest);
    }
  }

  datatype Field = Packages | Exclude | Tags | Flags

  function ListOf(p: Profile, f: Field): seq<string> {
    match f
    case Packages => p.packages
    case Exclude => p.exclude
    case Tags => p.tags
    case Flags => p.flags
  }

  /** What a definition itself lists in a field. */
  function RawList(raw: RawProfile, f: Field): seq<string> {
    match f
    case Packages => raw.packages
    case Exclude => raw.exclude
    case Tags => raw.tags
    case Flags => raw.flags
  }

  /** The values of one field in all the named definitions, one after the other. */
  function Concat(ps: Definitions, names: seq<string>, f: Field): seq<string> {
    if names == [] then [] else (if names[0] in ps then RawList(ps[names[0]], f) else []) + Concat(ps, names[1..], f)
  }

  /** The last setting among the named profiles. */
  function LastSet<T>(ps: Definitions, names: seq<string>, get: RawProfile -> Option<T>): Option<T> {
    if names == [] then None
    else Later(if names[0] in ps then get(ps[names[0]]) else None, LastSet(ps, names[1..], get))
  }

  function ShortOf(r: RawProfile): Option<bool> { r.short }
  function RaceOf(r: RawProfile): Option<bool> { r.race }
  function TimeoutOf(r: RawProfile): Option<nat> { if r.timeout.Parsed? && r.timeout.duration > 0 then Some(r.timeout.duration) else None }

  function OrNone(t: Option<nat>, other: nat): nat { if t.Some? then t.value else other }

  lemma {:induction false} FoldList(ps: Definitions, acc: Profile, names: seq<string>, f: Field)
    ensures ListOf(Fold(ps, acc, names), f) == AppendUnique(ListOf(acc, f), Concat(ps, names, f))
    decreases |names|
  {
    if names != [] {
      var own := if names[0] in ps then RawList(ps[names[0]], f) else [];
      var next := if names[0] in ps then Merge(acc, Own(ps[names[0]])) else acc;
      FoldList(ps, next, names[1..], f);
      AppendAppend(ListOf(acc, f), own, Concat(ps, names[1..], f));
      assert ListOf(next, f) == AppendUnique(ListOf(acc, f), own);
    }
  }

  lemma {:induction false} FoldSettings(ps: Definitions, acc: Profile, names: seq<string>)
    ensures Fold(ps, acc, names).short == Later(acc.short, LastSet(ps, names, ShortOf))
    ensures Fold(ps, acc, names).race == Later(acc.race, LastSet(ps, names, RaceOf))
    ensures Fold(ps, acc, names).timeout == OrNone(LastSet(ps, names, TimeoutOf), acc.timeout)
    decreases |names|
  {
    hide AppendUnique;
    if names != [] {
      FoldSettings(ps, if names[0] in ps then Merge(acc, Own(ps[names[0]])) else acc, names[1..]);
    }
  }

  /**
    Each list of a resolved profile is the first-occurrence deduplication of the whole depth-first
    concatenation, repeats included; each other setting is the last one made in it.
   */
  lemma ResolvedIs(ps: Definitions, name: string, f: Field)
    requires Eval(ps, name, []).Ok?
    ensures var p, order := Eval(ps, name, []).value, Flat(ps, name, []);
      && ListOf(p, f) == AppendUnique([], Concat(ps, order, f))
      && p.short == LastSet(ps, order, ShortOf) && p.race == LastSet(ps, order, RaceOf)
      && p.timeout == OrNone(LastSet(ps, order, TimeoutOf), 0)
  {
    EvalIsFold(ps, name, []);
    FoldList(ps, BLANK, Flat(ps, name, []), f);
    FoldSettings(ps, BLANK, Flat(ps, name, []));
  }

  /** A later definition's setting replaces an earlier one's; its values come behind. */
  lemma {:induction false} LaterCounts<T>(ps: Definitions, names: seq<string>, n: string, get: RawProfile -> Option<T>)
    requires n in ps
    ensures LastSet(ps, names + [n], get) == if get(ps[n]).Some? then get(ps[n]) else LastSet(ps, names, get)
  {
    var all := names + [n];
    if names == [] {
      assert all == [n];
      assert [n][1..] == [];
    } else {
      assert all[0] == names[0] && all[1..] == names[1..] + [n];
      LaterCounts(ps, names[1..], n, get);
    }
  }

  lemma {:induction false} ConcatAppend(ps: Definitions, a: seq<string>, b: seq<string>, f: Field)
    ensures Concat(ps, a + b, f) == Concat(ps, a, f) + Concat(ps, b, f)
  {
    if a == [] {
      assert a + b == b;
    } else {
      assert (a + b)[0] == a[0] && (a + b)[1..] == a[1..] + b;
      ConcatAppend(ps, a[1..], b, f);
    }
  }

  /**
    A profile's own settings win over those of its includes, and its own values come behind theirs:
    what it resolves to is what its includes give, in order and in full, and then itself.
   */
  lemma OwnComesLast(ps: Definitions, name: string, f: Field)
    requires Eval(ps, name, []).Ok?
    ensures name in ps
    ensures var raw, p := ps[name], Eval(ps, name, []).value;
      && (raw.short.Some? ==> p.short == raw.short) && (raw.race.Some? ==> p.race == raw.race)
      && (raw.timeout.Parsed? ==> p.timeout == raw.timeout.duration)
      && FirstOccurrences(Concat(ps, FlatAll(ps, raw.includes, [name]), f) + RawList(raw, f), ListOf(p, f))
  {
    var raw := ps[name];
    var below := FlatAll(ps, raw.includes, [name]);
    OpenDrops(ps, [], name);
    assert [] + [name] == [name];
    assert Flat(ps, name, []) == below + [name];
    ResolvedIs(ps, name, f);
    LaterCounts(ps, below, name, ShortOf);
    LaterCounts(ps, below, name, RaceOf);
    LaterCounts(ps, below, name, TimeoutOf);
    ConcatAppend(ps, below, [name], f);
    OneConcat(ps, name, f);
    UniqueIsFirst(Concat(ps, below, f) + RawList(raw, f));
    assert ValidTimeout(raw.timeout);
    hide Eval, Flat, FlatAll, FirstOccurrences, LastSet, Concat, AppendUnique;
  }

  lemma OneConcat(ps: Definitions, name: string, f: Field)
    requires name in ps
    ensures Concat(ps, [name], f) == RawList(ps[name], f)
  {
    assert [name][1..] == [];
    assert RawList(ps[name], f) + [] == RawList(ps[name], f);
  }

  /** Includes are visited one after the other, each with all of its own includes before it. */
  lemma IncludesInOrder(ps: Definitions, name: string, path: seq<string>, names: seq<string>)
    requires name in ps && name !in path && names != []
    ensures FlatAll(ps, names, path) == Flat(ps, names[0], path) + FlatAll(ps, names[1..], path)
    ensures Flat(ps, name, path) == FlatAll(ps, ps[name].includes, path + [name]) + [name]
  {
    OpenDrops(ps, path, name);
  }

  /**
    A profile without includes resolves to what it says itself: each list is the first occurrences of
    its own, and each setting its own.
   */
  lemma PlainProfile(ps: Definitions, name: string)
    requires name in ps && ps[name].includes == [] && Eval(ps, name, []).Ok?
    ensures var raw, p := ps[name], Eval(ps, name, []).value;
      && FirstOccurrences(raw.packages, p.packages) && FirstOccurrences(raw.exclude, p.exclude)
      && FirstOccurrences(raw.tags, p.tags) && FirstOccurrences(raw.flags, p.flags)
      && p.short == raw.short && p.race == raw.race
      && p.timeout == (if raw.timeout.Parsed? then raw.timeout.duration else 0)
  {
    var raw := ps[name];
    hide AppendUnique;
    assert Eval(ps, name, []).value == Merge(BLANK, Own(raw));
    UniqueIsFirst(raw.packages);
    UniqueIsFirst(raw.exclude);
    UniqueIsFirst(raw.tags);
    UniqueIsFirst(raw.flags);
  }

  /** Appending to nothing keeps exactly the first occurrences of the nonempty values, in order. */
  ghost predicate FirstOccurrences(values: seq<string>, r: seq<string>) {
    && Distinct(r)
    && (forall x :: x in r <==> x in values && x != "")
    && (forall i, j | 0 <= i < j < |r| && r[i] in values && r[j] in values :: IndexIn(values, r[i]) < IndexIn(values, r[j]))
  }

  lemma {:induction false} IndexAppend(a: seq<string>, b: seq<string>, x: string)
    requires x in a || x in b
    ensures IndexIn(a + b, x) == if x in a then IndexIn(a, x) else |a| + IndexIn(b, x)
  {
    if a == [] {
      assert a + b == b;
    } else if a[0] != x {
      assert (a + b)[1..] == a[1..] + b;
      IndexAppend(a[1..], b, x);
    }
  }

  lemma {:induction false} UniqueIsFirst(values: seq<string>)
    ensures FirstOccurrences(values, AppendUnique([], values))
    decreases |values|
  {
    if values != [] {
      var most, x := values[..|values| - 1], values[|values| - 1];
      assert values == most + [x];
      UniqueIsFirst(most);
      AppendAppend([], most, [x]);
      AppendOne(AppendUnique([], most), x);
      FirstNext(most, x, AppendUnique([], most));
    }
  }

  lemma FirstNext(most: seq<string>, x: string, r: seq<string>)
    requires FirstOccurrences(most, r)
    ensures FirstOccurrences(most + [x], if x != "" && x !in r then r + [x] else r)
  {
    var next := if x != "" && x !in r then r + [x] else r;
    forall y | y in most || y == x
      ensures IndexIn(most + [x], y) == if y in most then IndexIn(most, y) else |most|
    {
      IndexAppend(most, [x], y);
    }
    assert forall y :: y in next <==> y in most + [x] && y != "";
  }
}
