/** The memoised search as the program runs it, proved equal to the unmemoised meaning, errors included. */
module Resolvers {
  import opened Common
  import opened Profiles

  method AppendValues(dst: seq<string>, values: seq<string>) returns (r: seq<string>)
    ensures r == AppendUnique(dst, values)
  {
    r := dst;
    for i := 0 to |values|
      invariant AppendUnique(r, values[i..]) == AppendUnique(dst, values)
    {
      assert values[i..][0] == values[i] && values[i..][1..] == values[i + 1..];
      if values[i] != "" && values[i] !in r {
        r := r + [values[i]];
      }
    }
  }

  method MergeRunProfile(dst: Profile, src: Profile) returns (r: Profile)
    ensures r == Merge(dst, src)
  {
    var packages := AppendValues(dst.packages, src.packages);
    var exclude := AppendValues(dst.exclude, src.exclude);
    var tags := AppendValues(dst.tags, src.tags);
    var flags := AppendValues(dst.flags, src.flags);
    r := dst.(packages := packages, exclude := exclude, tags := tags, flags := flags);
    if src.short.Some? {
      r := r.(short := src.short);
    }
    if src.race.Some? {
      r := r.(race := src.race);
    }
    if src.timeout != 0 {
      r := r.(timeout := src.timeout);
    }
  }

  /** Whatever was resolved means the same wherever the search stands: it never meets the stack. */
  ghost predicate Memo(ps: Definitions, stack: seq<string>, resolved: map<string, Profile>) {
    && resolved.Keys !! Elements(stack)
    && forall n | n in resolved :: Eval(ps, n, stack) == Ok(resolved[n]) && Elements(Flat(ps, n, stack)) <= resolved.Keys
  }

  lemma MemoMoves(ps: Definitions, stack: seq<string>, other: seq<string>, resolved: map<string, Profile>)
    requires Memo(ps, stack, resolved) && resolved.Keys !! Elements(other)
    ensures Memo(ps, other, resolved)
  {
    forall n | n in resolved
      ensures Eval(ps, n, other) == Ok(resolved[n]) && Elements(Flat(ps, n, other)) <= resolved.Keys
    {
      OkElsewhere(ps, n, stack, other);
    }
  }

  lemma MemoPush(ps: Definitions, stack: seq<string>, resolved: map<string, Profile>, cur: string)
    requires Memo(ps, stack, resolved) && cur !in resolved
    ensures Memo(ps, stack + [cur], resolved)
  {
    assert Elements(stack + [cur]) == Elements(stack) + {cur};
    MemoMoves(ps, stack, stack + [cur], resolved);
  }

  lemma MemoPop(ps: Definitions, stack: seq<string>, resolved: map<string, Profile>, cur: string, out: Profile)
    requires Memo(ps, stack + [cur], resolved) && cur !in stack && Eval(ps, cur, stack) == Ok(out)
    requires Elements(Flat(ps, cur, stack)) <= resolved.Keys + {cur}
    ensures Memo(ps, stack, resolved[cur := out])
  {
    assert Elements(stack + [cur]) == Elements(stack) + {cur};
    MemoMoves(ps, stack + [cur], stack, resolved);
  }

  /** One step of the meaning, for a profile that is defined and not on the path. */
  lemma EvalStep(ps: Definitions, cur: string, path: seq<string>)
    requires cur in ps && cur !in path
    ensures Open(ps, path + [cur]) < Open(ps, path)
    ensures var r := EvalAll(ps, ps[cur].includes, path + [cur], BLANK);
      Eval(ps, cur, path) == if r.Err? then r else MergeRaw(cur, r.value, ps[cur])
    ensures Elements(Flat(ps, cur, path)) == Elements(FlatAll(ps, ps[cur].includes, path + [cur])) + {cur}
  {
    OpenDrops(ps, path, cur);
    var below := FlatAll(ps, ps[cur].includes, path + [cur]);
    assert Flat(ps, cur, path) == below + [cur];
    assert Elements(below + [cur]) == Elements(below) + {cur};
  }

  class Resolver {
    const profiles: Definitions
    var stack: seq<string>
    var visiting: set<string>
    var resolved: map<string, Profile>

    ghost predicate Valid()
      reads this
    {
      visiting == Elements(stack) && Memo(profiles, stack, resolved)
    }

    constructor (profiles: Definitions)
      ensures Valid() && this.profiles == profiles && stack == []
    {
      this.profiles := profiles;
      stack, visiting, resolved := [], {}, map[];
    }

    /** What a successful visit leaves: the stack as it was, and all it met resolved. */
    ghost predicate Visited(name: string, was: seq<string>, before: map<string, Profile>)
      reads this
    {
      && Valid() && stack == was && name in resolved
      && before.Keys <= resolved.Keys
    }

    method Visit(cur: string) returns (r: Result<Profile, Error>)
      requires Valid()
      modifies this
      ensures r == Eval(profiles, cur, old(stack))
      ensures r.Ok? ==> Visited(cur, old(stack), old(resolved))
      decreases Open(profiles, stack), 0
    {
      if cur in resolved {
        return Ok(resolved[cur]);
      }
      if cur !in profiles {
        return Err(Unknown(cur));
      }
      if cur in visiting {
        return Err(Cycle(stack[IndexIn(stack, cur)..] + [cur]));
      }
      ghost var path := stack;
      EvalStep(profiles, cur, path);
      hide Eval, EvalAll, Flat, FlatAll, Memo, Merge, Elements, Open;
      Enter(cur);
      var out := VisitIncludes(profiles[cur].includes);
      if out.Err? {
        return out;
      }
      if !ValidTimeout(profiles[cur].timeout) {
        return Err(BadTimeout(cur));
      }
      var merged := MergeRunProfile(out.value, Own(profiles[cur]));
      r := Ok(merged);
      Leave(path, cur, merged);
    }

    method Enter(cur: string)
      requires Valid() && cur !in resolved
      modifies this`stack, this`visiting
      ensures Valid() && stack == old(stack) + [cur]
    {
      MemoPush(profiles, stack, resolved, cur);
      assert Elements(stack + [cur]) == Elements(stack) + {cur};
      visiting := visiting + {cur};
      stack := stack + [cur];
    }

    method Leave(ghost path: seq<string>, cur: string, merged: Profile)
      requires Valid() && stack == path + [cur] && cur !in path && Eval(profiles, cur, path) == Ok(merged)
      requires Elements(Flat(profiles, cur, path)) <= resolved.Keys + {cur}
      modifies this
      ensures Valid() && stack == path && resolved == old(resolved)[cur := merged]
    {
      MemoPop(profiles, path, resolved, cur, merged);
      assert Elements(path + [cur]) == Elements(path) + {cur};
      hide Memo, Eval, Flat;
      stack := stack[..|stack| - 1];
      visiting := visiting - {cur};
      resolved := resolved[cur := merged];
      assert stack == path;
    }

    /** The includes of the profile on top of the stack, merged in order. */
    method VisitIncludes(names: seq<string>) returns (r: Result<Profile, Error>)
      requires Valid() && stack != []
      modifies this
      ensures r == EvalAll(profiles, names, old(stack), BLANK)
      ensures r.Ok? ==> Valid() && stack == old(stack) && old(resolved).Keys <= resolved.Keys
      ensures r.Ok? ==> Elements(FlatAll(profiles, names, stack)) <= resolved.Keys
      decreases Open(profiles, stack), 1
    {
      var out := BLANK;
      ghost var path := stack;
      for i := 0 to |names|
        invariant Valid() && stack == path && old(resolved).Keys <= resolved.Keys
        invariant EvalAll(profiles, names[i..], path, out) == EvalAll(profiles, names, path, BLANK)
        invariant Elements(FlatAll(profiles, names[..i], path)) <= resolved.Keys
      {
        assert names[i..][0] == names[i] && names[i..][1..] == names[i + 1..];
        var p := Visit(names[i]);
        if p.Err? {
          return p;
        }
        FlatNext(profiles, names, path, i);
        out := MergeRunProfile(out, p.value);
      }
      assert names[..|names|] == names;
      return Ok(out);
    }
  }

  lemma {:induction false} FlatAllAppend(ps: Definitions, a: seq<string>, b: seq<string>, path: seq<string>)
    ensures FlatAll(ps, a + b, path) == FlatAll(ps, a, path) + FlatAll(ps, b, path)
    decreases |a|
  {
    if a == [] {
      assert a + b == b;
    } else {
      assert (a + b)[0] == a[0] && (a + b)[1..] == a[1..] + b;
      FlatAllAppend(ps, a[1..], b, path);
    }
  }

  lemma FlatNext(ps: Definitions, names: seq<string>, path: seq<string>, i: nat)
    requires i < |names|
    ensures Elements(FlatAll(ps, names[..i + 1], path)) == Elements(FlatAll(ps, names[..i], path)) + Elements(Flat(ps, names[i], path))
  {
    assert names[..i + 1] == names[..i] + [names[i]];
    FlatAllAppend(ps, names[..i], [names[i]], path);
    assert [names[i]][1..] == [];
    assert FlatAll(ps, [names[i]], path) == Flat(ps, names[i], path);
  }

  /** Resolves a profile: the memoised search finds what the profile means, or the same error. */
  method ResolveProfile(profiles: Definitions, name: string) returns (r: Result<Profile, Error>)
    ensures r == Eval(profiles, name, [])
    ensures r.Ok? <==> WellFormed(profiles, name)
    ensures r.Ok? && name in profiles && profiles[name].includes == [] ==>
      var raw := profiles[name];
      && FirstOccurrences(raw.packages, r.value.packages) && FirstOccurrences(raw.exclude, r.value.exclude)
      && FirstOccurrences(raw.tags, r.value.tags) && FirstOccurrences(raw.flags, r.value.flags)
      && r.value.short == raw.short && r.value.race == raw.race
      && r.value.timeout == (if raw.timeout.Parsed? then raw.timeout.duration else 0)
  {
    var resolver := new Resolver(profiles);
    r := resolver.Visit(name);
    ResolvesIff(profiles, name);
    if r.Ok? && name in profiles && profiles[name].includes == [] {
      PlainProfile(profiles, name);
    }
  }
}
