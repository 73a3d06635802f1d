/** Vocabulary shared by the models: optional values, and sums over sequences and sets. */
module Common {

  datatype Option<+T> = None | Some(value: T)

  datatype Result<+T, +E> = Ok(value: T) | Err(error: E)

  function Max(a: int, b: int): int {
    if a < b then b else a
  }

  function Min(a: int, b: int): int {
    if a < b then a else b
  }

  /** The sum of `f` over a sequence. */
  function Sum<T>(s: seq<T>, f: T -> nat): nat {
    if s == [] then 0 else f(s[0]) + Sum(s[1..], f)
  }

  lemma {:induction false} SumAppend<T>(a: seq<T>, b: seq<T>, f: T -> nat)
    ensures Sum(a + b, f) == Sum(a, f) + Sum(b, f)
  {
    if a == [] {
      assert a + b == b;
    } else {
      assert (a + b)[1..] == a[1..] + b;
      SumAppend(a[1..], b, f);
    }
  }

  lemma {:induction false} SumUpdate<T>(s: seq<T>, i: nat, x: T, f: T -> nat)
    requires i < |s|
    ensures Sum(s[i := x], f) == Sum(s, f) - f(s[i]) + f(x)
  {
    if i == 0 {
      assert s[0 := x][1..] == s[1..];
    } else {
      assert s[i := x][1..] == s[1..][i - 1 := x];
      SumUpdate(s[1..], i - 1, x, f);
    }
  }

  /** Two sequences whose elements weigh the same have the same sum. */
  lemma {:induction false} SumPointwise<T>(a: seq<T>, b: seq<T>, f: T -> nat)
    requires |a| == |b|
    requires forall i | 0 <= i < |a| :: f(a[i]) == f(b[i])
    ensures Sum(a, f) == Sum(b, f)
  {
    if a != [] {
      SumPointwise(a[1..], b[1..], f);
    }
  }

  lemma {:induction false} SumZero<T>(s: seq<T>, f: T -> nat)
    ensures Sum(s, f) == 0 <==> forall i | 0 <= i < |s| :: f(s[i]) == 0
  {
    if s != [] {
      SumZero(s[1..], f);
      assert forall i | 0 < i < |s| :: s[i] == s[1..][i - 1];
    }
  }

  /** The sum of a weight over a finite set. */
  ghost function SetSum(ids: set<nat>, f: nat -> nat): nat {
    if ids == {} then 0 else
    var x :| x in ids;
    f(x) + SetSum(ids - {x}, f)
  }

  lemma {:induction false} SetSumRemove(ids: set<nat>, y: nat, f: nat -> nat)
    requires y in ids
    ensures SetSum(ids, f) == f(y) + SetSum(ids - {y}, f)
  {
    var x :| x in ids && SetSum(ids, f) == f(x) + SetSum(ids - {x}, f);
    if x != y {
      SetSumRemove(ids - {x}, y, f);
      SetSumRemove(ids - {y}, x, f);
      assert ids - {x} - {y} == ids - {y} - {x};
    }
  }

  lemma {:induction false} SetSumSubset(small: set<nat>, big: set<nat>, f: nat -> nat)
    requires small <= big
    ensures SetSum(small, f) <= SetSum(big, f)
  {
    if y :| y in big && y !in small {
      SetSumSubset(small, big - {y}, f);
      SetSumRemove(big, y, f);
    } else {
      assert small == big;
    }
  }

  lemma {:induction false} SetSumEqual(ids: set<nat>, f: nat -> nat, g: nat -> nat)
    requires forall x | x in ids :: f(x) == g(x)
    ensures SetSum(ids, f) == SetSum(ids, g)
  {
    if ids != {} {
      var x :| x in ids;
      SetSumEqual(ids - {x}, f, g);
      SetSumRemove(ids, x, f);
      SetSumRemove(ids, x, g);
    }
  }

  function Elements<T(==)>(s: seq<T>): set<T> {
    set x | x in s
  }

  lemma CardSubset<T>(a: set<T>, b: set<T>)
    requires a <= b
    ensures |a| <= |b|
  {
    assert b == a + (b - a);
  }

  lemma Singleton(a: set<nat>)
    requires |a| == 1
    ensures forall x, y | x in a && y in a :: x == y
  {
    forall x, y | x in a && y in a
      ensures x == y
    {
      assert |a - {x}| == 0;
    }
  }
}
