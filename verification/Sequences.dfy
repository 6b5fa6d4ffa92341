/** Sums, images and removals on sequences. */
module Sequences {

  function Sum<T>(f: T -> int, s: seq<T>): int {
    if s == [] then 0 else Sum(f, s[..|s| - 1]) + f(s[|s| - 1])
  }

  lemma SumSnoc<T>(f: T -> int, s: seq<T>, x: T)
    ensures Sum(f, s + [x]) == Sum(f, s) + f(x)
  {
    assert (s + [x])[..|s|] == s;
  }

  lemma {:induction false} SumConcat<T>(f: T -> int, a: seq<T>, b: seq<T>)
    ensures Sum(f, a + b) == Sum(f, a) + Sum(f, b)
  {
    if b == [] {
      assert a + b == a;
    } else {
      SumConcat(f, a, b[..|b| - 1]);
      assert (a + b)[..|a + b| - 1] == a + b[..|b| - 1];
    }
  }

  lemma {:induction false} SumSame<T>(f: T -> int, g: T -> int, s: seq<T>)
    requires forall x | x in s :: f(x) == g(x)
    ensures Sum(f, s) == Sum(g, s)
  {
    if s != [] {
      SumSame(f, g, s[..|s| - 1]);
    }
  }

  function RemoveAt<T>(s: seq<T>, i: nat): seq<T>
    requires i < |s|
  {
    s[..i] + s[i + 1..]
  }

  lemma RemoveAtElements<T>(s: seq<T>, i: nat)
    requires i < |s|
    ensures multiset(s) == multiset(RemoveAt(s, i)) + multiset{s[i]}
    ensures multiset(RemoveAt(s, i)) == multiset(s) - multiset{s[i]}
  {
    SplitAt(s, i);
  }

  lemma SplitAt<T>(s: seq<T>, i: nat)
    requires i < |s|
    ensures s == s[..i] + [s[i]] + s[i + 1..]
  {
  }

  lemma SumMiddle<T>(f: T -> int, a: seq<T>, x: T, b: seq<T>)
    ensures Sum(f, a + [x] + b) == Sum(f, a + b) + f(x)
  {
    SumConcat(f, a + [x], b);
    SumSnoc(f, a, x);
    SumConcat(f, a, b);
  }

  lemma SumRemoveAt<T>(f: T -> int, s: seq<T>, i: nat)
    requires i < |s|
    ensures Sum(f, s) == Sum(f, RemoveAt(s, i)) + f(s[i])
  {
    SplitAt(s, i);
    SumMiddle(f, s[..i], s[i], s[i + 1..]);
  }

  /** Order does not matter to a sum. */
  lemma {:induction false} SumPermutation<T>(f: T -> int, a: seq<T>, b: seq<T>)
    requires multiset(a) == multiset(b)
    ensures Sum(f, a) == Sum(f, b)
    decreases |a|
  {
    assert |a| == |multiset(a)| && |b| == |multiset(b)|;
    if a != [] {
      var i := IndexOf(a[0], a, b);
      SumRemoveAt(f, a, 0);
      SumRemoveAt(f, b, i);
      RemoveAtElements(a, 0);
      RemoveAtElements(b, i);
      SumPermutation(f, RemoveAt(a, 0), RemoveAt(b, i));
    }
  }

  lemma IndexOf<T>(x: T, a: seq<T>, b: seq<T>) returns (i: nat)
    requires x in a && multiset(a) == multiset(b)
    ensures i < |b| && b[i] == x
  {
    assert x in multiset(b);
    i :| 0 <= i < |b| && b[i] == x;
  }

  function Image<A, B>(f: A -> B, s: seq<A>): (r: seq<B>)
    ensures |r| == |s| && forall i | 0 <= i < |s| :: r[i] == f(s[i])
  {
    seq(|s|, i requires 0 <= i < |s| => f(s[i]))
  }

  lemma ImageRemoveAt<A, B>(f: A -> B, s: seq<A>, i: nat)
    requires i < |s|
    ensures Image(f, RemoveAt(s, i)) == RemoveAt(Image(f, s), i)
  {
  }

  lemma {:induction false} SameElementsSameImage<A, B>(f: A -> B, a: seq<A>, b: seq<A>)
    requires multiset(a) == multiset(b)
    ensures multiset(Image(f, a)) == multiset(Image(f, b))
    decreases |a|
  {
    assert |a| == |multiset(a)| && |b| == |multiset(b)|;
    if a != [] {
      var i := IndexOf(a[0], a, b);
      RemoveBoth(f, a, 0, b, i);
      SameElementsSameImage(f, RemoveAt(a, 0), RemoveAt(b, i));
    }
  }

  lemma RemoveBoth<A, B>(f: A -> B, a: seq<A>, k: nat, b: seq<A>, i: nat)
    requires k < |a| && i < |b|
    ensures f(a[k]) == f(b[i]) ==>
      (multiset(Image(f, a)) == multiset(Image(f, b)) <==>
       multiset(Image(f, RemoveAt(a, k))) == multiset(Image(f, RemoveAt(b, i))))
    ensures a[k] == b[i] ==> (multiset(a) == multiset(b) <==> multiset(RemoveAt(a, k)) == multiset(RemoveAt(b, i)))
  {
    RemoveAtElements(a, k);
    RemoveAtElements(b, i);
    RemoveAtElements(Image(f, a), k);
    RemoveAtElements(Image(f, b), i);
    ImageRemoveAt(f, a, k);
    ImageRemoveAt(f, b, i);
  }

  /** An image determines its elements wherever the function is injective. */
  lemma {:induction false} SameImageSameElements<A, B>(f: A -> B, a: seq<A>, b: seq<A>)
    requires multiset(Image(f, a)) == multiset(Image(f, b))
    requires forall i, j | 0 <= i < |a| && 0 <= j < |b| :: f(a[i]) == f(b[j]) ==> a[i] == b[j]
    ensures multiset(a) == multiset(b)
    decreases |a|
  {
    assert |Image(f, a)| == |multiset(Image(f, a))| && |Image(f, b)| == |multiset(Image(f, b))|;
    if a != [] {
      assert Image(f, a)[0] == f(a[0]);
      var i := IndexOf(f(a[0]), Image(f, a), Image(f, b));
      RemoveBoth(f, a, 0, b, i);
      SameImageSameElements(f, RemoveAt(a, 0), RemoveAt(b, i));
    }
  }

  // ------------------------------------------------------------- sums over sets

  ghost function SetSum<K>(f: K -> int, s: set<K>): int
    decreases |s|
  {
    if s == {} then 0 else
      var k :| k in s;
      f(k) + SetSum(f, s - {k})
  }

  lemma {:induction false} SetSumSplit<K>(f: K -> int, s: set<K>, k: K)
    requires k in s
    ensures SetSum(f, s) == f(k) + SetSum(f, s - {k})
    decreases |s|
  {
    var first :| first in s && SetSum(f, s) == f(first) + SetSum(f, s - {first});
    if first != k {
      SetSumSplit(f, s - {first}, k);
      SetSumSplit(f, s - {k}, first);
      assert s - {first} - {k} == s - {k} - {first};
    }
  }

  lemma {:induction false} SetSumSame<K>(f: K -> int, g: K -> int, s: set<K>)
    requires forall k | k in s :: f(k) == g(k)
    ensures SetSum(f, s) == SetSum(g, s)
    decreases |s|
  {
    if s != {} {
      var k :| k in s;
      SetSumSplit(f, s, k);
      SetSumSplit(g, s, k);
      SetSumSame(f, g, s - {k});
    }
  }
}
