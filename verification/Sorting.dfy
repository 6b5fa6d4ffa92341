/** Stable sorting by any total preorder, and the byte order on strings. */
module Sorting {

  ghost predicate Preorder<T(!new)>(le: (T, T) -> bool) {
    && (forall a, b :: le(a, b) || le(b, a))
    && (forall a, b, c :: le(a, b) && le(b, c) ==> le(a, c))
  }

  ghost predicate Sorted<T>(le: (T, T) -> bool, s: seq<T>) {
    forall i, j | 0 <= i < j < |s| :: le(s[i], s[j])
  }

  predicate Ties<T>(le: (T, T) -> bool, a: T, b: T) { le(a, b) && le(b, a) }

  /** The elements that tie with k, in order. */
  function Tied<T>(le: (T, T) -> bool, k: T, s: seq<T>): seq<T> {
    if s == [] then []
    else if Ties(le, k, s[|s| - 1]) then Tied(le, k, s[..|s| - 1]) + [s[|s| - 1]]
    else Tied(le, k, s[..|s| - 1])
  }

  /** What a stable sort promises: sorted, and ties keep their order. */
  ghost predicate IsStableSort<T(!new)>(le: (T, T) -> bool, s: seq<T>, out: seq<T>) {
    Sorted(le, out) && forall k :: Tied(le, k, out) == Tied(le, k, s)
  }

  /** Inserts after every element that is not greater. */
  function Insert<T>(le: (T, T) -> bool, x: T, s: seq<T>): seq<T> {
    if s == [] || le(s[|s| - 1], x) then s + [x]
    else Insert(le, x, s[..|s| - 1]) + [s[|s| - 1]]
  }

  function StableSort<T>(le: (T, T) -> bool, s: seq<T>): seq<T> {
    if s == [] then [] else Insert(le, s[|s| - 1], StableSort(le, s[..|s| - 1]))
  }

  lemma {:induction false} InsertElements<T>(le: (T, T) -> bool, x: T, s: seq<T>)
    ensures multiset(Insert(le, x, s)) == multiset(s) + multiset{x}
  {
    if s != [] {
      var n := |s| - 1;
      assert s == s[..n] + [s[n]];
      if !le(s[n], x) {
        InsertElements(le, x, s[..n]);
      }
    }
  }

  lemma {:induction false} InsertSorted<T(!new)>(le: (T, T) -> bool, x: T, s: seq<T>)
    requires Preorder(le) && Sorted(le, s)
    ensures Sorted(le, Insert(le, x, s))
  {
    var n := |s| - 1;
    if s != [] && !le(s[n], x) {
      InsertSorted(le, x, s[..n]);
      var front := Insert(le, x, s[..n]);
      forall i | 0 <= i < |front| ensures le(front[i], s[n]) {
        InsertElements(le, x, s[..n]);
        assert front[i] in multiset(front);
        assert front[i] == x || front[i] in s[..n];
      }
    }
  }

  lemma {:induction false} TiedInsert<T(!new)>(le: (T, T) -> bool, k: T, x: T, s: seq<T>)
    requires Preorder(le) && Sorted(le, s)
    ensures Tied(le, k, Insert(le, x, s)) == Tied(le, k, s) + if Ties(le, k, x) then [x] else []
  {
    var n := |s| - 1;
    if s == [] || le(s[n], x) {
      assert (s + [x])[..|s|] == s;
    } else {
      TiedInsert(le, k, x, s[..n]);
      var out := Insert(le, x, s);
      assert out[..|out| - 1] == Insert(le, x, s[..n]);
      assert Ties(le, k, x) ==> !Ties(le, k, s[n]);
    }
  }

  lemma {:induction false} StableSortCorrect<T(!new)>(le: (T, T) -> bool, s: seq<T>)
    requires Preorder(le)
    ensures IsStableSort(le, s, StableSort(le, s))
    ensures multiset(StableSort(le, s)) == multiset(s)
  {
    if s != [] {
      var n := |s| - 1;
      var front := StableSort(le, s[..n]);
      StableSortCorrect(le, s[..n]);
      InsertSorted(le, s[n], front);
      InsertElements(le, s[n], front);
      assert s == s[..n] + [s[n]];
      forall k ensures Tied(le, k, StableSort(le, s)) == Tied(le, k, s) {
        TiedInsert(le, k, s[n], front);
      }
    }
  }

  /** Stability determines the result: a stable sort of s is StableSort(s). */
  lemma {:induction false} StableSortUnique<T(!new)>(le: (T, T) -> bool, a: seq<T>, b: seq<T>)
    requires Preorder(le) && Sorted(le, a) && Sorted(le, b)
    requires forall k :: Tied(le, k, a) == Tied(le, k, b)
    ensures a == b
    decreases |a| + |b|
  {
    if a != [] || b != [] {
      LastTied(le, a, b);
      LastTied(le, b, a);
      var m, n := |a| - 1, |b| - 1;
      assert le(a[m], b[n]) && le(b[n], a[m]);
      assert Tied(le, a[m], a)[|Tied(le, a[m], a)| - 1] == a[m];
      assert Tied(le, a[m], b)[|Tied(le, a[m], b)| - 1] == b[n];
      assert a[m] == b[n];
      forall k ensures Tied(le, k, a[..m]) == Tied(le, k, b[..n]) {
        var last := if Ties(le, k, a[m]) then [a[m]] else [];
        assert Tied(le, k, a) == Tied(le, k, a[..m]) + last;
        assert Tied(le, k, b) == Tied(le, k, b[..n]) + last;
        SameFront(Tied(le, k, a[..m]), Tied(le, k, b[..n]), last);
      }
      StableSortUnique(le, a[..m], b[..n]);
      assert a == a[..m] + [a[m]] && b == b[..n] + [b[n]];
    }
  }

  lemma SameFront<T>(x: seq<T>, y: seq<T>, z: seq<T>)
    ensures x + z == y + z ==> x == y
  {
    if x + z == y + z {
      assert (x + z)[..|x|] == x && (y + z)[..|y|] == y;
    }
  }

  /** The last element of one is no greater than the last of the other. */
  lemma LastTied<T(!new)>(le: (T, T) -> bool, a: seq<T>, b: seq<T>)
    requires Preorder(le) && Sorted(le, a) && Sorted(le, b)
    requires forall k :: Tied(le, k, a) == Tied(le, k, b)
    ensures a != [] ==> b != [] && le(a[|a| - 1], b[|b| - 1])
  {
    if a != [] {
      var last := a[|a| - 1];
      TiedMembers(le, last, b);
      assert last in Tied(le, last, a);
      assert last in b;
    }
  }

  lemma {:induction false} TiedMembers<T>(le: (T, T) -> bool, k: T, s: seq<T>)
    ensures forall x | x in Tied(le, k, s) :: x in s && Ties(le, k, x)
  {
    if s != [] {
      TiedMembers(le, k, s[..|s| - 1]);
    }
  }

  /** Scans from the right for the place of x. */
  method Place<T>(le: (T, T) -> bool, x: T, s: seq<T>) returns (p: nat)
    ensures p <= |s| && Insert(le, x, s) == s[..p] + [x] + s[p..]
  {
    p := |s|;
    assert s[..p] == s && s[p..] == [];
    while p > 0 && !le(s[p - 1], x)
      invariant 0 <= p <= |s|
      invariant Insert(le, x, s) == Insert(le, x, s[..p]) + s[p..]
    {
      assert s[..p][..p - 1] == s[..p - 1];
      assert s[p - 1..] == [s[p - 1]] + s[p..];
      p := p - 1;
    }
  }

  /** The sort itself, by insertion. */
  method SortStable<T>(le: (T, T) -> bool, s: seq<T>) returns (out: seq<T>)
    ensures out == StableSort(le, s)
  {
    out := [];
    for i := 0 to |s|
      invariant out == StableSort(le, s[..i])
    {
      var p := Place(le, s[i], out);
      out := out[..p] + [s[i]] + out[p..];
      assert s[..i + 1][..i] == s[..i];
    }
    assert s[..|s|] == s;
  }

  // ------------------------------------------------------------------- strings

  /** Byte-wise string order. */
  predicate StringLe(a: string, b: string) {
    a == "" || (b != "" && (a[0] < b[0] || (a[0] == b[0] && StringLe(a[1..], b[1..]))))
  }

  /** The order in plain terms: a prefix comes first, and otherwise the first
      difference decides. */
  lemma {:induction false} StringLeMeans(a: string, b: string)
    ensures StringLe(a, b) <==>
      a <= b || exists i | 0 <= i < |a| && i < |b| :: a[..i] == b[..i] && a[i] < b[i]
  {
    if a != "" && b != "" {
      StringLeMeans(a[1..], b[1..]);
      if a[0] == b[0] {
        FirstDifference(a, b);
      } else if a[0] < b[0] {
        assert a[..0] == b[..0];
      } else {
        forall i | 0 <= i < |a| && i < |b| ensures !(a[..i] == b[..i] && a[i] < b[i]) {
          if i > 0 {
            assert a[..i][0] == a[0] && b[..i][0] == b[0];
          }
        }
      }
    }
  }

  /** Whatever follows a common first character differs where the tails do. */
  lemma FirstDifference(a: string, b: string)
    requires a != "" && b != "" && a[0] == b[0]
    ensures a <= b <==> a[1..] <= b[1..]
    ensures (exists i | 0 <= i < |a| && i < |b| :: a[..i] == b[..i] && a[i] < b[i]) <==>
            (exists i | 0 <= i < |a[1..]| && i < |b[1..]| :: a[1..][..i] == b[1..][..i] && a[1..][i] < b[1..][i])
  {
    var x, y := a[1..], b[1..];
    assert a == [a[0]] + x && b == [b[0]] + y;
    if i :| 0 <= i < |a| && i < |b| && a[..i] == b[..i] && a[i] < b[i] {
      assert i > 0;
      assert x[..i - 1] == a[..i][1..] && y[..i - 1] == b[..i][1..] && x[i - 1] < y[i - 1];
    }
    if i :| 0 <= i < |x| && i < |y| && x[..i] == y[..i] && x[i] < y[i] {
      assert a[..i + 1] == [a[0]] + x[..i] && b[..i + 1] == [b[0]] + y[..i] && a[i + 1] < b[i + 1];
    }
  }

  lemma {:induction false} StringLeTotal(a: string, b: string)
    ensures StringLe(a, b) || StringLe(b, a)
    ensures StringLe(a, b) && StringLe(b, a) ==> a == b
  {
    if a != "" && b != "" {
      StringLeTotal(a[1..], b[1..]);
      assert a == [a[0]] + a[1..] && b == [b[0]] + b[1..];
    }
  }

  lemma {:induction false} StringLeTransitive(a: string, b: string, c: string)
    ensures StringLe(a, b) && StringLe(b, c) ==> StringLe(a, c)
  {
    if a != "" && b != "" && c != "" {
      StringLeTransitive(a[1..], b[1..], c[1..]);
    }
  }

  lemma StringPreorder()
    ensures Preorder(StringLe)
  {
    forall a, b ensures StringLe(a, b) || StringLe(b, a) {
      StringLeTotal(a, b);
    }
    forall a, b, c ensures StringLe(a, b) && StringLe(b, c) ==> StringLe(a, c) {
      StringLeTransitive(a, b, c);
    }
  }

  lemma LastIsGreatest(s: seq<string>, x: string)
    requires Sorted(StringLe, s) && x in s
    ensures StringLe(x, s[|s| - 1])
  {
    StringLeTotal(x, x);
  }

  /** Sorting strings depends only on which strings there are. */
  lemma {:induction false} SortedStringsUnique(a: seq<string>, b: seq<string>)
    requires Sorted(StringLe, a) && Sorted(StringLe, b) && multiset(a) == multiset(b)
    ensures a == b
    decreases |a|
  {
    assert |a| == |multiset(a)| && |b| == |multiset(b)|;
    if a != [] {
      SameLast(a, b);
      var p, x := Unsnoc(a);
      var q, y := Unsnoc(b);
      SortedStringsUnique(p, q);
    }
  }

  lemma SameLast(a: seq<string>, b: seq<string>)
    requires Sorted(StringLe, a) && Sorted(StringLe, b) && multiset(a) == multiset(b)
    requires a != [] && b != []
    ensures a[|a| - 1] == b[|b| - 1]
  {
    var x, y := a[|a| - 1], b[|b| - 1];
    assert x in multiset(b) && y in multiset(a);
    LastIsGreatest(a, y);
    LastIsGreatest(b, x);
    StringLeTotal(x, y);
  }

  lemma Unsnoc(s: seq<string>) returns (front: seq<string>, last: string)
    requires Sorted(StringLe, s) && s != []
    ensures s == front + [last] && last == s[|s| - 1]
    ensures |front| < |s| && Sorted(StringLe, front) && multiset(front) == multiset(s) - multiset{last}
  {
    front, last := s[..|s| - 1], s[|s| - 1];
    assert s == front + [last];
  }
}
