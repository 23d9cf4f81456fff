/** Datatypes shared by the models. */
module Common {

  datatype Option<+T> = None | Some(value: T)

  predicate NoDup<T(==)>(s: seq<T>) {
    forall i, j :: 0 <= i < j < |s| ==> s[i] != s[j]
  }

  /** The first occurrence. */
  function FirstIndex<T(==)>(s: seq<T>, c: T): (i: nat)
    requires c in s
    ensures i < |s| && s[i] == c && c !in s[..i]
  {
    if s[0] == c then 0
    else
      var i := FirstIndex(s[1..], c);
      assert s[..i + 1] == [s[0]] + s[1..][..i];
      i + 1
  }

  lemma {:induction false} FirstIndexAt<T>(a: seq<T>, c: T, b: seq<T>)
    requires c !in a
    ensures FirstIndex(a + [c] + b, c) == |a|
    ensures (a + [c] + b)[..|a|] == a && (a + [c] + b)[|a| + 1..] == b
    decreases |a|
  {
    if a != [] {
      assert (a + [c] + b)[1..] == a[1..] + [c] + b;
      FirstIndexAt(a[1..], c, b);
    }
  }

  lemma OneMore<T>(s: seq<T>, n: nat)
    requires n < |s|
    ensures s[..n + 1] == s[..n] + [s[n]]
  {
  }

  /** The last element of the second list is the last of both. */
  lemma LastOfBoth<T>(a: seq<T>, b: seq<T>)
    requires b != []
    ensures b == b[..|b| - 1] + [b[|b| - 1]] && a + b == a + b[..|b| - 1] + [b[|b| - 1]]
  {
  }

  lemma Associates<T>(a: seq<T>, b: seq<T>, c: seq<T>)
    ensures a + b + c == a + (b + c)
  {
  }

  /** Lists with the same elements still have them when one is taken out of both. */
  lemma Remove<T>(a: seq<T>, k: T, x: seq<T>, y: seq<T>)
    requires multiset(a) + multiset{k} == multiset(x + [k] + y)
    ensures multiset(a) == multiset(x + y)
  {
    assert multiset(x + [k] + y) == multiset(x + y) + multiset{k};
    assert multiset(a) == multiset(a) + multiset{k} - multiset{k};
    assert multiset(x + y) == multiset(x + [k] + y) - multiset{k};
  }

  lemma SameElements<T>(a: seq<T>, b: seq<T>)
    requires multiset(a) == multiset(b)
    ensures |a| == |b| && forall k :: k in a <==> k in b
  {
    assert |a| == |multiset(a)| && |b| == |multiset(b)|;
    forall k
      ensures k in a <==> k in b
    {
      assert k in a <==> k in multiset(a);
      assert k in b <==> k in multiset(b);
    }
  }

  lemma HeadAndTail<T>(s: seq<T>)
    requires s != []
    ensures multiset(s) == multiset(s[1..]) + multiset{s[0]}
  {
    assert s == [s[0]] + s[1..];
  }

  /** The first element of a list, taken out of another order of it. */
  lemma TakeOut<T>(a: seq<T>, b: seq<T>) returns (x: seq<T>, y: seq<T>)
    requires a != [] && multiset(a) == multiset(b)
    ensures b == x + [a[0]] + y && multiset(a[1..]) == multiset(x + y)
  {
    SameElements(a, b);
    assert a[0] in b;
    var i :| 0 <= i < |b| && b[i] == a[0];
    x, y := b[..i], b[i + 1..];
    assert b == x + [a[0]] + y;
    HeadAndTail(a);
    Remove(a[1..], a[0], x, y);
  }
}
