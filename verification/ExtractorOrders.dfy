/**
 * The extractors come out of an unordered map. For names that differ, every order gives
 * the same result exactly if no name is a dotted prefix of another, or every order throws.
 */
module ExtractorOrders {
  import opened Common
  import opened Json
  import opened Extractors

  /** No entry and no path comes twice, whatever the order. */
  ghost predicate Distinct(ws: seq<Entry>) {
    && (forall w :: w in ws ==> multiset(ws)[w] == 1)
    && forall w, x :: w in ws && x in ws && w.path == x.path ==> w == x
  }

  /** Extracted values are strings: nothing can be written below them. */
  predicate Scalars(ws: seq<Entry>) {
    forall w :: w in ws ==> Fields(w.value) == None
  }

  predicate AllWalkable(j: Value, ws: seq<Entry>)
    requires Paths(ws)
  {
    forall w :: w in ws ==> Walkable(j, w.path)
  }

  lemma {:induction false} OnceEach<T>(s: seq<T>)
    requires forall i, k :: 0 <= i < k < |s| ==> s[i] != s[k]
    ensures forall x :: x in s ==> multiset(s)[x] == 1
    decreases |s|
  {
    if s != [] {
      assert s == [s[0]] + s[1..];
      OnceEach(s[1..]);
      assert s[0] !in s[1..];
    }
  }

  lemma DistinctPaths(ws: seq<Entry>)
    requires forall i, k :: 0 <= i < k < |ws| ==> ws[i].path != ws[k].path
    ensures Distinct(ws)
  {
    OnceEach(ws);
  }

  lemma OrderKeepsDistinct(a: seq<Entry>, b: seq<Entry>)
    requires Distinct(a) && multiset(a) == multiset(b)
    ensures Distinct(b)
  {
    SameElements(a, b);
  }

  lemma TailDistinct(ws: seq<Entry>)
    requires ws != [] && Distinct(ws)
    ensures Distinct(ws[1..]) && forall w :: w in ws[1..] ==> w.path != ws[0].path
  {
    var w0, rest := ws[0], ws[1..];
    assert ws == [w0] + rest;
    assert multiset(ws) == multiset{w0} + multiset(rest);
    assert w0 in ws;
    assert w0 !in rest by {
      assert multiset(rest)[w0] == 0;
    }
    forall w | w in rest
      ensures multiset(rest)[w] == 1 && w.path != w0.path
    {
      assert w in ws;
    }
  }

  // ---------- A path that cannot be walked ----------

  lemma {:induction false} PrefixWalkable(j: Value, p: seq<string>, q: seq<string>)
    requires p != [] && p <= q && Walkable(j, q)
    ensures Walkable(j, p)
    decreases |p|
  {
    TailPrefix(p, q);
    if |p| > 1 {
      PrefixWalkable(Child(Fields(j).value, p[0]), p[1..], q[1..]);
    }
  }

  /** No other extractor makes it walkable. */
  lemma StaysUnwalkable(j: Value, w: Entry, r: seq<string>)
    requires w.path != [] && r != [] && w.path != r && Fields(w.value) == None && !Walkable(j, r)
    requires Write(j, w.path, w.value).Some?
    ensures !Walkable(Write(j, w.path, w.value).value, r)
  {
    WritesExactlyIfWalkable(j, w.path, w.value);
    if w.path <= r {
      BelowScalarThrows(j, w.path, w.value, r, w.value);
      WritesExactlyIfWalkable(Write(j, w.path, w.value).value, r, w.value);
    } else if r <= w.path {
      PrefixWalkable(j, r, w.path);
      assert false;
    } else {
      LeavesApart(j, w.path, w.value, r);
    }
  }

  /** So every order throws. */
  lemma {:induction false} UnwalkableThrows(j: Value, ws: seq<Entry>, r: Entry)
    requires Paths(ws) && Distinct(ws) && Scalars(ws) && r in ws && !Walkable(j, r.path)
    ensures WriteAll(Some(j), ws) == None
    decreases |ws|
  {
    var w := ws[0];
    var first := Write(j, w.path, w.value);
    WritesExactlyIfWalkable(j, w.path, w.value);
    TailDistinct(ws);
    if first == None {
      NoneStays(ws[1..]);
    } else {
      assert r != w;
      assert ws == [w] + ws[1..];
      StaysUnwalkable(j, w, r.path);
      UnwalkableThrows(first.value, ws[1..], r);
    }
  }

  // ---------- Longest first ----------

  predicate LongestFirst(ws: seq<Entry>)
    decreases |ws|
  {
    ws == [] || ((forall w :: w in ws[1..] ==> |w.path| <= |ws[0].path|) && LongestFirst(ws[1..]))
  }

  function Insert(w: Entry, ws: seq<Entry>): seq<Entry>
    decreases |ws|
  {
    if ws == [] || |ws[0].path| <= |w.path| then [w] + ws else [ws[0]] + Insert(w, ws[1..])
  }

  lemma {:induction false} InsertElements(w: Entry, ws: seq<Entry>)
    ensures multiset(Insert(w, ws)) == multiset(ws) + multiset{w}
    decreases |ws|
  {
    if ws != [] && |ws[0].path| > |w.path| {
      InsertElements(w, ws[1..]);
      HeadAndTail(ws);
    }
  }

  lemma OneMoreElement<T>(s: seq<T>, x: T, r: seq<T>)
    requires multiset(r) == multiset(s) + multiset{x}
    ensures forall z :: z in r <==> z in s || z == x
  {
    forall z
      ensures z in r <==> z in s || z == x
    {
      assert z in r <==> z in multiset(r);
      assert z in s <==> z in multiset(s);
    }
  }

  lemma {:induction false} InsertKeepsOrder(w: Entry, ws: seq<Entry>)
    requires LongestFirst(ws)
    ensures LongestFirst(Insert(w, ws)) && multiset(Insert(w, ws)) == multiset(ws) + multiset{w}
    decreases |ws|
  {
    InsertElements(w, ws);
    var r := Insert(w, ws);
    if ws == [] || |ws[0].path| <= |w.path| {
      assert r[1..] == ws;
      assert ws != [] ==> ws == [ws[0]] + ws[1..];
    } else {
      InsertKeepsOrder(w, ws[1..]);
      OneMoreElement(ws[1..], w, Insert(w, ws[1..]));
      assert r[1..] == Insert(w, ws[1..]);
    }
  }

  lemma {:induction false} SomeLongestFirst(ws: seq<Entry>) returns (b: seq<Entry>)
    ensures LongestFirst(b) && multiset(b) == multiset(ws)
    decreases |ws|
  {
    if ws == [] {
      b := [];
    } else {
      var rest := SomeLongestFirst(ws[1..]);
      InsertKeepsOrder(ws[0], rest);
      b := Insert(ws[0], rest);
      HeadAndTail(ws);
    }
  }

  /** A write keeps every other path walkable that is not below its own. */
  lemma StaysWalkable(j: Value, w: Entry, r: seq<string>)
    requires w.path != [] && r != [] && Write(j, w.path, w.value).Some? && Walkable(j, r) && !(w.path <= r)
    ensures Walkable(Write(j, w.path, w.value).value, r)
  {
    WritesExactlyIfWalkable(j, w.path, w.value);
    if r <= w.path {
      AboveCovers(j, r, w.value, w.path, w.value);
      WritesExactlyIfWalkable(Write(j, w.path, w.value).value, r, w.value);
    } else {
      LeavesApart(j, w.path, w.value, r);
    }
  }

  lemma {:induction false} LongestFirstSucceeds(j: Value, ws: seq<Entry>)
    requires Paths(ws) && Distinct(ws) && LongestFirst(ws) && AllWalkable(j, ws)
    ensures WriteAll(Some(j), ws).Some?
    decreases |ws|
  {
    if ws != [] {
      var w := ws[0];
      WritesExactlyIfWalkable(j, w.path, w.value);
      var k := Write(j, w.path, w.value).value;
      TailDistinct(ws);
      forall r | r in ws[1..]
        ensures Walkable(k, r.path)
      {
        StaysWalkable(j, w, r.path);
      }
      LongestFirstSucceeds(k, ws[1..]);
    }
  }

  // ---------- A prefix first ----------

  lemma PrefixFirstThrows(j: Value, p: Entry, q: Entry, rest: seq<Entry>)
    requires Paths([p, q] + rest) && p.path < q.path && Fields(p.value) == None && p.path != []
    ensures WriteAll(Some(j), [p, q] + rest) == None
  {
    var ws := [p, q] + rest;
    assert ws[0] == p && ws[1..][0] == q && ws[1..][1..] == rest;
    assert q in ws;
    BelowScalarThrows(j, p.path, p.value, q.path, q.value);
    NoneStays(rest);
    NoneStays(ws[1..]);
  }

  /** The list with two of its entries in front. */
  lemma BothInFront(ws: seq<Entry>, i: nat, k: nat) returns (rest: seq<Entry>)
    requires i < |ws| && k < |ws| && i != k
    ensures multiset([ws[i], ws[k]] + rest) == multiset(ws)
  {
    var a, b := if i < k then i else k, if i < k then k else i;
    TakenOut(ws, b);
    TakenOut(ws[..b] + ws[b + 1..], a);
    var less := ws[..b] + ws[b + 1..];
    rest := less[..a] + less[a + 1..];
    assert multiset([ws[i], ws[k]]) == multiset{ws[a]} + multiset{ws[b]};
  }

  lemma TakenOut<T>(s: seq<T>, i: nat)
    requires i < |s|
    ensures multiset(s) == multiset{s[i]} + multiset(s[..i] + s[i + 1..])
  {
    assert s == s[..i] + [s[i]] + s[i + 1..];
  }

  // ---------- All orders ----------

  /** Whatever the order, the body comes out the same, or every order throws. */
  ghost predicate OrderFree(j: Value, ws: seq<Entry>)
    requires Paths(ws)
  {
    forall b: seq<Entry> :: multiset(b) == multiset(ws) ==> Paths(b) && WriteAll(Some(j), b) == WriteAll(Some(j), ws)
  }

  lemma OrderKeepsPaths(a: seq<Entry>, b: seq<Entry>)
    requires Paths(a) && multiset(a) == multiset(b)
    ensures Paths(b)
  {
    SameElements(a, b);
  }

  lemma ApartIsOrderFree(j: Value, ws: seq<Entry>)
    requires Paths(ws) && AllApart(ws)
    ensures OrderFree(j, ws)
  {
    forall b: seq<Entry> | multiset(b) == multiset(ws)
      ensures Paths(b) && WriteAll(Some(j), b) == WriteAll(Some(j), ws)
    {
      OrderIrrelevant(Some(j), ws, b);
    }
  }

  lemma UnwalkableIsOrderFree(j: Value, ws: seq<Entry>)
    requires Paths(ws) && Distinct(ws) && Scalars(ws) && !AllWalkable(j, ws)
    ensures OrderFree(j, ws)
  {
    var r :| r in ws && !Walkable(j, r.path);
    forall b: seq<Entry> | multiset(b) == multiset(ws)
      ensures Paths(b) && WriteAll(Some(j), b) == WriteAll(Some(j), ws)
    {
      SameElements(ws, b);
      OrderKeepsDistinct(ws, b);
      UnwalkableThrows(j, b, r);
      UnwalkableThrows(j, ws, r);
    }
  }

  /** One order writes everything and another one throws. */
  lemma PrefixMakesOrderMatter(j: Value, ws: seq<Entry>, i: nat, k: nat)
    requires Paths(ws) && Distinct(ws) && Scalars(ws) && AllWalkable(j, ws)
    requires i < |ws| && k < |ws| && ws[i].path < ws[k].path
    ensures !OrderFree(j, ws)
  {
    var rest := BothInFront(ws, i, k);
    var a := [ws[i], ws[k]] + rest;
    OrderKeepsPaths(ws, a);
    assert ws[i] in ws;
    PrefixFirstThrows(j, ws[i], ws[k], rest);
    var b := SomeLongestFirst(ws);
    SameElements(ws, b);
    OrderKeepsDistinct(ws, b);
    LongestFirstSucceeds(j, b);
    assert WriteAll(Some(j), a) != WriteAll(Some(j), b);
  }

  /**
   * For different paths: every order gives the same result exactly if no path is a
   * prefix of another or some path cannot be walked, so that every order throws.
   */
  lemma OrderFreeExactly(j: Value, ws: seq<Entry>)
    requires Paths(ws) && Scalars(ws) && forall i, k :: 0 <= i < k < |ws| ==> ws[i].path != ws[k].path
    ensures OrderFree(j, ws) <==> AllApart(ws) || !AllWalkable(j, ws)
  {
    DistinctPaths(ws);
    if AllApart(ws) {
      ApartIsOrderFree(j, ws);
    } else if !AllWalkable(j, ws) {
      UnwalkableIsOrderFree(j, ws);
    } else {
      var i, k :| 0 <= i < k < |ws| && !Apart(ws[i].path, ws[k].path);
      if ws[i].path <= ws[k].path {
        PrefixMakesOrderMatter(j, ws, i, k);
      } else {
        PrefixMakesOrderMatter(j, ws, k, i);
      }
    }
  }

  // ---------- Names ----------

  predicate DottedPrefix(a: string, b: string) {
    a + "." <= b
  }

  lemma {:induction false} SplitAtDot(a: string, c: string)
    ensures Split(a + "." + c) == Split(a) + Split(c)
    decreases |a|
  {
    var s := a + "." + c;
    if '.' !in a {
      FirstIndexAt(a, '.', c);
      assert s == a + ['.'] + c;
    } else {
      var pos := FirstIndex(a, '.');
      var x, y := a[..pos], a[pos + 1..];
      assert a == x + ['.'] + y;
      assert s == x + ['.'] + (y + "." + c);
      FirstIndexAt(x, '.', y + "." + c);
      SplitAtDot(y, c);
      Associates([x], Split(y), Split(c));
    }
  }

  lemma {:induction false} JoinBoth(p: seq<string>, q: seq<string>)
    requires p != [] && q != []
    ensures JoinDots(p + q) == JoinDots(p) + "." + JoinDots(q)
    decreases |p|
  {
    if |p| > 1 {
      JoinBoth(p[1..], q);
      assert (p + q)[1..] == p[1..] + q;
      Associates(p[0] + ".", JoinDots(p[1..]), "." + JoinDots(q));
      assert JoinDots(p[1..]) + "." + JoinDots(q) == JoinDots(p[1..]) + ("." + JoinDots(q));
    } else {
      assert (p + q)[1..] == q;
    }
  }

  lemma JoinExtends(p: seq<string>, q: seq<string>)
    requires p != [] && p < q
    ensures DottedPrefix(JoinDots(p), JoinDots(q))
  {
    var rest := q[|p|..];
    assert q == p + rest;
    JoinBoth(p, rest);
  }

  lemma JoinKeepsPrefix(p: seq<string>, q: seq<string>)
    requires p != [] && p <= q
    ensures JoinDots(p) == JoinDots(q) || DottedPrefix(JoinDots(p), JoinDots(q))
  {
    if p != q {
      JoinExtends(p, q);
    }
  }

  lemma PrefixPathJoins(a: string, b: string)
    requires Split(a) <= Split(b)
    ensures a == b || DottedPrefix(a, b)
  {
    JoinKeepsPrefix(Split(a), Split(b));
    SplitLosesNothing(a);
    SplitLosesNothing(b);
  }

  lemma DottedPrefixSplits(a: string, b: string)
    requires DottedPrefix(a, b)
    ensures Split(a) <= Split(b)
  {
    var c := b[|a| + 1..];
    assert b == a + "." + c;
    SplitAtDot(a, c);
  }

  /** One path is a prefix of another exactly if the names are equal or the one continues the other after a dot. */
  lemma PathPrefixExactly(a: string, b: string)
    ensures Split(a) <= Split(b) <==> a == b || DottedPrefix(a, b)
  {
    if Split(a) <= Split(b) {
      PrefixPathJoins(a, b);
    }
    if DottedPrefix(a, b) {
      DottedPrefixSplits(a, b);
    }
  }

  predicate NamesApart(es: seq<Extraction>) {
    forall i, k :: 0 <= i < k < |es| ==> !DottedPrefix(es[i].name, es[k].name) && !DottedPrefix(es[k].name, es[i].name)
  }

  predicate NamesDiffer(es: seq<Extraction>) {
    forall i, k :: 0 <= i < k < |es| ==> es[i].name != es[k].name
  }

  lemma PathsApartExactly(a: string, b: string)
    ensures Apart(Split(a), Split(b)) <==> a != b && !DottedPrefix(a, b) && !DottedPrefix(b, a)
    ensures Split(a) == Split(b) <==> a == b
  {
    PathPrefixExactly(a, b);
    PathPrefixExactly(b, a);
    SplitLosesNothing(a);
    SplitLosesNothing(b);
  }

  /** The paths are apart exactly if the names differ and none is a dotted prefix of another. */
  lemma NamesApartExactly(es: seq<Extraction>)
    ensures AllApart(Entries(es)) <==> NamesDiffer(es) && NamesApart(es)
    ensures NamesDiffer(es) ==> forall i, k :: 0 <= i < k < |es| ==> Entries(es)[i].path != Entries(es)[k].path
  {
    forall i, k | 0 <= i < k < |es|
      ensures Apart(Entries(es)[i].path, Entries(es)[k].path) <==>
              && es[i].name != es[k].name
              && !DottedPrefix(es[i].name, es[k].name) && !DottedPrefix(es[k].name, es[i].name)
      ensures Entries(es)[i].path == Entries(es)[k].path <==> es[i].name == es[k].name
    {
      PathsApartExactly(es[i].name, es[k].name);
    }
  }

  /** The extraction an entry comes from. */
  function Named(w: Entry): Extraction {
    if w.path != [] && w.value.Str? then Extraction(JoinDots(w.path), w.value.s) else Extraction("", "")
  }

  function Mapped<A, B>(f: A -> B, s: seq<A>): (r: seq<B>)
    ensures |r| == |s| && forall i :: 0 <= i < |s| ==> r[i] == f(s[i])
  {
    seq(|s|, i requires 0 <= i < |s| => f(s[i]))
  }

  function AllNamed(ws: seq<Entry>): seq<Extraction> {
    Mapped(Named, ws)
  }

  lemma NamedEntries(es: seq<Extraction>)
    ensures AllNamed(Entries(es)) == es
  {
    forall i | 0 <= i < |es|
      ensures AllNamed(Entries(es))[i] == es[i]
    {
      SplitLosesNothing(es[i].name);
    }
  }

  lemma EntriesNamed(es: seq<Extraction>, ws: seq<Entry>)
    requires forall w :: w in ws ==> w in Entries(es)
    ensures Entries(AllNamed(ws)) == ws
  {
    forall i | 0 <= i < |ws|
      ensures Entries(AllNamed(ws))[i] == ws[i]
    {
      assert ws[i] in ws;
      var k :| 0 <= k < |es| && Entries(es)[k] == ws[i];
      SplitLosesNothing(es[k].name);
    }
  }

  lemma MappedAround<A, B>(f: A -> B, x: seq<A>, e: A, y: seq<A>)
    ensures multiset(Mapped(f, x + [e] + y)) == multiset{f(e)} + multiset(Mapped(f, x + y))
  {
    assert Mapped(f, x + [e] + y) == Mapped(f, x) + [f(e)] + Mapped(f, y);
    assert Mapped(f, x + y) == Mapped(f, x) + Mapped(f, y);
  }

  lemma {:induction false} SameMapped<A, B>(f: A -> B, a: seq<A>, b: seq<A>)
    requires multiset(a) == multiset(b)
    ensures multiset(Mapped(f, a)) == multiset(Mapped(f, b))
    decreases |a|
  {
    if a == [] {
      SameElements(a, b);
    } else {
      var x, y := TakeOut(a, b);
      SameMapped(f, a[1..], x + y);
      MappedAround(f, x, a[0], y);
      MappedAround(f, [], a[0], a[1..]);
      assert a == [] + [a[0]] + a[1..] && [] + a[1..] == a[1..];
    }
  }

  lemma SameEntries(a: seq<Extraction>, b: seq<Extraction>)
    requires multiset(a) == multiset(b)
    ensures multiset(Entries(a)) == multiset(Entries(b))
  {
    var f := (e: Extraction) => Entry(Split(e.name), Str(e.value));
    SameMapped(f, a, b);
    assert Entries(a) == Mapped(f, a) && Entries(b) == Mapped(f, b);
  }

  /** What WriteExtractions returns does not depend on the order in which the map iterates. */
  ghost predicate MapOrderFree(j: Value, es: seq<Extraction>) {
    forall b: seq<Extraction> :: multiset(b) == multiset(es) ==>
      WriteAll(Some(j), Entries(b)) == WriteAll(Some(j), Entries(es))
  }

  lemma MapOrderIsOrder(j: Value, es: seq<Extraction>)
    ensures MapOrderFree(j, es) <==> OrderFree(j, Entries(es))
  {
    if OrderFree(j, Entries(es)) {
      forall b: seq<Extraction> | multiset(b) == multiset(es)
        ensures WriteAll(Some(j), Entries(b)) == WriteAll(Some(j), Entries(es))
      {
        SameEntries(b, es);
      }
    }
    if MapOrderFree(j, es) {
      forall ws: seq<Entry> | multiset(ws) == multiset(Entries(es))
        ensures Paths(ws) && WriteAll(Some(j), ws) == WriteAll(Some(j), Entries(es))
      {
        OrderKeepsPaths(Entries(es), ws);
        SameElements(ws, Entries(es));
        EntriesNamed(es, ws);
        NamedEntries(es);
        SameMapped(Named, ws, Entries(es));
      }
    }
  }

  /** Some name cannot be walked in the body. */
  predicate Blocked(j: Value, es: seq<Extraction>) {
    exists e :: e in es && !Walkable(j, Split(e.name))
  }

  lemma BlockedExactly(j: Value, es: seq<Extraction>)
    ensures Blocked(j, es) <==> !AllWalkable(j, Entries(es))
  {
    if AllWalkable(j, Entries(es)) {
      forall e | e in es
        ensures Walkable(j, Split(e.name))
      {
        var i :| 0 <= i < |es| && es[i] == e;
        assert Entries(es)[i] in Entries(es);
      }
    }
  }

  /**
   * For a map of extractors, whose names differ: the result is the same in every
   * iteration order exactly if no name continues another after a dot, or some name
   * cannot be walked in the body, when every order throws.
   */
  lemma MapOrderFreeExactly(j: Value, es: seq<Extraction>)
    requires NamesDiffer(es)
    ensures MapOrderFree(j, es) <==> NamesApart(es) || Blocked(j, es)
  {
    MapOrderIsOrder(j, es);
    NamesApartExactly(es);
    ScalarEntries(es);
    OrderFreeExactly(j, Entries(es));
    BlockedExactly(j, es);
  }

  lemma ScalarEntries(es: seq<Extraction>)
    ensures Scalars(Entries(es))
  {
  }
}
