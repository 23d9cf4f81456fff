/**
 * Writing extracted strings into the JSON body under dotted names. A pointer walks from
 * the body down, creating what is missing; the value is assigned under the last segment.
 */
module Extractors {
  import opened Common
  import opened Json

  // ---------- Names ----------

  function Split(name: string): (path: seq<string>)
    ensures |path| >= 1
    decreases |name|
  {
    if '.' !in name then [name]
    else
      var pos := FirstIndex(name, '.');
      [name[..pos]] + Split(name[pos + 1..])
  }

  function JoinDots(path: seq<string>): string
    requires path != []
  {
    if |path| == 1 then path[0] else path[0] + "." + JoinDots(path[1..])
  }

  /** Different names have different paths. */
  lemma {:induction false} SplitLosesNothing(name: string)
    ensures JoinDots(Split(name)) == name
    decreases |name|
  {
    if '.' in name {
      var pos := FirstIndex(name, '.');
      SplitLosesNothing(name[pos + 1..]);
      JoinCons(name[..pos], Split(name[pos + 1..]));
      assert name == name[..pos] + "." + name[pos + 1..];
    }
  }

  lemma JoinCons(field: string, path: seq<string>)
    requires path != []
    ensures JoinDots([field] + path) == field + "." + JoinDots(path)
  {
    assert ([field] + path)[1..] == path;
  }

  // ---------- Writing a path ----------

  /** The body with the value under the path, or None when the walk throws. */
  function Write(j: Value, path: seq<string>, v: Value): Option<Value>
    requires path != []
    decreases |path|
  {
    match Fields(j)
    case None => None
    case Some(m) =>
      if |path| == 1 then Some(Obj(m[path[0] := v]))
      else
        match Write(Child(m, path[0]), path[1..], v)
        case None => None
        case Some(c) => Some(Obj(m[path[0] := c]))
  }

  function At(j: Value, path: seq<string>): Option<Value> {
    if path == [] then Some(j)
    else if Has(j, path[0]) then At(j.fields[path[0]], path[1..])
    else None
  }

  /** Every node the walk indexes is an object, null or missing. */
  predicate Walkable(j: Value, path: seq<string>)
    requires path != []
    decreases |path|
  {
    && (j.Obj? || j.Null?)
    && (|path| == 1 || Walkable(if j.Obj? && path[0] in j.fields then j.fields[path[0]] else Null, path[1..]))
  }

  /** Neither is a prefix of the other. */
  predicate Apart(p: seq<string>, q: seq<string>) {
    !(p <= q) && !(q <= p)
  }

  lemma TailPrefix(p: seq<string>, q: seq<string>)
    requires p != [] && q != [] && p[0] == q[0]
    ensures p <= q <==> p[1..] <= q[1..]
  {
    assert p == [p[0]] + p[1..] && q == [q[0]] + q[1..];
  }

  lemma ApartTails(p: seq<string>, q: seq<string>)
    requires p != [] && q != [] && Apart(p, q) && p[0] == q[0]
    ensures |p| > 1 && |q| > 1 && Apart(p[1..], q[1..])
  {
    TailPrefix(p, q);
    TailPrefix(q, p);
  }

  lemma {:induction false} WritesExactlyIfWalkable(j: Value, path: seq<string>, v: Value)
    requires path != []
    ensures Write(j, path, v).Some? <==> Walkable(j, path)
    decreases |path|
  {
    if Fields(j).Some? && |path| > 1 {
      WritesExactlyIfWalkable(Child(Fields(j).value, path[0]), path[1..], v);
    }
  }

  lemma {:induction false} ReadsBack(j: Value, path: seq<string>, v: Value)
    requires path != [] && Write(j, path, v).Some?
    ensures At(Write(j, path, v).value, path) == Some(v)
    decreases |path|
  {
    if |path| > 1 {
      ReadsBack(Child(Fields(j).value, path[0]), path[1..], v);
    }
  }

  /** A path apart from the written one keeps its value, and can be walked as before. */
  lemma {:induction false} LeavesApart(j: Value, path: seq<string>, v: Value, other: seq<string>)
    requires path != [] && other != [] && Apart(path, other) && Write(j, path, v).Some?
    ensures At(Write(j, path, v).value, other) == At(j, other)
    ensures Walkable(Write(j, path, v).value, other) <==> Walkable(j, other)
    decreases |path|
  {
    if path[0] == other[0] {
      ApartTails(path, other);
      LeavesApart(Child(Fields(j).value, path[0]), path[1..], v, other[1..]);
    }
  }

  function Then(j: Option<Value>, path: seq<string>, v: Value): Option<Value>
    requires path != []
  {
    match j case None => None case Some(k) => Write(k, path, v)
  }

  lemma {:induction false} Commutes(j: Value, p: seq<string>, v: Value, q: seq<string>, w: Value)
    requires p != [] && q != [] && Apart(p, q)
    ensures Then(Write(j, p, v), q, w) == Then(Write(j, q, w), p, v)
    decreases |p|
  {
    if Fields(j).Some? {
      var m := Fields(j).value;
      if p[0] == q[0] {
        ApartTails(p, q);
        CommutesBelow(m, p, v, q, w);
      } else {
        CommutesBeside(m, p, v, q, w);
      }
    }
  }

  lemma {:induction false} CommutesBelow(m: map<string, Value>, p: seq<string>, v: Value, q: seq<string>, w: Value)
    requires |p| > 1 && |q| > 1 && p[0] == q[0] && Apart(p[1..], q[1..])
    ensures Then(Write(Obj(m), p, v), q, w) == Then(Write(Obj(m), q, w), p, v)
    decreases |p|, 0
  {
    Commutes(Child(m, p[0]), p[1..], v, q[1..], w);
    WriteInto(m, p, v, q, w);
    WriteInto(m, q, w, p, v);
  }

  /** Two writes under the same first segment are two writes into that child. */
  lemma WriteInto(m: map<string, Value>, p: seq<string>, v: Value, q: seq<string>, w: Value)
    requires |p| > 1 && |q| > 1 && p[0] == q[0]
    ensures Then(Write(Obj(m), p, v), q, w)
         == match Then(Write(Child(m, p[0]), p[1..], v), q[1..], w)
            case None => None
            case Some(c) => Some(Obj(m[p[0] := c]))
  {
    var first := Write(Child(m, p[0]), p[1..], v);
    if first.Some? {
      var n := m[p[0] := first.value];
      assert Child(n, q[0]) == first.value;
      var second := Write(first.value, q[1..], w);
      if second.Some? {
        assert n[q[0] := second.value] == m[p[0] := second.value];
      }
    }
  }

  /** The new value of the first segment's child. */
  function Below(c: Value, path: seq<string>, v: Value): Option<Value>
    requires path != []
  {
    if |path| == 1 then Some(v) else Write(c, path[1..], v)
  }

  function Put(m: map<string, Value>, field: string, c: Option<Value>): Option<Value> {
    match c case None => None case Some(x) => Some(Obj(m[field := x]))
  }

  lemma WriteIsPut(m: map<string, Value>, path: seq<string>, v: Value)
    requires path != []
    ensures Write(Obj(m), path, v) == Put(m, path[0], Below(Child(m, path[0]), path, v))
  {
  }

  /** After a write beside it, a path's own write sees the same child. */
  lemma SecondBeside(m: map<string, Value>, f: string, x: Value, q: seq<string>, w: Value)
    requires q != [] && f != q[0]
    ensures Write(Obj(m[f := x]), q, w) == Put(m[f := x], q[0], Below(Child(m, q[0]), q, w))
  {
    WriteIsPut(m[f := x], q, w);
    assert Child(m[f := x], q[0]) == Child(m, q[0]);
  }

  lemma PutsCommute(m: map<string, Value>, f: string, x: Value, g: string, y: Value)
    requires f != g
    ensures Put(m[f := x], g, Some(y)) == Put(m[g := y], f, Some(x))
  {
    assert m[f := x][g := y] == m[g := y][f := x];
  }

  lemma CommutesBeside(m: map<string, Value>, p: seq<string>, v: Value, q: seq<string>, w: Value)
    requires p != [] && q != [] && p[0] != q[0]
    ensures Then(Write(Obj(m), p, v), q, w) == Then(Write(Obj(m), q, w), p, v)
  {
    WriteIsPut(m, p, v);
    WriteIsPut(m, q, w);
    var x, y := Below(Child(m, p[0]), p, v), Below(Child(m, q[0]), q, w);
    if x.Some? {
      SecondBeside(m, p[0], x.value, q, w);
    }
    if y.Some? {
      SecondBeside(m, q[0], y.value, p, v);
    }
    if x.Some? && y.Some? {
      PutsCommute(m, p[0], x.value, q[0], y.value);
    }
  }

  // ---------- All extractors ----------

  datatype Entry = Entry(path: seq<string>, value: Value)

  predicate Paths(ws: seq<Entry>) {
    forall w :: w in ws ==> w.path != []
  }

  function WriteAll(j: Option<Value>, ws: seq<Entry>): Option<Value>
    requires Paths(ws)
    decreases |ws|
  {
    if ws == [] then j else WriteAll(Then(j, ws[0].path, ws[0].value), ws[1..])
  }

  predicate AllApart(ws: seq<Entry>) {
    forall i, k :: 0 <= i < k < |ws| ==> Apart(ws[i].path, ws[k].path)
  }

  lemma {:induction false} NoneStays(ws: seq<Entry>)
    requires Paths(ws)
    ensures WriteAll(None, ws) == None
    decreases |ws|
  {
    if ws != [] {
      NoneStays(ws[1..]);
    }
  }

  /** A path apart from all written ones is not affected. */
  lemma {:induction false} LeavesUnrelated(j: Value, ws: seq<Entry>, other: seq<string>)
    requires Paths(ws) && other != [] && forall w :: w in ws ==> Apart(w.path, other)
    requires WriteAll(Some(j), ws).Some?
    ensures At(WriteAll(Some(j), ws).value, other) == At(j, other)
    decreases |ws|
  {
    if ws != [] {
      var first := Write(j, ws[0].path, ws[0].value);
      if first == None {
        NoneStays(ws[1..]);
      } else {
        LeavesApart(j, ws[0].path, ws[0].value, other);
        LeavesUnrelated(first.value, ws[1..], other);
      }
    }
  }

  lemma TailApart(ws: seq<Entry>)
    requires ws != [] && AllApart(ws)
    ensures AllApart(ws[1..]) && forall w :: w in ws[1..] ==> Apart(ws[0].path, w.path) && Apart(w.path, ws[0].path)
  {
  }

  /** It succeeds exactly when every path can be walked in the original body. */
  lemma {:induction false} SucceedsExactlyIfWalkable(j: Value, ws: seq<Entry>)
    requires Paths(ws) && AllApart(ws)
    ensures WriteAll(Some(j), ws).Some? <==> forall w :: w in ws ==> Walkable(j, w.path)
    decreases |ws|
  {
    if ws != [] {
      TailApart(ws);
      var first := Write(j, ws[0].path, ws[0].value);
      WritesExactlyIfWalkable(j, ws[0].path, ws[0].value);
      if first == None {
        NoneStays(ws[1..]);
      } else {
        SucceedsExactlyIfWalkable(first.value, ws[1..]);
        forall w | w in ws[1..]
          ensures Walkable(first.value, w.path) <==> Walkable(j, w.path)
        {
          LeavesApart(j, ws[0].path, ws[0].value, w.path);
        }
      }
    }
  }

  /** Every extracted value is read back under its own name. */
  lemma {:induction false} AllReadBack(j: Value, ws: seq<Entry>)
    requires Paths(ws) && AllApart(ws) && WriteAll(Some(j), ws).Some?
    ensures forall w :: w in ws ==> At(WriteAll(Some(j), ws).value, w.path) == Some(w.value)
    decreases |ws|
  {
    if ws != [] {
      TailApart(ws);
      var first := Write(j, ws[0].path, ws[0].value);
      if first == None {
        NoneStays(ws[1..]);
      } else {
        AllReadBack(first.value, ws[1..]);
        ReadsBack(j, ws[0].path, ws[0].value);
        LeavesUnrelated(first.value, ws[1..], ws[0].path);
      }
    }
  }

  // ---------- Any order ----------

  lemma {:induction false} WriteEarlier(j: Option<Value>, x: seq<Entry>, w: Entry, y: seq<Entry>)
    requires w.path != [] && Paths(x + y) && forall z :: z in x ==> Apart(z.path, w.path)
    ensures Paths(x + [w] + y) && WriteAll(j, x + [w] + y) == WriteAll(Then(j, w.path, w.value), x + y)
    decreases |x|
  {
    if x == [] {
      assert [] + [w] + y == [w] + y && [] + y == y;
    } else {
      var z, rest := x[0], x[1..];
      assert x + y == [z] + (rest + y) && x + [w] + y == [z] + (rest + [w] + y);
      WriteEarlier(Then(j, z.path, z.value), rest, w, y);
      if j.Some? {
        Commutes(j.value, z.path, z.value, w.path, w.value);
      }
      assert (x + [w] + y)[1..] == rest + [w] + y && (x + y)[1..] == rest + y;
    }
  }

  /** The extractors come out of an unordered map: the final body is the same for every order. */
  lemma {:induction false} OrderIrrelevant(j: Option<Value>, a: seq<Entry>, b: seq<Entry>)
    requires Paths(a) && AllApart(a) && multiset(a) == multiset(b)
    ensures Paths(b) && WriteAll(j, a) == WriteAll(j, b)
    decreases |a|
  {
    if a == [] {
      SameElements(a, b);
    } else {
      var w, rest := a[0], a[1..];
      var x, y := TakeOut(a, b);
      TailApart(a);
      SameElements(rest, x + y);
      AllMembers(a);
      forall z | z in x
        ensures Apart(z.path, w.path)
      {
        assert z in x + y;
      }
      OrderIrrelevant(Then(j, w.path, w.value), rest, x + y);
      WriteEarlier(j, x, w, y);
    }
  }

  lemma AllMembers(ws: seq<Entry>)
    requires ws != [] && Paths(ws)
    ensures ws[0].path != [] && Paths(ws[1..])
  {
    assert ws[0] in ws;
  }

  // ---------- When one name is a prefix of another ----------

  /** Writing below a value that is neither an object nor null throws. */
  lemma {:induction false} BelowScalarThrows(j: Value, p: seq<string>, v: Value, q: seq<string>, w: Value)
    requires p != [] && p < q && Fields(v) == None
    ensures Then(Write(j, p, v), q, w) == None
    decreases |p|
  {
    TailPrefix(p, q);
    if Fields(j).Some? {
      var m := Fields(j).value;
      if |p| > 1 {
        BelowScalarThrows(Child(m, p[0]), p[1..], v, q[1..], w);
        WriteInto(m, p, v, q, w);
      } else {
        assert Child(m[p[0] := v], q[0]) == v;
        assert Write(v, q[1..], w) == None;
      }
    }
  }

  /** Writing above afterwards replaces what was written below. */
  lemma {:induction false} AboveCovers(j: Value, p: seq<string>, v: Value, q: seq<string>, w: Value)
    requires p != [] && p < q && Walkable(j, q)
    ensures Then(Write(j, q, w), p, v).Some?
    decreases |p|
  {
    WritesExactlyIfWalkable(j, q, w);
    TailPrefix(p, q);
    if |p| > 1 {
      AboveCovers(Child(Fields(j).value, p[0]), p[1..], v, q[1..], w);
    }
  }

  // ---------- The pointer walk ----------

  /** The body with the node at the path replaced: assignment through the pointer. */
  function ReplaceAt(j: Value, path: seq<string>, c: Value): Value
    requires At(j, path).Some?
    decreases |path|
  {
    if path == [] then c else Obj(j.fields[path[0] := ReplaceAt(j.fields[path[0]], path[1..], c)])
  }

  lemma {:induction false} ReadsReplaced(j: Value, path: seq<string>, c: Value)
    requires At(j, path).Some?
    ensures At(ReplaceAt(j, path, c), path) == Some(c)
    decreases |path|
  {
    if path != [] {
      ReadsReplaced(j.fields[path[0]], path[1..], c);
    }
  }

  lemma {:induction false} ReplacedTwice(j: Value, path: seq<string>, c: Value, d: Value)
    requires At(j, path).Some?
    ensures At(ReplaceAt(j, path, c), path).Some? && ReplaceAt(ReplaceAt(j, path, c), path, d) == ReplaceAt(j, path, d)
    decreases |path|
  {
    ReadsReplaced(j, path, c);
    if path != [] {
      var m, f := j.fields, path[0];
      ReplacedTwice(m[f], path[1..], c, d);
      var x, y := ReplaceAt(m[f], path[1..], c), ReplaceAt(m[f], path[1..], d);
      assert m[f := x][f := y] == m[f := y];
    }
  }

  lemma {:induction false} WriteThroughPointer(j: Value, path: seq<string>, rest: seq<string>, v: Value)
    requires At(j, path).Some? && rest != []
    ensures Write(j, path + rest, v)
         == match Write(At(j, path).value, rest, v)
            case None => None
            case Some(c) => Some(ReplaceAt(j, path, c))
    decreases |path|
  {
    if path == [] {
      assert path + rest == rest;
    } else {
      assert (path + rest)[1..] == path[1..] + rest && (path + rest)[0] == path[0];
      WriteThroughPointer(j.fields[path[0]], path[1..], rest, v);
    }
  }

  lemma {:induction false} ReadsBelow(j: Value, path: seq<string>, field: string)
    requires At(j, path).Some? && Has(At(j, path).value, field)
    ensures At(j, path + [field]) == Some(At(j, path).value.fields[field])
    decreases |path|
  {
    if path == [] {
      assert path + [field] == [field];
    } else {
      assert (path + [field])[1..] == path[1..] + [field];
      ReadsBelow(j.fields[path[0]], path[1..], field);
    }
  }

  /** current = &(*current)[field]: the body after it, or None when it throws. */
  function Step(j: Value, current: seq<string>, field: string): Option<Value>
    requires At(j, current).Some?
  {
    match Fields(At(j, current).value)
    case None => None
    case Some(m) => Some(ReplaceAt(j, current, Obj(m[field := Child(m, field)])))
  }

  /** A step that creates a missing child does not change what the whole write gives. */
  lemma StepIsHarmless(j: Value, current: seq<string>, field: string, rest: seq<string>, v: Value)
    requires At(j, current).Some? && rest != []
    ensures Step(j, current, field) == None ==> Write(j, current + ([field] + rest), v) == None
    ensures Step(j, current, field).Some? ==>
              var k := Step(j, current, field).value;
              && At(k, current + [field]).Some?
              && Write(k, current + [field] + rest, v) == Write(j, current + ([field] + rest), v)
  {
    var path := [field] + rest;
    assert path[1..] == rest;
    WriteThroughPointer(j, current, path, v);
    var node := At(j, current).value;
    if Fields(node).Some? {
      var m := Fields(node).value;
      var touched := Obj(m[field := Child(m, field)]);
      var k := ReplaceAt(j, current, touched);
      ReadsReplaced(j, current, touched);
      ReadsBelow(k, current, field);
      WriteThroughPointer(k, current, path, v);
      assert current + [field] + rest == current + path;
      SameWrite(m, field, path, v);
      if Write(touched, path, v).Some? {
        ReplacedTwice(j, current, touched, Write(touched, path, v).value);
      }
    }
  }

  lemma SameWrite(m: map<string, Value>, field: string, path: seq<string>, v: Value)
    requires |path| > 1 && path[0] == field
    ensures Write(Obj(m[field := Child(m, field)]), path, v) == Write(Obj(m), path, v)
  {
    var c := Write(Child(m, field), path[1..], v);
    if c.Some? {
      assert m[field := Child(m, field)][field := c.value] == m[field := c.value];
    }
  }

  /** The loop over the dots of one name; None when an index throws. */
  method WriteNamed(body: Value, name: string, value: string) returns (r: Option<Value>)
    ensures r == Write(body, Split(name), Str(value))
  {
    var json := body;
    var current: seq<string> := [];
    var rest := name;
    assert [] + Split(name) == Split(name);
    while '.' in rest
      invariant At(json, current).Some?
      invariant Write(json, current + Split(rest), Str(value)) == Write(body, Split(name), Str(value))
      decreases |rest|
    {
      var pos := FirstIndex(rest, '.');
      var field := rest[..pos];
      StepIsHarmless(json, current, field, Split(rest[pos + 1..]), Str(value));
      match Step(json, current, field)
      case None => return None;
      case Some(k) =>
        json := k;
        current := current + [field];
        rest := rest[pos + 1..];
    }
    WriteThroughPointer(json, current, [rest], Str(value));
    match Fields(At(json, current).value)
    case None => return None;
    case Some(m) => return Some(ReplaceAt(json, current, Obj(m[rest := Str(value)])));
  }

  datatype Extraction = Extraction(name: string, value: string)

  function Entries(es: seq<Extraction>): (ws: seq<Entry>)
    ensures |ws| == |es| && Paths(ws)
    ensures forall i :: 0 <= i < |es| ==> ws[i] == Entry(Split(es[i].name), Str(es[i].value))
  {
    if es == [] then [] else [Entry(Split(es[0].name), Str(es[0].value))] + Entries(es[1..])
  }

  /** The loop over the extractors, the values being already extracted. */
  method WriteExtractions(body: Value, es: seq<Extraction>) returns (r: Option<Value>)
    ensures r == WriteAll(Some(body), Entries(es))
  {
    r := Some(body);
    var n := 0;
    while n < |es|
      invariant 0 <= n <= |es| && r.Some?
      invariant WriteAll(r, Entries(es)[n..]) == WriteAll(Some(body), Entries(es))
    {
      ghost var ws := Entries(es);
      assert ws[n..][1..] == ws[n + 1..];
      r := WriteNamed(r.value, es[n].name, es[n].value);
      if r == None {
        NoneStays(ws[n + 1..]);
        return;
      }
      n := n + 1;
    }
  }
}
