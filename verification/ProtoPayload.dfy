/**
 * The NATS payload: a map of headers and a body. Each header is a nested message whose
 * key and value are written even when empty; Go ranges over the map in any order, and
 * not necessarily the same one when it sizes and when it writes.
 */
module ProtoPayload {
  import opened Common
  import opened ProtoWire
  import opened ProtoBuffer

  datatype Payload = Payload(headers: map<seq<Byte>, seq<Byte>>, body: seq<Byte>, unknown: seq<Byte>)

  const KNOWN: set<(nat, nat)> := {(1, 2), (2, 2)}

  /** An order in which the headers may be ranged over. */
  predicate IsOrder(p: Payload, order: seq<seq<Byte>>) {
    multiset(order) == multiset(p.headers.Keys)
  }

  // ---------- The wire form ----------

  function KeyValue(k: seq<Byte>, v: seq<Byte>): seq<Byte> {
    Written(Bytes(1, k)) + Written(Bytes(2, v))
  }

  function HeaderEntry(k: seq<Byte>, v: seq<Byte>): Entry {
    Bytes(1, KeyValue(k, v))
  }

  /** Written back to front, so the header ranged over last comes first. */
  function Entries(p: Payload, order: seq<seq<Byte>>): seq<Entry>
    requires forall k :: k in order ==> k in p.headers
  {
    if order == [] then [Bytes(2, p.body)]
    else
      var k := order[|order| - 1];
      [HeaderEntry(k, p.headers[k])] + Entries(p, order[..|order| - 1])
  }

  function Wire(p: Payload, order: seq<seq<Byte>>): seq<Byte>
    requires forall k :: k in order ==> k in p.headers
  {
    Encode(Entries(p, order), p.unknown)
  }

  predicate Fit(p: Payload) {
    && |p.body| < TWO63
    && forall k :: k in p.headers ==> |KeyValue(k, p.headers[k])| < TWO63
  }

  lemma OrderHasTheKeys(p: Payload, order: seq<seq<Byte>>)
    requires IsOrder(p, order)
    ensures forall k :: k in order <==> k in p.headers
  {
    assert forall k :: k in order <==> k in multiset(order);
  }

  // ---------- Reading ----------

  /** An absent key or value is empty. */
  function ReadHeader(bs: seq<Byte>): Option<(seq<Byte>, seq<Byte>)> {
    match ReadFields(bs)
    case None => None
    case Some(rs) => Some((GetBytes(rs, 1), GetBytes(rs, 2)))
  }

  /** Of two headers with the same key the later wins. */
  function Collect(rs: seq<Raw>): Option<map<seq<Byte>, seq<Byte>>> {
    if rs == [] then Some(map[])
    else if !(rs[0].num == 1 && rs[0].wire == 2) then Collect(rs[1..])
    else
      match (ReadHeader(rs[0].payload), Collect(rs[1..]))
      case (Some((k, v)), Some(later)) => Some(map[k := v] + later)
      case _ => None
  }

  function Decode(bs: seq<Byte>): Option<Payload> {
    match ReadFields(bs)
    case None => None
    case Some(rs) =>
      match Collect(rs)
      case None => None
      case Some(headers) => Some(Payload(headers, GetBytes(rs, 2), Unknown(rs, KNOWN)))
  }

  // ---------- Reading back ----------

  lemma ReadsLast(e: Entry)
    requires Fits(e)
    ensures ReadFields(Written(e)) == Some([RawOf(e)])
  {
    ReadsEntry(e, []);
    assert Written(e) + [] == Written(e);
    assert [RawOf(e)] + [] == [RawOf(e)];
  }

  lemma Pair<T>(a: T, b: T)
    ensures [a] + [b] == [a, b]
  {
  }

  lemma ReadsTwo(key: Entry, value: Entry)
    requires Fits(key) && Fits(value)
    ensures ReadFields(Written(key) + Written(value)) == Some([RawOf(key), RawOf(value)])
  {
    ReadsLast(value);
    ReadsEntry(key, Written(value));
    Pair(RawOf(key), RawOf(value));
  }

  lemma ReadsHeader(k: seq<Byte>, v: seq<Byte>)
    requires |KeyValue(k, v)| < TWO63
    ensures ReadHeader(KeyValue(k, v)) == Some((k, v))
  {
    var key, value := RawOf(Bytes(1, k)), RawOf(Bytes(2, v));
    ReadsTwo(Bytes(1, k), Bytes(2, v));
    assert [value] + [] == [value] && [key] + [value] == [key, value];
    FirstFound(value, [], 1, 2);
    FirstFound(key, [value], 1, 2);
    FirstFound(value, [], 2, 2);
    LaterFound(key, [value], 2, 2);
  }

  /** What the fields of the message give, whatever unknown fields follow. */
  ghost predicate Gives(rs: seq<Raw>, headers: map<seq<Byte>, seq<Byte>>, body: seq<Byte>, unknown: seq<Byte>) {
    Collect(rs) == Some(headers) && GetBytes(rs, 2) == body && Unknown(rs, KNOWN) == unknown
  }

  lemma {:induction false} UnknownGivesNothing(us: seq<Raw>)
    requires forall r :: r in us ==> (r.num, r.wire) !in KNOWN
    ensures Collect(us) == Some(map[]) && Last(us, 2, 2) == None
    decreases |us|
  {
    if us != [] {
      assert us[0] in us;
      UnknownGivesNothing(us[1..]);
    }
  }

  lemma BodyGives(body: seq<Byte>, us: seq<Raw>, unknown: seq<Byte>)
    requires (forall r :: r in us ==> (r.num, r.wire) !in KNOWN) && Unknown(us, KNOWN) == unknown
    ensures Gives(Raws([Bytes(2, body)]) + us, map[], body, unknown)
  {
    UnknownGivesNothing(us);
    var e := Bytes(2, body);
    RawsCons([e], us);
    assert [e][1..] == [];
    assert Raws([]) + us == us;
    FirstFound(RawOf(e), us, 2, 2);
    assert ([RawOf(e)] + us)[1..] == us;
  }

  lemma HeaderGives(k: seq<Byte>, v: seq<Byte>, rs: seq<Raw>, headers: map<seq<Byte>, seq<Byte>>,
                    body: seq<Byte>, unknown: seq<Byte>)
    requires |KeyValue(k, v)| < TWO63 && Gives(rs, headers, body, unknown)
    ensures Gives([RawOf(HeaderEntry(k, v))] + rs, map[k := v] + headers, body, unknown)
  {
    var r := RawOf(HeaderEntry(k, v));
    ReadsHeader(k, v);
    LaterFound(r, rs, 2, 2);
    assert ([r] + rs)[1..] == rs;
  }

  function Restricted(p: Payload, order: seq<seq<Byte>>): map<seq<Byte>, seq<Byte>>
    requires forall k :: k in order ==> k in p.headers
  {
    map k | k in order :: p.headers[k]
  }

  lemma RestrictedMore(p: Payload, order: seq<seq<Byte>>)
    requires order != [] && forall k :: k in order ==> k in p.headers
    ensures var (k, front) := (order[|order| - 1], order[..|order| - 1]);
            Restricted(p, order) == map[k := p.headers[k]] + Restricted(p, front)
  {
    var (k, front) := (order[|order| - 1], order[..|order| - 1]);
    assert order == front + [k];
  }

  lemma {:induction false} EntriesGive(p: Payload, order: seq<seq<Byte>>, us: seq<Raw>)
    requires Fit(p) && forall k :: k in order ==> k in p.headers
    requires (forall r :: r in us ==> (r.num, r.wire) !in KNOWN) && Unknown(us, KNOWN) == p.unknown
    ensures Gives(Raws(Entries(p, order)) + us, Restricted(p, order), p.body, p.unknown)
    decreases |order|
  {
    if order == [] {
      BodyGives(p.body, us, p.unknown);
      assert Restricted(p, order) == map[];
    } else {
      var (k, front) := (order[|order| - 1], order[..|order| - 1]);
      EntriesGive(p, front, us);
      var es := Entries(p, front);
      HeaderGives(k, p.headers[k], Raws(es) + us, Restricted(p, front), p.body, p.unknown);
      RawsCons(Entries(p, order), us);
      assert Entries(p, order)[1..] == es;
      RestrictedMore(p, order);
    }
  }

  lemma {:induction false} EntriesFit(p: Payload, order: seq<seq<Byte>>)
    requires Fit(p) && forall k :: k in order ==> k in p.headers
    ensures forall e :: e in Entries(p, order) ==> Fits(e)
    decreases |order|
  {
    if order != [] {
      EntriesFit(p, order[..|order| - 1]);
    }
  }

  lemma RestrictedToAll(p: Payload, order: seq<seq<Byte>>)
    requires forall k :: k in order <==> k in p.headers
    ensures Restricted(p, order) == p.headers
  {
  }

  /** Whatever the order of the headers, the same payload comes back. */
  lemma RoundTrip(p: Payload, order: seq<seq<Byte>>)
    requires Fit(p) && UnknownFields(p.unknown, KNOWN) && IsOrder(p, order)
    ensures (forall k :: k in order ==> k in p.headers) && Decode(Wire(p, order)) == Some(p)
  {
    OrderHasTheKeys(p, order);
    EntriesFit(p, order);
    ReadsEntries(Entries(p, order), p.unknown);
    UnknownKept(p.unknown, KNOWN);
    EntriesGive(p, order, ReadFields(p.unknown).value);
    RestrictedToAll(p, order);
  }

  // ---------- Sizing ----------

  function HeaderSize(p: Payload, k: seq<Byte>): nat
    requires k in p.headers
  {
    |EncodeEntry(HeaderEntry(k, p.headers[k]))|
  }

  /** The sum of the sizes of the keys in the list. */
  function Sum<T>(size: map<T, nat>, order: seq<T>): nat
    requires forall k :: k in order ==> k in size
  {
    if order == [] then 0 else Sum(size, order[..|order| - 1]) + size[order[|order| - 1]]
  }

  function Sizes(p: Payload): map<seq<Byte>, nat> {
    map k | k in p.headers :: HeaderSize(p, k)
  }

  lemma SumMore<T>(size: map<T, nat>, order: seq<T>, k: T)
    requires forall x :: x in order + [k] ==> x in size
    ensures k in size && (forall x :: x in order ==> x in size)
    ensures Sum(size, order + [k]) == Sum(size, order) + size[k]
  {
    assert (order + [k])[|order|] == k;
    assert (order + [k])[..|order|] == order;
  }

  lemma {:induction false} SumGrows<T>(size: map<T, nat>, order: seq<T>, c: nat)
    requires c <= |order| && forall k :: k in order ==> k in size
    ensures Sum(size, order[..c]) <= Sum(size, order)
    decreases |order| - c
  {
    if c < |order| {
      SumGrows(size, order, c + 1);
      OneMore(order, c);
      SumMore(size, order[..c], order[c]);
    } else {
      assert order[..c] == order;
    }
  }

  lemma {:induction false} WithoutOne<T>(size: map<T, nat>, a: seq<T>, k: T, b: seq<T>)
    requires forall x :: x in a + [k] + b ==> x in size
    ensures k in size && forall x :: x in a + b ==> x in size
    ensures Sum(size, a + [k] + b) == Sum(size, a + b) + size[k]
    decreases |b|
  {
    assert (a + [k] + b)[|a|] == k;
    if b == [] {
      assert a + [k] + b == a + [k] && a + b == a;
      SumMore(size, a, k);
    } else {
      var (front, last) := (b[..|b| - 1], b[|b| - 1]);
      assert b == front + [last];
      assert a + [k] + b == a + [k] + front + [last];
      assert a + b == a + front + [last];
      WithoutOne(size, a, k, front);
      SumMore(size, a + [k] + front, last);
      SumMore(size, a + front, last);
    }
  }

  lemma {:induction false} SumForgetsOrder<T>(size: map<T, nat>, a: seq<T>, b: seq<T>)
    requires multiset(a) == multiset(b) && forall k :: k in a ==> k in size
    ensures (forall k :: k in b ==> k in size) && Sum(size, a) == Sum(size, b)
    decreases |a|
  {
    SameElements(a, b);
    if a != [] {
      var (front, k) := (a[..|a| - 1], a[|a| - 1]);
      assert a == front + [k];
      assert k in a;
      var j :| 0 <= j < |b| && b[j] == k;
      var (x, y) := (b[..j], b[j + 1..]);
      assert b == x + [k] + y;
      assert multiset(front + [k]) == multiset(front) + multiset{k};
      Remove(front, k, x, y);
      SumForgetsOrder(size, front, x + y);
      SumMore(size, front, k);
      WithoutOne(size, x, k, y);
    }
  }

  /** One more header ranged over is one more written in front. */
  lemma WireMore(p: Payload, order: seq<seq<Byte>>, k: seq<Byte>)
    requires k in p.headers && forall x :: x in order ==> x in p.headers
    ensures Wire(p, order + [k]) == EncodeEntry(HeaderEntry(k, p.headers[k])) + Wire(p, order)
  {
    var more := order + [k];
    assert more[..|more| - 1] == order;
    var e, es := HeaderEntry(k, p.headers[k]), Entries(p, order);
    assert Entries(p, more) == [e] + es;
    assert ([e] + es)[1..] == es;
  }

  lemma WireOfNone(p: Payload)
    ensures Wire(p, []) == EncodeEntry(Bytes(2, p.body)) + p.unknown
  {
    var e := Bytes(2, p.body);
    assert [e][1..] == [];
    assert Encode([], p.unknown) == p.unknown;
  }

  lemma {:induction false} WireLength(p: Payload, order: seq<seq<Byte>>)
    requires forall k :: k in order ==> k in p.headers
    ensures |Wire(p, order)| == Sum(Sizes(p), order) + |EncodeEntry(Bytes(2, p.body))| + |p.unknown|
    decreases |order|
  {
    if order == [] {
      WireOfNone(p);
    } else {
      var (front, k) := (order[..|order| - 1], order[|order| - 1]);
      assert order == front + [k];
      WireLength(p, front);
      WireMore(p, front, k);
    }
  }

  /** A header's nested message has exactly the size computed for it. */
  lemma MapEntrySize(k: seq<Byte>, v: seq<Byte>)
    ensures |KeyValue(k, v)| == 1 + |k| + SizeOfVarint(|k|) + 1 + |v| + SizeOfVarint(|v|)
    ensures |EncodeEntry(HeaderEntry(k, v))| == |KeyValue(k, v)| + 1 + SizeOfVarint(|KeyValue(k, v)|)
  {
  }

  lemma SizesHold(p: Payload, k: seq<Byte>)
    requires k in p.headers
    ensures k in Sizes(p)
    ensures Sizes(p)[k] == |KeyValue(k, p.headers[k])| + 1 + SizeOfVarint(|KeyValue(k, p.headers[k])|)
  {
    MapEntrySize(k, p.headers[k]);
  }

  lemma SumPrefix<T>(size: map<T, nat>, order: seq<T>, c: nat)
    requires c < |order| && forall k :: k in order ==> k in size
    ensures Sum(size, order[..c + 1]) == Sum(size, order[..c]) + size[order[c]]
  {
    OneMore(order, c);
    SumMore(size, order[..c], order[c]);
  }

  lemma HeaderAdds(p: Payload, order: seq<seq<Byte>>, c: nat, mapEntrySize: nat)
    requires c < |order| && forall k :: k in order ==> k in p.headers
    requires mapEntrySize == |KeyValue(order[c], p.headers[order[c]])|
    ensures Sum(Sizes(p), order[..c + 1])
         == Sum(Sizes(p), order[..c]) + mapEntrySize + 1 + SizeOfVarint(mapEntrySize)
  {
    SumPrefix(Sizes(p), order, c);
    SizesHold(p, order[c]);
  }

  method SizeVT(p: Payload, order: seq<seq<Byte>>) returns (n: nat)
    requires forall k :: k in order ==> k in p.headers
    ensures n == Sum(Sizes(p), order) + |EncodeEntry(Bytes(2, p.body))| + |p.unknown|
  {
    n := 0;
    for c := 0 to |order|
      invariant n == Sum(Sizes(p), order[..c])
    {
      var k := order[c];
      var v := p.headers[k];
      var mapEntrySize := 1 + |k| + SizeOfVarint(|k|) + 1 + |v| + SizeOfVarint(|v|);
      n := n + mapEntrySize + 1 + SizeOfVarint(mapEntrySize);
      MapEntrySize(k, v);
      HeaderAdds(p, order, c, mapEntrySize);
    }
    assert order[..|order|] == order;
    var l := |p.body|;
    if l > 0 {
      n := n + 1 + l + SizeOfVarint(l);
    }
    n := n + |p.unknown|;
  }

  /** The size does not depend on the order it was computed in. */
  lemma SizeFitsEveryOrder(p: Payload, sizing: seq<seq<Byte>>, writing: seq<seq<Byte>>)
    requires IsOrder(p, sizing) && IsOrder(p, writing)
    ensures forall k :: k in sizing + writing ==> k in p.headers
    ensures |Wire(p, writing)| == Sum(Sizes(p), sizing) + |EncodeEntry(Bytes(2, p.body))| + |p.unknown|
  {
    OrderHasTheKeys(p, sizing);
    OrderHasTheKeys(p, writing);
    SumForgetsOrder(Sizes(p), sizing, writing);
    WireLength(p, writing);
  }

  // ---------- Writing ----------

  /** Two writes, one before the other, leave what is before both. */
  lemma Twice(d: seq<Byte>, inner: seq<Byte>, was: seq<Byte>, i: nat, j: nat)
    requires i <= j <= |was| == |inner| == |d| && d[..i] == inner[..i] && inner[..j] == was[..j]
    ensures d[..i] == was[..i]
  {
    assert inner[..i] == inner[..j][..i] && was[..i] == was[..j][..i];
  }

  method PutKeyValue(d: array<Byte>, baseI: nat, k: seq<Byte>, v: seq<Byte>) returns (i: nat)
    requires |KeyValue(k, v)| <= baseI <= d.Length
    modifies d
    ensures i == baseI - |KeyValue(k, v)|
    ensures d[i..] == KeyValue(k, v) + old(d[baseI..]) && d[..i] == old(d[..i])
  {
    ghost var was := d[..];
    i := PutField(d, baseI, [0x12], v);
    ghost var inner, j := d[..], i;
    i := PutField(d, i, [0xa], k);
    Associates(Written(Bytes(1, k)), Written(Bytes(2, v)), was[baseI..]);
    Twice(d[..], inner, was, i, j);
  }

  lemma HeaderBytes(k: seq<Byte>, v: seq<Byte>, tail: seq<Byte>)
    ensures |EncodeEntry(HeaderEntry(k, v))| == |KeyValue(k, v)| + |[0xa as Byte] + Varint(|KeyValue(k, v)|)|
    ensures EncodeEntry(HeaderEntry(k, v)) + tail == ([0xa] + Varint(|KeyValue(k, v)|)) + (KeyValue(k, v) + tail)
  {
    var kv := KeyValue(k, v);
    Associates([0xa as Byte], Varint(|kv|), kv);
    Associates([0xa as Byte] + Varint(|kv|), kv, tail);
  }

  /** Value, key, the length of both as the distance walked, and the map field's tag. */
  method PutHeader(d: array<Byte>, baseI: nat, k: seq<Byte>, v: seq<Byte>) returns (i: nat)
    requires |EncodeEntry(HeaderEntry(k, v))| <= baseI <= d.Length
    modifies d
    ensures i == baseI - |EncodeEntry(HeaderEntry(k, v))|
    ensures d[i..] == EncodeEntry(HeaderEntry(k, v)) + old(d[baseI..]) && d[..i] == old(d[..i])
  {
    ghost var was := d[..];
    HeaderBytes(k, v, was[baseI..]);
    i := PutKeyValue(d, baseI, k, v);
    ghost var inner, j := d[..], i;
    i := PutTagged(d, i, [0xa], baseI - i);
    Twice(d[..], inner, was, i, j);
  }

  lemma PrefixIsShorter(p: Payload, order: seq<seq<Byte>>, c: nat)
    requires c <= |order| && forall k :: k in order ==> k in p.headers
    ensures |p.unknown| <= |Wire(p, order[..c])| <= |Wire(p, order)|
  {
    SumGrows(Sizes(p), order, c);
    WireLength(p, order[..c]);
    WireLength(p, order);
  }

  method PutBody(d: array<Byte>, i: nat, body: seq<Byte>) returns (j: nat)
    requires |EncodeEntry(Bytes(2, body))| <= i <= d.Length
    modifies d
    ensures j <= i && d[j..] == EncodeEntry(Bytes(2, body)) + old(d[i..]) && d[..j] == old(d[..j])
  {
    j := i;
    if |body| > 0 {
      j := PutField(d, j, [0x12], body);
    } else {
      assert d[j..] == [] + d[i..];
    }
  }

  /** Behind index i stands the message with the first c headers of the order; before it nothing has changed. */
  ghost predicate Filled(d: seq<Byte>, i: nat, p: Payload, order: seq<seq<Byte>>, c: nat, was: seq<Byte>)
    requires c <= |order| && forall k :: k in order ==> k in p.headers
  {
    i <= |d| == |was| && d[i..] == Wire(p, order[..c]) && forall x :: 0 <= x < i ==> d[x] == was[x]
  }

  method PutBodyAndUnknown(p: Payload, ghost order: seq<seq<Byte>>, d: array<Byte>) returns (i: nat)
    requires (forall k :: k in order ==> k in p.headers) && |Wire(p, order)| <= d.Length
    modifies d
    ensures Filled(d[..], i, p, order, 0, old(d[..]))
  {
    PrefixIsShorter(p, order, 0);
    WireOfNone(p);
    assert order[..0] == [];
    ghost var was := d[..];
    i := Copy(d, d.Length, p.unknown);
    assert d[i..] == p.unknown;
    ghost var inner, j := d[..], i;
    i := PutBody(d, i, p.body);
    Twice(d[..], inner, was, i, j);
  }

  lemma NextHeader(p: Payload, order: seq<seq<Byte>>, c: nat)
    requires c < |order| && forall k :: k in order ==> k in p.headers
    ensures Wire(p, order[..c + 1]) == EncodeEntry(HeaderEntry(order[c], p.headers[order[c]])) + Wire(p, order[..c])
    ensures |Wire(p, order[..c + 1])| <= |Wire(p, order)|
  {
    PrefixIsShorter(p, order, c + 1);
    WireMore(p, order[..c], order[c]);
    OneMore(order, c);
  }

  lemma HeaderFits(d: seq<Byte>, i: nat, p: Payload, order: seq<seq<Byte>>, c: nat, was: seq<Byte>)
    requires c < |order| && (forall k :: k in order ==> k in p.headers)
    requires |Wire(p, order)| <= |d| && Filled(d, i, p, order, c, was)
    ensures |EncodeEntry(HeaderEntry(order[c], p.headers[order[c]]))| <= i
  {
    NextHeader(p, order, c);
  }

  lemma HeaderFills(
    e: seq<Byte>, j: nat, d: seq<Byte>, i: nat, p: Payload, order: seq<seq<Byte>>, c: nat, was: seq<Byte>)
    requires c < |order| && (forall k :: k in order ==> k in p.headers) && Filled(d, i, p, order, c, was)
    requires |e| == |d| && j <= i && e[..j] == d[..j]
    requires e[j..] == EncodeEntry(HeaderEntry(order[c], p.headers[order[c]])) + d[i..]
    ensures Filled(e, j, p, order, c + 1, was)
  {
    NextHeader(p, order, c);
    forall x | 0 <= x < j
      ensures e[x] == was[x]
    {
      assert e[x] == e[..j][x] == d[..j][x] == d[x];
    }
  }

  method PutNextHeader(p: Payload, order: seq<seq<Byte>>, c: nat, d: array<Byte>, baseI: nat, ghost was: seq<Byte>)
    returns (i: nat)
    requires c < |order| && (forall k :: k in order ==> k in p.headers)
    requires |Wire(p, order)| <= d.Length && Filled(d[..], baseI, p, order, c, was)
    modifies d
    ensures Filled(d[..], i, p, order, c + 1, was)
  {
    ghost var before := d[..];
    HeaderFits(before, baseI, p, order, c, was);
    i := PutHeader(d, baseI, order[c], p.headers[order[c]]);
    HeaderFills(d[..], i, before, baseI, p, order, c, was);
  }

  lemma FilledAll(d: seq<Byte>, i: nat, p: Payload, order: seq<seq<Byte>>, was: seq<Byte>)
    requires (forall k :: k in order ==> k in p.headers) && Filled(d, i, p, order, |order|, was)
    ensures |Wire(p, order)| == |d| - i && d[|d| - (|d| - i)..] == Wire(p, order)
    ensures d[..|d| - (|d| - i)] == was[..|d| - (|d| - i)]
  {
    assert order[..|order|] == order;
  }

  method MarshalToSizedBuffer(p: Payload, order: seq<seq<Byte>>, d: array<Byte>) returns (n: nat)
    requires (forall k :: k in order ==> k in p.headers) && |Wire(p, order)| <= d.Length
    modifies d
    ensures n == |Wire(p, order)| && d[d.Length - n..] == Wire(p, order)
    ensures d[..d.Length - n] == old(d[..d.Length - n])
  {
    ghost var was := d[..];
    var i: nat := PutBodyAndUnknown(p, order, d);
    for c := 0 to |order|
      invariant Filled(d[..], i, p, order, c, was)
    {
      i := PutNextHeader(p, order, c, d, i, was);
    }
    FilledAll(d[..], i, p, order, was);
    n := d.Length - i;
  }

  /** Sized in one order, written in another: the buffer is filled exactly. */
  method Marshal(p: Payload, sizing: seq<seq<Byte>>, writing: seq<seq<Byte>>) returns (d: array<Byte>)
    requires IsOrder(p, sizing) && IsOrder(p, writing)
    ensures fresh(d) && (forall k :: k in writing ==> k in p.headers) && d[..] == Wire(p, writing)
    ensures Fit(p) && UnknownFields(p.unknown, KNOWN) ==> Decode(d[..]) == Some(p)
  {
    SizeFitsEveryOrder(p, sizing, writing);
    var size := SizeVT(p, sizing);
    d := new Byte[size](_ => 0);
    var n := MarshalToSizedBuffer(p, writing, d);
    assert n == size;
    if Fit(p) && UnknownFields(p.unknown, KNOWN) {
      RoundTrip(p, writing);
    }
  }
}
