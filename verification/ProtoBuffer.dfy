/**
 * Writing a message back to front: the index starts at the buffer's end and goes
 * down, and what lies behind it is always a finished tail of the encoding. The other
 * half is the size, computed front to back before the buffer is allocated.
 */
module ProtoBuffer {
  import opened Common
  import opened ProtoWire

  // ---------- Writing ----------

  /** i -= len(b); copy(dAtA[i:], b) */
  method Copy(d: array<Byte>, i: nat, b: seq<Byte>) returns (j: nat)
    requires |b| <= i <= d.Length
    modifies d
    ensures j == i - |b| && d[j..] == b + old(d[i..]) && d[..j] == old(d[..j])
  {
    j := i - |b|;
    forall k | 0 <= k < |b| {
      d[j + k] := b[k];
    }
    assert d[j..i] == b;
    assert d[i..] == old(d[i..]);
    assert d[j..] == d[j..i] + d[i..];
  }

  /** The varint's bytes, forwards from j. */
  method WriteVarint(d: array<Byte>, j: nat, v: nat)
    requires j + |Varint(v)| <= d.Length
    modifies d
    ensures d[j..j + |Varint(v)|] == Varint(v)
    ensures forall x :: 0 <= x < d.Length && !(j <= x < j + |Varint(v)|) ==> d[x] == old(d[x])
  {
    var offset, w := j, v;
    while w >= 128
      invariant j <= offset && offset + |Varint(w)| == j + |Varint(v)|
      invariant d[j..offset] + Varint(w) == Varint(v)
      invariant forall x :: 0 <= x < d.Length && !(j <= x < j + |Varint(v)|) ==> d[x] == old(d[x])
    {
      ghost var done := d[j..offset];
      d[offset] := w % 128 + 128;
      assert d[j..offset + 1] == done + [128 + w % 128];
      Pushed(done, 128 + w % 128, Varint(w / 128));
      w := w / 128;
      offset := offset + 1;
    }
    ghost var done := d[j..offset];
    d[offset] := w;
    assert d[j..offset + 1] == done + [w];
  }

  /** Steps back by the varint's size, then writes its bytes forwards. */
  method PutVarint(d: array<Byte>, i: nat, v: nat) returns (j: nat)
    requires |Varint(v)| <= i <= d.Length
    modifies d
    ensures j == i - |Varint(v)| && d[j..] == Varint(v) + old(d[i..]) && d[..j] == old(d[..j])
  {
    j := i - SizeOfVarint(v);
    WriteVarint(d, j, v);
    assert d[i..] == old(d[i..]) && d[..j] == old(d[..j]);
    assert d[j..] == d[j..i] + d[i..];
  }

  lemma Nested(a: seq<Byte>, b: seq<Byte>, c: seq<Byte>, t: seq<Byte>)
    ensures a + (b + (c + t)) == (a + b + c) + t
  {
  }

  lemma Pushed(a: seq<Byte>, x: Byte, b: seq<Byte>)
    ensures a + ([x] + b) == (a + [x]) + b
  {
  }

  /** The encodings from each entry on; the last is that of no entry. */
  ghost function Tails(es: seq<Entry>, unknown: seq<Byte>): (at: seq<seq<Byte>>)
    ensures |at| == |es| + 1 && at[0] == Encode(es, unknown)
  {
    [Encode(es, unknown)] + if es == [] then [] else Tails(es[1..], unknown)
  }

  /** Each tail is an entry before the next tail. */
  ghost predicate Chain(es: seq<Entry>, at: seq<seq<Byte>>) {
    && |at| == |es| + 1
    && forall k {:trigger EncodeEntry(es[k])} :: 0 <= k < |es| ==> at[k] == EncodeEntry(es[k]) + at[k + 1]
  }

  lemma {:induction false} TailAt(es: seq<Entry>, unknown: seq<Byte>, k: nat)
    requires k <= |es|
    ensures Tails(es, unknown)[k] == Encode(es[k..], unknown)
    decreases k
  {
    if k == 0 {
      assert es[0..] == es;
    } else {
      TailAt(es[1..], unknown, k - 1);
      assert es[1..][k - 1..] == es[k..];
    }
  }

  lemma TailsChain(es: seq<Entry>, unknown: seq<Byte>)
    ensures Chain(es, Tails(es, unknown)) && Tails(es, unknown)[|es|] == unknown
  {
    var at := Tails(es, unknown);
    TailAt(es, unknown, |es|);
    assert es[|es|..] == [];
    forall k | 0 <= k < |es|
      ensures at[k] == EncodeEntry(es[k]) + at[k + 1]
    {
      TailAt(es, unknown, k);
      TailAt(es, unknown, k + 1);
      assert es[k..][0] == es[k] && es[k..][1..] == es[k + 1..];
    }
  }

  lemma {:induction false} TailIsShorter(es: seq<Entry>, at: seq<seq<Byte>>, k: nat)
    requires Chain(es, at) && k <= |es|
    ensures |at[k]| <= |at[0]|
    decreases k
  {
    if k > 0 {
      TailIsShorter(es, at, k - 1);
      assert at[k - 1] == EncodeEntry(es[k - 1]) + at[k];
    }
  }

  /** A buffer being filled: the entries, the tails of their encoding, and the buffer as it was. */
  datatype Plan = Plan(es: seq<Entry>, at: seq<seq<Byte>>, was: seq<Byte>)

  /** Behind index i lies the k-th tail, before it nothing has changed, and there is room for all of it. */
  ghost predicate Filled(d: seq<Byte>, i: nat, p: Plan, k: nat) {
    && Chain(p.es, p.at) && k < |p.at| && i <= |d| && d[i..] == p.at[k] && |p.at[0]| <= |d|
    && |p.was| == |d| && (forall x :: 0 <= x < i ==> d[x] == p.was[x])
  }

  /** The index goes down over what an entry takes, and that is all that is written. */
  lemma Extends(c: seq<Byte>, i: nat, d: seq<Byte>, j: nat, p: Plan, k: nat)
    requires k < |p.es| && Filled(c, i, p, k + 1) && j <= i && |d| == |c|
    requires d[j..] == EncodeEntry(p.es[k]) + c[i..] && d[..j] == c[..j]
    ensures Filled(d, j, p, k)
  {
    assert c[..i][..j] == c[..j] && p.was[..i][..j] == p.was[..j];
  }

  lemma WasBefore(d: seq<Byte>, i: nat, p: Plan)
    requires Filled(d, i, p, 0)
    ensures i == |d| - |p.at[0]| && d[|d| - |p.at[0]|..] == p.at[0] && d[..|d| - |p.at[0]|] == p.was[..|d| - |p.at[0]|]
  {
  }

  /** The unknown fields go last, so they are written first. */
  method PutUnknown(d: array<Byte>, unknown: seq<Byte>, ghost es: seq<Entry>) returns (j: nat, ghost p: Plan)
    requires |Encode(es, unknown)| <= d.Length
    modifies d
    ensures p.es == es && |p.at| == |es| + 1 && p.at[0] == Encode(es, unknown) && p.was == old(d[..])
    ensures Filled(d[..], j, p, |es|)
  {
    p := Plan(es, Tails(es, unknown), d[..]);
    TailsChain(es, unknown);
    TailIsShorter(es, p.at, |es|);
    j := Copy(d, d.Length, unknown);
    assert d[j..] == unknown;
  }

  /** One length-delimited field: contents, length, tag. */
  method PutField(d: array<Byte>, i: nat, tag: seq<Byte>, b: seq<Byte>) returns (j: nat)
    requires |tag + Varint(|b|) + b| <= i <= d.Length
    modifies d
    ensures j == i - |tag + Varint(|b|) + b|
    ensures d[j..] == (tag + Varint(|b|) + b) + old(d[i..]) && d[..j] == old(d[..j])
  {
    ghost var before, tail := d[..], d[i..];
    j := Copy(d, i, b);
    j := PutVarint(d, j, |b|);
    assert d[..j] == before[..j];
    j := Copy(d, j, tag);
    Nested(tag, Varint(|b|), b, tail);
    assert d[..j] == before[..j];
  }

  /** One varint field: varint, tag. */
  method PutTagged(d: array<Byte>, i: nat, tag: seq<Byte>, v: nat) returns (j: nat)
    requires |tag + Varint(v)| <= i <= d.Length
    modifies d
    ensures j == i - |tag + Varint(v)|
    ensures d[j..] == (tag + Varint(v)) + old(d[i..]) && d[..j] == old(d[..j])
  {
    ghost var before, tail := d[..], d[i..];
    j := PutVarint(d, i, v);
    j := Copy(d, j, tag);
    Associates(tag, Varint(v), tail);
    assert d[..j] == before[..j];
  }

  lemma RoomForEntry(d: seq<Byte>, i: nat, p: Plan, k: nat)
    requires k < |p.es| && Filled(d, i, p, k + 1)
    ensures |EncodeEntry(p.es[k])| <= i
  {
    TailIsShorter(p.es, p.at, k);
    assert p.at[k] == EncodeEntry(p.es[k]) + p.at[k + 1];
  }

  /** The block of one bytes or string field, nothing if it is empty. */
  method PutBytes(d: array<Byte>, i: nat, tag: seq<Byte>, b: seq<Byte>, ghost p: Plan, ghost k: nat) returns (j: nat)
    requires k < |p.es| && p.es[k] == Bytes(p.es[k].num, b) && tag == Varint(TagOf(p.es[k]))
    requires Filled(d[..], i, p, k + 1)
    modifies d
    ensures Filled(d[..], j, p, k)
  {
    ghost var was := d[..];
    RoomForEntry(d[..], i, p, k);
    j := i;
    if |b| > 0 {
      j := PutField(d, j, tag, b);
    }
    assert d[..][j..] == EncodeEntry(p.es[k]) + was[i..] && d[..][..j] == was[..j];
    Extends(was, i, d[..], j, p, k);
  }

  /** The block of one integer field, nothing if it is zero. */
  method PutNumber(d: array<Byte>, i: nat, tag: seq<Byte>, v: nat, ghost p: Plan, ghost k: nat) returns (j: nat)
    requires k < |p.es| && p.es[k] == Number(p.es[k].num, v) && tag == Varint(TagOf(p.es[k]))
    requires Filled(d[..], i, p, k + 1)
    modifies d
    ensures Filled(d[..], j, p, k)
  {
    ghost var was := d[..];
    RoomForEntry(d[..], i, p, k);
    j := i;
    if v != 0 {
      j := PutTagged(d, j, tag, v);
    }
    assert d[..][j..] == EncodeEntry(p.es[k]) + was[i..] && d[..][..j] == was[..j];
    Extends(was, i, d[..], j, p, k);
  }

  /** The block of one bool field: the byte 1 and the tag, nothing if it is false. */
  method PutBool(d: array<Byte>, i: nat, tag: seq<Byte>, v: bool, ghost p: Plan, ghost k: nat) returns (j: nat)
    requires k < |p.es| && p.es[k].Number? && p.es[k].n == (if v then 1 else 0) && tag == Varint(TagOf(p.es[k]))
    requires Filled(d[..], i, p, k + 1)
    modifies d
    ensures Filled(d[..], j, p, k)
  {
    ghost var was := d[..];
    RoomForEntry(d[..], i, p, k);
    j := i;
    if v {
      j := Copy(d, j, [1]);
      j := Copy(d, j, tag);
      Associates(tag, [1], was[i..]);
    }
    assert d[..][j..] == EncodeEntry(p.es[k]) + was[i..] && d[..][..j] == was[..j];
    Extends(was, i, d[..], j, p, k);
  }

  // ---------- Sizes ----------

  /** Bytes taken by the first k entries. */
  function SizeOf(es: seq<Entry>, k: nat): nat
    requires k <= |es|
  {
    if k == 0 then 0 else SizeOf(es, k - 1) + |EncodeEntry(es[k - 1])|
  }

  lemma {:induction false} SizeIsLength(es: seq<Entry>, k: nat, unknown: seq<Byte>)
    requires k <= |es|
    ensures SizeOf(es, k) + |Tails(es, unknown)[k]| == |Encode(es, unknown)|
    decreases k
  {
    TailsChain(es, unknown);
    if k > 0 {
      SizeIsLength(es, k - 1, unknown);
      assert Tails(es, unknown)[k - 1] == EncodeEntry(es[k - 1]) + Tails(es, unknown)[k];
    }
  }

  lemma SizeIsAll(es: seq<Entry>, unknown: seq<Byte>)
    ensures SizeOf(es, |es|) + |unknown| == |Encode(es, unknown)|
  {
    TailsChain(es, unknown);
    SizeIsLength(es, |es|, unknown);
  }

  /** if l > 0 { n += tag + l + SizeOfVarint(l) } */
  method AddBytes(n: nat, tag: nat, l: nat, ghost es: seq<Entry>, ghost k: nat) returns (m: nat)
    requires k < |es| && es[k].Bytes? && l == |es[k].bytes| && tag == |Varint(TagOf(es[k]))| && n == SizeOf(es, k)
    ensures m == SizeOf(es, k + 1)
  {
    m := n;
    if l > 0 {
      m := m + tag + l + SizeOfVarint(l);
    }
  }

  /** if v != 0 { n += tag + SizeOfVarint(v) } */
  method AddNumber(n: nat, tag: nat, v: nat, ghost es: seq<Entry>, ghost k: nat) returns (m: nat)
    requires k < |es| && es[k] == Number(es[k].num, v) && tag == |Varint(TagOf(es[k]))| && n == SizeOf(es, k)
    ensures m == SizeOf(es, k + 1)
  {
    m := n;
    if v != 0 {
      m := m + tag + SizeOfVarint(v);
    }
  }
}
