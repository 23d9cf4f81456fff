/**
 * The Protocol Buffers wire format: varints, length-delimited fields, and a reader
 * that splits a message into its fields and keeps those it does not know.
 */
module ProtoWire {
  import opened Common

  type Byte = x: int | 0 <= x < 256

  const TWO32: int := 0x1_0000_0000
  const TWO63: int := 0x8000_0000_0000_0000
  const TWO64: int := 0x1_0000_0000_0000_0000

  // ---------- Varints ----------

  function Varint(v: nat): (r: seq<Byte>)
    ensures |r| >= 1
  {
    if v < 128 then [v] else [128 + v % 128] + Varint(v / 128)
  }

  /** The number of 7-bit groups, at least one. */
  function SizeOfVarint(v: nat): (n: nat)
    ensures n == |Varint(v)|
  {
    if v < 128 then 1 else 1 + SizeOfVarint(v / 128)
  }

  /** Value and length of the varint at the front. */
  function ReadVarint(bs: seq<Byte>): (r: Option<(nat, nat)>)
    ensures r.Some? ==> 1 <= r.value.1 <= |bs|
  {
    if bs == [] then None
    else if bs[0] < 128 then Some((bs[0], 1))
    else
      match ReadVarint(bs[1..])
      case None => None
      case Some((v, n)) => Some((bs[0] - 128 + 128 * v, n + 1))
  }

  /** At most ten bytes, and a 64-bit value. */
  function ReadVarint64(bs: seq<Byte>): (r: Option<(nat, nat)>)
    ensures r.Some? ==> 1 <= r.value.1 <= |bs|
  {
    match ReadVarint(bs)
    case None => None
    case Some((v, n)) => if n <= 10 && v < TWO64 then Some((v, n)) else None
  }

  lemma {:induction false} ReadsVarint(v: nat, rest: seq<Byte>)
    ensures ReadVarint(Varint(v) + rest) == Some((v, |Varint(v)|))
  {
    if v >= 128 {
      assert (Varint(v) + rest)[1..] == Varint(v / 128) + rest;
      ReadsVarint(v / 128, rest);
    }
  }

  function Pow128(k: nat): nat {
    if k == 0 then 1 else 128 * Pow128(k - 1)
  }

  lemma {:induction false} VarintLength(v: nat, k: nat)
    requires k >= 1
    ensures v < Pow128(k) <==> |Varint(v)| <= k
    decreases k
  {
    if k == 1 {
      assert Pow128(1) == 128;
    } else if v >= 128 {
      VarintLength(v / 128, k - 1);
      DivBelow(v, Pow128(k - 1));
    } else {
      PowGrows(k);
    }
  }

  lemma DivBelow(v: nat, p: nat)
    ensures v < 128 * p <==> v / 128 < p
  {
  }

  lemma {:induction false} PowGrows(k: nat)
    requires k >= 1
    ensures Pow128(k) >= 128
  {
    if k > 1 {
      PowGrows(k - 1);
    }
  }

  lemma Pow128At9And10()
    ensures Pow128(9) == TWO63 && Pow128(10) > TWO64
  {
    assert Pow128(3) == 0x20_0000 by {
      assert Pow128(2) == 0x4000;
    }
    assert Pow128(5) == 0x8_0000_0000 by {
      assert Pow128(4) == 0x1000_0000;
    }
    assert Pow128(7) == 0x2_0000_0000_0000 by {
      assert Pow128(6) == 0x400_0000_0000;
    }
    assert Pow128(9) == TWO63 by {
      assert Pow128(8) == 0x100_0000_0000_0000;
    }
  }

  lemma ReadsVarint64(v: nat, rest: seq<Byte>)
    requires v < TWO64
    ensures ReadVarint64(Varint(v) + rest) == Some((v, |Varint(v)|))
  {
    ReadsVarint(v, rest);
    Pow128At9And10();
    VarintLength(v, 10);
  }

  // ---------- Signed integers ----------

  /** uint64(x) for an int32 or int64 x: two's complement, sign extended. */
  function ToUnsigned(x: int): nat
    requires -TWO63 <= x < TWO63
  {
    if x >= 0 then x else TWO64 + x
  }

  function ToInt64(v: nat): int {
    var w := v % TWO64;
    if w < TWO63 then w else w - TWO64
  }

  function ToInt32(v: nat): int {
    var w := v % TWO32;
    if w < 0x8000_0000 then w else w - TWO32
  }

  lemma SignedRoundTrip(x: int)
    requires -TWO63 <= x < TWO63
    ensures ToUnsigned(x) < TWO64 && (ToUnsigned(x) == 0 <==> x == 0)
    ensures ToInt64(ToUnsigned(x)) == x
    ensures -0x8000_0000 <= x < 0x8000_0000 ==> ToInt32(ToUnsigned(x)) == x
  {
    if x < 0 && -0x8000_0000 <= x {
      assert ToUnsigned(x) == 0xFFFF_FFFF * TWO32 + (TWO32 + x);
    }
  }

  /** A negative number always takes ten bytes. */
  lemma NegativeTakesTenBytes(x: int)
    requires -TWO63 <= x < 0
    ensures |Varint(ToUnsigned(x))| == 10
  {
    Pow128At9And10();
    VarintLength(ToUnsigned(x), 9);
    VarintLength(ToUnsigned(x), 10);
  }

  // ---------- Fields ----------

  /** A field of a message: proto3 leaves out empty bytes and zero numbers. */
  datatype Entry = Bytes(num: nat, bytes: seq<Byte>) | Number(num: nat, n: nat)

  predicate Default(e: Entry) {
    match e case Bytes(_, b) => b == [] case Number(_, n) => n == 0
  }

  /** Field numbers have 29 bits, lengths fit a Go int, numbers are 64-bit. */
  predicate Fits(e: Entry) {
    && 1 <= e.num < 0x2000_0000
    && match e case Bytes(_, b) => |b| < TWO63 case Number(_, n) => n < TWO64
  }

  /** Wire type 2 is length-delimited, wire type 0 a varint. */
  function WireOf(e: Entry): nat {
    if e.Bytes? then 2 else 0
  }

  function TagOf(e: Entry): nat {
    e.num * 8 + WireOf(e)
  }

  function Written(e: Entry): seq<Byte> {
    match e
    case Bytes(_, b) => Varint(TagOf(e)) + Varint(|b|) + b
    case Number(_, n) => Varint(TagOf(e)) + Varint(n)
  }

  function EncodeEntry(e: Entry): seq<Byte> {
    if Default(e) then [] else Written(e)
  }

  /** The entries in order, then the unknown fields as they were received. */
  function Encode(es: seq<Entry>, unknown: seq<Byte>): seq<Byte> {
    if es == [] then unknown else EncodeEntry(es[0]) + Encode(es[1..], unknown)
  }

  // ---------- The reader ----------

  /** A field as read: number, wire type, value or payload, and its own bytes. */
  datatype Raw = Raw(num: nat, wire: nat, value: nat, payload: seq<Byte>, bytes: seq<Byte>)

  function ReadField(bs: seq<Byte>): (r: Option<(Raw, nat)>)
    ensures r.Some? ==> 1 <= r.value.1 <= |bs| && r.value.0.bytes == bs[..r.value.1]
  {
    match ReadVarint64(bs)
    case None => None
    case Some((tag, n)) =>
      var num, wire := tag / 8, tag % 8;
      if num == 0 then None
      else if wire == 0 then
        match ReadVarint64(bs[n..])
        case None => None
        case Some((v, m)) => Some((Raw(num, 0, v, [], bs[..n + m]), n + m))
      else if wire == 2 then
        match ReadVarint64(bs[n..])
        case None => None
        case Some((len, m)) =>
          if n + m + len > |bs| then None
          else Some((Raw(num, 2, 0, bs[n + m..n + m + len], bs[..n + m + len]), n + m + len))
      else if wire == 1 || wire == 5 then
        var len := if wire == 1 then 8 else 4;
        if n + len > |bs| then None
        else Some((Raw(num, wire, 0, bs[n..n + len], bs[..n + len]), n + len))
      else None
  }

  function ReadFields(bs: seq<Byte>): Option<seq<Raw>>
    decreases |bs|
  {
    if bs == [] then Some([])
    else
      match ReadField(bs)
      case None => None
      case Some((r, n)) =>
        match ReadFields(bs[n..])
        case None => None
        case Some(rs) => Some([r] + rs)
  }

  /** The last field with this number and wire type wins. */
  function Last(rs: seq<Raw>, num: nat, wire: nat): Option<Raw> {
    if rs == [] then None
    else if Last(rs[1..], num, wire).Some? then Last(rs[1..], num, wire)
    else if rs[0].num == num && rs[0].wire == wire then Some(rs[0])
    else None
  }

  function GetBytes(rs: seq<Raw>, num: nat): seq<Byte> {
    match Last(rs, num, 2) case Some(r) => r.payload case None => []
  }

  function GetNumber(rs: seq<Raw>, num: nat): nat {
    match Last(rs, num, 0) case Some(r) => r.value case None => 0
  }

  /** The bytes of the fields whose number, with that wire type, is not known. */
  function Unknown(rs: seq<Raw>, known: set<(nat, nat)>): seq<Byte> {
    if rs == [] then []
    else (if (rs[0].num, rs[0].wire) in known then [] else rs[0].bytes) + Unknown(rs[1..], known)
  }

  /** A well-formed run of fields none of which is known. */
  predicate UnknownFields(bs: seq<Byte>, known: set<(nat, nat)>) {
    match ReadFields(bs)
    case None => false
    case Some(rs) => forall r :: r in rs ==> (r.num, r.wire) !in known
  }

  // ---------- Reading back what was encoded ----------

  function RawOf(e: Entry): Raw {
    match e
    case Bytes(num, b) => Raw(num, 2, 0, b, Written(e))
    case Number(num, n) => Raw(num, 0, n, [], Written(e))
  }

  function Raws(es: seq<Entry>): seq<Raw> {
    if es == [] then []
    else (if Default(es[0]) then [] else [RawOf(es[0])]) + Raws(es[1..])
  }

  lemma Cut(a: seq<Byte>, b: seq<Byte>)
    ensures (a + b)[..|a|] == a && (a + b)[|a|..] == b
  {
  }

  lemma ReadsNumber(e: Entry, rest: seq<Byte>)
    requires e.Number? && Fits(e)
    ensures ReadField(Written(e) + rest) == Some((RawOf(e), |Written(e)|))
  {
    var tag, v := Varint(TagOf(e)), Varint(e.n);
    Associates(tag, v, rest);
    ReadsVarint64(TagOf(e), v + rest);
    Cut(tag, v + rest);
    ReadsVarint64(e.n, rest);
    Cut(Written(e), rest);
  }

  lemma ReadsBytes(e: Entry, rest: seq<Byte>)
    requires e.Bytes? && Fits(e)
    ensures ReadField(Written(e) + rest) == Some((RawOf(e), |Written(e)|))
  {
    var tag, len := Varint(TagOf(e)), Varint(|e.bytes|);
    var bs := Written(e) + rest;
    assert bs == tag + (len + (e.bytes + rest));
    ReadsVarint64(TagOf(e), len + (e.bytes + rest));
    assert bs[|tag|..] == len + (e.bytes + rest);
    ReadsVarint64(|e.bytes|, e.bytes + rest);
    var n := |tag| + |len|;
    assert bs[n..n + |e.bytes|] == e.bytes;
    assert bs[..n + |e.bytes|] == Written(e);
  }

  lemma RawsCons(es: seq<Entry>, us: seq<Raw>)
    requires es != []
    ensures var tail := Raws(es[1..]) + us;
            Raws(es) + us == if Default(es[0]) then tail else [RawOf(es[0])] + tail
  {
    PutsBefore(es[0], Raws(es[1..]), us);
  }

  lemma PutsBefore(e: Entry, rs: seq<Raw>, us: seq<Raw>)
    ensures (if Default(e) then [] else [RawOf(e)]) + rs + us
         == if Default(e) then rs + us else [RawOf(e)] + (rs + us)
  {
    Associates(if Default(e) then [] else [RawOf(e)], rs, us);
    assert [] + (rs + us) == rs + us;
  }

  lemma ReadsOneMore(bs: seq<Byte>, r: Raw, rest: seq<Byte>)
    requires ReadField(bs) == Some((r, |bs| - |rest|)) && |rest| < |bs| && bs[|bs| - |rest|..] == rest
    requires ReadFields(rest).Some?
    ensures ReadFields(bs) == Some([r] + ReadFields(rest).value)
  {
  }

  lemma ReadsEntry(e: Entry, rest: seq<Byte>)
    requires Fits(e) && ReadFields(rest).Some?
    ensures ReadFields(Written(e) + rest) == Some([RawOf(e)] + ReadFields(rest).value)
  {
    if e.Bytes? {
      ReadsBytes(e, rest);
    } else {
      ReadsNumber(e, rest);
    }
    assert (Written(e) + rest)[|Written(e)|..] == rest;
    ReadsOneMore(Written(e) + rest, RawOf(e), rest);
  }

  lemma {:induction false} ReadsEntries(es: seq<Entry>, unknown: seq<Byte>)
    requires forall e :: e in es ==> Fits(e)
    requires ReadFields(unknown).Some?
    ensures ReadFields(Encode(es, unknown)) == Some(Raws(es) + ReadFields(unknown).value)
    decreases |es|
  {
    if es == [] {
      assert Raws(es) + ReadFields(unknown).value == ReadFields(unknown).value;
    } else {
      var e, rest := es[0], Encode(es[1..], unknown);
      assert forall x :: x in es[1..] ==> x in es;
      ReadsEntries(es[1..], unknown);
      RawsCons(es, ReadFields(unknown).value);
      if Default(e) {
        assert Encode(es, unknown) == rest;
      } else {
        ReadsEntry(e, rest);
      }
    }
  }

  predicate Distinct(es: seq<Entry>) {
    forall i, j :: 0 <= i < j < |es| ==> es[i].num != es[j].num
  }

  lemma {:induction false} NoLast(rs: seq<Raw>, num: nat, wire: nat)
    requires forall r :: r in rs ==> !(r.num == num && r.wire == wire)
    ensures Last(rs, num, wire) == None
    decreases |rs|
  {
    if rs != [] {
      NoLast(rs[1..], num, wire);
    }
  }

  lemma {:induction false} RawsNumbers(es: seq<Entry>, num: nat)
    requires forall i :: 0 <= i < |es| ==> es[i].num != num
    ensures forall r :: r in Raws(es) ==> r.num != num
    decreases |es|
  {
    if es != [] {
      RawsNumbers(es[1..], num);
    }
  }

  lemma FirstFound(r: Raw, rs: seq<Raw>, num: nat, wire: nat)
    requires Last(rs, num, wire) == None
    ensures Last([r] + rs, num, wire) == if r.num == num && r.wire == wire then Some(r) else None
  {
    assert ([r] + rs)[1..] == rs;
  }

  lemma LaterFound(r: Raw, rs: seq<Raw>, num: nat, wire: nat)
    requires r.num != num
    ensures Last([r] + rs, num, wire) == Last(rs, num, wire)
  {
    assert ([r] + rs)[1..] == rs;
  }

  predicate Found(e: Entry, rs: seq<Raw>) {
    match e
    case Bytes(num, b) => GetBytes(rs, num) == b
    case Number(num, n) => GetNumber(rs, num) == n
  }

  lemma FoundFirst(e: Entry, rs: seq<Raw>)
    requires forall r :: r in rs ==> !(r.num == e.num && r.wire == WireOf(e))
    ensures Found(e, if Default(e) then rs else [RawOf(e)] + rs)
  {
    NoLast(rs, e.num, WireOf(e));
    FirstFound(RawOf(e), rs, e.num, WireOf(e));
  }

  /** Among the fields read back, entry k's number leads to entry k's value. */
  lemma {:induction false} FoundBehind(first: Entry, e: Entry, rs: seq<Raw>)
    requires first.num != e.num && Found(e, rs)
    ensures Found(e, if Default(first) then rs else [RawOf(first)] + rs)
  {
    LaterFound(RawOf(first), rs, e.num, WireOf(e));
  }

  lemma {:induction false} FoundAhead(es: seq<Entry>, us: seq<Raw>)
    requires es != [] && Distinct(es)
    requires forall r :: r in us ==> !(r.num == es[0].num && r.wire == WireOf(es[0]))
    ensures Found(es[0], if Default(es[0]) then Raws(es[1..]) + us else [RawOf(es[0])] + (Raws(es[1..]) + us))
  {
    RawsNumbers(es[1..], es[0].num);
    FoundFirst(es[0], Raws(es[1..]) + us);
  }

  lemma {:induction false} Lookup(es: seq<Entry>, us: seq<Raw>, k: nat)
    requires Distinct(es) && k < |es|
    requires forall r :: r in us ==> !(r.num == es[k].num && r.wire == WireOf(es[k]))
    ensures Found(es[k], Raws(es) + us)
    decreases |es|
  {
    RawsCons(es, us);
    if k == 0 {
      FoundAhead(es, us);
    } else {
      Lookup(es[1..], us, k - 1);
      FoundBehind(es[0], es[k], Raws(es[1..]) + us);
    }
  }

  lemma {:induction false} UnknownOfRaws(es: seq<Entry>, us: seq<Raw>, known: set<(nat, nat)>)
    requires forall e :: e in es ==> (e.num, WireOf(e)) in known
    ensures Unknown(Raws(es) + us, known) == Unknown(us, known)
    decreases |es|
  {
    if es == [] {
      assert Raws(es) + us == us;
    } else {
      assert forall x :: x in es[1..] ==> x in es;
      UnknownOfRaws(es[1..], us, known);
      RawsCons(es, us);
      var tail := Raws(es[1..]) + us;
      assert ([RawOf(es[0])] + tail)[1..] == tail;
      assert es[0] in es;
    }
  }

  /** The first of some unknown fields, and the others. */
  lemma {:induction false} UnknownFirst(bs: seq<Byte>, known: set<(nat, nat)>)
    requires UnknownFields(bs, known) && bs != []
    ensures ReadField(bs).Some?
    ensures var (r, n) := ReadField(bs).value;
            && UnknownFields(bs[n..], known) && (r.num, r.wire) !in known
            && ReadFields(bs).value == [r] + ReadFields(bs[n..]).value
  {
    var (r, n) := ReadField(bs).value;
    var rs := ReadFields(bs[n..]).value;
    assert r in [r] + rs;
    forall x | x in rs
      ensures (x.num, x.wire) !in known
    {
      assert x in [r] + rs;
    }
  }

  lemma UnknownCons(r: Raw, rs: seq<Raw>, known: set<(nat, nat)>)
    requires (r.num, r.wire) !in known
    ensures Unknown([r] + rs, known) == r.bytes + Unknown(rs, known)
  {
    assert ([r] + rs)[1..] == rs;
  }

  /** Unknown fields are kept byte for byte. */
  lemma {:induction false} UnknownKept(bs: seq<Byte>, known: set<(nat, nat)>)
    requires UnknownFields(bs, known)
    ensures Unknown(ReadFields(bs).value, known) == bs
    decreases |bs|
  {
    if bs != [] {
      UnknownFirst(bs, known);
      var (r, n) := ReadField(bs).value;
      UnknownKept(bs[n..], known);
      UnknownCons(r, ReadFields(bs[n..]).value, known);
      assert bs[..n] + bs[n..] == bs;
    }
  }

  /**
   * Everything a message's reader looks up comes back: every entry under its number,
   * and the unknown fields byte for byte.
   */
  lemma ReadsMessage(es: seq<Entry>, unknown: seq<Byte>, known: set<(nat, nat)>)
    requires Distinct(es) && UnknownFields(unknown, known)
    requires forall e :: e in es ==> Fits(e) && (e.num, WireOf(e)) in known
    ensures ReadFields(Encode(es, unknown)).Some?
    ensures var rs := ReadFields(Encode(es, unknown)).value;
            Unknown(rs, known) == unknown && forall k :: 0 <= k < |es| ==> Found(es[k], rs)
  {
    ReadsEntries(es, unknown);
    var us := ReadFields(unknown).value;
    UnknownOfRaws(es, us, known);
    UnknownKept(unknown, known);
    forall k | 0 <= k < |es|
      ensures Found(es[k], Raws(es) + us)
    {
      assert es[k] in es;
      Lookup(es, us, k);
    }
  }
}
