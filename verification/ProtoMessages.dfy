/**
 * The messages of the NATS Streaming protocol: each is sized front to back, written back
 * to front into a buffer of exactly that size, and read back by the wire-format reader.
 */
module ProtoMessages {
  import opened Common
  import opened ProtoWire
  import opened ProtoBuffer

  type Int32 = x: int | -0x8000_0000 <= x < 0x8000_0000
  type Int64 = x: int | -TWO63 <= x < TWO63
  type Uint32 = x: int | 0 <= x < TWO32
  type Uint64 = x: int | 0 <= x < TWO64

  datatype Message =
    | PubMsg(
        clientId: seq<Byte>, guid: seq<Byte>, subject: seq<Byte>, reply: seq<Byte>, data: seq<Byte>,
        sha256: seq<Byte>, unknown: seq<Byte>)
    | PubAck(
        guid: seq<Byte>, error: seq<Byte>, unknown: seq<Byte>)
    | MsgProto(
        sequence: Uint64, subject: seq<Byte>, reply: seq<Byte>, data: seq<Byte>, timestamp: Int64,
        redelivered: bool, crc32: Uint32, unknown: seq<Byte>)
    | ConnectRequest(
        clientId: seq<Byte>, heartbeatInbox: seq<Byte>, unknown: seq<Byte>)
    | ConnectResponse(
        pubPrefix: seq<Byte>, subRequests: seq<Byte>, unsubRequests: seq<Byte>, closeRequests: seq<Byte>,
        error: seq<Byte>, subCloseRequests: seq<Byte>, publicKey: seq<Byte>, unknown: seq<Byte>)
    | SubscriptionRequest(
        clientId: seq<Byte>, subject: seq<Byte>, qGroup: seq<Byte>, inbox: seq<Byte>, maxInFlight: Int32,
        ackWaitInSecs: Int32, durableName: seq<Byte>, startPosition: Int32, startSequence: Uint64,
        startTimeDelta: Int64, unknown: seq<Byte>)

  datatype Kind = APubMsg | APubAck | AMsgProto | AConnectRequest | AConnectResponse | ASubscriptionRequest

  function KindOf(m: Message): Kind {
    match m
    case PubMsg(_, _, _, _, _, _, _) => APubMsg
    case PubAck(_, _, _) => APubAck
    case MsgProto(_, _, _, _, _, _, _, _) => AMsgProto
    case ConnectRequest(_, _, _) => AConnectRequest
    case ConnectResponse(_, _, _, _, _, _, _, _) => AConnectResponse
    case SubscriptionRequest(_, _, _, _, _, _, _, _, _, _, _) => ASubscriptionRequest
  }

  // ---------- The schema ----------

  /** The fields in the order in which they are laid out. */
  function Entries(m: Message): seq<Entry> {
    if m.PubMsg? then
      [Bytes(1, m.clientId), Bytes(2, m.guid), Bytes(3, m.subject), Bytes(4, m.reply), Bytes(5, m.data),
       Bytes(10, m.sha256)]
    else if m.PubAck? then
      [Bytes(1, m.guid), Bytes(2, m.error)]
    else if m.MsgProto? then
      [Number(1, m.sequence), Bytes(2, m.subject), Bytes(3, m.reply), Bytes(4, m.data),
       Number(5, ToUnsigned(m.timestamp)), Number(6, if m.redelivered then 1 else 0), Number(10, m.crc32)]
    else if m.ConnectRequest? then
      [Bytes(1, m.clientId), Bytes(2, m.heartbeatInbox)]
    else if m.ConnectResponse? then
      [Bytes(1, m.pubPrefix), Bytes(2, m.subRequests), Bytes(3, m.unsubRequests), Bytes(4, m.closeRequests),
       Bytes(5, m.error), Bytes(6, m.subCloseRequests), Bytes(100, m.publicKey)]
    else
      [Bytes(1, m.clientId), Bytes(2, m.subject), Bytes(3, m.qGroup), Bytes(4, m.inbox),
       Number(5, ToUnsigned(m.maxInFlight)), Number(6, ToUnsigned(m.ackWaitInSecs)), Bytes(7, m.durableName),
       Number(10, ToUnsigned(m.startPosition)), Number(11, m.startSequence),
       Number(12, ToUnsigned(m.startTimeDelta))]
  }

  /** Field numbers and wire types of the schema. */
  function Known(kind: Kind): set<(nat, nat)> {
    match kind
    case APubMsg => {(1, 2), (2, 2), (3, 2), (4, 2), (5, 2), (10, 2)}
    case APubAck => {(1, 2), (2, 2)}
    case AMsgProto => {(1, 0), (2, 2), (3, 2), (4, 2), (5, 0), (6, 0), (10, 0)}
    case AConnectRequest => {(1, 2), (2, 2)}
    case AConnectResponse => {(1, 2), (2, 2), (3, 2), (4, 2), (5, 2), (6, 2), (100, 2)}
    case ASubscriptionRequest => {(1, 2), (2, 2), (3, 2), (4, 2), (5, 0), (6, 0), (7, 2), (10, 0), (11, 0), (12, 0)}
  }

  /** A message put together from the fields that were read. */
  function FromFields(kind: Kind, rs: seq<Raw>): Message {
    match kind
    case APubMsg =>
      PubMsg(
        GetBytes(rs, 1), GetBytes(rs, 2), GetBytes(rs, 3), GetBytes(rs, 4), GetBytes(rs, 5),
        GetBytes(rs, 10), Unknown(rs, Known(kind)))
    case APubAck =>
      PubAck(
        GetBytes(rs, 1), GetBytes(rs, 2), Unknown(rs, Known(kind)))
    case AMsgProto =>
      MsgProto(
        GetNumber(rs, 1) % TWO64, GetBytes(rs, 2), GetBytes(rs, 3), GetBytes(rs, 4),
        ToInt64(GetNumber(rs, 5)), GetNumber(rs, 6) != 0, GetNumber(rs, 10) % TWO32,
        Unknown(rs, Known(kind)))
    case AConnectRequest =>
      ConnectRequest(
        GetBytes(rs, 1), GetBytes(rs, 2), Unknown(rs, Known(kind)))
    case AConnectResponse =>
      ConnectResponse(
        GetBytes(rs, 1), GetBytes(rs, 2), GetBytes(rs, 3), GetBytes(rs, 4), GetBytes(rs, 5), GetBytes(rs, 6),
        GetBytes(rs, 100), Unknown(rs, Known(kind)))
    case ASubscriptionRequest =>
      SubscriptionRequest(
        GetBytes(rs, 1), GetBytes(rs, 2), GetBytes(rs, 3), GetBytes(rs, 4), ToInt32(GetNumber(rs, 5)),
        ToInt32(GetNumber(rs, 6)), GetBytes(rs, 7), ToInt32(GetNumber(rs, 10)), GetNumber(rs, 11) % TWO64,
        ToInt64(GetNumber(rs, 12)), Unknown(rs, Known(kind)))
  }

  function Wire(m: Message): seq<Byte> {
    Encode(Entries(m), m.unknown)
  }

  function Decode(kind: Kind, bs: seq<Byte>): Option<Message> {
    match ReadFields(bs) case None => None case Some(rs) => Some(FromFields(kind, rs))
  }

  /** Every field's length is a Go int, and the unknown bytes are fields the schema does not have. */
  predicate Readable(m: Message) {
    (forall e :: e in Entries(m) ==> Fits(e)) && UnknownFields(m.unknown, Known(KindOf(m)))
  }

  /** The fields by position. */
  predicate Laid(m: Message, es: seq<Entry>) {
    match KindOf(m)
    case APubMsg =>
      && |es| == 6
      && es[0] == Bytes(1, m.clientId) && es[1] == Bytes(2, m.guid) && es[2] == Bytes(3, m.subject)
      && es[3] == Bytes(4, m.reply) && es[4] == Bytes(5, m.data) && es[5] == Bytes(10, m.sha256)
    case APubAck =>
      && |es| == 2
      && es[0] == Bytes(1, m.guid) && es[1] == Bytes(2, m.error)
    case AMsgProto =>
      && |es| == 7
      && es[0] == Number(1, m.sequence) && es[1] == Bytes(2, m.subject) && es[2] == Bytes(3, m.reply)
      && es[3] == Bytes(4, m.data) && es[4] == Number(5, ToUnsigned(m.timestamp))
      && es[5] == Number(6, if m.redelivered then 1 else 0) && es[6] == Number(10, m.crc32)
    case AConnectRequest =>
      && |es| == 2
      && es[0] == Bytes(1, m.clientId) && es[1] == Bytes(2, m.heartbeatInbox)
    case AConnectResponse =>
      && |es| == 7
      && es[0] == Bytes(1, m.pubPrefix) && es[1] == Bytes(2, m.subRequests)
      && es[2] == Bytes(3, m.unsubRequests) && es[3] == Bytes(4, m.closeRequests)
      && es[4] == Bytes(5, m.error) && es[5] == Bytes(6, m.subCloseRequests)
      && es[6] == Bytes(100, m.publicKey)
    case ASubscriptionRequest =>
      && |es| == 10
      && es[0] == Bytes(1, m.clientId) && es[1] == Bytes(2, m.subject) && es[2] == Bytes(3, m.qGroup)
      && es[3] == Bytes(4, m.inbox) && es[4] == Number(5, ToUnsigned(m.maxInFlight))
      && es[5] == Number(6, ToUnsigned(m.ackWaitInSecs)) && es[6] == Bytes(7, m.durableName)
      && es[7] == Number(10, ToUnsigned(m.startPosition)) && es[8] == Number(11, m.startSequence)
      && es[9] == Number(12, ToUnsigned(m.startTimeDelta))
  }

  lemma Layout(m: Message) returns (es: seq<Entry>)
    ensures Wire(m) == Encode(es, m.unknown) && Laid(m, es)
  {
    es := Entries(m);
  }

  // ---------- Reading back ----------

  /** No number comes twice. */
  lemma Lawful(m: Message)
    ensures Laid(m, Entries(m)) && Distinct(Entries(m))
  {
  }

  lemma KnownAt(m: Message, es: seq<Entry>, k: nat)
    requires Laid(m, es) && k < |es|
    ensures (es[k].num, WireOf(es[k])) in Known(KindOf(m))
  {
  }

  /** The schema knows every field. */
  lemma AllKnown(m: Message, es: seq<Entry>)
    requires Laid(m, es)
    ensures forall e :: e in es ==> (e.num, WireOf(e)) in Known(KindOf(m))
  {
    forall k | 0 <= k < |es|
      ensures (es[k].num, WireOf(es[k])) in Known(KindOf(m))
    {
      KnownAt(m, es, k);
    }
  }

  /** The fields of the schema give the message back. */
  lemma Rebuilt(m: Message, es: seq<Entry>, rs: seq<Raw>)
    requires Laid(m, es) && Unknown(rs, Known(KindOf(m))) == m.unknown
    requires forall k :: 0 <= k < |es| ==> Found(es[k], rs)
    ensures FromFields(KindOf(m), rs) == m
  {
    match m
    case PubMsg(_, _, _, _, _, _, _) =>
      assert Found(es[0], rs) && Found(es[1], rs) && Found(es[2], rs) && Found(es[3], rs)
          && Found(es[4], rs) && Found(es[5], rs);
    case PubAck(_, _, _) =>
      assert Found(es[0], rs) && Found(es[1], rs);
    case MsgProto(_, _, _, _, _, _, _, _) =>
      SignedRoundTrip(m.timestamp);
      assert Found(es[0], rs) && Found(es[1], rs) && Found(es[2], rs) && Found(es[3], rs)
          && Found(es[4], rs) && Found(es[5], rs) && Found(es[6], rs);
    case ConnectRequest(_, _, _) =>
      assert Found(es[0], rs) && Found(es[1], rs);
    case ConnectResponse(_, _, _, _, _, _, _, _) =>
      assert Found(es[0], rs) && Found(es[1], rs) && Found(es[2], rs) && Found(es[3], rs)
          && Found(es[4], rs) && Found(es[5], rs) && Found(es[6], rs);
    case SubscriptionRequest(_, _, _, _, _, _, _, _, _, _, _) => RebuiltSubscriptionRequest(m, es, rs);
  }

  lemma RebuiltSubscriptionRequest(m: Message, es: seq<Entry>, rs: seq<Raw>)
    requires m.SubscriptionRequest? && Laid(m, es) && Unknown(rs, Known(KindOf(m))) == m.unknown
    requires forall k :: 0 <= k < |es| ==> Found(es[k], rs)
    ensures FromFields(KindOf(m), rs) == m
  {
    SignedRoundTrip(m.maxInFlight);
    SignedRoundTrip(m.ackWaitInSecs);
    SignedRoundTrip(m.startPosition);
    SignedRoundTrip(m.startTimeDelta);
    assert Found(es[0], rs) && Found(es[1], rs) && Found(es[2], rs) && Found(es[3], rs)
        && Found(es[4], rs) && Found(es[5], rs) && Found(es[6], rs) && Found(es[7], rs)
        && Found(es[8], rs) && Found(es[9], rs);
  }

  /** The reader gives back every field and the unknown bytes. */
  lemma RoundTrip(m: Message)
    requires Readable(m)
    ensures Decode(KindOf(m), Wire(m)) == Some(m)
  {
    Lawful(m);
    AllKnown(m, Entries(m));
    ReadsMessage(Entries(m), m.unknown, Known(KindOf(m)));
    Rebuilt(m, Entries(m), ReadFields(Wire(m)).value);
  }

  // ---------- Sizing ----------

  method SizePubMsg(m: Message) returns (n: nat)
    requires m.PubMsg?
    ensures n == |Wire(m)|
  {
    ghost var es := Layout(m);
    n := 0;
    n := AddBytes(n, 1, |m.clientId|, es, 0);
    n := AddBytes(n, 1, |m.guid|, es, 1);
    n := AddBytes(n, 1, |m.subject|, es, 2);
    n := AddBytes(n, 1, |m.reply|, es, 3);
    n := AddBytes(n, 1, |m.data|, es, 4);
    n := AddBytes(n, 1, |m.sha256|, es, 5);
    n := n + |m.unknown|;
    SizeIsAll(es, m.unknown);
  }

  method SizePubAck(m: Message) returns (n: nat)
    requires m.PubAck?
    ensures n == |Wire(m)|
  {
    ghost var es := Layout(m);
    n := 0;
    n := AddBytes(n, 1, |m.guid|, es, 0);
    n := AddBytes(n, 1, |m.error|, es, 1);
    n := n + |m.unknown|;
    SizeIsAll(es, m.unknown);
  }

  method SizeMsgProto(m: Message) returns (n: nat)
    requires m.MsgProto?
    ensures n == |Wire(m)|
  {
    ghost var es := Layout(m);
    n := 0;
    n := AddNumber(n, 1, m.sequence, es, 0);
    n := AddBytes(n, 1, |m.subject|, es, 1);
    n := AddBytes(n, 1, |m.reply|, es, 2);
    n := AddBytes(n, 1, |m.data|, es, 3);
    n := AddNumber(n, 1, ToUnsigned(m.timestamp), es, 4);
    if m.redelivered {
      n := n + 2;
    }
    n := AddNumber(n, 1, m.crc32, es, 6);
    n := n + |m.unknown|;
    SizeIsAll(es, m.unknown);
  }

  method SizeConnectRequest(m: Message) returns (n: nat)
    requires m.ConnectRequest?
    ensures n == |Wire(m)|
  {
    ghost var es := Layout(m);
    n := 0;
    n := AddBytes(n, 1, |m.clientId|, es, 0);
    n := AddBytes(n, 1, |m.heartbeatInbox|, es, 1);
    n := n + |m.unknown|;
    SizeIsAll(es, m.unknown);
  }

  method SizeConnectResponse(m: Message) returns (n: nat)
    requires m.ConnectResponse?
    ensures n == |Wire(m)|
  {
    ghost var es := Layout(m);
    n := 0;
    n := AddBytes(n, 1, |m.pubPrefix|, es, 0);
    n := AddBytes(n, 1, |m.subRequests|, es, 1);
    n := AddBytes(n, 1, |m.unsubRequests|, es, 2);
    n := AddBytes(n, 1, |m.closeRequests|, es, 3);
    n := AddBytes(n, 1, |m.error|, es, 4);
    n := AddBytes(n, 1, |m.subCloseRequests|, es, 5);
    n := AddBytes(n, 2, |m.publicKey|, es, 6);
    n := n + |m.unknown|;
    SizeIsAll(es, m.unknown);
  }

  method SizeSubscriptionRequest(m: Message) returns (n: nat)
    requires m.SubscriptionRequest?
    ensures n == |Wire(m)|
  {
    ghost var es := Layout(m);
    n := 0;
    n := AddBytes(n, 1, |m.clientId|, es, 0);
    n := AddBytes(n, 1, |m.subject|, es, 1);
    n := AddBytes(n, 1, |m.qGroup|, es, 2);
    n := AddBytes(n, 1, |m.inbox|, es, 3);
    n := AddNumber(n, 1, ToUnsigned(m.maxInFlight), es, 4);
    n := AddNumber(n, 1, ToUnsigned(m.ackWaitInSecs), es, 5);
    n := AddBytes(n, 1, |m.durableName|, es, 6);
    n := AddNumber(n, 1, ToUnsigned(m.startPosition), es, 7);
    n := AddNumber(n, 1, m.startSequence, es, 8);
    n := AddNumber(n, 1, ToUnsigned(m.startTimeDelta), es, 9);
    n := n + |m.unknown|;
    SizeIsAll(es, m.unknown);
  }

  method SizeVT(m: Message) returns (n: nat)
    ensures n == |Wire(m)|
  {
    match m
    case PubMsg(_, _, _, _, _, _, _) => n := SizePubMsg(m);
    case PubAck(_, _, _) => n := SizePubAck(m);
    case MsgProto(_, _, _, _, _, _, _, _) => n := SizeMsgProto(m);
    case ConnectRequest(_, _, _) => n := SizeConnectRequest(m);
    case ConnectResponse(_, _, _, _, _, _, _, _) => n := SizeConnectResponse(m);
    case SubscriptionRequest(_, _, _, _, _, _, _, _, _, _, _) => n := SizeSubscriptionRequest(m);
  }

  // ---------- Writing ----------

  method PutPubMsg(m: Message, d: array<Byte>, i0: nat, ghost p: Plan) returns (i: nat)
    requires m.PubMsg? && Laid(m, p.es) && Filled(d[..], i0, p, |p.es|)
    modifies d
    ensures Filled(d[..], i, p, 0)
  {
    i := i0;
    i := PutBytes(d, i, [0x52], m.sha256, p, 5);
    i := PutBytes(d, i, [0x2a], m.data, p, 4);
    i := PutBytes(d, i, [0x22], m.reply, p, 3);
    i := PutBytes(d, i, [0x1a], m.subject, p, 2);
    i := PutBytes(d, i, [0x12], m.guid, p, 1);
    i := PutBytes(d, i, [0xa], m.clientId, p, 0);
  }

  method PutPubAck(m: Message, d: array<Byte>, i0: nat, ghost p: Plan) returns (i: nat)
    requires m.PubAck? && Laid(m, p.es) && Filled(d[..], i0, p, |p.es|)
    modifies d
    ensures Filled(d[..], i, p, 0)
  {
    i := i0;
    i := PutBytes(d, i, [0x12], m.error, p, 1);
    i := PutBytes(d, i, [0xa], m.guid, p, 0);
  }

  method PutMsgProto(m: Message, d: array<Byte>, i0: nat, ghost p: Plan) returns (i: nat)
    requires m.MsgProto? && Laid(m, p.es) && Filled(d[..], i0, p, |p.es|)
    modifies d
    ensures Filled(d[..], i, p, 0)
  {
    i := i0;
    i := PutNumber(d, i, [0x50], m.crc32, p, 6);
    i := PutBool(d, i, [0x30], m.redelivered, p, 5);
    i := PutNumber(d, i, [0x28], ToUnsigned(m.timestamp), p, 4);
    i := PutBytes(d, i, [0x22], m.data, p, 3);
    i := PutBytes(d, i, [0x1a], m.reply, p, 2);
    i := PutBytes(d, i, [0x12], m.subject, p, 1);
    i := PutNumber(d, i, [0x8], m.sequence, p, 0);
  }

  method PutConnectRequest(m: Message, d: array<Byte>, i0: nat, ghost p: Plan) returns (i: nat)
    requires m.ConnectRequest? && Laid(m, p.es) && Filled(d[..], i0, p, |p.es|)
    modifies d
    ensures Filled(d[..], i, p, 0)
  {
    i := i0;
    i := PutBytes(d, i, [0x12], m.heartbeatInbox, p, 1);
    i := PutBytes(d, i, [0xa], m.clientId, p, 0);
  }

  method PutConnectResponse(m: Message, d: array<Byte>, i0: nat, ghost p: Plan) returns (i: nat)
    requires m.ConnectResponse? && Laid(m, p.es) && Filled(d[..], i0, p, |p.es|)
    modifies d
    ensures Filled(d[..], i, p, 0)
  {
    i := i0;
    i := PutBytes(d, i, [0xa2, 0x6], m.publicKey, p, 6);
    i := PutBytes(d, i, [0x32], m.subCloseRequests, p, 5);
    i := PutBytes(d, i, [0x2a], m.error, p, 4);
    i := PutBytes(d, i, [0x22], m.closeRequests, p, 3);
    i := PutBytes(d, i, [0x1a], m.unsubRequests, p, 2);
    i := PutBytes(d, i, [0x12], m.subRequests, p, 1);
    i := PutBytes(d, i, [0xa], m.pubPrefix, p, 0);
  }

  method PutSubscriptionRequest(m: Message, d: array<Byte>, i0: nat, ghost p: Plan) returns (i: nat)
    requires m.SubscriptionRequest? && Laid(m, p.es) && Filled(d[..], i0, p, |p.es|)
    modifies d
    ensures Filled(d[..], i, p, 0)
  {
    i := i0;
    i := PutNumber(d, i, [0x60], ToUnsigned(m.startTimeDelta), p, 9);
    i := PutNumber(d, i, [0x58], m.startSequence, p, 8);
    i := PutNumber(d, i, [0x50], ToUnsigned(m.startPosition), p, 7);
    i := PutBytes(d, i, [0x3a], m.durableName, p, 6);
    i := PutNumber(d, i, [0x30], ToUnsigned(m.ackWaitInSecs), p, 5);
    i := PutNumber(d, i, [0x28], ToUnsigned(m.maxInFlight), p, 4);
    i := PutBytes(d, i, [0x22], m.inbox, p, 3);
    i := PutBytes(d, i, [0x1a], m.qGroup, p, 2);
    i := PutBytes(d, i, [0x12], m.subject, p, 1);
    i := PutBytes(d, i, [0xa], m.clientId, p, 0);
  }

  method PutFields(m: Message, d: array<Byte>, i0: nat, ghost p: Plan) returns (i: nat)
    requires Laid(m, p.es) && Filled(d[..], i0, p, |p.es|)
    modifies d
    ensures Filled(d[..], i, p, 0)
  {
    match m
    case PubMsg(_, _, _, _, _, _, _) => i := PutPubMsg(m, d, i0, p);
    case PubAck(_, _, _) => i := PutPubAck(m, d, i0, p);
    case MsgProto(_, _, _, _, _, _, _, _) => i := PutMsgProto(m, d, i0, p);
    case ConnectRequest(_, _, _) => i := PutConnectRequest(m, d, i0, p);
    case ConnectResponse(_, _, _, _, _, _, _, _) => i := PutConnectResponse(m, d, i0, p);
    case SubscriptionRequest(_, _, _, _, _, _, _, _, _, _, _) => i := PutSubscriptionRequest(m, d, i0, p);
  }

  /** Into any buffer that is large enough: the unknown bytes, then the fields, last to first. */
  method MarshalToSizedBuffer(m: Message, d: array<Byte>) returns (n: nat)
    requires |Wire(m)| <= d.Length
    modifies d
    ensures n == |Wire(m)| && d[d.Length - n..] == Wire(m) && d[..d.Length - n] == old(d[..d.Length - n])
  {
    ghost var es := Layout(m);
    var i, p := PutUnknown(d, m.unknown, es);
    i := PutFields(m, d, i, p);
    n := d.Length - i;
    WasBefore(d[..], i, p);
  }

  /** The buffer of the computed size is filled exactly, and the reader gives the message back. */
  method Marshal(m: Message) returns (d: array<Byte>)
    ensures fresh(d) && d[..] == Wire(m)
    ensures Readable(m) ==> Decode(KindOf(m), d[..]) == Some(m)
  {
    var size := SizeVT(m);
    d := new Byte[size](_ => 0);
    var n := MarshalToSizedBuffer(m, d);
    assert n == size;
    if Readable(m) {
      RoundTrip(m);
    }
  }
}
