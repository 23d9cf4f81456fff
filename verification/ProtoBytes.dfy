/**
 * The bytes on the wire, spelled out message by message: which tag byte precedes which
 * field, and which fields are left out.
 */
module ProtoBytes {
  import opened ProtoWire
  import opened ProtoMessages
  import P = ProtoPayload

  /** A bytes field: nothing when empty, else its tag, its length and its bytes. */
  function Lengthy(tag: seq<Byte>, b: seq<Byte>): seq<Byte> {
    if b == [] then [] else tag + Varint(|b|) + b
  }

  /** A number field: nothing when zero, else its tag and the number, a negative one in 64-bit two's complement. */
  function Numeric(tag: seq<Byte>, n: int): seq<Byte>
    requires -0x8000_0000_0000_0000 <= n < 0x1_0000_0000_0000_0000
  {
    if n == 0 then [] else tag + Varint(if n < 0 then 0x1_0000_0000_0000_0000 + n else n)
  }

  function Concat(parts: seq<seq<Byte>>): seq<Byte> {
    if parts == [] then [] else parts[0] + Concat(parts[1..])
  }

  lemma {:induction false} EncodesParts(es: seq<Entry>, parts: seq<seq<Byte>>, unknown: seq<Byte>)
    requires |es| == |parts| && forall i :: 0 <= i < |es| ==> EncodeEntry(es[i]) == parts[i]
    ensures Encode(es, unknown) == Concat(parts) + unknown
    decreases |es|
  {
    if es != [] {
      EncodesParts(es[1..], parts[1..], unknown);
      assert parts[0] + Concat(parts[1..]) + unknown == parts[0] + (Concat(parts[1..]) + unknown);
    }
  }

  /** Tags below 16 take one byte. */
  lemma {:induction false} EncodesBytes(num: nat, tag: Byte, b: seq<Byte>)
    requires num * 8 + 2 == tag < 128
    ensures EncodeEntry(Bytes(num, b)) == Lengthy([tag], b)
  {
  }

  lemma {:induction false} EncodesNumber(num: nat, tag: Byte, n: int)
    requires num * 8 == tag < 128 && -0x8000_0000_0000_0000 <= n < 0x1_0000_0000_0000_0000
    ensures EncodeEntry(Number(num, if n < 0 then ToUnsigned(n) else n)) == Numeric([tag], n)
  {
  }

  lemma {:induction false} PubMsgBytes(m: Message)
    requires m.PubMsg?
    ensures Wire(m) == Concat([Lengthy([0x0a], m.clientId), Lengthy([0x12], m.guid), Lengthy([0x1a], m.subject),
                               Lengthy([0x22], m.reply), Lengthy([0x2a], m.data), Lengthy([0x52], m.sha256)])
                       + m.unknown
  {
    EncodesBytes(1, 0x0a, m.clientId);
    EncodesBytes(2, 0x12, m.guid);
    EncodesBytes(3, 0x1a, m.subject);
    EncodesBytes(4, 0x22, m.reply);
    EncodesBytes(5, 0x2a, m.data);
    EncodesBytes(10, 0x52, m.sha256);
    EncodesParts(Entries(m), [Lengthy([0x0a], m.clientId), Lengthy([0x12], m.guid), Lengthy([0x1a], m.subject),
                              Lengthy([0x22], m.reply), Lengthy([0x2a], m.data), Lengthy([0x52], m.sha256)], m.unknown);
  }

  lemma {:induction false} PubAckBytes(m: Message)
    requires m.PubAck?
    ensures Wire(m) == Concat([Lengthy([0x0a], m.guid), Lengthy([0x12], m.error)]) + m.unknown
  {
    EncodesBytes(1, 0x0a, m.guid);
    EncodesBytes(2, 0x12, m.error);
    EncodesParts(Entries(m), [Lengthy([0x0a], m.guid), Lengthy([0x12], m.error)], m.unknown);
  }

  function MsgProtoParts(m: Message): seq<seq<Byte>>
    requires m.MsgProto?
  {
    [Numeric([0x08], m.sequence), Lengthy([0x12], m.subject), Lengthy([0x1a], m.reply), Lengthy([0x22], m.data),
     Numeric([0x28], m.timestamp), if m.redelivered then [0x30, 0x01] else [], Numeric([0x50], m.crc32)]
  }

  lemma {:induction false} MsgProtoTexts(m: Message)
    requires m.MsgProto?
    ensures forall i :: 1 <= i < 4 ==> EncodeEntry(Entries(m)[i]) == MsgProtoParts(m)[i]
  {
    EncodesBytes(2, 0x12, m.subject);
    EncodesBytes(3, 0x1a, m.reply);
    EncodesBytes(4, 0x22, m.data);
  }

  lemma {:induction false} MsgProtoNumbers(m: Message)
    requires m.MsgProto?
    ensures forall i :: i == 0 || i == 4 || i == 6 ==> EncodeEntry(Entries(m)[i]) == MsgProtoParts(m)[i]
  {
    EncodesNumber(1, 0x08, m.sequence);
    EncodesNumber(5, 0x28, m.timestamp);
    EncodesNumber(10, 0x50, m.crc32);
  }

  lemma {:induction false} MsgProtoFlag(m: Message)
    requires m.MsgProto?
    ensures EncodeEntry(Entries(m)[5]) == MsgProtoParts(m)[5]
  {
    assert Varint(48) + Varint(1) == [0x30, 0x01];
  }

  lemma {:induction false} MsgProtoBytes(m: Message)
    requires m.MsgProto?
    ensures Wire(m) == Concat(MsgProtoParts(m)) + m.unknown
  {
    MsgProtoTexts(m);
    MsgProtoNumbers(m);
    MsgProtoFlag(m);
    EncodesParts(Entries(m), MsgProtoParts(m), m.unknown);
  }

  lemma {:induction false} ConnectRequestBytes(m: Message)
    requires m.ConnectRequest?
    ensures Wire(m) == Concat([Lengthy([0x0a], m.clientId), Lengthy([0x12], m.heartbeatInbox)]) + m.unknown
  {
    EncodesBytes(1, 0x0a, m.clientId);
    EncodesBytes(2, 0x12, m.heartbeatInbox);
    EncodesParts(Entries(m), [Lengthy([0x0a], m.clientId), Lengthy([0x12], m.heartbeatInbox)], m.unknown);
  }

  function ConnectResponseParts(m: Message): seq<seq<Byte>>
    requires m.ConnectResponse?
  {
    [Lengthy([0x0a], m.pubPrefix), Lengthy([0x12], m.subRequests), Lengthy([0x1a], m.unsubRequests),
     Lengthy([0x22], m.closeRequests), Lengthy([0x2a], m.error), Lengthy([0x32], m.subCloseRequests),
     Lengthy([0xa2, 0x06], m.publicKey)]
  }

  /** Field 100 has a tag of two bytes. */
  lemma {:induction false} PublicKeyBytes(b: seq<Byte>)
    ensures EncodeEntry(Bytes(100, b)) == Lengthy([0xa2, 0x06], b)
  {
    assert Varint(802) == [0xa2] + Varint(6) == [0xa2, 0x06];
  }

  lemma {:induction false} ConnectResponseTexts(m: Message)
    requires m.ConnectResponse?
    ensures forall i :: 0 <= i < 7 ==> EncodeEntry(Entries(m)[i]) == ConnectResponseParts(m)[i]
  {
    EncodesBytes(1, 0x0a, m.pubPrefix);
    EncodesBytes(2, 0x12, m.subRequests);
    EncodesBytes(3, 0x1a, m.unsubRequests);
    EncodesBytes(4, 0x22, m.closeRequests);
    EncodesBytes(5, 0x2a, m.error);
    EncodesBytes(6, 0x32, m.subCloseRequests);
    PublicKeyBytes(m.publicKey);
  }

  lemma {:induction false} ConnectResponseBytes(m: Message)
    requires m.ConnectResponse?
    ensures Wire(m) == Concat(ConnectResponseParts(m)) + m.unknown
  {
    ConnectResponseTexts(m);
    EncodesParts(Entries(m), ConnectResponseParts(m), m.unknown);
  }

  function SubscriptionParts(m: Message): seq<seq<Byte>>
    requires m.SubscriptionRequest?
  {
    [Lengthy([0x0a], m.clientId), Lengthy([0x12], m.subject), Lengthy([0x1a], m.qGroup), Lengthy([0x22], m.inbox),
     Numeric([0x28], m.maxInFlight), Numeric([0x30], m.ackWaitInSecs), Lengthy([0x3a], m.durableName),
     Numeric([0x50], m.startPosition), Numeric([0x58], m.startSequence), Numeric([0x60], m.startTimeDelta)]
  }

  lemma {:induction false} SubscriptionTexts(m: Message)
    requires m.SubscriptionRequest?
    ensures forall i :: 0 <= i < 4 || i == 6 ==> EncodeEntry(Entries(m)[i]) == SubscriptionParts(m)[i]
  {
    EncodesBytes(1, 0x0a, m.clientId);
    EncodesBytes(2, 0x12, m.subject);
    EncodesBytes(3, 0x1a, m.qGroup);
    EncodesBytes(4, 0x22, m.inbox);
    EncodesBytes(7, 0x3a, m.durableName);
  }

  lemma {:induction false} SubscriptionNumbers(m: Message)
    requires m.SubscriptionRequest?
    ensures forall i :: 4 <= i < 6 || 7 <= i < 10 ==> EncodeEntry(Entries(m)[i]) == SubscriptionParts(m)[i]
  {
    EncodesNumber(5, 0x28, m.maxInFlight);
    EncodesNumber(6, 0x30, m.ackWaitInSecs);
    EncodesNumber(10, 0x50, m.startPosition);
    EncodesNumber(11, 0x58, m.startSequence);
    EncodesNumber(12, 0x60, m.startTimeDelta);
  }

  lemma {:induction false} SubscriptionRequestBytes(m: Message)
    requires m.SubscriptionRequest?
    ensures Wire(m) == Concat(SubscriptionParts(m)) + m.unknown
  {
    SubscriptionTexts(m);
    SubscriptionNumbers(m);
    EncodesParts(Entries(m), SubscriptionParts(m), m.unknown);
  }

  /** The bytes of one header of a payload: key and value are written even when empty. */
  function HeaderBytes(k: seq<Byte>, v: seq<Byte>): seq<Byte> {
    var inner := [0x0a] + Varint(|k|) + k + ([0x12] + Varint(|v|) + v);
    [0x0a] + Varint(|inner|) + inner
  }

  /** The headers, the one ranged over last first, and the body. */
  function PayloadParts(p: P.Payload, order: seq<seq<Byte>>): seq<seq<Byte>>
    requires forall k :: k in order ==> k in p.headers
  {
    if order == [] then [Lengthy([0x12], p.body)]
    else
      var k := order[|order| - 1];
      [HeaderBytes(k, p.headers[k])] + PayloadParts(p, order[..|order| - 1])
  }

  lemma {:induction false} HeaderEncodes(k: seq<Byte>, v: seq<Byte>)
    ensures EncodeEntry(P.HeaderEntry(k, v)) == HeaderBytes(k, v)
  {
    assert P.KeyValue(k, v) == [0x0a] + Varint(|k|) + k + ([0x12] + Varint(|v|) + v);
  }

  lemma {:induction false} PayloadPartsAre(p: P.Payload, order: seq<seq<Byte>>)
    requires forall k :: k in order ==> k in p.headers
    ensures |P.Entries(p, order)| == |PayloadParts(p, order)| == |order| + 1
    ensures forall i :: 0 <= i <= |order| ==> EncodeEntry(P.Entries(p, order)[i]) == PayloadParts(p, order)[i]
    decreases |order|
  {
    if order == [] {
      EncodesBytes(2, 0x12, p.body);
    } else {
      var k := order[|order| - 1];
      PayloadPartsAre(p, order[..|order| - 1]);
      HeaderEncodes(k, p.headers[k]);
    }
  }

  lemma {:induction false} PayloadBytes(p: P.Payload, order: seq<seq<Byte>>)
    requires forall k :: k in order ==> k in p.headers
    ensures P.Wire(p, order) == Concat(PayloadParts(p, order)) + p.unknown
  {
    PayloadPartsAre(p, order);
    EncodesParts(P.Entries(p, order), PayloadParts(p, order), p.unknown);
  }
}
