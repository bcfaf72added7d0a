/**
 How large a PUBLISH will be on the wire, decided before it is sent, against the
 packet MQTT 3.1.1 describes (sections 2.2.3 and 3.3). A topic is its UTF-8
 bytes.
 */
module Packet {
  import opened Codec
  import opened Options

  datatype Qos = AtMostOnce | AtLeastOnce | ExactlyOnce

  const MAX_PACKET: nat := 1_048_576
  const MAX_TOPIC_BYTES: nat := 65_535
  // The most that four bytes of remaining length can say.
  const MAX_REMAINING: nat := 268_435_455

  // ---------------------------------------------------------- the code

  function RemainingLengthBytes(remaining: nat): nat {
    if remaining <= 127 then 1
    else if remaining <= 16_383 then 2
    else if remaining <= 2_097_151 then 3
    else 4
  }

  function PacketSize(topic: seq<Byte>, payload: nat, qos: Qos): nat {
    var identifier := if qos.AtMostOnce? then 0 else 2;
    var remaining := 2 + |topic| + identifier + payload;
    1 + RemainingLengthBytes(remaining) + remaining
  }

  datatype Sent = Published | TopicTooLong | PacketTooLarge(packet: nat)

  // ------------------------------------------------------- the standard

  /** Seven bits a byte, the least significant first; the top bit says another follows. */
  function Length(remaining: nat): seq<Byte> {
    if remaining < 128 then [remaining] else [remaining % 128 + 128] + Length(remaining / 128)
  }

  function U16(value: nat): seq<Byte>
    requires value < 65536
  {
    [value / 256, value % 256]
  }

  datatype Publish = Publish(topic: seq<Byte>, qos: Qos, identifier: nat, payload: seq<Byte>)
  {
    /** The topic and the identifier fit in their two bytes, and there is an identifier above quality 0 only. */
    predicate Fits() {
      && |topic| <= MAX_TOPIC_BYTES
      && if qos.AtMostOnce? then identifier == 0 else 0 < identifier < 65536
    }
  }

  function Flags(qos: Qos): Byte {
    match qos
    case AtMostOnce => 48
    case AtLeastOnce => 50
    case ExactlyOnce => 52
  }

  /** The variable header and the payload. */
  function Rest(p: Publish): seq<Byte>
    requires p.Fits()
  {
    U16(|p.topic|) + p.topic + (if p.qos.AtMostOnce? then [] else U16(p.identifier)) + p.payload
  }

  /** A PUBLISH that is neither retained nor a duplicate. */
  function Encoded(p: Publish): seq<Byte>
    requires p.Fits()
  {
    [Flags(p.qos)] + Length(|Rest(p)|) + Rest(p)
  }

  // ------------------------------------------- the standard, read back

  /** A length of at most `limit` bytes, and how many it took. */
  function ReadLength(bytes: seq<Byte>, limit: nat): Option<(nat, nat)> {
    if bytes == [] || limit == 0 then None
    else if bytes[0] < 128 then Some((bytes[0], 1))
    else
      match ReadLength(bytes[1..], limit - 1)
      case None => None
      case Some(pair) => Some((bytes[0] - 128 + 128 * pair.0, pair.1 + 1))
  }

  function ReadU16(bytes: seq<Byte>): nat
    requires |bytes| >= 2
  {
    var high: nat, low: nat := bytes[0], bytes[1];
    256 * high + low
  }

  function ReadRest(qos: Qos, rest: seq<Byte>): Option<Publish> {
    if |rest| < 2 || |rest| < 2 + ReadU16(rest) then None
    else
      var end := 2 + ReadU16(rest);
      if qos.AtMostOnce? then Some(Publish(rest[2..end], qos, 0, rest[end..]))
      else if |rest| < end + 2 then None
      else Some(Publish(rest[2..end], qos, ReadU16(rest[end..]), rest[end + 2..]))
  }

  function Decoded(packet: seq<Byte>): Option<Publish> {
    if packet == [] || packet[0] !in {48, 50, 52} then None
    else
      match ReadLength(packet[1..], 4)
      case None => None
      case Some(pair) =>
        if 1 + pair.1 + pair.0 != |packet| then None
        else
          var qos := if packet[0] == 48 then AtMostOnce else if packet[0] == 50 then AtLeastOnce else ExactlyOnce;
          ReadRest(qos, packet[1 + pair.1..])
  }

  function Power(limit: nat): nat {
    if limit == 0 then 1 else 128 * Power(limit - 1)
  }

  lemma {:induction false} LengthIsRead(remaining: nat, limit: nat, rest: seq<Byte>)
    requires remaining < Power(limit) && limit > 0
    ensures ReadLength(Length(remaining) + rest, limit) == Some((remaining, |Length(remaining)|))
  {
    var bytes := Length(remaining) + rest;
    if remaining >= 128 {
      LengthIsRead(remaining / 128, limit - 1, rest);
      assert bytes[1..] == Length(remaining / 128) + rest;
      assert bytes[0] == remaining % 128 + 128;
    } else {
      assert bytes[0] == remaining;
    }
  }

  lemma RestIsRead(p: Publish)
    requires p.Fits()
    ensures ReadRest(p.qos, Rest(p)) == Some(p)
  {
    var rest, end := Rest(p), 2 + |p.topic|;
    assert rest[..2] == U16(|p.topic|) && rest[2..end] == p.topic;
    if p.qos.AtMostOnce? {
      assert rest[end..] == p.payload;
    } else {
      assert rest[end..][..2] == U16(p.identifier) && rest[end + 2..] == p.payload;
    }
  }

  lemma LengthOfPacketIsRead(packet: seq<Byte>, first: Byte, rest: seq<Byte>)
    requires packet == [first] + Length(|rest|) + rest && |rest| <= MAX_REMAINING
    ensures ReadLength(packet[1..], 4) == Some((|rest|, |Length(|rest|)|))
    ensures packet[1 + |Length(|rest|)|..] == rest
  {
    assert Power(4) == 268_435_456;
    assert packet[1..] == Length(|rest|) + rest;
    LengthIsRead(|rest|, 4, rest);
  }

  /** The encoding measured here is one a receiver reads back whole. */
  lemma DecodedInvertsEncoded(p: Publish)
    requires p.Fits() && |Rest(p)| <= MAX_REMAINING
    ensures Decoded(Encoded(p)) == Some(p)
  {
    LengthOfPacketIsRead(Encoded(p), Flags(p.qos), Rest(p));
    RestIsRead(p);
  }

  // ---------------------------------------------------------- the claim

  /** The table of sizes is the length of the encoding, up to what four bytes can say and no further. */
  lemma LengthTakes(remaining: nat)
    ensures |Length(remaining)| == RemainingLengthBytes(remaining) <==> remaining <= MAX_REMAINING
  {
    var a, b, c := remaining / 128, remaining / 128 / 128, remaining / 128 / 128 / 128;
    assert c / 128 > 0 ==> |Length(c / 128)| >= 1;
    assert a < 128 || |Length(a)| == 1 + |Length(b)|;
    assert b < 128 || |Length(b)| == 1 + |Length(c)|;
  }

  /** The size computed is the size of the packet sent, exactly while the packet can be encoded at all. */
  lemma SizeIsExact(p: Publish)
    requires p.Fits()
    ensures |Encoded(p)| == PacketSize(p.topic, |p.payload|, p.qos) <==> |Rest(p)| <= MAX_REMAINING
  {
    LengthTakes(|Rest(p)|);
  }

  /** A longer payload never measures smaller, nor the same. */
  lemma LongerIsLarger(topic: seq<Byte>, shorter: nat, longer: nat, qos: Qos)
    requires shorter < longer
    ensures PacketSize(topic, shorter, qos) < PacketSize(topic, longer, qos)
  {}

  /**
   The check before a publish. `identifier` is the one the client would give
   it. What is accepted is exactly what fits the broker's limit once encoded.
   */
  method Check(topic: seq<Byte>, payload: seq<Byte>, qos: Qos, ghost identifier: nat) returns (sent: Sent)
    requires if qos.AtMostOnce? then identifier == 0 else 0 < identifier < 65536
    ensures sent.TopicTooLong? <==> |topic| > MAX_TOPIC_BYTES
    ensures |topic| <= MAX_TOPIC_BYTES ==>
              var p := Publish(topic, qos, identifier, payload);
              && p.Fits()
              && (sent.Published? <==> |Encoded(p)| <= MAX_PACKET)
              && (sent.Published? ==> Decoded(Encoded(p)) == Some(p))
              && (sent.PacketTooLarge? ==> sent.packet > MAX_PACKET)
              && (sent.PacketTooLarge? && |Rest(p)| <= MAX_REMAINING ==> sent.packet == |Encoded(p)|)
  {
    if |topic| > MAX_TOPIC_BYTES {
      return TopicTooLong;
    }
    ghost var p := Publish(topic, qos, identifier, payload);
    SizeIsExact(p);
    var packet := PacketSize(topic, |payload|, qos);
    if packet > MAX_PACKET {
      return PacketTooLarge(packet);
    }
    DecodedInvertsEncoded(p);
    return Published;
  }
}
