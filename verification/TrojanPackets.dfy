/** UDP packets inside a Trojan stream: an address, a length, CRLF and the payload, one after the other. */
module TrojanPackets {
  import opened Basics
  import opened ByteStrings
  import opened RewindStream
  import opened RewindReading
  import opened AddressCodec
  import opened Connection

  const MAX_PACKET_SIZE: nat := 1024 * 8

  datatype Packet = Packet(address: Address, payload: Bytes)

  function EncodePacket(p: Packet): Bytes {
    EncodeAddress(p.address) + (Uint16(|p.payload|) + CRLF + p.payload)
  }

  datatype PacketRead = Got(packet: Packet, rest: Bytes) | Oversize(rest: Bytes) | Lost(reason: Decoded)

  /** What follows the address, read into a buffer of `room` bytes. */
  function DecodeBody(a: Address, bs: Bytes, room: nat): PacketRead {
    if |bs| < 4 then Lost(Short)
    else
      var length, body := ReadUint16(bs[..2]), bs[4..];
      if room < length || length > MAX_PACKET_SIZE then Oversize(body[Min(length, |body|)..])
      else if |body| < length then Lost(Short)
      else Got(Packet(a, body[..length]), body[length..])
  }

  function DecodePacket(bs: Bytes, room: nat, parseIP: IPParser): PacketRead {
    match DecodeAddress(bs, parseIP)
    case Ok(a, rest) => DecodeBody(a, rest, room)
    case failed => Lost(failed)
  }

  // ----- Round trip -----

  /** What a packet's frame says about the length of its address is true. */
  predicate Addressed(p: Packet) {
    p.address.host.Valid() && !p.address.host.Other? && (p.address.host.Name? ==> |p.address.host.name| <= 253)
  }

  /** And so is what it says about the length of its payload. */
  predicate Framed(p: Packet) {
    Addressed(p) && |p.payload| < 0x1_0000
  }

  predicate Deliverable(p: Packet, room: nat) {
    |p.payload| <= room && |p.payload| <= MAX_PACKET_SIZE
  }

  /** The packet as it arrives: with a canonical address, and the port cut to 16 bits. */
  function Arriving(p: Packet, parseIP: IPParser): Packet {
    p.(address := Canonical(p.address, parseIP).(port := p.address.port % 0x1_0000))
  }

  function Expected(p: Packet, rest: Bytes, room: nat, parseIP: IPParser): PacketRead {
    if Deliverable(p, room) then Got(Arriving(p, parseIP), rest) else Oversize(rest)
  }

  /** What the length field announces of a payload: its first bytes, as many as the length modulo 2^16. */
  function Announced(payload: Bytes): Bytes {
    payload[..|payload| % 0x1_0000]
  }

  function Unannounced(payload: Bytes): Bytes {
    payload[|payload| % 0x1_0000..]
  }

  /** On the wire: the address, the length with its high byte first, carriage return and line feed, the payload. */
  lemma PacketLayout(p: Packet)
    requires Framed(p)
    ensures var bs, k := EncodePacket(p), |EncodeAddress(p.address)|;
            && |bs| == k + 4 + |p.payload| && bs[..k] == EncodeAddress(p.address) && bs[k + 4..] == p.payload
            && 256 * (bs[k] as int) + bs[k + 1] as int == |p.payload| && bs[k + 2] == 13 && bs[k + 3] == 10
  {
    var head, bs, k := EncodeAddress(p.address), EncodePacket(p), |EncodeAddress(p.address)|;
    var tail := Uint16(|p.payload|) + CRLF + p.payload;
    assert bs == head + tail;
    assert bs[k] == tail[0] && bs[k + 1] == tail[1] && bs[k + 2] == tail[2] && bs[k + 3] == tail[3];
    assert bs[k + 4..] == tail[4..] == p.payload;
  }

  lemma BodyReads(a: Address, payload: Bytes, rest: Bytes, room: nat)
    ensures DecodeBody(a, Uint16(|payload|) + CRLF + payload + rest, room) ==
            if Deliverable(Packet(a, Announced(payload)), room) then Got(Packet(a, Announced(payload)), Unannounced(payload) + rest)
            else Oversize(Unannounced(payload) + rest)
  {
    var bs, n := Uint16(|payload|) + CRLF + payload + rest, |payload| % 0x1_0000;
    Uint16RoundTrip(|payload|);
    assert bs[..2] == Uint16(|payload|);
    var body := bs[4..];
    assert body == payload + rest;
    assert body[..n] == Announced(payload) && body[n..] == Unannounced(payload) + rest;
  }

  /** Whatever its payload, a packet reads as what its length field announces, and the rest of the payload is left in the stream. */
  lemma PacketReads(p: Packet, rest: Bytes, room: nat, parseIP: IPParser)
    requires Addressed(p)
    ensures DecodePacket(EncodePacket(p) + rest, room, parseIP) ==
            Expected(p.(payload := Announced(p.payload)), Unannounced(p.payload) + rest, room, parseIP)
  {
    var body := Uint16(|p.payload|) + CRLF + p.payload;
    Reassociate(EncodeAddress(p.address), body, rest);
    if p.address.host.Name? {
      NameRoundTrip(p.address, body + rest, parseIP);
    } else {
      IPRoundTrip(p.address, body + rest, parseIP);
    }
    BodyReads(Arriving(p, parseIP).address, p.payload, rest, room);
  }

  /** So it reads back as itself, or as one error if it is too large, with what follows untouched, exactly when its length fits the field. */
  lemma PacketReadsBackIff(p: Packet, rest: Bytes, room: nat, parseIP: IPParser)
    requires Addressed(p)
    ensures DecodePacket(EncodePacket(p) + rest, room, parseIP) == Expected(p, rest, room, parseIP) <==> Framed(p)
  {
    PacketReads(p, rest, room, parseIP);
    AnnouncedIff(p.payload, rest);
    if Framed(p) {
      assert p.(payload := Announced(p.payload)) == p;
    }
  }

  lemma AnnouncedIff(payload: Bytes, rest: Bytes)
    ensures |payload| < 0x1_0000 ==> Announced(payload) == payload && Unannounced(payload) + rest == rest
    ensures |payload| >= 0x1_0000 ==> |Unannounced(payload) + rest| > |rest|
  {
  }

  /** A framed packet reads back as itself, or as one error if it is too large; what follows it is untouched. */
  lemma PacketReadsBack(p: Packet, rest: Bytes, room: nat, parseIP: IPParser)
    requires Framed(p)
    ensures DecodePacket(EncodePacket(p) + rest, room, parseIP) == Expected(p, rest, room, parseIP)
  {
    PacketReadsBackIff(p, rest, room, parseIP);
  }

  lemma PortArrivesIff(p: Packet, rest: Bytes, parseIP: IPParser)
    requires Framed(p)
    ensures Got(Arriving(p, parseIP), rest) == Got(Packet(Canonical(p.address, parseIP), p.payload), rest) <==> Fits(p.address)
  {
    var a := Canonical(p.address, parseIP);
    assert a.port == p.address.port;
    assert a.(port := p.address.port % 0x1_0000) == a <==> 0 <= p.address.port < 0x1_0000;
  }

  /** A packet that is small enough arrives unchanged exactly when its address fits. */
  lemma PacketRoundTripIff(p: Packet, rest: Bytes, room: nat, parseIP: IPParser)
    requires p.address.host.Valid() && Deliverable(p, room)
    requires forall name :: parseIP(name).Some? ==> |name| <= 253
    ensures DecodePacket(EncodePacket(p) + rest, room, parseIP) == Got(Packet(Canonical(p.address, parseIP), p.payload), rest)
            <==> Fits(p.address)
  {
    if Framed(p) {
      PacketReadsBack(p, rest, room, parseIP);
      PortArrivesIff(p, rest, parseIP);
    } else {
      UnframedDiffers(p, rest, room, parseIP);
    }
  }

  lemma UnframedDiffers(p: Packet, rest: Bytes, room: nat, parseIP: IPParser)
    requires p.address.host.Valid() && Deliverable(p, room) && !Framed(p)
    requires forall name :: parseIP(name).Some? ==> |name| <= 253
    ensures DecodePacket(EncodePacket(p) + rest, room, parseIP) != Got(Packet(Canonical(p.address, parseIP), p.payload), rest)
  {
    var bs := EncodePacket(p) + rest;
    match p.address.host
    case Other(kind) => assert bs[0] == kind;
    case Name(name) =>
      assert bs[0] == 3 && bs[1] == |name| % 256;
      var r := DecodeAddress(bs, parseIP);
      assert r.Ok? && r.address.host.Name? ==> |r.address.host.name| < |name|;
  }

  // ----- Sequences of packets -----

  function EncodeAll(ps: seq<Packet>): Bytes {
    if ps == [] then [] else EncodePacket(ps[0]) + EncodeAll(ps[1..])
  }

  /** What a reader sees that keeps reading after errors, up to n packets. */
  function ReadPackets(bs: Bytes, n: nat, room: nat, parseIP: IPParser): (seq<Option<Packet>>, Bytes)
    decreases n
  {
    if n == 0 then ([], bs)
    else
      match DecodePacket(bs, room, parseIP)
      case Lost(_) => ([], bs)
      case Oversize(rest) => var (later, end) := ReadPackets(rest, n - 1, room, parseIP); ([None] + later, end)
      case Got(p, rest) => var (later, end) := ReadPackets(rest, n - 1, room, parseIP); ([Some(p)] + later, end)
  }

  /** Each packet as itself, each oversize one as one error. */
  function Received(ps: seq<Packet>, room: nat, parseIP: IPParser): seq<Option<Packet>> {
    if ps == [] then []
    else [if Deliverable(ps[0], room) then Some(Arriving(ps[0], parseIP)) else None] + Received(ps[1..], room, parseIP)
  }

  /** Any sequence of framed packets reads back in order, and an oversize one does not disturb those after it. */
  lemma {:induction false} SequenceReadsBack(ps: seq<Packet>, rest: Bytes, room: nat, parseIP: IPParser)
    requires forall p <- ps :: Framed(p)
    ensures ReadPackets(EncodeAll(ps) + rest, |ps|, room, parseIP) == (Received(ps, room, parseIP), rest)
  {
    if ps == [] {
      assert EncodeAll(ps) + rest == rest;
    } else {
      Reassociate(EncodePacket(ps[0]), EncodeAll(ps[1..]), rest);
      PacketReadsBack(ps[0], EncodeAll(ps[1..]) + rest, room, parseIP);
      SequenceReadsBack(ps[1..], rest, room, parseIP);
    }
  }

  // ----- Writing and reading -----

  /** Builds the packet in a buffer, for one write to the connection. */
  method BuildPacket(p: Packet) returns (w: Bytes)
    requires p.address.host.Valid()
    ensures w == EncodePacket(p)
  {
    var n, ok;
    w, n, ok := WriteAddress([], p.address);
    w := w + Uint16(|p.payload|);
    w := w + CRLF;
    w := w + p.payload;
  }

  /** One write for the whole packet; the payload's length is reported even when it fails. */
  method WritePacket(conn: Wire, p: Packet) returns (n: nat, ok: bool)
    requires p.address.host.Valid()
    modifies conn
    ensures n == |p.payload|
    ensures ok ==> conn.sent == old(conn.sent) + EncodePacket(p)
    ensures !ok ==> old(conn.sent) <= conn.sent <= old(conn.sent) + EncodePacket(p)
    ensures conn.reliable ==> ok
  {
    var w := BuildPacket(p);
    var written;
    written, ok := conn.Write(w);
    assert w[..|w|] == w;
    n := |p.payload|;
  }

  datatype PacketResult = Arrived(packet: Packet) | BadAddress(why: AddressRead) | ReadFailed(error: ReadError) | TooLarge

  /** What the result says about the bytes that were ahead, and what is ahead now. */
  predicate TellsPacket(r: PacketResult, drained: bool, before: Bytes, now: Bytes, room: nat, parseIP: IPParser) {
    match r
    case Arrived(p) => DecodePacket(before, room, parseIP) == Got(p, now)
    case TooLarge =>
      var d := DecodePacket(before, room, parseIP);
      d.Oversize? && (drained ==> d.rest == now)
    case BadAddress(why) => !why.Done? && Tells(why, before, now, parseIP)
    case ReadFailed(error) => error == EndOfStream ==> DecodePacket(before, room, parseIP) == Lost(Short)
  }

  /** Nothing but the end of the stream kept the read from its answer. */
  predicate Certain(r: PacketResult, drained: bool) {
    match r
    case Arrived(_) => true
    case TooLarge => drained
    case BadAddress(why) => why.Failed? ==> why.error == EndOfStream
    case ReadFailed(error) => error == EndOfStream
  }

  /** So what is ahead decides the result: a packet arrives, is too large, or is not there. */
  lemma CertainIsExact(r: PacketResult, before: Bytes, now: Bytes, room: nat, parseIP: IPParser)
    requires TellsPacket(r, true, before, now, room, parseIP) && Certain(r, true)
    ensures match DecodePacket(before, room, parseIP)
            case Got(p, rest) => r == Arrived(p) && now == rest
            case Oversize(rest) => r == TooLarge && now == rest
            case Lost(reason) => r.ReadFailed? || r.BadAddress?
  {
  }

  /** Reads and drops n bytes, or all there are if they are fewer. */
  method Drain(r: RewindReader, n: nat) returns (drained: bool, ghost used: Bytes)
    requires r.Valid()
    modifies r
    ensures r.Valid() && Advanced(old(r.Abs()), r.Abs(), used) && |used| <= n
    ensures drained ==> |used| == n || r.Abs().Upcoming() == []
    ensures r.reliable && !old(r.buffering) ==> drained
  {
    StandsStill(r.Abs());
    used := [];
    var left := n;
    while left > 0
      invariant r.Valid() && Advanced(old(r.Abs()), r.Abs(), used) && left >= 0 && |used| + left == n
      decreases left, r.idle
    {
      ghost var before := r.Abs();
      var chunk, err := r.ReadSome(left);
      AdvancedTwice(old(r.Abs()), before, r.Abs(), used, chunk);
      used := used + chunk;
      left := left - |chunk|;
      if err.Some? {
        return left == 0 || err.value == EndOfStream, used;
      }
    }
    drained := true;
  }

  lemma OversizeTold(a: Address, tail: Bytes, head: Bytes, used: Bytes, now: Bytes, room: nat)
    requires |head| == 4 && tail == head + (used + now)
    requires room < ReadUint16(head[..2]) || ReadUint16(head[..2]) > MAX_PACKET_SIZE
    ensures var d := DecodeBody(a, tail, room);
            d.Oversize? && (|used| == ReadUint16(head[..2]) || (|used| <= ReadUint16(head[..2]) && now == []) ==> d.rest == now)
  {
    assert tail[..2] == head[..2] && tail[4..] == used + now;
    assert (used + now)[|used|..] == now;
  }

  lemma BodyTold(a: Address, tail: Bytes, head: Bytes, payload: Bytes, now: Bytes, room: nat)
    requires |head| == 4 && tail == head + (payload + now)
    requires |payload| <= ReadUint16(head[..2]) <= MAX_PACKET_SIZE && ReadUint16(head[..2]) <= room
    ensures |payload| == ReadUint16(head[..2]) ==> DecodeBody(a, tail, room) == Got(Packet(a, payload), now)
    ensures |payload| < ReadUint16(head[..2]) && now == [] ==> DecodeBody(a, tail, room) == Lost(Short)
  {
    assert tail[..2] == head[..2] && tail[4..] == payload + now;
    assert (payload + now)[..|payload|] == payload && (payload + now)[|payload|..] == now;
  }

  method ReadPacket(r: RewindReader, room: nat, parseIP: IPParser) returns (result: PacketResult, drained: bool, ghost used: Bytes)
    requires r.Valid()
    modifies r
    ensures r.Valid() && Advanced(old(r.Abs()), r.Abs(), used)
    ensures TellsPacket(result, drained, old(r.Abs().Upcoming()), r.Abs().Upcoming(), room, parseIP)
    ensures r.reliable && !old(r.buffering) ==> Certain(result, drained)
  {
    ghost var start := r.Abs();
    drained := true;
    var address;
    address, used := ReadAddress(r, parseIP);
    if !address.Done? {
      return BadAddress(address), drained, used;
    }
    ghost var body := r.Abs();
    ghost var more;
    result, drained, more := ReadBody(r, address.address, room);
    AdvancedTwice(start, body, r.Abs(), used, more);
    used := used + more;
  }

  /** The part behind the address. */
  method ReadBody(r: RewindReader, a: Address, room: nat) returns (result: PacketResult, drained: bool, ghost used: Bytes)
    requires r.Valid()
    modifies r
    ensures r.Valid() && Advanced(old(r.Abs()), r.Abs(), used) && !result.BadAddress?
    ensures var d := DecodeBody(a, old(r.Abs().Upcoming()), room);
            match result
            case Arrived(p) => d == Got(p, r.Abs().Upcoming())
            case TooLarge => d.Oversize? && (drained ==> d.rest == r.Abs().Upcoming())
            case ReadFailed(error) => error == EndOfStream ==> d == Lost(Short)
            case BadAddress(_) => true
    ensures r.reliable && !old(r.buffering) ==> Certain(result, drained)
  {
    ghost var start := r.Abs();
    drained := true;
    var lengthBytes, err := r.ReadFull(2);
    used := lengthBytes;
    if err.Some? {
      return ReadFailed(err.value), drained, used;
    }
    ghost var middle := r.Abs();
    var crlf;
    crlf, err := r.ReadFull(2);
    AdvancedTwice(start, middle, r.Abs(), lengthBytes, crlf);
    ghost var head := lengthBytes + crlf;
    used := head;
    if err.Some? {
      return ReadFailed(err.value), drained, used;
    }
    assert head[..2] == lengthBytes;
    var length := ReadUint16(lengthBytes);
    middle := r.Abs();
    if room < length || length > MAX_PACKET_SIZE {
      ghost var dropped;
      drained, dropped := Drain(r, length);
      AdvancedTwice(start, middle, r.Abs(), head, dropped);
      Reassociate(head, dropped, r.Abs().Upcoming());
      OversizeTold(a, start.Upcoming(), head, dropped, r.Abs().Upcoming(), room);
      used := used + dropped;
      return TooLarge, drained, used;
    }
    var payload;
    payload, err := r.ReadFull(length);
    AdvancedTwice(start, middle, r.Abs(), head, payload);
    Reassociate(head, payload, r.Abs().Upcoming());
    BodyTold(a, start.Upcoming(), head, payload, r.Abs().Upcoming(), room);
    used := used + payload;
    result := if err.Some? then ReadFailed(err.value) else Arrived(Packet(a, payload));
  }
}
