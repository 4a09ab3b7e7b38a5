/** SOCKS-style addresses (section 5 of RFC 1928) as they are written to and read from a stream. */
module AddressCodec {
  import opened Basics
  import opened ByteStrings
  import opened RewindStream
  import opened RewindReading

  datatype Host = V4(ip: Bytes) | V6(ip: Bytes) | Name(name: Bytes) | Other(kind: Byte) {
    predicate Valid() {
      match this
      case V4(ip) => |ip| == 4
      case V6(ip) => |ip| == 16
      case Name(_) => true
      case Other(kind) => kind != 1 && kind != 3 && kind != 4
    }
  }

  datatype Address = Address(host: Host, port: int)

  type IPHost = h: Host | (h.V4? || h.V6?) && h.Valid() witness V4([0, 0, 0, 0])

  /** Recognises the text form of an IP address. */
  type IPParser = Bytes -> Option<IPHost>

  // ----- The codec on values -----

  function EncodeAddress(a: Address): Bytes {
    match a.host
    case V4(ip) => [1] + ip + Uint16(a.port)
    case V6(ip) => [4] + ip + Uint16(a.port)
    case Name(name) => [3, |name| % 256] + name + Uint16(a.port)
    case Other(kind) => [kind]
  }

  datatype Decoded = Ok(address: Address, rest: Bytes) | Short | BadType | Panics

  /** A name that is the text of an IP address counts as that address. */
  function HostOf(name: Bytes, parseIP: IPParser): Host {
    match parseIP(name)
    case Some(ip) => ip
    case None => Name(name)
  }

  /** A name whose length byte n is read into (n + 2) % 256 bytes. */
  function DecodeName(n: Byte, bs: Bytes, parseIP: IPParser): Decoded {
    var size := (n + 2) % 256;
    if |bs| < size then Short
    else if n > 253 then Panics
    else Ok(Address(HostOf(bs[..n], parseIP), ReadUint16(bs[n..n + 2])), bs[n + 2..])
  }

  function DecodeAddress(bs: Bytes, parseIP: IPParser): Decoded {
    if bs == [] then Short
    else if bs[0] == 1 then
      if |bs| < 7 then Short else Ok(Address(V4(bs[1..5]), ReadUint16(bs[5..7])), bs[7..])
    else if bs[0] == 4 then
      if |bs| < 19 then Short else Ok(Address(V6(bs[1..17]), ReadUint16(bs[17..19])), bs[19..])
    else if bs[0] == 3 then
      if |bs| < 2 then Short else DecodeName(bs[1], bs[2..], parseIP)
    else BadType
  }

  predicate Fits(a: Address) {
    0 <= a.port < 0x1_0000 && !a.host.Other? && (a.host.Name? ==> |a.host.name| <= 253)
  }

  function Canonical(a: Address, parseIP: IPParser): Address {
    if a.host.Name? then a.(host := HostOf(a.host.name, parseIP)) else a
  }

  /** The layout of the standard: a kind, the host, and the port with its high byte first. */
  lemma AddressLayout(a: Address)
    requires a.host.Valid() && Fits(a)
    ensures var bs := EncodeAddress(a); var n := |bs|;
            && n >= 3 && 256 * (bs[n - 2] as int) + bs[n - 1] as int == a.port
            && match a.host
               case V4(ip) => n == 7 && bs[0] == 1 && bs[1..5] == ip
               case V6(ip) => n == 19 && bs[0] == 4 && bs[1..17] == ip
               case Name(name) => n == |name| + 4 && bs[0] == 3 && bs[1] == |name| && bs[2..n - 2] == name
               case Other(_) => false
  {
  }

  lemma IPRoundTrip(a: Address, rest: Bytes, parseIP: IPParser)
    requires a.host.Valid() && (a.host.V4? || a.host.V6?)
    ensures DecodeAddress(EncodeAddress(a) + rest, parseIP) == Ok(a.(port := a.port % 0x1_0000), rest)
  {
    var bs, end := EncodeAddress(a) + rest, 1 + |a.host.ip|;
    Uint16RoundTrip(a.port);
    assert bs[1..end] == a.host.ip;
    assert bs[end..end + 2] == Uint16(a.port);
    assert bs[end + 2..] == rest;
  }

  lemma TailParts(name: Bytes, port: Bytes, rest: Bytes)
    requires |port| == 2
    ensures var tail := name + port + rest;
            && tail[..|name|] == name && tail[|name|..|name| + 2] == port && tail[|name| + 2..] == rest
  {
  }

  lemma NameRoundTrip(a: Address, rest: Bytes, parseIP: IPParser)
    requires a.host.Name? && |a.host.name| <= 253
    ensures DecodeAddress(EncodeAddress(a) + rest, parseIP) == Ok(Canonical(a, parseIP).(port := a.port % 0x1_0000), rest)
  {
    var bs, name := EncodeAddress(a) + rest, a.host.name;
    Uint16RoundTrip(a.port);
    assert bs[0] == 3 && bs[1] == |name| && bs[2..] == name + Uint16(a.port) + rest;
    TailParts(name, Uint16(a.port), rest);
  }

  /** A longer name is cut short, and what follows it is misread. */
  lemma LongNameMisreads(a: Address, rest: Bytes, parseIP: IPParser)
    requires a.host.Name? && |a.host.name| > 253
    ensures var r := DecodeAddress(EncodeAddress(a) + rest, parseIP);
            if |a.host.name| % 256 > 253 then r == Panics else r.Ok? && |r.rest| > |rest|
  {
    var bs, name := EncodeAddress(a) + rest, a.host.name;
    assert bs[0] == 3 && bs[1] == |name| % 256;
    assert |bs[2..]| == |name| + 2 + |rest|;
  }

  /** An address survives being written and read exactly when it fits. */
  lemma AddressRoundTripIff(a: Address, rest: Bytes, parseIP: IPParser)
    requires a.host.Valid()
    ensures DecodeAddress(EncodeAddress(a) + rest, parseIP) == Ok(Canonical(a, parseIP), rest) <==> Fits(a)
  {
    match a.host
    case V4(_) => IPRoundTrip(a, rest, parseIP);
    case V6(_) => IPRoundTrip(a, rest, parseIP);
    case Name(name) =>
      if |name| <= 253 {
        NameRoundTrip(a, rest, parseIP);
      } else {
        LongNameMisreads(a, rest, parseIP);
      }
    case Other(kind) => assert (EncodeAddress(a) + rest)[0] == kind;
  }

  /** Whatever is read fits and is canonical, so that passing it on changes nothing. */
  lemma DecodedPassesOn(bs: Bytes, parseIP: IPParser, rest: Bytes)
    requires DecodeAddress(bs, parseIP).Ok?
    ensures var a := DecodeAddress(bs, parseIP).address;
            DecodeAddress(EncodeAddress(a) + rest, parseIP) == Ok(a, rest)
  {
    AddressRoundTripIff(DecodeAddress(bs, parseIP).address, rest, parseIP);
  }

  // ----- Writing and reading -----

  /** Appends the address to a buffer; an unknown kind is refused after its first byte. */
  method WriteAddress(buf: Bytes, a: Address) returns (w: Bytes, n: nat, ok: bool)
    requires a.host.Valid()
    ensures w == buf + EncodeAddress(a) && ok == !a.host.Other?
    ensures ok ==> n == |EncodeAddress(a)|
  {
    w, n := buf, 1;
    var addrLen: nat;
    match a.host {
      case Name(name) =>
        w := w + [3];
        w := w + [|name| % 256];
        w := w + name;
        addrLen := 1 + |name|;
      case V4(ip) =>
        w := w + [1];
        w := w + ip;
        addrLen := 4;
      case V6(ip) =>
        w := w + [4];
        w := w + ip;
        addrLen := 16;
      case Other(kind) =>
        return w + [kind], 0, false;
    }
    n := n + addrLen;
    w := w + Uint16(a.port);
    n := n + 2;
    ok := true;
  }

  datatype AddressRead = Done(address: Address) | Failed(error: ReadError) | InvalidType | Panicked

  /** What a read of an address tells about the bytes that were ahead, and what is ahead now. */
  predicate Tells(r: AddressRead, before: Bytes, now: Bytes, parseIP: IPParser) {
    match r
    case Done(address) => DecodeAddress(before, parseIP) == Ok(address, now)
    case Failed(error) => error == EndOfStream ==> DecodeAddress(before, parseIP) == Short
    case InvalidType => DecodeAddress(before, parseIP) == BadType
    case Panicked => DecodeAddress(before, parseIP) == Panics
  }

  lemma NameTold(bs: Bytes, n: Byte, buf: Bytes, now: Bytes, parseIP: IPParser)
    requires bs == [3, n] + (buf + now) && |buf| <= (n + 2) % 256
    ensures |buf| < (n + 2) % 256 && now == [] ==> DecodeAddress(bs, parseIP) == Short
    ensures |buf| == (n + 2) % 256 && n > 253 ==> DecodeAddress(bs, parseIP) == Panics
    ensures |buf| == n + 2 && n <= 253 ==>
              DecodeAddress(bs, parseIP) == Ok(Address(HostOf(buf[..n], parseIP), ReadUint16(buf[n..])), now)
  {
    var tail := bs[2..];
    assert tail == buf + now;
    if |buf| == n + 2 && n <= 253 {
      assert tail[..n] == buf[..n] && tail[n..n + 2] == buf[n..] && tail[n + 2..] == now;
    }
  }

  method ReadAddress(r: RewindReader, parseIP: IPParser) returns (result: AddressRead, ghost used: Bytes)
    requires r.Valid()
    modifies r
    ensures r.Valid() && Advanced(old(r.Abs()), r.Abs(), used) && |used| <= 257
    ensures Tells(result, old(r.Abs().Upcoming()), r.Abs().Upcoming(), parseIP)
    ensures result == Failed(BufferExceeded) ==> old(r.buffering) && |old(r.buf)| + 257 > LIMIT
    ensures result != Failed(UnexpectedEof) && (r.reliable ==> result != Failed(Fault))
  {
    ghost var start := r.Abs();
    var kind, err := r.ReadFull(1);
    used := kind;
    if err.Some? {
      return Failed(err.value), used;
    }
    assert start.Upcoming()[0] == kind[0];
    if kind[0] == 1 || kind[0] == 4 {
      result, used := ReadIP(r, kind, start, parseIP);
    } else if kind[0] == 3 {
      result, used := ReadName(r, start, parseIP);
    } else {
      result := InvalidType;
    }
  }

  method ReadIP(r: RewindReader, kind: Bytes, ghost start: Reader, parseIP: IPParser) returns (result: AddressRead, ghost used: Bytes)
    requires r.Valid() && (kind == [1] || kind == [4]) && Advanced(start, r.Abs(), kind)
    modifies r
    ensures r.Valid() && Advanced(start, r.Abs(), used) && |used| <= 19
    ensures Tells(result, start.Upcoming(), r.Abs().Upcoming(), parseIP)
    ensures result == Failed(BufferExceeded) ==> start.buffering && |start.buf| + 19 > LIMIT
    ensures result != Failed(UnexpectedEof) && (r.reliable ==> result != Failed(Fault))
  {
    var size := if kind == [1] then 4 else 16;
    ghost var middle := r.Abs();
    var buf, err := r.ReadFull(size + 2);
    AdvancedTwice(start, middle, r.Abs(), kind, buf);
    used := kind + buf;
    assert start.Upcoming() == used + r.Abs().Upcoming();
    if err.Some? {
      return Failed(err.value), used;
    }
    var ip := buf[..size];
    ghost var bs := start.Upcoming();
    assert bs[1..1 + size] == ip && bs[1 + size..3 + size] == buf[size..] && bs[3 + size..] == r.Abs().Upcoming();
    result := Done(Address(if kind == [1] then V4(ip) else V6(ip), ReadUint16(buf[size..])));
  }

  method ReadName(r: RewindReader, ghost start: Reader, parseIP: IPParser) returns (result: AddressRead, ghost used: Bytes)
    requires r.Valid() && Advanced(start, r.Abs(), [3])
    modifies r
    ensures r.Valid() && Advanced(start, r.Abs(), used) && |used| <= 257
    ensures Tells(result, start.Upcoming(), r.Abs().Upcoming(), parseIP)
    ensures result == Failed(BufferExceeded) ==> start.buffering && |start.buf| + 257 > LIMIT
    ensures result != Failed(UnexpectedEof) && (r.reliable ==> result != Failed(Fault))
  {
    ghost var middle := r.Abs();
    var lengthByte, err := r.ReadFull(1);
    AdvancedTwice(start, middle, r.Abs(), [3], lengthByte);
    used := [3] + lengthByte;
    if err.Some? {
      return Failed(err.value), used;
    }
    var length: int := lengthByte[0];
    middle := r.Abs();
    var buf;
    buf, err := r.ReadFull((length + 2) % 256);
    AdvancedTwice(start, middle, r.Abs(), used, buf);
    Reassociate(used, buf, r.Abs().Upcoming());
    NameTold(start.Upcoming(), length, buf, r.Abs().Upcoming(), parseIP);
    used := used + buf;
    if err.Some? {
      return Failed(err.value), used;
    }
    if length > 253 {
      return Panicked, used;
    }
    result := Done(Address(HostOf(buf[..length], parseIP), ReadUint16(buf[length..])));
  }
}
