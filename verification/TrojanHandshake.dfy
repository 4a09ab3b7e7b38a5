/** The Trojan header: written once by the client, and read by the server, which otherwise hands the whole stream on. */
module TrojanHandshake {
  import opened Basics
  import opened ByteStrings
  import opened RewindStream
  import opened RewindReading
  import opened AddressCodec
  import opened Connection

  const HASH_LENGTH: nat := 56

  // ----- The header on values -----

  /** The command byte and the address; an address of unknown kind makes the writer give up before writing. */
  function EncodeMetadata(command: Byte, a: Address): Bytes {
    if a.host.Other? then [] else [command] + EncodeAddress(a)
  }

  function EncodeHeader(hash: Bytes, command: Byte, a: Address): Bytes {
    hash + CRLF + EncodeMetadata(command, a) + CRLF
  }

  datatype HeaderRead = Parsed(hash: Bytes, command: Byte, address: Address, rest: Bytes) | NoHeader | HeaderPanics

  /** The two bytes after the hash and after the address are not looked at. */
  function ParseHeader(bs: Bytes, parseIP: IPParser): HeaderRead {
    if |bs| < HASH_LENGTH + 3 then NoHeader
    else ParseRest(bs[..HASH_LENGTH], bs[HASH_LENGTH + 2], DecodeAddress(bs[HASH_LENGTH + 3..], parseIP))
  }

  function ParseRest(hash: Bytes, command: Byte, d: Decoded): HeaderRead {
    match d
    case Ok(a, rest) => if |rest| < 2 then NoHeader else Parsed(hash, command, a, rest[2..])
    case Panics => HeaderPanics
    case _ => NoHeader
  }

  /** On the wire: the hash, a line end, the command, the address, a line end. */
  lemma HeaderLayout(hash: Bytes, command: Byte, a: Address)
    requires |hash| == HASH_LENGTH && !a.host.Other?
    ensures var bs := EncodeHeader(hash, command, a); var n := |bs|;
            && n == 61 + |EncodeAddress(a)| && bs[..56] == hash && bs[56] == 13 && bs[57] == 10
            && bs[58] == command && bs[59..n - 2] == EncodeAddress(a) && bs[n - 2] == 13 && bs[n - 1] == 10
  {
    var front, middle := hash + CRLF, [command] + EncodeAddress(a);
    var bs := EncodeHeader(hash, command, a);
    assert bs == front + middle + CRLF;
    assert bs[59..|bs| - 2] == middle[1..];
  }

  lemma HeaderParts(bs: Bytes, hash: Bytes, crlf: Bytes, command: Byte, tail: Bytes, parseIP: IPParser)
    requires |hash| == HASH_LENGTH && |crlf| == 2 && bs == hash + crlf + [command] + tail
    ensures ParseHeader(bs, parseIP) == ParseRest(hash, command, DecodeAddress(tail, parseIP))
  {
    assert bs[..HASH_LENGTH] == hash && bs[HASH_LENGTH + 3..] == tail;
  }

  /** An address that does not fit reads back as another one, or leaves another rest. */
  lemma AddressMisfits(a: Address, rest: Bytes, parseIP: IPParser)
    requires a.host.Valid() && !a.host.Other?
    ensures var d := DecodeAddress(EncodeAddress(a) + rest, parseIP);
            if Fits(a) then d == Ok(Canonical(a, parseIP), rest)
            else d.Ok? ==> d.address.port != a.port || |d.rest| > |rest|
  {
    if a.host.Name? && |a.host.name| > 253 {
      LongNameMisreads(a, rest, parseIP);
    } else if a.host.Name? {
      NameRoundTrip(a, rest, parseIP);
    } else {
      IPRoundTrip(a, rest, parseIP);
    }
  }

  lemma Regrouped(front: Bytes, command: Byte, a: Bytes, crlf: Bytes, payload: Bytes)
    ensures front + ([command] + a) + crlf + payload == front + [command] + (a + (crlf + payload))
  {
  }

  lemma ParseEncoded(hash: Bytes, command: Byte, a: Address, payload: Bytes, parseIP: IPParser)
    requires |hash| == HASH_LENGTH
    ensures ParseHeader(EncodeHeader(hash, command, a) + payload, parseIP) ==
            if a.host.Other? then NoHeader else ParseRest(hash, command, DecodeAddress(EncodeAddress(a) + (CRLF + payload), parseIP))
  {
    var bs := EncodeHeader(hash, command, a) + payload;
    if a.host.Other? {
      assert bs == hash + CRLF + [CRLF[0]] + ([CRLF[1]] + payload);
      HeaderParts(bs, hash, CRLF, CRLF[0], [CRLF[1]] + payload, parseIP);
    } else {
      Regrouped(hash + CRLF, command, EncodeAddress(a), CRLF, payload);
      HeaderParts(bs, hash, CRLF, command, EncodeAddress(a) + (CRLF + payload), parseIP);
    }
  }

  /** Parsing a header followed by a payload gives both back exactly when the address fits. */
  lemma HeaderRoundTripIff(hash: Bytes, command: Byte, a: Address, payload: Bytes, parseIP: IPParser)
    requires |hash| == HASH_LENGTH && a.host.Valid()
    ensures ParseHeader(EncodeHeader(hash, command, a) + payload, parseIP) == Parsed(hash, command, Canonical(a, parseIP), payload)
            <==> Fits(a)
  {
    ParseEncoded(hash, command, a, payload, parseIP);
    if !a.host.Other? {
      AddressMisfits(a, CRLF + payload, parseIP);
      assert (CRLF + payload)[2..] == payload;
    }
  }

  // ----- The client -----

  method BuildHeader(hash: Bytes, command: Byte, a: Address) returns (buf: Bytes)
    requires a.host.Valid()
    ensures buf == EncodeHeader(hash, command, a)
  {
    buf := hash;
    buf := buf + CRLF;
    if !a.host.Other? {
      var metadata := [command];
      var n, ok;
      metadata, n, ok := WriteAddress(metadata, a);
      buf := buf + metadata;
    }
    buf := buf + CRLF;
  }

  datatype HeaderState = NotWritten | Written | WriteFailed

  class OutboundConn {
    const wire: Wire
    const hash: Bytes
    const command: Byte
    const address: Address
    var header: HeaderState
    var sent: nat
    /** The payload bytes that callers were told are written, in order. */
    ghost var payload: Bytes
    /** What went out of a header whose write failed. */
    ghost var torn: Bytes

    /** One header, then all payload in order; or part of a first write that failed, then later payload without a header. */
    ghost predicate Valid()
      reads this, wire
    {
      && address.host.Valid()
      && match header
         case NotWritten => wire.sent == [] && payload == [] && sent == 0
         case Written => wire.sent == EncodeHeader(hash, command, address) + payload && sent <= |payload|
         case WriteFailed => wire.sent == torn + payload && sent == |payload|
    }

    constructor (hash: Bytes, command: Byte, address: Address, reliable: bool)
      requires address.host.Valid()
      ensures Valid() && header == NotWritten && fresh(wire) && wire.reliable == reliable
      ensures this.hash == hash && this.command == command && this.address == address
    {
      wire := new Wire(reliable);
      this.hash, this.command, this.address := hash, command, address;
      header, sent, payload, torn := NotWritten, 0, [], [];
    }

    /** Only the first call writes; it reports whether the header went out with the payload. */
    method WriteHeader(p: Bytes) returns (written: bool, ok: bool)
      requires Valid()
      modifies this, wire
      ensures Valid()
      ensures old(header) != NotWritten ==>
                && !written && ok && header == old(header) && wire.sent == old(wire.sent)
                && payload == old(payload) && sent == old(sent) && torn == old(torn)
      ensures old(header) == NotWritten ==>
                && written == ok && sent == 0 && header == (if ok then Written else WriteFailed)
                && payload == (if ok then p else [])
                && (!ok ==> torn <= EncodeHeader(hash, command, address) + p)
      ensures wire.reliable ==> ok
    {
      written, ok := false, true;
      if header == NotWritten {
        var buf := BuildHeader(hash, command, address);
        buf := buf + p;
        var n;
        n, ok := wire.Write(buf);
        written := ok;
        header := if ok then Written else WriteFailed;
        payload := if ok then p else [];
        torn := buf[..n];
        assert wire.sent == torn == torn + [];
        assert ok ==> wire.sent == buf;
      }
    }

    /** The bytes reported as written are exactly what is added to the payload on the wire. */
    method Write(p: Bytes) returns (n: nat, ok: bool)
      requires Valid()
      modifies this, wire
      ensures Valid() && n <= |p|
      ensures old(header) == NotWritten ==> header == (if ok then Written else WriteFailed)
      ensures old(header) != NotWritten ==> header == old(header)
      ensures payload == old(payload) + p[..n] && (ok ==> n == |p|)
      ensures sent == old(sent) + if old(header) == NotWritten then 0 else n
      ensures old(header) == NotWritten && !ok ==> torn <= EncodeHeader(hash, command, address) + p
      ensures old(header) != NotWritten ==> torn == old(torn)
      ensures wire.reliable ==> ok
    {
      var written;
      written, ok := WriteHeader(p);
      if !ok {
        assert p[..0] == [] && old(payload) + [] == [];
        return 0, false;
      }
      if written {
        assert p == old(payload) + p[..|p|];
        return |p|, true;
      }
      n, ok := wire.Write(p);
      sent := sent + n;
      payload := payload + p[..n];
      Reassociate(EncodeHeader(hash, command, address), old(payload), p[..n]);
      Reassociate(torn, old(payload), p[..n]);
    }
  }

  // ----- The server -----

  datatype AuthResult = Accepted(hash: Bytes, command: Byte, address: Address) | Rejected | AuthPanics

  /** The longest that authentication can read. */
  const MAX_HEADER: nat := 56 + 2 + 1 + 257 + 2

  /** Why a connection was not accepted. */
  predicate Justified(first: Bytes, io: Option<ReadError>, bs: Bytes, parseIP: IPParser, known: Bytes -> bool, admitted: bool) {
    || |first| != HASH_LENGTH || !known(first) || !admitted
    || (io.Some? && io.value != EndOfStream)
    || ParseHeader(bs, parseIP) == NoHeader
  }

  lemma MetadataTold(bs: Bytes, hash: Bytes, crlf: Bytes, command: Bytes, now: Bytes, parseIP: IPParser)
    requires |hash| == HASH_LENGTH && |crlf| <= 2 && |command| <= 1 && bs == hash + crlf + command + now
    ensures |crlf| + |command| < 3 && now == [] ==> ParseHeader(bs, parseIP) == NoHeader
    ensures |crlf| + |command| == 3 ==> ParseHeader(bs, parseIP) == ParseRest(hash, command[0], DecodeAddress(now, parseIP))
  {
    if |crlf| + |command| == 3 {
      assert command == [command[0]];
      HeaderParts(bs, hash, crlf, command[0], now, parseIP);
    }
  }

  /** The two bytes behind the hash and the command. */
  method ReadCommand(r: RewindReader, ghost start: Reader, hash: Bytes, parseIP: IPParser)
    returns (command: Bytes, ghost io: Option<ReadError>, ghost used: Bytes)
    requires r.Valid() && Advanced(start, r.Abs(), hash) && |hash| == HASH_LENGTH
    modifies r
    ensures r.Valid() && Advanced(start, r.Abs(), used) && |used| <= HASH_LENGTH + 3 && |command| <= 1
    ensures if command == [] then (io.Some? && io.value != EndOfStream) || ParseHeader(start.Upcoming(), parseIP) == NoHeader
            else ParseHeader(start.Upcoming(), parseIP) == ParseRest(hash, command[0], DecodeAddress(r.Abs().Upcoming(), parseIP))
    ensures io == Some(BufferExceeded) ==> start.buffering && |start.buf| + MAX_HEADER > LIMIT
    ensures io != Some(UnexpectedEof) && (r.reliable ==> io != Some(Fault))
  {
    ghost var middle := r.Abs();
    var crlf, err := r.ReadFull(2);
    AdvancedTwice(start, middle, r.Abs(), hash, crlf);
    command, used, io := [], hash + crlf, err;
    if err.Some? {
      MetadataTold(start.Upcoming(), hash, crlf, command, r.Abs().Upcoming(), parseIP);
      return;
    }
    middle := r.Abs();
    command, err := r.ReadFull(1);
    AdvancedTwice(start, middle, r.Abs(), used, command);
    used, io := used + command, err;
    MetadataTold(start.Upcoming(), hash, crlf, command, r.Abs().Upcoming(), parseIP);
  }

  /** The rest of the header, behind the hash. */
  method ReadMetadata(r: RewindReader, ghost start: Reader, hash: Bytes, parseIP: IPParser)
    returns (result: AuthResult, ghost io: Option<ReadError>, ghost used: Bytes)
    requires r.Valid() && Advanced(start, r.Abs(), hash) && |hash| == HASH_LENGTH
    modifies r
    ensures r.Valid() && Advanced(start, r.Abs(), used) && |used| <= MAX_HEADER
    ensures TellsHeader(result, io, hash, ParseHeader(start.Upcoming(), parseIP), r.Abs().Upcoming())
    ensures io == Some(BufferExceeded) ==> start.buffering && |start.buf| + MAX_HEADER > LIMIT
    ensures io != Some(UnexpectedEof) && (r.reliable ==> io != Some(Fault))
  {
    var command;
    command, io, used := ReadCommand(r, start, hash, parseIP);
    if command == [] {
      return Rejected, io, used;
    }
    ghost var tail := r.Abs();
    ghost var more;
    result, io, more := ReadDestination(r, hash, command[0], parseIP);
    AdvancedTwice(start, tail, r.Abs(), used, more);
    used := used + more;
  }

  predicate TellsHeader(result: AuthResult, io: Option<ReadError>, hash: Bytes, h: HeaderRead, now: Bytes) {
    match result
    case Accepted(hash', command, address) => hash' == hash && h == Parsed(hash, command, address, now)
    case Rejected => (io.Some? && io.value != EndOfStream) || h == NoHeader
    case AuthPanics => h == HeaderPanics
  }

  /** The address and the two bytes behind it. */
  method ReadDestination(r: RewindReader, hash: Bytes, command: Byte, parseIP: IPParser)
    returns (result: AuthResult, ghost io: Option<ReadError>, ghost used: Bytes)
    requires r.Valid()
    modifies r
    ensures r.Valid() && Advanced(old(r.Abs()), r.Abs(), used) && |used| <= 259
    ensures TellsHeader(result, io, hash, ParseRest(hash, command, DecodeAddress(old(r.Abs().Upcoming()), parseIP)), r.Abs().Upcoming())
    ensures io == Some(BufferExceeded) ==> old(r.buffering) && |old(r.buf)| + 259 > LIMIT
    ensures io != Some(UnexpectedEof) && (r.reliable ==> io != Some(Fault))
  {
    var address;
    address, used := ReadAddress(r, parseIP);
    match address {
      case Failed(error) =>
        return Rejected, Some(error), used;
      case InvalidType =>
        return Rejected, None, used;
      case Panicked =>
        return AuthPanics, None, used;
      case Done(a) =>
        ghost var middle := r.Abs();
        var crlf, err := r.ReadFull(2);
        AdvancedTwice(old(r.Abs()), middle, r.Abs(), used, crlf);
        used, io := used + crlf, err;
        assert middle.Upcoming()[|crlf|..] == r.Abs().Upcoming();
        result := if err.Some? then Rejected else Accepted(hash, command, a);
    }
  }

  /** `known` looks the hash up; `admitted` is whether the remote address is readable and within the user's limit. */
  method Auth(r: RewindReader, parseIP: IPParser, known: Bytes -> bool, admitted: bool)
    returns (result: AuthResult, ghost first: Bytes, ghost io: Option<ReadError>, ghost used: Bytes)
    requires r.Valid()
    modifies r
    ensures r.Valid() && Advanced(old(r.Abs()), r.Abs(), used) && |used| <= MAX_HEADER
    ensures var bs := old(r.Abs().Upcoming());
            && first <= bs
            && match result
               case Accepted(hash, command, address) =>
                 hash == first && known(hash) && admitted && ParseHeader(bs, parseIP) == Parsed(hash, command, address, r.Abs().Upcoming())
               case Rejected => Justified(first, io, bs, parseIP, known, admitted)
               case AuthPanics => known(first) && admitted && ParseHeader(bs, parseIP) == HeaderPanics
    ensures io == Some(BufferExceeded) ==> old(r.buffering) && |old(r.buf)| + MAX_HEADER > LIMIT
    ensures io != Some(UnexpectedEof) && (r.reliable ==> io != Some(Fault))
    ensures r.reliable && !old(r.Abs()).Replaying() ==> |first| == Min(HASH_LENGTH, |old(r.Abs()).Upcoming()|)
  {
    ghost var start := r.Abs();
    var hash, err := r.ReadSome(HASH_LENGTH);
    used, first, io := hash, hash, err;
    if err.Some? || |hash| != HASH_LENGTH {
      return Rejected, first, io, used;
    }
    if !known(hash) {
      return Rejected, first, io, used;
    }
    if !admitted {
      return Rejected, first, io, used;
    }
    result, io, used := ReadMetadata(r, start, hash, parseIP);
  }

  datatype Served = Proxied(hash: Bytes, command: Byte, address: Address) | Redirected | Crashed

  lemma RecordedFromStart(s: Reader, t: Reader, used: Bytes)
    requires Advanced(s, t, used) && s.buffering && s.buf == [] && s.rawPos == 0 && |used| <= LIMIT
    ensures t.Intact(0)
  {
  }

  /**
   One accepted connection: the header is taken off and the payload left
   unread, or the redirect target sees everything from the first byte.
   */
  method Serve(r: RewindReader, parseIP: IPParser, known: Bytes -> bool, admitted: bool)
    returns (served: Served, ghost first: Bytes, ghost io: Option<ReadError>)
    requires r.Valid() && r.Abs() == Reader(r.stream, 0, [], 0, false, false, 0)
    modifies r
    ensures r.Valid() && !r.buffering && first <= r.stream
    ensures match served
            case Proxied(hash, command, address) =>
              && hash == first && known(hash) && admitted
              && ParseHeader(r.stream, parseIP) == Parsed(hash, command, address, r.Abs().Upcoming())
            case Redirected =>
              r.Abs().Upcoming() == r.stream && Justified(first, io, r.stream, parseIP, known, admitted)
            case Crashed => known(first) && admitted && ParseHeader(r.stream, parseIP) == HeaderPanics
    ensures io != Some(BufferExceeded)
    ensures r.reliable ==> served == Deserved(r.stream, parseIP, known, admitted)
  {
    served, first, io := Dispatch(r, parseIP, known, admitted);
    if r.reliable {
      assert io.Some? ==> io.value.EndOfStream?;
      NothingButDeserved(served, r.stream, r.Abs().Upcoming(), first, io, parseIP, known, admitted);
    }
  }

  /** What a connection gets if all of its bytes are there at once: it is proxied if it has a header and may. */
  function Deserved(bs: Bytes, parseIP: IPParser, known: Bytes -> bool, admitted: bool): Served {
    match ParseHeader(bs, parseIP)
    case NoHeader => Redirected
    case HeaderPanics => if |bs| >= HASH_LENGTH && known(bs[..HASH_LENGTH]) && admitted then Crashed else Redirected
    case Parsed(hash, command, address, _) => if known(hash) && admitted then Proxied(hash, command, address) else Redirected
  }

  /** How a connection was served, and why. */
  predicate TellsServed(served: Served, bs: Bytes, now: Bytes, first: Bytes, io: Option<ReadError>,
                        parseIP: IPParser, known: Bytes -> bool, admitted: bool) {
    match served
    case Proxied(hash, command, address) =>
      hash == first && known(hash) && admitted && ParseHeader(bs, parseIP) == Parsed(hash, command, address, now)
    case Redirected => now == bs && Justified(first, io, bs, parseIP, known, admitted)
    case Crashed => known(first) && admitted && ParseHeader(bs, parseIP) == HeaderPanics
  }

  lemma NothingButDeserved(served: Served, bs: Bytes, now: Bytes, first: Bytes, io: Option<ReadError>,
                           parseIP: IPParser, known: Bytes -> bool, admitted: bool)
    requires TellsServed(served, bs, now, first, io, parseIP, known, admitted)
    requires first <= bs && |first| == Min(HASH_LENGTH, |bs|) && (io.None? || io == Some(EndOfStream))
    ensures served == Deserved(bs, parseIP, known, admitted)
  {
    assert |bs| >= HASH_LENGTH ==> first == bs[..HASH_LENGTH];
  }

  method Dispatch(r: RewindReader, parseIP: IPParser, known: Bytes -> bool, admitted: bool)
    returns (served: Served, ghost first: Bytes, ghost io: Option<ReadError>)
    requires r.Valid() && r.Abs() == Reader(r.stream, 0, [], 0, false, false, 0)
    modifies r
    ensures r.Valid() && !r.buffering && first <= r.stream
    ensures TellsServed(served, r.stream, r.Abs().Upcoming(), first, io, parseIP, known, admitted)
    ensures io != Some(BufferExceeded) && io != Some(UnexpectedEof)
    ensures r.reliable ==> io != Some(Fault) && |first| == Min(HASH_LENGTH, |r.stream|)
  {
    var panicked := r.SetBufferSize(128);
    ghost var start := r.Abs();
    assert start.Upcoming() == r.stream;
    var result;
    ghost var used;
    result, first, io, used := Auth(r, parseIP, known, admitted);
    match result {
      case AuthPanics =>
        r.StopBuffering();
        served := Crashed;
      case Rejected =>
        RecordedFromStart(start, r.Abs(), used);
        RewindIff(r.Abs(), 0);
        assert r.stream[0..] == r.stream;
        panicked := r.Rewind();
        r.StopBuffering();
        served := Redirected;
      case Accepted(hash, command, address) =>
        r.StopBuffering();
        served := Proxied(hash, command, address);
    }
  }

  /**
   Client and server together: on a stream that is one header and a payload, a
   server that gets the hash in its first read and meets no other fault proxies
   the connection, with exactly the payload left to read.
   */
  lemma ClientReachesServer(hash: Bytes, command: Byte, a: Address, payload: Bytes, parseIP: IPParser,
                            known: Bytes -> bool, first: Bytes, io: Option<ReadError>)
    requires |hash| == HASH_LENGTH && a.host.Valid() && Fits(a) && known(hash)
    requires |first| == HASH_LENGTH && first <= EncodeHeader(hash, command, a) + payload
    requires io.None? || io == Some(EndOfStream)
    ensures !Justified(first, io, EncodeHeader(hash, command, a) + payload, parseIP, known, true)
    ensures ParseHeader(EncodeHeader(hash, command, a) + payload, parseIP) == Parsed(hash, command, Canonical(a, parseIP), payload)
  {
    HeaderRoundTripIff(hash, command, a, payload, parseIP);
    assert first == (EncodeHeader(hash, command, a) + payload)[..HASH_LENGTH] == hash;
  }
}
