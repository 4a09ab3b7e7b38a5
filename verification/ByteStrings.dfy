/** Byte strings and big-endian 16-bit numbers. */
module ByteStrings {
  type Byte = b: int | 0 <= b < 256
  type Bytes = seq<Byte>

  const CRLF: Bytes := [13, 10]

  /** The low 16 bits of an integer, most significant byte first. */
  function Uint16(x: int): Bytes {
    var low := x % 0x1_0000;
    [low / 256, low % 256]
  }

  function ReadUint16(bs: Bytes): nat
    requires |bs| == 2
  {
    var high: int := bs[0];
    256 * high + bs[1]
  }

  lemma Uint16RoundTrip(x: int)
    ensures ReadUint16(Uint16(x)) == x % 0x1_0000
  {
  }

  lemma Reassociate(a: Bytes, b: Bytes, c: Bytes)
    ensures (a + b) + c == a + (b + c)
  {
  }

  /** Two parts of the rest of a string lie one behind the other in it. */
  lemma PartsOf(a: Bytes, b: Bytes, s: Bytes, pos: nat)
    requires pos <= |s| && a + b == s[pos..]
    ensures pos + |a| <= |s| && a == s[pos..pos + |a|] && b == s[pos + |a|..]
  {
    assert a == (a + b)[..|a|] && b == (a + b)[|a|..];
    assert s[pos..][..|a|] == s[pos..pos + |a|] && s[pos..][|a|..] == s[pos + |a|..];
  }
}
