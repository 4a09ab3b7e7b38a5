/** A connection that is written to. */
module Connection {
  import opened ByteStrings

  /** What has gone out on the connection. */
  class Wire {
    const reliable: bool    // whether every write goes through
    var sent: Bytes

    constructor (reliable: bool)
      ensures sent == [] && this.reliable == reliable
    {
      this.reliable := reliable;
      sent := [];
    }

    /** A write may fail after any part of the data has gone out. */
    method Write(data: Bytes) returns (n: nat, ok: bool)
      modifies this
      ensures n <= |data| && sent == old(sent) + data[..n] && (ok ==> n == |data|)
      ensures reliable ==> ok
    {
      n :| 0 <= n <= |data|;
      ok := n == |data|;
      if ok {
        ok := *;
      }
      if reliable {
        n, ok := |data|, true;
      }
      sent := sent + data[..n];
    }
  }
}
