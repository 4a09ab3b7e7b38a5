/** The rewindable reader as an object over a connection, and the reads built on it. */
module RewindReading {
  import opened Basics
  import opened ByteStrings
  import opened RewindStream

  datatype ReadError = EndOfStream | Fault | BufferExceeded | UnexpectedEof

  /**
   Reading took `out` off the stream and nothing else: the rest is still to
   come, and a recording that had room for it now holds the fetched bytes too.
   */
  predicate Advanced(s: Reader, t: Reader, out: Bytes) {
    && s.Valid() && t.Valid() && t.stream == s.stream
    && s.rawPos <= t.rawPos <= s.rawPos + |out|
    && t.buffering == s.buffering && t.bufferSize == s.bufferSize
    && out + t.Upcoming() == s.Upcoming()
    && |t.buf| <= |s.buf| + (t.rawPos - s.rawPos)
    && (s.buffering && |s.buf| + (t.rawPos - s.rawPos) <= LIMIT ==> t.buf == s.buf + s.stream[s.rawPos..t.rawPos])
  }

  lemma StandsStill(s: Reader)
    requires s.Valid()
    ensures Advanced(s, s, [])
  {
    assert s.buf == s.buf + s.stream[s.rawPos..s.rawPos];
    assert [] + s.Upcoming() == s.Upcoming();
  }

  lemma ReadAdvances(s: Reader, want: nat, n: nat)
    requires CanRead(s, want, n)
    ensures Advanced(s, AfterRead(s, want, if s.Replaying() then 0 else n, false), Delivered(s, want, if s.Replaying() then 0 else n))
  {
    var n' := if s.Replaying() then 0 else n;
    ReadTakesNext(s, want, n', false);
    assert s.buf + s.stream[s.rawPos..s.rawPos] == s.buf;
  }

  lemma AdvancedTwice(s: Reader, t: Reader, u: Reader, a: Bytes, b: Bytes)
    requires Advanced(s, t, a) && Advanced(t, u, b)
    ensures Advanced(s, u, a + b)
  {
    Reassociate(a, b, u.Upcoming());
    assert s.stream[s.rawPos..t.rawPos] + s.stream[t.rawPos..u.rawPos] == s.stream[s.rawPos..u.rawPos];
    Reassociate(s.buf, s.stream[s.rawPos..t.rawPos], s.stream[t.rawPos..u.rawPos]);
  }

  class RewindReader {
    /** The connection: what the peer sends, how much has been taken, and how many empty reads are still to come. */
    const stream: Bytes
    const reliable: bool    // everything is there already, and no read fails but at the end
    var rawPos: nat
    var idle: nat

    var buf: Bytes
    var bufReadIdx: nat
    var rewound: bool
    var buffering: bool
    var bufferSize: nat

    ghost predicate Valid()
      reads this
    {
      rawPos <= |stream| && bufReadIdx <= |buf|
    }

    ghost function Abs(): (s: Reader)
      reads this
      ensures Valid() <==> s.Valid()
    {
      Reader(stream, rawPos, buf, bufReadIdx, rewound, buffering, bufferSize)
    }

    /** A reader on a connection from which nothing has been read. */
    constructor (stream: Bytes, idle: nat, reliable: bool)
      ensures Abs() == Reader(stream, 0, [], 0, false, false, 0) && Valid() && this.reliable == reliable
    {
      this.stream, this.reliable := stream, reliable;
      this.idle := idle;
      rawPos, buf, bufReadIdx, rewound, buffering, bufferSize := 0, [], 0, false, false, 0;
    }

    /** The connection's own read: some of the bytes asked for, an error, or both. */
    method RawRead(want: nat) returns (n: nat, err: Option<ReadError>)
      requires Valid()
      modifies this`rawPos, this`idle
      ensures n <= want && rawPos == old(rawPos) + n <= |stream|
      ensures idle <= old(idle) && (n == 0 && err.None? && want > 0 ==> idle < old(idle))
      ensures err.Some? ==> err.value.EndOfStream? || err.value.Fault?
      ensures err == Some(EndOfStream) ==> rawPos == |stream|
      ensures reliable ==> n == Min(want, |stream| - old(rawPos)) && err != Some(Fault) && (err.None? <==> n > 0 || want == 0)
    {
      n :| 0 <= n <= want && rawPos + n <= |stream|;
      var fault: bool := *;
      if reliable {
        n := Min(want, |stream| - rawPos);
        fault := n == 0 && want > 0;
      }
      rawPos := rawPos + n;
      if fault || (n == 0 && idle == 0 && want > 0) {
        err := if rawPos == |stream| then Some(EndOfStream) else Some(Fault);
      } else {
        err := None;
        if n == 0 && want > 0 {
          idle := idle - 1;
        }
      }
    }

    /** `stopped`: recording is stopped by another party while the connection is waited for. */
    method Read(want: nat, stopped: bool) returns (out: Bytes, err: Option<ReadError>, ghost n: nat)
      requires Valid()
      modifies this
      ensures Valid() && idle <= old(idle) && (out == [] && want > 0 && err.None? ==> idle < old(idle))
      ensures CanRead(old(Abs()), want, n) && Abs() == AfterRead(old(Abs()), want, n, stopped)
      ensures out == Delivered(old(Abs()), want, n) && |out| <= want
      ensures old(Abs()).Replaying() ==> n == 0 && err.None?
      ensures err == Some(BufferExceeded) <==> OverLimit(old(Abs()), n, stopped)
      ensures err == Some(EndOfStream) ==> Abs().Upcoming() == []
      ensures err != Some(UnexpectedEof)
      ensures reliable ==> err != Some(Fault) && (out == [] && want > 0 ==> err.Some?)
      ensures reliable && out != [] && err.Some? ==> err.value == BufferExceeded
      ensures reliable && !old(Abs()).Replaying() ==> n == Min(want, |stream| - old(rawPos))
    {
      n := 0;
      if rewound {
        if |buf| > bufReadIdx {
          var copied := if want <= |buf| - bufReadIdx then want else |buf| - bufReadIdx;
          out, err := buf[bufReadIdx..bufReadIdx + copied], None;
          bufReadIdx := bufReadIdx + copied;
          return;
        }
        rewound := false;
      }
      out, err, n := Fetch(want, stopped);
    }

    /** A read when there is nothing to replay. */
    method Fetch(want: nat, stopped: bool) returns (out: Bytes, err: Option<ReadError>, ghost n: nat)
      requires Valid() && !rewound
      modifies this
      ensures Valid() && idle <= old(idle) && (out == [] && want > 0 && err.None? ==> idle < old(idle))
      ensures CanRead(old(Abs()), want, n) && Abs() == AfterRead(old(Abs()), want, n, stopped)
      ensures out == Fetched(old(Abs()), n)
      ensures err == Some(BufferExceeded) <==> OverLimit(old(Abs()), n, stopped)
      ensures err == Some(EndOfStream) ==> rawPos == |stream|
      ensures err != Some(UnexpectedEof)
      ensures reliable ==> err != Some(Fault) && n == Min(want, |stream| - old(rawPos))
      ensures reliable ==> (out == [] && want > 0 ==> err.Some?) && (out != [] && err.Some? ==> err.value == BufferExceeded)
    {
      n := 0;
      var wasBuffering := buffering;
      var from := rawPos;
      var got: nat;
      got, err := RawRead(want);
      n := got;
      out := stream[from..from + got];
      if stopped {
        buffering := false;
      }
      if wasBuffering && got > 0 && buffering {
        if |buf| + got > 1024 * 1024 {
          err := Some(BufferExceeded);
          return;
        }
        buf := buf + out;
      }
      assert wasBuffering && buffering && got == 0 ==> buf + stream[from..from] == buf;
    }

    method ReadByte(stopped: bool) returns (b: Byte, err: Option<ReadError>, ghost n: nat)
      requires Valid()
      modifies this
      ensures Valid() && CanRead(old(Abs()), 1, n) && Abs() == AfterRead(old(Abs()), 1, n, stopped)
      ensures var out := Delivered(old(Abs()), 1, n); b == if out == [] then 0 else out[0]
      ensures Delivered(old(Abs()), 1, n) == [] && err.None? ==> idle < old(idle)
    {
      var out;
      out, err, n := Read(1, stopped);
      b := if |out| == 0 then 0 else out[0];
    }

    method Rewind() returns (panicked: bool)
      requires Valid()
      modifies this`rewound, this`bufReadIdx
      ensures panicked <==> bufferSize == 0
      ensures Abs() == if panicked then old(Abs()) else AfterRewind(old(Abs()))
      ensures !panicked ==> Abs().Upcoming() == buf + stream[rawPos..]
      ensures Valid()
    {
      if bufferSize == 0 {
        return true;
      }
      rewound := true;
      bufReadIdx := 0;
      return false;
    }

    method StopBuffering()
      requires Valid()
      modifies this`buffering
      ensures Abs() == AfterStop(old(Abs())) && Valid() && !buffering
    {
      buffering := false;
    }

    method SetBufferSize(size: nat) returns (panicked: bool)
      requires Valid()
      modifies this`buffering, this`buf, this`bufReadIdx, this`bufferSize
      ensures panicked <==> (size == 0 <==> !old(buffering))
      ensures Abs() == if panicked then old(Abs()) else if size == 0 then AfterDisable(old(Abs())) else AfterStart(old(Abs()), size)
      ensures !panicked ==> buffering == (size > 0) && bufferSize == size && buf == []
      ensures Valid()
    {
      if size == 0 {
        if !buffering {
          return true;
        }
        buffering, buf, bufReadIdx, bufferSize := false, [], 0, 0;
      } else {
        if buffering {
          return true;
        }
        buffering, bufReadIdx, bufferSize, buf := true, 0, size, [];
      }
      return false;
    }

    /** One read by a single consumer, as a step forward. */
    method ReadSome(want: nat) returns (out: Bytes, err: Option<ReadError>)
      requires Valid()
      modifies this
      ensures Valid() && Advanced(old(Abs()), Abs(), out) && |out| <= want
      ensures idle <= old(idle) && (out == [] && want > 0 && err.None? ==> idle < old(idle))
      ensures err == Some(BufferExceeded) ==> old(buffering) && |old(buf)| + |out| > LIMIT
      ensures err == Some(EndOfStream) ==> Abs().Upcoming() == []
      ensures err != Some(UnexpectedEof)
      ensures reliable ==> err != Some(Fault) && (out == [] && want > 0 ==> err.Some?)
      ensures reliable && out != [] && err.Some? ==> err.value == BufferExceeded
      ensures reliable && !old(Abs()).Replaying() ==> |out| == Min(want, |old(Abs()).Upcoming()|)
    {
      if !Abs().Replaying() {
        NoReplay(Abs());
      }
      ghost var n;
      out, err, n := Read(want, false);
      ReadAdvances(old(Abs()), want, n);
    }

    method Discard(n: int) returns (discarded: nat, err: Option<ReadError>, ghost dropped: Bytes)
      requires Valid()
      modifies this
      ensures Valid() && Advanced(old(Abs()), Abs(), dropped) && discarded == |dropped|
      ensures err.None? ==> discarded == n
      ensures discarded <= if n < 0 then 0 else n
      ensures n < 0 ==> err == Some(UnexpectedEof)
      ensures reliable && !old(buffering) && 0 <= n <= |old(Abs()).Upcoming()| ==> err.None?
    {
      StandsStill(Abs());
      dropped := [];
      if n < 0 {
        return 0, Some(UnexpectedEof), [];
      }
      discarded := 0;
      while discarded < n
        invariant Valid() && Advanced(old(Abs()), Abs(), dropped) && discarded == |dropped| <= n
      {
        var want := if n - discarded > 128 then 128 else n - discarded;
        ghost var before := Abs();
        var read;
        read, err := ReadSome(want);
        AdvancedTwice(old(Abs()), before, Abs(), dropped, read);
        dropped := dropped + read;
        discarded := discarded + |read|;
        if err.Some? {
          assert err.value == EndOfStream ==> |dropped| == |old(Abs()).Upcoming()|;
          assert reliable ==> err.value.EndOfStream? || err.value.BufferExceeded?;
          return discarded, err, dropped;
        }
        if |read| == 0 {
          return discarded, Some(UnexpectedEof), dropped;
        }
      }
      return discarded, None, dropped;
    }

    /** Reads until there are enough bytes; an error that comes with the last of them is dropped. */
    method ReadFull(want: nat) returns (out: Bytes, err: Option<ReadError>)
      requires Valid()
      modifies this
      ensures Valid() && Advanced(old(Abs()), Abs(), out) && |out| <= want
      ensures err.None? <==> |out| == want
      ensures err == Some(BufferExceeded) ==> old(buffering) && |old(buf)| + want > LIMIT
      ensures err == Some(EndOfStream) ==> Abs().Upcoming() == []
      ensures err != Some(UnexpectedEof)
      ensures reliable ==> err != Some(Fault)
    {
      StandsStill(Abs());
      out, err := [], None;
      while |out| < want && err.None?
        invariant Valid() && Advanced(old(Abs()), Abs(), out) && |out| <= want
        invariant err == Some(BufferExceeded) ==> old(buffering) && |old(buf)| + want > LIMIT
        invariant err == Some(EndOfStream) ==> Abs().Upcoming() == []
        invariant err != Some(UnexpectedEof) && (reliable ==> err != Some(Fault))
        decreases want - |out|, idle, err.None?
      {
        ghost var before := Abs();
        var chunk;
        chunk, err := ReadSome(want - |out|);
        AdvancedTwice(old(Abs()), before, Abs(), out, chunk);
        out := out + chunk;
      }
      if |out| == want {
        err := None;
      }
    }
  }
}
