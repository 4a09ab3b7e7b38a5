/** The mux connection that holds back smux control frames and sends them along with the next data. */
module StickyMux {
  import opened ByteStrings

  const CAPACITY: nat := 128

  /** An eight-byte smux header, of either version. */
  predicate IsHeader(p: Bytes) {
    |p| == 8 && (p[0] == 1 || p[0] == 2)
  }

  predicate Opens(p: Bytes) {
    IsHeader(p) && p[1] == 0
  }

  predicate Closes(p: Bytes) {
    IsHeader(p) && p[1] == 1
  }

  /** Anything that is not held back. */
  predicate IsPayload(p: Bytes) {
    !Opens(p) && !Closes(p)
  }

  /** The frames put on the connection so far, and those held back. */
  datatype Sticky = Sticky(emitted: seq<Bytes>, syn: seq<Bytes>, fin: seq<Bytes>)

  const EMPTY: Sticky := Sticky([], [], [])

  function AfterWrite(s: Sticky, p: Bytes): Sticky {
    if Opens(p) then s.(syn := s.syn + [p])
    else if Closes(p) then s.(fin := s.fin + [p])
    else Sticky(s.emitted + s.syn + [p] + s.fin, [], [])
  }

  function AfterAll(s: Sticky, ps: seq<Bytes>): Sticky {
    if ps == [] then s else AfterWrite(AfterAll(s, ps[..|ps| - 1]), ps[|ps| - 1])
  }

  // ----- Order within a stream -----

  /** Which stream a frame belongs to; what follows holds for any such assignment. */
  type Streams = Bytes -> int

  /** The frames of one stream, in order. */
  function Of(frames: seq<Bytes>, streams: Streams, x: int): seq<Bytes> {
    if frames == [] then []
    else if streams(frames[|frames| - 1]) == x then Of(frames[..|frames| - 1], streams, x) + [frames[|frames| - 1]]
    else Of(frames[..|frames| - 1], streams, x)
  }

  lemma OfAppend(frames: seq<Bytes>, p: Bytes, streams: Streams, x: int)
    ensures Of(frames + [p], streams, x) == Of(frames, streams, x) + if streams(p) == x then [p] else []
  {
    assert (frames + [p])[..|frames|] == frames;
  }

  lemma {:induction false} OfConcat(a: seq<Bytes>, b: seq<Bytes>, streams: Streams, x: int)
    ensures Of(a + b, streams, x) == Of(a, streams, x) + Of(b, streams, x)
    decreases |b|
  {
    if b == [] {
      assert a + b == a;
    } else {
      var front, last := b[..|b| - 1], b[|b| - 1];
      assert a + b == (a + front) + [last] && b == front + [last];
      OfConcat(a, front, streams, x);
      OfAppend(a + front, last, streams, x);
      OfAppend(front, last, streams, x);
    }
  }

  lemma {:induction false} OfMembers(frames: seq<Bytes>, streams: Streams, x: int, p: Bytes)
    ensures p in Of(frames, streams, x) <==> p in frames && streams(p) == x
    decreases |frames|
  {
    if frames != [] {
      OfMembers(frames[..|frames| - 1], streams, x, p);
      assert p in frames <==> p in frames[..|frames| - 1] || p == frames[|frames| - 1];
    }
  }

  /** One stream as the peer will see it: what is out, then what is held back. */
  function View(s: Sticky, streams: Streams, x: int): seq<Bytes> {
    Of(s.emitted, streams, x) + (Of(s.syn, streams, x) + Of(s.fin, streams, x))
  }

  predicate Sorted(s: Sticky) {
    (forall p <- s.syn :: Opens(p)) && (forall p <- s.fin :: Closes(p))
  }

  /** No frame that closes p's stream is held back. */
  predicate NoFinAhead(s: Sticky, p: Bytes, streams: Streams) {
    forall q <- s.fin :: streams(q) != streams(p)
  }

  lemma ViewAfter(s: Sticky, p: Bytes, streams: Streams, x: int)
    ensures var own := if streams(p) == x then [p] else [];
            View(AfterWrite(s, p), streams, x) ==
            if Closes(p) then View(s, streams, x) + own
            else Of(s.emitted, streams, x) + Of(s.syn, streams, x) + own + Of(s.fin, streams, x)
  {
    if Opens(p) {
      OfAppend(s.syn, p, streams, x);
    } else if Closes(p) {
      OfAppend(s.fin, p, streams, x);
    } else {
      OfConcat(s.emitted + s.syn + [p], s.fin, streams, x);
      OfAppend(s.emitted + s.syn, p, streams, x);
      OfConcat(s.emitted, s.syn, streams, x);
    }
  }

  /** Other streams are not disturbed by any write. */
  lemma WriteKeepsOthers(s: Sticky, p: Bytes, streams: Streams, x: int)
    requires x != streams(p)
    ensures View(AfterWrite(s, p), streams, x) == View(s, streams, x)
  {
    ViewAfter(s, p, streams, x);
    Together(Of(s.emitted, streams, x), Of(s.syn, streams, x), Of(s.fin, streams, x));
  }

  lemma Together(a: seq<Bytes>, b: seq<Bytes>, c: seq<Bytes>)
    ensures a + b + [] + c == a + (b + c) && a + (b + c) + [] == a + (b + c)
  {
  }

  /** The frame that closes a stream is its last. */
  predicate FinLast(ps: seq<Bytes>, streams: Streams) {
    forall i, j :: 0 <= i < j < |ps| && Closes(ps[i]) ==> streams(ps[i]) != streams(ps[j])
  }

  lemma {:induction false} HeldWereWritten(ps: seq<Bytes>)
    ensures var s := AfterAll(EMPTY, ps);
            Sorted(s) && forall q <- s.fin :: q in ps
    decreases |ps|
  {
    if ps != [] {
      var front, last := ps[..|ps| - 1], ps[|ps| - 1];
      HeldWereWritten(front);
      assert ps == front + [last];
    }
  }

  /** The closing frame at j is still held back: no payload followed it. */
  predicate HeldBack(ps: seq<Bytes>, j: nat) {
    j < |ps| && Closes(ps[j]) && forall k :: j < k < |ps| ==> !IsPayload(ps[k])
  }

  lemma {:induction false} HeldIff(ps: seq<Bytes>, q: Bytes)
    ensures q in AfterAll(EMPTY, ps).fin <==> exists j: nat :: HeldBack(ps, j) && ps[j] == q
    decreases |ps|
  {
    if ps != [] {
      var front, last := ps[..|ps| - 1], ps[|ps| - 1];
      HeldIff(front, q);
      var n := |front|;
      assert forall j: nat :: j < n ==> ps[j] == front[j];
      assert forall j: nat :: j < n ==> (HeldBack(ps, j) <==> HeldBack(front, j) && !IsPayload(last));
      assert HeldBack(ps, n) <==> Closes(last);
      if exists j: nat :: HeldBack(front, j) && front[j] == q && !IsPayload(last) {
        var j: nat :| HeldBack(front, j) && front[j] == q;
        assert HeldBack(ps, j) && ps[j] == q;
      }
      if exists j: nat :: HeldBack(ps, j) && ps[j] == q {
        var j: nat :| HeldBack(ps, j) && ps[j] == q;
        assert j == n || HeldBack(front, j);
      }
    }
  }

  /** The frame at i is of the stream that the frame at j closed, and no payload came in between. */
  predicate Overtakes(ps: seq<Bytes>, streams: Streams, x: int, j: nat, i: nat) {
    && j < i < |ps| && streams(ps[j]) == x == streams(ps[i]) && Closes(ps[j]) && !Closes(ps[i])
    && forall k :: j < k < i ==> !IsPayload(ps[k])
  }

  ghost predicate NoneOvertakes(ps: seq<Bytes>, streams: Streams, x: int) {
    forall j: nat, i: nat :: !Overtakes(ps, streams, x, j, i)
  }

  lemma OvertakesOf(ps: seq<Bytes>, streams: Streams, x: int)
    requires ps != []
    ensures var front, last := ps[..|ps| - 1], ps[|ps| - 1];
            NoneOvertakes(ps, streams, x) <==>
              && NoneOvertakes(front, streams, x)
              && (streams(last) != x || Closes(last) || NoFinAhead(AfterAll(EMPTY, front), last, streams))
  {
    var front, last, n := ps[..|ps| - 1], ps[|ps| - 1], |ps| - 1;
    assert forall j: nat, i: nat :: i < n ==> (Overtakes(ps, streams, x, j, i) <==> Overtakes(front, streams, x, j, i));
    forall q
      ensures q in AfterAll(EMPTY, front).fin <==> exists j: nat :: HeldBack(front, j) && front[j] == q
    {
      HeldIff(front, q);
    }
    forall j: nat
      ensures Overtakes(ps, streams, x, j, n) <==>
              HeldBack(front, j) && streams(front[j]) == x == streams(last) && !Closes(last)
    {
    }
    if streams(last) == x && !Closes(last) {
      if !NoFinAhead(AfterAll(EMPTY, front), last, streams) {
        var q :| q in AfterAll(EMPTY, front).fin && streams(q) == x;
        var j: nat :| HeldBack(front, j) && front[j] == q;
        assert Overtakes(ps, streams, x, j, n);
      } else {
        forall j: nat ensures !Overtakes(ps, streams, x, j, n) {
          if HeldBack(front, j) {
            assert front[j] in AfterAll(EMPTY, front).fin;
          }
        }
      }
    }
  }

  lemma EndsDiffer(out: seq<Bytes>, p: Bytes, fin: seq<Bytes>, written: seq<Bytes>)
    requires fin != [] && fin[|fin| - 1] != p
    ensures out + [p] + fin != written + [p]
  {
    var a, b := out + [p] + fin, written + [p];
    assert a[|a| - 1] == fin[|fin| - 1] && b[|b| - 1] == p;
  }

  lemma FinAheadIff(s: Sticky, p: Bytes, streams: Streams)
    ensures NoFinAhead(s, p, streams) <==> Of(s.fin, streams, streams(p)) == []
    ensures Of(s.fin, streams, streams(p)) != [] ==> Of(s.fin, streams, streams(p))[|Of(s.fin, streams, streams(p))| - 1] in s.fin
  {
    var fin := Of(s.fin, streams, streams(p));
    forall q ensures q in fin <==> q in s.fin && streams(q) == streams(p) {
      OfMembers(s.fin, streams, streams(p), q);
    }
    if fin != [] {
      assert fin[|fin| - 1] in fin;
    }
  }

  /** One more frame of a stream: its order is kept if it was, and the frame does not overtake. */
  lemma OrderAfter(s: Sticky, p: Bytes, streams: Streams, written: seq<Bytes>)
    requires Sorted(s)
    ensures View(AfterWrite(s, p), streams, streams(p)) == written + [p] <==>
            View(s, streams, streams(p)) == written && (Closes(p) || NoFinAhead(s, p, streams))
  {
    var x := streams(p);
    var out, fin := Of(s.emitted, streams, x) + Of(s.syn, streams, x), Of(s.fin, streams, x);
    assert View(s, streams, x) == out + fin;
    ViewAfter(s, p, streams, x);
    FinAheadIff(s, p, streams);
    SameFront(out + fin, written, p);
    if !Closes(p) && fin == [] {
      assert out + [p] + fin == out + fin + [p];
    } else if !Closes(p) {
      EndsDiffer(out, p, fin, written);
    }
  }

  lemma SameFront(a: seq<Bytes>, b: seq<Bytes>, p: Bytes)
    ensures a + [p] == b + [p] <==> a == b
  {
    if a + [p] == b + [p] {
      assert a == (a + [p])[..|a|] && b == (b + [p])[..|b|];
    }
  }

  /** A write adds its frame behind its stream exactly when it closes it, or nothing that closes it is held back. */
  lemma WriteKeepsOrderIff(s: Sticky, p: Bytes, streams: Streams)
    requires Sorted(s)
    ensures View(AfterWrite(s, p), streams, streams(p)) == View(s, streams, streams(p)) + [p]
            <==> Closes(p) || NoFinAhead(s, p, streams)
  {
    OrderAfter(s, p, streams, View(s, streams, streams(p)));
  }

  /**
   What is out of a stream and what is held back, together, is what was written
   to it in that order, if and only if no frame was written behind the stream's
   closing frame without payload of some stream in between.
   */
  lemma {:induction false} StreamKeepsOrderIff(ps: seq<Bytes>, streams: Streams, x: int)
    ensures View(AfterAll(EMPTY, ps), streams, x) == Of(ps, streams, x) <==> NoneOvertakes(ps, streams, x)
    decreases |ps|
  {
    if ps != [] {
      var front, last := ps[..|ps| - 1], ps[|ps| - 1];
      StreamKeepsOrderIff(front, streams, x);
      OvertakesOf(ps, streams, x);
      if streams(last) == x {
        HeldWereWritten(front);
        OrderAfter(AfterAll(EMPTY, front), last, streams, Of(front, streams, x));
      } else {
        WriteKeepsOthers(AfterAll(EMPTY, front), last, streams, x);
      }
    }
  }

  /** In particular, if closing frames come last, every stream keeps its order. */
  lemma StreamsKeepOrder(ps: seq<Bytes>, streams: Streams, x: int)
    requires FinLast(ps, streams)
    ensures View(AfterAll(EMPTY, ps), streams, x) == Of(ps, streams, x)
  {
    StreamKeepsOrderIff(ps, streams, x);
  }

  /** Hence what the peer has of a stream is a beginning of what was written to it. */
  lemma EmittedIsPrefix(ps: seq<Bytes>, streams: Streams, x: int)
    requires NoneOvertakes(ps, streams, x)
    ensures Of(AfterAll(EMPTY, ps).emitted, streams, x) <= Of(ps, streams, x)
  {
    StreamKeepsOrderIff(ps, streams, x);
  }

  function Frames(s: Sticky): multiset<Bytes> {
    multiset(s.emitted) + multiset(s.syn) + multiset(s.fin)
  }

  lemma OneMoreFrame(s: Sticky, p: Bytes)
    ensures Frames(AfterWrite(s, p)) == Frames(s) + multiset{p}
  {
    if Opens(p) {
      assert multiset(s.syn + [p]) == multiset(s.syn) + multiset{p};
    } else if Closes(p) {
      assert multiset(s.fin + [p]) == multiset(s.fin) + multiset{p};
    } else {
      AllTogether(s.emitted, s.syn, p, s.fin);
    }
  }

  lemma AllTogether(a: seq<Bytes>, b: seq<Bytes>, p: Bytes, c: seq<Bytes>)
    ensures multiset(a + b + [p] + c) == multiset(a) + multiset(b) + multiset(c) + multiset{p}
  {
  }

  lemma OneMoreWritten(s: Sticky, front: seq<Bytes>, last: Bytes)
    requires Frames(s) == multiset(front)
    ensures Frames(AfterWrite(s, last)) == multiset(front + [last])
  {
    OneMoreFrame(s, last);
  }

  /** No frame is lost, made up or repeated. */
  lemma {:induction false} FramesArePermuted(ps: seq<Bytes>)
    ensures Frames(AfterAll(EMPTY, ps)) == multiset(ps)
    decreases |ps|
  {
    if ps != [] {
      var front, last := ps[..|ps| - 1], ps[|ps| - 1];
      FramesArePermuted(front);
      OneMoreWritten(AfterAll(EMPTY, front), front, last);
      assert ps == front + [last];
    }
  }

  lemma TwoWrites(p: Bytes, q: Bytes)
    ensures AfterAll(EMPTY, [p, q]) == AfterWrite(AfterWrite(EMPTY, p), q)
  {
    assert [p, q][..1] == [p] && [p][..0] == [];
    assert AfterAll(EMPTY, [p]) == AfterWrite(EMPTY, p);
  }

  /**
   On the bytes themselves: a header whose command is 0 waits and goes out ahead
   of the next payload, one whose command is 1 behind it; any other is sent at once.
   */
  lemma HeaderPlacement(p: Bytes, q: Bytes)
    requires |p| == 8 && (p[0] == 1 || p[0] == 2) && |q| != 8
    ensures var one, two := AfterAll(EMPTY, [p]), AfterAll(EMPTY, [p, q]);
            && one.emitted == (if p[1] == 0 || p[1] == 1 then [] else [p])
            && two.emitted == (if p[1] == 1 then [q, p] else [p, q])
            && two.syn == [] && two.fin == []
  {
    TwoWrites(p, q);
    assert [p][..0] == [];
  }

  /** A frame of another length or version, or with another command, is out with its own write, and so is all that was held back. */
  lemma OthersGoOut(s: Sticky, p: Bytes)
    requires |p| != 8 || (p[0] != 1 && p[0] != 2) || (p[1] != 0 && p[1] != 1)
    ensures AfterWrite(s, p) == Sticky(s.emitted + s.syn + [p] + s.fin, [], [])
  {
  }

  /** A frame after its stream's closing frame overtakes it. */
  lemma LateFrameOvertakes(fin: Bytes, late: Bytes, streams: Streams)
    requires Closes(fin) && IsPayload(late) && streams(fin) == streams(late)
    ensures AfterAll(EMPTY, [fin, late]).emitted == [late, fin]
  {
    TwoWrites(fin, late);
  }

  // ----- Closing -----

  const MAX_PADDING: nat := 512

  /** The padding that closing draws: the letters A to F, then zeros. */
  function Padding(n: nat): (r: Bytes)
    ensures |r| == n && (n > 0 ==> r[0] == 65)
  {
    seq(n, i requires 0 <= i < n => if i < 6 then 65 + i as Byte else 0)
  }

  /** Everything held back goes through one more write, with padding behind it. */
  function AfterClose(s: Sticky, n: nat): Sticky {
    AfterWrite(Sticky(s.emitted, [], []), Flatten(s.syn) + Flatten(s.fin) + Padding(n))
  }

  lemma {:induction false} HeadersFlat(frames: seq<Bytes>)
    requires forall p <- frames :: |p| == 8
    ensures |Flatten(frames)| == 8 * |frames|
    ensures |frames| == 1 ==> Flatten(frames) == frames[0]
  {
    if frames != [] {
      HeadersFlat(frames[..|frames| - 1]);
      assert |frames| == 1 ==> Flatten(frames[..0]) == [];
    }
  }

  /**
   Closing puts everything that was held back on the connection, with the
   padding, unless just one frame was held and no padding was drawn: that frame
   is taken for a header again, and never sent.
   */
  lemma CloseFlushesIff(s: Sticky, n: nat)
    requires Sorted(s) && n < MAX_PADDING
    ensures Flatten(AfterClose(s, n).emitted) == Flatten(s.emitted) + (Flatten(s.syn) + Flatten(s.fin) + Padding(n))
            <==> !(|s.syn| + |s.fin| == 1 && n == 0)
  {
    var data := Flatten(s.syn) + Flatten(s.fin) + Padding(n);
    HeadersFlat(s.syn);
    HeadersFlat(s.fin);
    assert |data| == 8 * (|s.syn| + |s.fin|) + n;
    if |s.syn| + |s.fin| == 1 && n == 0 {
      assert data == if |s.syn| == 1 then s.syn[0] else s.fin[0];
      assert !IsPayload(data);
    } else {
      assert |s.syn| + |s.fin| == 0 && n > 0 ==> data[0] == 65;
      assert IsPayload(data);
      assert AfterClose(s, n).emitted == s.emitted + [data];
      FlattenAppend(s.emitted, data);
    }
  }

  // ----- The connection object -----

  function Flatten(frames: seq<Bytes>): Bytes {
    if frames == [] then [] else Flatten(frames[..|frames| - 1]) + frames[|frames| - 1]
  }

  lemma FlattenAppend(frames: seq<Bytes>, p: Bytes)
    ensures Flatten(frames + [p]) == Flatten(frames) + p
  {
    assert (frames + [p])[..|frames|] == frames;
  }

  lemma {:induction false} FlattenConcat(a: seq<Bytes>, b: seq<Bytes>)
    ensures Flatten(a + b) == Flatten(a) + Flatten(b)
    decreases |b|
  {
    if b == [] {
      assert a + b == a;
    } else {
      var front, last := b[..|b| - 1], b[|b| - 1];
      assert a + b == (a + front) + [last] && b == front + [last];
      FlattenConcat(a, front);
      FlattenAppend(a + front, last);
      FlattenAppend(front, last);
      Reassociate(Flatten(a), Flatten(front), last);
    }
  }

  lemma OneTaken(taken: seq<Bytes>, queue: seq<Bytes>)
    requires queue != []
    ensures taken + [queue[0]] + queue[1..] == taken + queue
  {
  }

  datatype Outcome = Accepted | Blocked | Failed

  class StickyConn {
    const reliable: bool    // whether the underlying connection takes everything
    var wire: Bytes
    var synQueue: seq<Bytes>
    var finQueue: seq<Bytes>
    /** The frames written to the connection, while no write to it failed. */
    ghost var emitted: seq<Bytes>
    ghost var broken: bool

    ghost predicate Valid()
      reads this
    {
      |synQueue| <= CAPACITY && |finQueue| <= CAPACITY && (!broken ==> wire == Flatten(emitted))
    }

    ghost function Abs(): Sticky
      reads this
    {
      Sticky(emitted, synQueue, finQueue)
    }

    constructor (reliable: bool)
      ensures Valid() && Abs() == EMPTY && !broken && this.reliable == reliable
    {
      this.reliable := reliable;
      wire, synQueue, finQueue, emitted, broken := [], [], [], [], false;
    }

    /** Held-back opening frames, the payload, held-back closing frames; both queues end up empty. */
    method StickToPayload(p: Bytes) returns (buf: Bytes)
      requires Valid()
      modifies this`synQueue, this`finQueue
      ensures synQueue == [] && finQueue == []
      ensures buf == Flatten(old(synQueue) + [p] + old(finQueue))
    {
      buf := [];
      ghost var taken: seq<Bytes> := [];
      while synQueue != []
        invariant taken + synQueue == old(synQueue) && finQueue == old(finQueue) && buf == Flatten(taken)
        decreases |synQueue|
      {
        FlattenAppend(taken, synQueue[0]);
        OneTaken(taken, synQueue);
        buf := buf + synQueue[0];
        taken := taken + [synQueue[0]];
        synQueue := synQueue[1..];
      }
      assert taken + [] == taken == old(synQueue);
      FlattenAppend(taken, p);
      buf := buf + p;
      taken := taken + [p];
      while finQueue != []
        invariant synQueue == [] && buf == Flatten(taken) && taken + finQueue == old(synQueue) + [p] + old(finQueue)
        decreases |finQueue|
      {
        FlattenAppend(taken, finQueue[0]);
        OneTaken(taken, finQueue);
        buf := buf + finQueue[0];
        taken := taken + [finQueue[0]];
        finQueue := finQueue[1..];
      }
      assert taken + [] == taken;
    }

    /** The underlying connection: all of the data goes out, or some of it and an error comes back. */
    method Send(data: Bytes) returns (ok: bool)
      modifies this`wire
      ensures ok ==> wire == old(wire) + data
      ensures reliable ==> ok
      ensures old(wire) <= wire <= old(wire) + data
    {
      var n :| 0 <= n <= |data|;
      if reliable {
        n := |data|;
      }
      ok := n == |data|;
      wire := wire + data[..n];
      assert data[..|data|] == data;
    }

    /** A full queue blocks the caller; nothing changes then. */
    method Write(p: Bytes) returns (outcome: Outcome)
      requires Valid()
      modifies this
      ensures Valid()
      ensures outcome == Blocked <==> (Opens(p) && |old(synQueue)| == CAPACITY) || (Closes(p) && |old(finQueue)| == CAPACITY)
      ensures outcome == Blocked ==> Abs() == old(Abs()) && wire == old(wire) && broken == old(broken)
      ensures outcome == Accepted ==> Abs() == AfterWrite(old(Abs()), p) && broken == old(broken)
      ensures outcome == Accepted && IsPayload(p) ==> wire == old(wire) + Flatten(old(synQueue) + [p] + old(finQueue))
      ensures outcome == Accepted && !IsPayload(p) ==> wire == old(wire)
      ensures outcome == Failed ==> !reliable && IsPayload(p) && broken && synQueue == [] && finQueue == []
      ensures outcome == Failed ==> old(wire) <= wire <= old(wire) + Flatten(old(synQueue) + [p] + old(finQueue))
    {
      if |p| == 8 {
        if p[0] == 1 || p[0] == 2 {
          if p[1] == 0 {
            if |synQueue| == CAPACITY {
              return Blocked;
            }
            synQueue := synQueue + [p];
            return Accepted;
          } else if p[1] == 1 {
            if |finQueue| == CAPACITY {
              return Blocked;
            }
            finQueue := finQueue + [p];
            return Accepted;
          }
        }
      }
      ghost var group := synQueue + [p] + finQueue;
      var buf := StickToPayload(p);
      var ok := Send(buf);
      FlattenConcat(emitted, group);
      assert emitted + group == emitted + old(synQueue) + [p] + old(finQueue);
      emitted := emitted + group;
      broken := broken || !ok;
      outcome := if ok then Accepted else Failed;
    }

    /** Everything held back, and padding, in one more write. */
    method Close(n: nat) returns (outcome: Outcome)
      requires Valid() && n < MAX_PADDING
      modifies this
      ensures Valid() && outcome != Blocked
      ensures outcome == Accepted ==> Abs() == AfterClose(old(Abs()), n) && broken == old(broken)
      ensures outcome == Failed ==> !reliable && broken
    {
      FlattenConcat(synQueue + [[]], finQueue);
      FlattenAppend(synQueue, []);
      var buf := StickToPayload([]);
      assert buf == Flatten(old(synQueue)) + Flatten(old(finQueue));
      outcome := Write(buf + Padding(n));
    }
  }
}
