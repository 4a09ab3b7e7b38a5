/**
 The rewindable reader: a connection whose first bytes can be read, recorded
 and read again by somebody else.
 */
module RewindStream {
  import opened ByteStrings

  const LIMIT: nat := 1024 * 1024

  /** The reader's fields, and the bytes the peer sends with how many of them have been taken off the connection. */
  datatype Reader = Reader(stream: Bytes, rawPos: nat, buf: Bytes, index: nat, rewound: bool, buffering: bool, bufferSize: int) {
    predicate Valid() {
      rawPos <= |stream| && index <= |buf|
    }

    predicate Replaying() {
      rewound && index < |buf|
    }

    /** Everything that reads are going to deliver, in order. */
    function Upcoming(): Bytes
      requires Valid()
    {
      (if rewound then buf[index..] else []) + stream[rawPos..]
    }

    /** The recording is complete since `mark`. */
    predicate Intact(mark: nat)
      requires Valid()
    {
      mark <= rawPos && buf == stream[mark..rawPos]
    }
  }

  function Min(a: nat, b: nat): nat {
    if a <= b then a else b
  }

  // ----- Single operations -----

  /**
   A read into `want` bytes. While replaying it copies from the recording.
   Otherwise the connection gives `n` bytes; `stopped` says that recording was
   stopped while waiting for them.
   */
  predicate CanRead(s: Reader, want: nat, n: nat) {
    s.Valid() && n <= want && s.rawPos + n <= |s.stream|
  }

  function Fetched(s: Reader, n: nat): Bytes
    requires s.rawPos + n <= |s.stream|
  {
    s.stream[s.rawPos..s.rawPos + n]
  }

  /** The bytes come, but there is no room left to record them. */
  predicate OverLimit(s: Reader, n: nat, stopped: bool) {
    !s.Replaying() && s.buffering && !stopped && n > 0 && |s.buf| + n > LIMIT
  }

  function AfterRead(s: Reader, want: nat, n: nat, stopped: bool): (t: Reader)
    requires CanRead(s, want, n)
    ensures t.Valid()
  {
    if s.Replaying() then s.(index := s.index + Min(want, |s.buf| - s.index))
    else
      var t := s.(rewound := false, rawPos := s.rawPos + n, buffering := s.buffering && !stopped);
      if t.buffering && |s.buf| + n <= LIMIT then t.(buf := s.buf + Fetched(s, n)) else t
  }

  function Delivered(s: Reader, want: nat, n: nat): Bytes
    requires CanRead(s, want, n)
  {
    if s.Replaying() then s.buf[s.index..s.index + Min(want, |s.buf| - s.index)] else Fetched(s, n)
  }

  function AfterRewind(s: Reader): Reader {
    s.(rewound := true, index := 0)
  }

  function AfterStop(s: Reader): Reader {
    s.(buffering := false)
  }

  function AfterStart(s: Reader, size: int): Reader {
    s.(buffering := true, index := 0, bufferSize := size, buf := [])
  }

  function AfterDisable(s: Reader): Reader {
    s.(buffering := false, index := 0, bufferSize := 0, buf := [])
  }

  lemma NoReplay(s: Reader)
    requires s.Valid() && !s.Replaying()
    ensures s.Upcoming() == s.stream[s.rawPos..]
  {
    assert [] + s.stream[s.rawPos..] == s.stream[s.rawPos..];
  }

  lemma CutAt(bs: Bytes, i: nat, j: nat)
    requires i <= j <= |bs|
    ensures bs[i..j] + bs[j..] == bs[i..]
  {
  }

  lemma CutBefore(bs: Bytes, i: nat, j: nat, rest: Bytes)
    requires i <= j <= |bs|
    ensures bs[i..j] + (bs[j..] + rest) == bs[i..] + rest
  {
    Reassociate(bs[i..j], bs[j..], rest);
    CutAt(bs, i, j);
  }

  lemma ReplayTakesNext(s: Reader, want: nat, n: nat, stopped: bool)
    requires CanRead(s, want, n) && s.Replaying()
    ensures Delivered(s, want, n) + AfterRead(s, want, n, stopped).Upcoming() == s.Upcoming()
  {
    CutBefore(s.buf, s.index, s.index + Min(want, |s.buf| - s.index), s.stream[s.rawPos..]);
  }

  lemma FetchTakesNext(s: Reader, want: nat, n: nat, stopped: bool)
    requires CanRead(s, want, n) && !s.Replaying()
    ensures Delivered(s, want, n) + AfterRead(s, want, n, stopped).Upcoming() == s.Upcoming()
  {
    var t := AfterRead(s, want, n, stopped);
    assert t.stream == s.stream && t.rawPos == s.rawPos + n && !t.Replaying();
    NoReplay(s);
    NoReplay(t);
    CutAt(s.stream, s.rawPos, s.rawPos + n);
  }

  /** Whatever else happens, a read takes the next bytes and no others. */
  lemma ReadTakesNext(s: Reader, want: nat, n: nat, stopped: bool)
    requires CanRead(s, want, n)
    ensures Delivered(s, want, n) + AfterRead(s, want, n, stopped).Upcoming() == s.Upcoming()
  {
    if s.Replaying() {
      ReplayTakesNext(s, want, n, stopped);
    } else {
      FetchTakesNext(s, want, n, stopped);
    }
  }

  /** A rewind goes back to the mark exactly when the recording is complete. */
  lemma RewindIff(s: Reader, mark: nat)
    requires s.Valid() && mark <= s.rawPos
    ensures AfterRewind(s).Upcoming() == s.stream[mark..] <==> s.Intact(mark)
  {
    var up := AfterRewind(s).Upcoming();
    assert up == s.buf + s.stream[s.rawPos..];
    assert s.stream[mark..] == s.stream[mark..s.rawPos] + s.stream[s.rawPos..];
    if up == s.stream[mark..] {
      assert |s.buf| == |s.stream[mark..s.rawPos]|;
      assert s.buf == up[..|s.buf|];
      assert s.stream[mark..s.rawPos] == up[..|s.buf|];
    }
  }

  /** Starting or ending a recording loses bytes exactly when a replay is under way. */
  lemma ChangingModeKeepsIff(s: Reader, size: int)
    requires s.Valid()
    ensures AfterStart(s, size).Upcoming() == s.Upcoming() <==> !s.Replaying()
    ensures AfterDisable(s).Upcoming() == s.Upcoming() <==> !s.Replaying()
    ensures AfterStop(s).Upcoming() == s.Upcoming()
    ensures AfterStart(s, size).Intact(s.rawPos)
  {
    var rest := s.stream[s.rawPos..];
    assert AfterStart(s, size).Upcoming() == rest;
    assert AfterDisable(s).Upcoming() == rest;
    if s.Replaying() {
      assert |s.Upcoming()| > |rest|;
    } else {
      assert s.Upcoming() == rest;
    }
  }

  // ----- Whole runs -----

  datatype Event = Read(want: nat, n: nat, stopped: bool) | Rewind

  predicate Possible(s: Reader, e: Event) {
    match e
    case Read(want, n, _) => CanRead(s, want, n)
    case Rewind => s.Valid() && s.bufferSize != 0
  }

  function After(s: Reader, e: Event): (t: Reader)
    requires Possible(s, e)
    ensures t.Valid()
  {
    match e
    case Read(want, n, stopped) => AfterRead(s, want, n, stopped)
    case Rewind => AfterRewind(s)
  }

  predicate Run(s: Reader, events: seq<Event>, t: Reader)
    decreases |events|
  {
    if events == [] then s == t
    else Possible(s, events[0]) && Run(After(s, events[0]), events[1..], t)
  }

  /** No read of the run hit the recording limit, and recording was on for all of it. */
  predicate NeverOver(s: Reader, events: seq<Event>)
    decreases |events|
  {
    events != [] && Possible(s, events[0]) ==>
      NoneLost(s, events[0]) && NeverOver(After(s, events[0]), events[1..])
  }

  /** This event leaves no fetched byte unrecorded. */
  predicate NoneLost(s: Reader, e: Event) {
    e.Read? ==> s.Replaying() || e.n == 0 || (s.buffering && !e.stopped && |s.buf| + e.n <= LIMIT)
  }

  /** Where the consumer is in the stream after an event: further on, or back at the mark. */
  function Moved(s: Reader, mark: nat, pos: nat, e: Event): nat
    requires Possible(s, e)
  {
    match e
    case Read(want, n, _) => pos + |Delivered(s, want, n)|
    case Rewind => mark
  }

  /** The recording starts at `mark`, the consumer is at `pos`, and nothing is missing. */
  predicate Recording(s: Reader, mark: nat, pos: nat) {
    s.Valid() && s.Intact(mark) && mark <= pos <= |s.stream| && s.Upcoming() == s.stream[pos..]
  }

  /** Each event of such a run delivers exactly the bytes at the consumer's position. */
  predicate Transparent(s: Reader, mark: nat, pos: nat, events: seq<Event>)
    requires mark <= |s.stream|
    decreases |events|
  {
    events != [] && Possible(s, events[0]) ==>
      var pos' := Moved(s, mark, pos, events[0]);
      && pos' <= |s.stream|
      && (events[0].Read? ==> pos <= pos' && Delivered(s, events[0].want, events[0].n) == s.stream[pos..pos'])
      && Transparent(After(s, events[0]), mark, pos', events[1..])
  }

  lemma ReadKeepsIntact(s: Reader, mark: nat, want: nat, n: nat, stopped: bool)
    requires s.Valid() && s.Intact(mark) && CanRead(s, want, n) && NoneLost(s, Read(want, n, stopped))
    ensures AfterRead(s, want, n, stopped).Intact(mark)
  {
    assert s.stream[mark..s.rawPos] + Fetched(s, n) == s.stream[mark..s.rawPos + n];
  }

  lemma ReadKeepsRecording(s: Reader, mark: nat, pos: nat, want: nat, n: nat, stopped: bool)
    requires Recording(s, mark, pos) && CanRead(s, want, n) && NoneLost(s, Read(want, n, stopped))
    ensures Recording(AfterRead(s, want, n, stopped), mark, pos + |Delivered(s, want, n)|)
    ensures Delivered(s, want, n) == s.stream[pos..pos + |Delivered(s, want, n)|]
  {
    var t, out := AfterRead(s, want, n, stopped), Delivered(s, want, n);
    ReadKeepsIntact(s, mark, want, n, stopped);
    assert out == s.stream[pos..pos + |out|] && pos + |out| <= |s.stream| && t.Upcoming() == s.stream[pos + |out|..] by {
      ReadTakesNext(s, want, n, stopped);
      PartsOf(out, t.Upcoming(), s.stream, pos);
    }
  }

  lemma EventKeepsRecording(s: Reader, mark: nat, pos: nat, e: Event)
    requires Recording(s, mark, pos) && Possible(s, e) && NoneLost(s, e)
    ensures Recording(After(s, e), mark, Moved(s, mark, pos, e))
    ensures e.Read? ==> Delivered(s, e.want, e.n) == s.stream[pos..Moved(s, mark, pos, e)]
  {
    match e
    case Rewind => RewindIff(s, mark);
    case Read(want, n, stopped) => ReadKeepsRecording(s, mark, pos, want, n, stopped);
  }

  /**
   Rewind transparency: reads of any sizes and any number of rewinds deliver the
   stream at the consumer's position, as long as every fetched byte is recorded.
   */
  lemma {:induction false} RunIsTransparent(s: Reader, mark: nat, pos: nat, events: seq<Event>, t: Reader)
    requires Recording(s, mark, pos) && Run(s, events, t) && NeverOver(s, events)
    ensures Transparent(s, mark, pos, events)
    ensures t.Valid() && t.stream == s.stream && t.Intact(mark)
    decreases |events|
  {
    if events != [] {
      EventKeepsRecording(s, mark, pos, events[0]);
      RunIsTransparent(After(s, events[0]), mark, Moved(s, mark, pos, events[0]), events[1..], t);
    }
  }

  /** Once a byte is missing from the recording it stays missing. */
  lemma {:induction false} MissingStays(s: Reader, mark: nat, events: seq<Event>, t: Reader)
    requires s.Valid() && mark <= s.rawPos && |s.buf| < s.rawPos - mark && Run(s, events, t)
    ensures t.Valid() && t.stream == s.stream && mark <= t.rawPos && !t.Intact(mark)
    decreases |events|
  {
    if events != [] {
      MissingStays(After(s, events[0]), mark, events[1..], t);
    }
  }

  /** A rewind after the run starts over from the mark if and only if no fetched byte went unrecorded. */
  lemma {:induction false} RewindStartsOverIff(s: Reader, mark: nat, pos: nat, events: seq<Event>, t: Reader)
    requires Recording(s, mark, pos) && Run(s, events, t)
    ensures t.Valid() && t.stream == s.stream
    ensures AfterRewind(t).Upcoming() == s.stream[mark..] <==> NeverOver(s, events)
    decreases |events|
  {
    if events == [] {
      RewindIff(t, mark);
    } else {
      var next := After(s, events[0]);
      if NoneLost(s, events[0]) {
        EventKeepsRecording(s, mark, pos, events[0]);
        RewindStartsOverIff(next, mark, Moved(s, mark, pos, events[0]), events[1..], t);
      } else {
        assert |next.buf| < next.rawPos - mark;
        MissingStays(next, mark, events[1..], t);
        RewindIff(t, mark);
      }
    }
  }

  /** All that the reads of a run deliver, one after the other. */
  function Output(s: Reader, events: seq<Event>): Bytes
    decreases |events|
  {
    if events == [] || !Possible(s, events[0]) || events[0].Rewind? then []
    else Delivered(s, events[0].want, events[0].n) + Output(After(s, events[0]), events[1..])
  }

  /** The next consumer, who only reads, sees what was upcoming once and in order. */
  lemma {:induction false} ConsumerSeesUpcoming(s: Reader, events: seq<Event>, t: Reader)
    requires s.Valid() && Run(s, events, t) && forall e <- events :: e.Read?
    ensures t.Valid() && Output(s, events) + t.Upcoming() == s.Upcoming()
    decreases |events|
  {
    if events != [] {
      var e, next := events[0], After(s, events[0]);
      ReadTakesNext(s, e.want, e.n, e.stopped);
      ConsumerSeesUpcoming(next, events[1..], t);
      Reassociate(Delivered(s, e.want, e.n), Output(next, events[1..]), t.Upcoming());
    }
  }

  /** Record, rewind, stop: the next consumer gets the stream from the mark on, once and in order. */
  lemma HandedOverFromMark(s: Reader, mark: nat, pos: nat, events: seq<Event>, t: Reader, later: seq<Event>, u: Reader)
    requires Recording(s, mark, pos) && Run(s, events, t) && NeverOver(s, events)
    requires t.Valid() && Run(AfterStop(AfterRewind(t)), later, u) && forall e <- later :: e.Read?
    ensures u.Valid() && Output(AfterStop(AfterRewind(t)), later) + u.Upcoming() == s.stream[mark..]
  {
    RewindStartsOverIff(s, mark, pos, events, t);
    ChangingModeKeepsIff(AfterRewind(t), 0);
    ConsumerSeesUpcoming(AfterStop(AfterRewind(t)), later, u);
  }
}
