/**
 The geodata scanner: finds one entry of a protobuf list by its code, skipping
 over the others by their length fields instead of decoding them.
 */
module Geodata {
  import opened Basics
  import opened ByteStrings

  const INT64_MAX: nat := 0x7FFF_FFFF_FFFF_FFFF
  const TWO_64: nat := 0x1_0000_0000_0000_0000

  /** Conversion to a signed 64-bit value, as of an unsigned one or of a sum that overflows once. */
  function ToInt64(x: int): int {
    if x > INT64_MAX then x - TWO_64 else if x + INT64_MAX < -1 then x + TWO_64 else x
  }

  // ----- Base 128 varints -----

  function VarintValue(bs: Bytes): nat {
    if bs == [] then 0 else bs[0] % 128 + 128 * VarintValue(bs[1..])
  }

  /** Continuation bytes followed by one final byte. */
  predicate VarintShape(bs: Bytes) {
    bs != [] && bs[|bs| - 1] < 128 && forall k :: 0 <= k < |bs| - 1 ==> bs[k] >= 128
  }

  /** A varint of at most 64 bits. */
  predicate IsVarint(bs: Bytes) {
    VarintShape(bs) && (|bs| < 10 || (|bs| == 10 && bs[9] < 2))
  }

  function ConsumeVarint(bs: Bytes): Option<nat> {
    if IsVarint(bs) then Some(VarintValue(bs)) else None
  }

  // ----- What the scanner computes, entry by entry -----

  datatype Outcome = Found(body: Bytes) | CodeNotFound | InvalidFile | InvalidVarint | ShortRead

  /** What is looked for, and the largest position the file system lets a file have. */
  datatype Search = Search(code: Bytes, same: (Bytes, Bytes) -> bool, limit: nat) {
    predicate Matches(read: Bytes) {
      same(read, code)
    }
  }

  datatype LengthRead = Eof | Bad | Length(value: nat, next: nat)

  /** The varint that starts at t, of any length; Length(value, next) has the position behind it. */
  function ReadVarint(file: Bytes, t: nat): (r: LengthRead)
    requires t <= |file|
    ensures r.Length? ==> t < r.next <= |file|
    decreases |file| - t
  {
    if t == |file| then Eof
    else if file[t] < 128 then Length(file[t], t + 1)
    else
      match ReadVarint(file, t + 1)
      case Length(v, next) => Length(file[t] % 128 + 128 * v, next)
      case other => other
  }

  /** A varint of at most 64 bits. */
  function ReadLength(file: Bytes, t: nat): LengthRead
    requires t <= |file|
  {
    match ReadVarint(file, t)
    case Length(v, next) => if next - t > 10 || (next - t == 10 && file[t + 9] >= 2) then Bad else Length(v, next)
    case other => other
  }

  function Left(file: Bytes, p: nat): nat {
    if p < |file| then |file| - p else 0
  }

  /** An entry's lengths: its body starts at `body` and is `size` long; its code starts at `at` and is `n` long. */
  datatype Header = Stop(outcome: Outcome) | Header(size: nat, body: nat, n: nat, at: nat)

  function HeaderOf(file: Bytes, p: nat): (h: Header)
    ensures h.Header? ==> p < h.body < h.at <= |file|
  {
    if p >= |file| then Stop(CodeNotFound)
    else if file[p] != 10 then Stop(InvalidFile)
    else
      match ReadLength(file, p + 1)
      case Eof => Stop(CodeNotFound)
      case Bad => Stop(InvalidVarint)
      case Length(size, q) =>
        if q >= |file| then Stop(CodeNotFound)
        else if file[q] != 10 then Stop(InvalidFile)
        else
          match ReadLength(file, q + 1)
          case Eof => Stop(CodeNotFound)
          case Bad => Stop(InvalidVarint)
          case Length(n, r) => Header(size, q, n, r)
  }

  datatype Next = Answer(outcome: Outcome) | Skip(next: nat)

  /** With an entry's lengths known: its body if its code matches, else go on behind it. */
  function AfterHeader(file: Bytes, h: Header, find: Search): (r: Next)
    ensures r.Skip? ==> h.Header? && r.next == h.body + h.size
  {
    match h
    case Stop(outcome) => Answer(outcome)
    case Header(size, q, n, r) =>
      if n > 0 && r >= |file| then Answer(CodeNotFound)
      else if r + n > |file| then Answer(ShortRead)
      else if !find.Matches(file[r..r + n]) then Skip(q + size)
      else if q + size > |file| then Answer(ShortRead)
      else Answer(Found(file[q..q + size]))
  }

  /** Scanning from the start of an entry. */
  function Scan(file: Bytes, p: nat, find: Search): Outcome
    decreases Left(file, p)
  {
    match AfterHeader(file, HeaderOf(file, p), find)
    case Answer(outcome) => outcome
    case Skip(next) => Scan(file, next, find)
  }

  /** Every entry that is skipped ends at a position the file system allows. */
  predicate SkipsFit(file: Bytes, p: nat, find: Search)
    decreases Left(file, p)
  {
    match AfterHeader(file, HeaderOf(file, p), find)
    case Answer(_) => true
    case Skip(next) => next <= find.limit && SkipsFit(file, next, find)
  }

  // ----- What the scanner does when a skip does not fit -----

  /** The position after a relative seek; one that leads out of range fails and moves nothing. */
  function Seek(pos: nat, offset: int, limit: nat): nat {
    if 0 <= pos + offset <= limit then pos + offset else pos
  }

  /** Where scanning goes on after an entry that did not match. */
  function Landing(h: Header, find: Search): nat
    requires h.Header?
  {
    Seek(h.at + h.n, ToInt64(ToInt64(h.size) - (h.n + (h.at - h.body))), find.limit)
  }

  /** The entry at p is skipped. */
  predicate Skips(file: Bytes, p: nat, find: Search) {
    AfterHeader(file, HeaderOf(file, p), find).Skip?
  }

  /** Where the scanner goes on after the entry at p. */
  function Hop(file: Bytes, p: nat, find: Search): nat
    requires Skips(file, p, find)
  {
    Landing(HeaderOf(file, p), find)
  }

  function Positions(n: nat): (r: set<nat>)
    ensures forall i :: i in r <==> 0 <= i < n
  {
    if n == 0 then {} else Positions(n - 1) + {n - 1}
  }

  /** Scanning with the seeks as they are; None if it comes back to an entry, that is, to one not left to visit. */
  function Walk(file: Bytes, p: nat, left: set<nat>, find: Search): Option<Outcome>
    decreases left
  {
    match AfterHeader(file, HeaderOf(file, p), find)
    case Answer(outcome) => Some(outcome)
    case Skip(_) => if p !in left then None else Walk(file, Hop(file, p, find), left - {p}, find)
  }

  /** The scanner's answer, if it gets to one. */
  function Answered(file: Bytes, find: Search): Option<Outcome> {
    Walk(file, 0, Positions(|file|), find)
  }

  // ----- The scanner as it runs -----

  /** The loop's variables. */
  datatype Machine = Machine(
    pos: nat, count: nat, isInner: bool, temp: Bytes, advanced: nat, geoLength: nat, codeLength: nat, lengthBytes: nat)

  datatype Progress = Done(outcome: Outcome) | Continue(machine: Machine)

  const INITIAL: Machine := Machine(0, 1, false, [], 1, 0, 0, 0)

  /** States 1 and 3: a tag byte. */
  function OnTag(m: Machine, b: Byte): Progress {
    if b != 10 then Done(InvalidFile) else Continue(m.(advanced := 1, count := m.count + 1))
  }

  /** States 2 and 4: one more byte of a length. */
  function OnLength(m: Machine, b: Byte): Progress {
    var temp := m.temp + [b];
    if b > 127 then Continue(m.(temp := temp, advanced := 1))
    else
      match ConsumeVarint(temp)
      case None => Done(InvalidVarint)
      case Some(v) =>
        if !m.isInner then Continue(m.(temp := [], isInner := true, geoLength := v, advanced := 1, count := m.count + 1))
        else Continue(m.(temp := [], isInner := false, codeLength := v, lengthBytes := |temp|, advanced := v, count := m.count + 1))
  }

  /** State 5: the code. A match goes back to the body's start, anything else skips to its end. */
  function OnCode(m: Machine, read: Bytes, find: Search): Progress {
    if find.Matches(read) then
      Continue(m.(count := 6, pos := Seek(m.pos, -(1 + ToInt64(m.lengthBytes) + ToInt64(m.codeLength)), find.limit), advanced := m.geoLength))
    else
      Continue(m.(count := 1, advanced := 1,
                  pos := Seek(m.pos, ToInt64(ToInt64(m.geoLength) - ToInt64(m.codeLength) - ToInt64(m.lengthBytes) - 1), find.limit)))
  }

  /** One pass through the loop: read as many bytes as the state asks for, then act on them. */
  function Pass(file: Bytes, find: Search, m: Machine): Progress {
    if m.advanced > 0 && m.pos >= |file| then Done(CodeNotFound)
    else if m.advanced > 0 && m.pos + m.advanced > |file| then Done(ShortRead)
    else
      var read := if m.advanced == 0 then [] else file[m.pos..m.pos + m.advanced];
      var next := m.(pos := m.pos + m.advanced);
      if (m.count == 1 || m.count == 3) && read != [] then OnTag(next, read[0])
      else if (m.count == 2 || m.count == 4) && read != [] then OnLength(next, read[0])
      else if m.count == 5 then OnCode(next, read, find)
      else Done(Found(read))
  }

  // ----- Each pass keeps track of the specification -----

  /** Part of a length field has been read: it starts at t and all bytes so far are continuation bytes. */
  predicate InLength(file: Bytes, m: Machine, t: nat) {
    && m.pos == t + |m.temp| <= |file| && m.temp == file[t..m.pos] && m.advanced == 1
    && forall k :: 0 <= k < |m.temp| ==> m.temp[k] >= 128
  }

  /** How far into the entry at `entry` the machine has got. */
  ghost predicate Tracks(file: Bytes, m: Machine, entry: nat, body: nat) {
    match m.count
    case 1 => m.pos == entry && m.temp == [] && !m.isInner && m.advanced == 1
    case 2 => entry < |file| && file[entry] == 10 && !m.isInner && InLength(file, m, entry + 1)
    case 3 => InBody(file, m, entry, body) && m.pos == body && m.temp == [] && m.isInner && m.advanced == 1
    case 4 => InBody(file, m, entry, body) && body < |file| && file[body] == 10 && m.isInner && InLength(file, m, body + 1)
    case 5 => m.temp == [] && !m.isInner && m.advanced == m.codeLength && m.pos == body + 1 + m.lengthBytes
              && HeaderOf(file, entry) == Header(m.geoLength, body, m.codeLength, m.pos)
    case _ => false
  }

  ghost predicate InBody(file: Bytes, m: Machine, entry: nat, body: nat) {
    entry < |file| && file[entry] == 10 && entry < body <= |file| && ReadLength(file, entry + 1) == Length(m.geoLength, body)
  }

  /** Continuation bytes up to a final one are what the length field at t is. */
  lemma {:induction false} VarintFound(file: Bytes, t: nat, q: nat)
    requires t <= q < |file| && file[q] < 128 && forall k :: t <= k < q ==> file[k] >= 128
    ensures ReadVarint(file, t) == Length(VarintValue(file[t..q + 1]), q + 1)
    decreases q - t
  {
    assert file[t..q + 1][1..] == file[t + 1..q + 1];
    if t < q {
      VarintFound(file, t + 1, q);
    } else {
      assert VarintValue(file[t + 1..q + 1]) == 0;
    }
  }

  /** A file that ends inside a length field has no length there. */
  lemma {:induction false} VarintCut(file: Bytes, t: nat)
    requires t <= |file| && forall k :: t <= k < |file| ==> file[k] >= 128
    ensures ReadVarint(file, t) == Eof
    decreases |file| - t
  {
    if t < |file| {
      VarintCut(file, t + 1);
    }
  }

  /** The bytes from t on, read as a length. */
  lemma LengthOf(file: Bytes, t: nat, bs: Bytes)
    requires VarintShape(bs) && Holds(file, t, bs)
    ensures ReadLength(file, t) == if IsVarint(bs) then Length(VarintValue(bs), t + |bs|) else Bad
  {
    assert forall k :: 0 <= k < |bs| ==> file[t + k] == bs[k];
    var q := t + |bs| - 1;
    assert forall k :: t <= k < q ==> file[k] == bs[k - t];
    VarintFound(file, t, q);
  }

  /** The file has these bytes at p. */
  predicate Holds(file: Bytes, p: nat, bs: Bytes) {
    p + |bs| <= |file| && file[p..p + |bs|] == bs
  }

  /** Reading one more byte of a length: still inside it, or exactly the length is known. */
  lemma LengthByte(file: Bytes, m: Machine, t: nat)
    requires t <= |file| && InLength(file, m, t)
    ensures m.pos == |file| ==> ReadLength(file, t) == Eof
    ensures m.pos < |file| && file[m.pos] >= 128 ==> InLength(file, m.(pos := m.pos + 1, temp := m.temp + [file[m.pos]]), t)
    ensures m.pos < |file| && file[m.pos] < 128 ==>
              ReadLength(file, t) == match ConsumeVarint(m.temp + [file[m.pos]])
                                     case None => Bad
                                     case Some(v) => Length(v, m.pos + 1)
  {
    assert forall k :: t <= k < m.pos ==> file[k] == m.temp[k - t];
    if m.pos == |file| {
      VarintCut(file, t);
    } else if file[m.pos] < 128 {
      var bs := m.temp + [file[m.pos]];
      assert file[t..m.pos + 1] == bs;
      LengthOf(file, t, bs);
    }
  }

  /** One pass over an entry's header gets further into it, or ends as the header says. */
  ghost predicate Advances(file: Bytes, p: Progress, entry: nat, body: nat) {
    match p
    case Done(r) => HeaderOf(file, entry) == Stop(r)
    case Continue(n) => Tracks(file, n, entry, NextBody(n, body))
  }

  function NextBody(n: Machine, body: nat): nat {
    if n.count == 3 then n.pos else body
  }

  /** A pass that asks for one byte. */
  lemma PassOneByte(file: Bytes, find: Search, m: Machine)
    requires m.advanced == 1 && 1 <= m.count <= 4
    ensures Pass(file, find, m) ==
            if m.pos >= |file| then Done(CodeNotFound)
            else if m.count == 1 || m.count == 3 then OnTag(m.(pos := m.pos + 1), file[m.pos])
            else OnLength(m.(pos := m.pos + 1), file[m.pos])
  {
    if m.pos < |file| {
      assert file[m.pos..m.pos + 1] == [file[m.pos]];
    }
  }

  lemma TagAdvances(file: Bytes, find: Search, m: Machine, entry: nat, body: nat)
    requires Tracks(file, m, entry, body) && (m.count == 1 || m.count == 3)
    ensures Advances(file, Pass(file, find, m), entry, body)
  {
    PassOneByte(file, find, m);
    if m.pos < |file| && file[m.pos] == 10 {
      assert InLength(file, m.(pos := m.pos + 1), m.pos + 1);
    }
  }

  lemma OuterLengthAdvances(file: Bytes, find: Search, m: Machine, entry: nat, body: nat)
    requires Tracks(file, m, entry, body) && m.count == 2
    ensures Advances(file, Pass(file, find, m), entry, body)
  {
    LengthByte(file, m, entry + 1);
    PassOneByte(file, find, m);
  }

  lemma InnerLengthAdvances(file: Bytes, find: Search, m: Machine, entry: nat, body: nat)
    requires Tracks(file, m, entry, body) && m.count == 4
    ensures Advances(file, Pass(file, find, m), entry, body)
  {
    LengthByte(file, m, body + 1);
    PassOneByte(file, find, m);
  }

  lemma HeaderAdvances(file: Bytes, find: Search, m: Machine, entry: nat, body: nat)
    requires Tracks(file, m, entry, body) && m.count < 5
    ensures Advances(file, Pass(file, find, m), entry, body)
  {
    match m.count {
      case 2 => OuterLengthAdvances(file, find, m, entry, body);
      case 4 => InnerLengthAdvances(file, find, m, entry, body);
      case _ => TagAdvances(file, find, m, entry, body);
    }
  }

  /** The code's bytes: the two seeks land on the body's start and on its end. */
  lemma CodeAdvances(file: Bytes, find: Search, m: Machine, h: Header)
    requires |file| <= find.limit <= INT64_MAX && h.Header? && h.at <= |file|
    requires m.count == 5 && m.temp == [] && !m.isInner && m.pos == h.at == h.body + 1 + m.lengthBytes
    requires m.geoLength == h.size && m.advanced == m.codeLength == h.n
    ensures match Pass(file, find, m)
            case Done(r) => AfterHeader(file, h, find) == Answer(r)
            case Continue(n) =>
              if n.count == 1 then
                && AfterHeader(file, h, find) == Skip(h.body + h.size)
                && n.temp == [] && !n.isInner && n.advanced == 1
                && n.pos == Landing(h, find)
              else
                n.count == 6 && Pass(file, find, n).Done?
                && AfterHeader(file, h, find) == Answer(Pass(file, find, n).outcome)
  {
    if h.n == 0 {
      assert file[h.at..h.at] == [];
    }
    if h.size == 0 {
      assert file[h.body..h.body] == [];
    }
  }

  /** What the rest of the run gives, as long as the entry is not yet decided. */
  ghost predicate Undecided(file: Bytes, find: Search, m: Machine, entry: nat, body: nat, left: set<nat>, goal: Outcome) {
    Tracks(file, m, entry, body) && Walk(file, entry, left, find) == Some(goal)
  }

  ghost predicate Decided(file: Bytes, find: Search, m: Machine, goal: Outcome) {
    m.count == 6 && Pass(file, find, m) == Done(goal)
  }

  /** Another part of the header, or one more byte of the same. */
  predicate Onward(file: Bytes, m: Machine, n: Machine) {
    n.count > m.count || (n.count == m.count && m.pos < |file| && n.pos == m.pos + 1)
  }

  lemma HeaderPass(file: Bytes, find: Search, m: Machine, entry: nat, body: nat, left: set<nat>, goal: Outcome)
    returns (nextBody: nat)
    requires Undecided(file, find, m, entry, body, left, goal) && m.count < 5
    ensures match Pass(file, find, m)
            case Done(r) => r == goal
            case Continue(n) => Onward(file, m, n) && n.count <= 5 && Undecided(file, find, n, entry, nextBody, left, goal)
  {
    HeaderAdvances(file, find, m, entry, body);
    match Pass(file, find, m)
    case Done(_) => nextBody := 0;
    case Continue(n) => nextBody := NextBody(n, body);
  }

  /** The entry is decided, or scanning goes on at another one, with one entry less to visit. */
  lemma CodePass(file: Bytes, find: Search, m: Machine, entry: nat, body: nat, left: set<nat>, goal: Outcome)
    requires |file| <= find.limit <= INT64_MAX && Undecided(file, find, m, entry, body, left, goal) && m.count == 5
    ensures match Pass(file, find, m)
            case Done(r) => r == goal
            case Continue(n) =>
              || Decided(file, find, n, goal)
              || (entry in left && n.count == 1 && Undecided(file, find, n, n.pos, 0, left - {entry}, goal))
  {
    CodeAdvances(file, find, m, HeaderOf(file, entry));
  }

  /** A skip lands behind the entry exactly when the entry ends at a position the file system allows. */
  lemma SkipLandsIff(file: Bytes, find: Search, m: Machine, entry: nat, body: nat)
    requires |file| <= find.limit <= INT64_MAX && Tracks(file, m, entry, body) && m.count == 5
    requires AfterHeader(file, HeaderOf(file, entry), find).Skip?
    ensures var p := Pass(file, find, m);
            p.Continue? && (AfterHeader(file, HeaderOf(file, entry), find) == Skip(p.machine.pos) <==> body + m.geoLength <= find.limit)
  {
    CodeAdvances(file, find, m, HeaderOf(file, entry));
  }

  lemma FittingLands(h: Header, find: Search)
    requires h.Header? && h.body < h.at && h.at + h.n <= find.limit <= INT64_MAX
    ensures Landing(h, find) == h.body + h.size <==> h.body + h.size <= find.limit
    ensures h.size <= INT64_MAX ==> Landing(h, find) >= h.body
  {
  }

  // One step of each, for proofs that take one step at a time.

  lemma ScanStep(file: Bytes, p: nat, h: Header, r: Next, find: Search)
    requires HeaderOf(file, p) == h && AfterHeader(file, h, find) == r
    ensures r.Answer? ==> Scan(file, p, find) == r.outcome && SkipsFit(file, p, find)
    ensures r.Skip? ==> Scan(file, p, find) == Scan(file, r.next, find)
    ensures r.Skip? ==> (SkipsFit(file, p, find) <==> r.next <= find.limit && SkipsFit(file, r.next, find))
  {
  }

  lemma WalkStep(file: Bytes, p: nat, h: Header, r: Next, left: set<nat>, find: Search)
    requires HeaderOf(file, p) == h && AfterHeader(file, h, find) == r
    ensures r.Answer? ==> Walk(file, p, left, find) == Some(r.outcome)
    ensures r.Skip? && p in left ==> Walk(file, p, left, find) == Walk(file, Landing(h, find), left - {p}, find)
  {
  }

  /** No entry from p on has been visited. */
  predicate Ahead(file: Bytes, p: nat, left: set<nat>) {
    forall q :: p <= q < |file| ==> q in left
  }

  /** Where all skips fit, the walk ends and is scanning entry by entry. */
  lemma {:induction false} WalkIsScan(file: Bytes, p: nat, left: set<nat>, find: Search)
    requires |file| <= find.limit <= INT64_MAX && SkipsFit(file, p, find) && Ahead(file, p, left)
    ensures Walk(file, p, left, find) == Some(Scan(file, p, find))
    decreases Left(file, p)
  {
    var h := HeaderOf(file, p);
    var r := AfterHeader(file, h, find);
    ScanStep(file, p, h, r, find);
    WalkStep(file, p, h, r, left, find);
    if r.Skip? {
      FittingLands(h, find);
      WalkIsScan(file, r.next, left - {p}, find);
    }
  }

  /** Every skipped length met on the way fits in a signed 64-bit integer. */
  predicate Forward(file: Bytes, p: nat, find: Search)
    decreases Left(file, p)
  {
    Skips(file, p, find) ==>
      HeaderOf(file, p).size <= INT64_MAX && Hop(file, p, find) > p && Forward(file, Hop(file, p, find), find)
  }

  /** Then no skip leads backwards, and the walk ends. */
  lemma {:induction false} ForwardEnds(file: Bytes, p: nat, left: set<nat>, find: Search)
    requires Forward(file, p, find) && Ahead(file, p, left)
    ensures Walk(file, p, left, find).Some?
    decreases Left(file, p)
  {
    if Skips(file, p, find) {
      ForwardEnds(file, Hop(file, p, find), left - {p}, find);
    }
  }

  /** The positions at which entries are taken to start, by their lengths. */
  function Starts(file: Bytes, p: nat, find: Search): seq<nat>
    decreases Left(file, p)
  {
    match AfterHeader(file, HeaderOf(file, p), find)
    case Answer(_) => [p]
    case Skip(next) => [p] + Starts(file, next, find)
  }

  /** The positions the scanner visits, up to an answer or to one it has visited before. */
  function Visited(file: Bytes, p: nat, left: set<nat>, find: Search): seq<nat>
    decreases left
  {
    if !Skips(file, p, find) || p !in left then [p] else [p] + Visited(file, Hop(file, p, find), left - {p}, find)
  }

  lemma StartsStep(file: Bytes, p: nat, h: Header, r: Next, left: set<nat>, find: Search)
    requires HeaderOf(file, p) == h && AfterHeader(file, h, find) == r
    ensures Starts(file, p, find) == if r.Answer? then [p] else [p] + Starts(file, r.next, find)
    ensures Visited(file, p, left, find) == if r.Answer? || p !in left then [p] else [p] + Visited(file, Landing(h, find), left - {p}, find)
    ensures r.Skip? ==> Starts(file, r.next, find)[0] == r.next && Visited(file, Landing(h, find), left - {p}, find)[0] == Landing(h, find)
  {
  }

  lemma {:induction false} VisitsFromIff(file: Bytes, p: nat, left: set<nat>, find: Search)
    requires |file| <= find.limit <= INT64_MAX && Ahead(file, p, left)
    ensures Visited(file, p, left, find) == Starts(file, p, find) <==> SkipsFit(file, p, find)
    decreases Left(file, p)
  {
    var h := HeaderOf(file, p);
    var r := AfterHeader(file, h, find);
    ScanStep(file, p, h, r, find);
    StartsStep(file, p, h, r, left, find);
    if r.Skip? {
      FittingLands(h, find);
      var here, there := Visited(file, Landing(h, find), left - {p}, find), Starts(file, r.next, find);
      assert ([p] + here)[1..] == here && ([p] + there)[1..] == there;
      if r.next <= find.limit {
        VisitsFromIff(file, r.next, left - {p}, find);
      }
    }
  }

  /** The scanner visits exactly the entries of the file, and ends, if and only if every skip fits. */
  lemma VisitsEntriesIff(file: Bytes, find: Search)
    requires |file| <= find.limit <= INT64_MAX
    ensures Visited(file, 0, Positions(|file|), find) == Starts(file, 0, find) <==> SkipsFit(file, 0, find)
    ensures SkipsFit(file, 0, find) ==> Answered(file, find) == Some(Scan(file, 0, find))
  {
    VisitsFromIff(file, 0, Positions(|file|), find);
    if SkipsFit(file, 0, find) {
      WalkIsScan(file, 0, Positions(|file|), find);
    }
  }

  /** The scanner's loop, on every file on which it ends, with the walk's answer. */
  method EmitBytes(file: Bytes, find: Search) returns (r: Outcome)
    requires |file| <= find.limit <= INT64_MAX && Answered(file, find).Some?
    ensures Answered(file, find) == Some(r)
    ensures SkipsFit(file, 0, find) ==> r == Scan(file, 0, find)
  {
    VisitsEntriesIff(file, find);
    var m := INITIAL;
    ghost var entry: nat, body: nat, left, goal := 0, 0, Positions(|file|), Answered(file, find).value;
    while m.count != 6
      invariant m.count <= 6
      invariant if m.count == 6 then Decided(file, find, m, goal) else Undecided(file, find, m, entry, body, left, goal)
      decreases left, 6 - m.count, Left(file, m.pos)
    {
      var progress := Pass(file, find, m);
      if m.count < 5 {
        body := HeaderPass(file, find, m, entry, body, left, goal);
      } else {
        CodePass(file, find, m, entry, body, left, goal);
      }
      match progress {
        case Done(outcome) =>
          return outcome;
        case Continue(n) =>
          if m.count == 5 && n.count == 1 {
            left := left - {entry};
            entry, body := n.pos, 0;
          }
          m := n;
      }
    }
    return Pass(file, find, m).outcome;
  }

  // ----- Exactly when the loop ends -----

  /** The loop for so many passes. */
  function RunFor(file: Bytes, find: Search, m: Machine, passes: nat): Progress
    decreases passes
  {
    if passes == 0 then Continue(m)
    else
      match Pass(file, find, m)
      case Done(r) => Done(r)
      case Continue(n) => RunFor(file, find, n, passes - 1)
  }

  /** Entries that are all skipped, each to another of them. */
  ghost predicate Closed(file: Bytes, find: Search, s: set<nat>) {
    forall p :: p in s ==> Skips(file, p, find) && Hop(file, p, find) in s
  }

  lemma {:induction false} OneMorePass(file: Bytes, find: Search, m: Machine, passes: nat)
    requires RunFor(file, find, m, passes).Continue?
    ensures RunFor(file, find, m, passes + 1) == Pass(file, find, RunFor(file, find, m, passes).machine)
    decreases passes
  {
    if passes > 0 {
      OneMorePass(file, find, Pass(file, find, m).machine, passes - 1);
    }
  }

  /** An answer of the walk is the loop's, after some number of passes. */
  lemma RunEnds(file: Bytes, find: Search, goal: Outcome) returns (passes: nat)
    requires |file| <= find.limit <= INT64_MAX && Answered(file, find) == Some(goal)
    ensures RunFor(file, find, INITIAL, passes) == Done(goal)
  {
    passes := 0;
    var m, entry, body, left := INITIAL, 0, 0, Positions(|file|);
    while m.count != 6
      invariant m.count <= 6 && RunFor(file, find, INITIAL, passes) == Continue(m)
      invariant if m.count == 6 then Decided(file, find, m, goal) else Undecided(file, find, m, entry, body, left, goal)
      decreases left, 6 - m.count, Left(file, m.pos)
    {
      OneMorePass(file, find, INITIAL, passes);
      passes := passes + 1;
      if m.count < 5 {
        body := HeaderPass(file, find, m, entry, body, left, goal);
      } else {
        CodePass(file, find, m, entry, body, left, goal);
      }
      match Pass(file, find, m) {
        case Done(_) =>
          return;
        case Continue(n) =>
          if m.count == 5 && n.count == 1 {
            left := left - {entry};
            entry, body := n.pos, 0;
          }
          m := n;
      }
    }
    OneMorePass(file, find, INITIAL, passes);
    passes := passes + 1;
  }

  lemma HeaderStays(file: Bytes, find: Search, m: Machine, p: nat, body: nat)
    requires HeaderOf(file, p).Header? && Tracks(file, m, p, body) && m.count < 5
    ensures var r := Pass(file, find, m);
            r.Continue? && Tracks(file, r.machine, p, NextBody(r.machine, body))
  {
    HeaderAdvances(file, find, m, p, body);
  }

  lemma SkipHops(file: Bytes, find: Search, m: Machine, p: nat, body: nat)
    requires |file| <= find.limit <= INT64_MAX && Skips(file, p, find) && Tracks(file, m, p, body) && m.count == 5
    ensures Pass(file, find, m).Continue? && Tracks(file, Pass(file, find, m).machine, Hop(file, p, find), 0)
  {
    CodeAdvances(file, find, m, HeaderOf(file, p));
  }

  /** Among such entries the loop goes on for any number of passes. */
  lemma {:induction false} StaysAmong(file: Bytes, find: Search, s: set<nat>, passes: nat) returns (p: nat, body: nat)
    requires |file| <= find.limit <= INT64_MAX && Closed(file, find, s) && 0 in s
    ensures RunFor(file, find, INITIAL, passes).Continue?
    ensures p in s && Tracks(file, RunFor(file, find, INITIAL, passes).machine, p, body)
    decreases passes
  {
    if passes == 0 {
      p, body := 0, 0;
    } else {
      p, body := StaysAmong(file, find, s, passes - 1);
      var m := RunFor(file, find, INITIAL, passes - 1).machine;
      OneMorePass(file, find, INITIAL, passes - 1);
      if m.count < 5 {
        HeaderStays(file, find, m, p, body);
        body := NextBody(Pass(file, find, m).machine, body);
      } else {
        SkipHops(file, find, m, p, body);
        p, body := Hop(file, p, find), 0;
      }
    }
  }

  /** A walk that comes back has gone through entries that lead to one another. */
  lemma {:induction false} ComesBack(file: Bytes, find: Search, p: nat, left: set<nat>, seen: set<nat>) returns (s: set<nat>)
    requires Walk(file, p, left, find).None? && left + seen == Positions(|file|)
    requires forall q :: q in seen ==> Skips(file, q, find) && Hop(file, q, find) in seen + {p}
    ensures Closed(file, find, s) && seen + {p} <= s
    decreases left
  {
    if p !in left {
      assert p in Positions(|file|);
      s := seen;
    } else {
      s := ComesBack(file, find, Hop(file, p, find), left - {p}, seen + {p});
    }
  }

  /**
   The loop ends if and only if following the skips from the start of the file
   gets to an answer before it gets to an entry for the second time; it then ends
   with this answer. It goes on for ever if and only if the first entry is one of
   some entries that are all skipped, each to another of them.
   */
  lemma EndsIff(file: Bytes, find: Search)
    requires |file| <= find.limit <= INT64_MAX
    ensures Answered(file, find).Some? <==> exists n :: RunFor(file, find, INITIAL, n).Done?
    ensures forall n :: RunFor(file, find, INITIAL, n).Done? ==> Answered(file, find) == Some(RunFor(file, find, INITIAL, n).outcome)
    ensures (forall n :: RunFor(file, find, INITIAL, n).Continue?) <==> exists s :: 0 in s && Closed(file, find, s)
  {
    if Answered(file, find).Some? {
      var passes := RunEnds(file, find, Answered(file, find).value);
      forall n | RunFor(file, find, INITIAL, n).Done?
        ensures Answered(file, find) == Some(RunFor(file, find, INITIAL, n).outcome)
      {
        SameAnswer(file, find, INITIAL, passes, n);
      }
      forall s | 0 in s && Closed(file, find, s)
        ensures false
      {
        var _, _ := StaysAmong(file, find, s, passes);
      }
    } else {
      var s := ComesBack(file, find, 0, Positions(|file|), {});
      forall n: nat
        ensures RunFor(file, find, INITIAL, n).Continue?
      {
        var _, _ := StaysAmong(file, find, s, n);
      }
    }
  }

  /** In particular, entries that lead to one another keep the scanner going for any number of passes. */
  lemma NeverEnds(file: Bytes, find: Search, s: set<nat>)
    requires |file| <= find.limit <= INT64_MAX && 0 in s && Closed(file, find, s)
    ensures Answered(file, find).None? && forall n :: RunFor(file, find, INITIAL, n).Continue?
  {
    EndsIff(file, find);
  }

  lemma {:induction false} SameAnswer(file: Bytes, find: Search, m: Machine, a: nat, b: nat)
    requires RunFor(file, find, m, a).Done? && RunFor(file, find, m, b).Done?
    ensures RunFor(file, find, m, a) == RunFor(file, find, m, b)
    decreases a
  {
    match Pass(file, find, m)
    case Done(_) =>
    case Continue(n) => SameAnswer(file, find, n, a - 1, b - 1);
  }

  // ----- Files made of entries -----

  lemma HoldsParts(file: Bytes, p: nat, a: Bytes, b: Bytes)
    requires Holds(file, p, a + b)
    ensures Holds(file, p, a) && Holds(file, p + |a|, b)
  {
    var whole := file[p..p + |a + b|];
    assert whole[..|a|] == a && whole[|a|..] == b;
    assert whole[..|a|] == file[p..p + |a|] && whole[|a|..] == file[p + |a|..p + |a| + |b|];
  }

  /** One list element as written: its length, the code field, and the rest of its fields. */
  datatype Entry = Entry(lengthBytes: Bytes, codeLengthBytes: Bytes, code: Bytes, rest: Bytes) {
    function Body(): Bytes {
      [10] + codeLengthBytes + code + rest
    }

    function Encoded(): Bytes {
      [10] + lengthBytes + Body()
    }

    predicate WellFormed() {
      && IsVarint(lengthBytes) && VarintValue(lengthBytes) == |Body()|
      && IsVarint(codeLengthBytes) && VarintValue(codeLengthBytes) == |code|
    }
  }

  function Concat(es: seq<Entry>): Bytes {
    if es == [] then [] else es[0].Encoded() + Concat(es[1..])
  }

  /** Decoding all of the list and looking for the code. */
  function FirstMatch(es: seq<Entry>, find: Search): Outcome {
    if es == [] then CodeNotFound
    else if find.Matches(es[0].code) then Found(es[0].Body())
    else FirstMatch(es[1..], find)
  }

  lemma OuterParts(file: Bytes, p: nat, e: Entry)
    requires Holds(file, p, e.Encoded())
    ensures p < |file| && file[p] == 10 && Holds(file, p + 1, e.lengthBytes) && Holds(file, p + 1 + |e.lengthBytes|, e.Body())
  {
    HoldsParts(file, p, [10] + e.lengthBytes, e.Body());
    HoldsParts(file, p, [10], e.lengthBytes);
    assert file[p] == file[p..p + 1][0];
  }

  lemma InnerParts(file: Bytes, q: nat, e: Entry)
    requires Holds(file, q, e.Body())
    ensures q < |file| && file[q] == 10 && Holds(file, q + 1, e.codeLengthBytes) && Holds(file, q + 1 + |e.codeLengthBytes|, e.code)
  {
    HoldsParts(file, q, [10] + e.codeLengthBytes + e.code, e.rest);
    HoldsParts(file, q, [10] + e.codeLengthBytes, e.code);
    HoldsParts(file, q, [10], e.codeLengthBytes);
    assert file[q] == file[q..q + 1][0];
  }

  lemma HeaderKnown(file: Bytes, p: nat, size: nat, q: nat, n: nat, r: nat)
    requires p < |file| && file[p] == 10 && ReadLength(file, p + 1) == Length(size, q)
    requires q < |file| && file[q] == 10 && ReadLength(file, q + 1) == Length(n, r)
    ensures HeaderOf(file, p) == Header(size, q, n, r)
  {
  }

  function EntryHeader(p: nat, e: Entry): Header {
    var q := p + 1 + |e.lengthBytes|;
    Header(|e.Body()|, q, |e.code|, q + 1 + |e.codeLengthBytes|)
  }

  lemma OuterLength(file: Bytes, p: nat, e: Entry)
    requires IsVarint(e.lengthBytes) && VarintValue(e.lengthBytes) == |e.Body()| && Holds(file, p, e.Encoded())
    ensures p < |file| && file[p] == 10 && ReadLength(file, p + 1) == Length(|e.Body()|, p + 1 + |e.lengthBytes|)
  {
    OuterParts(file, p, e);
    LengthOf(file, p + 1, e.lengthBytes);
  }

  lemma InnerLength(file: Bytes, q: nat, e: Entry)
    requires IsVarint(e.codeLengthBytes) && VarintValue(e.codeLengthBytes) == |e.code| && Holds(file, q, e.Body())
    ensures q < |file| && file[q] == 10 && ReadLength(file, q + 1) == Length(|e.code|, q + 1 + |e.codeLengthBytes|)
  {
    InnerParts(file, q, e);
    LengthOf(file, q + 1, e.codeLengthBytes);
  }

  lemma HeaderOfEntry(file: Bytes, p: nat, e: Entry)
    requires e.WellFormed() && Holds(file, p, e.Encoded())
    ensures HeaderOf(file, p) == EntryHeader(p, e)
  {
    var h := EntryHeader(p, e);
    OuterLength(file, p, e);
    assert Holds(file, h.body, e.Body()) by {
      OuterParts(file, p, e);
    }
    InnerLength(file, h.body, e);
    HeaderKnown(file, p, h.size, h.body, h.n, h.at);
  }

  lemma EntryDecides(file: Bytes, p: nat, e: Entry, find: Search)
    requires Holds(file, p, e.Encoded())
    ensures AfterHeader(file, EntryHeader(p, e), find) ==
            if find.Matches(e.code) then Answer(Found(e.Body())) else Skip(p + |e.Encoded()|)
  {
    OuterParts(file, p, e);
    InnerParts(file, p + 1 + |e.lengthBytes|, e);
  }

  /** What an entry in the file means for the scan. */
  lemma EntryMet(file: Bytes, p: nat, e: Entry, find: Search) returns (h: Header, r: Next)
    requires e.WellFormed() && Holds(file, p, e.Encoded())
    ensures HeaderOf(file, p) == h && AfterHeader(file, h, find) == r
    ensures r == if find.Matches(e.code) then Answer(Found(e.Body())) else Skip(p + |e.Encoded()|)
  {
    HeaderOfEntry(file, p, e);
    EntryDecides(file, p, e, find);
    h := EntryHeader(p, e);
    r := AfterHeader(file, h, find);
  }

  lemma SuffixParts(file: Bytes, p: nat, a: Bytes, b: Bytes)
    requires p <= |file| && file[p..] == a + b
    ensures Holds(file, p, a) && p + |a| <= |file| && file[p + |a|..] == b
  {
    assert file[p..][..|a|] == a && file[p..][|a|..] == b;
  }

  lemma {:induction false} ScanFrom(file: Bytes, p: nat, es: seq<Entry>, find: Search)
    requires forall e <- es :: e.WellFormed()
    requires p <= |file| <= find.limit && file[p..] == Concat(es)
    ensures Scan(file, p, find) == FirstMatch(es, find) && SkipsFit(file, p, find)
    decreases |es|
  {
    if es == [] {
      ScanStep(file, p, Stop(CodeNotFound), Answer(CodeNotFound), find);
    } else {
      SuffixParts(file, p, es[0].Encoded(), Concat(es[1..]));
      var h, r := EntryMet(file, p, es[0], find);
      ScanStep(file, p, h, r, find);
      if !find.Matches(es[0].code) {
        ScanFrom(file, p + |es[0].Encoded()|, es[1..], find);
      }
    }
  }

  /** Skipping entries unread finds what decoding the whole list would find, and the scanner's loop does end on such a file. */
  lemma ScanFindsFirstMatch(es: seq<Entry>, find: Search)
    requires |Concat(es)| <= find.limit <= INT64_MAX && forall e <- es :: e.WellFormed()
    ensures Scan(Concat(es), 0, find) == FirstMatch(es, find) && SkipsFit(Concat(es), 0, find)
    ensures Answered(Concat(es), find) == Some(FirstMatch(es, find))
  {
    ScanFrom(Concat(es), 0, es, find);
    WalkIsScan(Concat(es), 0, Positions(|Concat(es)|), find);
  }

  // ----- Damaged files -----

  /** Well-formed entries, none of them the one looked for. */
  predicate NoMatch(es: seq<Entry>, find: Search) {
    forall e <- es :: e.WellFormed() && !find.Matches(e.code)
  }

  lemma SuffixSplit(file: Bytes, p: nat, a: Bytes, b: Bytes, tail: Bytes)
    requires p <= |file| && file[p..] == (a + b) + tail
    ensures Holds(file, p, a) && p + |a| <= |file| && file[p + |a|..] == b + tail
  {
    Reassociate(a, b, tail);
    SuffixParts(file, p, a, b + tail);
  }

  /** The scan from p on gives this outcome, over skips that fit. */
  ghost predicate Gives(file: Bytes, find: Search, p: nat, outcome: Outcome) {
    Scan(file, p, find) == outcome && SkipsFit(file, p, find)
  }

  lemma GivesAnswer(file: Bytes, p: nat, h: Header, find: Search, outcome: Outcome)
    requires HeaderOf(file, p) == h && AfterHeader(file, h, find) == Answer(outcome)
    ensures Gives(file, find, p, outcome)
  {
    ScanStep(file, p, h, Answer(outcome), find);
  }

  lemma GivesBehind(file: Bytes, p: nat, h: Header, next: nat, find: Search, outcome: Outcome)
    requires HeaderOf(file, p) == h && AfterHeader(file, h, find) == Skip(next) && next <= find.limit && Gives(file, find, next, outcome)
    ensures Gives(file, find, p, outcome)
  {
    ScanStep(file, p, h, Skip(next), find);
  }

  lemma OverOne(file: Bytes, p: nat, e: Entry, find: Search, next: nat, outcome: Outcome)
    requires e.WellFormed() && !find.Matches(e.code) && Holds(file, p, e.Encoded()) && next == p + |e.Encoded()| <= find.limit
    requires Gives(file, find, next, outcome)
    ensures Gives(file, find, p, outcome)
  {
    var h, r := EntryMet(file, p, e, find);
    GivesBehind(file, p, h, next, find, outcome);
  }

  /** They are passed over, and the answer is that of what stands behind them. */
  lemma {:induction false} ScanOver(file: Bytes, p: nat, es: seq<Entry>, tail: Bytes, find: Search, end: nat, outcome: Outcome)
    requires NoMatch(es, find) && p <= |file| <= find.limit && file[p..] == Concat(es) + tail && end == p + |Concat(es)|
    requires Gives(file, find, end, outcome)
    ensures Gives(file, find, p, outcome)
    decreases |es|
  {
    if es != [] {
      var next := p + |es[0].Encoded()|;
      SuffixSplit(file, p, es[0].Encoded(), Concat(es[1..]), tail);
      ScanOver(file, next, es[1..], tail, find, end, outcome);
      OverOne(file, p, es[0], find, next, outcome);
    }
  }

  lemma DamageDecides(es: seq<Entry>, tail: Bytes, file: Bytes, find: Search, h: Header, outcome: Outcome)
    requires NoMatch(es, find) && file == Concat(es) + tail && |file| <= find.limit <= INT64_MAX
    requires HeaderOf(file, |Concat(es)|) == h && AfterHeader(file, h, find) == Answer(outcome)
    ensures Answered(file, find) == Some(outcome)
  {
    GivesAnswer(file, |Concat(es)|, h, find, outcome);
    assert file[0..] == file;
    ScanOver(file, 0, es, tail, find, |Concat(es)|, outcome);
    WalkIsScan(file, 0, Positions(|file|), find);
  }

  /** A list that goes on with anything but the tag of an entry is reported as no geodata file. */
  lemma WrongTag(es: seq<Entry>, tail: Bytes, find: Search)
    requires NoMatch(es, find) && |Concat(es) + tail| <= find.limit <= INT64_MAX
    requires tail != [] && tail[0] != 10
    ensures Answered(Concat(es) + tail, find) == Some(InvalidFile)
  {
    assert (Concat(es) + tail)[|Concat(es)|] == tail[0];
    DamageDecides(es, tail, Concat(es) + tail, find, Stop(InvalidFile), InvalidFile);
  }

  /** An entry whose length does not fit in 64 bits is reported as such. */
  lemma WrongLength(es: seq<Entry>, bs: Bytes, rest: Bytes, find: Search)
    requires NoMatch(es, find) && |Concat(es) + ([10] + bs + rest)| <= find.limit <= INT64_MAX
    requires VarintShape(bs) && !IsVarint(bs)
    ensures Answered(Concat(es) + ([10] + bs + rest), find) == Some(InvalidVarint)
  {
    var tail, p := [10] + bs + rest, |Concat(es)|;
    var file := Concat(es) + tail;
    assert file[p] == 10;
    assert file[p + 1..p + 1 + |bs|] == bs;
    LengthOf(file, p + 1, bs);
    DamageDecides(es, tail, file, find, Stop(InvalidVarint), InvalidVarint);
  }

  /** A list that is cut off inside a length has no such code. */
  lemma CutLength(es: seq<Entry>, bs: Bytes, find: Search)
    requires NoMatch(es, find) && |Concat(es) + ([10] + bs)| <= find.limit <= INT64_MAX
    requires forall k :: 0 <= k < |bs| ==> bs[k] >= 128
    ensures Answered(Concat(es) + ([10] + bs), find) == Some(CodeNotFound)
  {
    var tail, p := [10] + bs, |Concat(es)|;
    var file := Concat(es) + tail;
    assert file[p] == 10;
    assert forall k :: p + 1 <= k < |file| ==> file[k] == bs[k - p - 1];
    VarintCut(file, p + 1);
    DamageDecides(es, tail, file, find, Stop(CodeNotFound), CodeNotFound);
  }

  /** The entry's own fields are those of a longer one. */
  predicate IsCut(e: Entry, missing: nat) {
    && IsVarint(e.lengthBytes) && VarintValue(e.lengthBytes) == |e.Body()| + missing
    && IsVarint(e.codeLengthBytes) && VarintValue(e.codeLengthBytes) == |e.code|
  }

  function LongerHeader(p: nat, e: Entry, missing: nat): Header {
    var q := p + 1 + |e.lengthBytes|;
    Header(|e.Body()| + missing, q, |e.code|, q + 1 + |e.codeLengthBytes|)
  }

  lemma CutOuterLength(file: Bytes, p: nat, e: Entry, missing: nat)
    requires IsCut(e, missing) && Holds(file, p, e.Encoded())
    ensures p < |file| && file[p] == 10 && ReadLength(file, p + 1) == Length(|e.Body()| + missing, p + 1 + |e.lengthBytes|)
  {
    OuterParts(file, p, e);
    LengthOf(file, p + 1, e.lengthBytes);
  }

  lemma CutHeader(file: Bytes, p: nat, e: Entry, missing: nat)
    requires IsCut(e, missing) && Holds(file, p, e.Encoded())
    ensures HeaderOf(file, p) == LongerHeader(p, e, missing)
  {
    var h := LongerHeader(p, e, missing);
    CutOuterLength(file, p, e, missing);
    assert Holds(file, h.body, e.Body()) by {
      OuterParts(file, p, e);
    }
    InnerLength(file, h.body, e);
    HeaderKnown(file, p, h.size, h.body, h.n, h.at);
  }

  lemma CutDecides(file: Bytes, p: nat, e: Entry, missing: nat, find: Search)
    requires Holds(file, p, e.Encoded()) && |file| == p + |e.Encoded()| && missing > 0 && find.Matches(e.code)
    ensures AfterHeader(file, LongerHeader(p, e, missing), find) == Answer(ShortRead)
  {
    OuterParts(file, p, e);
    InnerParts(file, p + 1 + |e.lengthBytes|, e);
  }

  /** The entry looked for, cut off behind its code, comes back short. */
  lemma CutEntry(es: seq<Entry>, e: Entry, missing: nat, find: Search)
    requires NoMatch(es, find) && |Concat(es) + e.Encoded()| <= find.limit <= INT64_MAX
    requires IsCut(e, missing) && missing > 0 && find.Matches(e.code)
    ensures Answered(Concat(es) + e.Encoded(), find) == Some(ShortRead)
  {
    var p := |Concat(es)|;
    var file := Concat(es) + e.Encoded();
    assert Holds(file, p, e.Encoded());
    CutHeader(file, p, e, missing);
    CutDecides(file, p, e, missing, find);
    DamageDecides(es, e.Encoded(), file, find, LongerHeader(p, e, missing), ShortRead);
  }

  // ----- Lengths as an encoder writes them -----

  function EncodeVarint(n: nat): Bytes {
    if n < 128 then [n] else [n % 128 + 128] + EncodeVarint(n / 128)
  }

  function Power128(k: nat): nat {
    if k == 0 then 1 else 128 * Power128(k - 1)
  }

  lemma Quotient(n: nat, k: nat)
    requires k > 0 && n < 2 * Power128(k)
    ensures n / 128 < 2 * Power128(k - 1)
  {
  }

  lemma LowBits(n: nat)
    ensures 128 <= n % 128 + 128 < 256 && (n % 128 + 128) % 128 + 128 * (n / 128) == n
  {
  }

  lemma OneMoreByte(b: Byte, rest: Bytes, k: nat)
    requires b >= 128 && k > 0 && VarintShape(rest) && |rest| <= k && (|rest| == k ==> rest[k - 1] < 2)
    ensures var bs := [b] + rest;
            VarintShape(bs) && VarintValue(bs) == b % 128 + 128 * VarintValue(rest) && |bs| <= k + 1 && (|bs| == k + 1 ==> bs[k] < 2)
  {
    assert ([b] + rest)[1..] == rest;
  }

  lemma {:induction false} EncodeVarintMeaning(n: nat, k: nat)
    requires n < 2 * Power128(k)
    ensures var bs := EncodeVarint(n);
            VarintShape(bs) && VarintValue(bs) == n && |bs| <= k + 1 && (|bs| == k + 1 ==> bs[k] < 2)
    decreases k
  {
    if n < 128 {
      assert VarintValue([n]) == n;
      assert k > 0 || n < 2;
    } else {
      var low, rest := n % 128 + 128, n / 128;
      LowBits(n);
      assert k > 0 && rest < 2 * Power128(k - 1) by {
        assert k > 0;
        Quotient(n, k);
      }
      EncodeVarintMeaning(rest, k - 1);
      OneMoreByte(low, EncodeVarint(rest), k);
    }
  }

  /** Every 64-bit value survives being written and read as a varint. */
  lemma VarintRoundTrip(n: nat)
    requires n < TWO_64
    ensures ConsumeVarint(EncodeVarint(n)) == Some(n)
  {
    assert Power128(3) == 0x20_0000;
    assert Power128(6) == 0x20_0000 * 0x20_0000;
    assert Power128(9) == 0x20_0000 * 0x20_0000 * 0x20_0000;
    EncodeVarintMeaning(n, 9);
  }

  /** An entry as a protobuf encoder writes it. */
  function Written(code: Bytes, rest: Bytes): Entry {
    var codeLength := EncodeVarint(|code|);
    Entry(EncodeVarint(1 + |codeLength| + |code| + |rest|), codeLength, code, rest)
  }

  lemma WrittenIsWellFormed(code: Bytes, rest: Bytes)
    requires |Written(code, rest).Body()| < TWO_64
    ensures Written(code, rest).WellFormed()
  {
    VarintRoundTrip(|code|);
    VarintRoundTrip(|Written(code, rest).Body()|);
  }

  // ----- Files on which the scanner never ends, and one on which it does -----

  const HIGH_BITS: Bytes := [255, 255, 255, 255, 255, 255, 255, 255, 1]

  lemma VarintStep(b: Byte, bs: Bytes, v: nat)
    requires VarintValue(bs) == v
    ensures VarintValue([b] + bs) == b % 128 + 128 * v
  {
    assert ([b] + bs)[1..] == bs;
  }

  /** All bits set above the lowest seven. */
  lemma LongVarint(b: Byte)
    requires b >= 128
    ensures var bs := [b] + HIGH_BITS; VarintValue(bs) == b % 128 + 128 * 0x1FF_FFFF_FFFF_FFFF && IsVarint(bs)
  {
    VarintStep(1, [], 0);
    VarintStep(255, [1], 1);
    VarintStep(255, [255, 1], 0xFF);
    VarintStep(255, [255, 255, 1], 0x7FFF);
    VarintStep(255, [255, 255, 255, 1], 0x3F_FFFF);
    VarintStep(255, [255, 255, 255, 255, 1], 0x1FFF_FFFF);
    VarintStep(255, [255, 255, 255, 255, 255, 1], 0xF_FFFF_FFFF);
    VarintStep(255, [255, 255, 255, 255, 255, 255, 1], 0x7FF_FFFF_FFFF);
    VarintStep(255, [255, 255, 255, 255, 255, 255, 255, 1], 0x3_FFFF_FFFF_FFFF);
    VarintStep(b, HIGH_BITS, 0x1FF_FFFF_FFFF_FFFF);
  }

  /** An entry with an empty code, wherever it stands. */
  function EmptyCode(bs: Bytes): Bytes {
    [10] + bs + [10, 0]
  }

  lemma EmptyCodeParts(file: Bytes, p: nat, bs: Bytes)
    requires Holds(file, p, EmptyCode(bs))
    ensures file[p] == 10 && Holds(file, p + 1, bs)
    ensures file[p + 1 + |bs|] == 10 && file[p + 2 + |bs|] == 0
  {
    HoldsParts(file, p, [10] + bs, [10, 0]);
    HoldsParts(file, p, [10], bs);
    assert file[p] == file[p..p + 1][0];
    var q := p + 1 + |bs|;
    assert file[q] == file[q..q + 2][0] && file[q + 1] == file[q..q + 2][1];
  }

  lemma ZeroLength(file: Bytes, t: nat)
    requires t < |file| && file[t] == 0
    ensures ReadLength(file, t) == Length(0, t + 1)
  {
  }

  lemma EmptyCodeLengths(file: Bytes, p: nat, bs: Bytes)
    requires IsVarint(bs) && Holds(file, p, EmptyCode(bs))
    ensures file[p] == 10 && file[p + |bs| + 1] == 10
    ensures ReadLength(file, p + 1) == Length(VarintValue(bs), p + |bs| + 1)
    ensures ReadLength(file, p + |bs| + 2) == Length(0, p + |bs| + 3)
  {
    EmptyCodeParts(file, p, bs);
    assert ReadLength(file, p + 1) == Length(VarintValue(bs), p + |bs| + 1) by {
      LengthOf(file, p + 1, bs);
    }
    assert ReadLength(file, p + |bs| + 2) == Length(0, p + |bs| + 3) by {
      ZeroLength(file, p + |bs| + 2);
    }
  }

  lemma EmptyCodeHeader(file: Bytes, p: nat, bs: Bytes)
    requires IsVarint(bs) && Holds(file, p, EmptyCode(bs))
    ensures HeaderOf(file, p) == Header(VarintValue(bs), p + |bs| + 1, 0, p + |bs| + 3)
  {
    var q, n := p + |bs| + 1, VarintValue(bs);
    assert p < q < q + 2 <= |file|;
    assert HeaderOf(file, p) == Header(n, q, 0, q + 2) by {
      EmptyCodeLengths(file, p, bs);
      HeaderKnown(file, p, n, q, 0, q + 2);
    }
  }

  /** It does not match, and is skipped; where to, is its length as a signed integer. */
  lemma EmptyCodeHops(file: Bytes, p: nat, bs: Bytes, find: Search, to: nat)
    requires IsVarint(bs) && Holds(file, p, EmptyCode(bs)) && !find.Matches([]) && |file| <= find.limit <= INT64_MAX
    requires VarintValue(bs) < TWO_64 && to <= find.limit && p + |bs| + 1 + ToInt64(VarintValue(bs)) == to
    ensures HeaderOf(file, p) == Header(VarintValue(bs), p + |bs| + 1, 0, p + |bs| + 3)
    ensures Skips(file, p, find) && Hop(file, p, find) == to
  {
    EmptyCodeHeader(file, p, bs);
    var r := p + |bs| + 3;
    assert file[r..r] == [];
  }

  /** Thirteen bytes are enough: an entry of length 2^64 - 11 with an empty code leads back to itself. */
  lemma EndlessFile(file: Bytes, bs: Bytes, find: Search)
    requires bs == [245] + HIGH_BITS && file == EmptyCode(bs)
    requires !find.Matches([]) && |file| <= find.limit <= INT64_MAX
    ensures |file| == 13 && Closed(file, find, {0}) && Answered(file, find).None?
    ensures forall n :: RunFor(file, find, INITIAL, n).Continue?
  {
    LongVarint(245);
    assert Holds(file, 0, EmptyCode(bs));
    EmptyCodeHops(file, 0, bs, find, 0);
    NeverEnds(file, find, {0});
  }

  /** The way back may be longer: two entries with empty codes, each leading to the other. */
  lemma PairLoops(file: Bytes, first: Bytes, p: nat, last: Bytes, find: Search)
    requires !find.Matches([]) && |file| <= find.limit <= INT64_MAX
    requires IsVarint(first) && Holds(file, 0, EmptyCode(first)) && |first| + 1 + VarintValue(first) == p <= |file|
    requires IsVarint(last) && Holds(file, p, EmptyCode(last)) && VarintValue(last) < TWO_64
    requires p + |last| + 1 + ToInt64(VarintValue(last)) == 0
    ensures Closed(file, find, {0, p}) && Answered(file, find).None?
    ensures forall n :: RunFor(file, find, INITIAL, n).Continue?
  {
    EmptyCodeHops(file, 0, first, find, p);
    EmptyCodeHops(file, p, last, find, 0);
    NeverEnds(file, find, {0, p});
  }

  /** And a way back does no harm when it leads to no entry: a length of 2^64 - 1 ends with an error. */
  lemma BackwardsEnds(file: Bytes, bs: Bytes, find: Search)
    requires bs == [255] + HIGH_BITS && file == EmptyCode(bs)
    requires !find.Matches([]) && |file| <= find.limit <= INT64_MAX
    ensures !Forward(file, 0, find) && Answered(file, find) == Some(InvalidFile)
  {
    LongVarint(255);
    assert Holds(file, 0, EmptyCode(bs));
    var h := HeaderOf(file, 0);
    EmptyCodeHops(file, 0, bs, find, 10);
    WalkStep(file, 0, h, AfterHeader(file, h, find), Positions(|file|), find);
    assert file[10] == 1;
    WalkStep(file, 10, Stop(InvalidFile), Answer(InvalidFile), Positions(|file|) - {0}, find);
  }

  // ----- A file on which a skip is refused -----

  /**
   The first entry has no code and ends beyond every allowed position. The seek
   over it is refused, and what follows its header is taken for an entry: the
   scanner returns that, while the file has no second entry at all.
   */
  lemma RefusedSkip(bs: Bytes, e: Entry, find: Search)
    requires IsVarint(bs) && VarintValue(bs) <= INT64_MAX && e.WellFormed()
    requires var file := EmptyCode(bs) + e.Encoded(); |file| <= find.limit <= INT64_MAX
    requires |bs| + 1 + VarintValue(bs) > find.limit && !find.Matches([]) && find.Matches(e.code)
    ensures var file := EmptyCode(bs) + e.Encoded();
            && !SkipsFit(file, 0, find) && Scan(file, 0, find) == CodeNotFound
            && Answered(file, find) == Some(Found(e.Body()))
  {
    var file := EmptyCode(bs) + e.Encoded();
    assert Holds(file, 0, EmptyCode(bs)) && Holds(file, |bs| + 3, e.Encoded());
    RefusedIn(file, bs, e, find);
  }

  lemma RefusedIn(file: Bytes, bs: Bytes, e: Entry, find: Search)
    requires IsVarint(bs) && VarintValue(bs) <= INT64_MAX && e.WellFormed() && |file| <= find.limit <= INT64_MAX
    requires Holds(file, 0, EmptyCode(bs)) && Holds(file, |bs| + 3, e.Encoded())
    requires |bs| + 1 + VarintValue(bs) > find.limit && !find.Matches([]) && find.Matches(e.code)
    ensures !SkipsFit(file, 0, find) && Scan(file, 0, find) == CodeNotFound
    ensures Answered(file, find) == Some(Found(e.Body()))
  {
    var p, end, all := |bs| + 3, |bs| + 1 + VarintValue(bs), Positions(|file|);
    EmptyCodeHeader(file, 0, bs);
    var h := HeaderOf(file, 0);
    RefusedLanding(file, h, find);
    ScanStep(file, 0, h, Skip(end), find);
    BehindTheEnd(file, end, find);
    WalkStep(file, 0, h, Skip(end), all, find);
    var k, r := EntryMet(file, p, e, find);
    WalkStep(file, p, k, r, all - {0}, find);
  }

  lemma RefusedLanding(file: Bytes, h: Header, find: Search)
    requires h.Header? && h.n == 0 && h.body < h.at <= |file| <= find.limit <= INT64_MAX && !find.Matches([])
    requires h.size <= INT64_MAX && h.body + h.size > find.limit
    ensures AfterHeader(file, h, find) == Skip(h.body + h.size) && Landing(h, find) == h.at
  {
    assert file[h.at..h.at] == [];
  }

  lemma BehindTheEnd(file: Bytes, p: nat, find: Search)
    requires p >= |file|
    ensures Scan(file, p, find) == CodeNotFound
  {
  }

  const LARGEST_LENGTH: Bytes := [255, 255, 255, 255, 255, 255, 255, 255, 127]

  lemma LargestLength()
    ensures VarintValue(LARGEST_LENGTH) == INT64_MAX && IsVarint(LARGEST_LENGTH)
  {
    VarintStep(127, [], 0);
    VarintStep(255, [127], 0x7F);
    VarintStep(255, [255, 127], 0x3FFF);
    VarintStep(255, [255, 255, 127], 0x1F_FFFF);
    VarintStep(255, [255, 255, 255, 127], 0xFFF_FFFF);
    VarintStep(255, [255, 255, 255, 255, 127], 0x7_FFFF_FFFF);
    VarintStep(255, [255, 255, 255, 255, 255, 127], 0x3FF_FFFF_FFFF);
    VarintStep(255, [255, 255, 255, 255, 255, 255, 127], 0x1_FFFF_FFFF_FFFF);
    VarintStep(255, [255, 255, 255, 255, 255, 255, 255, 127], 0xFF_FFFF_FFFF_FFFF);
  }

  lemma LetterEntry(e: Entry)
    requires e == Entry([3], [1], [65], [])
    ensures e.WellFormed() && e.Body() == [10, 1, 65] && e.Encoded() == [10, 3, 10, 1, 65]
  {
    assert VarintValue([3]) == 3 && VarintValue([1]) == 1;
    assert e.Body() == [10, 1, 65];
  }

  /** Seventeen bytes do it on any file system: a length of 2^63 - 1, then an entry with the code [65]. */
  lemma RefusedFile(find: Search, bs: Bytes)
    requires bs == LARGEST_LENGTH && find.Matches([65]) && !find.Matches([]) && 17 <= find.limit <= INT64_MAX
    ensures var file := EmptyCode(bs) + [10, 3, 10, 1, 65];
            Scan(file, 0, find) == CodeNotFound && Answered(file, find) == Some(Found([10, 1, 65]))
  {
    LargestLength();
    var e := Entry([3], [1], [65], []);
    LetterEntry(e);
    RefusedSkip(bs, e, find);
  }
}
