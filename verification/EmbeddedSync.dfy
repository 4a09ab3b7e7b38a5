/**
 The embedded server's own traffic sync: counters are read without being
 cleared, the sums are written to the database in one transaction, and only
 then is each counter lowered by its own reading. Between any two of these
 actions, and even between the two loads of one reading, traffic arrives, users
 come and go, and rows are reset.
 */
module EmbeddedSync {
  import opened Basics
  import opened TrafficValues
  import opened SenderProtocol
  import opened MasterDatabase

  /**
   A user object: which authenticator knows it, or knew it while it was live; its
   counter; and, for specification only, which bytes went with it when it was
   removed or arrived later, and are in no row.
   */
  datatype Meter = Meter(auth: nat, hash: string, live: bool, now: Counter, lost: Counter)

  /** One counter's own reading; users are told apart as objects, not by their hashes. */
  datatype Reading = Reading(id: nat, hash: string, sent: nat, recv: nat)

  datatype Phase =
    | Idle
    | Collecting(seen: set<nat>, half: Option<Reading>, snapshots: Batch, taken: seq<Reading>)
    | Subtracting(taken: seq<Reading>)

  datatype Server = Server(meters: seq<Meter>, rows: map<string, Row>, phase: Phase)

  datatype Action =
    | Add(id: nat, sent: nat, recv: nat)
    | Join(auth: nat, hash: string)
    | Leave(id: nat)
    | Begin
    | LoadSent(id: nat)
    | LoadRecv
    | Commit(fault: bool)
    | Subtract
    | ResetRows
    | NewRow(hash: string)
    | DropRow(hash: string)

  function Plus(c: Counter, sent: nat, recv: nat): Counter {
    Counter(c.sent + sent, c.recv + recv)
  }

  function Lower(x: nat, y: nat): nat {
    if x >= y then x - y else 0
  }

  /** Subtraction that stops at zero. */
  function Less(c: Counter, sent: nat, recv: nat): Counter {
    Counter(Lower(c.sent, sent), Lower(c.recv, recv))
  }

  predicate IsUser(m: Meter, k: nat, h: string) {
    m.live && m.auth == k && m.hash == h
  }

  predicate CanAct(s: Server, a: Action) {
    match a
    case Add(id, _, _) => id < |s.meters|
    case Join(k, h) => forall id :: 0 <= id < |s.meters| ==> !IsUser(s.meters[id], k, h)
    case Leave(id) => id < |s.meters| && s.meters[id].live
    case Begin => s.phase.Idle?
    case LoadSent(id) => s.phase.Collecting? && s.phase.half.None? && id < |s.meters| && id !in s.phase.seen
    case LoadRecv => s.phase.Collecting? && s.phase.half.Some? && s.phase.half.value.id < |s.meters|
    case Commit(_) => s.phase.Collecting? && s.phase.half.None?
    case Subtract => s.phase.Subtracting? && s.phase.taken != [] && s.phase.taken[0].id < |s.meters|
    case NewRow(h) => h !in s.rows
    case _ => true
  }

  /** A complete reading joins the snapshots, unless it is zero or the sum overflows. */
  function Collected(p: Phase, r: Reading): Phase
    requires p.Collecting?
  {
    var up, down := At(p.snapshots, r.hash, Up), At(p.snapshots, r.hash, Down);
    if r.sent == 0 && r.recv == 0 then p.(half := None)
    else if up > UINT64_MAX - r.recv || down > UINT64_MAX - r.sent then Idle
    else p.(half := None, snapshots := p.snapshots[r.hash := Traffic(up + r.recv, down + r.sent)], taken := p.taken + [r])
  }

  predicate Commits(s: Server, a: Action) {
    a.Commit? && CanAct(s, a) && s.phase.snapshots != map[] && !a.fault && Settles(s.rows, s.phase.snapshots, UnitRate)
  }

  /** The rows now have this reading; if its user is gone, these bytes are not lost after all. */
  function CreditOne(meters: seq<Meter>, r: Reading): (next: seq<Meter>)
    ensures |next| == |meters|
  {
    if r.id < |meters| && !meters[r.id].live then
      meters[r.id := meters[r.id].(lost := Less(meters[r.id].lost, r.sent, r.recv))]
    else meters
  }

  function CreditAll(meters: seq<Meter>, taken: seq<Reading>): (next: seq<Meter>)
    ensures |next| == |meters|
    decreases taken
  {
    if taken == [] then meters else CreditAll(CreditOne(meters, taken[0]), taken[1..])
  }

  /** The reading made of a user, if there is one. */
  function ReadingOn(taken: seq<Reading>, id: nat): Counter {
    if taken == [] then Counter(0, 0)
    else if taken[0].id == id then Counter(taken[0].sent, taken[0].recv)
    else ReadingOn(taken[1..], id)
  }

  /** In the database already, but not yet subtracted. */
  function Due(p: Phase, id: nat): Counter {
    if p.Subtracting? then ReadingOn(p.taken, id) else Counter(0, 0)
  }

  function Arrived(m: Meter, sent: nat, recv: nat): Meter {
    m.(now := Plus(m.now, sent, recv), lost := if m.live then m.lost else Plus(m.lost, sent, recv))
  }

  /** Closing a user clears its counter, then it is forgotten. */
  function Gone(m: Meter, due: Counter): Meter {
    m.(live := false, now := Counter(0, 0), lost := Less(m.now, due.sent, due.recv))
  }

  function Act(s: Server, a: Action): Server
    requires CanAct(s, a)
  {
    match a
    case Add(id, sent, recv) => s.(meters := s.meters[id := Arrived(s.meters[id], sent, recv)])
    case Join(k, h) => s.(meters := s.meters + [Meter(k, h, true, Counter(0, 0), Counter(0, 0))])
    case Leave(id) => s.(meters := s.meters[id := Gone(s.meters[id], Due(s.phase, id))])
    case Begin => s.(phase := Collecting({}, None, map[], []))
    case LoadSent(id) =>
      s.(phase := s.phase.(seen := s.phase.seen + {id}, half := Some(Reading(id, s.meters[id].hash, s.meters[id].now.sent, 0))))
    case LoadRecv =>
      var r := s.phase.half.value;
      s.(phase := Collected(s.phase, r.(recv := s.meters[r.id].now.recv)))
    case Commit(fault) =>
      if !Commits(s, a) then s.(phase := Idle)
      else
        s.(rows := Settled(s.rows, s.phase.snapshots, UnitRate),
           meters := CreditAll(s.meters, s.phase.taken),
           phase := Subtracting(s.phase.taken))
    case Subtract =>
      var r := s.phase.taken[0];
      s.(meters := s.meters[r.id := s.meters[r.id].(now := Less(s.meters[r.id].now, r.sent, r.recv))],
         phase := if |s.phase.taken| == 1 then Idle else Subtracting(s.phase.taken[1..]))
    case ResetRows => s.(rows := map h | h in s.rows :: Row(0, 0, 0))
    case NewRow(h) => s.(rows := s.rows[h := Row(0, 0, 0)])
    case DropRow(h) => s.(rows := s.rows - {h})
  }

  // ----- Measures -----

  function Part(c: Counter, d: Direction): nat {
    match d case Up => c.recv case Down => c.sent
  }

  function ReadingAt(r: Reading, h: string, d: Direction): nat {
    if r.hash != h then 0 else match d case Up => r.recv case Down => r.sent
  }

  function TakenAt(taken: seq<Reading>, h: string, d: Direction): nat {
    if taken == [] then 0 else ReadingAt(taken[0], h, d) + TakenAt(taken[1..], h, d)
  }

  predicate IsLive(meters: seq<Meter>, r: Reading) {
    r.id < |meters| && meters[r.id].live
  }

  /** The readings of users that are still there. */
  function LiveAt(meters: seq<Meter>, taken: seq<Reading>, h: string, d: Direction): nat
    decreases taken
  {
    if taken == [] then 0
    else (if IsLive(meters, taken[0]) then ReadingAt(taken[0], h, d) else 0) + LiveAt(meters, taken[1..], h, d)
  }

  function CountedIn(m: Meter, h: string, d: Direction): nat {
    if m.live && m.hash == h then Part(m.now, d) else 0
  }

  function LostWith(m: Meter, h: string, d: Direction): nat {
    if m.hash == h then Part(m.lost, d) else 0
  }

  function AllCounted(meters: seq<Meter>, h: string, d: Direction): (r: seq<int>)
    ensures |r| == |meters| && forall k :: 0 <= k < |r| ==> r[k] == CountedIn(meters[k], h, d)
  {
    seq(|meters|, k requires 0 <= k < |meters| => CountedIn(meters[k], h, d))
  }

  function AllLost(meters: seq<Meter>, h: string, d: Direction): (r: seq<int>)
    ensures |r| == |meters| && forall k :: 0 <= k < |r| ==> r[k] == LostWith(meters[k], h, d) && 0 <= r[k]
  {
    seq(|meters|, k requires 0 <= k < |meters| => LostWith(meters[k], h, d))
  }

  /** Bytes on the counters of users that are there. */
  function InMeters(s: Server, h: string, d: Direction): int {
    Sum(AllCounted(s.meters, h, d))
  }

  /** Bytes of removed users that no row has. */
  function Dropped(s: Server, h: string, d: Direction): (r: int)
    ensures 0 <= r
  {
    Sum(AllLost(s.meters, h, d))
  }

  /** In the database already, and still on the counters of users that are there. */
  function Owed(s: Server, h: string, d: Direction): int {
    if s.phase.Subtracting? then LiveAt(s.meters, s.phase.taken, h, d) else 0
  }

  // ----- Invariant -----

  predicate Within(c: Counter, sent: nat, recv: nat) {
    c.sent <= sent && c.recv <= recv
  }

  predicate Distinct(taken: seq<Reading>) {
    forall i, j :: 0 <= i < j < |taken| ==> taken[i].id != taken[j].id
  }

  predicate Unread(taken: seq<Reading>, id: nat) {
    forall i :: 0 <= i < |taken| ==> taken[i].id != id
  }

  predicate Names(meters: seq<Meter>, r: Reading) {
    r.id < |meters| && meters[r.id].hash == r.hash
  }

  /** Readings are of users that exist, at most one of each. */
  predicate Sound(s: Server) {
    !s.phase.Idle? ==> Distinct(s.phase.taken) && forall i :: 0 <= i < |s.phase.taken| ==> Names(s.meters, s.phase.taken[i])
  }

  /** A reading not stored yet does not exceed its counter or, once its user is gone, what that user lost. */
  predicate Backed(meters: seq<Meter>, r: Reading) {
    Names(meters, r) &&
    var m := meters[r.id];
    if m.live then Within(Counter(r.sent, r.recv), m.now.sent, m.now.recv)
    else Within(Counter(r.sent, r.recv), m.lost.sent, m.lost.recv)
  }

  predicate CollectInv(s: Server) {
    s.phase.Collecting? ==>
      && (forall i :: 0 <= i < |s.phase.taken| ==> Backed(s.meters, s.phase.taken[i]) && s.phase.taken[i].id in s.phase.seen)
      && (forall id :: id in s.phase.seen ==> id < |s.meters|)
      && (s.phase.half.Some? ==>
            var r := s.phase.half.value;
            Backed(s.meters, r) && r.recv == 0 && r.id in s.phase.seen && Unread(s.phase.taken, r.id))
  }

  ghost predicate SumInv(p: Phase) {
    p.Collecting? ==> forall h, d :: At(p.snapshots, h, d) == TakenAt(p.taken, h, d)
  }

  /** What is due on a counter is still there; and a removed user's counter holds nothing that is not lost or due. */
  predicate DueHolds(m: Meter, due: Counter) {
    if m.live then m.lost == Counter(0, 0) && Within(due, m.now.sent, m.now.recv)
    else Within(m.now, m.lost.sent + due.sent, m.lost.recv + due.recv)
  }

  predicate DueInv(s: Server) {
    forall id :: 0 <= id < |s.meters| ==> DueHolds(s.meters[id], Due(s.phase, id))
  }

  ghost predicate SyncInv(s: Server) {
    Sound(s) && CollectInv(s) && SumInv(s.phase) && DueInv(s)
  }

  // ----- Lists of readings -----

  lemma {:induction false} TakenAppend(taken: seq<Reading>, r: Reading, h: string, d: Direction)
    ensures TakenAt(taken + [r], h, d) == TakenAt(taken, h, d) + ReadingAt(r, h, d)
  {
    if taken == [] {
      assert taken + [r] == [r];
      assert TakenAt([r][1..], h, d) == 0;
    } else {
      assert (taken + [r])[1..] == taken[1..] + [r];
      TakenAppend(taken[1..], r, h, d);
    }
  }

  lemma {:induction false} ReadingOnIs(taken: seq<Reading>, i: nat)
    requires Distinct(taken) && i < |taken|
    ensures ReadingOn(taken, taken[i].id) == Counter(taken[i].sent, taken[i].recv)
  {
    if i > 0 {
      assert taken[0].id != taken[i].id;
      ReadingOnIs(taken[1..], i - 1);
    }
  }

  lemma {:induction false} ReadingOnNone(taken: seq<Reading>, id: nat)
    requires Unread(taken, id)
    ensures ReadingOn(taken, id) == Counter(0, 0)
  {
    if taken != [] {
      assert taken[0].id != id;
      assert forall i :: 0 <= i < |taken[1..]| ==> taken[1..][i] == taken[i + 1];
      ReadingOnNone(taken[1..], id);
    }
  }

  // ----- Every action keeps the invariant -----

  /** Users keep their hashes, and what backs a reading does not shrink. */
  predicate Grows(a: Meter, b: Meter) {
    && b.hash == a.hash && (b.live ==> a.live)
    && (if b.live then Within(a.now, b.now.sent, b.now.recv)
        else if a.live then Within(a.now, b.lost.sent, b.lost.recv)
        else Within(a.lost, b.lost.sent, b.lost.recv))
  }

  predicate AllGrow(a: seq<Meter>, b: seq<Meter>) {
    |a| <= |b| && forall id :: 0 <= id < |a| ==> Grows(a[id], b[id])
  }

  lemma GrowthKeeps(s: Server, meters: seq<Meter>)
    requires Sound(s) && CollectInv(s) && AllGrow(s.meters, meters)
    ensures Sound(s.(meters := meters)) && CollectInv(s.(meters := meters))
  {
  }

  lemma AddKeepsInv(s: Server, id: nat, sent: nat, recv: nat)
    requires SyncInv(s) && CanAct(s, Add(id, sent, recv))
    ensures SyncInv(Act(s, Add(id, sent, recv)))
  {
    GrowthKeeps(s, Act(s, Add(id, sent, recv)).meters);
  }

  lemma JoinKeepsInv(s: Server, k: nat, h: string)
    requires SyncInv(s) && CanAct(s, Join(k, h))
    ensures SyncInv(Act(s, Join(k, h)))
  {
    var t := Act(s, Join(k, h));
    GrowthKeeps(s, t.meters);
    if s.phase.Subtracting? {
      ReadingOnNone(s.phase.taken, |s.meters|);
    }
  }

  lemma LeaveDue(s: Server, id: nat)
    requires SyncInv(s) && CanAct(s, Leave(id))
    ensures DueInv(Act(s, Leave(id)))
  {
  }

  /** While nothing is due, all of a counter goes with its user. */
  lemma LeaveGrows(s: Server, id: nat)
    requires SyncInv(s) && CanAct(s, Leave(id)) && !s.phase.Subtracting?
    ensures AllGrow(s.meters, Act(s, Leave(id)).meters)
  {
  }

  lemma LeaveKeepsInv(s: Server, id: nat)
    requires SyncInv(s) && CanAct(s, Leave(id))
    ensures SyncInv(Act(s, Leave(id)))
  {
    LeaveDue(s, id);
    if !s.phase.Subtracting? {
      LeaveGrows(s, id);
      GrowthKeeps(s, Act(s, Leave(id)).meters);
    }
  }

  lemma LoadSentKeepsInv(s: Server, id: nat)
    requires SyncInv(s) && CanAct(s, LoadSent(id))
    ensures SyncInv(Act(s, LoadSent(id)))
  {
    assert DueHolds(s.meters[id], Due(s.phase, id));
  }

  lemma CollectedSums(p: Phase, r: Reading)
    requires p.Collecting? && SumInv(p)
    ensures SumInv(Collected(p, r))
  {
    var q := Collected(p, r);
    if q.Collecting? {
      forall h, d
        ensures At(q.snapshots, h, d) == TakenAt(q.taken, h, d)
      {
        assert At(p.snapshots, h, d) == TakenAt(p.taken, h, d);
        TakenAppend(p.taken, r, h, d);
      }
    }
  }

  lemma CollectedSound(s: Server, r: Reading)
    requires SyncInv(s) && s.phase.Collecting? && s.phase.half.Some? && r.id == s.phase.half.value.id && Backed(s.meters, r)
    ensures var t := s.(phase := Collected(s.phase, r)); Sound(t) && CollectInv(t) && DueInv(t)
  {
    var q := Collected(s.phase, r);
    assert forall id :: Due(q, id) == Due(s.phase, id);
    if q.Collecting? {
      assert forall i :: 0 <= i < |s.phase.taken| ==> q.taken[i] == s.phase.taken[i];
    }
  }

  lemma LoadRecvKeepsInv(s: Server)
    requires SyncInv(s) && CanAct(s, LoadRecv)
    ensures SyncInv(Act(s, LoadRecv))
  {
    var half := s.phase.half.value;
    var r := half.(recv := s.meters[half.id].now.recv);
    assert Backed(s.meters, r) by {
      assert DueHolds(s.meters[half.id], Due(s.phase, half.id));
    }
    CollectedSums(s.phase, r);
    CollectedSound(s, r);
  }

  /** The users after a commit: what a removed one's reading gave back is no longer lost. */
  lemma {:induction false} CreditedMeter(meters: seq<Meter>, taken: seq<Reading>, id: nat)
    requires Distinct(taken) && id < |meters|
    ensures var m, due := meters[id], ReadingOn(taken, id);
            CreditAll(meters, taken)[id] == if m.live then m else m.(lost := Less(m.lost, due.sent, due.recv))
    decreases taken
  {
    if taken != [] {
      var rest := taken[1..];
      CreditedMeter(CreditOne(meters, taken[0]), rest, id);
      if taken[0].id == id {
        assert forall i :: 0 <= i < |rest| ==> rest[i] == taken[i + 1];
        ReadingOnNone(rest, id);
      }
    }
  }

  /** What a commit leaves due is what was read. */
  lemma CommittedDue(s: Server, id: nat)
    requires Sound(s) && CollectInv(s) && DueInv(s) && s.phase.Collecting? && id < |s.meters|
    ensures DueHolds(CreditAll(s.meters, s.phase.taken)[id], ReadingOn(s.phase.taken, id))
  {
    CreditedMeter(s.meters, s.phase.taken, id);
    assert DueHolds(s.meters[id], Due(s.phase, id));
    if i :| 0 <= i < |s.phase.taken| && s.phase.taken[i].id == id {
      ReadingOnIs(s.phase.taken, i);
      assert Backed(s.meters, s.phase.taken[i]);
    } else {
      ReadingOnNone(s.phase.taken, id);
    }
  }

  lemma CommitKeepsInv(s: Server, a: Action)
    requires SyncInv(s) && CanAct(s, a) && a.Commit?
    ensures SyncInv(Act(s, a))
  {
    var t := Act(s, a);
    forall id | 0 <= id < |s.meters|
      ensures DueHolds(t.meters[id], Due(t.phase, id)) && t.meters[id].hash == s.meters[id].hash
    {
      assert DueHolds(s.meters[id], Due(s.phase, id));
      if Commits(s, a) {
        CommittedDue(s, id);
        CreditedMeter(s.meters, s.phase.taken, id);
      }
    }
  }

  lemma SubtractDue(s: Server, id: nat)
    requires SyncInv(s) && CanAct(s, Subtract) && id < |s.meters|
    ensures DueHolds(Act(s, Subtract).meters[id], Due(Act(s, Subtract).phase, id))
  {
    var taken, rest := s.phase.taken, s.phase.taken[1..];
    assert DueHolds(s.meters[id], Due(s.phase, id));
    assert |taken| == 1 ==> ReadingOn(rest, id) == Counter(0, 0);
    if taken[0].id == id {
      assert forall i :: 0 <= i < |rest| ==> rest[i] == taken[i + 1];
      ReadingOnNone(rest, id);
    }
  }

  lemma SubtractKeepsInv(s: Server)
    requires SyncInv(s) && CanAct(s, Subtract)
    ensures SyncInv(Act(s, Subtract))
  {
    var t := Act(s, Subtract);
    forall id | 0 <= id < |t.meters|
      ensures DueHolds(t.meters[id], Due(t.phase, id))
    {
      SubtractDue(s, id);
    }
    assert t.phase.Subtracting? ==> forall i :: 0 <= i < |t.phase.taken| ==> t.phase.taken[i] == s.phase.taken[i + 1];
  }

  /** Rows are not part of it, and a round begins with nothing read. */
  lemma OtherKeepsInv(s: Server, a: Action)
    requires SyncInv(s) && CanAct(s, a) && (a.Begin? || a.ResetRows? || a.NewRow? || a.DropRow?)
    ensures SyncInv(Act(s, a))
  {
    var t := Act(s, a);
    assert forall id :: Due(t.phase, id) == Due(s.phase, id);
  }

  /**
   Every action keeps it that a reading not stored yet never exceeds its counter
   or, once its user is gone, what that user lost; that the snapshots are the
   readings' sums; and that what is due on a counter is still there.
   */
  lemma ActKeepsInv(s: Server, a: Action)
    requires SyncInv(s) && CanAct(s, a)
    ensures SyncInv(Act(s, a))
  {
    match a {
      case Add(id, sent, recv) => AddKeepsInv(s, id, sent, recv);
      case Join(k, h) => JoinKeepsInv(s, k, h);
      case Leave(id) => LeaveKeepsInv(s, id);
      case LoadSent(id) => LoadSentKeepsInv(s, id);
      case LoadRecv => LoadRecvKeepsInv(s);
      case Commit(_) => CommitKeepsInv(s, a);
      case Subtract => SubtractKeepsInv(s);
      case _ => OtherKeepsInv(s, a);
    }
  }

  /** The subtraction takes off exactly the reading while its user is there, and changes no counter or loss that counts once it is not. */
  lemma NeverSaturates(s: Server)
    requires SyncInv(s) && CanAct(s, Subtract)
    ensures var t, r := Act(s, Subtract), s.phase.taken[0];
            var m := s.meters[r.id];
            && t.meters == s.meters[r.id := t.meters[r.id]]
            && (if m.live then t.meters[r.id] == m.(now := Counter(m.now.sent - r.sent, m.now.recv - r.recv))
                else t.meters[r.id] == m.(now := t.meters[r.id].now))
  {
    assert DueHolds(s.meters[s.phase.taken[0].id], Due(s.phase, s.phase.taken[0].id));
  }
}
