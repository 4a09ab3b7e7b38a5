/**
 The code of one embedded sync round as a run of the model's actions. Between
 any two of its statements traffic arrives, users come and go and rows are
 written. A user object is known by its number, so that a reading stays with
 the object it was taken from when its hash is forgotten or given to another.
 */
module EmbeddedServer {
  import opened Basics
  import opened TrafficValues
  import opened SenderProtocol
  import opened MasterDatabase
  import opened EmbeddedSync
  import opened EmbeddedTheorems

  datatype User = User(hash: string, counter: Counter)

  // ----- Runs -----

  lemma {:induction false} ServerRunConcat(s: Server, xs: seq<Action>, m: Server, ys: seq<Action>, t: Server)
    requires ServerRun(s, xs, m) && ServerRun(m, ys, t)
    ensures ServerRun(s, xs + ys, t)
    ensures NoneCommits(s, xs, m) && NoneCommits(m, ys, t) ==> NoneCommits(s, xs + ys, t)
    decreases xs
  {
    if xs == [] {
      assert xs + ys == ys;
    } else {
      ServerRunConcat(Act(s, xs[0]), xs[1..], m, ys, t);
      assert (xs + ys)[1..] == xs[1..] + ys;
    }
  }

  lemma ServerRunExtend(s: Server, xs: seq<Action>, m: Server, a: Action)
    requires ServerRun(s, xs, m) && CanAct(m, a)
    ensures ServerRun(s, xs + [a], Act(m, a))
    ensures NoneCommits(s, xs, m) && !Commits(m, a) ==> NoneCommits(s, xs + [a], Act(m, a))
  {
    assert [a][1..] == [];
    assert ServerRun(m, [a], Act(m, a)) && (!Commits(m, a) ==> NoneCommits(m, [a], Act(m, a)));
    ServerRunConcat(s, xs, m, [a], Act(m, a));
  }

  /** What others do. */
  predicate IsForeign(a: Action) {
    a.Add? || a.Join? || a.Leave? || WritesRows(a)
  }

  /** Nothing of that happens. */
  predicate Silent(acts: seq<Action>) {
    forall i :: 0 <= i < |acts| ==> !IsForeign(acts[i])
  }

  lemma SilentParts(xs: seq<Action>, ys: seq<Action>)
    ensures Silent(xs + ys) <==> Silent(xs) && Silent(ys)
  {
    assert forall i :: 0 <= i < |xs| ==> xs[i] == (xs + ys)[i];
    assert forall i :: 0 <= i < |ys| ==> ys[i] == (xs + ys)[|xs| + i];
  }

  /** What others leave alone: the round's own state, and which users there have ever been. */
  predicate Foreign(s: Server, t: Server) {
    && t.phase == s.phase && |s.meters| <= |t.meters|
    && forall id :: 0 <= id < |s.meters| ==> t.meters[id].auth == s.meters[id].auth && t.meters[id].hash == s.meters[id].hash
  }

  /** Both loads of one reading, whatever others do in between. */
  lemma ReadingRun(s: Server, id: nat, more: seq<Action>, m: Server)
    requires CanAct(s, LoadSent(id)) && ServerRun(Act(s, LoadSent(id)), more, m) && Foreign(Act(s, LoadSent(id)), m)
    ensures var acts := [LoadSent(id)] + more + [LoadRecv];
            && CanAct(m, LoadRecv) && ServerRun(s, acts, Act(m, LoadRecv)) && (Silent(acts) <==> Silent(more))
            && (NoneCommits(Act(s, LoadSent(id)), more, m) ==> NoneCommits(s, acts, Act(m, LoadRecv)))
  {
    ServerRunExtend(s, [], s, LoadSent(id));
    assert [] + [LoadSent(id)] == [LoadSent(id)];
    ServerRunConcat(s, [LoadSent(id)], Act(s, LoadSent(id)), more, m);
    ServerRunExtend(s, [LoadSent(id)] + more, m, LoadRecv);
    SilentParts([LoadSent(id)], more);
    SilentParts([LoadSent(id)] + more, [LoadRecv]);
  }

  // ----- What the code holds, and what the model says of it -----

  /** User objects and authenticators are the model's. */
  ghost predicate Linked(users: seq<User>, dir: seq<map<string, nat>>, meters: seq<Meter>) {
    && |users| == |meters|
    && (forall id :: 0 <= id < |users| ==> users[id] == User(meters[id].hash, meters[id].now))
    && (forall k, h :: 0 <= k < |dir| && h in dir[k] ==> dir[k][h] < |meters| && IsUser(meters[dir[k][h]], k, h))
    && (forall id :: 0 <= id < |meters| && meters[id].live ==> Lists(dir, meters[id], id))
  }

  predicate Lists(dir: seq<map<string, nat>>, m: Meter, id: nat) {
    m.auth < |dir| && m.hash in dir[m.auth] && dir[m.auth][m.hash] == id
  }

  /** Readings of users that are there, none of them empty, each at its present value. */
  predicate Current(meters: seq<Meter>, taken: seq<Reading>) {
    forall i :: 0 <= i < |taken| ==> IsCurrent(meters, taken[i])
  }

  predicate IsCurrent(meters: seq<Meter>, r: Reading) {
    IsLive(meters, r) && r == ReadingNow(meters[r.id], r.id) && meters[r.id].now != Counter(0, 0)
  }

  /** Every user that is there was read at its present value, or is at zero: those of the first authenticators, but for some still to do. */
  ghost predicate AllRead(meters: seq<Meter>, auths: nat, todo: set<nat>, taken: seq<Reading>) {
    && Current(meters, taken) && (forall id :: id in todo ==> id < |meters| && meters[id].live)
    && forall id :: 0 <= id < |meters| && meters[id].live && meters[id].auth < auths && id !in todo ==>
         meters[id].now == Counter(0, 0) || ReadingNow(meters[id], id) in taken
  }

  function ReadingNow(m: Meter, id: nat): Reading {
    Reading(id, m.hash, m.now.sent, m.now.recv)
  }

  function WithReading(taken: seq<Reading>, m: Meter, id: nat): seq<Reading> {
    if m.now == Counter(0, 0) then taken else taken + [ReadingNow(m, id)]
  }

  predicate AllNamed(meters: seq<Meter>, taken: seq<Reading>) {
    forall i :: 0 <= i < |taken| ==> Names(meters, taken[i])
  }

  /** One more reading, or none, of the user at hand. */
  ghost predicate Read(p: Phase, q: Phase, id: nat)
    requires p.Collecting?
  {
    && q.Collecting? && q.half.None? && q.seen == p.seen + {id}
    && ((p.taken == [] <==> p.snapshots == map[]) ==> (q.taken == [] <==> q.snapshots == map[]))
  }

  /** The snapshot's progress: authenticators below `auths` are listed, and of the last one `todo` is still to be read. */
  ghost predicate Proceeds(meters: seq<Meter>, auths: nat, todo: set<nat>, p: Phase) {
    && p.Collecting? && p.half.None? && (p.taken == [] <==> p.snapshots == map[])
    && (forall id :: id in p.seen ==> id < |meters| && meters[id].auth < auths)
    && (forall id :: id in todo ==> id < |meters| && meters[id].auth + 1 == auths && id !in p.seen)
  }

  /** The users an authenticator lists are those of its own that are there. */
  lemma Listed(users: seq<User>, dir: seq<map<string, nat>>, meters: seq<Meter>, k: nat, p: Phase)
    requires Linked(users, dir, meters) && k < |dir| && Proceeds(meters, k, {}, p)
    ensures Proceeds(meters, k + 1, dir[k].Values, p)
    ensures AllRead(meters, k, {}, p.taken) ==> AllRead(meters, k + 1, dir[k].Values, p.taken)
  {
    forall id | 0 <= id < |meters| && meters[id].live && meters[id].auth == k
      ensures id in dir[k].Values
    {
      assert Lists(dir, meters[id], id);
      assert meters[id].hash in dir[k].Keys;
    }
  }

  /** What the second load makes of the first. */
  lemma SecondLoad(s: Server, id: nat, m: Server)
    requires CanAct(s, LoadSent(id)) && Foreign(Act(s, LoadSent(id)), m)
    ensures CanAct(m, LoadRecv) && Act(m, LoadRecv) == m.(phase := Act(m, LoadRecv).phase)
    ensures var next, r := Act(m, LoadRecv).phase, Reading(id, s.meters[id].hash, s.meters[id].now.sent, m.meters[id].now.recv);
            && next == Collected(s.phase.(seen := s.phase.seen + {id}), r)
            && (next.Idle? || Read(s.phase, next, id))
            && (next.Collecting? && m.meters == s.meters ==> next.taken == WithReading(s.phase.taken, s.meters[id], id))
  {
  }

  lemma OneMore(a: seq<Meter>, b: seq<Meter>, auths: nat, todo: set<nat>, p: Phase, q: Phase, id: nat)
    requires Proceeds(a, auths, todo, p) && id in todo && Read(p, q, id)
    requires |a| <= |b| && forall i :: 0 <= i < |a| ==> b[i].auth == a[i].auth
    ensures Proceeds(b, auths, todo - {id}, q)
    ensures a == b && q.taken == WithReading(p.taken, b[id], id) && AllRead(a, auths, todo, p.taken) ==>
              AllRead(b, auths, todo - {id}, q.taken)
  {
  }

  predicate AllZeroed(meters: seq<Meter>) {
    forall id :: 0 <= id < |meters| && meters[id].live ==> meters[id].now == Counter(0, 0)
  }

  /** What is left to subtract is at most what the counters hold, and all of it. */
  ghost predicate ToZero(meters: seq<Meter>, taken: seq<Reading>) {
    && Distinct(taken)
    && forall id :: 0 <= id < |meters| && meters[id].live ==>
         meters[id].now == Counter(0, 0) || ReadingNow(meters[id], id) in taken
  }

  /** Lowering a counter by its own reading empties it, and leaves the others to their readings. */
  lemma OneToZero(s: Server)
    requires CanAct(s, Subtract) && ToZero(s.meters, s.phase.taken)
    ensures ToZero(Act(s, Subtract).meters, s.phase.taken[1..])
  {
    var t, taken, rest := Act(s, Subtract), s.phase.taken, s.phase.taken[1..];
    assert forall i :: 0 <= i < |rest| ==> rest[i] == taken[i + 1];
    forall id | 0 <= id < |t.meters| && t.meters[id].live
      ensures t.meters[id].now == Counter(0, 0) || ReadingNow(t.meters[id], id) in rest
    {
      if s.meters[id].now != Counter(0, 0) {
        var i :| 0 <= i < |taken| && taken[i] == ReadingNow(s.meters[id], id);
        if i > 0 {
          assert taken[0].id != id;
          assert rest[i - 1] == taken[i];
        }
      }
    }
  }

  /** With every user read, subtracting the readings takes all counters to zero. */
  lemma ReadToZero(users: seq<User>, dir: seq<map<string, nat>>, s: Server, taken: seq<Reading>)
    requires Linked(users, dir, s.meters) && SyncInv(s) && s.phase.Collecting? && s.phase.taken == taken
    requires AllRead(s.meters, |dir|, {}, taken)
    ensures ToZero(s.meters, taken)
  {
    assert forall id :: 0 <= id < |s.meters| && s.meters[id].live ==> Lists(dir, s.meters[id], id);
  }

  /** A commit leaves users and counters as they are. */
  lemma Recorded(users: seq<User>, dir: seq<map<string, nat>>, s: Server, a: Action)
    requires Linked(users, dir, s.meters) && SyncInv(s) && CanAct(s, a) && a.Commit?
    ensures Linked(users, dir, Act(s, a).meters) && AllNamed(Act(s, a).meters, s.phase.taken)
  {
    var t := Act(s, a);
    forall id | 0 <= id < |s.meters|
      ensures t.meters[id] == s.meters[id].(lost := t.meters[id].lost)
    {
      if Commits(s, a) {
        CreditedMeter(s.meters, s.phase.taken, id);
      }
    }
  }

  lemma Subtracted(users: seq<User>, dir: seq<map<string, nat>>, s: Server)
    requires Linked(users, dir, s.meters) && CanAct(s, Subtract) && AllNamed(s.meters, s.phase.taken)
    ensures var r := s.phase.taken[0];
            && r.id < |users|
            && Linked(users[r.id := users[r.id].(counter := Less(users[r.id].counter, r.sent, r.recv))], dir, Act(s, Subtract).meters)
            && AllNamed(Act(s, Subtract).meters, s.phase.taken[1..])
  {
  }

  lemma CommitToZero(s: Server, taken: seq<Reading>)
    requires SyncInv(s) && s.phase.Collecting? && s.phase.taken == taken
    ensures ToZero(s.meters, taken) ==> ToZero(CreditAll(s.meters, taken), taken)
  {
    forall id | 0 <= id < |s.meters|
      ensures s.meters[id].live ==> CreditAll(s.meters, taken)[id] == s.meters[id]
      ensures CreditAll(s.meters, taken)[id].live == s.meters[id].live
    {
      CreditedMeter(s.meters, taken, id);
    }
  }

  // ----- What an undisturbed round stores -----

  /** Emptying a counter takes its bytes out of the sum. */
  lemma {:induction false} TakenIsCounted(s: Server, taken: seq<Reading>, h: string, d: Direction)
    requires Distinct(taken) && Current(s.meters, taken)
    ensures TakenAt(taken, h, d) <= InMeters(s, h, d)
    ensures ToZero(s.meters, taken) ==> TakenAt(taken, h, d) == InMeters(s, h, d)
    decreases taken
  {
    if taken == [] {
      NothingCounted(s, h, d);
    } else {
      var r, rest := taken[0], taken[1..];
      assert forall i :: 0 <= i < |rest| ==> rest[i] == taken[i + 1];
      assert IsCurrent(s.meters, r);
      var m := s.meters[r.id].(now := Counter(0, 0));
      var t := s.(meters := s.meters[r.id := m]);
      MeterChanges(s, r.id, m, h, d);
      assert forall i :: 0 <= i < |rest| ==> IsCurrent(t.meters, rest[i]) by {
        assert forall i :: 0 <= i < |rest| ==> IsCurrent(s.meters, taken[i + 1]) && rest[i].id != r.id;
      }
      if ToZero(s.meters, taken) {
        FirstToZero(s.meters, taken, m);
      }
      TakenIsCounted(t, rest, h, d);
    }
  }

  lemma NothingCounted(s: Server, h: string, d: Direction)
    ensures 0 <= InMeters(s, h, d)
    ensures AllZeroed(s.meters) ==> InMeters(s, h, d) == 0
  {
    if AllZeroed(s.meters) {
      AllZero(AllCounted(s.meters, h, d));
    }
  }

  lemma FirstToZero(meters: seq<Meter>, taken: seq<Reading>, m: Meter)
    requires taken != [] && ToZero(meters, taken) && taken[0].id < |meters| && m == meters[taken[0].id].(now := Counter(0, 0))
    ensures ToZero(meters[taken[0].id := m], taken[1..])
  {
    var next, rest := meters[taken[0].id := m], taken[1..];
    assert forall i :: 0 <= i < |rest| ==> rest[i] == taken[i + 1];
    forall id | 0 <= id < |next| && next[id].live
      ensures next[id].now == Counter(0, 0) || ReadingNow(next[id], id) in rest
    {
      if id != taken[0].id && meters[id].now != Counter(0, 0) {
        var i :| 0 <= i < |taken| && taken[i] == ReadingNow(meters[id], id);
        assert rest[i - 1] == taken[i];
      }
    }
  }

  /** All that is counted for a user, over all authenticators. */
  ghost function Counted(s: Server, h: string): Traffic {
    NothingCounted(s, h, Up);
    NothingCounted(s, h, Down);
    Traffic(InMeters(s, h, Up), InMeters(s, h, Down))
  }

  /** What the proxy received from a user is that user's upload. */
  lemma ReceivedIsUpload(s: Server)
    requires |s.meters| == 1 && s.meters[0].live
    ensures Counted(s, s.meters[0].hash) == Traffic(s.meters[0].now.recv, s.meters[0].now.sent)
  {
    var h := s.meters[0].hash;
    assert AllCounted(s.meters, h, Up) == [s.meters[0].now.recv] && AllCounted(s.meters, h, Down) == [s.meters[0].now.sent];
    assert Sum([s.meters[0].now.recv][1..]) == 0 && Sum([s.meters[0].now.sent][1..]) == 0;
  }

  /** Some sum does not fit in 64 bits. */
  ghost predicate TooMuch(s: Server) {
    exists h :: Counted(s, h).up > UINT64_MAX || Counted(s, h).down > UINT64_MAX
  }

  lemma SameMeters(s: Server, t: Server)
    requires s.meters == t.meters && TooMuch(s)
    ensures TooMuch(t)
  {
    var h :| Counted(s, h).up > UINT64_MAX || Counted(s, h).down > UINT64_MAX;
    assert Counted(t, h) == Counted(s, h);
  }

  /** A sum that overflows while reading is too much in all. */
  lemma OverflowIsTooMuch(s: Server, p: Phase, id: nat)
    requires p.Collecting? && SumInv(p) && Distinct(p.taken) && Unread(p.taken, id) && Current(s.meters, p.taken)
    requires id < |s.meters| && s.meters[id].live && s.meters[id].now != Counter(0, 0)
    requires var m := s.meters[id];
             At(p.snapshots, m.hash, Up) + m.now.recv > UINT64_MAX || At(p.snapshots, m.hash, Down) + m.now.sent > UINT64_MAX
    ensures TooMuch(s)
  {
    var r, h := ReadingNow(s.meters[id], id), s.meters[id].hash;
    assert Current(s.meters, p.taken + [r]) && Distinct(p.taken + [r]);
    TakenIsCounted(s, p.taken + [r], h, Up);
    TakenIsCounted(s, p.taken + [r], h, Down);
    TakenAppend(p.taken, r, h, Up);
    TakenAppend(p.taken, r, h, Down);
    assert Counted(s, h).up > UINT64_MAX || Counted(s, h).down > UINT64_MAX;
  }

  /** There is nothing to store, or the database takes it all. */
  ghost predicate CanStore(s: Server, fault: bool) {
    || (forall h :: Counted(s, h) == Traffic(0, 0))
    || (!fault && forall h :: Counted(s, h) != Traffic(0, 0) ==> RoomFor(s.rows, h, Counted(s, h), UnitRate))
  }

  /** Each known user's row has gained what was counted for that user. */
  ghost predicate Stored(s: Server, rows: map<string, Row>) {
    && rows.Keys == s.rows.Keys
    && forall h :: h in s.rows ==>
         var t := if h == "" then Traffic(0, 0) else Counted(s, h);
         rows[h] == Row(s.rows[h].upload + t.up, s.rows[h].download + t.down, s.rows[h].used + t.up + t.down)
  }

  lemma TooMuchCannotBeStored(s: Server, fault: bool)
    requires TooMuch(s)
    ensures !CanStore(s, fault)
  {
    var h :| Counted(s, h).up > UINT64_MAX || Counted(s, h).down > UINT64_MAX;
    assert Counted(s, h) != Traffic(0, 0) && !RoomFor(s.rows, h, Counted(s, h), UnitRate);
  }

  /** With everything read, the snapshots are what is counted. */
  lemma SnapshotsAreCounted(s: Server, p: Phase, h: string)
    requires p.Collecting? && SumInv(p) && Distinct(p.taken) && Current(s.meters, p.taken) && ToZero(s.meters, p.taken)
    ensures Counted(s, h) == if h in p.snapshots then p.snapshots[h] else Traffic(0, 0)
  {
    TakenIsCounted(s, p.taken, h, Up);
    TakenIsCounted(s, p.taken, h, Down);
    assert At(p.snapshots, h, Up) == TakenAt(p.taken, h, Up) && At(p.snapshots, h, Down) == TakenAt(p.taken, h, Down);
  }

  lemma SomethingCounted(s: Server, p: Phase)
    requires p.Collecting? && SumInv(p) && Distinct(p.taken) && Current(s.meters, p.taken) && p.taken != []
    ensures exists h :: Counted(s, h) != Traffic(0, 0)
  {
    var r := p.taken[0];
    assert IsCurrent(s.meters, r);
    TakenIsCounted(s, p.taken, r.hash, Up);
    TakenIsCounted(s, p.taken, r.hash, Down);
    assert Counted(s, r.hash) != Traffic(0, 0);
  }

  /** Whether the transaction goes through, and what it leaves, in terms of what is counted. */
  lemma StoresIff(s: Server, p: Phase, fault: bool)
    requires p.Collecting? && SumInv(p) && Distinct(p.taken) && Current(s.meters, p.taken) && ToZero(s.meters, p.taken)
    requires p.taken == [] <==> p.snapshots == map[]
    ensures (p.snapshots == map[] || (!fault && Settles(s.rows, p.snapshots, UnitRate))) <==> CanStore(s, fault)
    ensures p.snapshots == map[] ==> Stored(s, s.rows)
    ensures Settles(s.rows, p.snapshots, UnitRate) ==> Stored(s, Settled(s.rows, p.snapshots, UnitRate))
  {
    forall h
      ensures Counted(s, h) == if h in p.snapshots then p.snapshots[h] else Traffic(0, 0)
    {
      SnapshotsAreCounted(s, p, h);
    }
    RoomIsEnough(s.rows, p.snapshots, UnitRate);
    if Room(s.rows, p.snapshots, UnitRate) {
      RoomIsUsed(s.rows, p.snapshots, UnitRate);
    }
    if p.snapshots != map[] {
      SomethingCounted(s, p);
      RoomForCounted(s, p);
    }
  }

  lemma RoomForCounted(s: Server, p: Phase)
    requires p.Collecting? && forall h :: Counted(s, h) == if h in p.snapshots then p.snapshots[h] else Traffic(0, 0)
    ensures Room(s.rows, p.snapshots, UnitRate) <==>
            forall h :: Counted(s, h) != Traffic(0, 0) ==> RoomFor(s.rows, h, Counted(s, h), UnitRate)
  {
    forall h | h in p.snapshots
      ensures RoomFor(s.rows, h, p.snapshots[h], UnitRate) <==>
              (Counted(s, h) != Traffic(0, 0) ==> RoomFor(s.rows, h, Counted(s, h), UnitRate))
    {
      assert Counted(s, h) == p.snapshots[h];
    }
  }

  /** What is left to do once the first readings are subtracted. */
  function Rest(taken: seq<Reading>): Phase {
    if taken == [] then Idle else Subtracting(taken)
  }

  /** The admin server: its authenticators, the user objects they know, and the database's rows. */
  class AdminServer {
    var users: seq<User>
    var dir: seq<map<string, nat>>
    var rows: map<string, Row>
    ghost var server: Server

    ghost predicate Valid()
      reads this
    {
      Linked(users, dir, server.meters) && server.rows == rows
    }

    constructor (auths: nat, rows: map<string, Row>)
      ensures Valid() && server == Server([], rows, Idle) && SyncInv(server)
    {
      users, dir, this.rows := [], seq(auths, i => map[]), rows;
      server := Server([], rows, Idle);
    }

    /** A connection reports its bytes to its user object: the model's action exactly when neither counter wraps. */
    method AddTraffic(id: nat, sent: nat, recv: nat)
      requires Valid() && id < |users| && sent <= UINT64_MAX && recv <= UINT64_MAX
      modifies this`users, this`server
      ensures CanAct(old(server), Add(id, sent, recv)) && server == Act(old(server), Add(id, sent, recv))
      ensures Valid() <==> old(users)[id].counter.sent + sent <= UINT64_MAX && old(users)[id].counter.recv + recv <= UINT64_MAX
    {
      var c := users[id].counter;
      users := users[id := users[id].(counter := Counter((c.sent + sent) % (UINT64_MAX + 1), (c.recv + recv) % (UINT64_MAX + 1)))];
      server := Act(server, Add(id, sent, recv));
      assert users[id].hash == server.meters[id].hash;
    }

    /** A new user object at zero; a known hash is refused. */
    method AddUser(k: nat, h: string) returns (ok: bool)
      requires Valid() && k < |dir|
      modifies this`users, this`dir, this`server
      ensures Valid() && |dir| == |old(dir)| && (ok <==> h !in old(dir)[k])
      ensures ok ==> CanAct(old(server), Join(k, h)) && server == Act(old(server), Join(k, h))
      ensures !ok ==> server == old(server)
    {
      if h in dir[k] {
        return false;
      }
      var known: map<string, nat> := dir[k][h := |users|];
      dir := dir[k := known];
      users := users + [User(h, Counter(0, 0))];
      server := Act(server, Join(k, h));
      return true;
    }

    /** Closing the user clears its counter, then it is forgotten; whoever holds the object still does. */
    method DelUser(k: nat, h: string) returns (ok: bool)
      requires Valid() && k < |dir|
      modifies this`users, this`dir, this`server
      ensures Valid() && |dir| == |old(dir)| && (ok <==> h in old(dir)[k])
      ensures ok ==> CanAct(old(server), Leave(old(dir)[k][h])) && server == Act(old(server), Leave(old(dir)[k][h]))
      ensures !ok ==> server == old(server)
    {
      if h !in dir[k] {
        return false;
      }
      var id := dir[k][h];
      users := users[id := users[id].(counter := Counter(0, 0))];
      dir := dir[k := dir[k] - {h}];
      server := Act(server, Leave(id));
      return true;
    }

    /** Takes bytes off a user object's counter, stopping at zero. */
    method SubtractTraffic(id: nat, sent: nat, recv: nat)
      requires id < |users|
      modifies this`users
      ensures users == old(users)[id := old(users)[id].(counter := Less(old(users)[id].counter, sent, recv))]
    {
      var c := users[id].counter;
      users := users[id := users[id].(counter :=
        Counter(if c.sent >= sent then c.sent - sent else 0, if c.recv >= recv then c.recv - recv else 0))];
    }

    /** One thing that others may do. */
    method Elsewhere(a: Action) returns (done: bool, ghost did: Action)
      requires Valid()
      modifies this
      ensures Valid()
      ensures done ==> IsForeign(did) && CanAct(old(server), did) && server == Act(old(server), did)
      ensures !done ==> server == old(server)
      ensures |dir| == |old(dir)|
    {
      done, did := false, a;
      match a {
        case Add(id, sent, recv) =>
          if id < |users| && users[id].counter.sent + sent <= UINT64_MAX && users[id].counter.recv + recv <= UINT64_MAX {
            AddTraffic(id, sent, recv);
            done := true;
          }
        case Join(k, h) =>
          if k < |dir| {
            done := AddUser(k, h);
          }
        case Leave(id) =>
          if id < |users| {
            var k: nat :| 0 <= k;
            if k < |dir| {
              var h := users[id].hash;
              if h in dir[k] {
                did := Leave(dir[k][h]);
                done := DelUser(k, h);
              }
            }
          }
        case _ =>
          done := WriteRows(a);
      }
    }

    /** Rows are reset, created and deleted by the server's other workers. */
    method WriteRows(a: Action) returns (done: bool)
      requires Valid()
      modifies this`rows, this`server
      ensures Valid()
      ensures done ==> WritesRows(a) && CanAct(old(server), a) && server == Act(old(server), a)
      ensures !done ==> server == old(server)
    {
      done := a.ResetRows? || a.DropRow? || (a.NewRow? && a.hash !in rows);
      if a.ResetRows? {
        rows := map h | h in rows :: Row(0, 0, 0);
      } else if a.DropRow? {
        rows := rows - {a.hash};
      } else if a.NewRow? && a.hash !in rows {
        rows := rows[a.hash := Row(0, 0, 0)];
      }
      if done {
        server := Act(server, a);
      }
    }

    /** What others do while the round is under way. */
    method Meanwhile() returns (ghost acts: seq<Action>)
      requires Valid()
      modifies this
      ensures Valid() && |dir| == |old(dir)| && ServerRun(old(server), acts, server) && Foreign(old(server), server)
      ensures NoneCommits(old(server), acts, server) && (Silent(acts) ==> server == old(server))
    {
      acts := [];
      var n: nat :| 0 <= n;
      for i := 0 to n
        invariant Valid() && |dir| == |old(dir)| && ServerRun(old(server), acts, server) && Foreign(old(server), server)
        invariant NoneCommits(old(server), acts, server) && (Silent(acts) ==> server == old(server))
      {
        var a: Action := *;
        ghost var m := server;
        var done;
        ghost var did;
        done, did := Elsewhere(a);
        if done {
          ServerRunExtend(old(server), acts, m, did);
          SilentParts(acts, [did]);
          assert IsForeign([did][0]);
          acts := acts + [did];
        }
      }
    }

    /** One user object: two loads, and anything in between. */
    method ReadUser(id: nat, p: Phase) returns (next: Phase, ghost acts: seq<Action>)
      requires Valid() && SyncInv(server) && id < |users| && server.phase == p && p.Collecting? && p.half.None? && id !in p.seen
      modifies this
      ensures Valid() && SyncInv(server) && |dir| == |old(dir)| && ServerRun(old(server), acts, server) && server.phase == next
      ensures Foreign(old(server), server.(phase := p)) && NoneCommits(old(server), acts, server)
      ensures next.Idle? || Read(p, next, id)
      ensures Silent(acts) ==> server.meters == old(server).meters && rows == old(rows)
      ensures Silent(acts) && next.Collecting? ==> next.taken == WithReading(p.taken, server.meters[id], id)
      ensures Silent(acts) && next.Idle? && server.meters[id].live && Current(server.meters, p.taken) ==> TooMuch(server)
    {
      ghost var s := server;
      var sent := users[id].counter.sent;
      server := Act(server, LoadSent(id));
      ghost var more := Meanwhile();
      ghost var m := server;
      ReadingRun(s, id, more, m);
      SecondLoad(s, id, m);
      acts := [LoadSent(id)] + more + [LoadRecv];
      var recv := users[id].counter.recv;
      next := Collected(p.(seen := p.seen + {id}), Reading(id, users[id].hash, sent, recv));
      server := Act(server, LoadRecv);
      EmbeddedConservation(s, acts, server, "", Up);
      if Silent(acts) && next.Idle? && s.meters[id].live && Current(s.meters, p.taken) {
        OverflowIsTooMuch(s, p, id);
        assert TooMuch(server) by {
          SameMeters(s, server);
        }
      }
    }

    /** One user of those still to be read. */
    method ReadNext(ghost auths: nat, todo: set<nat>, id: nat, p: Phase) returns (next: Phase, ghost acts: seq<Action>)
      requires Valid() && SyncInv(server) && id in todo && server.phase == p && Proceeds(server.meters, auths, todo, p)
      modifies this
      ensures Valid() && SyncInv(server) && |dir| == |old(dir)| && ServerRun(old(server), acts, server) && server.phase == next
      ensures NoneCommits(old(server), acts, server)
      ensures next.Idle? || Proceeds(server.meters, auths, todo - {id}, next)
      ensures Silent(acts) ==> server.meters == old(server).meters && rows == old(rows)
      ensures Silent(acts) && AllRead(old(server).meters, auths, todo, p.taken) ==>
                if next.Idle? then TooMuch(server) else AllRead(server.meters, auths, todo - {id}, next.taken)
    {
      ghost var m := server;
      next, acts := ReadUser(id, p);
      if next.Collecting? {
        OneMore(m.meters, server.meters, auths, todo, p, next, id);
      }
    }

    /** The users of one authenticator, as they are listed when it is reached, in any order. */
    method ReadAuth(k: nat, start: Phase) returns (next: Phase, ghost acts: seq<Action>)
      requires Valid() && SyncInv(server) && k < |dir| && server.phase == start && Proceeds(server.meters, k, {}, start)
      modifies this
      ensures Valid() && SyncInv(server) && |dir| == |old(dir)| && ServerRun(old(server), acts, server) && server.phase == next
      ensures NoneCommits(old(server), acts, server)
      ensures next.Idle? || Proceeds(server.meters, k + 1, {}, next)
      ensures Silent(acts) ==> server.meters == old(server).meters && rows == old(rows)
      ensures Silent(acts) && AllRead(old(server).meters, k, {}, start.taken) ==>
                if next.Idle? then TooMuch(server) else AllRead(server.meters, k + 1, {}, next.taken)
    {
      next := start;
      acts := [];
      var todo := dir[k].Values;
      ghost var s := server;
      ghost var all := AllRead(s.meters, k, {}, start.taken);
      Listed(users, dir, server.meters, k, start);
      while todo != {}
        invariant Valid() && SyncInv(server) && |dir| == |old(dir)| && server.phase == next
        invariant ServerRun(s, acts, server) && NoneCommits(s, acts, server)
        invariant Silent(acts) ==> server.meters == s.meters && rows == old(rows)
        invariant Proceeds(server.meters, k + 1, todo, next)
        invariant Silent(acts) && all ==> AllRead(server.meters, k + 1, todo, next.taken)
        decreases todo
      {
        var id :| id in todo;
        ghost var m := server;
        ghost var more;
        next, more := ReadNext(k + 1, todo, id, next);
        ServerRunConcat(s, acts, m, more, server);
        SilentParts(acts, more);
        acts := acts + more;
        if next.Idle? {
          return;
        }
        todo := todo - {id};
      }
    }

    /** Phase 1: snapshot every counter without resetting it. */
    method Snapshot() returns (next: Phase, ghost acts: seq<Action>)
      requires Valid() && SyncInv(server) && server.phase == Idle
      modifies this
      ensures Valid() && SyncInv(server) && |dir| == |old(dir)| && ServerRun(old(server), acts, server) && server.phase == next
      ensures NoneCommits(old(server), acts, server)
      ensures next.Idle? || Proceeds(server.meters, |dir|, {}, next)
      ensures Silent(acts) ==> server.meters == old(server).meters && rows == old(rows)
      ensures Silent(acts) ==> if next.Idle? then TooMuch(server) else AllRead(server.meters, |dir|, {}, next.taken)
    {
      ghost var s := server;
      next := Collecting({}, None, map[], []);
      server := Act(server, Begin);
      ServerRunExtend(s, [], s, Begin);
      acts := [] + [Begin];
      for k := 0 to |dir|
        invariant Valid() && SyncInv(server) && |dir| == |old(dir)| && server.phase == next
        invariant ServerRun(s, acts, server) && NoneCommits(s, acts, server)
        invariant Silent(acts) ==> server.meters == s.meters && rows == old(rows)
        invariant Proceeds(server.meters, k, {}, next)
        invariant Silent(acts) ==> AllRead(server.meters, k, {}, next.taken)
      {
        ghost var m := server;
        ghost var more;
        next, more := ReadAuth(k, next);
        ServerRunConcat(s, acts, m, more, server);
        SilentParts(acts, more);
        acts := acts + more;
        if next.Idle? {
          return;
        }
      }
    }

    /** Phase 2: one transaction for all users. */
    method Store(snapshots: Batch, fault: bool) returns (ok: bool)
      modifies this`rows
      ensures ok == (!fault && Settles(old(rows), snapshots, UnitRate))
      ensures rows == if ok then Settled(old(rows), snapshots, UnitRate) else old(rows)
    {
      if fault {
        return false;
      }
      var updated := SettleBatch(rows, snapshots, UnitRate);
      if updated.None? {
        return false;
      }
      rows := updated.value;
      return true;
    }

    /** One user object is lowered by its own reading, after anything that happened meanwhile. */
    method SubtractOne(taken: seq<Reading>) returns (ghost acts: seq<Action>)
      requires Valid() && taken != [] && server.phase == Subtracting(taken) && AllNamed(server.meters, taken)
      modifies this
      ensures Valid() && ServerRun(old(server), acts, server) && server.phase == Rest(taken[1..]) && AllNamed(server.meters, taken[1..])
      ensures Silent(acts) && ToZero(old(server).meters, taken) ==> ToZero(server.meters, taken[1..])
      ensures Silent(acts) ==> rows == old(rows)
    {
      acts := Meanwhile();
      ghost var m := server;
      assert CanAct(m, Subtract) && AllNamed(m.meters, taken);
      Subtracted(users, dir, m);
      var r := taken[0];
      SubtractTraffic(r.id, r.sent, r.recv);
      server := Act(server, Subtract);
      ServerRunExtend(old(server), acts, m, Subtract);
      SilentParts(acts, [Subtract]);
      assert ToZero(m.meters, taken) ==> ToZero(server.meters, taken[1..]) by {
        if ToZero(m.meters, taken) {
          OneToZero(m);
        }
      }
      acts := acts + [Subtract];
    }

    /** Phase 3: each counter is lowered by its own reading. */
    method SubtractAll(taken: seq<Reading>) returns (ghost acts: seq<Action>)
      requires Valid() && server.phase == Rest(taken) && AllNamed(server.meters, taken)
      modifies this
      ensures Valid() && ServerRun(old(server), acts, server) && server.phase == Idle
      ensures Silent(acts) && ToZero(old(server).meters, taken) ==> AllZeroed(server.meters)
      ensures Silent(acts) ==> rows == old(rows)
    {
      acts := [];
      ghost var s := server;
      assert taken[0..] == taken;
      for i := 0 to |taken|
        invariant Valid() && ServerRun(s, acts, server) && server.phase == Rest(taken[i..]) && AllNamed(server.meters, taken[i..])
        invariant Silent(acts) && ToZero(s.meters, taken) ==> ToZero(server.meters, taken[i..])
        invariant Silent(acts) ==> rows == old(rows)
      {
        ghost var m := server;
        assert taken[i..][1..] == taken[i + 1..];
        ghost var more := SubtractOne(taken[i..]);
        ServerRunConcat(s, acts, m, more, server);
        SilentParts(acts, more);
        acts := acts + more;
      }
    }

    /** Phase 2, with others at work before it; nothing read is nothing to store. */
    method Transact(read: Phase, fault: bool) returns (ok: bool, ghost acts: seq<Action>)
      requires Valid() && SyncInv(server) && server.phase == read && Proceeds(server.meters, |dir|, {}, read)
      modifies this
      ensures Valid() && ServerRun(old(server), acts, server) && server.phase == if ok then Rest(read.taken) else Idle
      ensures ok ==> AllNamed(server.meters, read.taken)
      ensures ok && Silent(acts) && ToZero(old(server).meters, read.taken) ==> ToZero(server.meters, read.taken)
      ensures !ok ==> NoneCommits(old(server), acts, server)
      ensures Silent(acts) ==> ok == (read.snapshots == map[] || (!fault && Settles(old(rows), read.snapshots, UnitRate)))
      ensures Silent(acts) ==>
                rows == if ok && read.snapshots != map[] then Settled(old(rows), read.snapshots, UnitRate) else old(rows)
    {
      ghost var s := server;
      acts := Meanwhile();
      ghost var m := server;
      assert SyncInv(m) by {
        EmbeddedConservation(s, acts, m, "", Up);
      }
      server := Act(server, Commit(fault));
      ServerRunExtend(s, acts, m, Commit(fault));
      SilentParts(acts, [Commit(fault)]);
      acts := acts + [Commit(fault)];
      if read.snapshots == map[] {
        return true, acts;
      }
      ok := Store(read.snapshots, fault);
      Recorded(users, dir, m, Commit(fault));
      CommitToZero(m, read.taken);
    }

    /** Phases 2 and 3, once everything is read. */
    method Settle(read: Phase, fault: bool) returns (ok: bool, ghost acts: seq<Action>)
      requires Valid() && SyncInv(server) && server.phase == read && Proceeds(server.meters, |dir|, {}, read)
      modifies this
      ensures Valid() && ServerRun(old(server), acts, server) && server.phase == Idle
      ensures ok && Silent(acts) && ToZero(old(server).meters, read.taken) ==> AllZeroed(server.meters)
      ensures !ok ==> NoneCommits(old(server), acts, server)
      ensures Silent(acts) ==> ok == (read.snapshots == map[] || (!fault && Settles(old(rows), read.snapshots, UnitRate)))
      ensures Silent(acts) ==>
                rows == if ok && read.snapshots != map[] then Settled(old(rows), read.snapshots, UnitRate) else old(rows)
    {
      ghost var s := server;
      ok, acts := Transact(read, fault);
      if !ok {
        return;
      }
      ghost var m := server;
      ghost var more := SubtractAll(read.taken);
      ServerRunConcat(s, acts, m, more, server);
      SilentParts(acts, more);
      acts := acts + more;
    }

    /**
     One round is a run of the model's actions whatever others do meanwhile; if it
     fails, nothing of it was committed. If nobody interferes, it succeeds exactly
     when the database can take all that is counted, and then every counter is at
     zero and every known user's row has gained what was counted for that user.
     */
    method SyncOnce(fault: bool) returns (ok: bool, ghost acts: seq<Action>)
      requires Valid() && SyncInv(server) && server.phase == Idle
      modifies this
      ensures Valid() && SyncInv(server) && server.phase == Idle && ServerRun(old(server), acts, server)
      ensures !ok ==> NoneCommits(old(server), acts, server)
      ensures Silent(acts) ==> (ok <==> CanStore(old(server), fault))
      ensures ok && Silent(acts) ==> AllZeroed(server.meters) && Stored(old(server), rows)
      ensures !ok && Silent(acts) ==> rows == old(rows)
    {
      ghost var s := server;
      var read;
      read, acts := Snapshot();
      if read.Idle? {
        if Silent(acts) {
          SameMeters(server, s);
          TooMuchCannotBeStored(s, fault);
        }
        return false, acts;
      }
      ghost var m := server;
      if Silent(acts) {
        ReadToZero(users, dir, m, read.taken);
        StoresIff(s, read, fault);
      }
      ghost var more;
      ok, more := Settle(read, fault);
      ServerRunConcat(s, acts, m, more, server);
      SilentParts(acts, more);
      acts := acts + more;
      EmbeddedConservation(s, acts, server, "", Up);
    }
  }
}
