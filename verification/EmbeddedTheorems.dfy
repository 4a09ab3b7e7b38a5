/** The embedded sync over every run: no byte is made up, counted twice, or lost but with its user. */
module EmbeddedTheorems {
  import opened Basics
  import opened TrafficValues
  import opened SenderProtocol
  import opened MasterDatabase
  import opened Accounting
  import opened EmbeddedSync

  /** Bytes on counters and not yet in the database, in the database, or gone with their users. */
  function Total(s: Server, h: string, d: Direction): int {
    InMeters(s, h, d) - Owed(s, h, d) + Dropped(s, h, d) + RowAt(s.rows, h, d)
  }

  function Arriving(s: Server, a: Action, h: string, d: Direction): nat
    requires CanAct(s, a)
  {
    if a.Add? && s.meters[a.id].hash == h then Part(Counter(a.sent, a.recv), d) else 0
  }

  /** Bytes committed for a user that has no row. */
  function Unknown(s: Server, a: Action, h: string, d: Direction): nat {
    if Commits(s, a) && (h !in s.rows || h == "") then TakenAt(s.phase.taken, h, d) else 0
  }

  /** Stored bytes that a reset or a deletion clears. */
  function Cleared(s: Server, a: Action, h: string, d: Direction): int {
    if a.ResetRows? || (a.DropRow? && a.hash == h) then RowAt(s.rows, h, d) else 0
  }

  // ----- One action -----

  /** Changing one user object changes the sums by what changed in it. */
  lemma MeterChanges(s: Server, id: nat, m: Meter, h: string, d: Direction)
    requires id < |s.meters|
    ensures var t, was := s.(meters := s.meters[id := m]), s.meters[id];
            && InMeters(t, h, d) == InMeters(s, h, d) + CountedIn(m, h, d) - CountedIn(was, h, d)
            && Dropped(t, h, d) == Dropped(s, h, d) + LostWith(m, h, d) - LostWith(was, h, d)
  {
    var meters := s.meters[id := m];
    SumUpdate(AllCounted(s.meters, h, d), AllCounted(meters, h, d), id);
    SumUpdate(AllLost(s.meters, h, d), AllLost(meters, h, d), id);
  }

  /** Which readings are live depends on who is there, and on nothing else. */
  lemma {:induction false} SameLive(a: seq<Meter>, b: seq<Meter>, taken: seq<Reading>, h: string, d: Direction)
    requires forall i :: 0 <= i < |taken| ==> (IsLive(a, taken[i]) <==> IsLive(b, taken[i]))
    ensures LiveAt(a, taken, h, d) == LiveAt(b, taken, h, d)
    decreases taken
  {
    if taken != [] {
      assert forall i :: 0 <= i < |taken[1..]| ==> taken[1..][i] == taken[i + 1];
      SameLive(a, b, taken[1..], h, d);
    }
  }

  lemma AddConserves(s: Server, id: nat, sent: nat, recv: nat, h: string, d: Direction)
    requires CanAct(s, Add(id, sent, recv))
    ensures var a := Add(id, sent, recv); Total(Act(s, a), h, d) == Total(s, h, d) + Arriving(s, a, h, d)
  {
    var m := Arrived(s.meters[id], sent, recv);
    MeterChanges(s, id, m, h, d);
    if s.phase.Subtracting? {
      SameLive(s.meters, s.meters[id := m], s.phase.taken, h, d);
    }
  }

  lemma JoinConserves(s: Server, k: nat, g: string, h: string, d: Direction)
    requires SyncInv(s) && CanAct(s, Join(k, g))
    ensures Total(Act(s, Join(k, g)), h, d) == Total(s, h, d)
  {
    var t := Act(s, Join(k, g));
    assert AllCounted(t.meters, h, d) == AllCounted(s.meters, h, d) + [0];
    assert AllLost(t.meters, h, d) == AllLost(s.meters, h, d) + [0];
    SumAppend(AllCounted(s.meters, h, d), 0);
    SumAppend(AllLost(s.meters, h, d), 0);
    if s.phase.Subtracting? {
      SameLive(s.meters, t.meters, s.phase.taken, h, d);
    }
  }

  /** A user that leaves takes its reading out of the live ones. */
  lemma {:induction false} LiveWithout(meters: seq<Meter>, taken: seq<Reading>, id: nat, m: Meter, h: string, d: Direction)
    requires id < |meters| && meters[id].live && !m.live && Distinct(taken)
    requires forall i :: 0 <= i < |taken| && taken[i].id == id ==> taken[i].hash == meters[id].hash
    ensures LiveAt(meters[id := m], taken, h, d) ==
            LiveAt(meters, taken, h, d) - if h == meters[id].hash then Part(ReadingOn(taken, id), d) else 0
    decreases taken
  {
    if taken != [] {
      var rest := taken[1..];
      assert forall i :: 0 <= i < |rest| ==> rest[i] == taken[i + 1];
      if taken[0].id == id {
        SameLive(meters, meters[id := m], rest, h, d);
      } else {
        LiveWithout(meters, rest, id, m, h, d);
      }
    }
  }

  /** Of a user that leaves, what the rows do not have yet is lost. */
  lemma LeaveConserves(s: Server, id: nat, h: string, d: Direction)
    requires SyncInv(s) && CanAct(s, Leave(id))
    ensures Total(Act(s, Leave(id)), h, d) == Total(s, h, d)
  {
    var due := Due(s.phase, id);
    var m := Gone(s.meters[id], due);
    MeterChanges(s, id, m, h, d);
    assert DueHolds(s.meters[id], due);
    if s.phase.Subtracting? {
      LiveWithout(s.meters, s.phase.taken, id, m, h, d);
    }
  }

  predicate Creditable(meters: seq<Meter>, taken: seq<Reading>) {
    Distinct(taken) && forall i :: 0 <= i < |taken| ==> Backed(meters, taken[i])
  }

  lemma CreditableRest(meters: seq<Meter>, taken: seq<Reading>)
    requires taken != [] && Creditable(meters, taken)
    ensures Creditable(CreditOne(meters, taken[0]), taken[1..])
  {
    assert forall i :: 0 <= i < |taken[1..]| ==> taken[1..][i] == taken[i + 1];
  }

  /** What the rows take over from removed users is no longer lost. */
  lemma {:induction false} CreditedLoss(s: Server, taken: seq<Reading>, h: string, d: Direction)
    requires Creditable(s.meters, taken)
    ensures var t := s.(meters := CreditAll(s.meters, taken));
            && InMeters(t, h, d) == InMeters(s, h, d)
            && Dropped(t, h, d) == Dropped(s, h, d) - (TakenAt(taken, h, d) - LiveAt(s.meters, taken, h, d))
    decreases taken
  {
    if taken != [] {
      var r, rest := taken[0], taken[1..];
      var t := s.(meters := CreditOne(s.meters, r));
      assert Backed(s.meters, r);
      if !s.meters[r.id].live {
        MeterChanges(s, r.id, t.meters[r.id], h, d);
      }
      CreditableRest(s.meters, taken);
      CreditedLoss(t, rest, h, d);
      SameLive(s.meters, t.meters, rest, h, d);
    }
  }

  lemma CommitConserves(s: Server, a: Action, h: string, d: Direction)
    requires SyncInv(s) && CanAct(s, a) && a.Commit?
    ensures Total(Act(s, a), h, d) == Total(s, h, d) - Unknown(s, a, h, d)
  {
    if Commits(s, a) {
      var t := Act(s, a);
      DatabaseGainsReadings(s, a, h, d);
      CreditedLoss(s, s.phase.taken, h, d);
      forall id | 0 <= id < |s.meters|
        ensures t.meters[id].live == s.meters[id].live
      {
        CreditedMeter(s.meters, s.phase.taken, id);
      }
      SameLive(s.meters, t.meters, s.phase.taken, h, d);
    }
  }

  /** A commit that succeeds adds to each known user's row the sum of that user's readings. */
  lemma DatabaseGainsReadings(s: Server, a: Action, h: string, d: Direction)
    requires SyncInv(s) && Commits(s, a)
    ensures RowAt(Act(s, a).rows, h, d) == RowAt(s.rows, h, d) + if h in s.rows && h != "" then TakenAt(s.phase.taken, h, d) else 0
  {
    assert At(s.phase.snapshots, h, d) == TakenAt(s.phase.taken, h, d);
  }

  lemma SubtractConserves(s: Server, h: string, d: Direction)
    requires SyncInv(s) && CanAct(s, Subtract)
    ensures Total(Act(s, Subtract), h, d) == Total(s, h, d)
  {
    var t, r := Act(s, Subtract), s.phase.taken[0];
    NeverSaturates(s);
    MeterChanges(s, r.id, t.meters[r.id], h, d);
    assert Names(s.meters, r);
    SameLive(s.meters, t.meters, s.phase.taken[1..], h, d);
    assert |s.phase.taken| == 1 ==> LiveAt(t.meters, s.phase.taken[1..], h, d) == 0;
  }

  lemma ActConserves(s: Server, a: Action, h: string, d: Direction)
    requires SyncInv(s) && CanAct(s, a)
    ensures Total(Act(s, a), h, d) == Total(s, h, d) + Arriving(s, a, h, d) - Unknown(s, a, h, d) - Cleared(s, a, h, d)
  {
    match a {
      case Add(id, sent, recv) => AddConserves(s, id, sent, recv, h, d);
      case Join(k, g) => JoinConserves(s, k, g, h, d);
      case Leave(id) => LeaveConserves(s, id, h, d);
      case Commit(_) => CommitConserves(s, a, h, d);
      case Subtract => SubtractConserves(s, h, d);
      case _ =>
    }
  }

  // ----- Runs -----

  ghost predicate ServerRun(s: Server, acts: seq<Action>, t: Server)
    decreases acts
  {
    if acts == [] then s == t else CanAct(s, acts[0]) && ServerRun(Act(s, acts[0]), acts[1..], t)
  }

  ghost function AllArriving(s: Server, acts: seq<Action>, t: Server, h: string, d: Direction): nat
    requires ServerRun(s, acts, t)
    decreases acts
  {
    if acts == [] then 0 else Arriving(s, acts[0], h, d) + AllArriving(Act(s, acts[0]), acts[1..], t, h, d)
  }

  ghost function AllUnknown(s: Server, acts: seq<Action>, t: Server, h: string, d: Direction): nat
    requires ServerRun(s, acts, t)
    decreases acts
  {
    if acts == [] then 0 else Unknown(s, acts[0], h, d) + AllUnknown(Act(s, acts[0]), acts[1..], t, h, d)
  }

  ghost function AllCleared(s: Server, acts: seq<Action>, t: Server, h: string, d: Direction): int
    requires ServerRun(s, acts, t)
    decreases acts
  {
    if acts == [] then 0 else Cleared(s, acts[0], h, d) + AllCleared(Act(s, acts[0]), acts[1..], t, h, d)
  }

  /**
   Over every run and every interleaving of traffic, users who come and go,
   resets and sync rounds: the bytes on counters (less what the rows already
   have), in rows and lost with removed users grow by exactly the bytes that
   arrive, but for those of users without a row and those cleared from rows.
   */
  lemma {:induction false} EmbeddedConservation(s: Server, acts: seq<Action>, t: Server, h: string, d: Direction)
    requires SyncInv(s) && ServerRun(s, acts, t)
    ensures SyncInv(t)
    ensures Total(t, h, d) ==
            Total(s, h, d) + AllArriving(s, acts, t, h, d) - AllUnknown(s, acts, t, h, d) - AllCleared(s, acts, t, h, d)
    decreases acts
  {
    if acts != [] {
      ActKeepsInv(s, acts[0]);
      ActConserves(s, acts[0], h, d);
      EmbeddedConservation(Act(s, acts[0]), acts[1..], t, h, d);
    }
  }

  /** A reset keeps every row, with nothing used. */
  lemma ResetEmptiesRows(s: Server)
    ensures var rows := Act(s, ResetRows).rows; rows.Keys == s.rows.Keys && forall h :: h in rows ==> rows[h] == Row(0, 0, 0)
  {
  }

  // ----- A round that stores nothing -----

  /** No commit of the run succeeds. */
  ghost predicate NoneCommits(s: Server, acts: seq<Action>, t: Server)
    requires ServerRun(s, acts, t)
    decreases acts
  {
    acts != [] ==> !Commits(s, acts[0]) && NoneCommits(Act(s, acts[0]), acts[1..], t)
  }

  predicate WritesRows(a: Action) {
    a.ResetRows? || a.NewRow? || a.DropRow?
  }

  /** What a run adds to one counter. */
  function AddedTo(c: Counter, acts: seq<Action>, id: nat): Counter
    decreases acts
  {
    if acts == [] then c
    else
      var a := acts[0];
      AddedTo(if a.Add? && a.id == id then Plus(c, a.sent, a.recv) else c, acts[1..], id)
  }

  /**
   Rounds that fail, any number of them: every counter whose user stays holds
   what it held and what arrived, nothing is subtracted; and the rows are as they
   were unless others write them.
   */
  lemma {:induction false} FailedSyncChangesNothing(s: Server, acts: seq<Action>, t: Server)
    requires ServerRun(s, acts, t) && !s.phase.Subtracting? && NoneCommits(s, acts, t)
    ensures !t.phase.Subtracting? && |s.meters| <= |t.meters|
    ensures forall id: nat :: id < |s.meters| && s.meters[id].live && Leave(id) !in acts ==>
              t.meters[id] == s.meters[id].(now := AddedTo(s.meters[id].now, acts, id))
    ensures (forall a :: a in acts ==> !WritesRows(a)) ==> t.rows == s.rows
    decreases acts
  {
    if acts != [] {
      var m := Act(s, acts[0]);
      FailedSyncChangesNothing(m, acts[1..], t);
      forall id: nat | id < |s.meters| && s.meters[id].live && Leave(id) !in acts
        ensures t.meters[id] == s.meters[id].(now := AddedTo(s.meters[id].now, acts, id))
      {
        assert m.meters[id].live && Leave(id) !in acts[1..];
      }
      if forall a :: a in acts ==> !WritesRows(a) {
        assert acts[0] in acts && m.rows == s.rows;
        assert forall a :: a in acts[1..] ==> a in acts;
      }
    }
  }
}
