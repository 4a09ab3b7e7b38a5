/** Exactly when bytes that were written off come back: a condition on the history of a sender's saves. */
module AccountingHistory {
  import opened Basics
  import opened TrafficValues
  import opened SenderProtocol
  import opened Accounting
  import opened AccountingProofs
  import opened AccountingTheorems

  /**
   The last save that reached the outbox file without being adopted by memory:
   none since the last adopted one, a checkpoint of one counter with its reading
   then (and whether that user has been removed since), or a save that only
   moved bytes from one place to another.
   */
  datatype Stray = Nothing | Stored(auth: nat, hash: string, reading: Counter, removed: bool) | Moved

  /** How a save of `next` changes that. */
  function AfterSave(u: Stray, next: Durable, fault: Fault, stray: Stray): Stray {
    if !WellFormed(next) || fault == BeforeRename then u
    else if fault == NoFault then Nothing
    else stray
  }

  function Track(s: Sender, u: Stray, e: Event): Stray
    requires Enabled(s, e)
  {
    match e
    case Checkpoint(k, h, fault) =>
      var c := s.counters[k][h];
      if Overflows(s.memory.state, h, c) then u
      else AfterSave(u, WithCounter(s.memory.state, h, c), fault, Stored(k, h, c, false))
    case Freeze(id, fault) => AfterSave(u, Durable(Some(Frozen(id, s.memory.state.queued)), map[]), fault, Moved)
    case Acknowledge(fault) => AfterSave(u, s.memory.state.(pending := None), fault, Moved)
    case DelUser(k, h) => if u.Stored? && u.auth == k && u.hash == h then u.(removed := true) else u
    case Crash => Nothing
    case Load(_) => Nothing
    case _ => u
  }

  /** The history of sender i over a run. */
  ghost function History(w: World, es: seq<Step>, i: nat, u: Stray): Stray
    decreases |es|
  {
    if es == [] || !Possible(w, es[0]) then u
    else History(After(w, es[0]), es[1..], i, if es[0].Local? && es[0].i == i then Track(w.senders[i], u, es[0].event) else u)
  }

  /** The counter has not lost what the checkpoint read. */
  predicate StillCounted(s: Sender, k: nat, h: string, c: Counter) {
    k < |s.counters| && h in s.counters[k] && c.sent <= s.counters[k][h].sent && c.recv <= s.counters[k][h].recv
  }

  /** What the outbox file holds beyond memory is exactly what the stray save put there. */
  predicate Explained(s: Sender, u: Stray) {
    if !s.memory.Loaded? then u == Nothing
    else
      var m := s.memory.state;
      match u
      case Nothing => s.disk == m
      case Stored(k, h, c, removed) => s.disk == WithCounter(m, h, c) && (!removed ==> StillCounted(s, k, h, c))
      case Moved =>
        || (m.pending.None? && s.disk.pending.Some? && s.disk == Durable(s.disk.pending, map[]) && s.disk.pending.value.traffic == m.queued)
        || (m.pending.Some? && s.disk == m.(pending := None))
  }

  lemma TrackExplains(s: Sender, u: Stray, e: Event)
    requires Explained(s, u) && Enabled(s, e)
    ensures Explained(Next(s, e), Track(s, u, e))
  {
  }

  lemma StepExplains(w: World, e: Step, i: nat, u: Stray)
    requires Shape(w) && Possible(w, e) && i < |w.senders| && Explained(w.senders[i], u)
    ensures Shape(After(w, e))
    ensures Explained(After(w, e).senders[i], if e.Local? && e.i == i then Track(w.senders[i], u, e.event) else u)
  {
    if e.Local? && e.i == i {
      TrackExplains(w.senders[i], u, e.event);
    }
  }

  lemma {:induction false} HistoryExplains(w: World, es: seq<Step>, v: World, i: nat, u: Stray)
    requires Shape(w) && WorldRun(w, es, v) && i < |w.senders| && Explained(w.senders[i], u)
    ensures Shape(v) && i < |v.senders| && Explained(v.senders[i], History(w, es, i, u))
    decreases |es|
  {
    if es != [] {
      StepExplains(w, es[0], i, u);
      HistoryExplains(After(w, es[0]), es[1..], v, i, if es[0].Local? && es[0].i == i then Track(w.senders[i], u, es[0].event) else u);
    }
  }

  function ReadingOf(c: Counter, d: Direction): nat {
    match d case Up => c.recv case Down => c.sent
  }

  /** How much more the file holds than memory, for one user. */
  lemma StrayBytes(w: World, i: nat, u: Stray, h: string, d: Direction)
    requires Inv(w) && i < |w.senders| && Explained(w.senders[i], u)
    ensures Held(w.senders[i].disk, Booked(w), h, d) - Held(View(w.senders[i]), Booked(w), h, d) ==
            if u.Stored? && u.hash == h then ReadingOf(u.reading, d) else 0
  {
    var s := w.senders[i];
    assert Coherent(w, s);
  }

  lemma CountedBytes(s: Sender, k: nat, h: string, c: Counter, d: Direction)
    requires StillCounted(s, k, h, c)
    ensures ReadingOf(c, d) <= InCounters(s, h, d)
  {
    SumAtLeast(Readings(s.counters, h, d), k);
  }

  lemma CrashFallsIff(w: World, i: nat, u: Stray, h: string, d: Direction)
    requires Inv(w) && i < |w.senders| && Possible(w, Local(i, Crash)) && Explained(w.senders[i], u)
    ensures After(w, Local(i, Crash)).accounts[i].dropped(h, d) < w.accounts[i].dropped(h, d) <==>
            u.Stored? && u.hash == h && u.removed && InCounters(w.senders[i], h, d) < ReadingOf(u.reading, d)
  {
    StrayBytes(w, i, u, h, d);
    assert BalancedAt(w.senders[i], w.accounts[i], Booked(w), h, d);
    DroppedAfter(w, Local(i, Crash), i, h, d);
    EventDrops(w.senders[i], w.accounts[i], Booked(w), Crash, h, d);
    if u.Stored? && u.hash == h && !u.removed {
      CountedBytes(w.senders[i], u.auth, h, u.reading, d);
    }
  }

  /**
   A sender's dropped total falls for a user exactly at a crash after a history
   in which the last save to reach the file was a refused checkpoint of this
   user, the user was removed since, and fewer bytes were counted again than
   that checkpoint had read.
   */
  lemma DroppedFallsIff(start: World, es: seq<Step>, w: World, e: Step, i: nat, h: string, d: Direction)
    requires Reached(start, es, w) && Possible(w, e) && i < |w.senders|
    ensures Shape(w) && i < |w.accounts| && i < |After(w, e).accounts|
    ensures After(w, e).accounts[i].dropped(h, d) < w.accounts[i].dropped(h, d) <==>
            var u := History(start, es, i, Nothing);
            && e == Local(i, Crash) && u.Stored? && u.hash == h && u.removed
            && InCounters(w.senders[i], h, d) < ReadingOf(u.reading, d)
  {
    InitialInv(start);
    RunKeepsInv(start, es, w);
    StartShape(start, es, w);
    var u := History(start, es, i, Nothing);
    HistoryExplains(start, es, w, i, Nothing);
    LossOnlyFromCounters(w, e, i, h, d);
    if e == Local(i, Crash) {
      CrashFallsIff(w, i, u, h, d);
    }
  }

  lemma {:induction false} StartShape(w: World, es: seq<Step>, v: World)
    requires Shape(w) && WorldRun(w, es, v)
    ensures Shape(v) && |v.senders| == |w.senders|
    decreases |es|
  {
    if es != [] {
      StartShape(After(w, es[0]), es[1..], v);
    }
  }
}
