/**
 What a sender's events achieve, and exactly when they do: the other side of
 the conservation of bytes, which doing nothing would satisfy too.
 */
module SenderEffects {
  import opened Basics
  import opened TrafficValues
  import opened SenderProtocol
  import opened Accounting
  import opened AccountingProofs

  // ----- One event, without a fault -----

  /** The counter's bytes are queued, what was received as upload, and the counter starts again. */
  predicate Moved(s: Sender, t: Sender, k: nat, h: string)
    requires HasUser(s, k, h) && s.memory.Loaded?
  {
    var c, was := s.counters[k][h], s.memory.state.queued;
    && t.counters == s.counters[k := s.counters[k][h := Counter(0, 0)]]
    && t.memory == Loaded(t.disk) && t.disk.pending == s.memory.state.pending
    && t.disk.queued.Keys == was.Keys + {h}
    && t.disk.queued[h].up == c.recv + (if h in was then was[h].up else 0)
    && t.disk.queued[h].down == c.sent + (if h in was then was[h].down else 0)
    && forall g :: g in was && g != h ==> t.disk.queued[g] == was[g]
  }

  /** A user with no hash, or a sum beyond 64 bits. */
  predicate Unqueueable(s: Sender, k: nat, h: string)
    requires HasUser(s, k, h) && s.memory.Loaded?
  {
    var c, was := s.counters[k][h], s.memory.state.queued;
    h == "" || (h in was && (was[h].up + c.recv > UINT64_MAX || was[h].down + c.sent > UINT64_MAX))
  }

  /** Accepted batches in memory and on disk, and 64-bit counters. */
  predicate Sound(s: Sender) {
    && WellFormed(s.disk) && (s.memory.Loaded? ==> WellFormed(s.memory.state))
    && forall k, h :: 0 <= k < |s.counters| && h in s.counters[k] ==>
         s.counters[k][h].sent <= UINT64_MAX && s.counters[k][h].recv <= UINT64_MAX
  }

  lemma SoundStep(s: Sender, e: Event)
    requires Sound(s) && Enabled(s, e)
    ensures Sound(Next(s, e))
  {
  }

  /** Every state of every run of a sender is sound. */
  lemma {:induction false} SoundRuns(s: Sender, es: seq<Event>, t: Sender)
    requires Sound(s) && Runs(s, es, t)
    ensures Sound(t)
    decreases es
  {
    if es != [] {
      SoundStep(s, es[0]);
      SoundRuns(Next(s, es[0]), es[1..], t);
    }
  }

  /** With the outbox writable, a checkpoint moves the bytes or changes nothing, and the latter exactly when they cannot be queued. */
  lemma CheckpointMovesIff(s: Sender, k: nat, h: string)
    requires Enabled(s, Checkpoint(k, h, NoFault)) && Sound(s)
    ensures var t := Next(s, Checkpoint(k, h, NoFault));
            if Unqueueable(s, k, h) then t == s else Moved(s, t, k, h)
  {
  }

  /** The whole queue becomes the batch of the new key, durably. */
  lemma FreezeTakesQueue(s: Sender, id: string)
    requires Enabled(s, Freeze(id, NoFault)) && Sound(s) && id != ""
    ensures var t := Next(s, Freeze(id, NoFault));
            && t.counters == s.counters && t.memory == Loaded(t.disk)
            && t.disk == Durable(Some(Frozen(id, s.memory.state.queued)), map[])
  {
  }

  /** The pending batch is forgotten, durably, and nothing else is. */
  lemma AcknowledgeForgets(s: Sender)
    requires Enabled(s, Acknowledge(NoFault)) && Sound(s)
    ensures var t := Next(s, Acknowledge(NoFault));
            && t.counters == s.counters && t.memory == Loaded(t.disk)
            && t.disk == Durable(None, s.memory.state.queued)
  {
  }

  /** A save that is refused although the outbox is writable: there are bytes that cannot be queued. */
  lemma RefusedIff(s: Sender, e: Event)
    requires e.Checkpoint? || e.Freeze? || e.Acknowledge?
    requires Enabled(s, e) && e.fault == NoFault && Sound(s)
    ensures Refused(s, e) <==> (e.Checkpoint? && Unqueueable(s, e.auth, e.hash)) || (e.Freeze? && e.id == "")
  {
    match e {
      case Checkpoint(k, h, _) => CheckpointMovesIff(s, k, h);
      case Freeze(id, _) =>
        if id != "" {
          FreezeTakesQueue(s, id);
        }
      case Acknowledge(_) => AcknowledgeForgets(s);
    }
  }

  /** After a crash and a restart exactly what the outbox holds is left; an unreadable one is kept and not used. */
  lemma RestartKeepsOutbox(s: Sender, readable: bool)
    requires Running(s)
    ensures var t := Next(Next(s, Crash), Load(readable));
            t.disk == s.disk && t.counters == [] && if readable then t.memory == Loaded(s.disk) else t.memory == Unavailable
  {
  }

  // ----- Collecting -----

  lemma CheckpointKeeps(s: Sender, k: nat, g: string, fault: Fault, h: string, d: Direction)
    requires Enabled(s, Checkpoint(k, g, fault))
    ensures var t := Next(s, Checkpoint(k, g, fault));
            && t.memory.Loaded? && t.memory.state.pending == s.memory.state.pending
            && s.memory.state.queued.Keys <= t.memory.state.queued.Keys
            && At(t.memory.state.queued, h, d) + InCounters(t, h, d) == At(s.memory.state.queued, h, d) + InCounters(s, h, d)
  {
    var next := WithCounter(s.memory.state, g, s.counters[k][g]);
    var saved := Save(s, next, fault);
    assert Readings(saved.counters, h, d) == Readings(s.counters, h, d);
    if !Overflows(s.memory.state, g, s.counters[k][g]) && Persist(s.disk, next, fault).1 {
      CountersSet(saved, k, g, Counter(0, 0), h, d);
    }
  }

  /** Checkpoints, with traffic arriving and users coming and going in between. */
  predicate Collects(es: seq<Event>) {
    forall k :: 0 <= k < |es| ==> es[k].Checkpoint? || IsOutside(es[k])
  }

  /**
   However a collection ends, the pending batch is untouched and the queue loses
   no user; undisturbed, every byte is still counted or queued.
   */
  lemma {:induction false} CollectionKeeps(s: Sender, es: seq<Event>, t: Sender, h: string, d: Direction)
    requires Runs(s, es, t) && Collects(es) && s.memory.Loaded?
    ensures t.memory.Loaded? && t.memory.state.pending == s.memory.state.pending
    ensures s.memory.state.queued.Keys <= t.memory.state.queued.Keys
    ensures Quiet(es) ==>
              At(t.memory.state.queued, h, d) + InCounters(t, h, d) == At(s.memory.state.queued, h, d) + InCounters(s, h, d)
    decreases es
  {
    if es != [] {
      var m := Next(s, es[0]);
      if es[0].Checkpoint? {
        CheckpointKeeps(s, es[0].auth, es[0].hash, es[0].fault, h, d);
      }
      assert forall k :: 0 <= k < |es[1..]| ==> es[1..][k] == es[k + 1];
      CollectionKeeps(m, es[1..], t, h, d);
    }
  }

  predicate Emptied(users: map<string, Counter>) {
    forall h :: h in users ==> users[h] == Counter(0, 0)
  }

  lemma EmptiedCounters(s: Sender, h: string, d: Direction)
    requires forall k :: 0 <= k < |s.counters| ==> Emptied(s.counters[k])
    ensures InCounters(s, h, d) == 0
  {
    AllZero(Readings(s.counters, h, d));
  }

  /** The batch holds everything that was queued or counted. */
  ghost predicate Carries(b: Batch, s: Sender)
    requires s.memory.Loaded?
  {
    forall h, d :: At(b, h, d) == At(s.memory.state.queued, h, d) + InCounters(s, h, d)
  }

  /** A collection that emptied the counters undisturbed has queued every byte that was in them. */
  lemma EverythingQueued(s: Sender, es: seq<Event>, t: Sender)
    requires Runs(s, es, t) && Collects(es) && s.memory.Loaded? && Quiet(es)
    requires forall k :: 0 <= k < |t.counters| ==> Emptied(t.counters[k])
    ensures t.memory.Loaded? && Carries(t.memory.state.queued, s)
  {
    CollectionKeeps(s, es, t, "", Up);
    forall h, d
      ensures At(t.memory.state.queued, h, d) == At(s.memory.state.queued, h, d) + InCounters(s, h, d)
    {
      CollectionKeeps(s, es, t, h, d);
      EmptiedCounters(t, h, d);
    }
  }
}
