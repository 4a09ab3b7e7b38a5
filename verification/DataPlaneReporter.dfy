/**
 The standalone data plane's traffic reporter. Each method comes with the
 protocol events it amounts to, so that whatever holds of every run of the
 protocol holds of this code.
 */
module DataPlaneReporter {
  import opened Basics
  import opened TrafficValues
  import opened SenderProtocol
  import opened SenderEffects
  import opened TrafficOutbox
  import opened MemoryAuthenticator

  /** How far an exchange has got: 0 at its start, 1 frozen, 2 sent, 3 acknowledged; -1 if it is none. */
  function Progress(es: seq<Event>, syncId: Option<string>, answered: bool): int {
    if es == [] then 0 else Advance(Progress(es[..|es| - 1], syncId, answered), es[|es| - 1], syncId, answered)
  }

  function Advance(before: int, e: Event, syncId: Option<string>, answered: bool): int {
    if IsOutside(e) then
      if before < 3 then before else -1
    else match e
    case Freeze(id, _) => if before == 0 && Some(id) == syncId then 1 else -1
    case Send => if before == 0 || before == 1 then 2 else -1
    case Acknowledge(_) => if before == 2 && answered then 3 else -1
    case _ => -1
  }

  /** Perhaps a freeze, then perhaps a send, then perhaps the acknowledgement of an answer, with others at work in between. */
  predicate Exchange(es: seq<Event>, syncId: Option<string>, answered: bool) {
    Progress(es, syncId, answered) >= 0
  }

  lemma ProgressStep(es: seq<Event>, e: Event, syncId: Option<string>, answered: bool)
    ensures Progress(es + [e], syncId, answered) == Advance(Progress(es, syncId, answered), e, syncId, answered)
  {
    assert (es + [e])[..|es|] == es;
  }

  lemma {:induction false} ProgressOutside(es: seq<Event>, more: seq<Event>, syncId: Option<string>, answered: bool)
    requires 0 <= Progress(es, syncId, answered) < 3 && OnlyOutside(more)
    ensures Progress(es + more, syncId, answered) == Progress(es, syncId, answered)
    decreases |more|
  {
    if more == [] {
      assert es + more == es;
    } else {
      var front := more[..|more| - 1];
      assert es + more == (es + front) + [more[|more| - 1]];
      ProgressOutside(es, front, syncId, answered);
      ProgressStep(es + front, more[|more| - 1], syncId, answered);
    }
  }

  /** Sending changes nothing at the sender. */
  lemma SendRuns(s: Sender, es: seq<Event>, m: Sender, syncId: Option<string>, answered: bool)
    requires Runs(s, es, m) && Enabled(m, Send) && 0 <= Progress(es, syncId, answered) <= 1
    ensures Runs(s, es + [Send], m) && Progress(es + [Send], syncId, answered) == 2
  {
    RunsExtend(s, es, m, Send);
    ProgressStep(es, Send, syncId, answered);
  }

  /** What was sent, if anything was. */
  function Traffics(sent: Option<Frozen>): Batch {
    if sent.Some? then sent.value.traffic else map[]
  }

  class Reporter {
    const auth: Authenticator
    const outbox: OutboxFile
    var pending: Option<Frozen>
    var queued: Batch
    var loadFailed: bool

    /** The sender this object is, in protocol terms. */
    ghost function Abs(): Sender
      reads this, auth, outbox
    {
      Sender([auth.users], if loadFailed then Unavailable else Loaded(Durable(pending, queued)), outbox.Contents())
    }

    ghost predicate Valid()
      reads this, outbox
    {
      outbox.Valid() && (pending.Some? ==> pending.value.id != "")
    }

    /** A restart: the outbox is loaded, or the reporter refuses to work. */
    constructor (auth: Authenticator, outbox: OutboxFile, readable: bool)
      requires outbox.Valid()
      ensures Valid() && this.auth == auth && this.outbox == outbox
      ensures Abs() == Sender([auth.users], if loadFailed then Unavailable else Loaded(outbox.Contents()), outbox.Contents())
      ensures readable ==> !loadFailed
    {
      this.auth := auth;
      this.outbox := outbox;
      pending := None;
      queued := map[];
      loadFailed := false;
      new;
      var state := outbox.Load(readable);
      if state.None? {
        loadFailed := true;
      } else {
        if state.value.pending != map[] {
          pending := Some(Frozen(state.value.pendingSyncId, state.value.pending));
        }
        queued := state.value.queued;
      }
    }

    /** Saves memory as it stands; the fault is the environment's choice. */
    method Persist() returns (ok: bool, ghost fault: Fault)
      requires Valid()
      modifies outbox
      ensures Valid()
      ensures (outbox.Contents(), ok) == SenderProtocol.Persist(old(outbox.Contents()), Durable(pending, queued), fault)
      ensures outbox.reliable ==> fault == NoFault
    {
      var environment: Fault := *;
      if outbox.reliable {
        environment := NoFault;
      }
      RecordRoundTrip(Durable(pending, queued));
      var saved, used := outbox.Save(RecordOf(Durable(pending, queued)), environment);
      return saved, used;
    }

    /** A connection reports its bytes: the protocol's event exactly when neither counter wraps. */
    method AddTraffic(h: string, sent: nat, recv: nat)
      requires Valid() && h in auth.users && sent <= UINT64_MAX && recv <= UINT64_MAX
      modifies auth
      ensures Valid() && auth.users.Keys == old(auth.users.Keys)
      ensures var e := SenderProtocol.Event.AddTraffic(0, h, sent, recv);
              (Enabled(old(Abs()), e) && Abs() == Next(old(Abs()), e)) <==>
              (old(auth.users[h].sent) + sent <= UINT64_MAX && old(auth.users[h].recv) + recv <= UINT64_MAX)
    {
      auth.AddTraffic(h, sent, recv);
    }

    /** One thing that others may do: traffic arrives, a user comes, or a user goes. */
    method Elsewhere(e: Event) returns (done: bool)
      requires Valid()
      modifies auth
      ensures Valid()
      ensures done ==> IsOutside(e) && Enabled(old(Abs()), e) && Abs() == Next(old(Abs()), e)
      ensures !done ==> auth.users == old(auth.users)
    {
      done := false;
      match e {
        case AddTraffic(k, h, sent, recv) =>
          if k == 0 && h in auth.users && auth.users[h].sent + sent <= UINT64_MAX && auth.users[h].recv + recv <= UINT64_MAX {
            AddTraffic(h, sent, recv);
            done := true;
          }
        case AddUser(k, h) =>
          if k == 0 {
            done := auth.AddUser(h);
          }
        case DelUser(k, h) =>
          if k == 0 {
            done := auth.DelUser(h);
          }
        case _ =>
      }
    }

    /** What others do while the reporter is at work. */
    method Meanwhile() returns (ghost es: seq<Event>)
      requires Valid()
      modifies auth
      ensures Valid() && Runs(old(Abs()), es, Abs()) && OnlyOutside(es)
      ensures es == [] ==> auth.users == old(auth.users)
    {
      es := [];
      ghost var s := Abs();
      var n: nat :| 0 <= n;
      for i := 0 to n
        invariant Valid() && Runs(s, es, Abs()) && OnlyOutside(es)
        invariant es == [] ==> auth.users == old(auth.users)
      {
        var e: Event := *;
        ghost var m := Abs();
        var done := Elsewhere(e);
        if done {
          RunsExtend(s, es, m, e);
          es := es + [e];
        }
      }
    }

    /** Queues one reading durably, or leaves the queue as it was. */
    method Stage(h: string, c: Counter) returns (ok: bool, ghost fault: Fault)
      requires Valid() && !loadFailed && !Overflows(Durable(pending, queued), h, c)
      modifies this`queued, outbox
      ensures Valid()
      ensures ok == SenderProtocol.Persist(old(Abs()).disk, WithCounter(old(Abs()).memory.state, h, c), fault).1
      ensures outbox.reliable ==> fault == NoFault
      ensures Abs() == Save(old(Abs()), WithCounter(old(Abs()).memory.state, h, c), fault)
    {
      var existed := h in queued;
      var current := if existed then queued[h] else Traffic(0, 0);
      ghost var next := WithCounter(Durable(pending, queued), h, c);
      Reverted(queued, h, Traffic(current.up + c.recv, current.down + c.sent));
      queued := queued[h := Traffic(current.up + c.recv, current.down + c.sent)];
      assert Durable(pending, queued) == next;
      ok, fault := Persist();
      if !ok {
        if existed {
          queued := queued[h := current];
        } else {
          queued := queued - {h};
        }
      }
    }

    /** One user's bytes enter the queue, durably, before its counter is cleared. */
    method CheckpointUser(h: string) returns (ok: bool, ghost fault: Fault)
      requires Valid() && !loadFailed && h in auth.users && auth.users[h] != Counter(0, 0)
      modifies this`queued, auth, outbox
      ensures Valid() && Abs() == Next(old(Abs()), Checkpoint(0, h, fault))
      ensures auth.users == if ok then old(auth.users)[h := Counter(0, 0)] else old(auth.users)
      ensures !ok ==> Refused(Abs(), Checkpoint(0, h, fault)) && (outbox.reliable ==> fault == NoFault)
    {
      var c := auth.users[h];
      if Overflows(Durable(pending, queued), h, c) {
        return false, NoFault;
      }
      ok, fault := Stage(h, c);
      if ok {
        ghost var m := Abs();
        auth.ClearTraffic(h);
        assert Abs() == SetCounter(m, 0, h, Counter(0, 0));
      }
    }

    /** One user: others may be at work first, then what its counter holds is checkpointed. */
    method CollectUser(h: string) returns (ok: bool, ghost es: seq<Event>)
      requires Valid() && !loadFailed
      modifies this`queued, auth, outbox
      ensures Valid() && Runs(old(Abs()), es, Abs()) && Collects(es)
      ensures ok && h in auth.users ==> auth.users[h] == Counter(0, 0)
      ensures Quiet(es) ==>
                auth.users.Keys == old(auth.users.Keys) && forall g :: g in auth.users && g != h ==> auth.users[g] == old(auth.users)[g]
      ensures !ok ==> EndsRefused(es, Abs(), outbox.reliable)
    {
      ghost var s := Abs();
      es := Meanwhile();
      ok := true;
      QuietOutside(es);
      if h in auth.users && auth.users[h] != Counter(0, 0) {
        ghost var m, arrived := Abs(), es;
        ghost var fault;
        ok, fault := CheckpointUser(h);
        RunsExtend(s, es, m, Checkpoint(0, h, fault));
        es := es + [Checkpoint(0, h, fault)];
        QuietParts(arrived, [Checkpoint(0, h, fault)]);
      }
    }

    method Collect() returns (ok: bool, ghost es: seq<Event>)
      requires Valid() && !loadFailed
      modifies this`queued, auth, outbox
      ensures Valid()
      ensures Runs(old(Abs()), es, Abs()) && Collects(es)
      ensures ok && Quiet(es) ==>
                auth.users.Keys == old(auth.users.Keys) && forall h :: h in auth.users ==> auth.users[h] == Counter(0, 0)
      ensures !ok ==> EndsRefused(es, Abs(), outbox.reliable)
    {
      var rest := auth.users.Keys;
      ghost var s := Abs();
      es := [];
      while rest != {}
        invariant Valid() && !loadFailed
        invariant Runs(s, es, Abs()) && Collects(es)
        invariant Quiet(es) ==>
                    auth.users.Keys == old(auth.users.Keys) && forall h :: h in auth.users && h !in rest ==> auth.users[h] == Counter(0, 0)
        decreases rest
      {
        var h :| h in rest;
        ghost var m := Abs();
        ghost var more;
        ok, more := CollectUser(h);
        RunsConcat(s, es, m, more, Abs());
        QuietParts(es, more);
        es := es + more;
        if !ok {
          return;
        }
        rest := rest - {h};
      }
      ok := true;
    }

    /** The queue becomes the pending batch under a new key, or nothing changes in memory. */
    method FreezeBatch(id: string) returns (ok: bool, ghost fault: Fault)
      requires Valid() && !loadFailed && pending.None? && queued != map[] && id != ""
      modifies this`pending, this`queued, outbox
      ensures Valid() && Abs() == Next(old(Abs()), Freeze(id, fault))
      ensures ok ==> pending == Some(Frozen(id, old(queued))) && queued == map[]
      ensures !ok ==> pending.None? && Refused(Abs(), Freeze(id, fault)) && (outbox.reliable ==> fault == NoFault)
    {
      var oldQueued := queued;
      pending := Some(Frozen(id, oldQueued));
      queued := map[];
      ok, fault := Persist();
      if !ok {
        pending := None;
        queued := oldQueued;
      }
    }

    /** The accepted batch is forgotten, durably first. */
    method AcknowledgeBatch() returns (ok: bool, ghost fault: Fault)
      requires Valid() && !loadFailed && pending.Some?
      modifies this`pending, outbox
      ensures Valid() && Abs() == Next(old(Abs()), Acknowledge(fault))
      ensures pending == if ok then None else old(pending)
      ensures !ok ==> Refused(Abs(), Acknowledge(fault)) && (outbox.reliable ==> fault == NoFault)
    {
      var accepted := pending;
      pending := None;
      ok, fault := Persist();
      if !ok {
        pending := accepted;
      }
    }

    /** Freezes the queue if no batch is pending. */
    method FreezeIfIdle(syncId: Option<string>, ghost answered: bool) returns (ok: bool, ghost es: seq<Event>)
      requires Valid() && !loadFailed && (syncId.Some? ==> |syncId.value| == 32)
      modifies this`pending, this`queued, outbox
      ensures Valid() && Runs(old(Abs()), es, Abs()) && 0 <= Progress(es, syncId, answered) <= 1 && Quiet(es)
      ensures old(pending).Some? ==> ok && pending == old(pending) && queued == old(queued)
      ensures ok && old(pending).None? ==> queued == map[]
      ensures ok && old(pending).None? && old(queued) == map[] ==> pending.None?
      ensures ok && old(pending).None? && old(queued) != map[] ==> syncId.Some? && pending == Some(Frozen(syncId.value, old(queued)))
      ensures !ok ==> syncId.None? || EndsRefused(es, Abs(), outbox.reliable)
    {
      ghost var s := Abs();
      es, ok := [], true;
      if pending.None? && queued != map[] {
        if syncId.None? {
          return false, es;
        }
        ghost var fault;
        ok, fault := FreezeBatch(syncId.value);
        es := [] + [Freeze(syncId.value, fault)];
        assert Runs(s, es, Abs()) by {
          RunsExtend(s, [], s, Freeze(syncId.value, fault));
        }
        assert Progress(es, syncId, answered) == 1 by {
          ProgressStep([], Freeze(syncId.value, fault), syncId, answered);
        }
      }
    }

    /** Freeze if nothing is pending, send what is pending, and acknowledge an answer; others are at work meanwhile. */
    method Report(syncId: Option<string>, answered: bool) returns (ok: bool, sent: Option<Frozen>, ghost es: seq<Event>)
      requires Valid() && !loadFailed && (syncId.Some? ==> |syncId.value| == 32)
      modifies this`pending, this`queued, auth, outbox
      ensures Valid()
      ensures Runs(old(Abs()), es, Abs()) && Exchange(es, syncId, answered)
      ensures Quiet(es) ==> auth.users == old(auth.users)
      ensures ok ==> pending.None? && (sent.Some? ==> Send in es && EndsAcknowledged(es))
      ensures ok && old(pending).Some? ==> sent == old(pending) && queued == old(queued)
      ensures ok && old(pending).None? ==> queued == map[] && Traffics(sent) == old(queued)
      ensures !ok && old(pending).Some? ==> pending == old(pending)
      ensures !ok ==> syncId.None? || (!answered && pending.Some? && es != [] && es[|es| - 1] == Send) || EndsRefused(es, Abs(), outbox.reliable)
    {
      ghost var s := Abs();
      sent := None;
      ok, es := FreezeIfIdle(syncId, answered);
      if !ok || pending.None? {
        return;
      }
      sent := pending;
      SendRuns(s, es, Abs(), syncId, answered);
      es := es + [Send];
      if !answered {
        return false, sent, es;
      }
      ghost var m := Abs();
      ghost var more;
      ok, more := AwaitAnswer(es, syncId);
      RunsConcat(s, es, m, more, Abs());
      QuietParts(es, more);
      es := es + more;
    }

    /** Others are at work until the answer arrives; then the batch is acknowledged. */
    method AwaitAnswer(ghost before: seq<Event>, ghost syncId: Option<string>) returns (ok: bool, ghost es: seq<Event>)
      requires Valid() && !loadFailed && pending.Some? && Progress(before, syncId, true) == 2
      modifies this`pending, auth, outbox
      ensures Valid() && Runs(old(Abs()), es, Abs()) && Exchange(before + es, syncId, true)
      ensures Quiet(es) ==> auth.users == old(auth.users)
      ensures pending == (if ok then None else old(pending)) && EndsAcknowledged(es)
      ensures !ok ==> EndsRefused(es, Abs(), outbox.reliable) && EndsRefused(before + es, Abs(), outbox.reliable)
    {
      ghost var s := Abs();
      ghost var arrived := Meanwhile();
      ProgressOutside(before, arrived, syncId, true);
      ghost var m := Abs();
      ghost var fault;
      ok, fault := AcknowledgeBatch();
      RunsExtend(s, arrived, m, Acknowledge(fault));
      ProgressStep(before + arrived, Acknowledge(fault), syncId, true);
      es := arrived + [Acknowledge(fault)];
      assert before + es == before + arrived + [Acknowledge(fault)];
      QuietParts(arrived, [Acknowledge(fault)]);
      if Quiet(es) {
        QuietOutside(arrived);
      }
    }

    /**
     One reporting round. The key comes from the random source, and the answer
     says whether the endpoint replied with success; both are the environment's.
     */
    method Flush(syncId: Option<string>, answered: bool)
      returns (ok: bool, sent: Option<Frozen>, ghost collected: seq<Event>, ghost exchange: seq<Event>)
      requires Valid() && (syncId.Some? ==> |syncId.value| == 32)
      modifies this`pending, this`queued, auth, outbox
      ensures Valid()
      ensures Runs(old(Abs()), collected + exchange, Abs()) && Collects(collected) && Exchange(exchange, syncId, answered)
      ensures ok ==> !loadFailed && pending.None?
      ensures ok && Quiet(collected) && Quiet(exchange) ==> forall h :: h in auth.users ==> auth.users[h] == Counter(0, 0)
      ensures ok && old(pending).None? ==> queued == map[]
      ensures ok && old(pending).Some? ==> sent == old(pending)
      ensures ok && (old(pending).Some? || old(queued) != map[]) ==> sent.Some?
      ensures ok && sent.Some? ==> Send in exchange && EndsAcknowledged(exchange)
      ensures ok && Quiet(collected) ==> Carries(if old(pending).None? then Traffics(sent) else queued, old(Abs()))
      ensures !ok && old(pending).Some? ==> pending == old(pending)
      ensures !ok ==> loadFailed || syncId.None? || (!answered && pending.Some?)
                      || EndsRefused(collected, Abs(), outbox.reliable) || EndsRefused(exchange, Abs(), outbox.reliable)
    {
      if loadFailed {
        return false, None, [], [];
      }
      ok, collected := Collect();
      if !ok {
        assert collected + [] == collected;
        return false, None, collected, [];
      }
      ghost var m := Abs();
      CollectionKeeps(old(Abs()), collected, m, "", Up);
      if Quiet(collected) {
        EverythingQueued(old(Abs()), collected, m);
      }
      ok, sent, exchange := Report(syncId, answered);
      RunsConcat(old(Abs()), collected, m, exchange, Abs());
    }
  }
}
