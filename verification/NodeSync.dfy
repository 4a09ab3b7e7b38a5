/**
 The worker node's sync manager: the same sending protocol as the data-plane
 reporter over several authenticators, followed by taking over the user list
 the master answered with.
 */
module NodeSync {
  import opened Basics
  import opened TrafficValues
  import opened SenderProtocol
  import opened SenderEffects
  import opened TrafficOutbox
  import opened MemoryAuthenticator
  import opened DataPlaneReporter

  // ----- Checking the answer -----

  predicate IsHexDigit(c: char) {
    '0' <= c <= '9' || 'a' <= c <= 'f' || 'A' <= c <= 'F'
  }

  predicate IsUserHash(h: string) {
    |h| == 56 && forall k :: 0 <= k < |h| ==> IsHexDigit(h[k])
  }

  predicate ValidAnswer(hashes: seq<string>) {
    && (forall k :: 0 <= k < |hashes| ==> IsUserHash(hashes[k]))
    && (forall j, k :: 0 <= j < k < |hashes| ==> hashes[j] != hashes[k])
  }

  /** What is accepted as a list are distinct strings of 56 hexadecimal digits of either case. */
  lemma AcceptedIsHex(hashes: seq<string>, j: nat, k: nat)
    requires ValidAnswer(hashes) && j < k < |hashes|
    ensures hashes[j] != hashes[k] && |hashes[j]| == |hashes[k]| == 56
    ensures forall c <- hashes[k] :: '0' <= c <= '9' || 'a' <= c <= 'f' || 'A' <= c <= 'F'
  {
    assert IsUserHash(hashes[j]) && IsUserHash(hashes[k]);
  }

  method ValidateUserHashes(hashes: seq<string>) returns (ok: bool)
    ensures ok == ValidAnswer(hashes)
  {
    var seen: set<string> := {};
    for i := 0 to |hashes|
      invariant forall h :: h in seen <==> h in hashes[..i]
      invariant forall k :: 0 <= k < i ==> IsUserHash(hashes[k])
      invariant forall j, k :: 0 <= j < k < i ==> hashes[j] != hashes[k]
    {
      if !IsUserHash(hashes[i]) {
        return false;
      }
      if hashes[i] in seen {
        var j :| 0 <= j < i && hashes[j] == hashes[i];
        return false;
      }
      seen := seen + {hashes[i]};
    }
    return true;
  }

  // ----- Retry delay -----

  const MAX_BACKOFF: nat := 600_000_000_000

  function Doubled(x: nat, n: nat): nat {
    if n == 0 then x else 2 * Doubled(x, n - 1)
  }

  lemma {:induction false} DoubledGrows(x: nat, m: nat, n: nat)
    requires m <= n
    ensures Doubled(x, m) <= Doubled(x, n)
    decreases n - m
  {
    if m < n {
      DoubledGrows(x, m, n - 1);
    }
  }

  /** Exponential in the number of failures, capped at ten minutes, plus at most a fifth. */
  method BoundedSyncBackoff(interval: nat, failures: int, jitter: nat) returns (delay: nat)
    requires 0 < interval
    requires jitter <= (if failures <= 0 then 0
                        else if Doubled(interval, failures - 1) > MAX_BACKOFF then MAX_BACKOFF
                        else Doubled(interval, failures - 1)) / 5
    ensures failures <= 0 ==> delay == 0
    ensures failures > 0 ==>
              var base := if Doubled(interval, failures - 1) > MAX_BACKOFF then MAX_BACKOFF else Doubled(interval, failures - 1);
              base <= delay <= base + base / 5
  {
    if failures <= 0 {
      return 0;
    }
    var backoff := interval;
    var i := 1;
    while i < failures && backoff < MAX_BACKOFF
      invariant 1 <= i <= failures && backoff == Doubled(interval, i - 1)
    {
      backoff := backoff * 2;
      i := i + 1;
    }
    DoubledGrows(interval, i - 1, failures - 1);
    if backoff > MAX_BACKOFF {
      backoff := MAX_BACKOFF;
    }
    return backoff + jitter;
  }

  // ----- Taking over the user list -----

  /** Exactly the master's users; those already known keep their counters. */
  function Reconciled(users: map<string, Counter>, master: set<string>): map<string, Counter> {
    map h | h in master :: if h in users then users[h] else Counter(0, 0)
  }

  /** The first n authenticators have the master's users. */
  function PartlyReconciled(counters: seq<map<string, Counter>>, master: set<string>, n: nat): seq<map<string, Counter>> {
    seq(|counters|, k requires 0 <= k < |counters| => if k < n then Reconciled(counters[k], master) else counters[k])
  }

  lemma OneReconciled(counters: seq<map<string, Counter>>, master: set<string>, n: nat)
    requires n < |counters|
    ensures var now := PartlyReconciled(counters, master, n);
            now[n := Reconciled(now[n], master)] == PartlyReconciled(counters, master, n + 1)
  {
  }

  predicate AllUserEvents(es: seq<Event>) {
    forall k :: 0 <= k < |es| ==> es[k].AddUser? || es[k].DelUser?
  }

  /** Only listed users come, and only unlisted ones go. */
  predicate Listed(es: seq<Event>, master: set<string>) {
    forall k :: 0 <= k < |es| ==> (es[k].AddUser? && es[k].hash in master) || (es[k].DelUser? && es[k].hash !in master)
  }

  lemma ListedParts(xs: seq<Event>, ys: seq<Event>, master: set<string>)
    requires Listed(xs, master) && Listed(ys, master)
    ensures Listed(xs + ys, master)
  {
  }

  function Cleared(counters: seq<map<string, Counter>>, k: nat, h: string): seq<map<string, Counter>> {
    if k < |counters| then counters[k := counters[k][h := Counter(0, 0)]] else counters
  }

  /** Authenticator k is empty but for `rest`, and the others are as they were. */
  predicate Drained(counters: seq<map<string, Counter>>, start: seq<map<string, Counter>>, k: nat, rest: set<string>) {
    && k < |counters| == |start| && rest <= counters[k].Keys && (forall h :: h in counters[k] && h !in rest ==> counters[k][h] == Counter(0, 0))
    && forall j :: 0 <= j < |start| && j != k ==> counters[j] == start[j]
  }

  lemma DrainedMore(counters: seq<map<string, Counter>>, start: seq<map<string, Counter>>, k: nat, rest: set<string>, h: string)
    requires Drained(counters, start, k, rest)
    ensures Drained(Cleared(counters, k, h), start, k, rest - {h})
  {
  }

  /** The first n authenticators are empty. */
  predicate AllEmptied(counters: seq<map<string, Counter>>, n: nat) {
    n <= |counters| && forall k :: 0 <= k < n ==> Emptied(counters[k])
  }

  lemma OneEmptied(a: seq<map<string, Counter>>, b: seq<map<string, Counter>>, k: nat)
    ensures AllEmptied(a, k) && Drained(b, a, k, {}) ==> AllEmptied(b, k + 1)
  {
  }

  class Manager {
    const auths: seq<Authenticator>
    const outbox: OutboxFile
    var pendingTraffic: Batch
    var pendingSyncId: string
    var queuedTraffic: Batch
    var loadFailed: bool

    ghost predicate Valid()
      reads this, outbox
    {
      && outbox.Valid()
      && (pendingTraffic == map[] <==> pendingSyncId == "")
      && (forall j, k :: 0 <= j < k < |auths| ==> auths[j] != auths[k])
    }

    function Pending(): Option<Frozen>
      reads this
    {
      if pendingTraffic != map[] then Some(Frozen(pendingSyncId, pendingTraffic)) else None
    }

    ghost function Counters(): (r: seq<map<string, Counter>>)
      reads auths
    {
      seq(|auths|, k requires 0 <= k < |auths| reads auths => auths[k].users)
    }

    /** The sender this object is, in protocol terms. */
    ghost function Abs(): Sender
      reads this, auths, outbox
    {
      Sender(Counters(), if loadFailed then Unavailable else Loaded(Durable(Pending(), queuedTraffic)), outbox.Contents())
    }

    constructor (auths: seq<Authenticator>, outbox: OutboxFile, readable: bool)
      requires outbox.Valid()
      requires forall j, k :: 0 <= j < k < |auths| ==> auths[j] != auths[k]
      ensures Valid() && this.auths == auths && this.outbox == outbox
      ensures Abs() == Sender(Counters(), if loadFailed then Unavailable else Loaded(outbox.Contents()), outbox.Contents())
      ensures readable ==> !loadFailed
    {
      this.auths := auths;
      this.outbox := outbox;
      pendingTraffic, pendingSyncId, queuedTraffic := map[], "", map[];
      loadFailed := false;
      new;
      var state := outbox.Load(readable);
      if state.None? {
        loadFailed := true;
      } else {
        pendingSyncId := state.value.pendingSyncId;
        pendingTraffic := state.value.pending;
        queuedTraffic := state.value.queued;
      }
    }

    method Persist() returns (ok: bool, ghost fault: Fault)
      requires Valid()
      modifies outbox
      ensures Valid()
      ensures (outbox.Contents(), ok) == SenderProtocol.Persist(old(outbox.Contents()), Durable(Pending(), queuedTraffic), fault)
      ensures outbox.reliable ==> fault == NoFault
    {
      var environment: Fault := *;
      if outbox.reliable {
        environment := NoFault;
      }
      var state := State(0, pendingSyncId, pendingTraffic, queuedTraffic);
      RecordRoundTrip(Durable(Pending(), queuedTraffic));
      var saved, used := outbox.Save(state, environment);
      return saved, used;
    }

    /** Queues one reading durably, or leaves the queue as it was. */
    method Stage(h: string, c: Counter) returns (ok: bool, ghost fault: Fault)
      requires Valid() && !loadFailed && !Overflows(Durable(Pending(), queuedTraffic), h, c)
      modifies this`queuedTraffic, outbox
      ensures Valid()
      ensures ok == SenderProtocol.Persist(old(Abs()).disk, WithCounter(old(Abs()).memory.state, h, c), fault).1
      ensures outbox.reliable ==> fault == NoFault
      ensures Abs() == Save(old(Abs()), WithCounter(old(Abs()).memory.state, h, c), fault)
    {
      var existed := h in queuedTraffic;
      var queued := if existed then queuedTraffic[h] else Traffic(0, 0);
      ghost var counters := Counters();
      ghost var next := WithCounter(Durable(Pending(), queuedTraffic), h, c);
      Reverted(queuedTraffic, h, Traffic(queued.up + c.recv, queued.down + c.sent));
      queuedTraffic := queuedTraffic[h := Traffic(queued.up + c.recv, queued.down + c.sent)];
      assert Durable(Pending(), queuedTraffic) == next;
      ok, fault := Persist();
      if !ok {
        if existed {
          queuedTraffic := queuedTraffic[h := queued];
        } else {
          queuedTraffic := queuedTraffic - {h};
        }
      }
      assert Counters() == counters;
    }

    /** Queued and durable first, cleared after. */
    method CheckpointUser(k: nat, h: string) returns (ok: bool, ghost fault: Fault)
      requires Valid() && !loadFailed && k < |auths| && h in auths[k].users && auths[k].users[h] != Counter(0, 0)
      modifies this`queuedTraffic, auths[k], outbox
      ensures Valid() && Abs() == Next(old(Abs()), Checkpoint(k, h, fault))
      ensures auths[k].users == if ok then old(auths[k].users)[h := Counter(0, 0)] else old(auths[k].users)
      ensures !ok ==> Refused(Abs(), Checkpoint(k, h, fault)) && (outbox.reliable ==> fault == NoFault)
    {
      var c := auths[k].users[h];
      if Overflows(Durable(Pending(), queuedTraffic), h, c) {
        return false, NoFault;
      }
      ok, fault := Stage(h, c);
      if ok {
        ghost var m := Abs();
        auths[k].ClearTraffic(h);
        assert Abs() == SetCounter(m, k, h, Counter(0, 0));
      }
    }

    /** One connection's bytes on one authenticator. */
    method AddTraffic(k: nat, h: string, sent: nat, recv: nat)
      requires Valid() && k < |auths| && h in auths[k].users
      requires auths[k].users[h].sent + sent <= UINT64_MAX && auths[k].users[h].recv + recv <= UINT64_MAX
      modifies auths[k]
      ensures Valid() && Enabled(old(Abs()), SenderProtocol.Event.AddTraffic(k, h, sent, recv))
      ensures Abs() == Next(old(Abs()), SenderProtocol.Event.AddTraffic(k, h, sent, recv))
    {
      ghost var m := Abs();
      auths[k].AddTraffic(h, sent, recv);
      assert Counters() == m.counters[k := m.counters[k][h := Counter(m.counters[k][h].sent + sent, m.counters[k][h].recv + recv)]];
    }

    /** One thing that others may do: traffic arrives, a user comes, or a user goes. */
    method Elsewhere(e: Event) returns (done: bool)
      requires Valid()
      modifies auths
      ensures Valid()
      ensures done ==> IsOutside(e) && Enabled(old(Abs()), e) && Abs() == Next(old(Abs()), e)
      ensures !done ==> Counters() == old(Counters())
    {
      done := false;
      ghost var m := Abs();
      match e {
        case AddTraffic(k, h, sent, recv) =>
          if k < |auths| && h in auths[k].users && auths[k].users[h].sent + sent <= UINT64_MAX && auths[k].users[h].recv + recv <= UINT64_MAX {
            AddTraffic(k, h, sent, recv);
            done := true;
          }
        case AddUser(k, h) =>
          if k < |auths| {
            done := auths[k].AddUser(h);
            assert Counters() == if done then m.counters[k := m.counters[k][h := Counter(0, 0)]] else m.counters;
          }
        case DelUser(k, h) =>
          if k < |auths| {
            done := auths[k].DelUser(h);
            assert !done ==> auths[k].users == m.counters[k];
            assert Counters() == if done then m.counters[k := m.counters[k] - {h}] else m.counters;
          }
        case _ =>
      }
    }

    /** What others do while the manager is at work. */
    method Meanwhile() returns (ghost es: seq<Event>)
      requires Valid()
      modifies auths
      ensures Valid() && Runs(old(Abs()), es, Abs()) && OnlyOutside(es)
      ensures es == [] ==> Counters() == old(Counters())
    {
      es := [];
      ghost var s, start := Abs(), Counters();
      var n: nat :| 0 <= n;
      for i := 0 to n
        invariant Valid() && Runs(s, es, Abs()) && OnlyOutside(es)
        invariant es == [] ==> Counters() == start
      {
        var e: Event := *;
        ghost var m := Abs();
        var done := Elsewhere(e);
        if done {
          RunsExtend(s, es, m, e);
          es := es + [e];
        }
      }
    }

    /** Checkpoints one counter, unless it is empty. */
    method TakeTraffic(k: nat, h: string) returns (ok: bool, ghost es: seq<Event>)
      requires Valid() && !loadFailed && k < |auths| && h in auths[k].users
      modifies this`queuedTraffic, auths[k], outbox
      ensures Valid() && Runs(old(Abs()), es, Abs()) && Collects(es)
      ensures ok ==> Counters() == Cleared(old(Counters()), k, h)
      ensures !ok ==> EndsRefused(es, Abs(), outbox.reliable)
    {
      es, ok := [], true;
      ghost var m := Abs();
      if auths[k].users[h] != Counter(0, 0) {
        ghost var fault;
        ok, fault := CheckpointUser(k, h);
        RunsExtend(m, [], m, Checkpoint(k, h, fault));
        es := [] + [Checkpoint(k, h, fault)];
        assert Counters() == m.counters[k := auths[k].users];
      } else {
        assert Counters()[k] == Counters()[k][h := Counter(0, 0)];
      }
    }

    /** One user: others may be at work first, then what its counter holds is checkpointed. */
    method CollectUser(k: nat, h: string) returns (ok: bool, ghost es: seq<Event>)
      requires Valid() && !loadFailed && k < |auths|
      modifies this`queuedTraffic, auths, outbox
      ensures Valid() && Runs(old(Abs()), es, Abs()) && Collects(es)
      ensures ok && Quiet(es) && h in old(Counters())[k] ==> Counters() == Cleared(old(Counters()), k, h)
      ensures !ok ==> EndsRefused(es, Abs(), outbox.reliable)
    {
      ghost var s := Abs();
      ghost var arrived := Meanwhile();
      es, ok := arrived, true;
      QuietOutside(arrived);
      if h in auths[k].users {
        ghost var m := Abs();
        ghost var more;
        ok, more := TakeTraffic(k, h);
        RunsConcat(s, arrived, m, more, Abs());
        es := arrived + more;
        QuietParts(arrived, more);
      }
    }

    /** Drains one authenticator into the queue, user by user. */
    method CollectFrom(k: nat) returns (ok: bool, ghost es: seq<Event>)
      requires Valid() && !loadFailed && k < |auths|
      modifies this`queuedTraffic, auths, outbox
      ensures Valid()
      ensures Runs(old(Abs()), es, Abs()) && Collects(es)
      ensures ok && Quiet(es) ==> Drained(Counters(), old(Counters()), k, {})
      ensures !ok ==> EndsRefused(es, Abs(), outbox.reliable)
    {
      var rest := auths[k].users.Keys;
      es := [];
      ghost var s, start := Abs(), Counters();
      while rest != {}
        invariant Valid() && !loadFailed
        invariant Runs(s, es, Abs()) && Collects(es)
        invariant Quiet(es) ==> Drained(Counters(), start, k, rest)
        decreases rest
      {
        var h :| h in rest;
        ghost var m := Abs();
        ghost var more;
        ok, more := CollectUser(k, h);
        RunsConcat(s, es, m, more, Abs());
        QuietParts(es, more);
        es := es + more;
        if !ok {
          return;
        }
        assert Quiet(es) ==> Drained(Counters(), start, k, rest - {h}) by {
          if Quiet(es) {
            DrainedMore(m.counters, start, k, rest, h);
          }
        }
        rest := rest - {h};
      }
      ok := true;
    }

    /** Drains one more authenticator. */
    method CollectNext(k: nat) returns (ok: bool, ghost es: seq<Event>)
      requires Valid() && !loadFailed && k < |auths|
      modifies this`queuedTraffic, auths, outbox
      ensures Valid() && Runs(old(Abs()), es, Abs()) && Collects(es)
      ensures ok && Quiet(es) && AllEmptied(old(Counters()), k) ==> AllEmptied(Counters(), k + 1)
      ensures !ok ==> EndsRefused(es, Abs(), outbox.reliable)
    {
      ok, es := CollectFrom(k);
      OneEmptied(old(Counters()), Counters(), k);
    }

    method Collect() returns (ok: bool, ghost es: seq<Event>)
      requires Valid() && !loadFailed
      modifies this`queuedTraffic, auths, outbox
      ensures Valid()
      ensures Runs(old(Abs()), es, Abs()) && Collects(es)
      ensures ok && Quiet(es) ==> AllEmptied(Counters(), |auths|)
      ensures !ok ==> EndsRefused(es, Abs(), outbox.reliable)
    {
      es := [];
      ghost var s := Abs();
      for i := 0 to |auths|
        invariant Valid() && !loadFailed
        invariant Runs(s, es, Abs()) && Collects(es)
        invariant Quiet(es) ==> AllEmptied(Counters(), i)
      {
        ghost var m := Abs();
        ghost var more;
        ok, more := CollectNext(i);
        RunsConcat(s, es, m, more, Abs());
        QuietParts(es, more);
        es := es + more;
        if !ok {
          return;
        }
      }
      ok := true;
    }

    method FreezeBatch(id: string) returns (ok: bool, ghost fault: Fault)
      requires Valid() && !loadFailed && pendingTraffic == map[] && queuedTraffic != map[] && id != ""
      modifies this`pendingTraffic, this`pendingSyncId, this`queuedTraffic, outbox
      ensures Valid() && Abs() == Next(old(Abs()), Freeze(id, fault))
      ensures ok ==> Pending() == Some(Frozen(id, old(queuedTraffic))) && queuedTraffic == map[]
      ensures !ok ==> Pending().None? && Refused(Abs(), Freeze(id, fault)) && (outbox.reliable ==> fault == NoFault)
    {
      var oldQueued := queuedTraffic;
      pendingTraffic := oldQueued;
      queuedTraffic := map[];
      pendingSyncId := id;
      ok, fault := Persist();
      if !ok {
        pendingTraffic := map[];
        queuedTraffic := oldQueued;
        pendingSyncId := "";
      }
      assert Counters() == old(Counters());
    }

    method AcknowledgeBatch() returns (ok: bool, ghost fault: Fault)
      requires Valid() && !loadFailed && pendingTraffic != map[]
      modifies this`pendingTraffic, this`pendingSyncId, outbox
      ensures Valid() && Abs() == Next(old(Abs()), Acknowledge(fault))
      ensures Pending() == if ok then None else old(Pending())
      ensures !ok ==> Refused(Abs(), Acknowledge(fault)) && (outbox.reliable ==> fault == NoFault)
    {
      var oldPending := pendingTraffic;
      var oldSyncId := pendingSyncId;
      pendingTraffic := map[];
      pendingSyncId := "";
      ok, fault := Persist();
      if !ok {
        pendingTraffic := oldPending;
        pendingSyncId := oldSyncId;
      }
      assert Counters() == old(Counters());
    }

    /** Removes the users the master no longer lists from one authenticator. */
    method RemoveStale(k: nat, master: set<string>) returns (ghost es: seq<Event>)
      requires Valid() && k < |auths|
      modifies auths[k]
      ensures Runs(old(Abs()), es, Abs()) && Listed(es, master)
      ensures auths[k].users == map h | h in old(auths[k].users) && h in master :: old(auths[k].users)[h]
    {
      es := [];
      var stale := auths[k].users.Keys - master;
      while stale != {}
        invariant stale <= auths[k].users.Keys && stale !! master
        invariant Runs(old(Abs()), es, Abs()) && Listed(es, master)
        invariant forall h :: h in auths[k].users <==> h in old(auths[k].users) && (h in master || h in stale)
        invariant forall h :: h in auths[k].users ==> auths[k].users[h] == old(auths[k].users)[h]
        decreases stale
      {
        var h :| h in stale;
        ghost var m := Abs();
        var _ := auths[k].DelUser(h);
        assert Counters() == m.counters[k := m.counters[k] - {h}];
        RunsExtend(old(Abs()), es, m, DelUser(k, h));
        es := es + [DelUser(k, h)];
        stale := stale - {h};
      }
    }

    /** Adds the users the master lists and one authenticator lacks. */
    method AddMissing(k: nat, master: set<string>) returns (ghost es: seq<Event>)
      requires Valid() && k < |auths|
      modifies auths[k]
      ensures Runs(old(Abs()), es, Abs()) && Listed(es, master)
      ensures forall h :: h in auths[k].users <==> h in old(auths[k].users) || h in master
      ensures forall h :: h in auths[k].users ==>
                auths[k].users[h] == if h in old(auths[k].users) then old(auths[k].users)[h] else Counter(0, 0)
    {
      es := [];
      var missing := master - auths[k].users.Keys;
      while missing != {}
        invariant missing !! auths[k].users.Keys
        invariant Runs(old(Abs()), es, Abs()) && Listed(es, master)
        invariant forall h :: h in auths[k].users || h in missing <==> h in old(auths[k].users) || h in master
        invariant forall h :: h in auths[k].users ==>
                    auths[k].users[h] == if h in old(auths[k].users) then old(auths[k].users)[h] else Counter(0, 0)
        invariant missing !! old(auths[k].users).Keys
        decreases missing
      {
        var h :| h in missing;
        ghost var m := Abs();
        var _ := auths[k].AddUser(h);
        assert Counters() == m.counters[k := m.counters[k][h := Counter(0, 0)]];
        RunsExtend(old(Abs()), es, m, AddUser(k, h));
        es := es + [AddUser(k, h)];
        missing := missing - {h};
      }
    }

    method ReconcileOne(k: nat, master: set<string>) returns (ghost es: seq<Event>)
      requires Valid() && k < |auths|
      modifies auths[k]
      ensures Runs(old(Abs()), es, Abs()) && Listed(es, master)
      ensures Counters() == old(Counters())[k := Reconciled(old(Counters())[k], master)]
    {
      ghost var m := Abs();
      ghost var removed := RemoveStale(k, master);
      ghost var n := Abs();
      ghost var added := AddMissing(k, master);
      RunsConcat(m, removed, n, added, Abs());
      ListedParts(removed, added, master);
      es := removed + added;
      assert auths[k].users == Reconciled(old(auths[k].users), master);
    }

    /** Every authenticator ends with exactly the listed users, and known ones keep their counters. */
    method Reconcile(master: set<string>) returns (ghost es: seq<Event>)
      requires Valid()
      modifies auths
      ensures Runs(old(Abs()), es, Abs()) && Listed(es, master)
      ensures forall k :: 0 <= k < |auths| ==> auths[k].users == Reconciled(old(auths[k].users), master)
    {
      es := [];
      ghost var s, start := Abs(), Counters();
      for i := 0 to |auths|
        invariant Valid()
        invariant Runs(s, es, Abs()) && Listed(es, master)
        invariant Counters() == PartlyReconciled(start, master, i)
      {
        ghost var m := Abs();
        ghost var step := ReconcileOne(i, master);
        assert Counters() == PartlyReconciled(start, master, i + 1) by {
          OneReconciled(start, master, i);
        }
        RunsConcat(s, es, m, step, Abs());
        ListedParts(es, step, master);
        es := es + step;
      }
      assert forall k :: 0 <= k < |auths| ==> Counters()[k] == auths[k].users;
    }

    /** Freezes the queue if no batch is pending. */
    method FreezeIfIdle(syncId: Option<string>, ghost answered: bool) returns (ok: bool, ghost es: seq<Event>)
      requires Valid() && !loadFailed && (syncId.Some? ==> |syncId.value| == 32)
      modifies this`pendingTraffic, this`pendingSyncId, this`queuedTraffic, outbox
      ensures Valid() && Runs(old(Abs()), es, Abs()) && 0 <= Progress(es, syncId, answered) <= 1
      ensures old(Pending()).Some? ==> ok && Pending() == old(Pending()) && queuedTraffic == old(queuedTraffic)
      ensures ok && old(Pending()).None? ==> queuedTraffic == map[]
      ensures ok && old(Pending()).None? && old(queuedTraffic) == map[] ==> Pending().None?
      ensures ok && old(Pending()).None? && old(queuedTraffic) != map[] ==>
                syncId.Some? && Pending() == Some(Frozen(syncId.value, old(queuedTraffic)))
      ensures !ok ==> syncId.None? || EndsRefused(es, Abs(), outbox.reliable)
    {
      ghost var s := Abs();
      es, ok := [], true;
      if pendingTraffic == map[] && queuedTraffic != map[] {
        if syncId.None? {
          return false, es;
        }
        ghost var fault;
        ok, fault := FreezeBatch(syncId.value);
        RunsExtend(s, [], s, Freeze(syncId.value, fault));
        ProgressStep([], Freeze(syncId.value, fault), syncId, answered);
        es := [] + [Freeze(syncId.value, fault)];
      }
    }

    /** Freeze if nothing is pending, send a copy of what is pending, acknowledge a valid answer. */
    method Exchanged(syncId: Option<string>, requestId: Option<string>, answer: Option<seq<string>>)
      returns (ok: bool, sent: Option<Frozen>, ghost es: seq<Event>)
      requires Valid() && !loadFailed && (syncId.Some? ==> |syncId.value| == 32)
      modifies this`pendingTraffic, this`pendingSyncId, this`queuedTraffic, auths, outbox
      ensures Valid()
      ensures Runs(old(Abs()), es, Abs()) && Exchange(es, syncId, answer.Some?)
      ensures ok ==> Pending().None? && answer.Some? && ValidAnswer(answer.value)
      ensures !ok && sent.Some? && sent.value.traffic != map[] ==> Pending() == sent
      ensures !ok && old(Pending()).Some? ==> Pending() == old(Pending())
      ensures ok ==> sent.Some? && (sent.value.traffic != map[] ==> Send in es && EndsAcknowledged(es))
      ensures ok && old(Pending()).Some? ==> sent == old(Pending()) && queuedTraffic == old(queuedTraffic)
      ensures ok && old(Pending()).None? ==> queuedTraffic == map[] && Traffics(sent) == old(queuedTraffic)
      ensures !ok ==> syncId.None? || requestId.None? || answer.None? || !ValidAnswer(answer.value) || EndsRefused(es, Abs(), outbox.reliable)
    {
      ghost var s := Abs();
      sent := None;
      ok, es := FreezeIfIdle(syncId, answer.Some?);
      if !ok {
        return;
      }
      var id := pendingSyncId;
      if id == "" {
        if requestId.None? {
          return false, None, es;
        }
        id := requestId.value;
      }
      var trafficMap := pendingTraffic;
      sent := Some(Frozen(id, trafficMap));
      if trafficMap != map[] {
        SendRuns(s, es, Abs(), syncId, answer.Some?);
        es := es + [Send];
      }
      if answer.None? {
        return false, sent, es;
      }
      var valid := ValidateUserHashes(answer.value);
      if !valid {
        return false, sent, es;
      }
      ok := true;
      if trafficMap != map[] {
        ghost var m := Abs();
        ghost var more;
        ok, more := AwaitAnswer(es, syncId);
        RunsConcat(s, es, m, more, Abs());
        es := es + more;
      }
    }

    /** Others are at work until the answer arrives; then the batch is acknowledged. */
    method AwaitAnswer(ghost before: seq<Event>, ghost syncId: Option<string>) returns (ok: bool, ghost es: seq<Event>)
      requires Valid() && !loadFailed && pendingTraffic != map[] && Progress(before, syncId, true) == 2
      modifies this`pendingTraffic, this`pendingSyncId, auths, outbox
      ensures Valid() && Runs(old(Abs()), es, Abs()) && Exchange(before + es, syncId, true)
      ensures Pending() == (if ok then None else old(Pending())) && EndsAcknowledged(es)
      ensures !ok ==> EndsRefused(before + es, Abs(), outbox.reliable)
    {
      ghost var s := Abs();
      ghost var arrived := Meanwhile();
      ProgressOutside(before, arrived, syncId, true);
      ghost var m := Abs();
      ghost var fault;
      ok, fault := AcknowledgeBatch();
      RunsExtend(s, arrived, m, Acknowledge(fault));
      ProgressStep(before + arrived, Acknowledge(fault), syncId, true);
      es := arrived + [Acknowledge(fault)];
      assert before + es == before + arrived + [Acknowledge(fault)];
    }

    /** Collect, then exchange with the master. */
    method Round(syncId: Option<string>, requestId: Option<string>, answer: Option<seq<string>>)
      returns (ok: bool, sent: Option<Frozen>, ghost collected: seq<Event>, ghost exchange: seq<Event>)
      requires Valid() && !loadFailed && (syncId.Some? ==> |syncId.value| == 32)
      modifies this`pendingTraffic, this`pendingSyncId, this`queuedTraffic, auths, outbox
      ensures Valid()
      ensures Runs(old(Abs()), collected + exchange, Abs()) && Collects(collected) && Exchange(exchange, syncId, answer.Some?)
      ensures ok ==> Pending().None? && answer.Some? && ValidAnswer(answer.value)
      ensures ok && old(Pending()).None? ==> queuedTraffic == map[]
      ensures ok ==> sent.Some? && (sent.value.traffic != map[] ==> Send in exchange && EndsAcknowledged(exchange))
      ensures ok && old(Pending()).Some? ==> sent == old(Pending())
      ensures ok && old(queuedTraffic) != map[] ==> sent.value.traffic != map[]
      ensures ok && Quiet(collected) ==> Carries(if old(Pending()).None? then Traffics(sent) else queuedTraffic, old(Abs()))
      ensures !ok && old(Pending()).Some? ==> Pending() == old(Pending())
      ensures !ok ==> syncId.None? || requestId.None? || answer.None? || !ValidAnswer(answer.value)
                      || EndsRefused(collected, Abs(), outbox.reliable) || EndsRefused(exchange, Abs(), outbox.reliable)
    {
      ok, collected := Collect();
      sent, exchange := None, [];
      assert collected + [] == collected;
      if ok {
        ghost var m := Abs();
        CollectionKeeps(old(Abs()), collected, m, "", Up);
        if Quiet(collected) {
          EverythingQueued(old(Abs()), collected, m);
        }
        ok, sent, exchange := Exchanged(syncId, requestId, answer);
        RunsConcat(old(Abs()), collected, m, exchange, Abs());
      }
    }

    /**
     One sync round, and on success the master's users are taken over. Fresh
     keys and the answer (None when the request fails, is refused or its reply
     does not decode) are the environment's.
     */
    method PerformSync(syncId: Option<string>, requestId: Option<string>, answer: Option<seq<string>>)
      returns (ok: bool, sent: Option<Frozen>, ghost collected: seq<Event>, ghost exchange: seq<Event>, ghost updates: seq<Event>)
      requires Valid() && (syncId.Some? ==> |syncId.value| == 32)
      modifies this`pendingTraffic, this`pendingSyncId, this`queuedTraffic, auths, outbox
      ensures Valid()
      ensures Runs(old(Abs()), collected + exchange + updates, Abs())
      ensures Collects(collected) && Exchange(exchange, syncId, answer.Some?) && AllUserEvents(updates)
      ensures ok ==>
                && !old(loadFailed) && Pending().None? && answer.Some? && ValidAnswer(answer.value)
                && Listed(updates, set h | h in answer.value)
                && forall k :: 0 <= k < |auths| ==> auths[k].users.Keys == set h | h in answer.value
      ensures ok && old(Pending()).None? ==> queuedTraffic == map[]
      ensures ok && old(Pending()).Some? ==> sent == old(Pending())
      ensures ok && (old(Pending()).Some? || old(queuedTraffic) != map[]) ==> Send in exchange && EndsAcknowledged(exchange)
      ensures ok && Traffics(sent) != map[] ==> Send in exchange && EndsAcknowledged(exchange)
      ensures ok && Quiet(collected) ==> Carries(if old(Pending()).None? then Traffics(sent) else queuedTraffic, old(Abs()))
      ensures !ok ==> updates == []
      ensures !ok && old(Pending()).Some? ==> Pending() == old(Pending())
      ensures !ok ==> loadFailed || |auths| == 0 || syncId.None? || requestId.None? || answer.None? || !ValidAnswer(answer.value)
                      || EndsRefused(collected, Abs(), outbox.reliable) || EndsRefused(exchange, Abs(), outbox.reliable)
    {
      if loadFailed || |auths| == 0 {
        return false, None, [], [], [];
      }
      ok, sent, collected, exchange := Round(syncId, requestId, answer);
      updates := [];
      if !ok {
        assert collected + exchange + updates == collected + exchange;
        return;
      }
      ghost var n := Abs();
      updates := Reconcile(set h | h in answer.value);
      RunsConcat(old(Abs()), collected + exchange, n, updates, Abs());
    }
  }
}
