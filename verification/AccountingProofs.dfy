/** Every step of the accounting system keeps its invariant, hence every run does. */
module AccountingProofs {
  import opened Basics
  import opened TrafficValues
  import opened SenderProtocol
  import opened MasterDatabase
  import opened Accounting

  // ----- One sender -----

  lemma CountersSet(s: Sender, k: nat, g: string, c: Counter, h: string, d: Direction)
    requires k < |s.counters|
    ensures InCounters(SetCounter(s, k, g, c), h, d) == InCounters(s, h, d) +
            (if h == g then CounterAt(map[g := c], g, d) - CounterAt(s.counters[k], g, d) else 0)
  {
    SumUpdate(Readings(s.counters, h, d), Readings(SetCounter(s, k, g, c).counters, h, d), k);
  }

  lemma CountersRemove(s: Sender, k: nat, g: string, h: string, d: Direction)
    requires Enabled(s, DelUser(k, g))
    ensures InCounters(Next(s, DelUser(k, g)), h, d) ==
            InCounters(s, h, d) - if h == g then CounterAt(s.counters[k], g, d) else 0
  {
    SumUpdate(Readings(s.counters, h, d), Readings(Next(s, DelUser(k, g)).counters, h, d), k);
  }

  lemma CountersAttach(s: Sender, h: string, d: Direction)
    requires Enabled(s, Attach)
    ensures InCounters(Next(s, Attach), h, d) == InCounters(s, h, d)
  {
    SumAppend(Readings(s.counters, h, d), 0);
    assert Readings(Next(s, Attach).counters, h, d) == Readings(s.counters, h, d) + [0];
  }

  lemma WithCounterHeld(s: Sender, booked: set<string>, k: nat, g: string, h: string, d: Direction)
    requires HasUser(s, k, g) && s.memory.Loaded?
    ensures Held(WithCounter(s.memory.state, g, s.counters[k][g]), booked, h, d) ==
            Held(s.memory.state, booked, h, d) + if h == g then CounterAt(s.counters[k], g, d) else 0
  {
  }

  lemma CheckpointBalanced(s: Sender, a: Account, booked: set<string>, k: nat, g: string, fault: Fault, h: string, d: Direction)
    requires Enabled(s, Checkpoint(k, g, fault)) && BalancedAt(s, a, booked, h, d)
    ensures BalancedAt(Next(s, Checkpoint(k, g, fault)), a, booked, h, d)
  {
    var next := WithCounter(s.memory.state, g, s.counters[k][g]);
    WithCounterHeld(s, booked, k, g, h, d);
    var saved := Save(s, next, fault);
    assert Readings(saved.counters, h, d) == Readings(s.counters, h, d);
    if !Overflows(s.memory.state, g, s.counters[k][g]) {
      if Persist(s.disk, next, fault).1 {
        CountersSet(saved, k, g, Counter(0, 0), h, d);
      } else {
        SumAtLeast(Readings(s.counters, h, d), k);
      }
    }
  }

  /** A save of the same bytes in another arrangement, however it ends. */
  lemma SaveBalanced(s: Sender, a: Account, booked: set<string>, next: Durable, fault: Fault, h: string, d: Direction)
    requires s.memory.Loaded? && BalancedAt(s, a, booked, h, d)
    requires Held(next, booked, h, d) == Held(s.memory.state, booked, h, d)
    ensures BalancedAt(Save(s, next, fault), a, booked, h, d)
  {
  }

  lemma UserBalanced(s: Sender, a: Account, booked: set<string>, e: Event, h: string, d: Direction)
    requires e.Attach? || e.AddUser? || e.DelUser? || e.AddTraffic?
    requires Enabled(s, e) && BalancedAt(s, a, booked, h, d)
    ensures BalancedAt(Next(s, e), Entries(a, s, booked, e), booked, h, d)
  {
    match e {
      case Attach => CountersAttach(s, h, d);
      case AddUser(k, g) => CountersSet(s, k, g, Counter(0, 0), h, d);
      case DelUser(k, g) => CountersRemove(s, k, g, h, d);
      case AddTraffic(k, g, sent, recv) =>
        CountersSet(s, k, g, Counter(s.counters[k][g].sent + sent, s.counters[k][g].recv + recv), h, d);
    }
  }

  lemma CrashBalanced(s: Sender, a: Account, booked: set<string>, h: string, d: Direction)
    requires Enabled(s, Crash) && BalancedAt(s, a, booked, h, d)
    ensures BalancedAt(Next(s, Crash), Entries(a, s, booked, Crash), booked, h, d)
  {
  }

  /** One event of one sender moves bytes between its places without making or losing any. */
  lemma LocalBalanced(s: Sender, a: Account, booked: set<string>, e: Event, h: string, d: Direction)
    requires Enabled(s, e) && BalancedAt(s, a, booked, h, d)
    requires e.Freeze? ==> e.id !in booked
    requires e.Acknowledge? ==> s.memory.state.pending.value.id in booked
    ensures BalancedAt(Next(s, e), Entries(a, s, booked, e), booked, h, d)
  {
    match e {
      case Checkpoint(k, g, fault) => CheckpointBalanced(s, a, booked, k, g, fault, h, d);
      case Freeze(id, fault) => SaveBalanced(s, a, booked, Durable(Some(Frozen(id, s.memory.state.queued)), map[]), fault, h, d);
      case Send =>
      case Acknowledge(fault) => SaveBalanced(s, a, booked, s.memory.state.(pending := None), fault, h, d);
      case Crash => CrashBalanced(s, a, booked, h, d);
      case Load(_) => assert Readings(Next(s, e).counters, h, d) == Readings(s.counters, h, d);
      case _ => UserBalanced(s, a, booked, e, h, d);
    }
  }

  // ----- Events of one sender, in the world -----

  /** What an event may do to the batches a sender holds. */
  lemma PendingAfter(s: Sender, e: Event)
    requires Enabled(s, e)
    ensures var t := Next(s, e);
            && (e.Freeze? ==>
                  && View(t).pending in {View(s).pending, Some(Frozen(e.id, s.memory.state.queued))}
                  && t.disk.pending in {s.disk.pending, Some(Frozen(e.id, s.memory.state.queued))})
            && (e.Acknowledge? ==> View(t).pending in {View(s).pending, None} && t.disk.pending in {s.disk.pending, None})
            && (e.Crash? ==> View(t).pending == s.disk.pending && t.disk == s.disk)
            && (!e.Freeze? && !e.Acknowledge? && !e.Crash? ==>
                  View(t).pending == View(s).pending && t.disk.pending in {s.disk.pending, View(s).pending})
  {
  }

  /** The step relation of a sender's event, spelled out. */
  ghost predicate LocalStep(w: World, v: World, i: nat, e: Event) {
    && Shape(w) && Shape(v)
    && Possible(w, Local(i, e))
    && v.senders == w.senders[i := Next(w.senders[i], e)]
    && v.accounts == w.accounts[i := Entries(w.accounts[i], w.senders[i], Booked(w), e)]
    && v.channels == w.channels && v.acks == w.acks && v.db == w.db && v.settledAt == w.settledAt && v.clock == w.clock
    && v.archived == w.archived && v.ignored == w.ignored
    && v.frozen == (if e.Freeze? then w.frozen[e.id := Request(i, e.id, w.senders[i].memory.state.queued)] else w.frozen)
    && v.net == (if e.Send? then w.net + {Sending(w, i)} else w.net)
  }

  function Sending(w: World, i: nat): Request
    requires Possible(w, Local(i, Send))
  {
    var p := w.senders[i].memory.state.pending.value;
    Request(i, p.id, p.traffic)
  }

  lemma LocalPendings(w: World, v: World, i: nat, e: Event)
    requires Pendings(w.frozen, w.senders) && LocalStep(w, v, i, e)
    ensures Pendings(v.frozen, v.senders)
  {
  }

  lemma LocalRegistry(w: World, v: World, i: nat, e: Event)
    requires Registry(w) && LocalStep(w, v, i, e)
    ensures Registry(v)
  {
    LocalPendings(w, v, i, e);
    assert IsRegistered(w.frozen, i, View(w.senders[i]).pending);
  }

  lemma LocalCarried(w: World, v: World, i: nat, e: Event)
    requires Registry(w) && Registry(v) && Carried(w) && LocalStep(w, v, i, e)
    requires Coherent(w, w.senders[i])
    ensures Carried(v)
  {
    PendingAfter(w.senders[i], e);
    forall r | r in v.net && r.id !in v.settledAt
      ensures View(v.senders[r.origin]).pending == Some(Frozen(r.id, r.traffic))
    {
      if r in w.net {
        assert View(w.senders[r.origin]).pending == Some(Frozen(r.id, r.traffic));
      }
    }
  }

  lemma LocalReceipted(w: World, v: World, i: nat, e: Event)
    requires LocalStep(w, v, i, e) && Registry(w) && Registry(v) && Receipted(w)
    ensures Receipted(v)
  {
    forall id | id in v.settledAt && v.clock <= v.settledAt[id] + RETENTION
      ensures RequestKey(v, v.frozen[id]) in v.db.receipts
    {
      assert v.frozen[id] == w.frozen[id];
      assert RequestKey(w, w.frozen[id]) in w.db.receipts;
    }
  }

  lemma FreezeCoherent(w: World, v: World, i: nat, e: Event)
    requires Registry(w) && LocalStep(w, v, i, e) && e.Freeze? && Coherent(w, w.senders[i])
    ensures Coherent(v, v.senders[i])
  {
    assert forall r :: r in w.net ==> r.id in w.frozen;
  }

  lemma SendCoherent(w: World, v: World, i: nat, e: Event)
    requires Registry(w) && LocalStep(w, v, i, e) && e.Send? && Coherent(w, w.senders[i])
    ensures Coherent(v, v.senders[i])
  {
    assert IsRegistered(w.frozen, i, w.senders[i].disk.pending);
  }

  lemma AcknowledgeCoherent(w: World, v: World, i: nat, e: Event)
    requires Registry(w) && LocalStep(w, v, i, e) && e.Acknowledge? && Coherent(w, w.senders[i])
    ensures Coherent(v, v.senders[i])
  {
    assert w.senders[i].memory.state.pending.value.id in w.settledAt;
  }

  lemma CheckpointCoherent(w: World, v: World, i: nat, e: Event)
    requires LocalStep(w, v, i, e) && e.Checkpoint? && Coherent(w, w.senders[i])
    ensures Coherent(v, v.senders[i])
  {
  }

  /** The sender that moved stays within reach of its outbox file. */
  lemma OwnCoherent(w: World, v: World, i: nat, e: Event)
    requires Registry(w) && LocalStep(w, v, i, e) && Coherent(w, w.senders[i])
    ensures Coherent(v, v.senders[i])
  {
    match e {
      case Freeze(_, _) => FreezeCoherent(w, v, i, e);
      case Send => SendCoherent(w, v, i, e);
      case Acknowledge(_) => AcknowledgeCoherent(w, v, i, e);
      case Checkpoint(_, _, _) => CheckpointCoherent(w, v, i, e);
      case _ => assert v.senders[i].disk == w.senders[i].disk;
    }
  }

  /** A sender that did not move is not disturbed by another's event. */
  lemma OtherCoherent(w: World, v: World, i: nat, e: Event, j: nat)
    requires Registry(w) && LocalStep(w, v, i, e) && j < |w.senders| && j != i && Coherent(w, w.senders[j])
    ensures Coherent(v, v.senders[j])
  {
  }

  lemma LocalMaster(w: World, v: World, i: nat, e: Event)
    requires MasterBalanced(w) && LocalStep(w, v, i, e)
    ensures MasterBalanced(v)
  {
    forall h, d
      ensures MasterBalancedAt(v, h, d)
    {
      assert MasterBalancedAt(w, h, d);
      assert SettledBy(v.accounts, h, d) == SettledBy(w.accounts, h, d);
    }
  }

  lemma LocalBalances(w: World, v: World, i: nat, e: Event)
    requires Registry(w) && LocalStep(w, v, i, e) && Balanced(w.senders[i], w.accounts[i], Booked(w))
    ensures Balanced(v.senders[i], v.accounts[i], Booked(v))
  {
    forall h, d
      ensures BalancedAt(v.senders[i], v.accounts[i], Booked(v), h, d)
    {
      assert BalancedAt(w.senders[i], w.accounts[i], Booked(w), h, d);
      LocalBalanced(w.senders[i], w.accounts[i], Booked(w), e, h, d);
    }
  }

  lemma LocalKeepsInv(w: World, v: World, i: nat, e: Event)
    requires Inv(w) && LocalStep(w, v, i, e)
    ensures Inv(v)
  {
    LocalRegistry(w, v, i, e);
    LocalCarried(w, v, i, e);
    LocalReceipted(w, v, i, e);
    LocalMaster(w, v, i, e);
    forall j | 0 <= j < |v.senders|
      ensures Coherent(v, v.senders[j]) && Balanced(v.senders[j], v.accounts[j], Booked(v))
    {
      assert Coherent(w, w.senders[j]) && Balanced(w.senders[j], w.accounts[j], Booked(w));
      if j == i {
        OwnCoherent(w, v, i, e);
        LocalBalances(w, v, i, e);
      } else {
        OtherCoherent(w, v, i, e, j);
      }
    }
  }

  // ----- Deliveries -----

  /** The receipt transaction raises every known user's row by its own bytes, or changes nothing. */
  lemma PostMeaning(db: Database, key: Key, batch: Batch, rate: Rate, now: nat, fault: bool)
    ensures var (next, status) := Post(db, key, batch, rate, now, fault);
            if key !in db.receipts && key in next.receipts then
              && status == Ok && next.receipts == db.receipts[key := now]
              && (forall h, d :: RowAt(next.rows, h, d) == RowAt(db.rows, h, d) +
                    if h in db.rows && h != "" then At(batch, h, d) else 0)
            else
              next == db && (status == Ok ==> key in db.receipts)
  {
  }

  /** A protocol request either books its whole batch with a receipt, or changes nothing. */
  lemma HandleMeaning(w: World, r: Request, rate: Rate, trouble: Trouble)
    requires r.origin < |w.channels| && |r.id| == 32 && r.traffic != map[]
    ensures var (db, status) := Handle(w, r, rate, trouble);
            if Books(w, r, rate, trouble) then
              && (status == Ok || trouble == InListing)
              && db.receipts == w.db.receipts[RequestKey(w, r) := w.clock]
              && (forall h, d :: RowAt(db.rows, h, d) == RowAt(w.db.rows, h, d) +
                    if h in w.db.rows && h != "" then At(r.traffic, h, d) else 0)
            else
              db == w.db && (status == Ok ==> RequestKey(w, r) in w.db.receipts)
  {
    var fault := trouble == InTransaction;
    match w.channels[r.origin] {
      case DataPlane => PostMeaning(w.db, RequestKey(w, r), r.traffic - {""}, UnitRate, w.clock, fault);
      case Node(_) => PostMeaning(w.db, RequestKey(w, r), r.traffic, rate, w.clock, fault);
    }
  }

  /** The step relation of a delivery, spelled out. */
  ghost predicate DeliverStep(w: World, v: World, r: Request, books: bool) {
    && Shape(w) && Shape(v)
    && r in w.net && r.origin < |w.senders|
    && (r.id in w.settledAt ==> w.clock <= w.settledAt[r.id] + RETENTION)
    && v.senders == w.senders && v.channels == w.channels && v.frozen == w.frozen && v.net == w.net && v.clock == w.clock
    && v.archived == w.archived
    && v.acks <= w.acks + {r.id}
    && (books ==>
          && RequestKey(w, r) !in w.db.receipts
          && v.db.receipts == w.db.receipts[RequestKey(w, r) := w.clock]
          && v.settledAt == w.settledAt[r.id := w.clock]
          && v.accounts == w.accounts[r.origin := w.accounts[r.origin].(settled := Credit(w.accounts[r.origin].settled, r.traffic))]
          && (forall h, d :: RowAt(v.db.rows, h, d) + v.ignored(h, d) == RowAt(w.db.rows, h, d) + w.ignored(h, d) + At(r.traffic, h, d)))
    && (!books ==>
          && v.db == w.db && v.settledAt == w.settledAt && v.accounts == w.accounts && v.ignored == w.ignored
          && (r.id in v.acks && r.id !in w.acks ==> RequestKey(w, r) in w.db.receipts))
  }

  lemma DeliverIsStep(w: World, r: Request, rate: Rate, trouble: Trouble)
    requires Inv(w) && Possible(w, Deliver(r, rate, trouble))
    ensures DeliverStep(w, AfterDeliver(w, r, rate, trouble), r, Books(w, r, rate, trouble))
  {
    assert w.frozen[r.id] == r;
    HandleMeaning(w, r, rate, trouble);
  }

  /**
   Within the retention period a key is booked at most once: a delivery that
   books finds it unbooked, and its sender still holding the batch, in memory
   and in its outbox file.
   */
  lemma BookedOnce(w: World, v: World, r: Request)
    requires Inv(w) && DeliverStep(w, v, r, true)
    ensures r.id !in w.settledAt
    ensures r.origin < |w.senders|
    ensures View(w.senders[r.origin]).pending == Some(Frozen(r.id, r.traffic)) == w.senders[r.origin].disk.pending
  {
    assert w.frozen[r.id] == r;
    assert Coherent(w, w.senders[r.origin]);
  }

  lemma DeliverBooks(w: World, v: World, r: Request)
    requires Inv(w) && DeliverStep(w, v, r, true)
    ensures Shape(v) && Registry(v) && Carried(v) && Receipted(v)
  {
    BookedOnce(w, v, r);
    assert w.frozen[r.id] == r;
    forall id | id in v.settledAt && v.clock <= v.settledAt[id] + RETENTION
      ensures RequestKey(v, v.frozen[id]) in v.db.receipts
    {
      if id != r.id {
        assert RequestKey(w, w.frozen[id]) in w.db.receipts;
      }
    }
  }

  /** Booking takes the batch out of what its sender holds, in memory and on disk alike. */
  lemma DeliverBalances(w: World, v: World, r: Request, j: nat)
    requires Inv(w) && DeliverStep(w, v, r, true) && j < |w.senders|
    ensures Balanced(v.senders[j], v.accounts[j], Booked(v))
  {
    BookedOnce(w, v, r);
    var s := w.senders[j];
    assert w.frozen[r.id] == r;
    assert IsRegistered(w.frozen, j, View(s).pending) && IsRegistered(w.frozen, j, s.disk.pending);
    assert Coherent(w, s) && Balanced(s, w.accounts[j], Booked(w));
    forall h, d
      ensures BalancedAt(s, v.accounts[j], Booked(v), h, d)
    {
      assert BalancedAt(s, w.accounts[j], Booked(w), h, d);
      var gone := if j == r.origin then At(r.traffic, h, d) else 0;
      assert Held(View(s), Booked(v), h, d) == Held(View(s), Booked(w), h, d) - gone;
      assert Held(s.disk, Booked(v), h, d) == Held(s.disk, Booked(w), h, d) - gone;
    }
  }

  lemma DeliverMaster(w: World, v: World, r: Request)
    requires MasterBalanced(w) && DeliverStep(w, v, r, true)
    ensures MasterBalanced(v)
  {
    forall h, d
      ensures MasterBalancedAt(v, h, d)
    {
      assert MasterBalancedAt(w, h, d);
      SumUpdate(SettledBy(w.accounts, h, d), SettledBy(v.accounts, h, d), r.origin);
    }
  }

  lemma DeliverKeepsInv(w: World, v: World, r: Request, books: bool)
    requires Inv(w) && DeliverStep(w, v, r, books)
    ensures Inv(v)
  {
    if books {
      DeliverBooks(w, v, r);
      DeliverMaster(w, v, r);
      forall j | 0 <= j < |v.senders|
        ensures Coherent(v, v.senders[j]) && Balanced(v.senders[j], v.accounts[j], Booked(v))
      {
        assert Coherent(w, w.senders[j]);
        DeliverBalances(w, v, r, j);
      }
    } else {
      assert MasterBalanced(v) by {
        forall h, d ensures MasterBalancedAt(v, h, d) { assert MasterBalancedAt(w, h, d); }
      }
      forall j | 0 <= j < |v.senders|
        ensures Coherent(v, v.senders[j]) && Balanced(v.senders[j], v.accounts[j], Booked(v))
      {
        assert Coherent(w, w.senders[j]) && Balanced(w.senders[j], w.accounts[j], Booked(w));
      }
    }
  }

  // ----- Steps of the master alone -----

  /** The step relation of the master's own housekeeping, spelled out. */
  ghost predicate QuietStep(w: World, v: World) {
    && v.senders == w.senders && v.channels == w.channels && v.accounts == w.accounts && v.frozen == w.frozen
    && v.net == w.net && v.acks == w.acks && v.settledAt == w.settledAt && v.ignored == w.ignored
    && w.clock <= v.clock
    && (forall k :: k in v.db.receipts ==> k in w.db.receipts && v.db.receipts[k] == w.db.receipts[k])
    && (forall k :: k in w.db.receipts && v.clock <= w.db.receipts[k] + RETENTION ==> k in v.db.receipts)
    && (forall h, d :: RowAt(v.db.rows, h, d) + v.archived(h, d) == RowAt(w.db.rows, h, d) + w.archived(h, d))
  }

  lemma QuietIsStep(w: World, e: Step)
    requires Possible(w, e) && !e.Local? && !e.Deliver?
    ensures QuietStep(w, After(w, e))
  {
  }

  lemma QuietReceipted(w: World, v: World)
    requires Shape(w) && Registry(w) && Receipted(w) && QuietStep(w, v)
    ensures Shape(v) && Registry(v) && Receipted(v)
  {
  }

  lemma QuietKeepsInv(w: World, v: World)
    requires Inv(w) && QuietStep(w, v)
    ensures Inv(v)
  {
    QuietReceipted(w, v);
    forall j | 0 <= j < |v.senders|
      ensures Coherent(v, v.senders[j]) && Balanced(v.senders[j], v.accounts[j], Booked(v))
    {
      assert Coherent(w, w.senders[j]) && Balanced(w.senders[j], w.accounts[j], Booked(w));
    }
    forall h, d
      ensures MasterBalancedAt(v, h, d)
    {
      assert MasterBalancedAt(w, h, d);
    }
  }

  lemma LocalIsStep(w: World, i: nat, e: Event)
    requires Shape(w) && Possible(w, Local(i, e))
    ensures LocalStep(w, AfterLocal(w, i, e), i, e)
  {
  }

  /** Every step of the system keeps the invariant. */
  lemma StepKeepsInv(w: World, e: Step)
    requires Inv(w) && Possible(w, e)
    ensures Inv(After(w, e))
  {
    var v := After(w, e);
    if e.Local? {
      LocalIsStep(w, e.i, e.event);
      LocalKeepsInv(w, v, e.i, e.event);
    } else if e.Deliver? {
      DeliverIsStep(w, e.request, e.rate, e.trouble);
      DeliverKeepsInv(w, v, e.request, Books(w, e.request, e.rate, e.trouble));
    } else {
      QuietIsStep(w, e);
      QuietKeepsInv(w, v);
    }
  }

  lemma InitialInv(w: World)
    requires Initial(w)
    ensures Inv(w)
  {
    forall i | 0 <= i < |w.senders|
      ensures Balanced(w.senders[i], w.accounts[i], Booked(w))
    {
      forall h, d
        ensures BalancedAt(w.senders[i], w.accounts[i], Booked(w), h, d)
      {
        assert Readings(w.senders[i].counters, h, d) == [];
        assert w.accounts[i].generated(h, d) == 0 && w.accounts[i].dropped(h, d) == 0 && w.accounts[i].settled(h, d) == 0;
      }
    }
    forall h, d
      ensures MasterBalancedAt(w, h, d)
    {
      AllZero(SettledBy(w.accounts, h, d));
      assert w.archived(h, d) + RowAt(w.db.rows, h, d) == 0 && w.ignored(h, d) == 0;
    }
  }

  /** A finite run of the whole system. */
  ghost predicate WorldRun(w: World, es: seq<Step>, v: World)
    decreases es
  {
    if es == [] then w == v else Possible(w, es[0]) && WorldRun(After(w, es[0]), es[1..], v)
  }

  lemma {:induction false} RunKeepsInv(w: World, es: seq<Step>, v: World)
    requires Inv(w) && WorldRun(w, es, v)
    ensures Inv(v)
    decreases es
  {
    if es != [] {
      StepKeepsInv(w, es[0]);
      RunKeepsInv(After(w, es[0]), es[1..], v);
    }
  }

  lemma {:induction false} WorldRunConcat(w: World, es: seq<Step>, m: World, fs: seq<Step>, v: World)
    requires WorldRun(w, es, m) && WorldRun(m, fs, v)
    ensures WorldRun(w, es + fs, v)
    decreases |es|
  {
    if es == [] {
      assert es + fs == fs;
    } else {
      WorldRunConcat(After(w, es[0]), es[1..], m, fs, v);
      assert (es + fs)[1..] == es[1..] + fs;
    }
  }
}
