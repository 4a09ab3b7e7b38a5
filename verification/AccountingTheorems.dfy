/** What holds of every run of the accounting system, and where its promises end. */
module AccountingTheorems {
  import opened Basics
  import opened TrafficValues
  import opened SenderProtocol
  import opened MasterDatabase
  import opened Accounting
  import opened AccountingProofs
  import opened AccountingProgress

  /** Runs from the beginning. */
  ghost predicate Reached(start: World, es: seq<Step>, w: World) {
    Initial(start) && WorldRun(start, es, w)
  }

  /**
   Conservation. After any run, for every sender, user and direction: the bytes
   generated are those in runtime counters, queued or frozen and not booked,
   booked, or dropped; and the bytes booked are exactly those in the user's row,
   cleared from it, or ignored because the user was unknown.
   */
  lemma Conservation(start: World, es: seq<Step>, w: World, i: nat, h: string, d: Direction)
    requires Reached(start, es, w) && i < |w.senders| == |w.accounts|
    ensures w.accounts[i].generated(h, d) ==
            InCounters(w.senders[i], h, d) + Held(View(w.senders[i]), Booked(w), h, d)
            + w.accounts[i].settled(h, d) + w.accounts[i].dropped(h, d)
    ensures 0 <= w.accounts[i].dropped(h, d)
    ensures Sum(SettledBy(w.accounts, h, d)) == RowAt(w.db.rows, h, d) + w.archived(h, d) + w.ignored(h, d)
  {
    InitialInv(start);
    RunKeepsInv(start, es, w);
    assert BalancedAt(w.senders[i], w.accounts[i], Booked(w), h, d);
    assert MasterBalancedAt(w, h, d);
  }

  // ----- Totals over all senders -----

  function Generated(w: World, h: string, d: Direction): (r: seq<int>)
    ensures |r| == |w.accounts| && forall k :: 0 <= k < |r| ==> r[k] == w.accounts[k].generated(h, d)
  {
    seq(|w.accounts|, k requires 0 <= k < |w.accounts| => w.accounts[k].generated(h, d))
  }

  /** What every sender still has or has lost. */
  function Unbooked(w: World, h: string, d: Direction): (r: seq<int>)
    requires Shape(w)
    ensures |r| == |w.accounts|
    ensures forall k :: 0 <= k < |r| ==>
              r[k] == InCounters(w.senders[k], h, d) + Held(View(w.senders[k]), Booked(w), h, d) + w.accounts[k].dropped(h, d)
  {
    seq(|w.accounts|, k requires 0 <= k < |w.accounts| =>
      InCounters(w.senders[k], h, d) + Held(View(w.senders[k]), Booked(w), h, d) + w.accounts[k].dropped(h, d))
  }

  lemma {:induction false} SumSplits(xs: seq<int>, ys: seq<int>, zs: seq<int>)
    requires |xs| == |ys| == |zs| && forall k :: 0 <= k < |xs| ==> xs[k] == ys[k] + zs[k]
    ensures Sum(xs) == Sum(ys) + Sum(zs)
  {
    if xs != [] {
      SumSplits(xs[1..], ys[1..], zs[1..]);
    }
  }

  /** Over all senders: no byte is made up, counted twice, or lost without being dropped, cleared or ignored. */
  lemma TotalConservation(start: World, es: seq<Step>, w: World, h: string, d: Direction)
    requires Reached(start, es, w) && Shape(w)
    ensures Sum(Generated(w, h, d)) ==
            Sum(Unbooked(w, h, d)) + RowAt(w.db.rows, h, d) + w.archived(h, d) + w.ignored(h, d)
  {
    InitialInv(start);
    RunKeepsInv(start, es, w);
    forall k | 0 <= k < |w.accounts|
      ensures Generated(w, h, d)[k] == Unbooked(w, h, d)[k] + SettledBy(w.accounts, h, d)[k]
    {
      Conservation(start, es, w, k, h, d);
    }
    SumSplits(Generated(w, h, d), Unbooked(w, h, d), SettledBy(w.accounts, h, d));
    assert MasterBalancedAt(w, h, d);
  }

  // ----- Exactly once -----

  /** Whatever crashed and restarted in between, one key always carries one batch. */
  lemma SameKeySameBatch(start: World, es: seq<Step>, w: World, a: Request, b: Request)
    requires Reached(start, es, w) && a in w.net && b in w.net && a.id == b.id
    ensures a == b
  {
    InitialInv(start);
    RunKeepsInv(start, es, w);
  }

  /** How many deliveries of a run book the batch of one key. */
  ghost function Bookings(w: World, es: seq<Step>, v: World, id: string): nat
    requires WorldRun(w, es, v)
    decreases es
  {
    if es == [] then 0
    else
      (if es[0].Deliver? && es[0].request.id == id && Books(w, es[0].request, es[0].rate, es[0].trouble) then 1 else 0)
      + Bookings(After(w, es[0]), es[1..], v, id)
  }

  /** A step books a key that was not booked, or leaves the booked keys alone. */
  lemma BookingStep(w: World, e: Step, id: string)
    requires Inv(w) && Possible(w, e)
    ensures var books := e.Deliver? && e.request.id == id && Books(w, e.request, e.rate, e.trouble);
            && (books ==> id !in w.settledAt && id in After(w, e).settledAt)
            && (!books ==> (id in w.settledAt <==> id in After(w, e).settledAt))
  {
  }

  lemma {:induction false} BookingsCount(w: World, es: seq<Step>, v: World, id: string)
    requires Inv(w) && WorldRun(w, es, v)
    ensures Bookings(w, es, v, id) == (if id in v.settledAt then 1 else 0) - (if id in w.settledAt then 1 else 0)
    decreases es
  {
    if es != [] {
      StepKeepsInv(w, es[0]);
      BookingStep(w, es[0], id);
      BookingsCount(After(w, es[0]), es[1..], v, id);
    }
  }

  /** Each key is booked at most once, and every acknowledged key exactly once. */
  lemma BookedAtMostOnce(start: World, es: seq<Step>, w: World, id: string)
    requires Reached(start, es, w)
    ensures Bookings(start, es, w, id) <= 1
    ensures id in w.acks ==> Bookings(start, es, w, id) == 1
  {
    InitialInv(start);
    BookingsCount(start, es, w, id);
    RunKeepsInv(start, es, w);
  }

  // ----- Where bytes can be lost -----

  /** Only a sender's own events touch what it has dropped. */
  lemma DroppedAfter(w: World, e: Step, i: nat, h: string, d: Direction)
    requires Shape(w) && Possible(w, e) && i < |w.senders|
    ensures After(w, e).accounts[i].dropped(h, d) ==
            if e.Local? && e.i == i then Entries(w.accounts[i], w.senders[i], Booked(w), e.event).dropped(h, d)
            else w.accounts[i].dropped(h, d)
  {
  }

  /** What one event does to a sender's dropped total. */
  lemma EventDrops(s: Sender, a: Account, booked: set<string>, e: Event, h: string, d: Direction)
    requires Enabled(s, e) && BalancedAt(s, a, booked, h, d)
    ensures var change := Entries(a, s, booked, e).dropped(h, d) - a.dropped(h, d);
            match e
            case DelUser(k, g) => change == if g == h then CounterAt(s.counters[k], h, d) else 0
            case Crash =>
              && change == InCounters(s, h, d) - (Held(s.disk, booked, h, d) - Held(View(s), booked, h, d))
              && -a.dropped(h, d) <= change <= InCounters(s, h, d)
            case _ => change == 0
  {
  }

  /**
   Bytes are dropped only when a user is removed, and then exactly what its
   counter held, or when a process dies, and then at most what its counters
   held: whatever was checkpointed survives.
   */
  lemma LossOnlyFromCounters(w: World, e: Step, i: nat, h: string, d: Direction)
    requires Inv(w) && Possible(w, e) && i < |w.senders|
    ensures var change := After(w, e).accounts[i].dropped(h, d) - w.accounts[i].dropped(h, d);
            if e.Local? && e.i == i && e.event.DelUser? then
              change == if e.event.hash == h then CounterAt(w.senders[i].counters[e.event.auth], h, d) else 0
            else if e.Local? && e.i == i && e.event.Crash? then
              -w.accounts[i].dropped(h, d) <= change <= InCounters(w.senders[i], h, d)
            else
              change == 0
  {
    DroppedAfter(w, e, i, h, d);
    if e.Local? && e.i == i {
      assert BalancedAt(w.senders[i], w.accounts[i], Booked(w), h, d);
      EventDrops(w.senders[i], w.accounts[i], Booked(w), e.event, h, d);
    }
  }

  /** A sender with 5 uploaded bytes on user u's counter, as the outbox file and the counters stand. */
  function Example(counters: map<string, Counter>, queued: Batch): Sender {
    Sender([counters], Loaded(Durable(None, map[])), Durable(None, queued))
  }

  /** Such a run exists: the checkpoint fails after its rename, the user goes, the process dies, and 5 dropped bytes are back. */
  lemma RemovedBytesMayReturn(a: Account)
    requires a.dropped("u", Up) == 0
    ensures var s := Example(map["u" := Counter(0, 5)], map[]);
            var t := Example(map[], map["u" := Traffic(5, 0)]);
            && Runs(s, [Checkpoint(0, "u", AfterRename), DelUser(0, "u")], t)
            && var b := Entries(a, Example(map["u" := Counter(0, 5)], map["u" := Traffic(5, 0)]), {}, DelUser(0, "u"));
            && b.dropped("u", Up) == 5
            && Enabled(t, Crash) && Entries(b, t, {}, Crash).dropped("u", Up) == 0
  {
  }

  // ----- The edges of the promise -----

  /** A repeated delivery books again exactly when its receipt is gone and the rows can still take it. */
  lemma RepeatBooksIff(w: World, r: Request, rate: Rate)
    requires Inv(w) && r in w.net
    ensures r.origin < |w.channels|
    ensures Books(w, r, rate, NoTrouble) <==>
            && RequestKey(w, r) !in w.db.receipts
            && RoomHere(w, r, rate)
  {
    Answer(w, r, rate);
  }

  lemma Forgotten(w: World, r: Request, n: nat)
    requires Inv(w) && r in w.net && r.id in w.settledAt && w.settledAt[r.id] + RETENTION < w.clock + n
    ensures var late := After(After(w, Tick(n)), Cleanup);
            && late.channels == w.channels && late.net == w.net && late.db.rows == w.db.rows
            && RequestKey(late, r) !in late.db.receipts
  {
    assert w.frozen[r.id] == r;
  }

  /**
   Past the retention period a cleanup forgets the receipt, and a late retry of
   a booked batch books it again exactly when the rows can still take it.
   */
  lemma LateRetryBooksAgain(w: World, r: Request, rate: Rate, n: nat)
    requires Inv(w) && r in w.net && r.id in w.settledAt && w.settledAt[r.id] + RETENTION < w.clock + n
    ensures var late := After(After(w, Tick(n)), Cleanup);
            && RequestKey(late, r) !in late.db.receipts
            && (Books(late, r, rate, NoTrouble) <==> RoomHere(w, r, rate))
  {
    var late := After(After(w, Tick(n)), Cleanup);
    Forgotten(w, r, n);
    assert Inv(late) by {
      StepKeepsInv(w, Tick(n));
      StepKeepsInv(After(w, Tick(n)), Cleanup);
    }
    RepeatBooksIff(late, r, rate);
  }

  /** The node handler answers success to a non-empty report without booking it exactly when the body does not decode. */
  lemma NodeAnswersWithoutBooking(db: Database, node: nat, rate: Rate, r: Report, now: nat, trouble: Trouble)
    requires r.body.Some? ==> r.body.value != map[]
    ensures var (next, status) := HandleNodeSyncSpec(db, node, rate, r, now, trouble);
            (status == Ok && Key(Node(node), r.id) !in next.receipts) <==>
            (r.body.None? && Key(Node(node), r.id) !in db.receipts && trouble != InListing)
  {
  }

  /** The data-plane handler never does. */
  lemma DataPlaneAnswersOnlyBooked(db: Database, r: Report, now: nat, fault: bool)
    ensures var (next, status) := HandleDataPlaneSpec(db, r, now, fault);
            status == Ok ==> Key(DataPlane, r.id) in next.receipts
  {
  }

  /** If such an answer reached a sender, its frozen batch would vanish from the books. */
  lemma EmptyAnswerLosesBatch(w: World, i: nat, h: string, d: Direction)
    requires Inv(w) && i < |w.senders| && w.senders[i].memory.Loaded? && WellFormed(w.senders[i].memory.state)
    requires var p := w.senders[i].memory.state.pending; p.Some? && p.value.id !in w.settledAt && 0 < At(p.value.traffic, h, d)
    ensures var answered := w.(acks := w.acks + {w.senders[i].memory.state.pending.value.id});
            && Possible(answered, Local(i, Acknowledge(NoFault)))
            && var v := After(answered, Local(i, Acknowledge(NoFault)));
               v.accounts[i].generated(h, d) >
                 InCounters(v.senders[i], h, d) + Held(View(v.senders[i]), Booked(v), h, d)
                 + v.accounts[i].settled(h, d) + v.accounts[i].dropped(h, d)
  {
    assert BalancedAt(w.senders[i], w.accounts[i], Booked(w), h, d);
    var answered := w.(acks := w.acks + {w.senders[i].memory.state.pending.value.id});
    var v := After(answered, Local(i, Acknowledge(NoFault)));
    assert Readings(v.senders[i].counters, h, d) == Readings(w.senders[i].counters, h, d);
  }

  // ----- Stored counters over whole histories -----

  predicate Bounded(rows: map<string, Row>) {
    forall h :: h in rows ==>
      0 <= rows[h].upload <= INT64_MAX && 0 <= rows[h].download <= INT64_MAX && 0 <= rows[h].used <= INT64_MAX
  }

  predicate UsedIsSum(rows: map<string, Row>) {
    forall h :: h in rows ==> rows[h].used == rows[h].upload + rows[h].download
  }

  predicate UnitRates(es: seq<Step>) {
    forall k :: 0 <= k < |es| && es[k].Deliver? ==> es[k].rate == UnitRate
  }

  lemma PostBounded(db: Database, key: Key, batch: Batch, rate: Rate, now: nat, fault: bool)
    requires Bounded(db.rows)
    ensures Bounded(Post(db, key, batch, rate, now, fault).0.rows)
    ensures UsedIsSum(db.rows) && rate == UnitRate ==> UsedIsSum(Post(db, key, batch, rate, now, fault).0.rows)
  {
  }

  lemma DeliverBounded(w: World, r: Request, rate: Rate, trouble: Trouble)
    requires r.origin < |w.channels| && Bounded(w.db.rows)
    ensures Bounded(Handle(w, r, rate, trouble).0.rows)
    ensures UsedIsSum(w.db.rows) && rate == UnitRate ==> UsedIsSum(Handle(w, r, rate, trouble).0.rows)
  {
    match w.channels[r.origin] {
      case DataPlane => PostBounded(w.db, RequestKey(w, r), r.traffic - {""}, UnitRate, w.clock, trouble == InTransaction);
      case Node(_) => PostBounded(w.db, RequestKey(w, r), r.traffic, rate, w.clock, trouble == InTransaction);
    }
  }

  lemma StepBounded(w: World, e: Step)
    requires Possible(w, e) && Bounded(w.db.rows)
    ensures Bounded(After(w, e).db.rows)
    ensures UsedIsSum(w.db.rows) && (e.Deliver? ==> e.rate == UnitRate) ==> UsedIsSum(After(w, e).db.rows)
  {
    if e.Deliver? {
      assert After(w, e).db == Handle(w, e.request, e.rate, e.trouble).0;
      DeliverBounded(w, e.request, e.rate, e.trouble);
    } else if e.Local? {
      assert After(w, e).db == w.db;
    }
  }

  /** Stored counters never leave the signed 64-bit range, and at rate 1 used stays upload plus download. */
  lemma {:induction false} StoredCountersStayInRange(w: World, es: seq<Step>, v: World)
    requires WorldRun(w, es, v) && Bounded(w.db.rows)
    ensures Bounded(v.db.rows)
    ensures UsedIsSum(w.db.rows) && UnitRates(es) ==> UsedIsSum(v.db.rows)
    decreases es
  {
    if es != [] {
      StepBounded(w, es[0]);
      StoredCountersStayInRange(After(w, es[0]), es[1..], v);
      assert UnitRates(es) ==> UnitRates(es[1..]);
    }
  }
}
