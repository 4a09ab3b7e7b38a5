/**
 The whole traffic-accounting system: any number of senders, an unreliable
 network that loses, delays and repeats requests, and one master database.
 Requests once sent stay deliverable for ever, in any order and any number of
 times; never delivering one is how a loss looks.
 */
module Accounting {
  import opened Basics
  import opened TrafficValues
  import opened SenderProtocol
  import opened MasterDatabase

  datatype Request = Request(origin: nat, id: string, traffic: Batch)

  /** Specification-only totals of one sender. */
  datatype Account = Account(generated: Ledger, dropped: Ledger, settled: Ledger)

  datatype World = World(
    senders: seq<Sender>,
    channels: seq<Channel>,
    accounts: seq<Account>,
    frozen: map<string, Request>,     // every key ever drawn, with its batch
    net: set<Request>,                // every request ever sent
    acks: set<string>,                // keys of requests answered with success
    db: Database,
    settledAt: map<string, nat>,      // when a key's batch was booked
    clock: nat,
    archived: Ledger,                 // booked bytes cleared by a reset or a row deletion
    ignored: Ledger)                  // booked bytes of users the master did not know

  datatype Step =
    | Local(i: nat, event: Event)
    | Deliver(request: Request, rate: Rate, trouble: Trouble)
    | Tick(seconds: nat)
    | Cleanup
    | MonthlyReset
    | CreateRow(hash: string)
    | DeleteRow(hash: string)

  // ----- Measures -----

  function CounterAt(users: map<string, Counter>, h: string, d: Direction): nat {
    if h !in users then 0 else match d case Up => users[h].recv case Down => users[h].sent
  }

  function Readings(counters: seq<map<string, Counter>>, h: string, d: Direction): (r: seq<int>)
    ensures |r| == |counters|
    ensures forall k :: 0 <= k < |r| ==> r[k] == CounterAt(counters[k], h, d) && 0 <= r[k]
  {
    seq(|counters|, k requires 0 <= k < |counters| => CounterAt(counters[k], h, d))
  }

  /** Bytes still in runtime counters. */
  function InCounters(s: Sender, h: string, d: Direction): int {
    Sum(Readings(s.counters, h, d))
  }

  /** Bytes queued, or frozen and not booked yet. */
  function Held(s: Durable, booked: set<string>, h: string, d: Direction): int {
    At(s.queued, h, d) +
    if s.pending.Some? && s.pending.value.id !in booked then At(s.pending.value.traffic, h, d) else 0
  }

  /** Memory while it is loaded, the outbox file otherwise. */
  function View(s: Sender): Durable {
    if s.memory.Loaded? then s.memory.state else s.disk
  }

  function RowAt(rows: map<string, Row>, h: string, d: Direction): int {
    if h !in rows then 0 else match d case Up => rows[h].upload case Down => rows[h].download
  }

  function SettledBy(accounts: seq<Account>, h: string, d: Direction): (r: seq<int>)
    ensures |r| == |accounts|
    ensures forall k :: 0 <= k < |r| ==> r[k] == accounts[k].settled(h, d)
  {
    seq(|accounts|, k requires 0 <= k < |accounts| => accounts[k].settled(h, d))
  }

  // ----- Steps -----

  function RequestKey(w: World, r: Request): Key
    requires r.origin < |w.channels|
  {
    Key(w.channels[r.origin], r.id)
  }

  /** The master's answer to one delivery. */
  function Handle(w: World, r: Request, rate: Rate, trouble: Trouble): (Database, Status)
    requires r.origin < |w.channels|
  {
    match w.channels[r.origin]
    case DataPlane => HandleDataPlaneSpec(w.db, Report(r.id, Some(r.traffic)), w.clock, trouble == InTransaction)
    case Node(n) => HandleNodeSyncSpec(w.db, n, rate, Report(r.id, Some(r.traffic)), w.clock, trouble)
  }

  /** This delivery books the batch: it writes a receipt that was not there. */
  predicate Books(w: World, r: Request, rate: Rate, trouble: Trouble)
    requires r.origin < |w.channels|
  {
    RequestKey(w, r) !in w.db.receipts && RequestKey(w, r) in Handle(w, r, rate, trouble).0.receipts
  }

  predicate Possible(w: World, e: Step) {
    match e
    case Local(i, event) =>
      && i < |w.senders| == |w.accounts|
      && Enabled(w.senders[i], event)
      && (event.Freeze? ==> event.id !in w.frozen && |event.id| == 32)
      && (event.Acknowledge? ==> w.senders[i].memory.state.pending.value.id in w.acks)
    case Deliver(r, _, _) =>
      && r in w.net && r.origin < |w.channels| == |w.accounts|
      && (r.id in w.settledAt ==> w.clock <= w.settledAt[r.id] + RETENTION)
    case CreateRow(h) => h !in w.db.rows
    case _ => true
  }

  function Booked(w: World): set<string> {
    w.settledAt.Keys
  }

  function Entries(a: Account, s: Sender, booked: set<string>, e: Event): Account
    requires Enabled(s, e)
  {
    match e
    case AddTraffic(_, g, sent, recv) =>
      a.(generated := (h: string, d: Direction) => a.generated(h, d) + if h != g then 0 else if d == Up then recv else sent)
    case DelUser(k, g) =>
      a.(dropped := (h: string, d: Direction) => a.dropped(h, d) + if h != g then 0 else CounterAt(s.counters[k], g, d))
    case Crash =>
      a.(dropped := (h: string, d: Direction) =>
           a.dropped(h, d) + InCounters(s, h, d) + Held(View(s), booked, h, d) - Held(s.disk, booked, h, d))
    case _ => a
  }

  function AfterLocal(w: World, i: nat, e: Event): World
    requires Possible(w, Local(i, e))
  {
    var s := w.senders[i];
    var next := w.(
      senders := w.senders[i := Next(s, e)],
      accounts := w.accounts[i := Entries(w.accounts[i], s, Booked(w), e)]);
    match e
    case Freeze(id, _) => next.(frozen := w.frozen[id := Request(i, id, s.memory.state.queued)])
    case Send => next.(net := w.net + {Request(i, s.memory.state.pending.value.id, s.memory.state.pending.value.traffic)})
    case _ => next
  }

  function AfterDeliver(w: World, r: Request, rate: Rate, trouble: Trouble): World
    requires Possible(w, Deliver(r, rate, trouble))
  {
    var (db, status) := Handle(w, r, rate, trouble);
    var next := w.(db := db, acks := if status == Ok then w.acks + {r.id} else w.acks);
    if !Books(w, r, rate, trouble) then next
    else
      var a := w.accounts[r.origin];
      next.(
        settledAt := w.settledAt[r.id := w.clock],
        accounts := w.accounts[r.origin := a.(settled := Credit(a.settled, r.traffic))],
        ignored := (h: string, d: Direction) =>
          w.ignored(h, d) + if h in w.db.rows && h != "" then 0 else At(r.traffic, h, d))
  }

  function After(w: World, e: Step): World
    requires Possible(w, e)
  {
    match e
    case Local(i, event) => AfterLocal(w, i, event)
    case Deliver(r, rate, trouble) => AfterDeliver(w, r, rate, trouble)
    case Tick(n) => w.(clock := w.clock + n)
    case Cleanup =>
      w.(db := w.db.(receipts := map k | k in w.db.receipts && w.db.receipts[k] + RETENTION >= w.clock :: w.db.receipts[k]))
    case MonthlyReset =>
      w.(db := w.db.(rows := map h | h in w.db.rows :: Row(0, 0, 0)),
         archived := (h: string, d: Direction) => w.archived(h, d) + RowAt(w.db.rows, h, d))
    case CreateRow(h) => w.(db := w.db.(rows := w.db.rows[h := Row(0, 0, 0)]))
    case DeleteRow(g) =>
      w.(db := w.db.(rows := w.db.rows - {g}),
         archived := (h: string, d: Direction) => w.archived(h, d) + if h == g then RowAt(w.db.rows, g, d) else 0)
  }

  // ----- Invariants -----

  predicate Shape(w: World) {
    |w.senders| == |w.channels| == |w.accounts|
  }

  predicate IsRegistered(frozen: map<string, Request>, i: nat, p: Option<Frozen>) {
    p.Some? ==> p.value.id in frozen && frozen[p.value.id] == Request(i, p.value.id, p.value.traffic)
  }

  predicate Keys(frozen: map<string, Request>, senders: nat) {
    forall id :: id in frozen ==>
      frozen[id].id == id && |id| == 32 && frozen[id].traffic != map[] && frozen[id].origin < senders
  }

  predicate Requests(frozen: map<string, Request>, net: set<Request>) {
    forall r :: r in net ==> r.id in frozen && frozen[r.id] == r
  }

  predicate Bookings(frozen: map<string, Request>, net: set<Request>, booked: set<string>) {
    forall id :: id in booked ==> id in frozen && frozen[id] in net
  }

  predicate Pendings(frozen: map<string, Request>, senders: seq<Sender>) {
    forall i :: 0 <= i < |senders| ==>
      IsRegistered(frozen, i, View(senders[i]).pending) && IsRegistered(frozen, i, senders[i].disk.pending)
  }

  /** Every key in use names one batch of one sender. */
  predicate Registry(w: World) {
    && Keys(w.frozen, |w.senders|)
    && Requests(w.frozen, w.net)
    && Bookings(w.frozen, w.net, Booked(w))
    && Pendings(w.frozen, w.senders)
    && w.acks <= Booked(w)
  }

  /** A request not booked yet is still held by the sender that sent it. */
  predicate Carried(w: World)
    requires Registry(w)
  {
    forall r :: r in w.net && r.id !in w.settledAt ==> View(w.senders[r.origin]).pending == Some(Frozen(r.id, r.traffic))
  }

  /** Receipts witness bookings, and are kept for the retention period. */
  predicate Receipted(w: World)
    requires Shape(w) && Registry(w)
  {
    && (forall k :: k in w.db.receipts ==> k.id in w.settledAt)
    && (forall id :: id in w.settledAt && w.clock <= w.settledAt[id] + RETENTION ==>
          RequestKey(w, w.frozen[id]) in w.db.receipts)
    && (forall k :: k in w.db.receipts ==> w.db.receipts[k] == w.settledAt[k.id])
    && (forall id :: id in w.settledAt ==> w.settledAt[id] <= w.clock)
  }

  /** How far the outbox file may be from loaded memory after failed saves. */
  predicate Coherent(w: World, s: Sender) {
    s.memory.Loaded? ==>
      var m := s.memory.state;
      || s.disk.pending == m.pending
      || (m.pending.None? && s.disk == Durable(s.disk.pending, map[]) && s.disk.pending.value.traffic == m.queued
          && (forall r :: r in w.net ==> r.id != s.disk.pending.value.id))
      || (s.disk == m.(pending := None) && m.pending.value.id in w.settledAt)
  }

  predicate BalancedAt(s: Sender, a: Account, booked: set<string>, h: string, d: Direction) {
    && a.generated(h, d) == InCounters(s, h, d) + Held(View(s), booked, h, d) + a.settled(h, d) + a.dropped(h, d)
    && 0 <= a.dropped(h, d)
    && Held(View(s), booked, h, d) <= Held(s.disk, booked, h, d)
    && Held(s.disk, booked, h, d) <= Held(View(s), booked, h, d) + InCounters(s, h, d) + a.dropped(h, d)
  }

  ghost predicate Balanced(s: Sender, a: Account, booked: set<string>) {
    forall h, d :: BalancedAt(s, a, booked, h, d)
  }

  predicate MasterBalancedAt(w: World, h: string, d: Direction) {
    Sum(SettledBy(w.accounts, h, d)) == RowAt(w.db.rows, h, d) + w.archived(h, d) + w.ignored(h, d)
  }

  ghost predicate MasterBalanced(w: World) {
    forall h, d :: MasterBalancedAt(w, h, d)
  }

  ghost predicate Inv(w: World) {
    && Shape(w) && Registry(w) && Carried(w) && Receipted(w) && MasterBalanced(w)
    && forall i :: 0 <= i < |w.senders| ==>
         Coherent(w, w.senders[i]) && Balanced(w.senders[i], w.accounts[i], Booked(w))
  }

  /** Nothing has happened yet, on any number of machines, with any users known. */
  ghost predicate Initial(w: World) {
    && Shape(w)
    && (forall i :: 0 <= i < |w.senders| ==> w.senders[i] == Sender([], Stopped, Durable(None, map[])))
    && (forall i, h, d :: 0 <= i < |w.accounts| ==>
          w.accounts[i].generated(h, d) == 0 && w.accounts[i].dropped(h, d) == 0 && w.accounts[i].settled(h, d) == 0)
    && w.frozen == map[] && w.net == {} && w.acks == {} && w.settledAt == map[] && w.db.receipts == map[]
    && (forall h, d :: w.archived(h, d) + RowAt(w.db.rows, h, d) == 0 && w.ignored(h, d) == 0)
  }
}
