/**
 The master's side of traffic accounting: checked increments, the user rows,
 the idempotency receipts, and the two handlers that write a receipt together
 with the increments of its batch.
 */
module MasterDatabase {
  import opened Basics
  import opened TrafficValues

  /** The stored counters of one user row. */
  datatype Row = Row(upload: int, download: int, used: int)

  datatype Increment = Increment(upload: nat, download: nat, used: nat)

  /** A node's billing rate; scaling by a rate other than 1 is any rounding. */
  datatype Rate = InvalidRate | UnitRate | ScaledRate(scale: nat -> int)

  /** Who reports: the local data plane, or a worker node. */
  datatype Channel = DataPlane | Node(node: nat)

  datatype Key = Key(channel: Channel, id: string)

  datatype Database = Database(rows: map<string, Row>, receipts: map<Key, nat>)

  datatype Status = Ok | BadRequest | ServerError

  const MAX_SYNC_ID_LENGTH: nat := 64
  const RETENTION: nat := 30 * 24 * 3600

  function NewIncrement(t: Traffic, rate: Rate): (r: Option<Increment>)
    ensures r.Some? ==> r.value.upload == t.up && r.value.download == t.down
    ensures r.Some? ==> t.up + t.down <= INT64_MAX && r.value.used <= INT64_MAX
    ensures rate == UnitRate ==> (r.Some? <==> t.up + t.down <= INT64_MAX)
    ensures rate == UnitRate && r.Some? ==> r.value.used == t.up + t.down
  {
    if rate == InvalidRate || t.up > INT64_MAX || t.down > INT64_MAX || t.up > INT64_MAX - t.down then None
    else if rate == UnitRate then Some(Increment(t.up, t.down, t.up + t.down))
    else
      var scaled := rate.scale(t.up + t.down);
      if scaled < 0 || scaled >= INT64_MAX + 1 then None
      else Some(Increment(t.up, t.down, scaled))
  }

  predicate Accepts(row: Row, inc: Increment) {
    && 0 <= row.upload <= INT64_MAX - inc.upload
    && 0 <= row.download <= INT64_MAX - inc.download
    && 0 <= row.used <= INT64_MAX - inc.used
  }

  function Raise(row: Row, inc: Increment): Row {
    Row(row.upload + inc.upload, row.download + inc.download, row.used + inc.used)
  }

  predicate Countable(batch: Batch, rate: Rate) {
    forall h :: h in batch ==> NewIncrement(batch[h], rate).Some?
  }

  /** An increment of nothing, or for the empty hash, is skipped. */
  predicate Skipped(h: string, inc: Increment) {
    h == "" || inc == Increment(0, 0, 0)
  }

  predicate Fits(rows: map<string, Row>, h: string, inc: Increment) {
    Skipped(h, inc) || h !in rows || Accepts(rows[h], inc)
  }

  /** One row update; unknown users are ignored. */
  function RaiseRow(rows: map<string, Row>, h: string, inc: Increment): map<string, Row> {
    if Skipped(h, inc) || h !in rows then rows else rows[h := Raise(rows[h], inc)]
  }

  predicate Settles(rows: map<string, Row>, batch: Batch, rate: Rate) {
    && Countable(batch, rate)
    && forall h :: h in batch ==> Fits(rows, h, NewIncrement(batch[h], rate).value)
  }

  /** All rows after the whole batch: every known user gains its own increment. */
  function Settled(rows: map<string, Row>, batch: Batch, rate: Rate): map<string, Row>
    requires Countable(batch, rate)
  {
    map h | h in rows :: if h in batch && h != "" then Raise(rows[h], NewIncrement(batch[h], rate).value) else rows[h]
  }

  /** The receipt transaction: all of it, or nothing. */
  function Post(db: Database, key: Key, batch: Batch, rate: Rate, now: nat, fault: bool): (Database, Status) {
    if fault then (db, ServerError)
    else if key in db.receipts then (db, Ok)
    else if !Settles(db.rows, batch, rate) then (db, BadRequest)
    else (Database(Settled(db.rows, batch, rate), db.receipts[key := now]), Ok)
  }

  // ----- When the rows can take a batch -----

  /** What a user is charged for this traffic. */
  function Charge(t: Traffic, rate: Rate): int
    requires !rate.InvalidRate?
  {
    if rate.UnitRate? then t.up + t.down else rate.scale(t.up + t.down)
  }

  /** Each stored counter is sound, and stays within 63 bits with what comes. */
  predicate Takes(row: Row, t: Traffic, charge: int) {
    && 0 <= row.upload && row.upload + t.up <= INT64_MAX
    && 0 <= row.download && row.download + t.down <= INT64_MAX
    && 0 <= row.used && row.used + charge <= INT64_MAX
  }

  predicate RoomFor(rows: map<string, Row>, h: string, t: Traffic, rate: Rate) {
    && !rate.InvalidRate? && t.up + t.down <= INT64_MAX && 0 <= Charge(t, rate) <= INT64_MAX
    && (h in rows && h != "" && (t.up > 0 || t.down > 0 || Charge(t, rate) > 0) ==> Takes(rows[h], t, Charge(t, rate)))
  }

  predicate Room(rows: map<string, Row>, batch: Batch, rate: Rate) {
    forall h :: h in batch ==> RoomFor(rows, h, batch[h], rate)
  }

  /** The rows with every known user's bytes and charge added, and nothing else changed. */
  predicate Added(rows: map<string, Row>, next: map<string, Row>, batch: Batch, rate: Rate)
    requires Room(rows, batch, rate)
  {
    && next.Keys == rows.Keys
    && forall h :: h in rows ==>
         if h in batch && h != "" then
           assert RoomFor(rows, h, batch[h], rate);
           next[h] == Row(rows[h].upload + batch[h].up, rows[h].download + batch[h].down, rows[h].used + Charge(batch[h], rate))
         else next[h] == rows[h]
  }

  lemma RoomIsEnough(rows: map<string, Row>, batch: Batch, rate: Rate)
    ensures Settles(rows, batch, rate) <==> Room(rows, batch, rate)
  {
    forall h | h in batch
      ensures RoomFor(rows, h, batch[h], rate) <==>
              NewIncrement(batch[h], rate).Some? && Fits(rows, h, NewIncrement(batch[h], rate).value)
    {
    }
  }

  lemma RoomIsUsed(rows: map<string, Row>, batch: Batch, rate: Rate)
    requires Room(rows, batch, rate)
    ensures Countable(batch, rate) && Added(rows, Settled(rows, batch, rate), batch, rate)
  {
    RoomIsEnough(rows, batch, rate);
    forall h | h in batch
      ensures NewIncrement(batch[h], rate) == Some(Increment(batch[h].up, batch[h].down, Charge(batch[h], rate)))
    {
      assert RoomFor(rows, h, batch[h], rate);
    }
  }

  /**
   What a transaction that meets no fault does: a key with a receipt is answered
   with success; a new one is booked in full when there is room, and refused
   without a trace when there is not.
   */
  predicate Transacted(db: Database, next: Database, status: Status, key: Key, batch: Batch, rate: Rate, now: nat) {
    if key in db.receipts then next == db && status == Ok
    else if Room(db.rows, batch, rate) then
      status == Ok && next.receipts == db.receipts[key := now] && Added(db.rows, next.rows, batch, rate)
    else next == db && status == BadRequest
  }

  lemma PostTransacts(db: Database, key: Key, batch: Batch, rate: Rate, now: nat)
    ensures var (next, status) := Post(db, key, batch, rate, now, false);
            Transacted(db, next, status, key, batch, rate, now)
  {
    RoomIsEnough(db.rows, batch, rate);
    if Room(db.rows, batch, rate) {
      RoomIsUsed(db.rows, batch, rate);
    }
  }

  // ----- The handlers -----

  /** A report as it reaches a handler; a body that does not decode is None. */
  datatype Report = Report(id: string, body: Option<Batch>)

  function HandleDataPlaneSpec(db: Database, r: Report, now: nat, fault: bool): (Database, Status) {
    if r.body.None? || r.id == "" || r.body.value == map[] || |r.id| > MAX_SYNC_ID_LENGTH then (db, BadRequest)
    else Post(db, Key(DataPlane, r.id), r.body.value - {""}, UnitRate, now, fault)
  }

  /** Where a handler meets trouble of its own: in the transaction, or behind it, when the users are listed. */
  datatype Trouble = NoTrouble | InTransaction | InListing

  function HandleNodeSyncSpec(db: Database, node: nat, rate: Rate, r: Report, now: nat, trouble: Trouble): (Database, Status) {
    var (next, status) :=
      if r.body.None? || r.body.value == map[] then (db, Ok)
      else if r.id == "" || |r.id| > MAX_SYNC_ID_LENGTH then (db, BadRequest)
      else Post(db, Key(Node(node), r.id), r.body.value, rate, now, trouble == InTransaction);
    (next, if status == Ok && trouble == InListing then ServerError else status)
  }

  /** Increments of one batch, computed before any row is touched. */
  method BuildIncrements(batch: Batch, rate: Rate) returns (r: Option<map<string, Increment>>)
    ensures r.Some? <==> Countable(batch, rate)
    ensures r.Some? ==> r.value.Keys == batch.Keys && forall h :: h in batch ==> Some(r.value[h]) == NewIncrement(batch[h], rate)
  {
    var increments: map<string, Increment> := map[];
    var rest := batch.Keys;
    while rest != {}
      invariant rest <= batch.Keys && increments.Keys == batch.Keys - rest
      invariant forall h :: h in increments ==> Some(increments[h]) == NewIncrement(batch[h], rate)
      decreases rest
    {
      var h :| h in rest;
      var inc := NewIncrement(batch[h], rate);
      if inc.None? {
        return None;
      }
      increments := increments[h := inc.value];
      rest := rest - {h};
    }
    return Some(increments);
  }

  /** One guarded row update. */
  method PersistIncrement(rows: map<string, Row>, h: string, inc: Increment) returns (r: Option<map<string, Row>>)
    ensures r.Some? <==> Fits(rows, h, inc)
    ensures r.Some? ==> r.value == RaiseRow(rows, h, inc)
  {
    if h == "" || inc == Increment(0, 0, 0) {
      return Some(rows);
    }
    if h in rows && Accepts(rows[h], inc) {
      return Some(rows[h := Raise(rows[h], inc)]);
    }
    if h !in rows {
      return Some(rows);
    }
    return None;
  }

  /** The rows after the users in `done` have been updated. */
  ghost function Partly(rows: map<string, Row>, incs: map<string, Increment>, done: set<string>): map<string, Row> {
    map h | h in rows :: if h in incs && h in done && h != "" then Raise(rows[h], incs[h]) else rows[h]
  }

  /** Updating one more user takes one partial state to the next. */
  lemma PartlyStep(rows: map<string, Row>, incs: map<string, Increment>, done: set<string>, h: string)
    requires h in incs && h !in done
    ensures Fits(Partly(rows, incs, done), h, incs[h]) <==> Fits(rows, h, incs[h])
    ensures RaiseRow(Partly(rows, incs, done), h, incs[h]) == Partly(rows, incs, done + {h})
  {
  }

  ghost predicate FitAll(rows: map<string, Row>, incs: map<string, Increment>, done: set<string>) {
    forall h :: h in incs && h in done ==> Fits(rows, h, incs[h])
  }

  /** Users are updated one at a time, in whatever order; the outcome does not depend on it. */
  method PersistAll(rows: map<string, Row>, incs: map<string, Increment>) returns (r: Option<map<string, Row>>)
    ensures r.Some? <==> FitAll(rows, incs, incs.Keys)
    ensures r.Some? ==> r.value == Partly(rows, incs, incs.Keys)
  {
    var current := rows;
    var rest := incs.Keys;
    ghost var done: set<string> := {};
    assert rows == Partly(rows, incs, done);
    while rest != {}
      invariant rest !! done && rest + done == incs.Keys
      invariant current == Partly(rows, incs, done)
      invariant FitAll(rows, incs, done)
      decreases rest
    {
      var h :| h in rest;
      PartlyStep(rows, incs, done, h);
      var step := PersistIncrement(current, h, incs[h]);
      if step.None? {
        return None;
      }
      done := done + {h};
      current := step.value;
      rest := rest - {h};
    }
    assert done == incs.Keys;
    return Some(current);
  }

  /** All increments first, then all rows: the whole batch, or nothing. */
  method SettleBatch(rows: map<string, Row>, batch: Batch, rate: Rate) returns (r: Option<map<string, Row>>)
    ensures r.Some? <==> Settles(rows, batch, rate)
    ensures r.Some? ==> r.value == Settled(rows, batch, rate)
  {
    var increments := BuildIncrements(batch, rate);
    if increments.None? {
      return None;
    }
    r := PersistAll(rows, increments.value);
    assert FitAll(rows, increments.value, increments.value.Keys) <==> Settles(rows, batch, rate);
    assert Partly(rows, increments.value, increments.value.Keys) == Settled(rows, batch, rate);
  }

  /** The master's database, updated in place by its handlers. */
  class Master {
    var rows: map<string, Row>
    var receipts: map<Key, nat>

    constructor ()
      ensures rows == map[] && receipts == map[]
    {
      rows, receipts := map[], map[];
    }

    function State(): Database
      reads this
    {
      Database(rows, receipts)
    }

    /** The transaction both handlers run; a failure leaves no trace. */
    method Transact(key: Key, batch: Batch, rate: Rate, now: nat, fault: bool) returns (status: Status)
      modifies this
      ensures (State(), status) == Post(old(State()), key, batch, rate, now, fault)
      ensures if fault then State() == old(State()) && status == ServerError
              else Transacted(old(State()), State(), status, key, batch, rate, now)
    {
      PostTransacts(State(), key, batch, rate, now);
      if fault {
        return ServerError;
      }
      if key in receipts {
        return Ok;
      }
      var updated := SettleBatch(rows, batch, rate);
      if updated.None? {
        return BadRequest;
      }
      rows := updated.value;
      receipts := receipts[key := now];
      return Ok;
    }

    method HandleDataPlane(r: Report, now: nat, fault: bool) returns (status: Status)
      modifies this
      ensures (State(), status) == HandleDataPlaneSpec(old(State()), r, now, fault)
      ensures r.body.None? || r.body.value == map[] || !(1 <= |r.id| <= 64) ==> State() == old(State()) && status == BadRequest
      ensures r.body.Some? && r.body.value != map[] && 1 <= |r.id| <= 64 ==>
                if fault then State() == old(State()) && status == ServerError
                else Transacted(old(State()), State(), status, Key(DataPlane, r.id), r.body.value - {""}, UnitRate, now)
    {
      if r.body.None? || r.id == "" || r.body.value == map[] {
        return BadRequest;
      }
      if |r.id| > MAX_SYNC_ID_LENGTH {
        return BadRequest;
      }
      status := Transact(Key(DataPlane, r.id), r.body.value - {""}, UnitRate, now, fault);
    }

    method HandleNodeSync(node: nat, rate: Rate, r: Report, now: nat, trouble: Trouble) returns (status: Status)
      modifies this
      ensures (State(), status) == HandleNodeSyncSpec(old(State()), node, rate, r, now, trouble)
      ensures r.body.None? || r.body.value == map[] ==>
                State() == old(State()) && status == if trouble == InListing then ServerError else Ok
      ensures r.body.Some? && r.body.value != map[] && !(1 <= |r.id| <= 64) ==> State() == old(State()) && status == BadRequest
      ensures r.body.Some? && r.body.value != map[] && 1 <= |r.id| <= 64 ==>
                if trouble == InTransaction then State() == old(State()) && status == ServerError
                else exists s :: Transacted(old(State()), State(), s, Key(Node(node), r.id), r.body.value, rate, now)
                                 && status == if s == Ok && trouble == InListing then ServerError else s
    {
      if r.body.Some? && r.body.value != map[] {
        if r.id == "" {
          return BadRequest;
        }
        if |r.id| > MAX_SYNC_ID_LENGTH {
          return BadRequest;
        }
        status := Transact(Key(Node(node), r.id), r.body.value, rate, now, trouble == InTransaction);
        assert trouble != InTransaction ==> Transacted(old(State()), State(), status, Key(Node(node), r.id), r.body.value, rate, now);
        if status != Ok {
          return;
        }
      }
      status := if trouble == InListing then ServerError else Ok;
    }
  }
}
