/**
 What the master answers and what that does for a sender: when nothing goes
 wrong bytes do get into their rows, and whatever got lost on the way back, a
 sender can always get rid of a batch that was booked.
 */
module AccountingProgress {
  import opened Basics
  import opened TrafficValues
  import opened SenderProtocol
  import opened SenderEffects
  import opened MasterDatabase
  import opened Accounting
  import opened AccountingProofs

  // ----- What the master answers -----

  /** What a request is charged for: the local data plane's reports are taken without an empty hash. */
  function Charged(w: World, r: Request): Batch
    requires r.origin < |w.channels|
  {
    if w.channels[r.origin] == DataPlane then r.traffic - {""} else r.traffic
  }

  /** The local data plane is charged at rate 1, a node at its own rate. */
  function RateFor(w: World, r: Request, rate: Rate): Rate
    requires r.origin < |w.channels|
  {
    if w.channels[r.origin] == DataPlane then UnitRate else rate
  }

  ghost predicate RoomHere(w: World, r: Request, rate: Rate)
    requires r.origin < |w.channels|
  {
    Room(w.db.rows, Charged(w, r), RateFor(w, r, rate))
  }

  /** The answer to a request when nothing goes wrong, and what it leaves in the database. */
  lemma Answer(w: World, r: Request, rate: Rate)
    requires r.origin < |w.channels| && |r.id| == 32 && r.traffic != map[]
    ensures var (db, status) := Handle(w, r, rate, NoTrouble);
            Transacted(w.db, db, status, RequestKey(w, r), Charged(w, r), RateFor(w, r, rate), w.clock)
  {
    PostTransacts(w.db, RequestKey(w, r), Charged(w, r), RateFor(w, r, rate), w.clock);
  }

  /** Within the retention period exactly the booked keys have receipts. */
  lemma BookedIsReceipted(w: World, r: Request, rate: Rate)
    requires Inv(w) && Possible(w, Deliver(r, rate, NoTrouble))
    ensures |r.id| == 32 && r.traffic != map[]
    ensures RequestKey(w, r) in w.db.receipts <==> r.id in w.settledAt
  {
    assert w.frozen[r.id] == r;
  }

  /** A request delivered again once its batch is booked is answered with success and changes nothing else, whatever the rate is by now. */
  lemma RepeatIsAnswered(w: World, r: Request, rate: Rate)
    requires Inv(w) && Possible(w, Deliver(r, rate, NoTrouble)) && r.id in w.settledAt
    ensures After(w, Deliver(r, rate, NoTrouble)) == w.(acks := w.acks + {r.id})
  {
    BookedIsReceipted(w, r, rate);
    Answer(w, r, rate);
  }

  /**
   A first delivery is answered with success exactly when the rows can take it.
   It then books exactly its bytes and charges, and leaves a receipt. Otherwise
   it changes nothing.
   */
  lemma FirstIsAnsweredIff(w: World, r: Request, rate: Rate)
    requires Inv(w) && Possible(w, Deliver(r, rate, NoTrouble)) && r.id !in w.settledAt
    ensures var v := After(w, Deliver(r, rate, NoTrouble));
            if RoomHere(w, r, rate) then
              && v.acks == w.acks + {r.id} && v.settledAt == w.settledAt[r.id := w.clock]
              && v.db.receipts == w.db.receipts[RequestKey(w, r) := w.clock]
              && Added(w.db.rows, v.db.rows, Charged(w, r), RateFor(w, r, rate))
            else
              v == w && r.id !in v.acks
  {
    BookedIsReceipted(w, r, rate);
    Answer(w, r, rate);
  }

  lemma TroubleAnswer(w: World, r: Request, rate: Rate)
    requires r.origin < |w.channels| && |r.id| == 32 && r.traffic != map[]
    ensures Handle(w, r, rate, InTransaction) == (w.db, ServerError)
    ensures w.channels[r.origin].Node? ==> var (db, status) := Handle(w, r, rate, InListing);
              db == Handle(w, r, rate, NoTrouble).0 && status != Ok
  {
  }

  /** Trouble in the transaction leaves no trace; trouble behind it keeps what was booked, and only the answer is lost. */
  lemma TroubleIsNotAnswered(w: World, r: Request, rate: Rate)
    requires Inv(w) && Possible(w, Deliver(r, rate, NoTrouble))
    ensures After(w, Deliver(r, rate, InTransaction)) == w
    ensures w.channels[r.origin].Node? ==>
              var u, v := After(w, Deliver(r, rate, NoTrouble)), After(w, Deliver(r, rate, InListing));
              v.db == u.db && v.settledAt == u.settledAt && v.acks == w.acks
  {
    BookedIsReceipted(w, r, rate);
    TroubleAnswer(w, r, rate);
  }

  // ----- What that means to a sender -----

  /** An event of one sender, as the others and the master see it. */
  lemma LocalShows(w: World, i: nat, e: Event)
    requires Shape(w) && Possible(w, Local(i, e))
    ensures var v := After(w, Local(i, e));
            && v.senders == w.senders[i := Next(w.senders[i], e)]
            && v.channels == w.channels && v.db == w.db && v.acks == w.acks && v.settledAt == w.settledAt && v.clock == w.clock
            && v.frozen.Keys == w.frozen.Keys + if e.Freeze? then {e.id} else {}
  {
  }

  /** The request a sender would send now. */
  function Outgoing(w: World, i: nat): Request
    requires i < |w.senders| && w.senders[i].memory.Loaded? && w.senders[i].memory.state.pending.Some?
  {
    var p := w.senders[i].memory.state.pending.value;
    Request(i, p.id, p.traffic)
  }

  /** The sender has sent its batch, and the master has booked it lately or can still take it. */
  ghost predicate CanGo(w: World, i: nat, rate: Rate) {
    && i < |w.senders| == |w.channels| && Sound(w.senders[i]) && w.senders[i].memory.Loaded? && w.senders[i].memory.state.pending.Some?
    && var r := Outgoing(w, i);
       && r in w.net
       && if r.id in w.settledAt then w.clock <= w.settledAt[r.id] + RETENTION else RoomHere(w, r, rate)
  }

  /** The rows after such a batch was booked, now or earlier. */
  ghost predicate Taken(w: World, v: World, r: Request, rate: Rate)
    requires r.origin < |w.channels|
  {
    if r.id in w.settledAt then v.db == w.db
    else RoomHere(w, r, rate) && Added(w.db.rows, v.db.rows, Charged(w, r), RateFor(w, r, rate))
  }

  lemma BatchIsAnswered(w: World, i: nat, rate: Rate)
    requires Inv(w) && CanGo(w, i, rate)
    ensures var r := Outgoing(w, i); var deliver := Deliver(r, rate, NoTrouble);
            && Possible(w, deliver)
            && var u := After(w, deliver);
               u.senders == w.senders && |u.accounts| == |w.accounts| && r.id in u.acks && r.id in u.settledAt && Taken(w, u, r, rate)
  {
    var r := Outgoing(w, i);
    if r.id in w.settledAt {
      RepeatIsAnswered(w, r, rate);
    } else {
      FirstIsAnsweredIff(w, r, rate);
    }
  }

  /** Such a batch is booked and acknowledged by one delivery, however often it was sent or answered before. */
  lemma BatchGoes(w: World, i: nat, rate: Rate) returns (v: World)
    requires Inv(w) && CanGo(w, i, rate)
    ensures WorldRun(w, [Deliver(Outgoing(w, i), rate, NoTrouble), Local(i, Acknowledge(NoFault))], v)
    ensures |v.senders| == |w.senders| && v.senders[i].counters == w.senders[i].counters
    ensures v.senders[i].disk == Durable(None, w.senders[i].memory.state.queued) && v.senders[i].memory == Loaded(v.senders[i].disk)
    ensures Outgoing(w, i).id in v.settledAt && Taken(w, v, Outgoing(w, i), rate)
  {
    var deliver, acknowledge := Deliver(Outgoing(w, i), rate, NoTrouble), Local(i, Acknowledge(NoFault));
    BatchIsAnswered(w, i, rate);
    var u := After(w, deliver);
    assert Shape(u) && Possible(u, acknowledge);
    LocalShows(u, i, Acknowledge(NoFault));
    AcknowledgeForgets(u.senders[i]);
    v := After(u, acknowledge);
    assert [deliver, acknowledge][1..] == [acknowledge] && [acknowledge][1..] == [];
  }

  // ----- The whole way -----

  /** The queue with one counter's bytes in it: what the proxy received is the client's upload. */
  function Gathered(s: Sender, k: nat, h: string): Batch
    requires HasUser(s, k, h) && s.memory.Loaded?
  {
    var c, was := s.counters[k][h], s.memory.state.queued;
    was[h := Traffic(c.recv + (if h in was then was[h].up else 0), c.sent + (if h in was then was[h].down else 0))]
  }

  /** Nothing is pending, and there are bytes to report that can be queued. */
  predicate ReadyToReport(s: Sender, k: nat, h: string) {
    && Sound(s) && Enabled(s, Checkpoint(k, h, NoFault)) && s.memory.state.pending.None? && !Unqueueable(s, k, h)
  }

  /** Checkpoint and freeze: the counter's bytes are in a batch, in memory and on disk. */
  lemma BytesAreFrozen(s: Sender, k: nat, h: string, id: string)
    requires ReadyToReport(s, k, h) && id != ""
    ensures var m := Next(s, Checkpoint(k, h, NoFault));
            && Enabled(m, Freeze(id, NoFault)) && m.memory.state.queued == Gathered(s, k, h)
            && var t := Next(m, Freeze(id, NoFault)); var held := Durable(Some(Frozen(id, Gathered(s, k, h))), map[]);
               t == Sender(s.counters[k := s.counters[k][h := Counter(0, 0)]], Loaded(held), held) && Sound(t)
  {
    CheckpointMovesIff(s, k, h);
    var m := Next(s, Checkpoint(k, h, NoFault));
    SoundStep(s, Checkpoint(k, h, NoFault));
    assert m.memory.state.queued == Gathered(s, k, h);
    FreezeTakesQueue(m, id);
    SoundStep(m, Freeze(id, NoFault));
  }

  /** The sender holds exactly this batch, with the counter started again. */
  predicate Holding(s: Sender, t: Sender, k: nat, h: string, id: string)
    requires HasUser(s, k, h) && s.memory.Loaded?
  {
    var held := Durable(Some(Frozen(id, Gathered(s, k, h))), map[]);
    t == Sender(s.counters[k := s.counters[k][h := Counter(0, 0)]], Loaded(held), held)
  }

  function Reporting(i: nat, k: nat, h: string, id: string): seq<Step> {
    [Local(i, Checkpoint(k, h, NoFault)), Local(i, Freeze(id, NoFault)), Local(i, Send)]
  }

  /** The same in the system, up to the request on the network. */
  lemma BytesAreSent(w: World, i: nat, k: nat, h: string, id: string) returns (v: World)
    requires Shape(w) && i < |w.senders| && ReadyToReport(w.senders[i], k, h) && id !in w.frozen && |id| == 32
    ensures WorldRun(w, Reporting(i, k, h, id), v)
    ensures |v.senders| == |w.senders| && Holding(w.senders[i], v.senders[i], k, h, id) && Sound(v.senders[i])
    ensures Request(i, id, Gathered(w.senders[i], k, h)) in v.net
    ensures v.channels == w.channels && v.db == w.db && v.settledAt == w.settledAt && v.clock == w.clock
  {
    var s, checkpoint, freeze := w.senders[i], Checkpoint(k, h, NoFault), Freeze(id, NoFault);
    BytesAreFrozen(s, k, h, id);
    LocalShows(w, i, checkpoint);
    var a := After(w, Local(i, checkpoint));
    LocalShows(a, i, freeze);
    var b := After(a, Local(i, freeze));
    LocalShows(b, i, Send);
    v := After(b, Local(i, Send));
    var steps := Reporting(i, k, h, id);
    assert steps[1..] == [Local(i, freeze), Local(i, Send)] && steps[1..][1..] == [Local(i, Send)] && [Local(i, Send)][1..] == [];
    assert WorldRun(b, steps[1..][1..], v) && WorldRun(a, steps[1..], v);
  }

  lemma NewKeyIsUnbooked(w: World, id: string)
    requires Inv(w) && id !in w.frozen
    ensures id !in w.settledAt
  {
  }

  lemma SentCanGo(w: World, v: World, i: nat, k: nat, h: string, id: string, rate: Rate)
    requires Shape(w) && Shape(v) && i < |w.senders| == |v.senders| && ReadyToReport(w.senders[i], k, h) && id !in w.settledAt
    requires Holding(w.senders[i], v.senders[i], k, h, id) && Sound(v.senders[i])
    requires Request(i, id, Gathered(w.senders[i], k, h)) in v.net
    requires v.channels == w.channels && v.db == w.db && v.settledAt == w.settledAt
    requires RoomHere(w, Request(i, id, Gathered(w.senders[i], k, h)), rate)
    ensures CanGo(v, i, rate) && Outgoing(v, i) == Request(i, id, Gathered(w.senders[i], k, h))
  {
  }

  /**
   When nothing goes wrong, what a counter holds gets into its user's row:
   checkpointed, frozen, sent, delivered and acknowledged, it leaves the sender
   empty-handed and every row longer by exactly what was counted and queued.
   */
  lemma CountedBytesArrive(w: World, i: nat, k: nat, h: string, id: string, rate: Rate) returns (v: World)
    requires Inv(w) && i < |w.senders| && ReadyToReport(w.senders[i], k, h) && id !in w.frozen && |id| == 32
    requires RoomHere(w, Request(i, id, Gathered(w.senders[i], k, h)), rate)
    ensures var r := Request(i, id, Gathered(w.senders[i], k, h));
            && WorldRun(w, Reporting(i, k, h, id) + [Deliver(r, rate, NoTrouble), Local(i, Acknowledge(NoFault))], v)
            && Added(w.db.rows, v.db.rows, Charged(w, r), RateFor(w, r, rate))
    ensures i < |v.senders| && v.senders[i] == Sender(w.senders[i].counters[k := w.senders[i].counters[k][h := Counter(0, 0)]],
                                                      Loaded(Durable(None, map[])), Durable(None, map[]))
  {
    var u := BytesAreSent(w, i, k, h, id);
    RunKeepsInv(w, Reporting(i, k, h, id), u);
    NewKeyIsUnbooked(w, id);
    SentCanGo(w, u, i, k, h, id, rate);
    v := BatchGoes(u, i, rate);
    WorldRunConcat(w, Reporting(i, k, h, id), u, [Deliver(Outgoing(u, i), rate, NoTrouble), Local(i, Acknowledge(NoFault))], v);
  }

  /** The monthly reset leaves every user, with nothing used. */
  lemma ResetClearsRows(w: World)
    ensures var rows := After(w, MonthlyReset).db.rows;
            rows.Keys == w.db.rows.Keys && forall h :: h in rows ==> rows[h] == Row(0, 0, 0)
  {
  }
}
