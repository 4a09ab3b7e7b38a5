/** The traces of the reporter and of the sync manager are part of runs of the whole accounting system. */
module AccountingLift {
  import opened Basics
  import opened DataPlaneReporter
  import opened NodeSync
  import opened TrafficValues
  import opened SenderProtocol
  import opened SenderEffects
  import opened MasterDatabase
  import opened Accounting
  import opened AccountingProofs
  import opened AccountingTheorems
  import opened AccountingProgress

  function Lifted(i: nat, es: seq<Event>): seq<Step> {
    if es == [] then [] else [Local(i, es[0])] + Lifted(i, es[1..])
  }

  /** Every key that a trace draws is new and has 32 digits. */
  predicate FreshKeys(used: set<string>, es: seq<Event>)
    decreases |es|
  {
    es != [] ==>
      && (es[0].Freeze? ==> es[0].id !in used && |es[0].id| == 32)
      && FreshKeys(if es[0].Freeze? then used + {es[0].id} else used, es[1..])
  }

  predicate NoAcknowledge(es: seq<Event>) {
    forall k :: 0 <= k < |es| ==> !es[k].Acknowledge?
  }

  lemma LocalEffect(w: World, i: nat, e: Event)
    requires Shape(w) && Possible(w, Local(i, e))
    ensures var v := After(w, Local(i, e));
            && Shape(v) && i < |v.senders| && v.senders[i] == Next(w.senders[i], e) && v.acks == w.acks && v.db == w.db
            && v.frozen.Keys == if e.Freeze? then w.frozen.Keys + {e.id} else w.frozen.Keys
  {
  }

  /** A sender's trace without acknowledgements happens in the whole system just as it does alone. */
  lemma {:induction false} TraceLifts(w: World, i: nat, es: seq<Event>, t: Sender) returns (v: World)
    requires Shape(w) && i < |w.senders| && Runs(w.senders[i], es, t) && FreshKeys(w.frozen.Keys, es) && NoAcknowledge(es)
    ensures WorldRun(w, Lifted(i, es), v) && Shape(v) && i < |v.senders| && v.senders[i] == t && v.acks == w.acks && v.db == w.db
    decreases |es|
  {
    if es == [] {
      v := w;
    } else {
      LocalEffect(w, i, es[0]);
      v := TraceLifts(After(w, Local(i, es[0])), i, es[1..], t);
      assert Lifted(i, es)[1..] == Lifted(i, es[1..]);
    }
  }

  /** The master can be reached with the batch and answers success. */
  predicate Answers(w: World, i: nat, rate: Rate)
    requires i < |w.senders| && w.senders[i].memory.Loaded? && w.senders[i].memory.state.pending.Some?
  {
    var r := Outgoing(w, i);
    Possible(w, Deliver(r, rate, NoTrouble)) && Handle(w, r, rate, NoTrouble).1 == Ok
  }

  lemma AnswerLifts(w: World, i: nat, rate: Rate, fault: Fault) returns (v: World)
    requires Shape(w) && i < |w.senders| && Enabled(w.senders[i], Acknowledge(fault)) && Answers(w, i, rate)
    ensures WorldRun(w, [Deliver(Outgoing(w, i), rate, NoTrouble), Local(i, Acknowledge(fault))], v)
    ensures Shape(v) && i < |v.senders| && v.senders[i] == Next(w.senders[i], Acknowledge(fault))
  {
    var deliver, acknowledge := Deliver(Outgoing(w, i), rate, NoTrouble), Local(i, Acknowledge(fault));
    var m := After(w, deliver);
    assert m.senders == w.senders && Shape(m) && Possible(m, acknowledge);
    v := After(m, acknowledge);
    LocalEffect(m, i, Acknowledge(fault));
    assert [deliver, acknowledge][1..] == [acknowledge] && [acknowledge][1..] == [];
  }

  /**
   What a trace of the code leaves behind is a reachable state of the whole
   system, whatever ran before, so that the books balance there.
   */
  lemma TraceConserves(start: World, before: seq<Step>, w: World, i: nat, es: seq<Event>, t: Sender, h: string, d: Direction)
    returns (v: World)
    requires Reached(start, before, w) && i < |w.senders|
    requires Runs(w.senders[i], es, t) && FreshKeys(w.frozen.Keys, es) && NoAcknowledge(es)
    ensures Reached(start, before + Lifted(i, es), v) && i < |v.senders| == |v.accounts| && v.senders[i] == t
    ensures v.accounts[i].generated(h, d) ==
            InCounters(t, h, d) + Held(View(t), Booked(v), h, d) + v.accounts[i].settled(h, d) + v.accounts[i].dropped(h, d)
  {
    InitialInv(start);
    RunKeepsInv(start, before, w);
    v := TraceLifts(w, i, es, t);
    WorldRunConcat(start, before, w, Lifted(i, es), v);
    Conservation(start, before + Lifted(i, es), v, i, h, d);
  }

  /** The same for a round that the master answered: the answer is a delivery, and the acknowledgement follows it. */
  lemma AnswerConserves(start: World, before: seq<Step>, w: World, i: nat, rate: Rate, fault: Fault, h: string, d: Direction)
    returns (steps: seq<Step>, v: World)
    requires Reached(start, before, w) && i < |w.senders|
    requires Enabled(w.senders[i], Acknowledge(fault)) && Answers(w, i, rate)
    ensures Reached(start, before + steps, v) && i < |v.senders| == |v.accounts|
    ensures v.senders[i] == Next(w.senders[i], Acknowledge(fault))
    ensures v.accounts[i].generated(h, d) ==
            InCounters(v.senders[i], h, d) + Held(View(v.senders[i]), Booked(v), h, d)
            + v.accounts[i].settled(h, d) + v.accounts[i].dropped(h, d)
  {
    InitialInv(start);
    RunKeepsInv(start, before, w);
    steps := [Deliver(Outgoing(w, i), rate, NoTrouble), Local(i, Acknowledge(fault))];
    v := AnswerLifts(w, i, rate, fault);
    WorldRunConcat(start, before, w, steps, v);
    Conservation(start, before + steps, v, i, h, d);
  }

  // ----- Whole rounds, as the reporter and the sync manager return them -----

  /** The world after these steps. */
  ghost function Played(w: World, es: seq<Step>): World
    decreases |es|
  {
    if es == [] || !Possible(w, es[0]) then w else Played(After(w, es[0]), es[1..])
  }

  lemma {:induction false} RunIsPlayed(w: World, es: seq<Step>, v: World)
    requires WorldRun(w, es, v)
    ensures v == Played(w, es)
    decreases |es|
  {
    if es != [] {
      RunIsPlayed(After(w, es[0]), es[1..], v);
    }
  }

  lemma {:induction false} RunsSplit(s: Sender, xs: seq<Event>, ys: seq<Event>, t: Sender) returns (m: Sender)
    requires Runs(s, xs + ys, t)
    ensures Runs(s, xs, m) && Runs(m, ys, t)
    decreases |xs|
  {
    if xs == [] {
      assert xs + ys == ys;
      m := s;
    } else {
      assert (xs + ys)[0] == xs[0] && (xs + ys)[1..] == xs[1..] + ys;
      m := RunsSplit(Next(s, xs[0]), xs[1..], ys, t);
    }
  }

  predicate NoFreeze(es: seq<Event>) {
    forall k :: 0 <= k < |es| ==> !es[k].Freeze?
  }

  lemma {:induction false} FreshAfter(used: set<string>, xs: seq<Event>, ys: seq<Event>)
    requires NoFreeze(xs) && FreshKeys(used, ys)
    ensures FreshKeys(used, xs + ys)
    decreases |xs|
  {
    if xs == [] {
      assert xs + ys == ys;
    } else {
      assert (xs + ys)[0] == xs[0] && (xs + ys)[1..] == xs[1..] + ys;
      FreshAfter(used, xs[1..], ys);
    }
  }

  predicate NewKey(w: World, syncId: Option<string>) {
    syncId.Some? ==> syncId.value !in w.frozen && |syncId.value| == 32
  }

  lemma {:induction false} FreshSnoc(used: set<string>, es: seq<Event>, e: Event)
    requires FreshKeys(used, es) && (e.Freeze? ==> NoFreeze(es) && e.id !in used && |e.id| == 32)
    ensures FreshKeys(used, es + [e])
    decreases |es|
  {
    if es == [] {
      assert ([] + [e])[1..] == [];
    } else {
      assert (es + [e])[0] == es[0] && (es + [e])[1..] == es[1..] + [e];
      FreshSnoc(if es[0].Freeze? then used + {es[0].id} else used, es[1..], e);
    }
  }

  /** Before its acknowledgement an exchange draws at most the one key. */
  lemma {:induction false} ExchangeIsFresh(used: set<string>, es: seq<Event>, syncId: Option<string>, answered: bool)
    requires 0 <= Progress(es, syncId, answered) < 3 && (syncId.Some? ==> syncId.value !in used && |syncId.value| == 32)
    ensures NoAcknowledge(es) && FreshKeys(used, es) && (Progress(es, syncId, answered) == 0 ==> NoFreeze(es))
    decreases |es|
  {
    if es != [] {
      var front, last := es[..|es| - 1], es[|es| - 1];
      ExchangeIsFresh(used, front, syncId, answered);
      assert es == front + [last];
      FreshSnoc(used, front, last);
    }
  }

  /** If the round ends in an acknowledgement, the master did answer what was sent. */
  ghost predicate Answered(w: World, i: nat, collected: seq<Event>, exchange: seq<Event>, rate: Rate) {
    EndsAcknowledged(exchange) ==>
      var u := Played(w, Lifted(i, collected + exchange[..|exchange| - 1]));
      && i < |u.senders| && u.senders[i].memory.Loaded? && u.senders[i].memory.state.pending.Some? && Answers(u, i, rate)
  }

  /** An exchange up to the acknowledgement, if there is one. */
  function BeforeAnswer(exchange: seq<Event>): seq<Event> {
    if EndsAcknowledged(exchange) then exchange[..|exchange| - 1] else exchange
  }

  lemma RoundIsFresh(used: set<string>, collected: seq<Event>, exchange: seq<Event>, syncId: Option<string>, answered: bool)
    requires Collects(collected) && Exchange(exchange, syncId, answered)
    requires syncId.Some? ==> syncId.value !in used && |syncId.value| == 32
    ensures var events := collected + BeforeAnswer(exchange); NoAcknowledge(events) && FreshKeys(used, events)
  {
    var first := BeforeAnswer(exchange);
    ExchangeIsFresh(used, first, syncId, answered);
    FreshAfter(used, collected, first);
  }

  /** Everything up to the acknowledgement happens in the system. */
  lemma UpToAnswer(w: World, i: nat, events: seq<Event>, m: Sender) returns (u: World)
    requires Shape(w) && i < |w.senders| && NoAcknowledge(events) && FreshKeys(w.frozen.Keys, events) && Runs(w.senders[i], events, m)
    ensures WorldRun(w, Lifted(i, events), u) && u == Played(w, Lifted(i, events))
    ensures Shape(u) && i < |u.senders| && u.senders[i] == m
  {
    u := TraceLifts(w, i, events, m);
    RunIsPlayed(w, Lifted(i, events), u);
  }

  /** The acknowledgement, behind the delivery it answers. */
  lemma AnswerToRound(u: World, i: nat, exchange: seq<Event>, rate: Rate, n: Sender) returns (steps: seq<Step>, v: World)
    requires Shape(u) && i < |u.senders|
    requires if EndsAcknowledged(exchange) then Runs(u.senders[i], [exchange[|exchange| - 1]], n) else n == u.senders[i]
    requires EndsAcknowledged(exchange) ==> u.senders[i].memory.Loaded? && u.senders[i].memory.state.pending.Some? && Answers(u, i, rate)
    ensures WorldRun(u, steps, v) && Shape(v) && i < |v.senders| && v.senders[i] == n
  {
    if EndsAcknowledged(exchange) {
      var fault := exchange[|exchange| - 1].fault;
      assert [exchange[|exchange| - 1]][1..] == [];
      v := AnswerLifts(u, i, rate, fault);
      steps := [Deliver(Outgoing(u, i), rate, NoTrouble), Local(i, Acknowledge(fault))];
    } else {
      steps, v := [], u;
    }
  }

  /**
   A whole round of the code, acknowledgement and user updates included, started
   in any reachable state: what it leaves behind is reachable, and the books
   balance there.
   */
  lemma RoundConserves(start: World, before: seq<Step>, w: World, i: nat, collected: seq<Event>, exchange: seq<Event>,
                       updates: seq<Event>, t: Sender, syncId: Option<string>, answered: bool, rate: Rate, h: string, d: Direction)
    returns (steps: seq<Step>, v: World)
    requires Reached(start, before, w) && i < |w.senders| && Runs(w.senders[i], collected + exchange + updates, t)
    requires Collects(collected) && Exchange(exchange, syncId, answered) && AllUserEvents(updates)
    requires NewKey(w, syncId) && Answered(w, i, collected, exchange, rate)
    ensures Reached(start, before + steps, v) && i < |v.senders| == |v.accounts| && v.senders[i] == t
    ensures v.accounts[i].generated(h, d) ==
            InCounters(t, h, d) + Held(View(t), Booked(v), h, d) + v.accounts[i].settled(h, d) + v.accounts[i].dropped(h, d)
  {
    InitialInv(start);
    RunKeepsInv(start, before, w);
    steps, v := RoundLifts(w, i, collected, exchange, updates, t, syncId, answered, rate);
    WorldRunConcat(start, before, w, steps, v);
    Conservation(start, before + steps, v, i, h, d);
  }

  lemma RoundLifts(w: World, i: nat, collected: seq<Event>, exchange: seq<Event>, updates: seq<Event>, t: Sender,
                   syncId: Option<string>, answered: bool, rate: Rate) returns (steps: seq<Step>, v: World)
    requires Shape(w) && i < |w.senders| && Runs(w.senders[i], collected + exchange + updates, t)
    requires Collects(collected) && Exchange(exchange, syncId, answered) && AllUserEvents(updates)
    requires NewKey(w, syncId) && Answered(w, i, collected, exchange, rate)
    ensures WorldRun(w, steps, v) && Shape(v) && i < |v.senders| && v.senders[i] == t
  {
    var n := RunsSplit(w.senders[i], collected + exchange, updates, t);
    var first := BeforeAnswer(exchange);
    var m := n;
    if EndsAcknowledged(exchange) {
      assert collected + exchange == (collected + first) + [exchange[|exchange| - 1]];
      m := RunsSplit(w.senders[i], collected + first, [exchange[|exchange| - 1]], n);
    }
    RoundIsFresh(w.frozen.Keys, collected, exchange, syncId, answered);
    var u := UpToAnswer(w, i, collected + first, m);
    var middle, x := AnswerToRound(u, i, exchange, rate, n);
    FreshAfter(x.frozen.Keys, updates, []);
    assert updates + [] == updates;
    v := TraceLifts(x, i, updates, t);
    WorldRunConcat(w, Lifted(i, collected + first), u, middle, x);
    WorldRunConcat(w, Lifted(i, collected + first) + middle, x, Lifted(i, updates), v);
    steps := Lifted(i, collected + first) + middle + Lifted(i, updates);
  }

  // ----- Others at work during the round -----

  /** The events of one sender in a run of the system. */
  function Own(steps: seq<Step>, i: nat): seq<Event> {
    if steps == [] then []
    else (if steps[0].Local? && steps[0].i == i then [steps[0].event] else []) + Own(steps[1..], i)
  }

  lemma StepOfSender(w: World, e: Step, i: nat)
    requires Shape(w) && Possible(w, e) && i < |w.senders|
    ensures Shape(After(w, e)) && |After(w, e).senders| == |w.senders|
    ensures if e.Local? && e.i == i then Enabled(w.senders[i], e.event) && After(w, e).senders[i] == Next(w.senders[i], e.event)
            else After(w, e).senders[i] == w.senders[i]
  {
  }

  /** Whatever the others do, a run of the system is to each sender a run of the protocol. */
  lemma {:induction false} OwnRuns(w: World, steps: seq<Step>, v: World, i: nat)
    requires Shape(w) && WorldRun(w, steps, v) && i < |w.senders|
    ensures |v.senders| == |w.senders| && Runs(w.senders[i], Own(steps, i), v.senders[i])
    decreases |steps|
  {
    if steps != [] {
      StepOfSender(w, steps[0], i);
      OwnRuns(After(w, steps[0]), steps[1..], v, i);
      if steps[0].Local? && steps[0].i == i {
        assert Own(steps, i)[1..] == Own(steps[1..], i);
      } else {
        assert Own(steps, i) == Own(steps[1..], i);
      }
    }
  }

  lemma {:induction false} RunsTo(s: Sender, es: seq<Event>, t: Sender, u: Sender)
    requires Runs(s, es, t) && Runs(s, es, u)
    ensures t == u
    decreases |es|
  {
    if es != [] {
      RunsTo(Next(s, es[0]), es[1..], t, u);
    }
  }

  /**
   A round among others: in every run of the system from a reachable state in
   which one sender does just the events of its round, and the others, the
   network and the master do whatever they like in between, the sender ends where
   its code left it, and the books balance there.
   */
  lemma RoundAmongOthers(start: World, before: seq<Step>, w: World, i: nat, steps: seq<Step>, v: World, t: Sender, h: string, d: Direction)
    requires Reached(start, before, w) && Shape(w) && i < |w.senders| && WorldRun(w, steps, v) && Runs(w.senders[i], Own(steps, i), t)
    ensures Reached(start, before + steps, v) && i < |v.senders| == |v.accounts| && v.senders[i] == t
    ensures v.accounts[i].generated(h, d) ==
            InCounters(t, h, d) + Held(View(t), Booked(v), h, d) + v.accounts[i].settled(h, d) + v.accounts[i].dropped(h, d)
  {
    OwnRuns(w, steps, v, i);
    RunsTo(w.senders[i], Own(steps, i), t, v.senders[i]);
    WorldRunConcat(start, before, w, steps, v);
    InitialInv(start);
    RunKeepsInv(start, before + steps, v);
    Conservation(start, before + steps, v, i, h, d);
  }

  /** And there are such runs: no step of another takes away what a sender can do next, unless it draws the same key. */
  lemma Undisturbed(w: World, e: Step, i: nat, own: Event)
    requires Shape(w) && Possible(w, e) && Possible(w, Local(i, own)) && !(e.Local? && e.i == i)
    requires own.Freeze? && e.Local? && e.event.Freeze? ==> e.event.id != own.id
    ensures Possible(After(w, e), Local(i, own)) && After(w, e).senders[i] == w.senders[i]
  {
    StepOfSender(w, e, i);
  }
}
