/**
 The sending half of the traffic protocol, shared by the standalone data plane
 and the worker node: runtime counters, the queued and frozen batches in memory,
 and the outbox file that both are checkpointed to. Every event is one atomic
 action of the process; a crash may fall between any two of them.
 */
module SenderProtocol {
  import opened Basics
  import opened TrafficValues

  /** A batch with its idempotency key; it never changes once made. */
  datatype Frozen = Frozen(id: string, traffic: Batch)

  /** What memory holds while running and what the outbox file holds on disk. */
  datatype Durable = Durable(pending: Option<Frozen>, queued: Batch)

  /** A runtime counter, from the proxy's point of view. */
  datatype Counter = Counter(sent: nat, recv: nat)

  datatype Memory =
    | Stopped                  // no process
    | Unavailable              // running, but the outbox could not be loaded
    | Loaded(state: Durable)

  datatype Sender = Sender(counters: seq<map<string, Counter>>, memory: Memory, disk: Durable)

  /** How a save ends: durable, failed before the rename, or failed after it. */
  datatype Fault = NoFault | BeforeRename | AfterRename

  datatype Event =
    | Attach
    | AddUser(auth: nat, hash: string)
    | DelUser(auth: nat, hash: string)
    | AddTraffic(auth: nat, hash: string, sent: nat, recv: nat)
    | Checkpoint(auth: nat, hash: string, fault: Fault)
    | Freeze(id: string, fault: Fault)
    | Send
    | Acknowledge(fault: Fault)
    | Crash
    | Load(readable: bool)

  predicate WellFormedBatch(b: Batch) {
    forall h :: h in b ==> h != "" && b[h] != Traffic(0, 0)
  }

  /** The states an outbox file accepts. */
  predicate WellFormed(s: Durable) {
    && (s.pending.Some? ==> s.pending.value.id != "" && s.pending.value.traffic != map[] && WellFormedBatch(s.pending.value.traffic))
    && WellFormedBatch(s.queued)
  }

  /** The outbox file after a save, and whether the save reported success. */
  function Persist(disk: Durable, next: Durable, fault: Fault): (Durable, bool) {
    if !WellFormed(next) || fault == BeforeRename then (disk, false)
    else (next, fault == NoFault)
  }

  function Queued(s: Durable, h: string): Traffic {
    if h in s.queued then s.queued[h] else Traffic(0, 0)
  }

  predicate Overflows(s: Durable, h: string, c: Counter) {
    Queued(s, h).up > UINT64_MAX - c.recv || Queued(s, h).down > UINT64_MAX - c.sent
  }

  function WithCounter(s: Durable, h: string, c: Counter): Durable {
    s.(queued := s.queued[h := Traffic(Queued(s, h).up + c.recv, Queued(s, h).down + c.sent)])
  }

  predicate Running(s: Sender) {
    !s.memory.Stopped?
  }

  predicate HasUser(s: Sender, k: nat, h: string) {
    Running(s) && k < |s.counters| && h in s.counters[k]
  }

  predicate Enabled(s: Sender, e: Event) {
    match e
    case Attach => Running(s)
    case AddUser(k, h) => Running(s) && k < |s.counters| && h !in s.counters[k]
    case DelUser(k, h) => HasUser(s, k, h)
    case AddTraffic(k, h, sent, recv) =>
      HasUser(s, k, h) && s.counters[k][h].sent + sent <= UINT64_MAX && s.counters[k][h].recv + recv <= UINT64_MAX
    case Checkpoint(k, h, _) => HasUser(s, k, h) && s.memory.Loaded? && s.counters[k][h] != Counter(0, 0)
    case Freeze(id, _) => s.memory.Loaded? && s.memory.state.pending.None? && s.memory.state.queued != map[]
    case Send => s.memory.Loaded? && s.memory.state.pending.Some?
    case Acknowledge(_) => s.memory.Loaded? && s.memory.state.pending.Some?
    case Crash => Running(s)
    case Load(_) => s.memory.Stopped?
  }

  function SetCounter(s: Sender, k: nat, h: string, c: Counter): Sender
    requires k < |s.counters|
  {
    s.(counters := s.counters[k := s.counters[k][h := c]])
  }

  /** A save of a tentative state: memory adopts it only when the save succeeds. */
  function Save(s: Sender, next: Durable, fault: Fault): Sender {
    var (disk, ok) := Persist(s.disk, next, fault);
    if ok then s.(disk := disk, memory := Loaded(next)) else s.(disk := disk)
  }

  function NextCheckpoint(s: Sender, k: nat, h: string, fault: Fault): Sender
    requires Enabled(s, Checkpoint(k, h, fault))
  {
    var c := s.counters[k][h];
    if Overflows(s.memory.state, h, c) then s
    else
      var next := WithCounter(s.memory.state, h, c);
      if Persist(s.disk, next, fault).1 then SetCounter(Save(s, next, fault), k, h, Counter(0, 0))
      else Save(s, next, fault)
  }

  function Next(s: Sender, e: Event): Sender
    requires Enabled(s, e)
  {
    match e
    case Attach => s.(counters := s.counters + [map[]])
    case AddUser(k, h) => SetCounter(s, k, h, Counter(0, 0))
    case DelUser(k, h) => s.(counters := s.counters[k := s.counters[k] - {h}])
    case AddTraffic(k, h, sent, recv) =>
      SetCounter(s, k, h, Counter(s.counters[k][h].sent + sent, s.counters[k][h].recv + recv))
    case Checkpoint(k, h, fault) => NextCheckpoint(s, k, h, fault)
    case Freeze(id, fault) => Save(s, Durable(Some(Frozen(id, s.memory.state.queued)), map[]), fault)
    case Send => s
    case Acknowledge(fault) => Save(s, s.memory.state.(pending := None), fault)
    case Crash => s.(counters := [], memory := Stopped)
    case Load(readable) => s.(memory := if readable then Loaded(s.disk) else Unavailable)
  }

  /** Putting back what an update replaced undoes it. */
  lemma Reverted(b: Batch, h: string, t: Traffic)
    ensures b[h := t] - {h} == b - {h}
    ensures h !in b ==> b[h := t] - {h} == b
    ensures h in b ==> b[h := t][h := b[h]] == b
  {
  }

  /** A save that memory did not adopt: repeating the event here would be refused the same way. */
  predicate Refused(s: Sender, e: Event) {
    (e.Checkpoint? || e.Freeze? || e.Acknowledge?) && Enabled(s, e) && Next(s, e).memory == s.memory
  }

  /** The run ended with a refused save; if the disk never fails, not because of the disk. */
  predicate EndsRefused(es: seq<Event>, s: Sender, reliable: bool) {
    es != [] && Refused(s, es[|es| - 1]) && (reliable ==> es[|es| - 1].fault == NoFault)
  }

  predicate EndsAcknowledged(es: seq<Event>) {
    es != [] && es[|es| - 1].Acknowledge?
  }

  /** What others do to a process: traffic arrives, and users come and go. */
  predicate IsOutside(e: Event) {
    e.AddTraffic? || e.AddUser? || e.DelUser?
  }

  predicate OnlyOutside(es: seq<Event>) {
    forall k :: 0 <= k < |es| ==> IsOutside(es[k])
  }

  /** Nothing of that. */
  predicate Quiet(es: seq<Event>) {
    forall k :: 0 <= k < |es| ==> !IsOutside(es[k])
  }

  lemma QuietParts(xs: seq<Event>, ys: seq<Event>)
    ensures Quiet(xs + ys) <==> Quiet(xs) && Quiet(ys)
  {
    assert forall k :: 0 <= k < |xs| ==> xs[k] == (xs + ys)[k];
    assert forall k :: 0 <= k < |ys| ==> ys[k] == (xs + ys)[|xs| + k];
  }

  lemma QuietOutside(es: seq<Event>)
    requires OnlyOutside(es)
    ensures Quiet(es) <==> es == []
  {
    if es != [] {
      assert IsOutside(es[0]);
      assert !Quiet(es);
    }
  }

  /** A finite run of one process: every event is enabled when it happens. */
  predicate Runs(s: Sender, es: seq<Event>, t: Sender)
    decreases es
  {
    if es == [] then s == t else Enabled(s, es[0]) && Runs(Next(s, es[0]), es[1..], t)
  }

  /** Runs compose. */
  lemma {:induction false} RunsConcat(s: Sender, es: seq<Event>, m: Sender, fs: seq<Event>, t: Sender)
    requires Runs(s, es, m) && Runs(m, fs, t)
    ensures Runs(s, es + fs, t)
    decreases es
  {
    if es == [] {
      assert es + fs == fs;
    } else {
      RunsConcat(Next(s, es[0]), es[1..], m, fs, t);
      assert (es + fs)[1..] == es[1..] + fs;
    }
  }

  /** A run may be extended by one enabled event. */
  lemma RunsExtend(s: Sender, es: seq<Event>, m: Sender, e: Event)
    requires Runs(s, es, m) && Enabled(m, e)
    ensures Runs(s, es + [e], Next(m, e))
  {
    assert Runs(Next(m, e), [e][1..], Next(m, e));
    RunsConcat(s, es, m, [e], Next(m, e));
  }
}
