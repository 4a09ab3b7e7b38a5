/** The outbox file: one record, replaced atomically, validated on every save and load. */
module TrafficOutbox {
  import opened Basics
  import opened TrafficValues
  import opened SenderProtocol

  const CURRENT_VERSION: int := 1

  datatype State = State(version: int, pendingSyncId: string, pending: Batch, queued: Batch)

  predicate IsEmpty(s: State) {
    s.pendingSyncId == "" && s.pending == map[] && s.queued == map[]
  }

  function Normalize(s: State): State {
    s.(version := CURRENT_VERSION)
  }

  predicate Validate(s: State) {
    && (s.version == 0 || s.version == CURRENT_VERSION)
    && !(s.pending != map[] && s.pendingSyncId == "")
    && !(s.pending == map[] && s.pendingSyncId != "")
    && WellFormedBatch(s.pending) && WellFormedBatch(s.queued)
  }

  /** What a record means to a sender. */
  function Meaning(s: State): Durable {
    Durable(if s.pending != map[] then Some(Frozen(s.pendingSyncId, s.pending)) else None, s.queued)
  }

  /** The record a sender writes for a state of its memory. */
  function RecordOf(s: Durable): State {
    State(0, if s.pending.Some? then s.pending.value.id else "", if s.pending.Some? then s.pending.value.traffic else map[], s.queued)
  }

  /** A record is accepted exactly when the state is, and reads back as that state. */
  lemma RecordRoundTrip(s: Durable)
    ensures Validate(Normalize(RecordOf(s))) <==>
            WellFormed(s) || (s.pending.Some? && s.pending.value == Frozen("", map[]) && WellFormedBatch(s.queued))
    ensures WellFormed(s) ==> Meaning(Normalize(RecordOf(s))) == s
    ensures IsEmpty(Normalize(RecordOf(s))) && WellFormed(s) ==> s == Durable(None, map[])
  {
  }

  /** Every accepted record is what a sender would have written, in one of the two known versions. */
  lemma ReadBack(r: State)
    ensures Validate(r) <==>
            (r.version == 0 || r.version == 1) && WellFormed(Meaning(r)) && RecordOf(Meaning(r)) == r.(version := 0)
  {
  }

  class OutboxFile {
    const reliable: bool    // whether every write to the file succeeds
    var record: Option<State>

    ghost predicate Valid()
      reads this
    {
      record.Some? ==> Validate(record.value)
    }

    constructor (reliable: bool)
      ensures Valid() && Contents() == Durable(None, map[]) && this.reliable == reliable
    {
      this.reliable := reliable;
      record := None;
    }

    /** What the file would be loaded as; a missing file is the empty state. */
    function Contents(): Durable
      reads this
    {
      if record.None? then Durable(None, map[]) else Meaning(record.value)
    }

    method Remove(fault: Fault) returns (ok: bool)
      modifies this
      ensures record == if old(record).None? || fault != BeforeRename then None else old(record)
      ensures ok == (old(record).None? || fault == NoFault)
    {
      if record.None? {
        return true;
      }
      if fault == BeforeRename {
        return false;
      }
      record := None;
      return fault == NoFault;
    }

    /** Replaces the file; a reported failure leaves either the old or the new record. */
    method Save(s: State, fault: Fault) returns (ok: bool, ghost used: Fault)
      requires Valid()
      modifies this
      ensures Valid()
      ensures !Validate(Normalize(s)) ==> !ok && record == old(record)
      ensures Validate(Normalize(s)) ==> (Contents(), ok) == Persist(old(Contents()), Meaning(s), used)
      ensures used == fault || (fault != NoFault && used == NoFault)
      ensures ok ==> Validate(Normalize(s)) && Contents() == Meaning(s)
      ensures Validate(Normalize(s)) && fault == NoFault ==> ok
      ensures fault == BeforeRename && !ok ==> record == old(record)
      ensures Validate(Normalize(s)) && fault == AfterRename ==> Contents() == Meaning(s)
    {
      var next := Normalize(s);
      used := fault;
      if !Validate(next) {
        return false, fault;
      }
      assert WellFormed(Meaning(s));
      if IsEmpty(next) {
        if record.None? {
          used := NoFault;
        }
        ok := Remove(fault);
        return ok, used;
      }
      if fault == BeforeRename {
        return false, fault;
      }
      record := Some(next);
      return fault == NoFault, fault;
    }

    /** Reads the file back; an unreadable or invalid record is an error. */
    method Load(readable: bool) returns (r: Option<State>)
      ensures record.None? ==> r == Some(State(CURRENT_VERSION, "", map[], map[]))
      ensures record.Some? ==> (r.Some? <==> readable && Validate(record.value))
      ensures r.Some? ==> Meaning(r.value) == Contents() && Validate(r.value)
    {
      if record.None? {
        return Some(State(CURRENT_VERSION, "", map[], map[]));
      }
      if !readable || !Validate(record.value) {
        return None;
      }
      return Some(Normalize(record.value));
    }
  }
}
