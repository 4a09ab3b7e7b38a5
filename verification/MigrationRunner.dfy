/**
 The migration run of one process, as a sequence of the system's events. Between
 any two of its statements time passes, other processes move, and renewal loops,
 its own included, prolong a lease or find it lost.
 */
module MigrationRunner {
  import opened Basics
  import opened Migrations

  lemma {:induction false} SystemRunConcat<D>(list: seq<Migration<D>>, s: System<D>, xs: seq<Event>, m: System<D>, ys: seq<Event>, t: System<D>)
    requires SystemRun(list, s, xs, m) && SystemRun(list, m, ys, t)
    ensures SystemRun(list, s, xs + ys, t)
    decreases xs
  {
    if xs == [] {
      assert xs + ys == ys;
    } else {
      SystemRunConcat(list, Step(list, s, xs[0]), xs[1..], m, ys, t);
      assert (xs + ys)[1..] == xs[1..] + ys;
    }
  }

  lemma SystemRunExtend<D>(list: seq<Migration<D>>, s: System<D>, xs: seq<Event>, m: System<D>, e: Event)
    requires SystemRun(list, s, xs, m) && CanStep(m, e)
    ensures SystemRun(list, s, xs + [e], Step(list, m, e))
  {
    assert SystemRun(list, Step(list, m, e), [e][1..], Step(list, m, e));
    SystemRunConcat(list, s, xs, m, [e], Step(list, m, e));
  }

  /** A step of the clock, of another process, or of a renewal loop. */
  predicate Foreign(e: Event, p: nat) {
    e.Tick? || e.Renew? || e.RenewFails? || e.p != p
  }

  /** What foreign steps may do to a process: cancel it, and no more. */
  ghost predicate Aside<D>(s: System<D>, t: System<D>, p: nat)
    requires p < |s.procs|
  {
    && |t.procs| == |s.procs|
    && t.procs[p] == s.procs[p].(cancelled := t.procs[p].cancelled)
    && (s.procs[p].cancelled ==> t.procs[p].cancelled)
    && s.db.applied <= t.db.applied
    && (Tokens(s) ==> Tokens(t))
  }

  lemma ForeignStep<D>(list: seq<Migration<D>>, s: System<D>, e: Event, p: nat)
    requires p < |s.procs| && CanStep(s, e) && Foreign(e, p)
    ensures Aside(s, Step(list, s, e), p)
  {
    if Tokens(s) {
      TokensStay(list, s, e);
    }
  }

  /** Nothing but the row and the process's own place has changed. */
  ghost predicate Unmoved<D>(s: System<D>, t: System<D>, p: nat)
    requires p < |s.procs|
  {
    && |t.procs| == |s.procs| && t.procs[p].cancelled == s.procs[p].cancelled
    && t.db == s.db.(lease := t.db.lease) && t.clock == s.clock && t.issued == s.issued
  }

  /** The process stands before a migration all of whose predecessors are recorded and in order. */
  predicate Ahead<D>(list: seq<Migration<D>>, applied: seq<Applied>, q: Process) {
    && q.index <= |list| && Ascending(list, q.index)
    && q.previous == (if q.index == 0 then 0 else list[q.index - 1].version)
    && Recorded(list, applied, q.index)
  }

  predicate Recorded<D>(list: seq<Migration<D>>, applied: seq<Applied>, n: nat)
    requires n <= |list|
  {
    forall k :: 0 <= k < n ==> RecordOf(list[k]) in applied
  }

  /** The process is inside the migration it stands before. */
  predicate Inside<D>(list: seq<Migration<D>>, applied: seq<Applied>, q: Process) {
    && q.stage == Migrating && q.index < |list| && Ascending(list, q.index + 1)
    && q.previous == list[q.index].version
    && Recorded(list, applied, q.index)
  }

  /** Looking at the next migration passes over it, enters it, or gives up. */
  lemma CheckGoesOn<D>(list: seq<Migration<D>>, applied: seq<Applied>, q: Process)
    requires q.stage == Checking && Ahead(list, applied, q)
    ensures var r := CheckNext(list, applied, q);
            && r.token == q.token
            && (r.stage == Checking ==> r.index == q.index + 1 && Ahead(list, applied, r))
            && (r.stage == Migrating ==> r.index == q.index && Inside(list, applied, r))
            && r.stage in {Checking, Migrating, Leaving}
            && (q.index == |list| ==> r.stage == Leaving)
  {
    if q.index < |list| && WellDefined(list[q.index]) && q.previous < list[q.index].version {
      AscendingNext(list, q.index);
    }
  }

  /** After its release a token is passed. */
  lemma ReleasePasses<D>(list: seq<Migration<D>>, s: System<D>, p: nat)
    requires Tokens(s) && CanStep(s, Release(p))
    ensures Passed(Step(list, s, Release(p)), s.procs[p].token)
  {
  }

  /** An insert that finds a row leaves its token passed. */
  lemma RefusalPasses<D>(list: seq<Migration<D>>, s: System<D>, p: nat)
    requires Tokens(s) && CanStep(s, Insert(p)) && s.db.lease.Some?
    ensures Passed(Step(list, s, Insert(p)), s.procs[p].token)
  {
  }

  class Runner<D> {
    const alone: bool    // nothing happens in between, and nothing fails
    var lease: Option<Lease>
    var applied: seq<Applied>
    var data: D
    var clock: nat
    var procs: seq<Process>
    var issued: set<string>

    constructor (data: D, procs: seq<Process>, alone: bool)
      requires forall p :: 0 <= p < |procs| ==> procs[p].stage == Idle
      ensures State() == System(Migrations.Database(None, [], data), 0, procs, {})
      ensures Tokens(State()) && this.alone == alone
    {
      this.alone := alone;
      lease, applied, clock, issued := None, [], 0, {};
      this.data, this.procs := data, procs;
    }

    /** The whole system: the database, and every process as the others may find it. */
    function State(): System<D>
      reads this
    {
      System(Migrations.Database(lease, applied, data), clock, procs, issued)
    }

    /** Whatever happens elsewhere between two statements of process p. */
    method Meanwhile(list: seq<Migration<D>>, p: nat) returns (ghost es: seq<Event>)
      requires p < |procs|
      modifies this
      ensures SystemRun(list, old(State()), es, State()) && Aside(old(State()), State(), p)
      ensures alone ==> State() == old(State())
    {
      es := [];
      ghost var s := State();
      var n: nat :| 0 <= n;
      if alone {
        n := 0;
      }
      for i := 0 to n
        invariant p < |procs| && SystemRun(list, s, es, State()) && Aside(s, State(), p)
        invariant alone ==> State() == s
      {
        var e: Event := *;
        if CanStep(State(), e) && Foreign(e, p) {
          ghost var m := State();
          var t := Step(list, State(), e);
          ForeignStep(list, m, e, p);
          SystemRunExtend(list, s, es, m, e);
          lease, applied, data, clock, procs, issued := t.db.lease, t.db.applied, t.db.data, t.clock, t.procs, t.issued;
          es := es + [e];
        }
      }
    }

    /** A token is drawn and the time is read. */
    method Begin(list: seq<Migration<D>>, p: nat, token: string)
      requires p < |procs| && procs[p].stage == Idle && token !in issued
      modifies this`procs, this`issued
      ensures CanStep(old(State()), Start(p, token)) && State() == Step(list, old(State()), Start(p, token))
    {
      procs := procs[p := Process(Updating, token, clock, 0, 0, false)];
      issued := issued + {token};
    }

    /** Updates the row if it has expired. */
    method TakeOverRow(list: seq<Migration<D>>, p: nat) returns (ok: bool, ghost es: seq<Event>)
      requires p < |procs| && procs[p].stage == Updating
      modifies this
      ensures SystemRun(list, old(State()), es, State()) && |procs| == |old(procs)| && (old(Tokens(State())) ==> Tokens(State()))
      ensures procs[p] == old(procs)[p].(stage := if ok then Checking else Creating, cancelled := procs[p].cancelled)
      ensures ok ==> lease == Some(Lease(procs[p].token, procs[p].now + LOCK_TTL))
      ensures alone ==>
                && ok == (old(lease).Some? && old(lease).value.expires < procs[p].now)
                && (!ok ==> lease == old(lease)) && Unmoved(old(State()), State(), p)
    {
      ghost var s := State();
      es := Meanwhile(list, p);
      ghost var m := State();
      var q := procs[p];
      ok := lease.Some? && lease.value.expires < q.now;
      if ok {
        lease := Some(Lease(q.token, q.now + LOCK_TTL));
      }
      procs := procs[p := q.(stage := if ok then Checking else Creating)];
      assert State() == Step(list, m, TakeOver(p));
      SystemRunExtend(list, s, es, m, TakeOver(p));
      es := es + [TakeOver(p)];
      if Tokens(s) {
        TokensStay(list, m, TakeOver(p));
      }
    }

    /** Inserts the row if there is none. */
    method InsertRow(list: seq<Migration<D>>, p: nat) returns (ok: bool, ghost es: seq<Event>)
      requires p < |procs| && procs[p].stage == Creating
      modifies this
      ensures SystemRun(list, old(State()), es, State()) && |procs| == |old(procs)| && (old(Tokens(State())) ==> Tokens(State()))
      ensures procs[p] == old(procs)[p].(stage := if ok then Checking else Idle, cancelled := procs[p].cancelled)
      ensures ok ==> lease == Some(Lease(procs[p].token, procs[p].now + LOCK_TTL))
      ensures !ok && old(Tokens(State())) ==> Passed(State(), procs[p].token)
      ensures alone ==> ok == old(lease).None? && (!ok ==> lease == old(lease)) && Unmoved(old(State()), State(), p)
    {
      ghost var s := State();
      es := Meanwhile(list, p);
      ghost var m := State();
      var q := procs[p];
      ok := lease.None?;
      if ok {
        lease := Some(Lease(q.token, q.now + LOCK_TTL));
      }
      procs := procs[p := q.(stage := if ok then Checking else Idle)];
      assert State() == Step(list, m, Insert(p));
      SystemRunExtend(list, s, es, m, Insert(p));
      es := es + [Insert(p)];
      if Tokens(s) {
        TokensStay(list, m, Insert(p));
        if !ok {
          RefusalPasses(list, m, p);
        }
      }
    }

    /** Updates an expired row, or else inserts one. */
    method Acquire(list: seq<Migration<D>>, p: nat) returns (ok: bool, ghost es: seq<Event>)
      requires p < |procs| && procs[p].stage == Updating
      modifies this
      ensures SystemRun(list, old(State()), es, State()) && |procs| == |old(procs)| && (old(Tokens(State())) ==> Tokens(State()))
      ensures procs[p] == old(procs)[p].(stage := if ok then Checking else Idle, cancelled := procs[p].cancelled)
      ensures ok ==> lease == Some(Lease(procs[p].token, procs[p].now + LOCK_TTL))
      ensures !ok && old(Tokens(State())) ==> Passed(State(), procs[p].token)
      ensures alone ==>
                && ok == (old(lease).None? || old(lease).value.expires < procs[p].now)
                && (!ok ==> lease == old(lease)) && Unmoved(old(State()), State(), p)
    {
      ok, es := TakeOverRow(list, p);
      if ok {
        return;
      }
      ghost var m := State();
      ghost var more;
      ok, more := InsertRow(list, p);
      SystemRunConcat(list, old(State()), es, m, more, State());
      es := es + more;
    }

    /** Deletes the row if it is still its own. */
    method ReleaseLock(list: seq<Migration<D>>, p: nat)
      requires p < |procs| && procs[p].stage == Leaving
      modifies this`lease, this`procs
      ensures CanStep(old(State()), Release(p)) && State() == Step(list, old(State()), Release(p))
    {
      if lease.Some? && lease.value.token == procs[p].token {
        lease := None;
      }
      procs := procs[p := procs[p].(stage := Idle)];
    }

    /** The transaction around one migration; how its parts end is the environment's choice. */
    method RunMigration(list: seq<Migration<D>>, p: nat, upOk: bool, commitOk: bool, auditOk: bool) returns (ok: bool)
      requires p < |procs| && procs[p].stage == Migrating && procs[p].index < |list|
      modifies this`applied, this`data, this`procs
      ensures var s, e := old(State()), Finish(p, upOk, commitOk, auditOk);
              && CanStep(s, e) && State() == Step(list, s, e)
              && (ok <==> Commits(list, s, e) && auditOk)
      ensures !upOk || !commitOk ==> !ok && applied == old(applied) && data == old(data)
      ensures ok ==> MayCommit(list, old(State()), p, upOk, commitOk)
      ensures MayCommit(list, old(State()), p, upOk, commitOk) ==>
                && ok == auditOk && data == list[old(procs)[p].index].up(old(data))
                && applied == old(applied) + [RecordOf(list[old(procs)[p].index])]
    {
      FinishCommitsIff(list, State(), p, upOk, commitOk, auditOk);
      var q := procs[p];
      var m := list[q.index];
      procs := procs[p := q.(stage := Leaving)];
      if !upOk {
        return false;
      }
      if Has(applied, m.version) {
        return false;
      }
      if q.cancelled {
        return false;
      }
      if lease.None? || lease.value.token != q.token || !(lease.value.expires > clock) {
        return false;
      }
      if !commitOk {
        return false;
      }
      data := m.up(data);
      applied := applied + [RecordOf(m)];
      procs := procs[p := q.(stage := if auditOk then Checking else Leaving, index := q.index + 1)];
      return auditOk;
    }

    /** Behind a migration: a lease that was lost ends the walk. */
    method GiveUpIfLost(list: seq<Migration<D>>, p: nat) returns (ok: bool, ghost es: seq<Event>)
      requires p < |procs| && procs[p].stage == Checking && Ahead(list, applied, procs[p])
      modifies this
      ensures SystemRun(list, old(State()), es, State()) && |procs| == |old(procs)| && (old(Tokens(State())) ==> Tokens(State()))
      ensures procs[p] == old(procs)[p].(stage := if ok then Checking else Leaving, cancelled := !ok)
      ensures Ahead(list, applied, procs[p])
      ensures alone && !old(procs)[p].cancelled ==> ok && State() == old(State())
    {
      ghost var s := State();
      es := Meanwhile(list, p);
      ok := !procs[p].cancelled;
      if !ok {
        ghost var m := State();
        procs := procs[p := procs[p].(stage := Leaving)];
        assert State() == Step(list, m, Abandon(p));
        SystemRunExtend(list, s, es, m, Abandon(p));
        es := es + [Abandon(p)];
        if Tokens(s) {
          TokensStay(list, m, Abandon(p));
        }
      }
    }

    /** One migration, with anything going on while it runs. */
    method Migrate(list: seq<Migration<D>>, p: nat) returns (ok: bool, ghost es: seq<Event>)
      requires p < |procs| && Inside(list, applied, procs[p])
      modifies this
      ensures SystemRun(list, old(State()), es, State()) && |procs| == |old(procs)| && (old(Tokens(State())) ==> Tokens(State()))
      ensures procs[p].token == old(procs)[p].token
      ensures ok ==> procs[p].stage == Checking && procs[p].index == old(procs)[p].index + 1 && Ahead(list, applied, procs[p])
      ensures !ok ==> procs[p].stage == Leaving
      ensures alone ==> State() == Step(list, old(State()), Finish(p, true, true, true))
    {
      ghost var s := State();
      es := Meanwhile(list, p);
      ghost var m := State();
      var upOk, commitOk, auditOk: bool := *, *, *;
      if alone {
        upOk, commitOk, auditOk := true, true, true;
      }
      ok := RunMigration(list, p, upOk, commitOk, auditOk);
      ghost var e := Finish(p, upOk, commitOk, auditOk);
      SystemRunExtend(list, s, es, m, e);
      es := es + [e];
      if Tokens(s) {
        TokensStay(list, m, e);
      }
    }

    /** Looks at the next migration of the list. */
    method Look(list: seq<Migration<D>>, p: nat) returns (ghost es: seq<Event>)
      requires p < |procs| && procs[p].stage == Checking && Ahead(list, applied, procs[p])
      modifies this
      ensures SystemRun(list, old(State()), es, State()) && |procs| == |old(procs)| && (old(Tokens(State())) ==> Tokens(State()))
      ensures procs[p].token == old(procs)[p].token
      ensures procs[p].stage == Checking ==> procs[p].index == old(procs)[p].index + 1 && Ahead(list, applied, procs[p])
      ensures procs[p].stage == Migrating ==> procs[p].index == old(procs)[p].index && Inside(list, applied, procs[p])
      ensures procs[p].stage in {Checking, Migrating, Leaving}
      ensures old(procs)[p].index == |list| ==> procs[p].stage == Leaving
      ensures Recorded(list, applied, old(procs)[p].index)
      ensures alone ==> State() == Step(list, old(State()), Check(p))
    {
      ghost var s := State();
      es := Meanwhile(list, p);
      ghost var m := State();
      CheckGoesOn(list, applied, procs[p]);
      procs := procs[p := CheckNext(list, applied, procs[p])];
      assert State() == Step(list, m, Check(p));
      SystemRunExtend(list, s, es, m, Check(p));
      es := es + [Check(p)];
      if Tokens(s) {
        TokensStay(list, m, Check(p));
      }
    }

    /** One round of the walk: the next migration is passed over, or run, or ends the walk. */
    method Advance(list: seq<Migration<D>>, p: nat, ghost start: D) returns (ok: bool, ghost es: seq<Event>)
      requires p < |procs| && procs[p].stage == Checking && Ahead(list, applied, procs[p])
      modifies this
      ensures SystemRun(list, old(State()), es, State()) && |procs| == |old(procs)| && (old(Tokens(State())) ==> Tokens(State()))
      ensures procs[p].token == old(procs)[p].token && (procs[p].stage == Checking || procs[p].stage == Leaving)
      ensures procs[p].stage == Checking ==> procs[p].index == old(procs)[p].index + 1 && Ahead(list, applied, procs[p])
      ensures ok && procs[p].stage == Leaving ==> Ascending(list, |list|) && Recorded(list, applied, |list|)
      ensures alone && Calm(list, old(State()), p, start) ==>
                && Calm(list, State(), p, start) && lease == old(lease)
                && (procs[p].stage == Leaving ==> EndsAt(list, |applied|) && ok == (|applied| == |list|))
    {
      ghost var s := State();
      ghost var calm := alone && Calm(list, s, p, start);
      if calm {
        CalmCheck(list, s, p, start);
      }
      ok := procs[p].index == |list|;
      es := Look(list, p);
      if procs[p].stage == Migrating {
        ghost var m, more := State(), [];
        ok, more := MigrateOrStop(list, p, start);
        SystemRunConcat(list, s, es, m, more, State());
        es := es + more;
      }
    }

    /** Runs a migration; a lease that was lost meanwhile ends the walk. */
    method MigrateOrStop(list: seq<Migration<D>>, p: nat, ghost start: D) returns (ok: bool, ghost es: seq<Event>)
      requires p < |procs| && Inside(list, applied, procs[p])
      modifies this
      ensures SystemRun(list, old(State()), es, State()) && |procs| == |old(procs)| && (old(Tokens(State())) ==> Tokens(State()))
      ensures procs[p].token == old(procs)[p].token && procs[p].stage == if ok then Checking else Leaving
      ensures ok ==> procs[p].index == old(procs)[p].index + 1 && Ahead(list, applied, procs[p]) && !procs[p].cancelled
      ensures alone && Calm(list, old(State()), p, start) ==> ok && Calm(list, State(), p, start) && lease == old(lease)
    {
      ghost var s := State();
      if alone && Calm(list, s, p, start) {
        CalmFinish(list, s, p, start);
      }
      ok, es := Migrate(list, p);
      if ok {
        ghost var m, more := State(), [];
        ok, more := GiveUpIfLost(list, p);
        SystemRunConcat(list, s, es, m, more, State());
        es := es + more;
      }
    }

    /** Walks the list. */
    method Walk(list: seq<Migration<D>>, p: nat, ghost start: D) returns (ok: bool, ghost es: seq<Event>)
      requires p < |procs| && procs[p].stage == Checking && procs[p].index == 0 && procs[p].previous == 0
      modifies this
      ensures SystemRun(list, old(State()), es, State()) && |procs| == |old(procs)| && (old(Tokens(State())) ==> Tokens(State()))
      ensures procs[p].stage == Leaving && procs[p].token == old(procs)[p].token
      ensures ok ==> Ascending(list, |list|) && Recorded(list, applied, |list|)
      ensures alone && Calm(list, old(State()), p, start) ==>
                && Calm(list, State(), p, start) && lease == old(lease) && EndsAt(list, |applied|) && ok == (|applied| == |list|)
    {
      ghost var s := State();
      ghost var calm := alone && Calm(list, s, p, start);
      es := [];
      ok := true;
      while procs[p].stage == Checking
        invariant |procs| == |old(procs)| && procs[p].token == old(procs)[p].token && (Tokens(s) ==> Tokens(State()))
        invariant SystemRun(list, s, es, State())
        invariant procs[p].stage == Checking || procs[p].stage == Leaving
        invariant procs[p].stage == Checking ==> Ahead(list, applied, procs[p])
        invariant ok && procs[p].stage == Leaving ==> Ascending(list, |list|) && Recorded(list, applied, |list|)
        invariant calm ==> Calm(list, State(), p, start) && lease == old(lease)
        invariant calm && procs[p].stage == Leaving ==> EndsAt(list, |applied|) && ok == (|applied| == |list|)
        decreases if procs[p].stage == Checking then |list| - procs[p].index + 1 else 0
      {
        ghost var m, more := State(), [];
        ok, more := Advance(list, p, start);
        SystemRunConcat(list, s, es, m, more, State());
        es := es + more;
      }
    }

    /** Draws a token and acquires the lease with it. */
    method Obtain(list: seq<Migration<D>>, p: nat, token: string, ghost start: D) returns (ok: bool, ghost es: seq<Event>)
      requires p < |procs| && procs[p].stage == Idle && token !in issued && Tokens(State())
      modifies this
      ensures SystemRun(list, old(State()), es, State()) && |procs| == |old(procs)| && Tokens(State())
      ensures procs[p].token == token && procs[p].stage == if ok then Checking else Idle
      ensures procs[p].index == 0 && procs[p].previous == 0
      ensures !ok ==> Passed(State(), token)
      ensures alone ==> ok == (old(lease).None? || old(lease).value.expires < clock) && clock == old(clock)
      ensures alone && !ok ==> State().db == old(State()).db
      ensures alone && ok && IsPrefix(list, old(State()).db, start) ==> Calm(list, State(), p, start)
    {
      ghost var s := State();
      Begin(list, p, token);
      SystemRunExtend(list, s, [], s, Start(p, token));
      TokensStay(list, s, Start(p, token));
      ghost var a, more := State(), [];
      ok, more := Acquire(list, p);
      SystemRunConcat(list, s, [] + [Start(p, token)], a, more, State());
      es := [] + [Start(p, token)] + more;
    }

    /** Walks the list, then deletes the lease row. */
    method WalkAndRelease(list: seq<Migration<D>>, p: nat, ghost start: D) returns (ok: bool, ghost es: seq<Event>)
      requires p < |procs| && procs[p].stage == Checking && procs[p].index == 0 && procs[p].previous == 0 && Tokens(State())
      modifies this
      ensures SystemRun(list, old(State()), es, State()) && |procs| == |old(procs)| && procs[p].stage == Idle
      ensures Passed(State(), old(procs)[p].token)
      ensures ok ==> Ascending(list, |list|) && Recorded(list, applied, |list|)
      ensures alone && Calm(list, old(State()), p, start) ==>
                lease.None? && IsPrefix(list, State().db, start) && EndsAt(list, |applied|) && ok == (|applied| == |list|)
    {
      ghost var s := State();
      ok, es := Walk(list, p, start);
      ghost var l := State();
      ghost var more := Meanwhile(list, p);
      SystemRunConcat(list, s, es, l, more, State());
      es := es + more;
      ghost var m := State();
      ReleaseLock(list, p);
      SystemRunExtend(list, s, es, m, Release(p));
      ReleasePasses(list, m, p);
      es := es + [Release(p)];
    }

    /** One run: acquire the lease, apply what is missing, release. */
    method RunMigrations(list: seq<Migration<D>>, p: nat, token: string, ghost start: D) returns (ok: bool, ghost es: seq<Event>)
      requires p < |procs| && procs[p].stage == Idle && token !in issued && Tokens(State())
      modifies this
      ensures SystemRun(list, old(State()), es, State()) && |procs| == |old(procs)| && procs[p].stage == Idle
      ensures Passed(State(), token)
      ensures ok ==> Ascending(list, |list|) && Recorded(list, applied, |list|)
      ensures alone && IsPrefix(list, old(State()).db, start) && (old(lease).None? || old(lease).value.expires < old(clock)) ==>
                && lease.None? && IsPrefix(list, State().db, start) && EndsAt(list, |applied|) && ok == (|applied| == |list|)
      ensures alone && old(lease).Some? && old(clock) <= old(lease).value.expires ==> !ok && State().db == old(State()).db
    {
      ghost var s := State();
      ok, es := Obtain(list, p, token, start);
      if ok {
        ghost var m, more := State(), [];
        ok, more := WalkAndRelease(list, p, start);
        SystemRunConcat(list, s, es, m, more, State());
        es := es + more;
      }
    }
  }
}
