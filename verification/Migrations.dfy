/**
 Schema migrations under a database lease. Any number of processes, each
 walking the same list, interleave at the granularity of single statements;
 the transaction that runs one migration (its change, its record and the check
 of the lease) is one serializable step.
 */
module Migrations {
  import opened Basics

  const LOCK_TTL: nat := 300

  /** One registered migration; `up` is the change it makes, `hasUp` whether one is given. */
  datatype Migration<!D> = Migration(version: nat, name: string, revision: string, hasUp: bool, up: D -> D)

  /** The record of a committed migration; a checksum is any injective digest, here the digested text's parts. */
  datatype Applied = Applied(version: nat, name: string, checksum: (nat, string, string))

  datatype Lease = Lease(token: string, expires: nat)

  datatype Database<D> = Database(lease: Option<Lease>, applied: seq<Applied>, data: D)

  datatype Stage =
    | Idle       // not migrating, or done
    | Updating   // about to take over an expired lease
    | Creating   // about to insert the lease row
    | Checking   // between migrations
    | Migrating  // inside a migration
    | Leaving    // about to delete its lease row

  /** One process; `now` is the time it read before acquiring, `cancelled` whether a renewal failed. */
  datatype Process = Process(stage: Stage, token: string, now: nat, index: nat, previous: nat, cancelled: bool)

  datatype System<D> = System(db: Database<D>, clock: nat, procs: seq<Process>, issued: set<string>)

  datatype Event =
    | Tick(seconds: nat)
    | Start(p: nat, token: string)
    | TakeOver(p: nat)
    | Insert(p: nat)
    | Renew(p: nat, token: string)
    | RenewFails(p: nat)
    | Check(p: nat)
    | Abandon(p: nat)
    | Finish(p: nat, upOk: bool, commitOk: bool, auditOk: bool)
    | Release(p: nat)
    | Die(p: nat)

  function Checksum<D>(m: Migration<D>): (nat, string, string) {
    (m.version, m.name, m.revision)
  }

  function RecordOf<D>(m: Migration<D>): Applied {
    Applied(m.version, m.name, Checksum(m))
  }

  predicate WellDefined<D>(m: Migration<D>) {
    m.version != 0 && m.name != "" && m.revision != "" && m.hasUp
  }

  predicate Has(applied: seq<Applied>, version: nat) {
    exists k :: 0 <= k < |applied| && applied[k].version == version
  }

  // ----- The lease statements -----

  /** Update of an expired row: the row after it, and whether a row was affected. */
  function TakeOverLease(lease: Option<Lease>, token: string, now: nat): (Option<Lease>, bool) {
    if lease.Some? && lease.value.expires < now then (Some(Lease(token, now + LOCK_TTL)), true) else (lease, false)
  }

  function InsertLease(lease: Option<Lease>, token: string, now: nat): (Option<Lease>, bool) {
    if lease.None? then (Some(Lease(token, now + LOCK_TTL)), true) else (lease, false)
  }

  function RenewLease(lease: Option<Lease>, token: string, clock: nat): (Option<Lease>, bool) {
    if lease.Some? && lease.value.token == token then (Some(Lease(token, clock + LOCK_TTL)), true) else (lease, false)
  }

  function ReleaseLease(lease: Option<Lease>, token: string): Option<Lease> {
    if lease.Some? && lease.value.token == token then None else lease
  }

  predicate Owns(lease: Option<Lease>, token: string, clock: nat) {
    lease.Some? && lease.value.token == token && clock < lease.value.expires
  }

  // ----- Steps -----

  predicate Acquiring(q: Process) {
    q.stage == Updating || q.stage == Creating
  }

  /**
   When a step can happen. A renewal loop starts once its lease is acquired and
   may still be in flight when its walk, or its whole run, is over.
   */
  predicate CanStep<D>(s: System<D>, e: Event) {
    match e
    case Tick(_) => true
    case Start(p, token) => p < |s.procs| && s.procs[p].stage == Idle && token !in s.issued
    case TakeOver(p) => p < |s.procs| && s.procs[p].stage == Updating
    case Insert(p) => p < |s.procs| && s.procs[p].stage == Creating
    case Renew(p, token) =>
      && p < |s.procs| && token in s.issued
      && (s.procs[p].token == token ==> !Acquiring(s.procs[p]))
      && (forall q :: 0 <= q < |s.procs| && q != p ==> s.procs[q].token != token)
    case RenewFails(p) => p < |s.procs| && !Acquiring(s.procs[p])
    case Check(p) => p < |s.procs| && s.procs[p].stage == Checking
    case Abandon(p) => p < |s.procs| && s.procs[p].stage == Checking
    case Finish(p, _, _, _) => p < |s.procs| && s.procs[p].stage == Migrating
    case Release(p) => p < |s.procs| && s.procs[p].stage == Leaving
    case Die(p) => p < |s.procs|
  }

  function To<D>(s: System<D>, p: nat, stage: Stage): System<D>
    requires p < |s.procs|
  {
    s.(procs := s.procs[p := s.procs[p].(stage := stage)])
  }

  /** The loop body up to the point where a migration has to run. */
  function CheckNext<D>(list: seq<Migration<D>>, applied: seq<Applied>, q: Process): Process {
    if q.index >= |list| then q.(stage := Leaving)
    else
      var m := list[q.index];
      if !WellDefined(m) || q.previous >= m.version then q.(stage := Leaving)
      else if Has(applied, m.version) then
        if RecordOf(m) in applied then q.(index := q.index + 1, previous := m.version) else q.(stage := Leaving)
      else if q.cancelled then q.(stage := Leaving)
      else q.(stage := Migrating, previous := m.version)
  }

  /** The transaction commits: nothing failed in it, the version is new, and the lease is still its own. */
  predicate Commits<D>(list: seq<Migration<D>>, s: System<D>, e: Event)
    requires CanStep(s, e)
  {
    e.Finish? && e.upOk && e.commitOk && s.procs[e.p].index < |list|
    && !Has(s.db.applied, list[s.procs[e.p].index].version)
    && !s.procs[e.p].cancelled
    && Owns(s.db.lease, s.procs[e.p].token, s.clock)
  }

  function Step<D>(list: seq<Migration<D>>, s: System<D>, e: Event): System<D>
    requires CanStep(s, e)
  {
    match e
    case Tick(n) => s.(clock := s.clock + n)
    case Start(p, token) =>
      s.(procs := s.procs[p := Process(Updating, token, s.clock, 0, 0, false)], issued := s.issued + {token})
    case TakeOver(p) =>
      var (lease, ok) := TakeOverLease(s.db.lease, s.procs[p].token, s.procs[p].now);
      To(s.(db := s.db.(lease := lease)), p, if ok then Checking else Creating)
    case Insert(p) =>
      var (lease, ok) := InsertLease(s.db.lease, s.procs[p].token, s.procs[p].now);
      To(s.(db := s.db.(lease := lease)), p, if ok then Checking else Idle)
    case Renew(p, token) =>
      var (lease, ok) := RenewLease(s.db.lease, token, s.clock);
      var lost := s.procs[p].token == token && !ok;
      s.(db := s.db.(lease := lease), procs := s.procs[p := s.procs[p].(cancelled := s.procs[p].cancelled || lost)])
    case RenewFails(p) => s.(procs := s.procs[p := s.procs[p].(cancelled := true)])
    case Check(p) => s.(procs := s.procs[p := CheckNext(list, s.db.applied, s.procs[p])])
    case Abandon(p) => To(s, p, Leaving)
    case Finish(p, _, _, auditOk) =>
      if !Commits(list, s, e) then To(s, p, Leaving)
      else
        var m := list[s.procs[p].index];
        s.(db := s.db.(applied := s.db.applied + [RecordOf(m)], data := m.up(s.db.data)),
           procs := s.procs[p := s.procs[p].(stage := if auditOk then Checking else Leaving, index := s.procs[p].index + 1)])
    case Release(p) => To(s.(db := s.db.(lease := ReleaseLease(s.db.lease, s.procs[p].token))), p, Idle)
    case Die(p) => To(s, p, Idle)
  }

  ghost predicate SystemRun<D>(list: seq<Migration<D>>, s: System<D>, es: seq<Event>, t: System<D>)
    decreases es
  {
    if es == [] then s == t else CanStep(s, es[0]) && SystemRun(list, Step(list, s, es[0]), es[1..], t)
  }

  // ----- Invariant -----

  /** The effect of a run of migrations, each exactly once and in order. */
  function Migrated<D>(ms: seq<Migration<D>>, data: D): D {
    if ms == [] then data else ms[|ms| - 1].up(Migrated(ms[..|ms| - 1], data))
  }

  /** The first n migrations are well defined and strictly increasing. */
  predicate Ascending<D>(list: seq<Migration<D>>, n: nat)
    requires n <= |list|
  {
    (forall k :: 0 <= k < n ==> WellDefined(list[k])) && forall j, k :: 0 <= j < k < n ==> list[j].version < list[k].version
  }

  ghost predicate IsPrefix<D>(list: seq<Migration<D>>, db: Database<D>, start: D) {
    && |db.applied| <= |list|
    && (forall k :: 0 <= k < |db.applied| ==> db.applied[k] == RecordOf(list[k]))
    && Ascending(list, |db.applied|)
    && db.data == Migrated(list[..|db.applied|], start)
  }

  /** A process stands at a position all of whose predecessors are applied. */
  predicate Placed<D>(list: seq<Migration<D>>, applied: nat, q: Process)
    requires applied <= |list|
  {
    && (Acquiring(q) ==> q.index == 0 && q.previous == 0)
    && (q.stage == Checking ==>
          q.index <= applied && q.previous == if q.index == 0 then 0 else list[q.index - 1].version)
    && (q.stage == Migrating ==>
          && q.index <= applied && q.index < |list| && q.previous == list[q.index].version && WellDefined(list[q.index])
          && (q.index > 0 ==> list[q.index - 1].version < list[q.index].version))
  }

  ghost predicate Inv<D>(list: seq<Migration<D>>, s: System<D>, start: D) {
    && IsPrefix(list, s.db, start)
    && (forall p :: 0 <= p < |s.procs| ==> Placed(list, |s.db.applied|, s.procs[p]))
  }

  // ----- Applied versions are a prefix, each effect happens once -----

  /** A version of the list is recorded exactly when its position is below the applied count. */
  lemma RecordedIff<D>(list: seq<Migration<D>>, db: Database<D>, start: D, k: nat)
    requires IsPrefix(list, db, start) && k <= |db.applied| && k < |list|
    requires k == |db.applied| && k > 0 ==> list[k - 1].version < list[k].version
    ensures Has(db.applied, list[k].version) <==> k < |db.applied|
    ensures k < |db.applied| ==> RecordOf(list[k]) in db.applied
  {
  }

  lemma CheckPlaced<D>(list: seq<Migration<D>>, db: Database<D>, start: D, q: Process)
    requires IsPrefix(list, db, start) && Placed(list, |db.applied|, q) && q.stage == Checking
    ensures Placed(list, |db.applied|, CheckNext(list, db.applied, q))
  {
    if q.index < |list| && WellDefined(list[q.index]) && q.previous < list[q.index].version {
      RecordedIff(list, db, start, q.index);
    }
  }

  /** A commit extends the applied prefix by exactly the next migration of the list. */
  lemma CommitExtends<D>(list: seq<Migration<D>>, s: System<D>, e: Event, start: D)
    requires Inv(list, s, start) && CanStep(s, e) && Commits(list, s, e)
    ensures s.procs[e.p].index == |s.db.applied|
    ensures IsPrefix(list, Step(list, s, e).db, start)
  {
    var q := s.procs[e.p];
    assert Placed(list, |s.db.applied|, q);
    RecordedIff(list, s.db, start, q.index);
    var n := |s.db.applied|;
    assert list[..n + 1][..n] == list[..n];
    forall j, k | 0 <= j < k < n + 1
      ensures list[j].version < list[k].version
    {
      if k == n && j < n - 1 {
        assert list[j].version < list[n - 1].version;
      }
    }
  }

  lemma FinishPlaced<D>(list: seq<Migration<D>>, s: System<D>, e: Event, start: D)
    requires Inv(list, s, start) && CanStep(s, e) && e.Finish?
    requires |Step(list, s, e).db.applied| <= |list|
    ensures Placed(list, |Step(list, s, e).db.applied|, Step(list, s, e).procs[e.p])
  {
    assert Placed(list, |s.db.applied|, s.procs[e.p]);
    if Commits(list, s, e) {
      CommitExtends(list, s, e, start);
    }
  }

  /** The process that moves is placed again. */
  lemma MoverPlaced<D>(list: seq<Migration<D>>, s: System<D>, e: Event, start: D)
    requires Inv(list, s, start) && CanStep(s, e) && !e.Tick?
    requires |Step(list, s, e).db.applied| <= |list|
    ensures Placed(list, |Step(list, s, e).db.applied|, Step(list, s, e).procs[e.p])
  {
    if e.Finish? {
      FinishPlaced(list, s, e, start);
    } else {
      assert Placed(list, |s.db.applied|, s.procs[e.p]);
      if e.Check? {
        CheckPlaced(list, s.db, start, s.procs[e.p]);
      }
    }
  }

  lemma StepKeepsInv<D>(list: seq<Migration<D>>, s: System<D>, e: Event, start: D)
    requires Inv(list, s, start) && CanStep(s, e)
    ensures Inv(list, Step(list, s, e), start)
  {
    var t := Step(list, s, e);
    OnlyCommitsChange(list, s, e);
    if Commits(list, s, e) {
      CommitExtends(list, s, e, start);
    }
    if !e.Tick? {
      MoverPlaced(list, s, e, start);
    }
    forall p | 0 <= p < |t.procs|
      ensures Placed(list, |t.db.applied|, t.procs[p])
    {
      assert Placed(list, |s.db.applied|, s.procs[p]);
      assert e.Tick? || p != e.p ==> t.procs[p] == s.procs[p];
    }
  }

  /** Nothing without a version, a name, a revision and a change is ever applied, and each record is that of its migration. */
  lemma AppliedAreDefined<D>(list: seq<Migration<D>>, s: System<D>, start: D, k: nat)
    requires Inv(list, s, start) && k < |s.db.applied|
    ensures var m := list[k];
            && m.version != 0 && m.name != "" && m.revision != "" && m.hasUp
            && s.db.applied[k] == Applied(m.version, m.name, (m.version, m.name, m.revision))
            && (k > 0 ==> list[k - 1].version < m.version)
  {
    assert WellDefined(list[k]);
  }

  /** Before anybody migrated. */
  ghost predicate Fresh<D>(list: seq<Migration<D>>, s: System<D>, start: D) {
    && IsPrefix(list, s.db, start)
    && (forall p :: 0 <= p < |s.procs| ==> s.procs[p].stage == Idle)
    && (s.db.lease.Some? ==> s.db.lease.value.token in s.issued)
  }

  /**
   For every interleaving, with takeovers, failures and deaths: the applied
   migrations are a prefix of the list, and the data is what that prefix makes
   of the initial data, every change applied exactly once and in order.
   */
  lemma {:induction false} AppliedIsPrefix<D>(list: seq<Migration<D>>, s: System<D>, es: seq<Event>, t: System<D>, start: D)
    requires Inv(list, s, start) && SystemRun(list, s, es, t)
    ensures Inv(list, t, start)
    ensures s.db.applied <= t.db.applied
    decreases es
  {
    if es != [] {
      StepKeepsInv(list, s, es[0], start);
      AppliedIsPrefix(list, Step(list, s, es[0]), es[1..], t, start);
    }
  }

  lemma FreshStart<D>(list: seq<Migration<D>>, s: System<D>, es: seq<Event>, t: System<D>, start: D)
    requires Fresh(list, s, start) && SystemRun(list, s, es, t)
    ensures IsPrefix(list, t.db, start) && s.db.applied <= t.db.applied
  {
    AppliedIsPrefix(list, s, es, t, start);
  }

  lemma OnlyCommitsChange<D>(list: seq<Migration<D>>, s: System<D>, e: Event)
    requires CanStep(s, e)
    ensures Commits(list, s, e) ==> |Step(list, s, e).db.applied| == |s.db.applied| + 1
    ensures !Commits(list, s, e) ==> Step(list, s, e).db == s.db.(lease := Step(list, s, e).db.lease)
  {
  }

  /** What a transaction needs in order to commit: its own parts, a live context, its own unexpired row, and a new version. */
  predicate MayCommit<D>(list: seq<Migration<D>>, s: System<D>, p: nat, upOk: bool, commitOk: bool)
    requires p < |s.procs| && s.procs[p].index < |list|
  {
    var q, row := s.procs[p], s.db.lease;
    && upOk && commitOk && !q.cancelled
    && row.Some? && row.value.token == q.token && s.clock < row.value.expires
    && forall k :: 0 <= k < |s.db.applied| ==> s.db.applied[k].version != list[q.index].version
  }

  /**
   A migration leaves its record and its effect behind, both of them and nothing
   else, exactly when its transaction may commit; otherwise it leaves no trace,
   and its process is on its way out.
   */
  lemma FinishCommitsIff<D>(list: seq<Migration<D>>, s: System<D>, p: nat, upOk: bool, commitOk: bool, auditOk: bool)
    requires p < |s.procs| && s.procs[p].stage == Migrating && s.procs[p].index < |list|
    ensures var m, q := list[s.procs[p].index], s.procs[p];
            var t := Step(list, s, Finish(p, upOk, commitOk, auditOk));
            if MayCommit(list, s, p, upOk, commitOk) then
              && t.db.applied == s.db.applied + [Applied(m.version, m.name, (m.version, m.name, m.revision))]
              && t.db.data == m.up(s.db.data) && t.db.lease == s.db.lease
              && t.procs == s.procs[p := q.(stage := if auditOk then Checking else Leaving, index := q.index + 1)]
            else
              t.db == s.db && t.procs == s.procs[p := q.(stage := Leaving)]
  {
    assert Has(s.db.applied, list[s.procs[p].index].version) <==>
           !(forall k :: 0 <= k < |s.db.applied| ==> s.db.applied[k].version != list[s.procs[p].index].version);
  }

  /** How many steps of a run commit a migration. */
  ghost function CommitsIn<D>(list: seq<Migration<D>>, s: System<D>, es: seq<Event>, t: System<D>): nat
    requires SystemRun(list, s, es, t)
    decreases es
  {
    if es == [] then 0
    else (if Commits(list, s, es[0]) then 1 else 0) + CommitsIn(list, Step(list, s, es[0]), es[1..], t)
  }

  lemma {:induction false} MigratedOn<D>(ms: seq<Migration<D>>, more: seq<Migration<D>>, data: D)
    ensures Migrated(ms + more, data) == Migrated(more, Migrated(ms, data))
    decreases more
  {
    if more == [] {
      assert ms + more == ms;
    } else {
      var n := |more| - 1;
      MigratedOn(ms, more[..n], data);
      assert (ms + more)[..|ms + more| - 1] == ms + more[..n];
    }
  }

  lemma MigratedBetween<D>(list: seq<Migration<D>>, m: nat, n: nat, data: D)
    requires m <= n <= |list|
    ensures Migrated(list[..n], data) == Migrated(list[m..n], Migrated(list[..m], data))
  {
    MigratedOn(list[..m], list[m..n], data);
    assert list[..m] + list[m..n] == list[..n];
  }

  lemma {:induction false} CommitsCount<D>(list: seq<Migration<D>>, s: System<D>, es: seq<Event>, t: System<D>)
    requires SystemRun(list, s, es, t)
    ensures |t.db.applied| == |s.db.applied| + CommitsIn(list, s, es, t)
    decreases es
  {
    if es != [] {
      OnlyCommitsChange(list, s, es[0]);
      CommitsCount(list, Step(list, s, es[0]), es[1..], t);
    }
  }

  /**
   Between any two states of a run schema and data change by commits alone: as
   many versions are added as there are commits, and the data changes by
   exactly their migrations, so failed and abandoned ones leave no trace.
   */
  lemma OnlyCommitsCount<D>(list: seq<Migration<D>>, s: System<D>, es: seq<Event>, t: System<D>, start: D)
    requires Inv(list, s, start) && SystemRun(list, s, es, t)
    ensures |s.db.applied| <= |t.db.applied| <= |list|
    ensures |t.db.applied| == |s.db.applied| + CommitsIn(list, s, es, t)
    ensures t.db.data == Migrated(list[|s.db.applied|..|t.db.applied|], s.db.data)
  {
    AppliedIsPrefix(list, s, es, t, start);
    CommitsCount(list, s, es, t);
    MigratedBetween(list, |s.db.applied|, |t.db.applied|, start);
  }

  // ----- Lease safety -----

  /** A token whose acquisition is over and which the lease row does not carry. */
  predicate Passed<D>(s: System<D>, token: string) {
    && token in s.issued
    && (s.db.lease.Some? ==> s.db.lease.value.token != token)
    && (forall p :: 0 <= p < |s.procs| && s.procs[p].token == token ==> !Acquiring(s.procs[p]))
  }

  lemma PassedStays<D>(list: seq<Migration<D>>, s: System<D>, e: Event, token: string)
    requires CanStep(s, e) && Passed(s, token)
    ensures Passed(Step(list, s, e), token)
  {
  }

  /** Once the lease is lost or taken over, its old holder never owns it again, whatever happens. */
  lemma {:induction false} LostForGood<D>(list: seq<Migration<D>>, s: System<D>, es: seq<Event>, t: System<D>, token: string)
    requires SystemRun(list, s, es, t) && Passed(s, token)
    ensures Passed(t, token)
    decreases es
  {
    if es != [] {
      PassedStays(list, s, es[0], token);
      LostForGood(list, Step(list, s, es[0]), es[1..], t, token);
    }
  }

  /** A step of the process, or of the renewal loop, that drew this token. */
  predicate StepOf<D>(s: System<D>, e: Event, token: string)
    requires CanStep(s, e)
  {
    if e.Renew? then e.token == token else !e.Tick? && !e.Start? && s.procs[e.p].token == token
  }

  /** So nothing it does ever changes the database again: no commit, no late renewal, no late release. */
  lemma NothingAfterLoss<D>(list: seq<Migration<D>>, s: System<D>, es: seq<Event>, t: System<D>, e: Event, token: string)
    requires SystemRun(list, s, es, t) && Passed(s, token) && CanStep(t, e) && StepOf(t, e, token)
    ensures Step(list, t, e).db == t.db
    ensures e.Renew? && t.procs[e.p].token == token ==> Step(list, t, e).procs[e.p].cancelled
  {
    LostForGood(list, s, es, t, token);
  }

  /** Tokens are drawn once: live processes differ in theirs, and one still acquiring does not hold the lease. */
  predicate Tokens<D>(s: System<D>) {
    && (s.db.lease.Some? ==> s.db.lease.value.token in s.issued)
    && (forall p :: 0 <= p < |s.procs| && s.procs[p].stage != Idle ==> s.procs[p].token in s.issued)
    && (forall p, q :: 0 <= p < q < |s.procs| && s.procs[p].stage != Idle && s.procs[q].stage != Idle ==>
          s.procs[p].token != s.procs[q].token)
    && (forall p :: 0 <= p < |s.procs| && Acquiring(s.procs[p]) && s.db.lease.Some? ==>
          s.procs[p].token != s.db.lease.value.token)
  }

  lemma StartKeepsTokens<D>(list: seq<Migration<D>>, s: System<D>, e: Event)
    requires Tokens(s) && CanStep(s, e) && e.Start?
    ensures Tokens(Step(list, s, e))
  {
  }

  lemma AcquiringKeepsTokens<D>(list: seq<Migration<D>>, s: System<D>, e: Event)
    requires Tokens(s) && CanStep(s, e) && (e.TakeOver? || e.Insert?)
    ensures Tokens(Step(list, s, e))
  {
  }

  /** Any other step leaves tokens, and at most releases the lease. */
  lemma OthersKeepTokens<D>(list: seq<Migration<D>>, s: System<D>, e: Event)
    requires Tokens(s) && CanStep(s, e) && !e.Start? && !e.TakeOver? && !e.Insert?
    ensures Tokens(Step(list, s, e))
  {
    var t := Step(list, s, e);
    assert t.issued == s.issued && |t.procs| == |s.procs|;
    assert t.db.lease.Some? ==> s.db.lease.Some? && t.db.lease.value.token == s.db.lease.value.token;
    assert forall p :: 0 <= p < |s.procs| ==>
             && t.procs[p].token == s.procs[p].token
             && (t.procs[p].stage != Idle ==> s.procs[p].stage != Idle)
             && (Acquiring(t.procs[p]) ==> Acquiring(s.procs[p]));
  }

  lemma TokensStay<D>(list: seq<Migration<D>>, s: System<D>, e: Event)
    requires Tokens(s) && CanStep(s, e)
    ensures Tokens(Step(list, s, e))
  {
    if e.Start? {
      StartKeepsTokens(list, s, e);
    } else if e.TakeOver? || e.Insert? {
      AcquiringKeepsTokens(list, s, e);
    } else {
      OthersKeepTokens(list, s, e);
    }
  }

  lemma {:induction false} TokensInRun<D>(list: seq<Migration<D>>, s: System<D>, es: seq<Event>, t: System<D>)
    requires Tokens(s) && SystemRun(list, s, es, t)
    ensures Tokens(t)
    decreases es
  {
    if es != [] {
      TokensStay(list, s, es[0]);
      TokensInRun(list, Step(list, s, es[0]), es[1..], t);
    }
  }

  /** The step that takes the lease from its holder, by takeover or by release, is final for that holder's token. */
  lemma LosingIsFinal<D>(list: seq<Migration<D>>, s: System<D>, e: Event)
    requires Tokens(s) && CanStep(s, e) && s.db.lease.Some?
    requires Step(list, s, e).db.lease.None? || Step(list, s, e).db.lease.value.token != s.db.lease.value.token
    ensures Passed(Step(list, s, e), s.db.lease.value.token)
  {
  }

  /** From a fresh start: after a takeover nothing the old holder does reaches the database again. */
  lemma OldHolderIsHarmless<D>(list: seq<Migration<D>>, s: System<D>, before: seq<Event>, m: System<D>, e: Event,
                               after: seq<Event>, t: System<D>, last: Event, start: D)
    requires Fresh(list, s, start) && SystemRun(list, s, before, m) && CanStep(m, e)
    requires m.db.lease.Some? && Step(list, m, e).db.lease.Some?
    requires Step(list, m, e).db.lease.value.token != m.db.lease.value.token
    requires SystemRun(list, Step(list, m, e), after, t) && CanStep(t, last) && StepOf(t, last, m.db.lease.value.token)
    ensures Step(list, t, last).db == t.db
  {
    TokensInRun(list, s, before, m);
    LosingIsFinal(list, m, e);
    NothingAfterLoss(list, Step(list, m, e), after, t, last, m.db.lease.value.token);
  }

  // ----- The holder is not displaced -----

  /** The time a process read before acquiring has passed. */
  predicate Timely<D>(s: System<D>) {
    forall p :: 0 <= p < |s.procs| && Acquiring(s.procs[p]) ==> s.procs[p].now <= s.clock
  }

  lemma {:induction false} TimelyInRun<D>(list: seq<Migration<D>>, s: System<D>, es: seq<Event>, t: System<D>)
    requires Timely(s) && SystemRun(list, s, es, t)
    ensures Timely(t) && s.clock <= t.clock
    decreases es
  {
    if es != [] {
      assert Timely(Step(list, s, es[0]));
      TimelyInRun(list, Step(list, s, es[0]), es[1..], t);
    }
  }

  predicate Holds<D>(s: System<D>, token: string) {
    s.db.lease.Some? && s.db.lease.value.token == token
  }

  /** Some step of the run is the holder's own release. */
  ghost predicate ReleasedIn<D>(list: seq<Migration<D>>, s: System<D>, es: seq<Event>, t: System<D>, token: string)
    requires SystemRun(list, s, es, t)
    decreases es
  {
    es != [] &&
    ((es[0].Release? && s.procs[es[0].p].token == token) || ReleasedIn(list, Step(list, s, es[0]), es[1..], t, token))
  }

  /** One step cannot take an unexpired row from its holder, and no step shortens it below its term from now. */
  lemma StepDisplaces<D>(list: seq<Migration<D>>, s: System<D>, e: Event, token: string)
    requires Timely(s) && Holds(s, token) && s.clock <= s.db.lease.value.expires && CanStep(s, e)
    ensures var t := Step(list, s, e);
            if e.Release? && s.procs[e.p].token == token then t.db.lease.None?
            else Holds(t, token) && (t.db.lease.value.expires == s.db.lease.value.expires || t.db.lease.value.expires == s.clock + LOCK_TTL)
  {
  }

  /**
   A lease row changes hands only when it has expired or its holder released it:
   in every run that ends within the row's term, the holder still has the row
   exactly when it did not release it.
   */
  lemma {:induction false} HolderKeepsLeaseIff<D>(list: seq<Migration<D>>, s: System<D>, es: seq<Event>, t: System<D>, token: string)
    requires Timely(s) && Tokens(s) && SystemRun(list, s, es, t) && Holds(s, token)
    requires t.clock <= s.db.lease.value.expires && t.clock <= s.clock + LOCK_TTL
    ensures Holds(t, token) <==> !ReleasedIn(list, s, es, t, token)
    decreases es
  {
    TimelyInRun(list, s, es, t);
    if es != [] {
      var m := Step(list, s, es[0]);
      StepDisplaces(list, s, es[0], token);
      TokensStay(list, s, es[0]);
      TimelyInRun(list, s, [es[0]], m);
      if es[0].Release? && s.procs[es[0].p].token == token {
        LosingIsFinal(list, s, es[0]);
        LostForGood(list, m, es[1..], t, token);
      } else {
        HolderKeepsLeaseIff(list, m, es[1..], t, token);
      }
    }
  }

  /** From a fresh start: whoever takes the row, by update or by insert, finds it expired or absent. */
  lemma TakeOverNeedsExpiry<D>(list: seq<Migration<D>>, s: System<D>, es: seq<Event>, t: System<D>, e: Event, start: D)
    requires Fresh(list, s, start) && SystemRun(list, s, es, t) && CanStep(t, e)
    ensures var next := Step(list, t, e).db.lease;
            next.Some? && (t.db.lease.None? || t.db.lease.value.token != next.value.token) ==>
              && (e.TakeOver? || e.Insert?) && next == Some(Lease(t.procs[e.p].token, t.procs[e.p].now + LOCK_TTL))
              && (t.db.lease.Some? ==> t.db.lease.value.expires < t.clock)
  {
    TimelyInRun(list, s, es, t);
  }

  /** A renewal gives the holder a full term from now, and tells a process that it lost its row. */
  lemma RenewalProlongsIff<D>(list: seq<Migration<D>>, s: System<D>, p: nat, token: string)
    requires CanStep(s, Renew(p, token))
    ensures var t := Step(list, s, Renew(p, token));
            if Holds(s, token) then t.db == s.db.(lease := Some(Lease(token, s.clock + LOCK_TTL))) && t.procs == s.procs
            else t.db == s.db && (s.procs[p].token == token ==> t.procs[p].cancelled)
  {
  }

  // ----- A process that is left alone -----

  /** It holds the lease, stands where the next migration is, and nothing has gone wrong. */
  ghost predicate Calm<D>(list: seq<Migration<D>>, s: System<D>, p: nat, start: D) {
    && p < |s.procs| && IsPrefix(list, s.db, start) && Placed(list, |s.db.applied|, s.procs[p])
    && Owns(s.db.lease, s.procs[p].token, s.clock) && !s.procs[p].cancelled
    && (s.procs[p].stage == Migrating ==> s.procs[p].index == |s.db.applied|)
  }

  /** The list is at its end, or goes wrong behind its first n migrations. */
  predicate EndsAt<D>(list: seq<Migration<D>>, n: nat)
    requires n <= |list|
  {
    n == |list| || !Ascending(list, n + 1)
  }

  lemma AscendingNext<D>(list: seq<Migration<D>>, n: nat)
    requires n < |list| && Ascending(list, n)
    ensures Ascending(list, n + 1) <==> WellDefined(list[n]) && (n > 0 ==> list[n - 1].version < list[n].version)
  {
    if WellDefined(list[n]) && (n > 0 ==> list[n - 1].version < list[n].version) {
      forall j, k | 0 <= j < k < n + 1
        ensures list[j].version < list[k].version
      {
        if k == n && j < n - 1 {
          assert list[j].version < list[n - 1].version;
        }
      }
    }
  }

  /** Behind the applied migrations it enters the next one, if there is one and it is in order. */
  lemma CalmCheck<D>(list: seq<Migration<D>>, s: System<D>, p: nat, start: D)
    requires Calm(list, s, p, start) && s.procs[p].stage == Checking
    ensures var t, q, n := Step(list, s, Check(p)), s.procs[p], |s.db.applied|;
            && Calm(list, t, p, start) && t.db == s.db && t.clock == s.clock
            && t.procs[p].stage == (if q.index < n then Checking else if EndsAt(list, n) then Leaving else Migrating)
            && t.procs[p].index == if q.index < n then q.index + 1 else q.index
  {
    var q := s.procs[p];
    CheckPlaced(list, s.db, start, q);
    if q.index < |list| {
      AscendingNext(list, q.index);
      if WellDefined(list[q.index]) && q.previous < list[q.index].version {
        RecordedIff(list, s.db, start, q.index);
      }
    }
  }

  /** Inside a migration it commits, and stands behind it. */
  lemma CalmFinish<D>(list: seq<Migration<D>>, s: System<D>, p: nat, start: D)
    requires Calm(list, s, p, start) && s.procs[p].stage == Migrating
    ensures var t := Step(list, s, Finish(p, true, true, true));
            && Calm(list, t, p, start) && t.procs[p].stage == Checking && t.procs[p].index == |t.db.applied| == |s.db.applied| + 1
            && t.db.lease == s.db.lease && t.clock == s.clock
  {
    RecordedIff(list, s.db, start, s.procs[p].index);
    AscendingNext(list, s.procs[p].index);
    var n := |s.db.applied|;
    assert list[..n + 1][..n] == list[..n];
  }
}
