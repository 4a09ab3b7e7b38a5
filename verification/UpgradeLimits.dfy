/** Write-ahead safety of one upgrade, with the exact condition on its manifest. */
module UpgradeLimits {
  import opened Basics
  import opened Upgrade
  import opened UpgradeProofs
  import opened UpgradeTheorems

  predicate Solid(files: Files, p: Path) {
    p in files ==> files[p].File?
  }

  /** Nothing stands in the way of this upgrade: sources with the right digests, replaceable targets, a new transaction, an unused id. */
  ghost predicate Ready(files: Files, plan: Plan, digest: Digest) {
    && Active !in files && NewTransaction(plan) && plan.arts != [] && (forall p :: p in files ==> !InTxn(p, plan.txn))
    && Solid(files, plan.log) && !CommittedIn(files, plan.log, plan.id)
    && (forall i :: 0 <= i < |plan.arts| ==> IsRegular(files, plan.arts[i].source) && Solid(files, plan.arts[i].target))
    && (forall i :: 0 <= i < |plan.arts| ==>
          files[plan.arts[i].source].content.Data? && digest(files[plan.arts[i].source].content) == plan.arts[i].sha256)
  }

  /** The first artifact really changes its target. */
  predicate Changes(files: Files, plan: Plan) {
    && plan.arts != [] && IsRegular(files, plan.arts[0].source)
    && Strip(At(files, plan.arts[0].target)) != Some(File(files[plan.arts[0].source].content, plan.arts[0].mode, 0))
  }

  function SourceOf(files: Files, a: Artifact): Content {
    if IsRegular(files, a.source) then files[a.source].content else Data("")
  }

  predicate NoBegin(es: seq<Event>) {
    forall k :: 0 <= k < |es| ==> !es[k].Begin?
  }

  /** All that this upgrade can do is safe. */
  ghost predicate AlwaysSafe(s: System, digest: Digest, plan: Plan) {
    forall es: seq<Event>, t :: Runs(s, digest, [Begin(plan)] + es, t) && NoBegin(es) ==> WriteAhead(t)
  }

  // ----- Runs without faults -----

  lemma Step(s: System, digest: Digest, e: Event, es: seq<Event>, t: System)
    requires Enabled(s, e) && Runs(Next(s, digest, e), digest, es, t)
    ensures Runs(s, digest, [e] + es, t)
  {
    assert ([e] + es)[1..] == es;
  }

  /** Staged copies so far, and nothing else in the transaction. */
  ghost predicate StagedSoFar(s: System, plan: Plan, start: Files, n: nat) {
    && s.plan == plan && s.pre == start && n <= |plan.arts|
    && (forall p: Path :: !InTxn(p, plan.txn) ==> At(s.files, p) == At(start, p))
    && (forall i :: 0 <= i < n ==> At(s.files, Staged(plan.txn, i)) == Some(File(SourceOf(start, plan.arts[i]), 0x180, 0)))
    && (forall i: nat :: n <= i ==> Staged(plan.txn, i) !in s.files)
  }

  lemma StageOne(s: System, digest: Digest, plan: Plan, start: Files, n: nat)
    requires Ready(start, plan, digest) && n < |plan.arts| && StagedSoFar(s, plan, start, n) && s.proc == Staging(plan, n)
    requires forall i: nat :: Saved(plan.txn, i) !in s.files
    ensures var t := Next(s, digest, Op(NoFault));
            && Enabled(s, Op(NoFault)) && t.proc == Staging(plan, n + 1) && StagedSoFar(t, plan, start, n + 1)
            && forall i: nat :: Saved(plan.txn, i) !in t.files
  {
    var source := plan.arts[n].source;
    assert source in start && !InTxn(source, plan.txn);
    assert At(s.files, source) == At(start, source);
  }

  lemma {:induction false} StageRun(s: System, digest: Digest, plan: Plan, start: Files, n: nat) returns (es: seq<Event>, t: System)
    requires Ready(start, plan, digest) && StagedSoFar(s, plan, start, n) && s.proc == Staging(plan, n)
    requires forall i: nat :: Saved(plan.txn, i) !in s.files
    ensures Runs(s, digest, es, t) && NoBegin(es) && t.proc == Staging(plan, |plan.arts|) && StagedSoFar(t, plan, start, |plan.arts|)
    ensures forall i: nat :: Saved(plan.txn, i) !in t.files
    decreases |plan.arts| - n
  {
    if n == |plan.arts| {
      es, t := [], s;
    } else {
      StageOne(s, digest, plan, start, n);
      var rest;
      rest, t := StageRun(Next(s, digest, Op(NoFault)), digest, plan, start, n + 1);
      Step(s, digest, Op(NoFault), rest, t);
      es := [Op(NoFault)] + rest;
    }
  }

  ghost predicate BackedUpSoFar(s: System, digest: Digest, plan: Plan, start: Files, n: nat) {
    && StagedSoFar(s, plan, start, |plan.arts|) && s.proc.Backing? && s.proc.plan == plan && |s.proc.backups| == n <= |plan.arts|
    && forall i: nat :: n <= i ==> Saved(plan.txn, i) !in s.files
  }

  lemma BackUpOne(s: System, digest: Digest, plan: Plan, start: Files, n: nat)
    requires Ready(start, plan, digest) && n < |plan.arts| && BackedUpSoFar(s, digest, plan, start, n)
    ensures Enabled(s, Op(NoFault)) && BackedUpSoFar(Next(s, digest, Op(NoFault)), digest, plan, start, n + 1)
  {
    assert At(s.files, plan.arts[n].target) == At(start, plan.arts[n].target);
  }

  lemma {:induction false} BackupRun(s: System, digest: Digest, plan: Plan, start: Files, n: nat) returns (es: seq<Event>, t: System)
    requires Ready(start, plan, digest) && BackedUpSoFar(s, digest, plan, start, n)
    ensures Runs(s, digest, es, t) && NoBegin(es) && BackedUpSoFar(t, digest, plan, start, |plan.arts|)
    decreases |plan.arts| - n
  {
    if n == |plan.arts| {
      es, t := [], s;
    } else {
      BackUpOne(s, digest, plan, start, n);
      var rest;
      rest, t := BackupRun(Next(s, digest, Op(NoFault)), digest, plan, start, n + 1);
      Step(s, digest, Op(NoFault), rest, t);
      es := [Op(NoFault)] + rest;
    }
  }

  /** The journal is written and the first n artifacts are installed. */
  ghost predicate SwitchedSoFar(s: System, plan: Plan, start: Files, n: nat) {
    && s.plan == plan && s.pre == start && n <= |plan.arts|
    && s.proc.Switching? && s.proc.done == n && s.proc.j.plan == plan && |s.proc.j.backups| == |plan.arts|
    && (forall i :: 0 <= i < |plan.arts| ==> At(s.files, Staged(plan.txn, i)) == Some(File(SourceOf(start, plan.arts[i]), 0x180, 0)))
    && (forall i :: 0 <= i < |plan.arts| ==> Solid(s.files, plan.arts[i].target))
    && (plan.log != Active && (forall i :: 0 <= i < |plan.arts| ==> plan.arts[i].target != plan.log) ==>
          At(s.files, plan.log) == At(start, plan.log))
    && (n == 0 ==> JournalIn(s.files) == Some(s.proc.j))
    && (n > 0 ==> At(s.files, plan.arts[n - 1].target) == Some(File(SourceOf(start, plan.arts[n - 1]), plan.arts[n - 1].mode, 0)))
  }

  lemma StagedRun(s: System, digest: Digest, plan: Plan) returns (es: seq<Event>, t: System)
    requires s.proc.Idle? && Ready(s.files, plan, digest)
    ensures Runs(s, digest, [Begin(plan)] + es, t) && NoBegin(es) && BackedUpSoFar(t, digest, plan, s.files, 0)
  {
    var s1 := Next(s, digest, Begin(plan));
    var s2 := Next(s1, digest, Look(true));
    var stage, s3 := StageRun(s2, digest, plan, s.files, 0);
    t := Next(s3, digest, Look(true));
    RunsExtend(s2, digest, stage, s3, Look(true));
    es := [Look(true)] + (stage + [Look(true)]);
    Step(s1, digest, Look(true), stage + [Look(true)], t);
    Step(s, digest, Begin(plan), es, t);
  }

  lemma SavedRun(s: System, digest: Digest, plan: Plan, start: Files) returns (es: seq<Event>, t: System)
    requires Ready(start, plan, digest) && BackedUpSoFar(s, digest, plan, start, 0)
    ensures Runs(s, digest, es, t) && NoBegin(es) && SwitchedSoFar(t, plan, start, 0)
  {
    var backup, m := BackupRun(s, digest, plan, start, 0);
    Prepared0(m, digest, plan, start);
    var p := Next(m, digest, Look(true));
    RunsExtend(s, digest, backup, m, Look(true));
    RunsExtend(s, digest, backup + [Look(true)], p, Op(NoFault));
    es, t := backup + [Look(true)] + [Op(NoFault)], Next(p, digest, Op(NoFault));
  }

  /** From the start to a written journal. */
  lemma PreparedRun(s: System, digest: Digest, plan: Plan) returns (es: seq<Event>, t: System)
    requires s.proc.Idle? && Ready(s.files, plan, digest)
    ensures Runs(s, digest, [Begin(plan)] + es, t) && NoBegin(es) && SwitchedSoFar(t, plan, s.files, 0)
  {
    var stage, m := StagedRun(s, digest, plan);
    var save;
    save, t := SavedRun(m, digest, plan, s.files);
    RunsConcat(s, digest, [Begin(plan)] + stage, m, save, t);
    es := stage + save;
    assert [Begin(plan)] + stage + save == [Begin(plan)] + es;
  }

  lemma Prepared0(s: System, digest: Digest, plan: Plan, start: Files)
    requires Ready(start, plan, digest) && BackedUpSoFar(s, digest, plan, start, |plan.arts|)
    ensures Enabled(s, Look(true))
    ensures var p := Next(s, digest, Look(true));
            Enabled(p, Op(NoFault)) && SwitchedSoFar(Next(p, digest, Op(NoFault)), plan, start, 0)
  {
  }

  lemma SwitchOne(s: System, digest: Digest, plan: Plan, start: Files, n: nat, f: Fault)
    requires NewTransaction(plan) && n < |plan.arts| && SwitchedSoFar(s, plan, start, n) && f != Before
    ensures Enabled(s, Op(f))
    ensures f == NoFault ==> SwitchedSoFar(Next(s, digest, Op(f)), plan, start, n + 1)
    ensures f == After ==>
              && Next(s, digest, Op(f)).proc == Restoring(s.proc.j, |plan.arts|, false, None)
              && Next(s, digest, Op(f)).files == s.files[plan.arts[n].target := File(s.files[Staged(plan.txn, n)].content, plan.arts[n].mode, 0)]
  {
    assert At(s.files, Staged(plan.txn, n)).Some?;
  }

  lemma {:induction false} SwitchRun(s: System, digest: Digest, plan: Plan, start: Files, n: nat, until: nat) returns (es: seq<Event>, t: System)
    requires NewTransaction(plan) && n <= until <= |plan.arts| && SwitchedSoFar(s, plan, start, n)
    ensures Runs(s, digest, es, t) && NoBegin(es) && SwitchedSoFar(t, plan, start, until)
    decreases until - n
  {
    if n == until {
      es, t := [], s;
    } else {
      SwitchOne(s, digest, plan, start, n, NoFault);
      var rest;
      rest, t := SwitchRun(Next(s, digest, Op(NoFault)), digest, plan, start, n + 1, until);
      Step(s, digest, Op(NoFault), rest, t);
      es := [Op(NoFault)] + rest;
    }
  }

  lemma MoreRun(s: System, digest: Digest, plan: Plan, first: seq<Event>, m: System, more: seq<Event>, t: System)
    requires Runs(s, digest, [Begin(plan)] + first, m) && Runs(m, digest, more, t) && NoBegin(first) && NoBegin(more)
    ensures Runs(s, digest, [Begin(plan)] + (first + more), t) && NoBegin(first + more)
  {
    RunsConcat(s, digest, [Begin(plan)] + first, m, more, t);
    assert [Begin(plan)] + first + more == [Begin(plan)] + (first + more);
  }

  // ----- Three ways to lose the way back -----

  /** The log is a target: a rejection writes a line into it, and nothing will take that back. */
  lemma LogAsTarget(s: System, digest: Digest, plan: Plan, i: nat) returns (es: seq<Event>, t: System)
    requires s.proc.Idle? && Ready(s.files, plan, digest) && i < |plan.arts| && plan.arts[i].target == plan.log
    ensures Runs(s, digest, [Begin(plan)] + es, t) && NoBegin(es) && !WriteAhead(t)
  {
    es := [Look(true), Op(Before), Op(NoFault)];
    t := RejectedRun(s, digest, plan);
    assert !WriteAhead(t) by {
      LineInLog(s.files, plan.log, Record(plan.id, Rejected), plan.id);
      assert !Kept(t.files, t.pre, t.plan.arts[i].target);
    }
  }

  /** An upgrade whose first copy fails, and the line about it. */
  lemma RejectedRun(s: System, digest: Digest, plan: Plan) returns (t: System)
    requires s.proc.Idle? && Ready(s.files, plan, digest)
    ensures Runs(s, digest, [Begin(plan)] + [Look(true), Op(Before), Op(NoFault)], t)
    ensures t.plan == plan && t.pre == s.files && t.files == AppendAudit(s.files, plan.log, Record(plan.id, Rejected), NoFault).0
  {
    var s1 := Next(s, digest, Begin(plan));
    var s2 := Next(s1, digest, Look(true));
    var s3 := Next(s2, digest, Op(Before));
    t := Next(s3, digest, Op(NoFault));
    assert s2 == Enter(s1, s.files, plan) && s3 == s2.(proc := Rejecting(plan));
    assert Runs(t, digest, [], t);
    Step(s3, digest, Op(NoFault), [], t);
    Step(s2, digest, Op(Before), [Op(NoFault)], t);
    Step(s1, digest, Look(true), [Op(Before), Op(NoFault)], t);
    Step(s, digest, Begin(plan), [Look(true), Op(Before), Op(NoFault)], t);
  }

  lemma LineInLog(files: Files, log: Path, r: Record, id: string)
    requires Solid(files, log) && !CommittedIn(files, log, id) && (r.status != CommitRecord && r.status != CommittedAfterRecovery)
    ensures var next := AppendAudit(files, log, r, NoFault).0;
            !Kept(next, files, log) && !CommittedIn(next, log, id) && (log == Active || Active !in files ==> JournalIn(next).None?)
  {
    var next := AppendAudit(files, log, r, NoFault).0;
    assert Records(next[log].content) == (if log in files then Records(files[log].content) else []) + [r];
  }

  /** The journal is a target: installing it there removes the record of the backups. */
  lemma JournalAsTarget(s: System, digest: Digest, plan: Plan, i: nat) returns (es: seq<Event>, t: System)
    requires s.proc.Idle? && Ready(s.files, plan, digest) && i < |plan.arts| && plan.arts[i].target == Active
    requires plan.log != Active && forall k :: 0 <= k < |plan.arts| ==> plan.arts[k].target != plan.log
    ensures Runs(s, digest, [Begin(plan)] + es, t) && NoBegin(es) && !WriteAhead(t)
  {
    var prepare, m := PreparedRun(s, digest, plan);
    var switching;
    switching, t := SwitchRun(m, digest, plan, s.files, 0, i + 1);
    es := prepare + switching;
    assert Runs(s, digest, [Begin(plan)] + es, t) && NoBegin(es) by {
      MoreRun(s, digest, plan, prepare, m, switching, t);
    }
    assert !WriteAhead(t) by {
      LostJournal(t, digest, plan, s.files, i);
    }
  }

  lemma LostJournal(t: System, digest: Digest, plan: Plan, start: Files, i: nat)
    requires Ready(start, plan, digest) && i < |plan.arts| && plan.arts[i].target == Active && SwitchedSoFar(t, plan, start, i + 1)
    requires plan.log != Active && forall k :: 0 <= k < |plan.arts| ==> plan.arts[k].target != plan.log
    ensures !WriteAhead(t)
  {
    assert !Kept(t.files, t.pre, t.plan.arts[i].target);
    assert At(t.files, plan.log) == At(start, plan.log);
  }

  lemma {:induction false} FailingRestores(s: System, digest: Digest) returns (es: seq<Event>, t: System)
    requires s.proc.Restoring? && s.proc.left <= |s.proc.j.backups| && s.proc.after.None?
    ensures Runs(s, digest, es, t) && NoBegin(es) && t.files == s.files && t.plan == s.plan && t.pre == s.pre
    ensures t.proc.Restoring? && t.proc.left == 0 && t.proc.j == s.proc.j && t.proc.after.None?
    ensures s.proc.left > 0 || s.proc.failed ==> t.proc.failed
    decreases if s.proc.Restoring? then s.proc.left else 0
  {
    if s.proc.left == 0 {
      es, t := [], s;
    } else {
      var next := Next(s, digest, Op(Before));
      assert next == s.(proc := s.proc.(left := s.proc.left - 1, failed := true));
      var rest;
      rest, t := FailingRestores(next, digest);
      Step(s, digest, Op(Before), rest, t);
      es := [Op(Before)] + rest;
    }
  }

  /** All restores fail, and a line about it is logged. */
  lemma FailedRollback(s: System, digest: Digest) returns (es: seq<Event>, q: System, t: System)
    requires s.proc.Restoring? && 0 < s.proc.left <= |s.proc.j.backups| && s.proc.after.None?
    ensures Runs(s, digest, es, t) && NoBegin(es) && q.files == s.files && q.plan == s.plan && q.pre == s.pre
    ensures q.proc == Restoring(s.proc.j, 0, true, None) && t == Next(Next(q, digest, Look(true)), digest, Op(NoFault))
  {
    es, q := FailingRestores(s, digest);
    var logging := Next(q, digest, Look(true));
    t := Next(logging, digest, Op(NoFault));
    RunsExtend(s, digest, es, q, Look(true));
    RunsExtend(s, digest, es + [Look(true)], logging, Op(NoFault));
    es := es + [Look(true)] + [Op(NoFault)];
  }

  /** The journal is the log: a line about a rollback that failed makes it unreadable. */
  lemma JournalAsLog(s: System, digest: Digest, plan: Plan) returns (es: seq<Event>, t: System)
    requires s.proc.Idle? && Ready(s.files, plan, digest) && Changes(s.files, plan) && plan.log == Active
    requires forall k :: 0 <= k < |plan.arts| ==> plan.arts[k].target != Active
    ensures Runs(s, digest, [Begin(plan)] + es, t) && NoBegin(es) && !WriteAhead(t)
  {
    var prepare, m := PreparedRun(s, digest, plan);
    var failing, r, q;
    SwitchOne(m, digest, plan, s.files, 0, After);
    r := Next(m, digest, Op(After));
    failing, q, t := FailedRollback(r, digest);
    UnreadableJournal(m, digest, plan, s.files, r, q, t);
    Step(m, digest, Op(After), failing, t);
    MoreRun(s, digest, plan, prepare, m, [Op(After)] + failing, t);
    es := prepare + ([Op(After)] + failing);
  }

  lemma UnreadableJournal(m: System, digest: Digest, plan: Plan, start: Files, r: System, q: System, t: System)
    requires NewTransaction(plan) && plan.log == Active && plan.arts != [] && plan.arts[0].target != Active && Changes(start, plan)
    requires SwitchedSoFar(m, plan, start, 0) && r == Next(m, digest, Op(After))
    requires q.files == r.files && q.plan == r.plan && q.pre == r.pre
    requires q.proc.Restoring? && q.proc.left == 0 && q.proc.j == m.proc.j && q.proc.after.None? && q.proc.failed
    requires r.files == m.files[plan.arts[0].target := File(m.files[Staged(plan.txn, 0)].content, plan.arts[0].mode, 0)]
    requires t == Next(Next(q, digest, Look(true)), digest, Op(NoFault))
    ensures !WriteAhead(t)
  {
    assert At(m.files, Staged(plan.txn, 0)) == Some(File(SourceOf(start, plan.arts[0]), 0x180, 0));
    assert Records(t.files[Active].content) == [Record(plan.id, RollbackFailed)];
    assert !Kept(t.files, t.pre, t.plan.arts[0].target);
  }

  /**
   An upgrade that nothing stands in the way of is safe in everything it can do
   if and only if neither its journal nor its log is among its targets, and the
   log is not the journal.
   */
  lemma WriteAheadIff(s: System, digest: Digest, plan: Plan)
    requires Inv(s, digest) && s.proc.Idle? && Ready(s.files, plan, digest) && Changes(s.files, plan)
    ensures AlwaysSafe(s, digest, plan) <==> Clear(plan)
  {
    if Clear(plan) {
      forall es: seq<Event>, t | Runs(s, digest, [Begin(plan)] + es, t) && NoBegin(es)
        ensures WriteAhead(t)
      {
        RunKeepsInv(s, digest, [Begin(plan)] + es, t);
      }
    } else if exists i :: 0 <= i < |plan.arts| && plan.arts[i].target == plan.log {
      var i :| 0 <= i < |plan.arts| && plan.arts[i].target == plan.log;
      var es, t := LogAsTarget(s, digest, plan, i);
    } else if plan.log == Active {
      var es, t := JournalAsLog(s, digest, plan);
    } else {
      var i :| 0 <= i < |plan.arts| && plan.arts[i].target == Active;
      var es, t := JournalAsTarget(s, digest, plan, i);
    }
  }

  /** Recovery logs its success too: with the log among the targets it returns with that target changed. */
  lemma LogTargetNotRestored(s: System, digest: Digest, next: Plan, i: nat)
    requires s.proc.Relogging? && s.proc.restored && s.proc.after == Some(next) && s.proc.j.plan == s.plan
    requires i < |s.plan.arts| && s.plan.arts[i].target == s.plan.log != Active
    requires PutBack(s.files, s.pre, s.plan, 0) && Solid(s.files, s.plan.log)
    ensures var m := Next(s, digest, Op(NoFault));
            && Enabled(m, Op(NoFault)) && Next(m, digest, Op(NoFault)).proc.Staging?
            && !Kept(Next(m, digest, Op(NoFault)).files, s.pre, s.plan.arts[i].target)
  {
    var log, r := s.plan.log, RestoreRecord(s.proc.j, true, Some(next));
    assert At(s.files, log) == Strip(At(s.pre, log));
    var files := AppendAudit(s.files, log, r, NoFault).0;
    assert log in s.files ==> files[log].content == Line(s.files[log].content, r);
  }
}
