/** The upgrade command as code: each method comes with the steps of the upgrade system that it amounts to. */
module UpgradeRun {
  import opened Basics
  import opened Upgrade
  import opened UpgradeProofs
  import opened UpgradeTheorems
  import opened UpgradeLimits
  import opened UpgradeOutcomes
  import opened UpgradeAnswers

  // ----- The disk -----

  class Disk {
    const host: Host
    var files: Files

    constructor (files: Files, host: Host)
      ensures this.files == files && this.host == host
    {
      this.files, this.host := files, host;
    }

    /** How an operation is going to end. */
    method Environment() returns (fault: Fault)
      ensures host.reliable ==> fault == NoFault
    {
      fault := *;
      if host.reliable {
        fault := NoFault;
      }
    }

    /** Writes a temporary file in the target's directory and renames it into place. */
    method Install(source: Path, target: Path, mode: nat) returns (ok: bool, ghost f: Fault)
      modifies this
      ensures (files, ok) == Upgrade.Install(old(files), source, target, mode, f)
      ensures !IsRegular(old(files), source) || (target in old(files) && old(files)[target].NotRegular?) ==> !ok && files == old(files)
      ensures ok ==> files == old(files)[target := File(old(files)[source].content, mode, 0)]
      ensures host.reliable ==> f == NoFault
    {
      var fault := Environment();
      f := fault;
      if !IsRegular(files, source) || fault == Before {
        return false, fault;
      }
      if target in files && files[target].NotRegular? {
        return false, fault;
      }
      files := files[target := File(files[source].content, mode, 0)];
      ok := fault == NoFault;
    }

    /** Removes a file; a file that is not there counts as removed. */
    method Remove(p: Path) returns (ok: bool, ghost f: Fault)
      modifies this
      ensures (files, ok) == Upgrade.Remove(old(files), p, f)
      ensures host.reliable ==> f == NoFault
    {
      var fault := Environment();
      f := fault;
      if fault == Before {
        return false, fault;
      }
      files := files - {p};
      ok := fault == NoFault;
    }

    method WriteJournal(j: Journal) returns (ok: bool, ghost f: Fault)
      modifies this
      ensures (files, ok) == Upgrade.WriteJournal(old(files), j, f)
      ensures host.reliable ==> f == NoFault
    {
      var fault := Environment();
      f := fault;
      if fault == Before {
        return false, fault;
      }
      files := files[Active := File(Encoded(j), 0x180, 0)];
      ok := fault == NoFault;
    }

    method AppendAudit(log: Path, r: Record) returns (ok: bool, ghost f: Fault)
      modifies this
      ensures (files, ok) == Upgrade.AppendAudit(old(files), log, r, f)
      ensures host.reliable ==> f == NoFault
    {
      var fault := Environment();
      f := fault;
      if fault == Before || (log in files && files[log].NotRegular?) {
        return false, fault;
      }
      var entry := if log in files then files[log] else File(Data(""), 0x180, 0);
      files := files[log := entry.(content := Line(entry.content, r))];
      ok := fault == NoFault;
    }

    /** Creates a new file as a copy; cut short, it may hold anything. */
    method Copy(source: Path, target: Path) returns (ok: bool, ghost torn: Option<Content>, ghost f: Fault)
      modifies this
      ensures torn.None? ==> (files, ok) == Upgrade.Copy(old(files), source, target, f)
      ensures target in old(files) || !IsRegular(old(files), source) ==> !ok && files == old(files)
      ensures ok ==> IsRegular(files, target) && files[target].content == old(files)[source].content
      ensures host.reliable ==> f == NoFault && torn.None?
      ensures torn.Some? ==> !ok && files == if target in old(files) then old(files) else old(files)[target := File(torn.value, 0x180, 0)]
    {
      var fault := Environment();
      f := fault;
      if !IsRegular(files, source) || target in files || fault == Before {
        return false, None, fault;
      }
      var stuck: bool := *;
      if stuck && !host.reliable {
        var partial: Content := *;
        files := files[target := File(partial, 0x180, 0)];
        return false, Some(partial), fault;
      }
      files := files[target := File(files[source].content, 0x180, 0)];
      return fault == NoFault, None, fault;
    }
  }

  // ----- The command -----

  class Upgrader {
    const disk: Disk
    const digest: Digest
    ghost var proc: Proc
    ghost var plan: Plan
    ghost var pre: Files

    ghost function Abs(): System
      reads this, disk
    {
      System(disk.files, proc, plan, pre)
    }

    constructor (disk: Disk, digest: Digest, plan: Plan)
      ensures this.disk == disk && this.digest == digest && Abs() == System(disk.files, Idle, plan, disk.files)
    {
      this.disk, this.digest := disk, digest;
      this.proc, this.plan, this.pre := Idle, plan, disk.files;
    }

    ghost method Become(s: System)
      modifies this
      requires s.files == disk.files
      ensures Abs() == s
    {
      proc, plan, pre := s.proc, s.plan, s.pre;
    }

    /** Copies and checks every artifact before anything of the host is touched. */
    method StageArtifacts(p: Plan) returns (ok: bool, ghost es: seq<Event>)
      requires proc == Staging(p, 0)
      modifies this, disk
      ensures HostRun(old(Abs()), digest, es, Abs(), disk.host, false)
      ensures proc == if ok then Backing(p, []) else Rejecting(p)
      ensures ok ==> disk.host.accepts
    {
      es := [];
      ghost var s := Abs();
      for i := 0 to |p.arts|
        invariant HostRun(s, digest, es, Abs(), disk.host, false) && proc == Staging(p, i)
      {
        ghost var m := Abs();
        var copied;
        ghost var torn, f;
        copied, torn, f := disk.Copy(p.arts[i].source, Staged(p.txn, i));
        var fine := copied && digest(disk.files[Staged(p.txn, i)].content) == p.arts[i].sha256;
        ghost var e := if torn.Some? then Torn(torn.value) else Op(f);
        HostRunExtend(s, digest, es, m, e, disk.host, false);
        es := es + [e];
        Become(Next(m, digest, e));
        if !fine {
          return false, es;
        }
      }
      ok := disk.host.accepts;
      HostRunExtend(s, digest, es, Abs(), Look(ok), disk.host, false);
      es := es + [Look(ok)];
      Become(Next(Abs(), digest, Look(ok)));
    }

    /** A copy of every target that exists, and a note of every one that does not. */
    method BackupTargets(p: Plan) returns (ok: bool, backups: seq<Backup>, ghost es: seq<Event>)
      requires proc == Backing(p, [])
      modifies this, disk
      ensures HostRun(old(Abs()), digest, es, Abs(), disk.host, false)
      ensures proc == if ok then Preparing(p, backups) else Rejecting(p)
      ensures ok ==> disk.host.syncs
    {
      es, backups := [], [];
      ghost var s := Abs();
      for i := 0 to |p.arts|
        invariant HostRun(s, digest, es, Abs(), disk.host, false) && proc == Backing(p, backups) && |backups| == i
      {
        ghost var m := Abs();
        var saved;
        ghost var e;
        saved, backups, e := BackUpOne(p, backups);
        HostRunExtend(s, digest, es, m, e, disk.host, false);
        es := es + [e];
        if !saved {
          return false, backups, es;
        }
      }
      ok := disk.host.syncs;
      HostRunExtend(s, digest, es, Abs(), Look(ok), disk.host, false);
      es := es + [Look(ok)];
      Become(Next(Abs(), digest, Look(ok)));
    }

    method BackUpOne(p: Plan, backups: seq<Backup>) returns (ok: bool, now: seq<Backup>, ghost e: Event)
      requires proc == Backing(p, backups) && |backups| < |p.arts|
      modifies this, disk
      ensures Suits(disk.host, old(proc), e) && Enabled(old(Abs()), e) && Abs() == Next(old(Abs()), digest, e)
      ensures proc == if ok then Backing(p, now) else Rejecting(p)
      ensures ok ==> |now| == |backups| + 1
    {
      ghost var m := Abs();
      var target, path := p.arts[|backups|].target, Saved(p.txn, |backups|);
      now := backups;
      if target !in disk.files {
        var fault := disk.Environment();
        ok, e := fault == NoFault, Op(fault);
        if ok {
          now := backups + [Backup(target, Active, false, 0)];
        }
      } else if disk.files[target].NotRegular? {
        ok, e := false, Op(NoFault);
      } else {
        var mode := disk.files[target].perm;
        ghost var torn, f;
        ok, torn, f := disk.Copy(target, path);
        e := if torn.Some? then Torn(torn.value) else Op(f);
        if ok {
          now := backups + [Backup(target, path, true, mode)];
        }
      }
      Become(Next(m, digest, e));
    }

    /** Switches the targets one by one. */
    method Apply(j: Journal) returns (ok: bool, ghost es: seq<Event>)
      requires proc == Switching(j, 0)
      modifies this, disk
      ensures HostRun(old(Abs()), digest, es, Abs(), disk.host, false)
      ensures proc == if ok then Switching(j, |j.plan.arts|) else Restoring(j, |j.backups|, false, None)
    {
      es := [];
      ghost var s := Abs();
      for i := 0 to |j.plan.arts|
        invariant HostRun(s, digest, es, Abs(), disk.host, false) && proc == Switching(j, i)
      {
        ghost var m := Abs();
        ghost var f;
        ok, f := disk.Install(Staged(j.plan.txn, i), j.plan.arts[i].target, j.plan.arts[i].mode);
        HostRunExtend(s, digest, es, m, Op(f), disk.host, false);
        es := es + [Op(f)];
        Become(Next(m, digest, Op(f)));
        if !ok {
          return;
        }
      }
      ok := true;
    }

    /** Restores all targets, last first, going on after a failure; then restarts the services and checks them. */
    method Rollback(j: Journal, ghost after: Option<Plan>) returns (ok: bool, ghost es: seq<Event>)
      requires proc == Restoring(j, |j.backups|, false, after)
      modifies this, disk
      ensures HostRun(old(Abs()), digest, es, Abs(), disk.host, true) && proc == Relogging(j, ok, after)
    {
      es := [];
      ghost var s := Abs();
      var failed := false;
      var i := |j.backups|;
      while 0 < i
        invariant 0 <= i <= |j.backups| && HostRun(s, digest, es, Abs(), disk.host, true) && proc == Restoring(j, i, failed, after)
      {
        i := i - 1;
        ghost var m := Abs();
        var b, restored := j.backups[i], false;
        ghost var f;
        if b.existed {
          restored, f := disk.Install(b.backupPath, b.target, b.mode);
        } else {
          restored, f := disk.Remove(b.target);
        }
        if !restored {
          failed := true;
        }
        HostRunExtend(s, digest, es, m, Op(f), disk.host, true);
        es := es + [Op(f)];
        Become(Next(m, digest, Op(f)));
      }
      var healthy := disk.host.restarts;
      ok := !failed && healthy;
      HostRunExtend(s, digest, es, Abs(), Look(healthy), disk.host, true);
      es := es + [Look(healthy)];
      Become(Next(Abs(), digest, Look(healthy)));
    }

    /** Logs how the rollback went and, if it worked, forgets the journal. */
    method CloseRollback(j: Journal, restored: bool, status: Status, ghost after: Option<Plan>) returns (ok: bool, ghost es: seq<Event>)
      requires proc == Relogging(j, restored, after) && Record(j.plan.id, status) == RestoreRecord(j, restored, after)
      modifies this, disk
      ensures HostRun(old(Abs()), digest, es, Abs(), disk.host, true) && (ok ==> restored)
      ensures proc == if ok && after.Some? then Staging(after.value, 0) else Idle
    {
      ghost var s := Abs();
      var logged;
      ghost var f;
      logged, f := disk.AppendAudit(j.plan.log, Record(j.plan.id, status));
      HostRunExtend(s, digest, [], s, Op(f), disk.host, true);
      es := [] + [Op(f)];
      Become(Next(s, digest, Op(f)));
      if !restored {
        return false, es;
      }
      ghost var m := Abs();
      var removed;
      removed, f := disk.Remove(Active);
      HostRunExtend(s, digest, es, m, Op(f), disk.host, true);
      es := es + [Op(f)];
      Become(Next(m, digest, Op(f)));
      ok := removed && logged;
    }

    /** Rolls back, during a recovery or after a failed upgrade. */
    method Undo(j: Journal, after: Option<Plan>) returns (ok: bool, ghost es: seq<Event>)
      requires proc == Restoring(j, |j.backups|, false, after)
      modifies this, disk
      ensures HostRun(old(Abs()), digest, es, Abs(), disk.host, true)
      ensures proc == if ok && after.Some? then Staging(after.value, 0) else Idle
    {
      ghost var s := Abs();
      var restored;
      restored, es := Rollback(j, after);
      ghost var m := Abs();
      ghost var more;
      var status := if after.None? then (if restored then RolledBack else RollbackFailed) else if restored then Recovered else RecoveryFailed;
      ok, more := CloseRollback(j, restored, status, after);
      HostRunConcat(s, digest, es, m, more, Abs(), disk.host, true);
      es := es + more;
    }

    /** Completes an upgrade whose services answer. */
    method Resume(j: Journal, next: Plan) returns (ok: bool, ghost es: seq<Event>)
      requires proc == Resuming(j, next)
      modifies this, disk
      ensures HostRun(old(Abs()), digest, es, Abs(), disk.host, true)
      ensures proc == if ok then Staging(next, 0) else Idle
    {
      ghost var s := Abs();
      ghost var f, m, more;
      ok, f := disk.AppendAudit(j.plan.log, Record(j.plan.id, CommittedAfterRecovery));
      HostRunExtend(s, digest, [], s, Op(f), disk.host, true);
      es := [] + [Op(f)];
      Become(Next(s, digest, Op(f)));
      if !ok {
        return;
      }
      m := Abs();
      ok, f := disk.WriteJournal(j.(phase := Committed));
      HostRunExtend(s, digest, es, m, Op(f), disk.host, true);
      es := es + [Op(f)];
      Become(Next(m, digest, Op(f)));
      if !ok {
        return;
      }
      m := Abs();
      ok, more := ClearJournal(next);
      HostRunConcat(s, digest, es, m, more, Abs(), disk.host, true);
      es := es + more;
    }

    /** What every start does first: undo or complete an interrupted upgrade. */
    method Recover(next: Plan) returns (ok: bool, ghost es: seq<Event>)
      requires proc == Starting(next)
      modifies this, disk
      ensures HostRun(old(Abs()), digest, es, Abs(), disk.host, true)
      ensures proc == if ok then Staging(next, 0) else Idle
      ensures Active in old(disk.files) && JournalIn(old(disk.files)).None? ==> !ok && disk.files == old(disk.files)
    {
      ghost var s := Abs();
      var healthy := disk.host.answering;
      HostRunExtend(s, digest, [], s, Look(healthy), disk.host, true);
      es := [] + [Look(healthy)];
      Become(Next(s, digest, Look(healthy)));
      if Active !in disk.files {
        return true, es;
      }
      if disk.files[Active].NotRegular? || !disk.files[Active].content.Encoded? {
        return false, es;
      }
      var j := disk.files[Active].content.journal;
      ghost var m := Abs();
      ghost var more;
      if j.phase == Committed {
        ok, more := ClearJournal(next);
      } else if j.phase == Healthy && healthy {
        ok, more := Resume(j, next);
      } else if |j.backups| != |j.plan.arts| || j.plan.txn == "" {
        return false, es;
      } else {
        ok, more := Undo(j, Some(next));
      }
      HostRunConcat(s, digest, es, m, more, Abs(), disk.host, true);
      es := es + more;
    }

    method ClearJournal(next: Plan) returns (ok: bool, ghost es: seq<Event>)
      requires proc == Clearing(next)
      modifies this, disk
      ensures HostRun(old(Abs()), digest, es, Abs(), disk.host, true)
      ensures proc == if ok then Staging(next, 0) else Idle
    {
      ghost var s := Abs();
      ghost var f;
      ok, f := disk.Remove(Active);
      HostRunExtend(s, digest, [], s, Op(f), disk.host, true);
      es := [] + [Op(f)];
      Become(Next(s, digest, Op(f)));
    }

    /** Stages the artifacts and backs up the targets. */
    method CopyAll(p: Plan) returns (ok: bool, backups: seq<Backup>, ghost es: seq<Event>)
      requires proc == Staging(p, 0)
      modifies this, disk
      ensures HostRun(old(Abs()), digest, es, Abs(), disk.host, false)
      ensures proc == if ok then Preparing(p, backups) else Rejecting(p)
      ensures ok ==> Switches(disk.host)
    {
      ghost var s := Abs();
      backups := [];
      ok, es := StageArtifacts(p);
      if ok {
        ghost var m := Abs();
        ghost var more;
        ok, backups, more := BackupTargets(p);
        HostRunConcat(s, digest, es, m, more, Abs(), disk.host, false);
        es := es + more;
      }
    }

    /** From staged artifacts to a prepared journal. */
    method Prepare(p: Plan) returns (ok: bool, j: Journal, ghost es: seq<Event>)
      requires proc == Staging(p, 0)
      modifies this, disk
      ensures HostRun(old(Abs()), digest, es, Abs(), disk.host, false) && j.plan == p
      ensures proc == if ok then Switching(j, 0) else Idle
      ensures ok ==> Switches(disk.host)
      ensures Here(old(Abs()), digest, old(plan), old(pre), disk.host) ==>
                ok == Switches(disk.host) && Here(Abs(), digest, old(plan), old(pre), disk.host)
    {
      ghost var s := Abs();
      var backups;
      ok, backups, es := CopyAll(p);
      j := Journal(p, Prepared, backups);
      ghost var m := Abs();
      StaysHere(s, digest, es, m, disk.host);
      ghost var f;
      if ok {
        ok, f := disk.WriteJournal(j);
      } else {
        var _, g := disk.AppendAudit(p.log, Record(p.id, Rejected));
        f := g;
      }
      Become(Next(m, digest, Op(f)));
      HostRunExtend(s, digest, es, m, Op(f), disk.host, false);
      es := es + [Op(f)];
      StaysHere(s, digest, es, Abs(), disk.host);
    }

    /** Switches the targets, and marks the journal with that. */
    method SwitchTargets(prepared: Journal) returns (ok: bool, j: Journal, ghost es: seq<Event>)
      requires proc == Switching(prepared, 0)
      modifies this, disk
      ensures HostRun(old(Abs()), digest, es, Abs(), disk.host, false) && j == prepared.(phase := j.phase)
      ensures proc == if ok then Checking(j) else Restoring(j, |j.backups|, false, None)
    {
      ghost var s := Abs();
      j := prepared;
      ok, es := Apply(j);
      if ok {
        j := j.(phase := Switched);
        ghost var m, f := Abs(), NoFault;
        ok, f := disk.WriteJournal(j);
        HostRunExtend(s, digest, es, m, Op(f), disk.host, false);
        es := es + [Op(f)];
        Become(Next(m, digest, Op(f)));
      }
    }

    /** Restarts the services and asks them, and marks the journal as healthy if they answer. */
    method CheckHealth(switched: Journal) returns (ok: bool, j: Journal, ghost es: seq<Event>)
      requires proc == Checking(switched)
      modifies this, disk
      ensures HostRun(old(Abs()), digest, es, Abs(), disk.host, false) && j == switched.(phase := j.phase)
      ensures proc == if ok then Logging(j) else Restoring(j, |j.backups|, false, None)
      ensures ok ==> disk.host.healthy
    {
      ghost var s := Abs();
      j := switched;
      var healthy := disk.host.healthy;
      ok := healthy;
      HostRunExtend(s, digest, [], s, Look(healthy), disk.host, false);
      es := [] + [Look(healthy)];
      Become(Next(s, digest, Look(healthy)));
      if ok {
        j := j.(phase := Healthy);
        ghost var m, f := Abs(), NoFault;
        ok, f := disk.WriteJournal(j);
        HostRunExtend(s, digest, es, m, Op(f), disk.host, false);
        es := es + [Op(f)];
        Become(Next(m, digest, Op(f)));
      }
    }

    /** Switches the targets and checks health, advancing the journal's phase. */
    method Switch(prepared: Journal) returns (ok: bool, j: Journal, ghost es: seq<Event>)
      requires proc == Switching(prepared, 0)
      modifies this, disk
      ensures HostRun(old(Abs()), digest, es, Abs(), disk.host, false) && j == prepared.(phase := j.phase)
      ensures proc == if ok then Logging(j) else Restoring(j, |j.backups|, false, None)
      ensures ok ==> disk.host.healthy
    {
      ghost var s := Abs();
      ok, j, es := SwitchTargets(prepared);
      if ok {
        ghost var m, more := Abs(), [];
        ok, j, more := CheckHealth(j);
        HostRunConcat(s, digest, es, m, more, Abs(), disk.host, false);
        es := es + more;
      }
    }

    /** Records the commit, then forgets the journal. */
    method Commit(j: Journal) returns (ok: bool, ghost es: seq<Event>)
      requires proc == Logging(j)
      modifies this, disk
      ensures HostRun(old(Abs()), digest, es, Abs(), disk.host, false) && proc == Idle
      ensures ok && Inv(old(Abs()), digest) ==> Active !in disk.files && AllNew(disk.files, j.plan)
      ensures disk.host.reliable && Active in old(disk.files) && Active !in disk.files ==> ok
    {
      ok, es := LogAndMark(j);
      if !ok {
        return;
      }
      ghost var m, first := Abs(), es;
      ghost var e;
      ok, e := CloseJournal(j);
      HostRunExtend(old(Abs()), digest, first, m, e, disk.host, false);
      es := first + [e];
    }

    /** The commit is logged, and the journal says so. */
    method LogAndMark(j: Journal) returns (ok: bool, ghost es: seq<Event>)
      requires proc == Logging(j)
      modifies this, disk
      ensures HostRun(old(Abs()), digest, es, Abs(), disk.host, false) && proc == if ok then Finishing(j) else Idle
      ensures Inv(old(Abs()), digest) ==> Inv(Abs(), digest)
      ensures Active in old(disk.files) ==> Active in disk.files
    {
      ghost var s := Abs();
      ghost var e;
      ok, e := LogCommit(j);
      HostRunExtend(s, digest, [], s, e, disk.host, false);
      es := [] + [e];
      if ok {
        ghost var m := Abs();
        ok, e := MarkCommitted(j);
        HostRunExtend(s, digest, es, m, e, disk.host, false);
        es := es + [e];
      }
      if Inv(s, digest) {
        HostRunKeepsInv(s, digest, es, Abs(), disk.host, false);
      }
    }

    /** The commit is logged; a failure leaves the healthy journal. */
    method LogCommit(j: Journal) returns (ok: bool, ghost e: Event)
      requires proc == Logging(j)
      modifies this, disk
      ensures Enabled(old(Abs()), e) && Abs() == Next(old(Abs()), digest, e) && Suits(disk.host, old(proc), e)
      ensures proc == (if ok then Closing(j) else Idle) && (Active in old(disk.files) ==> Active in disk.files)
    {
      ghost var m, f := Abs(), NoFault;
      ok, f := disk.AppendAudit(j.plan.log, Record(j.plan.id, CommitRecord));
      e := Op(f);
      Become(Next(m, digest, e));
    }

    /** The journal is marked as committed. */
    method MarkCommitted(j: Journal) returns (ok: bool, ghost e: Event)
      requires proc == Closing(j)
      modifies this, disk
      ensures Enabled(old(Abs()), e) && Abs() == Next(old(Abs()), digest, e) && Suits(disk.host, old(proc), e)
      ensures proc == (if ok then Finishing(j) else Idle) && (Active in old(disk.files) ==> Active in disk.files)
    {
      ghost var m, f := Abs(), NoFault;
      ok, f := disk.WriteJournal(j.(phase := Committed));
      e := Op(f);
      Become(Next(m, digest, e));
    }

    /** The committed journal is removed. */
    method CloseJournal(j: Journal) returns (ok: bool, ghost e: Event)
      requires proc == Finishing(j)
      modifies this, disk
      ensures Enabled(old(Abs()), e) && Abs() == Next(old(Abs()), digest, e) && Suits(disk.host, old(proc), e) && proc == Idle
      ensures disk.host.reliable ==> ok
      ensures ok && Inv(old(Abs()), digest) ==> Active !in disk.files && AllNew(disk.files, j.plan)
    {
      ghost var m, f := Abs(), NoFault;
      if Inv(m, digest) {
        FinishedIsNew(m, digest, j);
      }
      ok, f := disk.Remove(Active);
      e := Op(f);
      Become(Next(m, digest, e));
    }

    /** The log shows the commit, and each target holds the artifact that was last installed there, checked before. */
    ghost predicate AllNew(files: Files, p: Plan) {
      CommittedIn(files, p.log, p.id) && Written(files, p, |p.arts|) && AllStaged(files, p, digest, |p.arts|)
    }

    /** Commits a switched and healthy upgrade, or undoes one that is not. */
    method Settle(j: Journal, switched: bool) returns (ok: bool, ghost es: seq<Event>)
      requires proc == if switched then Logging(j) else Restoring(j, |j.backups|, false, None)
      modifies this, disk
      ensures HostRun(old(Abs()), digest, es, Abs(), disk.host, false) && proc == Idle && (ok ==> switched)
      ensures ok && Inv(old(Abs()), digest) ==> Active !in disk.files && AllNew(disk.files, j.plan)
      ensures switched && disk.host.reliable && Active in old(disk.files) && Active !in disk.files ==> ok
    {
      if switched {
        ok, es := Commit(j);
      } else {
        var undone;
        undone, es := Undo(j, None);
        HostRunIsRun(old(Abs()), digest, es, Abs(), disk.host, true);
        ok := false;
      }
    }

    /** From the prepared journal on. */
    method SwitchOver(prepared: Journal) returns (ok: bool, ghost es: seq<Event>)
      requires proc == Switching(prepared, 0)
      modifies this, disk
      ensures HostRun(old(Abs()), digest, es, Abs(), disk.host, false) && proc == Idle
      ensures ok ==> disk.host.healthy
      ensures ok && Inv(old(Abs()), digest) ==> Active !in disk.files && AllNew(disk.files, prepared.plan)
      ensures Here(old(Abs()), digest, old(plan), old(pre), disk.host) ==>
                ok == disk.host.healthy && Ended(disk.files, old(plan), old(pre), digest, disk.host)
    {
      ghost var s := Abs();
      var switched, j;
      ghost var first, more;
      switched, j, first := Switch(prepared);
      ghost var m := Abs();
      if Inv(s, digest) {
        HostRunKeepsInv(s, digest, first, m, disk.host, false);
      }
      ok, more := Settle(j, switched);
      HostRunConcat(s, digest, first, m, more, Abs(), disk.host, false);
      es := first + more;
      if Here(s, digest, s.plan, s.pre, disk.host) {
        SettlesHere(s, digest, first, m, more, Abs(), disk.host);
      }
    }

    /** The upgrade proper, once recovery is through: all targets new and committed, or rolled back as far as possible. */
    method RunUpgrade(p: Plan) returns (ok: bool, ghost es: seq<Event>)
      requires proc == Staging(p, 0)
      modifies this, disk
      ensures HostRun(old(Abs()), digest, es, Abs(), disk.host, false) && proc == Idle
      ensures ok ==> Switches(disk.host) && disk.host.healthy
      ensures ok && Inv(old(Abs()), digest) ==> Active !in disk.files && AllNew(disk.files, p)
      ensures Inv(old(Abs()), digest) && !disk.host.healthy && !CommittedIn(old(pre), p.log, p.id) ==> !CommittedIn(disk.files, p.log, p.id)
      ensures Here(old(Abs()), digest, old(plan), old(pre), disk.host) ==>
                ok == (Switches(disk.host) && disk.host.healthy) && Ended(disk.files, old(plan), old(pre), digest, disk.host)
    {
      ghost var s := Abs();
      ok, es := PrepareAndSwitch(p);
      if Inv(s, digest) && !disk.host.healthy {
        StagingIsUnanswered(s, digest);
        UnhealthyNeverCommits(s, digest, es, Abs(), disk.host);
      }
    }

    method PrepareAndSwitch(p: Plan) returns (ok: bool, ghost es: seq<Event>)
      requires proc == Staging(p, 0)
      modifies this, disk
      ensures HostRun(old(Abs()), digest, es, Abs(), disk.host, false) && proc == Idle
      ensures ok ==> Switches(disk.host) && disk.host.healthy
      ensures ok && Inv(old(Abs()), digest) ==> Active !in disk.files && AllNew(disk.files, p)
      ensures Here(old(Abs()), digest, old(plan), old(pre), disk.host) ==>
                ok == (Switches(disk.host) && disk.host.healthy) && Ended(disk.files, old(plan), old(pre), digest, disk.host)
    {
      ghost var s := Abs();
      ghost var more;
      var j;
      ok, j, es := Prepare(p);
      if ok {
        ghost var m := Abs();
        if Inv(s, digest) {
          HostRunKeepsInv(s, digest, es, m, disk.host, false);
        }
        ok, more := SwitchOver(j);
        HostRunConcat(s, digest, es, m, more, Abs(), disk.host, false);
        es := es + more;
      }
    }

    /**
     The command: recovery comes first. Up to `through` only recovery has run, and
     nothing at all runs after it unless recovery succeeded. How both end on a disk
     that works depends on the checks alone.
     */
    method ExecuteUpgrade(p: Plan)
      returns (recovered: bool, ok: bool, ghost recovery: seq<Event>, ghost through: System, ghost upgrade: seq<Event>)
      requires proc == Idle && NewTransaction(p)
      modifies this, disk
      ensures HostRun(old(Abs()).(proc := Starting(p)), digest, recovery, through, disk.host, true)
      ensures recovered ==> through.proc == Staging(p, 0) && HostRun(through, digest, upgrade, Abs(), disk.host, false)
      ensures !recovered ==> !ok && through.proc == Idle && Abs() == through && upgrade == []
      ensures proc == Idle
      ensures ok ==> Switches(disk.host) && disk.host.healthy
      ensures ok && Inv(old(Abs()), digest) && Clear(p) ==> Active !in disk.files && AllNew(disk.files, p)
      ensures Active in old(disk.files) && JournalIn(old(disk.files)).None? ==> !recovered && disk.files == old(disk.files)
      ensures Inv(old(Abs()), digest) && Clear(p) && disk.host.reliable && Workable(old(disk.files), old(plan)) ==>
                && recovered == (Active !in old(disk.files) || Completes(old(disk.files), disk.host) || disk.host.restarts)
                && if recovered then GotThrough(through.files, old(disk.files), old(pre), old(plan), disk.host)
                   else StoppedShort(through.files, old(disk.files), old(pre), old(plan), disk.host)
      ensures Inv(old(Abs()), digest) && Clear(p) && disk.host.reliable && recovered && Ready(through.files, p, digest) ==>
                ok == (Switches(disk.host) && disk.host.healthy) && Ended(disk.files, p, through.files, digest, disk.host)
    {
      ghost var s := Abs();
      Become(Next(s, digest, Begin(p)));
      ghost var m := Abs();
      recovered, recovery := Recover(p);
      through, upgrade, ok := Abs(), [], false;
      if Inv(s, digest) && Clear(p) {
        HostRunKeepsInv(m, digest, recovery, through, disk.host, true);
        if disk.host.reliable && Workable(s.files, s.plan) {
          RecoveryEnds(m, digest, disk.host, p, recovery, through);
        }
      }
      if recovered {
        EntryIsFresh(m, digest, recovery, through, disk.host);
        if Inv(through, digest) && disk.host.reliable && Ready(through.files, p, digest) {
          StartsHere(through, digest, disk.host);
        }
        ok, upgrade := RunUpgrade(p);
      }
    }
  }
}
