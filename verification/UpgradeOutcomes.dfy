/** How upgrades and recoveries end on a host whose disk works, for each way its checks may come out. */
module UpgradeOutcomes {
  import opened Basics
  import opened Upgrade
  import opened UpgradeProofs
  import opened UpgradeTheorems
  import opened UpgradeLimits

  // ----- Runs on a given host -----

  /**
   The host: whether its disk works, whether it accepts the staged configuration,
   whether the backups reach the disk, whether the services answer after the
   switch and after a rollback, and whether those of an interrupted upgrade do.
   */
  datatype Host = Host(reliable: bool, accepts: bool, syncs: bool, healthy: bool, restarts: bool, answering: bool)

  function AnswerOf(host: Host, p: Proc): bool {
    match p
    case Starting(_) => host.answering
    case Restoring(_, _, _, _) => host.restarts
    case Staging(_, _) => host.accepts
    case Backing(_, _) => host.syncs
    case _ => host.healthy
  }

  /** What can happen to a process on this host while it is not killed. */
  predicate Suits(host: Host, p: Proc, e: Event) {
    match e
    case Op(f) => host.reliable ==> f == NoFault
    case Torn(_) => !host.reliable
    case Look(good) => good == AnswerOf(host, p)
    case _ => false
  }

  /** A run of one process on this host; while recovering it stays in recovery. */
  ghost predicate HostRun(s: System, digest: Digest, es: seq<Event>, t: System, host: Host, recovering: bool)
    decreases |es|
  {
    if es == [] then s == t
    else
      && Enabled(s, es[0]) && Suits(host, s.proc, es[0]) && (recovering ==> InRecovery(s.proc))
      && HostRun(Next(s, digest, es[0]), digest, es[1..], t, host, recovering)
  }

  lemma {:induction false} HostRunConcat(s: System, digest: Digest, es: seq<Event>, m: System, fs: seq<Event>, t: System,
                                         host: Host, recovering: bool)
    requires HostRun(s, digest, es, m, host, recovering) && HostRun(m, digest, fs, t, host, recovering)
    ensures HostRun(s, digest, es + fs, t, host, recovering)
    decreases |es|
  {
    if es == [] {
      assert es + fs == fs;
    } else {
      HostRunConcat(Next(s, digest, es[0]), digest, es[1..], m, fs, t, host, recovering);
      assert (es + fs)[1..] == es[1..] + fs;
    }
  }

  lemma HostRunExtend(s: System, digest: Digest, es: seq<Event>, m: System, e: Event, host: Host, recovering: bool)
    requires HostRun(s, digest, es, m, host, recovering) && Enabled(m, e) && Suits(host, m.proc, e) && (recovering ==> InRecovery(m.proc))
    ensures HostRun(s, digest, es + [e], Next(m, digest, e), host, recovering)
  {
    assert HostRun(Next(m, digest, e), digest, [e][1..], Next(m, digest, e), host, recovering);
    HostRunConcat(s, digest, es, m, [e], Next(m, digest, e), host, recovering);
  }

  /** Such runs are runs of the system, and recoveries are recoveries. */
  lemma {:induction false} HostRunIsRun(s: System, digest: Digest, es: seq<Event>, t: System, host: Host, recovering: bool)
    requires HostRun(s, digest, es, t, host, recovering)
    ensures Runs(s, digest, es, t) && NoBegin(es) && HostRun(s, digest, es, t, host, false)
    ensures recovering ==> RecoveryRun(s, digest, es, t)
    decreases |es|
  {
    if es != [] {
      HostRunIsRun(Next(s, digest, es[0]), digest, es[1..], t, host, recovering);
      assert forall k :: 1 <= k < |es| ==> es[k] == es[1..][k - 1];
    }
  }

  lemma HostRunKeepsInv(s: System, digest: Digest, es: seq<Event>, t: System, host: Host, recovering: bool)
    requires Inv(s, digest) && HostRun(s, digest, es, t, host, recovering)
    ensures Inv(t, digest)
  {
    HostRunIsRun(s, digest, es, t, host, recovering);
    RunKeepsInv(s, digest, es, t);
  }

  // ----- How an upgrade ends -----

  predicate Workable(files: Files, plan: Plan) {
    Solid(files, plan.log) && forall i :: 0 <= i < |plan.arts| ==> Solid(files, plan.arts[i].target)
  }

  /** The targets can be written, and the log is as it was. */
  predicate Ongoing(s: System, plan: Plan, start: Files) {
    s.plan == plan && s.pre == start && Workable(s.files, plan) && At(s.files, plan.log) == At(start, plan.log)
  }

  /** The log has one more line than it had. */
  predicate OneLine(files: Files, start: Files, log: Path, r: Record) {
    IsRegular(files, log) && files[log].content == Line(if IsRegular(start, log) then start[log].content else Data(""), r)
  }

  /**
   Refused, every target is exactly as it was. Accepted and healthy, the upgrade
   is committed with each artifact where it belongs. Accepted and not healthy,
   every target is put back, and the journal is gone if the old services answer.
   One line in the log says which.
   */
  predicate Ended(files: Files, plan: Plan, start: Files, digest: Digest, host: Host) {
    if !(host.accepts && host.syncs) then
      && Active !in files && !CommittedIn(files, plan.log, plan.id)
      && OneLine(files, start, plan.log, Record(plan.id, Rejected))
      && forall i :: 0 <= i < |plan.arts| ==> At(files, plan.arts[i].target) == At(start, plan.arts[i].target)
    else if host.healthy then
      && Active !in files && CommittedIn(files, plan.log, plan.id)
      && OneLine(files, start, plan.log, Record(plan.id, CommitRecord))
      && Written(files, plan, |plan.arts|) && AllStaged(files, plan, digest, |plan.arts|)
    else
      && (Active in files <==> !host.restarts) && !CommittedIn(files, plan.log, plan.id)
      && OneLine(files, start, plan.log, Record(plan.id, if host.restarts then RolledBack else RollbackFailed))
      && PutBack(files, start, plan, 0)
  }

  predicate Switches(host: Host) {
    host.accepts && host.syncs
  }

  /** What each state of the process means on such a host. */
  ghost predicate OnTrack(s: System, digest: Digest, plan: Plan, start: Files, host: Host) {
    s.plan == plan && s.pre == start &&
    match s.proc
    case Staging(p, n) => p == plan && StagedSoFar(s, plan, start, n) && forall i: nat :: Saved(plan.txn, i) !in s.files
    case Backing(p, backups) => host.accepts && BackedUpSoFar(s, digest, plan, start, |backups|)
    case Preparing(p, backups) => Switches(host) && p == plan && StagedSoFar(s, plan, start, |plan.arts|) && |backups| == |plan.arts|
    case Rejecting(p) => !Switches(host)
    case Switching(j, n) => Switches(host) && SwitchedSoFar(s, plan, start, n)
    case Checking(j) => Switches(host) && Ongoing(s, plan, start)
    case Marking(j) => Switches(host) && host.healthy && Ongoing(s, plan, start)
    case Logging(j) => Switches(host) && host.healthy && Ongoing(s, plan, start)
    case Closing(j) => Switches(host) && host.healthy && OneLine(s.files, start, plan.log, Record(plan.id, CommitRecord))
    case Finishing(j) => Switches(host) && host.healthy && OneLine(s.files, start, plan.log, Record(plan.id, CommitRecord))
    case Restoring(j, _, failed, after) => Switches(host) && !host.healthy && !failed && after.None? && Ongoing(s, plan, start)
    case Relogging(j, restored, after) =>
      Switches(host) && !host.healthy && restored == host.restarts && after.None? && Ongoing(s, plan, start) && PutBack(s.files, start, plan, 0)
    case Forgetting(j, logged, after) =>
      && Switches(host) && !host.healthy && host.restarts && after.None? && !CommittedIn(s.files, plan.log, plan.id)
      && OneLine(s.files, start, plan.log, Record(plan.id, RolledBack))
    case Idle => Ended(s.files, plan, start, digest, host)
    case _ => false
  }

  /** The premises of every step: a sound state of this upgrade, on track, on a disk that works. */
  ghost predicate Here(s: System, digest: Digest, plan: Plan, start: Files, host: Host) {
    Inv(s, digest) && Ready(start, plan, digest) && OnTrack(s, digest, plan, start, host) && host.reliable
  }

  lemma StagingOnTrack(s: System, digest: Digest, plan: Plan, start: Files, host: Host, e: Event)
    requires Here(s, digest, plan, start, host) && s.proc.Staging? && Enabled(s, e) && Suits(host, s.proc, e)
    ensures OnTrack(Next(s, digest, e), digest, plan, start, host)
  {
    if e.Op? {
      StageOne(s, digest, plan, start, s.proc.done);
    }
  }

  lemma BackingOnTrack(s: System, digest: Digest, plan: Plan, start: Files, host: Host, e: Event)
    requires Here(s, digest, plan, start, host) && s.proc.Backing? && Enabled(s, e) && Suits(host, s.proc, e)
    ensures OnTrack(Next(s, digest, e), digest, plan, start, host)
  {
    if e.Op? {
      BackUpOne(s, digest, plan, start, |s.proc.backups|);
    }
  }

  lemma PreparingOnTrack(s: System, digest: Digest, plan: Plan, start: Files, host: Host, e: Event)
    requires Here(s, digest, plan, start, host) && s.proc.Preparing? && Enabled(s, e) && Suits(host, s.proc, e)
    ensures OnTrack(Next(s, digest, e), digest, plan, start, host)
  {
  }

  lemma RejectingOnTrack(s: System, digest: Digest, plan: Plan, start: Files, host: Host, e: Event)
    requires Here(s, digest, plan, start, host) && s.proc.Rejecting? && Enabled(s, e) && Suits(host, s.proc, e)
    ensures OnTrack(Next(s, digest, e), digest, plan, start, host)
  {
    var r := Record(plan.id, Rejected);
    LogKept(start, s.files, plan);
    LineInLog(s.files, plan.log, r, plan.id);
    LogAppended(s.files, plan.log, r, NoFault, plan.id);
    var files := Next(s, digest, e).files;
    assert At(files, Active) == At(s.files, Active);
    forall i | 0 <= i < |plan.arts|
      ensures At(files, plan.arts[i].target) == At(start, plan.arts[i].target)
    {
      assert At(files, plan.arts[i].target) == At(s.files, plan.arts[i].target);
    }
  }

  lemma SwitchingOnTrack(s: System, digest: Digest, plan: Plan, start: Files, host: Host)
    requires NewTransaction(plan) && Switches(host) && s.proc.Switching? && s.proc.done < |plan.arts|
    requires SwitchedSoFar(s, plan, start, s.proc.done)
    ensures OnTrack(Next(s, digest, Op(NoFault)), digest, plan, start, host)
  {
    SwitchOne(s, digest, plan, start, s.proc.done, NoFault);
  }

  lemma SwitchedOnTrack(s: System, digest: Digest, plan: Plan, start: Files, host: Host)
    requires Here(s, digest, plan, start, host) && s.proc.Switching? && s.proc.done == |plan.arts|
    ensures OnTrack(Next(s, digest, Op(NoFault)), digest, plan, start, host)
  {
    SwitchedIsOngoing(s, digest, plan, start);
  }

  lemma SwitchedIsOngoing(s: System, digest: Digest, plan: Plan, start: Files)
    requires Proper(plan) && Solid(start, plan.log) && SwitchedSoFar(s, plan, start, |plan.arts|)
    ensures var t := Next(s, digest, Op(NoFault)); t.proc.Checking? && Ongoing(t, plan, start)
  {
    assert At(s.files, plan.log) == At(start, plan.log);
  }

  lemma CheckingOnTrack(s: System, digest: Digest, plan: Plan, start: Files, host: Host, e: Event)
    requires Here(s, digest, plan, start, host) && (s.proc.Checking? || s.proc.Marking?) && Enabled(s, e) && Suits(host, s.proc, e)
    ensures OnTrack(Next(s, digest, e), digest, plan, start, host)
  {
  }

  lemma CommittingOnTrack(s: System, digest: Digest, plan: Plan, start: Files, host: Host, e: Event)
    requires Here(s, digest, plan, start, host) && (s.proc.Logging? || s.proc.Closing?) && Enabled(s, e) && Suits(host, s.proc, e)
    ensures OnTrack(Next(s, digest, e), digest, plan, start, host)
  {
  }

  lemma FinishingOnTrack(s: System, digest: Digest, plan: Plan, start: Files, host: Host, e: Event)
    requires Here(s, digest, plan, start, host) && s.proc.Finishing? && Enabled(s, e) && Suits(host, s.proc, e)
    ensures OnTrack(Next(s, digest, e), digest, plan, start, host)
  {
    FinishedIsNew(s, digest, s.proc.j);
  }

  /** A restore that meets no fault works, and keeps the targets writable. */
  lemma RestoreWorks(files: Files, pre: Files, plan: Plan, i: nat, b: Backup)
    requires Proper(plan) && i < |plan.arts| && Workable(files, plan) && ReproducesOne(files, pre, plan, plan.arts[i].target, b)
    ensures var (next, ok) := RestoreOne(files, b, NoFault); ok && Workable(next, plan) && At(next, plan.log) == At(files, plan.log)
  {
    RestoredOne(files, pre, plan, i, b, NoFault);
  }

  lemma RestoringOnTrack(s: System, digest: Digest, plan: Plan, start: Files, host: Host, e: Event)
    requires Here(s, digest, plan, start, host) && s.proc.Restoring? && Enabled(s, e) && Suits(host, s.proc, e)
    ensures OnTrack(Next(s, digest, e), digest, plan, start, host)
  {
    if e.Op? {
      var i := s.proc.left - 1;
      assert ReproducesOne(s.files, s.pre, s.plan, s.plan.arts[i].target, s.proc.j.backups[i]);
      RestoreWorks(s.files, s.pre, s.plan, i, s.proc.j.backups[i]);
    }
  }

  lemma ReloggingOnTrack(s: System, digest: Digest, plan: Plan, start: Files, host: Host, e: Event)
    requires Here(s, digest, plan, start, host) && s.proc.Relogging? && Enabled(s, e) && Suits(host, s.proc, e)
    ensures OnTrack(Next(s, digest, e), digest, plan, start, host)
  {
    var r := RestoreRecord(s.proc.j, s.proc.restored, None);
    LogKept(start, s.files, plan);
    LineInLog(s.files, plan.log, r, plan.id);
    LogKeeps(s, r, NoFault);
  }

  lemma ForgettingOnTrack(s: System, digest: Digest, plan: Plan, start: Files, host: Host, e: Event)
    requires Here(s, digest, plan, start, host) && s.proc.Forgetting? && Enabled(s, e) && Suits(host, s.proc, e)
    ensures OnTrack(Next(s, digest, e), digest, plan, start, host)
  {
    var files := Remove(s.files, Active, NoFault).0;
    LogKept(s.files, files, plan);
    assert forall i :: 0 <= i < |plan.arts| ==> At(files, plan.arts[i].target) == At(s.files, plan.arts[i].target);
  }

  predicate IsEarly(p: Proc) {
    p.Staging? || p.Backing? || p.Preparing? || p.Rejecting? || p.Switching?
  }

  predicate IsLate(p: Proc) {
    p.Checking? || p.Marking? || p.Logging? || p.Closing? || p.Finishing?
  }

  predicate IsBack(p: Proc) {
    p.Restoring? || p.Relogging? || p.Forgetting?
  }

  /** Up to the switch. */
  lemma EarlyOnTrack(s: System, digest: Digest, plan: Plan, start: Files, host: Host, e: Event)
    requires Here(s, digest, plan, start, host) && Enabled(s, e) && Suits(host, s.proc, e) && IsEarly(s.proc)
    ensures OnTrack(Next(s, digest, e), digest, plan, start, host)
  {
    match s.proc {
      case Staging(_, _) => StagingOnTrack(s, digest, plan, start, host, e);
      case Backing(_, _) => BackingOnTrack(s, digest, plan, start, host, e);
      case Preparing(_, _) => PreparingOnTrack(s, digest, plan, start, host, e);
      case Rejecting(_) => RejectingOnTrack(s, digest, plan, start, host, e);
      case Switching(_, done) =>
        if done < |plan.arts| {
          SwitchingOnTrack(s, digest, plan, start, host);
        } else {
          SwitchedOnTrack(s, digest, plan, start, host);
        }
    }
  }

  /** From the health check to the commit. */
  lemma LateOnTrack(s: System, digest: Digest, plan: Plan, start: Files, host: Host, e: Event)
    requires Here(s, digest, plan, start, host) && Enabled(s, e) && Suits(host, s.proc, e) && IsLate(s.proc)
    ensures OnTrack(Next(s, digest, e), digest, plan, start, host)
  {
    if s.proc.Finishing? {
      FinishingOnTrack(s, digest, plan, start, host, e);
    } else if s.proc.Checking? || s.proc.Marking? {
      CheckingOnTrack(s, digest, plan, start, host, e);
    } else {
      CommittingOnTrack(s, digest, plan, start, host, e);
    }
  }

  /** The way back. */
  lemma BackOnTrack(s: System, digest: Digest, plan: Plan, start: Files, host: Host, e: Event)
    requires Here(s, digest, plan, start, host) && Enabled(s, e) && Suits(host, s.proc, e) && IsBack(s.proc)
    ensures OnTrack(Next(s, digest, e), digest, plan, start, host)
  {
    if s.proc.Restoring? {
      RestoringOnTrack(s, digest, plan, start, host, e);
    } else if s.proc.Relogging? {
      ReloggingOnTrack(s, digest, plan, start, host, e);
    } else {
      ForgettingOnTrack(s, digest, plan, start, host, e);
    }
  }

  lemma StepOnTrack(s: System, digest: Digest, plan: Plan, start: Files, host: Host, e: Event)
    requires Here(s, digest, plan, start, host) && Enabled(s, e) && Suits(host, s.proc, e)
    ensures OnTrack(Next(s, digest, e), digest, plan, start, host)
  {
    if IsEarly(s.proc) {
      EarlyOnTrack(s, digest, plan, start, host, e);
    } else if IsLate(s.proc) {
      LateOnTrack(s, digest, plan, start, host, e);
    } else {
      BackOnTrack(s, digest, plan, start, host, e);
    }
  }

  lemma {:induction false} RunOnTrack(s: System, digest: Digest, plan: Plan, start: Files, host: Host, es: seq<Event>, t: System)
    requires Here(s, digest, plan, start, host) && HostRun(s, digest, es, t, host, false)
    ensures OnTrack(t, digest, plan, start, host)
    decreases |es|
  {
    if es != [] {
      StepOnTrack(s, digest, plan, start, host, es[0]);
      StepKeepsInv(s, digest, es[0]);
      RunOnTrack(Next(s, digest, es[0]), digest, plan, start, host, es[1..], t);
    }
  }

  lemma StaysHere(s: System, digest: Digest, es: seq<Event>, t: System, host: Host)
    requires HostRun(s, digest, es, t, host, false)
    ensures Here(s, digest, s.plan, s.pre, host) ==> Here(t, digest, s.plan, s.pre, host)
  {
    if Here(s, digest, s.plan, s.pre, host) {
      HostRunKeepsInv(s, digest, es, t, host, false);
      RunOnTrack(s, digest, s.plan, s.pre, host, es, t);
    }
  }

  /** Whether the health check was passed decides how the upgrade ends. */
  lemma SettlesHere(s: System, digest: Digest, first: seq<Event>, m: System, more: seq<Event>, t: System, host: Host)
    requires Here(s, digest, s.plan, s.pre, host) && HostRun(s, digest, first, m, host, false) && HostRun(m, digest, more, t, host, false)
    requires (m.proc.Logging? || m.proc.Restoring?) && t.proc.Idle?
    ensures (m.proc.Logging? <==> host.healthy) && (m.proc.Logging? ==> Active in m.files && Active !in t.files)
    ensures Ended(t.files, s.plan, s.pre, digest, host)
  {
    StaysHere(s, digest, first, m, host);
    StaysHere(m, digest, more, t, host);
  }

  lemma StartsHere(s: System, digest: Digest, host: Host)
    requires Inv(s, digest) && s.proc == Staging(s.plan, 0) && s.pre == s.files && Ready(s.files, s.plan, digest) && host.reliable
    ensures Here(s, digest, s.plan, s.pre, host)
  {
  }

  /**
   On a disk that works, an upgrade that nothing stands in the way of ends in
   just one way, given by the checks: refused, committed, or rolled back.
   */
  lemma UpgradeEnds(s: System, digest: Digest, host: Host, es: seq<Event>, t: System)
    requires Inv(s, digest) && s.proc == Staging(s.plan, 0) && s.pre == s.files && Ready(s.files, s.plan, digest) && host.reliable
    requires HostRun(s, digest, es, t, host, false) && t.proc.Idle?
    ensures Ended(t.files, s.plan, s.files, digest, host)
  {
    StartsHere(s, digest, host);
    RunOnTrack(s, digest, s.plan, s.files, host, es, t);
  }

  /** A recovery that got through leaves the next upgrade with the disk as it is. */
  lemma {:induction false} EntryIsFresh(s: System, digest: Digest, es: seq<Event>, t: System, host: Host)
    requires HostRun(s, digest, es, t, host, true) && InRecovery(s.proc) && t.proc.Staging?
    ensures t.pre == t.files && t.proc == Staging(t.plan, 0)
    decreases |es|
  {
    var next := Next(s, digest, es[0]);
    if next.proc.Staging? {
      assert es[1..] == [];
    } else {
      EntryIsFresh(next, digest, es[1..], t, host);
    }
  }

  // ----- How a recovery ends -----

  /** The interrupted upgrade is to be completed rather than undone. */
  predicate Completes(files: Files, host: Host) {
    var j := JournalIn(files);
    j.Some? && (j.value.phase == Committed || (j.value.phase == Healthy && host.answering))
  }

  predicate SameTargets(a: Files, b: Files, plan: Plan) {
    forall i :: 0 <= i < |plan.arts| ==> At(a, plan.arts[i].target) == At(b, plan.arts[i].target)
  }

  /**
   Without a journal nothing changes. An upgrade that was committed, or healthy
   with its services still answering, is committed as it stands. Any other is put
   back. In each case the journal is gone, and the log tells what was done.
   */
  predicate GotThrough(files: Files, start: Files, pre: Files, plan: Plan, host: Host) {
    Active !in files &&
    if Active !in start then files == start
    else if Completes(start, host) then
      CommittedIn(files, plan.log, plan.id) && SameTargets(files, start, plan) && Completed(files, start, plan)
    else host.restarts && PutBack(files, pre, plan, 0) && OneLine(files, start, plan.log, Record(plan.id, Recovered))
  }

  /** A commit that was logged before is not logged again. */
  predicate Completed(files: Files, start: Files, plan: Plan) {
    if JournalIs(start, Committed) then At(files, plan.log) == At(start, plan.log)
    else OneLine(files, start, plan.log, Record(plan.id, CommittedAfterRecovery))
  }

  /** The old services do not answer: everything is put back, and the journal stays for the next attempt. */
  predicate StoppedShort(files: Files, start: Files, pre: Files, plan: Plan, host: Host) {
    && Active in start && !Completes(start, host) && !host.restarts && PutBack(files, pre, plan, 0) && JournalIn(files) == JournalIn(start)
    && OneLine(files, start, plan.log, Record(plan.id, RecoveryFailed))
  }

  /** A journal that is being worked on. */
  predicate Held(s: System, start: Files, pre: Files, plan: Plan) {
    s.plan == plan && s.pre == pre && Active in start && Workable(s.files, plan)
  }

  ghost predicate Recovering(s: System, start: Files, pre: Files, plan: Plan, next: Plan, host: Host) {
    match s.proc
    case Starting(n) => n == next && s.plan == plan && s.pre == pre && s.files == start && Workable(start, plan)
    case Resuming(_, n) =>
      && n == next && Held(s, start, pre, plan) && Completes(start, host) && SameTargets(s.files, start, plan)
      && s.files == start && !JournalIs(start, Committed)
    case Sealing(_, n) =>
      && n == next && Held(s, start, pre, plan) && Completes(start, host) && SameTargets(s.files, start, plan)
      && Completed(s.files, start, plan)
    case Clearing(n) =>
      && n == next && Held(s, start, pre, plan) && Completes(start, host) && SameTargets(s.files, start, plan)
      && Completed(s.files, start, plan)
    case Restoring(_, _, failed, after) =>
      && !failed && after == Some(next) && Held(s, start, pre, plan) && !Completes(start, host)
      && JournalIn(s.files) == JournalIn(start) && At(s.files, plan.log) == At(start, plan.log)
    case Relogging(_, restored, after) =>
      && restored == host.restarts && after == Some(next) && Held(s, start, pre, plan) && !Completes(start, host)
      && PutBack(s.files, pre, plan, 0) && JournalIn(s.files) == JournalIn(start) && At(s.files, plan.log) == At(start, plan.log)
    case Forgetting(_, logged, after) =>
      && host.restarts && logged && after == Some(next) && Held(s, start, pre, plan) && !Completes(start, host)
      && OneLine(s.files, start, plan.log, Record(plan.id, Recovered))
    case Staging(p, n) => p == next && n == 0 && GotThrough(s.files, start, pre, plan, host)
    case Idle => StoppedShort(s.files, start, pre, plan, host)
    case _ => false
  }

  ghost predicate There(s: System, digest: Digest, start: Files, pre: Files, plan: Plan, next: Plan, host: Host) {
    Inv(s, digest) && Recovering(s, start, pre, plan, next, host) && host.reliable && InRecovery(s.proc)
  }

  lemma StartingRecovers(s: System, digest: Digest, start: Files, pre: Files, plan: Plan, next: Plan, host: Host, e: Event)
    requires There(s, digest, start, pre, plan, next, host) && s.proc.Starting? && Enabled(s, e) && Suits(host, s.proc, e)
    ensures Recovering(Next(s, digest, e), start, pre, plan, next, host)
  {
  }

  lemma CompletingRecovers(s: System, digest: Digest, start: Files, pre: Files, plan: Plan, next: Plan, host: Host, e: Event)
    requires There(s, digest, start, pre, plan, next, host) && (s.proc.Resuming? || s.proc.Sealing?)
    requires Enabled(s, e) && Suits(host, s.proc, e)
    ensures Recovering(Next(s, digest, e), start, pre, plan, next, host)
  {
  }

  lemma ClearingRecovers(s: System, digest: Digest, start: Files, pre: Files, plan: Plan, next: Plan, host: Host, e: Event)
    requires There(s, digest, start, pre, plan, next, host) && s.proc.Clearing? && Enabled(s, e) && Suits(host, s.proc, e)
    ensures Recovering(Next(s, digest, e), start, pre, plan, next, host)
  {
    LogKept(s.files, Remove(s.files, Active, NoFault).0, plan);
  }

  lemma RestoringRecovers(s: System, digest: Digest, start: Files, pre: Files, plan: Plan, next: Plan, host: Host, e: Event)
    requires There(s, digest, start, pre, plan, next, host) && s.proc.Restoring? && Enabled(s, e) && Suits(host, s.proc, e)
    ensures Recovering(Next(s, digest, e), start, pre, plan, next, host)
  {
    if e.Op? {
      var i := s.proc.left - 1;
      var b := s.proc.j.backups[i];
      assert ReproducesOne(s.files, s.pre, s.plan, s.plan.arts[i].target, b);
      RestoreWorks(s.files, s.pre, s.plan, i, b);
      OnePutBack(s.files, s.pre, s.plan, i, b, NoFault);
    }
  }

  lemma ClosingRecovers(s: System, digest: Digest, start: Files, pre: Files, plan: Plan, next: Plan, host: Host, e: Event)
    requires There(s, digest, start, pre, plan, next, host) && (s.proc.Relogging? || s.proc.Forgetting?)
    requires Enabled(s, e) && Suits(host, s.proc, e)
    ensures Recovering(Next(s, digest, e), start, pre, plan, next, host)
  {
    if s.proc.Relogging? {
      LogKeeps(s, RestoreRecord(s.proc.j, s.proc.restored, s.proc.after), NoFault);
    } else {
      var files := Remove(s.files, Active, NoFault).0;
      assert forall i :: 0 <= i < |plan.arts| ==> At(files, plan.arts[i].target) == At(s.files, plan.arts[i].target);
    }
  }

  lemma StepRecovers(s: System, digest: Digest, start: Files, pre: Files, plan: Plan, next: Plan, host: Host, e: Event)
    requires There(s, digest, start, pre, plan, next, host) && Enabled(s, e) && Suits(host, s.proc, e)
    ensures Recovering(Next(s, digest, e), start, pre, plan, next, host)
  {
    if s.proc.Starting? {
      StartingRecovers(s, digest, start, pre, plan, next, host, e);
    } else if s.proc.Resuming? || s.proc.Sealing? {
      CompletingRecovers(s, digest, start, pre, plan, next, host, e);
    } else if s.proc.Clearing? {
      ClearingRecovers(s, digest, start, pre, plan, next, host, e);
    } else if s.proc.Restoring? {
      RestoringRecovers(s, digest, start, pre, plan, next, host, e);
    } else {
      ClosingRecovers(s, digest, start, pre, plan, next, host, e);
    }
  }

  lemma {:induction false} RunRecovers(s: System, digest: Digest, start: Files, pre: Files, plan: Plan, next: Plan, host: Host,
                                       es: seq<Event>, t: System)
    requires Inv(s, digest) && Recovering(s, start, pre, plan, next, host) && host.reliable && HostRun(s, digest, es, t, host, true)
    ensures Recovering(t, start, pre, plan, next, host)
    decreases |es|
  {
    if es != [] {
      StepRecovers(s, digest, start, pre, plan, next, host, es[0]);
      StepKeepsInv(s, digest, es[0]);
      RunRecovers(Next(s, digest, es[0]), digest, start, pre, plan, next, host, es[1..], t);
    }
  }

  /** On a disk that works, a recovery gets through unless a rollback is due and the old services do not answer. */
  lemma RecoveryEnds(s: System, digest: Digest, host: Host, next: Plan, es: seq<Event>, t: System)
    requires Inv(s, digest) && s.proc == Starting(next) && Workable(s.files, s.plan) && host.reliable
    requires HostRun(s, digest, es, t, host, true) && (t.proc.Idle? || t.proc.Staging?)
    ensures if t.proc.Staging? then t.proc == Staging(next, 0) && GotThrough(t.files, s.files, s.pre, s.plan, host)
            else StoppedShort(t.files, s.files, s.pre, s.plan, host)
  {
    RunRecovers(s, digest, s.files, s.pre, s.plan, next, host, es, t);
  }

  // ----- What holds whether the disk works or not -----

  /** The log has the line of a recovery that put everything back. */
  predicate Told(files: Files, plan: Plan) {
    IsRegular(files, plan.log) && Record(plan.id, Recovered) in Records(files[plan.log].content)
  }

  /** In a process that found a journal: a line that counts as logged is in the log. */
  predicate Telling(s: System, plan: Plan) {
    match s.proc
    case Staging(_, _) => Told(s.files, plan) || CommittedIn(s.files, plan.log, plan.id)
    case Starting(_) => s.plan == plan && Active in s.files
    case Relogging(_, restored, after) => s.plan == plan && after.Some?
    case Forgetting(_, logged, after) => s.plan == plan && after.Some? && (logged ==> Told(s.files, plan))
    case Restoring(_, _, _, after) => s.plan == plan && after.Some?
    case _ => s.plan == plan
  }

  lemma TellingForget(s: System, digest: Digest, f: Fault, plan: Plan)
    requires Inv(s, digest) && Telling(s, plan) && (s.proc.Forgetting? || s.proc.Clearing?)
    ensures Telling(Next(s, digest, Op(f)), plan)
  {
    var files := Remove(s.files, Active, f).0;
    LogKept(s.files, files, plan);
    assert At(files, plan.log) == At(s.files, plan.log);
  }

  lemma TellingStep(s: System, digest: Digest, e: Event, host: Host, plan: Plan)
    requires Inv(s, digest) && Telling(s, plan) && InRecovery(s.proc) && !s.proc.Idle? && Enabled(s, e) && Suits(host, s.proc, e)
    ensures Telling(Next(s, digest, e), plan)
  {
    if s.proc.Forgetting? || s.proc.Clearing? {
      TellingForget(s, digest, e.fault, plan);
    }
  }

  lemma {:induction false} TellingRun(s: System, digest: Digest, es: seq<Event>, t: System, host: Host, plan: Plan)
    requires Inv(s, digest) && Telling(s, plan) && HostRun(s, digest, es, t, host, true)
    ensures Telling(t, plan)
    decreases |es|
  {
    if es != [] {
      TellingStep(s, digest, es[0], host, plan);
      StepKeepsInv(s, digest, es[0]);
      TellingRun(Next(s, digest, es[0]), digest, es[1..], t, host, plan);
    }
  }

  /** A recovery that found a journal and gets through has logged what it did, on any disk. */
  lemma ThroughIsTold(s: System, digest: Digest, es: seq<Event>, t: System, host: Host)
    requires Inv(s, digest) && s.proc.Starting? && Active in s.files && HostRun(s, digest, es, t, host, true) && t.proc.Staging?
    ensures Told(t.files, s.plan) || CommittedIn(t.files, s.plan.log, s.plan.id)
  {
    TellingRun(s, digest, es, t, host, s.plan);
  }

  /** One operation for each fault, the last first. */
  function Operations(faults: seq<Fault>): seq<Event> {
    if faults == [] then [] else [Op(faults[|faults| - 1])] + Operations(faults[..|faults| - 1])
  }

  /** Of the first targets each one is put back but where its restore failed before it took effect; the others are as they were. */
  predicate RestoredAs(files: Files, was: Files, pre: Files, plan: Plan, faults: seq<Fault>) {
    && |faults| <= |plan.arts|
    && (forall i :: 0 <= i < |faults| && faults[i] != Before ==> At(files, plan.arts[i].target) == Strip(At(pre, plan.arts[i].target)))
    && (forall i :: |faults| <= i < |plan.arts| ==> At(files, plan.arts[i].target) == At(was, plan.arts[i].target))
  }

  /** One restore: its own target is put back unless it failed before it took effect, and no other target changes. */
  lemma OneRestore(s: System, digest: Digest, f: Fault)
    requires Inv(s, digest) && s.proc.Restoring? && 0 < s.proc.left <= |s.proc.j.backups| && Workable(s.files, s.plan)
    ensures var t, i := Next(s, digest, Op(f)), s.proc.left - 1;
            && Enabled(s, Op(f)) && i < |s.plan.arts| && t.plan == s.plan && t.pre == s.pre && Workable(t.files, s.plan)
            && t.proc == s.proc.(left := i, failed := s.proc.failed || f != NoFault)
            && (f != Before ==> At(t.files, s.plan.arts[i].target) == Strip(At(s.pre, s.plan.arts[i].target)))
            && (forall p :: p != s.plan.arts[i].target ==> At(t.files, p) == At(s.files, p))
  {
    var i := s.proc.left - 1;
    var b := s.proc.j.backups[i];
    assert ReproducesOne(s.files, s.pre, s.plan, s.plan.arts[i].target, b);
    RestoredOne(s.files, s.pre, s.plan, i, b, f);
    RestoreWorks(s.files, s.pre, s.plan, i, b);
  }

  lemma OneMoreRestored(files: Files, middle: Files, was: Files, pre: Files, plan: Plan, faults: seq<Fault>)
    requires faults != [] && |faults| <= |plan.arts| && DistinctTargets(plan)
    requires var target, f := plan.arts[|faults| - 1].target, faults[|faults| - 1];
             && (f != Before ==> At(middle, target) == Strip(At(pre, target)))
             && (forall p :: p != target ==> At(middle, p) == At(was, p))
    requires RestoredAs(files, middle, pre, plan, faults[..|faults| - 1])
    ensures RestoredAs(files, was, pre, plan, faults)
  {
  }

  predicate SomeFailed(faults: seq<Fault>) {
    faults != [] && (faults[|faults| - 1] != NoFault || SomeFailed(faults[..|faults| - 1]))
  }

  /** A restore that fails does not keep the others from being put back, whatever comes of each. */
  lemma {:induction false} EveryRestoreIsTried(s: System, digest: Digest, faults: seq<Fault>) returns (t: System)
    requires Inv(s, digest) && s.proc.Restoring? && |faults| == s.proc.left <= |s.proc.j.backups|
    requires Workable(s.files, s.plan) && DistinctTargets(s.plan)
    ensures Runs(s, digest, Operations(faults), t) && RestoredAs(t.files, s.files, s.pre, s.plan, faults)
    ensures t.proc.Restoring? && t.proc.left == 0 && (t.proc.failed <==> s.proc.failed || SomeFailed(faults))
    decreases |faults|
  {
    if faults == [] {
      t := s;
    } else {
      var last, front := faults[|faults| - 1], faults[..|faults| - 1];
      var m := Next(s, digest, Op(last));
      OneRestore(s, digest, last);
      assert Inv(m, digest) by {
        StepKeepsInv(s, digest, Op(last));
      }
      t := EveryRestoreIsTried(m, digest, front);
      assert RestoredAs(t.files, s.files, s.pre, s.plan, faults) by {
        OneMoreRestored(t.files, m.files, s.files, s.pre, s.plan, faults);
      }
      assert Runs(s, digest, Operations(faults), t) by {
        Step(s, digest, Op(last), Operations(front), t);
      }
    }
  }
}
