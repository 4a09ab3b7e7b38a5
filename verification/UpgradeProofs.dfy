/** Every step of the upgrade system keeps what is needed to undo an upgrade that has not committed. */
module UpgradeProofs {
  import opened Basics
  import opened Upgrade

  // ----- What must hold in every state -----

  /** The upgrade does not install over its own journal or log. */
  predicate Clear(plan: Plan) {
    plan.log != Active && forall i :: 0 <= i < |plan.arts| ==> plan.arts[i].target != Active && plan.arts[i].target != plan.log
  }

  /** What a backup can bring back: a regular file without its special bits. */
  function Strip(e: Option<Entry>): Option<Entry> {
    if e.Some? && e.value.File? then Some(e.value.(special := 0)) else e
  }

  predicate Kept(files: Files, pre: Files, p: Path) {
    At(files, p) == At(pre, p) || At(files, p) == Strip(At(pre, p))
  }

  /** Every target is as it was, but perhaps for special bits. */
  predicate AllKept(files: Files, pre: Files, plan: Plan) {
    forall i :: 0 <= i < |plan.arts| ==> Kept(files, pre, plan.arts[i].target)
  }

  /** The targets from position n on have been put back. */
  predicate PutBack(files: Files, pre: Files, plan: Plan, n: nat) {
    forall i :: n <= i < |plan.arts| ==> At(files, plan.arts[i].target) == Strip(At(pre, plan.arts[i].target))
  }

  predicate ReproducesOne(files: Files, pre: Files, plan: Plan, target: Path, b: Backup) {
    && b.target == target
    && if b.existed then
         && IsRegular(pre, target) && InTxn(b.backupPath, plan.txn) && IsRegular(files, b.backupPath)
         && files[b.backupPath].content == pre[target].content && b.mode == pre[target].perm
       else target !in pre
  }

  /** The first n targets can be put back. */
  predicate Reproduces(files: Files, pre: Files, plan: Plan, backups: seq<Backup>, n: nat) {
    n <= |plan.arts| && n <= |backups| && forall i :: 0 <= i < n ==> ReproducesOne(files, pre, plan, plan.arts[i].target, backups[i])
  }

  /** The durable journal holds backups that put every target back. */
  predicate HoldsBackups(files: Files, pre: Files, plan: Plan) {
    var j := JournalIn(files);
    j.Some? && j.value.plan == plan && |j.value.backups| == |plan.arts| && Reproduces(files, pre, plan, j.value.backups, |plan.arts|)
  }

  /** With a journal there are backups of everything; without one nothing changed, or the upgrade is committed. */
  predicate Safe(s: System) {
    if Active in s.files then HoldsBackups(s.files, s.pre, s.plan)
    else AllKept(s.files, s.pre, s.plan) || CommittedIn(s.files, s.plan.log, s.plan.id)
  }

  /** Only files of the transaction have been written. */
  ghost predicate Untouched(s: System, plan: Plan) {
    plan == s.plan && Active !in s.files && forall p: Path :: !InTxn(p, plan.txn) ==> At(s.files, p) == At(s.pre, p)
  }

  predicate InstalledOne(files: Files, plan: Plan, i: nat)
    requires i < |plan.arts|
  {
    var staged := Staged(plan.txn, i);
    IsRegular(files, staged) && At(files, plan.arts[i].target) == Some(File(files[staged].content, plan.arts[i].mode, 0))
  }

  predicate IsLast(plan: Plan, i: nat, n: nat)
    requires i < n <= |plan.arts|
  {
    forall k :: i < k < n ==> plan.arts[k].target != plan.arts[i].target
  }

  /** Each of the first n targets holds the artifact that was last installed there. */
  predicate Written(files: Files, plan: Plan, n: nat) {
    n <= |plan.arts| && forall i :: 0 <= i < n && IsLast(plan, i, n) ==> InstalledOne(files, plan, i)
  }

  /** The first n staged copies are the artifacts with the expected digests. */
  predicate AllStaged(files: Files, plan: Plan, digest: Digest, n: nat) {
    n <= |plan.arts|
    && forall i :: 0 <= i < n ==> IsRegular(files, Staged(plan.txn, i)) && digest(files[Staged(plan.txn, i)].content) == plan.arts[i].sha256
  }

  predicate Proper(plan: Plan) {
    NewTransaction(plan) && Clear(plan)
  }

  predicate ProperNext(after: Option<Plan>) {
    after.Some? ==> Proper(after.value)
  }

  /** The journal on disk has the backups of the one in memory. */
  predicate Journaled(s: System, j: Journal) {
    && Active in s.files && HoldsBackups(s.files, s.pre, s.plan)
    && j.plan == s.plan && j.backups == JournalIn(s.files).value.backups
  }

  predicate SwitchedOver(s: System, digest: Digest, j: Journal, n: nat) {
    Journaled(s, j) && JournalIn(s.files) == Some(j) && AllStaged(s.files, s.plan, digest, |s.plan.arts|) && Written(s.files, s.plan, n)
  }

  predicate Logged(s: System) {
    CommittedIn(s.files, s.plan.log, s.plan.id)
  }

  predicate JournalIs(files: Files, phase: Phase) {
    JournalIn(files).Some? && JournalIn(files).value.phase == phase
  }

  /** What each state of the process relies on. */
  ghost predicate ProcInv(s: System, digest: Digest) {
    match s.proc
    case Idle => true
    case Starting(next) => Proper(next)
    case Resuming(j, next) => Journaled(s, j) && JournalIn(s.files) == Some(j) && Proper(next)
    case Sealing(j, next) => Journaled(s, j) && JournalIn(s.files) == Some(j) && Proper(next) && Logged(s)
    case Clearing(next) => JournalIs(s.files, Committed) && Proper(next) && Logged(s)
    case Restoring(j, left, failed, after) =>
      Journaled(s, j) && ProperNext(after) && left <= |j.backups| && (!failed ==> PutBack(s.files, s.pre, s.plan, left))
    case Relogging(j, restored, after) => Journaled(s, j) && ProperNext(after) && (restored ==> PutBack(s.files, s.pre, s.plan, 0))
    case Forgetting(j, _, after) => Journaled(s, j) && ProperNext(after) && PutBack(s.files, s.pre, s.plan, 0)
    case Staging(plan, done) => Untouched(s, plan) && AllStaged(s.files, plan, digest, done)
    case Rejecting(plan) => Untouched(s, plan)
    case Backing(plan, backups) =>
      Untouched(s, plan) && AllStaged(s.files, plan, digest, |plan.arts|) && Reproduces(s.files, s.pre, plan, backups, |backups|)
    case Preparing(plan, backups) =>
      && Untouched(s, plan) && AllStaged(s.files, plan, digest, |plan.arts|)
      && |backups| == |plan.arts| && Reproduces(s.files, s.pre, plan, backups, |backups|)
    case Switching(j, done) => SwitchedOver(s, digest, j, done) && j.phase == Prepared
    case Checking(j) => SwitchedOver(s, digest, j, |s.plan.arts|) && j.phase == Switched
    case Marking(j) => SwitchedOver(s, digest, j, |s.plan.arts|) && j.phase == Switched
    case Logging(j) => SwitchedOver(s, digest, j, |s.plan.arts|) && j.phase == Healthy
    case Closing(j) => SwitchedOver(s, digest, j, |s.plan.arts|) && Logged(s)
    case Finishing(j) => SwitchedOver(s, digest, j.(phase := Committed), |s.plan.arts|) && Logged(s)
  }

  ghost predicate Inv(s: System, digest: Digest) {
    && Proper(s.plan) && Safe(s) && ProcInv(s, digest)
    && (JournalIn(s.files).Some? && JournalIn(s.files).value.phase == Committed ==> Logged(s))
  }

  // ----- What single operations keep -----

  /** Two disks agree on the journal and on the files of the transaction. */
  ghost predicate SameOwn(a: Files, b: Files, txn: string) {
    forall p: Path :: p == Active || InTxn(p, txn) ==> At(a, p) == At(b, p)
  }

  lemma SameOwnKeeps(a: Files, b: Files, pre: Files, plan: Plan)
    requires SameOwn(a, b, plan.txn)
    ensures JournalIn(a) == JournalIn(b) && (Active in a <==> Active in b)
    ensures HoldsBackups(a, pre, plan) ==> HoldsBackups(b, pre, plan)
  {
    assert At(a, Active) == At(b, Active);
    if HoldsBackups(a, pre, plan) {
      var backups := JournalIn(a).value.backups;
      forall i | 0 <= i < |plan.arts|
        ensures ReproducesOne(b, pre, plan, plan.arts[i].target, backups[i])
      {
        assert ReproducesOne(a, pre, plan, plan.arts[i].target, backups[i]);
        assert backups[i].existed ==> At(a, backups[i].backupPath) == At(b, backups[i].backupPath);
      }
    }
  }

  lemma SameOwnStaged(a: Files, b: Files, plan: Plan, digest: Digest)
    requires SameOwn(a, b, plan.txn) && AllStaged(a, plan, digest, |plan.arts|)
    ensures AllStaged(b, plan, digest, |plan.arts|)
  {
    forall i | 0 <= i < |plan.arts|
      ensures At(a, Staged(plan.txn, i)) == At(b, Staged(plan.txn, i))
    {
    }
  }

  /** Rewriting the journal loses no backup. */
  lemma JournalRewritten(files: Files, pre: Files, plan: Plan, j: Journal, f: Fault)
    requires HoldsBackups(files, pre, plan) && j.plan == plan && j.backups == JournalIn(files).value.backups && NewTransaction(plan)
    ensures var (next, ok) := WriteJournal(files, j, f);
            && HoldsBackups(next, pre, plan) && JournalIn(next).value.backups == j.backups
            && (ok ==> JournalIn(next) == Some(j)) && (JournalIn(next) == Some(j) || JournalIn(next) == JournalIn(files))
            && forall p :: p != Active ==> At(next, p) == At(files, p)
  {
    var next := WriteJournal(files, j, f).0;
    forall i | 0 <= i < |plan.arts|
      ensures ReproducesOne(next, pre, plan, plan.arts[i].target, j.backups[i])
    {
      assert ReproducesOne(files, pre, plan, plan.arts[i].target, j.backups[i]);
    }
  }

  /** A line in the log changes only the log, and keeps the lines before it. */
  lemma LogAppended(files: Files, log: Path, r: Record, f: Fault, id: string)
    ensures var (next, ok) := AppendAudit(files, log, r, f);
            && (forall p :: p != log ==> At(next, p) == At(files, p))
            && (CommittedIn(files, log, id) ==> CommittedIn(next, log, id))
            && (ok && r.id == id && (r.status == CommitRecord || r.status == CommittedAfterRecovery) ==> CommittedIn(next, log, id))
  {
  }

  /** Putting one target back from its backup. */
  lemma RestoredOne(files: Files, pre: Files, plan: Plan, i: nat, b: Backup, f: Fault)
    requires i < |plan.arts| && Proper(plan) && ReproducesOne(files, pre, plan, plan.arts[i].target, b)
    ensures var (next, ok) := RestoreOne(files, b, f);
            && (forall p :: p != b.target ==> At(next, p) == At(files, p))
            && (ok ==> At(next, b.target) == Strip(At(pre, b.target)))
            && (At(next, b.target) == At(files, b.target) || At(next, b.target) == Strip(At(pre, b.target)))
  {
  }

  // ----- Every step keeps the invariant -----

  lemma EnterKeepsInv(s: System, digest: Digest, files: Files, plan: Plan)
    requires Active !in files && Proper(plan)
    ensures Inv(Enter(s, files, plan), digest)
  {
  }

  lemma LogKeeps(s: System, r: Record, f: Fault)
    requires Proper(s.plan) && Active in s.files && HoldsBackups(s.files, s.pre, s.plan)
    ensures var next := AppendAudit(s.files, s.plan.log, r, f).0;
            && SameOwn(s.files, next, s.plan.txn) && HoldsBackups(next, s.pre, s.plan) && JournalIn(next) == JournalIn(s.files)
            && Active in next && forall i :: 0 <= i < |s.plan.arts| ==> At(next, s.plan.arts[i].target) == At(s.files, s.plan.arts[i].target)
  {
    LogAppended(s.files, s.plan.log, r, f, s.plan.id);
    SameOwnKeeps(s.files, AppendAudit(s.files, s.plan.log, r, f).0, s.pre, s.plan);
  }

  lemma SameTargetsWritten(a: Files, b: Files, plan: Plan, n: nat)
    requires SameOwn(a, b, plan.txn) || (forall p :: p != Active ==> At(a, p) == At(b, p))
    requires (forall i :: 0 <= i < |plan.arts| ==> At(a, plan.arts[i].target) == At(b, plan.arts[i].target)) && Written(a, plan, n)
    ensures Written(b, plan, n)
  {
    forall i | 0 <= i < n && IsLast(plan, i, n)
      ensures InstalledOne(b, plan, i)
    {
      assert InstalledOne(a, plan, i);
      assert At(a, Staged(plan.txn, i)) == At(b, Staged(plan.txn, i));
    }
  }

  lemma ResumingKeepsInv(s: System, digest: Digest, f: Fault)
    requires Inv(s, digest) && s.proc.Resuming?
    ensures Inv(Next(s, digest, Op(f)), digest)
  {
    var r := Record(s.plan.id, CommittedAfterRecovery);
    LogKeeps(s, r, f);
    LogAppended(s.files, s.plan.log, r, f, s.plan.id);
  }

  lemma SealingKeepsInv(s: System, digest: Digest, f: Fault)
    requires Inv(s, digest) && s.proc.Sealing?
    ensures Inv(Next(s, digest, Op(f)), digest)
  {
    JournalRewritten(s.files, s.pre, s.plan, s.proc.j.(phase := Committed), f);
    LogKept(s.files, WriteJournal(s.files, s.proc.j.(phase := Committed), f).0, s.plan);
  }

  /** Whatever happens to the journal, the log stays. */
  lemma LogKept(a: Files, b: Files, plan: Plan)
    requires At(a, plan.log) == At(b, plan.log)
    ensures CommittedIn(a, plan.log, plan.id) <==> CommittedIn(b, plan.log, plan.id)
  {
  }

  lemma ClearingKeepsInv(s: System, digest: Digest, f: Fault)
    requires Inv(s, digest) && s.proc.Clearing?
    ensures Inv(Next(s, digest, Op(f)), digest)
  {
    var files := Remove(s.files, Active, f).0;
    LogKept(s.files, files, s.plan);
    if f == NoFault {
      EnterKeepsInv(s, digest, files, s.proc.next);
    }
  }

  lemma ForgettingKeepsInv(s: System, digest: Digest, f: Fault)
    requires Inv(s, digest) && s.proc.Forgetting?
    ensures Inv(Next(s, digest, Op(f)), digest)
  {
    var files := Remove(s.files, Active, f).0;
    if f == NoFault && s.proc.after.Some? && s.proc.logged {
      EnterKeepsInv(s, digest, files, s.proc.after.value);
    }
    assert forall i :: 0 <= i < |s.plan.arts| ==> At(files, s.plan.arts[i].target) == At(s.files, s.plan.arts[i].target);
  }

  /** One target put back, or not: the journal, the backups and the log are as they were. */
  lemma OnePutBack(files: Files, pre: Files, plan: Plan, i: nat, b: Backup, f: Fault)
    requires i < |plan.arts| && Proper(plan) && HoldsBackups(files, pre, plan) && ReproducesOne(files, pre, plan, plan.arts[i].target, b)
    ensures var (next, ok) := RestoreOne(files, b, f);
            && JournalIn(next) == JournalIn(files) && Active in next && HoldsBackups(next, pre, plan)
            && (CommittedIn(files, plan.log, plan.id) ==> CommittedIn(next, plan.log, plan.id))
            && (ok && PutBack(files, pre, plan, i + 1) ==> PutBack(next, pre, plan, i))
  {
    RestoredOne(files, pre, plan, i, b, f);
    var next := RestoreOne(files, b, f).0;
    SameOwnKeeps(files, next, pre, plan);
    LogKept(files, next, plan);
  }

  lemma RestoringKeepsInv(s: System, digest: Digest, f: Fault)
    requires Inv(s, digest) && s.proc.Restoring? && Enabled(s, Op(f))
    ensures Inv(Next(s, digest, Op(f)), digest)
  {
    var i, b := s.proc.left - 1, s.proc.j.backups[s.proc.left - 1];
    assert ReproducesOne(s.files, s.pre, s.plan, s.plan.arts[i].target, b);
    OnePutBack(s.files, s.pre, s.plan, i, b, f);
  }

  lemma ReloggingKeepsInv(s: System, digest: Digest, f: Fault)
    requires Inv(s, digest) && s.proc.Relogging?
    ensures Inv(Next(s, digest, Op(f)), digest)
  {
    var r := RestoreRecord(s.proc.j, s.proc.restored, s.proc.after);
    LogKeeps(s, r, f);
    LogAppended(s.files, s.plan.log, r, f, s.plan.id);
  }

  lemma UntouchedIsSafe(s: System, plan: Plan)
    requires Untouched(s, plan) && NewTransaction(plan)
    ensures Safe(s)
  {
  }

  lemma StagingKeepsInv(s: System, digest: Digest, f: Fault)
    requires Inv(s, digest) && s.proc.Staging? && Enabled(s, Op(f))
    ensures Inv(Next(s, digest, Op(f)), digest)
  {
    var t := Next(s, digest, Op(f));
    assert Untouched(t, s.plan);
    UntouchedIsSafe(t, s.plan);
  }

  lemma BackingKeepsInv(s: System, digest: Digest, f: Fault)
    requires Inv(s, digest) && s.proc.Backing? && Enabled(s, Op(f))
    ensures Inv(Next(s, digest, Op(f)), digest)
  {
    var t, n := Next(s, digest, Op(f)), |s.proc.backups|;
    assert Untouched(t, s.plan);
    UntouchedIsSafe(t, s.plan);
    assert At(s.files, s.plan.arts[n].target) == At(s.pre, s.plan.arts[n].target);
    if t.proc.Backing? {
      forall i | 0 <= i < n
        ensures ReproducesOne(t.files, s.pre, s.plan, s.plan.arts[i].target, t.proc.backups[i])
      {
        assert ReproducesOne(s.files, s.pre, s.plan, s.plan.arts[i].target, s.proc.backups[i]);
      }
      assert ReproducesOne(t.files, s.pre, s.plan, s.plan.arts[n].target, t.proc.backups[n]);
    }
  }

  lemma TornKeepsInv(s: System, digest: Digest, content: Content)
    requires Inv(s, digest) && Enabled(s, Torn(content))
    ensures Inv(Next(s, digest, Torn(content)), digest)
  {
    var t := Next(s, digest, Torn(content));
    assert Untouched(t, s.plan);
    UntouchedIsSafe(t, s.plan);
  }

  lemma RejectingKeepsInv(s: System, digest: Digest, f: Fault)
    requires Inv(s, digest) && s.proc.Rejecting?
    ensures Inv(Next(s, digest, Op(f)), digest)
  {
    LogAppended(s.files, s.plan.log, Record(s.plan.id, Rejected), f, s.plan.id);
    var files := AppendAudit(s.files, s.plan.log, Record(s.plan.id, Rejected), f).0;
    assert At(files, Active) == At(s.files, Active);
    forall i | 0 <= i < |s.plan.arts|
      ensures At(files, s.plan.arts[i].target) == At(s.pre, s.plan.arts[i].target)
    {
      assert At(s.files, s.plan.arts[i].target) == At(s.pre, s.plan.arts[i].target);
    }
  }

  lemma PreparingKeepsInv(s: System, digest: Digest, f: Fault)
    requires Inv(s, digest) && s.proc.Preparing?
    ensures Inv(Next(s, digest, Op(f)), digest)
  {
    var j := Journal(s.plan, Prepared, s.proc.backups);
    var files := WriteJournal(s.files, j, f).0;
    if f != Before {
      forall i | 0 <= i < |s.plan.arts|
        ensures ReproducesOne(files, s.pre, s.plan, s.plan.arts[i].target, j.backups[i])
      {
        assert ReproducesOne(s.files, s.pre, s.plan, s.plan.arts[i].target, j.backups[i]);
      }
    }
  }

  lemma SwitchOneKeepsInv(s: System, digest: Digest, f: Fault)
    requires Inv(s, digest) && s.proc.Switching? && s.proc.done < |s.plan.arts|
    ensures Inv(Next(s, digest, Op(f)), digest)
  {
    var j, i := s.proc.j, s.proc.done;
    var target := s.plan.arts[i].target;
    var (files, ok) := Install(s.files, Staged(s.plan.txn, i), target, s.plan.arts[i].mode, f);
    assert forall p :: p != target ==> At(files, p) == At(s.files, p);
    SameOwnKeeps(s.files, files, s.pre, s.plan);
    SameOwnStaged(s.files, files, s.plan, digest);
    LogKept(s.files, files, s.plan);
    if ok {
      OneMoreWritten(s.files, files, s.plan, i);
    }
  }

  lemma OneMoreWritten(a: Files, b: Files, plan: Plan, i: nat)
    requires NewTransaction(plan) && i < |plan.arts| && Written(a, plan, i) && InstalledOne(b, plan, i)
    requires forall p :: p != plan.arts[i].target ==> At(b, p) == At(a, p)
    ensures Written(b, plan, i + 1)
  {
    forall k | 0 <= k < i && IsLast(plan, k, i + 1)
      ensures InstalledOne(b, plan, k)
    {
      assert IsLast(plan, k, i) && InstalledOne(a, plan, k);
      assert At(b, Staged(plan.txn, k)) == At(a, Staged(plan.txn, k));
    }
  }

  /** Marking the journal with a new phase. */
  lemma MarkKeeps(s: System, digest: Digest, j: Journal, phase: Phase, f: Fault)
    requires Proper(s.plan) && SwitchedOver(s, digest, j, |s.plan.arts|)
    ensures var next := j.(phase := phase);
            var (files, ok) := WriteJournal(s.files, next, f);
            && Journaled(s.(files := files), next) && (ok ==> SwitchedOver(s.(files := files), digest, next, |s.plan.arts|))
            && (JournalIn(files) == Some(next) || JournalIn(files) == Some(j)) && At(files, s.plan.log) == At(s.files, s.plan.log)
  {
    var next := j.(phase := phase);
    JournalRewritten(s.files, s.pre, s.plan, next, f);
    SameTargetsWritten(s.files, WriteJournal(s.files, next, f).0, s.plan, |s.plan.arts|);
  }

  lemma SwitchDoneKeepsInv(s: System, digest: Digest, f: Fault)
    requires Inv(s, digest) && s.proc.Switching? && s.proc.done == |s.plan.arts|
    ensures Inv(Next(s, digest, Op(f)), digest)
  {
    MarkKeeps(s, digest, s.proc.j, Switched, f);
  }

  lemma MarkingKeepsInv(s: System, digest: Digest, f: Fault)
    requires Inv(s, digest) && s.proc.Marking?
    ensures Inv(Next(s, digest, Op(f)), digest)
  {
    MarkKeeps(s, digest, s.proc.j, Healthy, f);
  }

  lemma ClosingKeepsInv(s: System, digest: Digest, f: Fault)
    requires Inv(s, digest) && s.proc.Closing?
    ensures Inv(Next(s, digest, Op(f)), digest)
  {
    MarkKeeps(s, digest, s.proc.j, Committed, f);
    LogKept(s.files, WriteJournal(s.files, s.proc.j.(phase := Committed), f).0, s.plan);
  }

  lemma LoggingKeepsInv(s: System, digest: Digest, f: Fault)
    requires Inv(s, digest) && s.proc.Logging?
    ensures Inv(Next(s, digest, Op(f)), digest)
  {
    var r := Record(s.plan.id, CommitRecord);
    LogKeeps(s, r, f);
    LogAppended(s.files, s.plan.log, r, f, s.plan.id);
    var files := AppendAudit(s.files, s.plan.log, r, f).0;
    SameOwnStaged(s.files, files, s.plan, digest);
    SameTargetsWritten(s.files, files, s.plan, |s.plan.arts|);
  }

  lemma FinishingKeepsInv(s: System, digest: Digest, f: Fault)
    requires Inv(s, digest) && s.proc.Finishing?
    ensures Inv(Next(s, digest, Op(f)), digest)
  {
    LogKept(s.files, Remove(s.files, Active, f).0, s.plan);
  }

  predicate IsRecovery(p: Proc) {
    p.Resuming? || p.Sealing? || p.Clearing? || p.Restoring? || p.Relogging? || p.Forgetting?
  }

  lemma RecoveryOpKeepsInv(s: System, digest: Digest, f: Fault)
    requires Inv(s, digest) && Enabled(s, Op(f)) && IsRecovery(s.proc)
    ensures Inv(Next(s, digest, Op(f)), digest)
  {
    match s.proc {
      case Resuming(_, _) => ResumingKeepsInv(s, digest, f);
      case Sealing(_, _) => SealingKeepsInv(s, digest, f);
      case Clearing(_) => ClearingKeepsInv(s, digest, f);
      case Restoring(_, _, _, _) => RestoringKeepsInv(s, digest, f);
      case Relogging(_, _, _) => ReloggingKeepsInv(s, digest, f);
      case Forgetting(_, _, _) => ForgettingKeepsInv(s, digest, f);
    }
  }

  lemma SwitchingKeepsInv(s: System, digest: Digest, f: Fault)
    requires Inv(s, digest) && s.proc.Switching?
    ensures Inv(Next(s, digest, Op(f)), digest)
  {
    if s.proc.done < |s.plan.arts| {
      SwitchOneKeepsInv(s, digest, f);
    } else {
      SwitchDoneKeepsInv(s, digest, f);
    }
  }

  lemma UpgradeOpKeepsInv(s: System, digest: Digest, f: Fault)
    requires Inv(s, digest) && Enabled(s, Op(f)) && !IsRecovery(s.proc)
    ensures Inv(Next(s, digest, Op(f)), digest)
  {
    match s.proc {
      case Staging(_, _) => StagingKeepsInv(s, digest, f);
      case Rejecting(_) => RejectingKeepsInv(s, digest, f);
      case Backing(_, _) => BackingKeepsInv(s, digest, f);
      case Preparing(_, _) => PreparingKeepsInv(s, digest, f);
      case Switching(_, _) => SwitchingKeepsInv(s, digest, f);
      case Marking(_) => MarkingKeepsInv(s, digest, f);
      case Logging(_) => LoggingKeepsInv(s, digest, f);
      case Closing(_) => ClosingKeepsInv(s, digest, f);
      case Finishing(_) => FinishingKeepsInv(s, digest, f);
    }
  }

  lemma OpKeepsInv(s: System, digest: Digest, f: Fault)
    requires Inv(s, digest) && Enabled(s, Op(f))
    ensures Inv(Next(s, digest, Op(f)), digest)
  {
    if IsRecovery(s.proc) {
      RecoveryOpKeepsInv(s, digest, f);
    } else {
      UpgradeOpKeepsInv(s, digest, f);
    }
  }

  lemma StartKeepsInv(s: System, digest: Digest, plan: Plan, healthy: bool)
    requires Inv(s, digest) && Proper(plan)
    ensures Inv(OnStart(s, plan, healthy), digest)
  {
    if Active !in s.files {
      EnterKeepsInv(s, digest, s.files, plan);
    }
  }

  lemma RestoredKeepsInv(s: System, digest: Digest, good: bool)
    requires Inv(s, digest) && s.proc.Restoring? && Enabled(s, Look(good))
    ensures Inv(Next(s, digest, Look(good)), digest)
  {
  }

  lemma CheckedKeepsInv(s: System, digest: Digest, good: bool)
    requires Inv(s, digest) && s.proc.Checking?
    ensures Inv(Next(s, digest, Look(good)), digest)
  {
  }

  lemma CopiedKeepsInv(s: System, digest: Digest, good: bool)
    requires Inv(s, digest) && (s.proc.Staging? || s.proc.Backing?) && Enabled(s, Look(good))
    ensures Inv(Next(s, digest, Look(good)), digest)
  {
  }

  lemma LookKeepsInv(s: System, digest: Digest, good: bool)
    requires Inv(s, digest) && Enabled(s, Look(good))
    ensures Inv(Next(s, digest, Look(good)), digest)
  {
    if s.proc.Starting? {
      StartKeepsInv(s, digest, s.proc.next, good);
      assert Next(s, digest, Look(good)) == OnStart(s, s.proc.next, good);
    } else if s.proc.Restoring? {
      RestoredKeepsInv(s, digest, good);
    } else if s.proc.Checking? {
      CheckedKeepsInv(s, digest, good);
    } else {
      CopiedKeepsInv(s, digest, good);
    }
  }

  /** Every step of every process keeps the invariant. */
  lemma StepKeepsInv(s: System, digest: Digest, e: Event)
    requires Inv(s, digest) && Enabled(s, e) && (e.Begin? ==> Clear(e.plan))
    ensures Inv(Next(s, digest, e), digest)
  {
    match e {
      case Op(f) => OpKeepsInv(s, digest, f);
      case Look(good) => LookKeepsInv(s, digest, good);
      case Torn(content) => TornKeepsInv(s, digest, content);
      case _ =>
    }
  }
}
