/**
 The atomic upgrade as a step system: recover, stage, back up, write the
 journal, switch the targets, check health, then commit or roll back. Every
 step is one disk operation or one look at the world; a process may die between
 any two of them, and the next one starts with recovery. A rename is atomic; an
 operation may be reported as failed before or after it took effect.
 */
module Upgrade {
  import opened Basics

  /** Files of the host, the journal, and files of one transaction. */
  datatype Path =
    | Host(name: string)
    | Active
    | Staged(txn: string, index: nat)
    | Saved(txn: string, index: nat)

  datatype Phase = Prepared | Switched | Healthy | Committed

  datatype Artifact = Artifact(source: Path, target: Path, sha256: string, mode: nat)

  datatype Backup = Backup(target: Path, backupPath: Path, existed: bool, mode: nat)

  /** One upgrade: what is installed, its id, its transaction, and the audit log. */
  datatype Plan = Plan(arts: seq<Artifact>, id: string, txn: string, log: Path)

  datatype Journal = Journal(plan: Plan, phase: Phase, backups: seq<Backup>)

  datatype Status = Rejected | CommitRecord | RolledBack | RollbackFailed | CommittedAfterRecovery | Recovered | RecoveryFailed

  datatype Record = Record(id: string, status: Status)

  /** File contents: bytes, an encoded journal, or either with a line appended. Only an encoded journal decodes as one. */
  datatype Content = Data(bytes: string) | Encoded(journal: Journal) | Line(before: Content, record: Record)

  /** A regular file with its permission bits and its special bits, or something else. */
  datatype Entry = File(content: Content, perm: nat, special: nat) | NotRegular

  type Files = map<Path, Entry>

  datatype Fault = NoFault | Before | After

  function At(files: Files, p: Path): Option<Entry> {
    if p in files then Some(files[p]) else None
  }

  predicate IsRegular(files: Files, p: Path) {
    p in files && files[p].File?
  }

  function JournalIn(files: Files): Option<Journal> {
    if IsRegular(files, Active) && files[Active].content.Encoded? then Some(files[Active].content.journal) else None
  }

  function Records(c: Content): seq<Record> {
    if c.Line? then Records(c.before) + [c.record] else []
  }

  /** The log shows that this upgrade was committed. */
  predicate CommittedIn(files: Files, log: Path, id: string) {
    && IsRegular(files, log)
    && (Record(id, CommitRecord) in Records(files[log].content) || Record(id, CommittedAfterRecovery) in Records(files[log].content))
  }

  // ----- Disk operations -----

  /** Each gives the disk afterwards and whether success was reported. */
  function Install(files: Files, source: Path, target: Path, mode: nat, f: Fault): (Files, bool) {
    if !IsRegular(files, source) || (target in files && files[target].NotRegular?) || f == Before then (files, false)
    else (files[target := File(files[source].content, mode, 0)], f == NoFault)
  }

  function Remove(files: Files, p: Path, f: Fault): (Files, bool) {
    if f == Before then (files, false) else (files - {p}, f == NoFault)
  }

  function WriteJournal(files: Files, j: Journal, f: Fault): (Files, bool) {
    if f == Before then (files, false) else (files[Active := File(Encoded(j), 0x180, 0)], f == NoFault)
  }

  function AppendAudit(files: Files, log: Path, r: Record, f: Fault): (Files, bool) {
    if f == Before || (log in files && files[log].NotRegular?) then (files, false)
    else if log in files then (files[log := files[log].(content := Line(files[log].content, r))], f == NoFault)
    else (files[log := File(Line(Data(""), r), 0x180, 0)], f == NoFault)
  }

  /** A copy to a new file; an existing one is left alone. */
  function Copy(files: Files, source: Path, target: Path, f: Fault): (Files, bool) {
    if !IsRegular(files, source) || target in files || f == Before then (files, false)
    else (files[target := File(files[source].content, 0x180, 0)], f == NoFault)
  }

  function RestoreOne(files: Files, b: Backup, f: Fault): (Files, bool) {
    if b.existed then Install(files, b.backupPath, b.target, b.mode, f) else Remove(files, b.target, f)
  }

  // ----- The process -----

  /** What the process is about to do. */
  datatype Proc =
    | Idle
    | Starting(next: Plan)                                           // look for an interrupted upgrade
    | Resuming(j: Journal, next: Plan)                               // it was healthy and still is: log the commit,
    | Sealing(j: Journal, next: Plan)                                // mark the journal committed,
    | Clearing(next: Plan)                                           // remove it
    | Restoring(j: Journal, left: nat, failed: bool, after: Option<Plan>)
    | Relogging(j: Journal, restored: bool, after: Option<Plan>)
    | Forgetting(j: Journal, logged: bool, after: Option<Plan>)
    | Staging(plan: Plan, done: nat)
    | Rejecting(plan: Plan)
    | Backing(plan: Plan, backups: seq<Backup>)
    | Preparing(plan: Plan, backups: seq<Backup>)
    | Switching(j: Journal, done: nat)
    | Checking(j: Journal)
    | Marking(j: Journal)
    | Logging(j: Journal)
    | Closing(j: Journal)
    | Finishing(j: Journal)

  /** `plan` is the upgrade that last got past recovery, and `pre` the disk it found; both are specification only. */
  datatype System = System(files: Files, proc: Proc, plan: Plan, pre: Files)

  datatype Event =
    | Begin(plan: Plan)
    | Op(fault: Fault)
    | Torn(content: Content)      // a copy that got stuck half way
    | Look(good: bool)            // a check: services, configuration, directories
    | Crash

  type Digest = Content -> string

  function Enter(s: System, files: Files, plan: Plan): System {
    System(files, Staging(plan, 0), plan, files)
  }

  predicate InTxn(p: Path, txn: string) {
    (p.Staged? || p.Saved?) && p.txn == txn
  }

  /** Transactions get new names: neither targets nor the log can lie in this one. */
  predicate NewTransaction(plan: Plan) {
    plan.txn != "" && !InTxn(plan.log, plan.txn) && forall i :: 0 <= i < |plan.arts| ==> !InTxn(plan.arts[i].target, plan.txn)
  }

  predicate Enabled(s: System, e: Event) {
    match e
    case Begin(plan) => s.proc.Idle? && NewTransaction(plan)
    case Crash => !s.proc.Idle?
    case Torn(_) => (s.proc.Staging? && s.proc.done < |s.proc.plan.arts|) || (s.proc.Backing? && |s.proc.backups| < |s.proc.plan.arts|)
    case Look(_) => CanLook(s.proc)
    case Op(_) => CanOperate(s.proc)
  }

  predicate CanLook(p: Proc) {
    match p
    case Starting(_) => true
    case Restoring(_, left, _, _) => left == 0
    case Staging(plan, done) => done >= |plan.arts|
    case Backing(plan, backups) => |backups| >= |plan.arts|
    case Checking(_) => true
    case _ => false
  }

  predicate CanOperate(p: Proc) {
    match p
    case Idle => false
    case Starting(_) => false
    case Restoring(j, left, _, _) => 0 < left <= |j.backups|
    case Staging(plan, done) => done < |plan.arts|
    case Backing(plan, backups) => |backups| < |plan.arts|
    case Checking(_) => false
    case _ => true
  }

  /** The first look at the journal. */
  function OnStart(s: System, plan: Plan, healthy: bool): System {
    if Active !in s.files then Enter(s, s.files, plan)
    else
      match JournalIn(s.files)
      case None => s.(proc := Idle)
      case Some(j) =>
        if j.phase == Committed then s.(proc := Clearing(plan))
        else if j.phase == Healthy && healthy then s.(proc := Resuming(j, plan))
        else if |j.backups| != |j.plan.arts| || j.plan.txn == "" then s.(proc := Idle)
        else s.(proc := Restoring(j, |j.backups|, false, Some(plan)))
  }

  function OnLook(s: System, good: bool): System
    requires Enabled(s, Look(good))
  {
    match s.proc
    case Starting(plan) => OnStart(s, plan, good)
    case Restoring(j, _, failed, after) => s.(proc := Relogging(j, !failed && good, after))
    case Staging(plan, _) => s.(proc := if good then Backing(plan, []) else Rejecting(plan))
    case Backing(plan, backups) => s.(proc := if good then Preparing(plan, backups) else Rejecting(plan))
    case Checking(j) => s.(proc := if good then Marking(j) else Restoring(j, |j.backups|, false, None))
  }

  function OnStage(s: System, plan: Plan, done: nat, digest: Digest, f: Fault): System
    requires done < |plan.arts|
  {
    var (files, ok) := Copy(s.files, plan.arts[done].source, Staged(plan.txn, done), f);
    var fine := ok && digest(files[Staged(plan.txn, done)].content) == plan.arts[done].sha256;
    s.(files := files, proc := if fine then Staging(plan, done + 1) else Rejecting(plan))
  }

  function OnBackup(s: System, plan: Plan, backups: seq<Backup>, f: Fault): System
    requires |backups| < |plan.arts|
  {
    var target, path := plan.arts[|backups|].target, Saved(plan.txn, |backups|);
    if target !in s.files then
      s.(proc := if f == NoFault then Backing(plan, backups + [Backup(target, Active, false, 0)]) else Rejecting(plan))
    else if s.files[target].NotRegular? then s.(proc := Rejecting(plan))
    else
      var (files, ok) := Copy(s.files, target, path, f);
      s.(files := files, proc := if ok then Backing(plan, backups + [Backup(target, path, true, s.files[target].perm)]) else Rejecting(plan))
  }

  function OnSwitch(s: System, j: Journal, done: nat, f: Fault): System {
    if done < |j.plan.arts| then
      var (files, ok) := Install(s.files, Staged(j.plan.txn, done), j.plan.arts[done].target, j.plan.arts[done].mode, f);
      s.(files := files, proc := if ok then Switching(j, done + 1) else Restoring(j, |j.backups|, false, None))
    else
      var next := j.(phase := Switched);
      var (files, ok) := WriteJournal(s.files, next, f);
      s.(files := files, proc := if ok then Checking(next) else Restoring(next, |j.backups|, false, None))
  }

  function OnForget(s: System, logged: bool, after: Option<Plan>, f: Fault): System {
    var (files, ok) := Remove(s.files, Active, f);
    if after.Some? && ok && logged then Enter(s, files, after.value) else s.(files := files, proc := Idle)
  }

  function RestoreRecord(j: Journal, restored: bool, after: Option<Plan>): Record {
    Record(j.plan.id, if after.None? then (if restored then RolledBack else RollbackFailed)
                      else (if restored then Recovered else RecoveryFailed))
  }

  function OnOp(s: System, digest: Digest, f: Fault): System
    requires Enabled(s, Op(f))
  {
    match s.proc
    case Resuming(j, next) =>
      var (files, ok) := AppendAudit(s.files, j.plan.log, Record(j.plan.id, CommittedAfterRecovery), f);
      s.(files := files, proc := if ok then Sealing(j, next) else Idle)
    case Sealing(j, next) =>
      var (files, ok) := WriteJournal(s.files, j.(phase := Committed), f);
      s.(files := files, proc := if ok then Clearing(next) else Idle)
    case Clearing(next) => OnForget(s, true, Some(next), f)
    case Restoring(j, left, failed, after) =>
      var (files, ok) := RestoreOne(s.files, j.backups[left - 1], f);
      s.(files := files, proc := Restoring(j, left - 1, failed || !ok, after))
    case Relogging(j, restored, after) =>
      var (files, ok) := AppendAudit(s.files, j.plan.log, RestoreRecord(j, restored, after), f);
      s.(files := files, proc := if restored then Forgetting(j, ok, after) else Idle)
    case Forgetting(_, logged, after) => OnForget(s, logged, after, f)
    case Staging(plan, done) => OnStage(s, plan, done, digest, f)
    case Rejecting(plan) => s.(files := AppendAudit(s.files, plan.log, Record(plan.id, Rejected), f).0, proc := Idle)
    case Backing(plan, backups) => OnBackup(s, plan, backups, f)
    case Preparing(plan, backups) =>
      var j := Journal(plan, Prepared, backups);
      var (files, ok) := WriteJournal(s.files, j, f);
      s.(files := files, proc := if ok then Switching(j, 0) else Idle)
    case Switching(j, done) => OnSwitch(s, j, done, f)
    case Marking(j) =>
      var next := j.(phase := Healthy);
      var (files, ok) := WriteJournal(s.files, next, f);
      s.(files := files, proc := if ok then Logging(next) else Restoring(next, |j.backups|, false, None))
    case Logging(j) =>
      var (files, ok) := AppendAudit(s.files, j.plan.log, Record(j.plan.id, CommitRecord), f);
      s.(files := files, proc := if ok then Closing(j) else Idle)
    case Closing(j) =>
      var (files, ok) := WriteJournal(s.files, j.(phase := Committed), f);
      s.(files := files, proc := if ok then Finishing(j) else Idle)
    case Finishing(_) => s.(files := Remove(s.files, Active, f).0, proc := Idle)
  }

  /** A copy that stopped half way may leave anything at its destination. */
  function OnTorn(s: System, content: Content): System
    requires Enabled(s, Torn(content))
  {
    var path := if s.proc.Staging? then Staged(s.proc.plan.txn, s.proc.done) else Saved(s.proc.plan.txn, |s.proc.backups|);
    s.(files := if path in s.files then s.files else s.files[path := File(content, 0x180, 0)], proc := Rejecting(s.proc.plan))
  }

  function Next(s: System, digest: Digest, e: Event): System
    requires Enabled(s, e)
  {
    match e
    case Begin(plan) => s.(proc := Starting(plan))
    case Op(f) => OnOp(s, digest, f)
    case Torn(content) => OnTorn(s, content)
    case Look(good) => OnLook(s, good)
    case Crash => s.(proc := Idle)
  }

  ghost predicate Runs(s: System, digest: Digest, es: seq<Event>, t: System)
    decreases |es|
  {
    if es == [] then s == t else Enabled(s, es[0]) && Runs(Next(s, digest, es[0]), digest, es[1..], t)
  }

  lemma {:induction false} RunsConcat(s: System, digest: Digest, es: seq<Event>, m: System, fs: seq<Event>, t: System)
    requires Runs(s, digest, es, m) && Runs(m, digest, fs, t)
    ensures Runs(s, digest, es + fs, t)
    decreases |es|
  {
    if es == [] {
      assert es + fs == fs;
    } else {
      RunsConcat(Next(s, digest, es[0]), digest, es[1..], m, fs, t);
      assert (es + fs)[1..] == es[1..] + fs;
    }
  }

  lemma RunsExtend(s: System, digest: Digest, es: seq<Event>, m: System, e: Event)
    requires Runs(s, digest, es, m) && Enabled(m, e)
    ensures Runs(s, digest, es + [e], Next(m, digest, e))
  {
    assert Runs(Next(m, digest, e), digest, [e][1..], Next(m, digest, e));
    RunsConcat(s, digest, es, m, [e], Next(m, digest, e));
  }
}
