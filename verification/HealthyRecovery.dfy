/**
 Recovery from a journal that was already healthy. Such a journal is committed
 if the services answer and rolled back if they do not, and the answer may
 change from one attempt to the next.
 */
module HealthyRecovery {
  import opened Basics
  import opened Upgrade
  import opened UpgradeProofs
  import opened UpgradeTheorems

  /** The upgrade changed every target, and each is a regular file without special bits now. */
  predicate AllChanged(now: Files, pre: Files, plan: Plan) {
    forall i :: 0 <= i < |plan.arts| ==>
      var p := plan.arts[i].target;
      IsRegular(now, p) && now[p].special == 0 && At(now, p) != Strip(At(pre, p))
  }

  /** An idle system whose journal is healthy, with all targets switched. */
  ghost predicate WasHealthy(s: System, digest: Digest) {
    && Inv(s, digest) && s.proc.Idle? && JournalIn(s.files).Some? && JournalIn(s.files).value.phase == Healthy
    && DistinctTargets(s.plan) && AllChanged(s.files, s.pre, s.plan)
  }

  /** The targets in `back` are old, the others are as in `now`. */
  predicate Mixed(files: Files, now: Files, pre: Files, plan: Plan, back: set<nat>) {
    forall i :: 0 <= i < |plan.arts| ==>
      var p := plan.arts[i].target;
      At(files, p) == if i in back then Strip(At(pre, p)) else At(now, p)
  }

  predicate AllOld(files: Files, pre: Files, plan: Plan) {
    PutBack(files, pre, plan, 0)
  }

  predicate AllNew(files: Files, now: Files, plan: Plan) {
    forall i :: 0 <= i < |plan.arts| ==> At(files, plan.arts[i].target) == At(now, plan.arts[i].target)
  }

  /** The target this step puts back, if any: a restore that took effect. */
  function Restored(s: System, e: Event): set<nat> {
    if s.proc.Restoring? && e.Op? && e.fault != Before && s.proc.left > 0 then {s.proc.left - 1} else {}
  }

  /** All targets that the attempts of a run put back. */
  ghost function RestoredIn(s: System, digest: Digest, es: seq<Event>): set<nat>
    decreases |es|
  {
    if es == [] || !Enabled(s, es[0]) then {}
    else Restored(s, es[0]) + RestoredIn(Next(s, digest, es[0]), digest, es[1..])
  }

  predicate Everything(plan: Plan, back: set<nat>) {
    forall i :: 0 <= i < |plan.arts| ==> i in back
  }

  lemma RestoreTakesEffect(files: Files, now: Files, pre: Files, plan: Plan, back: set<nat>, i: nat, b: Backup, f: Fault)
    requires i < |plan.arts| && DistinctTargets(plan) && AllChanged(now, pre, plan)
    requires Mixed(files, now, pre, plan, back) && ReproducesOne(files, pre, plan, plan.arts[i].target, b)
    ensures Mixed(RestoreOne(files, b, f).0, now, pre, plan, if f == Before then back else back + {i})
  {
    var p := plan.arts[i].target;
    assert p in files ==> files[p].File?;
  }

  lemma RestoringMixed(s: System, digest: Digest, f: Fault, now: Files, back: set<nat>)
    requires Inv(s, digest) && s.proc.Restoring? && Enabled(s, Op(f))
    requires DistinctTargets(s.plan) && AllChanged(now, s.pre, s.plan) && Mixed(s.files, now, s.pre, s.plan, back)
    ensures Mixed(Next(s, digest, Op(f)).files, now, s.pre, s.plan, back + Restored(s, Op(f)))
  {
    var i := s.proc.left - 1;
    assert ReproducesOne(s.files, s.pre, s.plan, s.plan.arts[i].target, s.proc.j.backups[i]);
    RestoreTakesEffect(s.files, now, s.pre, s.plan, back, i, s.proc.j.backups[i], f);
    assert back + {} == back;
  }

  lemma MixedStays(a: Files, b: Files, now: Files, pre: Files, plan: Plan, back: set<nat>)
    requires Mixed(a, now, pre, plan, back) && forall i :: 0 <= i < |plan.arts| ==> At(b, plan.arts[i].target) == At(a, plan.arts[i].target)
    ensures Mixed(b, now, pre, plan, back + {})
  {
    assert back + {} == back;
  }

  /** While recovery is at it, every target is old or new, according to what was put back. */
  lemma MixedStep(s: System, digest: Digest, e: Event, now: Files, back: set<nat>)
    requires Inv(s, digest) && InRecovery(s.proc) && Enabled(s, e)
    requires DistinctTargets(s.plan) && AllChanged(now, s.pre, s.plan) && Mixed(s.files, now, s.pre, s.plan, back)
    ensures Mixed(Next(s, digest, e).files, now, s.pre, s.plan, back + Restored(s, e))
  {
    if s.proc.Restoring? && e.Op? {
      RestoringMixed(s, digest, e.fault, now, back);
    } else {
      var files := Next(s, digest, e).files;
      forall i | 0 <= i < |s.plan.arts|
        ensures At(files, s.plan.arts[i].target) == At(s.files, s.plan.arts[i].target)
      {
        TargetKept(s, digest, e, s.plan.arts[i].target);
      }
      MixedStays(s.files, files, now, s.pre, s.plan, back);
    }
  }

  lemma PlanStays(s: System, digest: Digest, e: Event)
    requires InRecovery(s.proc) && Enabled(s, e) && !Next(s, digest, e).proc.Staging?
    ensures Next(s, digest, e).plan == s.plan && Next(s, digest, e).pre == s.pre
  {
  }

  lemma TargetKept(s: System, digest: Digest, e: Event, p: Path)
    requires Inv(s, digest) && InRecovery(s.proc) && Enabled(s, e) && !(s.proc.Restoring? && e.Op?) && p != Active && p != s.plan.log
    ensures At(Next(s, digest, e).files, p) == At(s.files, p)
  {
  }

  /** How a recovery that got through ended: everything put back, or committed. */
  lemma EntryStep(s: System, digest: Digest, e: Event)
    requires Inv(s, digest) && InRecovery(s.proc) && Enabled(s, e) && Next(s, digest, e).proc.Staging?
    ensures AllKept(s.files, s.pre, s.plan) || CommittedIn(s.files, s.plan.log, s.plan.id)
  {
  }

  /** Recovery goes on with the same upgrade to undo or to complete, until it is through. */
  lemma GoesOn(s: System, digest: Digest, e: Event)
    requires Inv(s, digest) && InRecovery(s.proc) && Enabled(s, e) && (e.Begin? ==> Clear(e.plan))
    requires !Next(s, digest, e).proc.Staging?
    ensures Inv(Next(s, digest, e), digest) && InRecovery(Next(s, digest, e).proc)
    ensures Next(s, digest, e).plan == s.plan && Next(s, digest, e).pre == s.pre
  {
    StepKeepsInv(s, digest, e);
    PlanStays(s, digest, e);
    RecoveryGoesOn(s, digest, e);
  }

  lemma RestoredFirst(s: System, digest: Digest, es: seq<Event>, back: set<nat>)
    requires es != [] && Enabled(s, es[0])
    ensures back + RestoredIn(s, digest, es) == (back + Restored(s, es[0])) + RestoredIn(Next(s, digest, es[0]), digest, es[1..])
    ensures es[1..] == [] ==> back + RestoredIn(s, digest, es) == back + Restored(s, es[0])
  {
  }

  lemma {:induction false} MixedRun(s: System, digest: Digest, es: seq<Event>, t: System, now: Files, back: set<nat>)
    requires Inv(s, digest) && RecoveryRun(s, digest, es, t) && AllClear(es)
    requires DistinctTargets(s.plan) && AllChanged(now, s.pre, s.plan) && Mixed(s.files, now, s.pre, s.plan, back)
    ensures Mixed(t.files, now, s.pre, s.plan, back + RestoredIn(s, digest, es))
    decreases |es|
  {
    if es == [] {
      assert back + {} == back;
    } else {
      var next, put := Next(s, digest, es[0]), back + Restored(s, es[0]);
      assert Mixed(next.files, now, s.pre, s.plan, put) by {
        MixedStep(s, digest, es[0], now, back);
      }
      RestoredFirst(s, digest, es, back);
      if next.proc.Staging? {
        assert es[1..] == [];
      } else {
        GoesOn(s, digest, es[0]);
        MixedRun(next, digest, es[1..], t, now, put);
      }
    }
  }

  predicate Settled(files: Files, pre: Files, plan: Plan) {
    AllKept(files, pre, plan) || CommittedIn(files, plan.log, plan.id)
  }

  lemma SettledEntry(s: System, digest: Digest, e: Event)
    requires Inv(s, digest) && InRecovery(s.proc) && Enabled(s, e) && Next(s, digest, e).proc.Staging?
    ensures Settled(Next(s, digest, e).files, s.pre, s.plan)
  {
    EntryStep(s, digest, e);
    EnteredKeeps(s, digest, e);
  }

  lemma {:induction false} SettledRun(s: System, digest: Digest, es: seq<Event>, t: System)
    requires Inv(s, digest) && InRecovery(s.proc) && RecoveryRun(s, digest, es, t) && AllClear(es) && t.proc.Staging?
    ensures Settled(t.files, s.pre, s.plan)
    decreases |es|
  {
    var next := Next(s, digest, es[0]);
    if next.proc.Staging? {
      assert es[1..] == [];
      SettledEntry(s, digest, es[0]);
    } else {
      GoesOn(s, digest, es[0]);
      SettledRun(next, digest, es[1..], t);
    }
  }

  lemma RecoveryGoesOn(s: System, digest: Digest, e: Event)
    requires InRecovery(s.proc) && Enabled(s, e)
    ensures InRecovery(Next(s, digest, e).proc) || Next(s, digest, e).proc.Staging?
  {
  }

  lemma EnteredKeeps(s: System, digest: Digest, e: Event)
    requires Inv(s, digest) && InRecovery(s.proc) && Enabled(s, e) && Next(s, digest, e).proc.Staging?
    ensures forall p :: p != Active ==> At(Next(s, digest, e).files, p) == At(s.files, p)
  {
  }

  lemma MixedIsPureIff(files: Files, now: Files, pre: Files, plan: Plan, back: set<nat>)
    requires AllChanged(now, pre, plan) && Mixed(files, now, pre, plan, back)
    ensures AllOld(files, pre, plan) <==> Everything(plan, back)
    ensures AllNew(files, now, plan) <==> forall i :: 0 <= i < |plan.arts| ==> i !in back
  {
    forall i | 0 <= i < |plan.arts|
      ensures (At(files, plan.arts[i].target) == Strip(At(pre, plan.arts[i].target)) <==> i in back)
              && (At(files, plan.arts[i].target) == At(now, plan.arts[i].target) <==> i !in back)
    {
    }
  }

  /**
   Once recovery from a healthy journal returns, after any number of attempts,
   the targets are all old or all new if and only if the attempts together put
   back all of them or none; otherwise a commit was logged.
   */
  lemma HealthyRecoveryIff(s: System, digest: Digest, es: seq<Event>, t: System)
    requires WasHealthy(s, digest) && RecoveryRun(s, digest, es, t) && AllClear(es) && t.proc.Staging?
    ensures var back := RestoredIn(s, digest, es);
            && (AllOld(t.files, s.pre, s.plan) <==> Everything(s.plan, back))
            && (AllNew(t.files, s.files, s.plan) <==> forall i :: 0 <= i < |s.plan.arts| ==> i !in back)
            && (!Everything(s.plan, back) ==> CommittedIn(t.files, s.plan.log, s.plan.id))
  {
    var back := RestoredIn(s, digest, es);
    MixedRun(s, digest, es, t, s.files, {});
    assert {} + back == back;
    MixedIsPureIff(t.files, s.files, s.pre, s.plan, back);
    SettledRun(s, digest, es, t);
    if AllKept(t.files, s.pre, s.plan) {
      forall i | 0 <= i < |s.plan.arts|
        ensures At(t.files, s.plan.arts[i].target) == Strip(At(s.pre, s.plan.arts[i].target))
      {
        assert Kept(t.files, s.pre, s.plan.arts[i].target);
      }
    }
  }

  // ----- What the last answer of the services decides -----

  /** What the services answered when recovery last asked them, with a healthy journal at hand. */
  ghost function LastAnswer(s: System, digest: Digest, es: seq<Event>, last: Option<bool>): Option<bool>
    decreases |es|
  {
    if es == [] || !Enabled(s, es[0]) then last
    else LastAnswer(Next(s, digest, es[0]), digest, es[1..], Asked(s, es[0], last))
  }

  function Asked(s: System, e: Event, last: Option<bool>): Option<bool> {
    if s.proc.Starting? && e.Look? && JournalIn(s.files).Some? && JournalIn(s.files).value.phase == Healthy then Some(e.good) else last
  }

  /** Recovery is over, or nearly: after a good answer, or with everything put back. */
  predicate Over(plan: Plan, last: Option<bool>, back: set<nat>) {
    last == Some(true) || Everything(plan, back)
  }

  /** How far recovery is, by the last answer and by what has been put back. */
  predicate Follows(s: System, last: Option<bool>, back: set<nat>) {
    match s.proc
    case Idle => Resting(s, last, back)
    case Starting(_) => Resting(s, last, back)
    case Resuming(j, _) => last == Some(true) && JournalIs(s.files, Healthy) && j.phase == Healthy
    case Sealing(j, _) => last == Some(true) && JournalIs(s.files, Healthy) && j.phase == Healthy
    case Clearing(_) => last == Some(true) && JournalIs(s.files, Committed)
    case Restoring(j, left, failed, _) =>
      && JournalIs(s.files, Healthy) && |j.backups| == |s.plan.arts|
      && (!failed ==> forall i :: left <= i < |s.plan.arts| ==> i in back)
    case Relogging(_, restored, _) => JournalIs(s.files, Healthy) && (restored ==> Everything(s.plan, back))
    case Forgetting(_, _, _) => JournalIs(s.files, Healthy) && Everything(s.plan, back)
    case _ => Over(s.plan, last, back)
  }

  predicate Resting(s: System, last: Option<bool>, back: set<nat>) {
    if Active !in s.files then Over(s.plan, last, back)
    else JournalIs(s.files, Healthy) || (JournalIs(s.files, Committed) && last == Some(true))
  }

  lemma FollowsRestore(s: System, digest: Digest, f: Fault, last: Option<bool>, back: set<nat>)
    requires Inv(s, digest) && s.proc.Restoring? && Enabled(s, Op(f)) && Follows(s, last, back)
    ensures Follows(Next(s, digest, Op(f)), last, back + Restored(s, Op(f)))
  {
    var left := s.proc.left;
    assert ReproducesOne(s.files, s.pre, s.plan, s.plan.arts[left - 1].target, s.proc.j.backups[left - 1]);
    assert At(Next(s, digest, Op(f)).files, Active) == At(s.files, Active);
  }

  lemma FollowsOp(s: System, digest: Digest, f: Fault, last: Option<bool>, back: set<nat>)
    requires Inv(s, digest) && InRecovery(s.proc) && !s.proc.Restoring? && Enabled(s, Op(f)) && Follows(s, last, back)
    ensures var t := Next(s, digest, Op(f));
            if t.proc.Staging? then Over(s.plan, last, back) else Follows(t, last, back)
  {
    if s.proc.Resuming? || s.proc.Relogging? {
      assert At(Next(s, digest, Op(f)).files, Active) == At(s.files, Active);
    }
  }

  lemma FollowsStep(s: System, digest: Digest, e: Event, last: Option<bool>, back: set<nat>)
    requires Inv(s, digest) && InRecovery(s.proc) && Enabled(s, e) && Follows(s, last, back)
    ensures var t := Next(s, digest, e);
            if t.proc.Staging? then Over(s.plan, Asked(s, e, last), back + Restored(s, e))
            else Follows(t, Asked(s, e, last), back + Restored(s, e))
  {
    if e.Op? && s.proc.Restoring? {
      FollowsRestore(s, digest, e.fault, last, back);
    } else {
      assert back + {} == back;
      if e.Op? {
        FollowsOp(s, digest, e.fault, last, back);
      }
    }
  }

  lemma {:induction false} FollowsRun(s: System, digest: Digest, es: seq<Event>, t: System, last: Option<bool>, back: set<nat>)
    requires Inv(s, digest) && InRecovery(s.proc) && Follows(s, last, back)
    requires RecoveryRun(s, digest, es, t) && AllClear(es) && t.proc.Staging?
    ensures Over(s.plan, LastAnswer(s, digest, es, last), back + RestoredIn(s, digest, es))
    decreases |es|
  {
    var next, put := Next(s, digest, es[0]), back + Restored(s, es[0]);
    var now := Asked(s, es[0], last);
    assert if next.proc.Staging? then Over(s.plan, now, put) else Follows(next, now, put) by {
      FollowsStep(s, digest, es[0], last, back);
    }
    RestoredFirst(s, digest, es, back);
    if next.proc.Staging? {
      assert es[1..] == [];
    } else {
      GoesOn(s, digest, es[0]);
      FollowsRun(next, digest, es[1..], t, now, put);
    }
  }

  /**
   Once recovery from a healthy journal returns, the targets are a mixture if and
   only if the services answered at last, after attempts cut short before had put
   back some targets and not all.
   */
  lemma MixtureIff(s: System, digest: Digest, es: seq<Event>, t: System)
    requires WasHealthy(s, digest) && RecoveryRun(s, digest, es, t) && AllClear(es) && t.proc.Staging?
    ensures var back := RestoredIn(s, digest, es);
            !AllOld(t.files, s.pre, s.plan) && !AllNew(t.files, s.files, s.plan) <==>
              && LastAnswer(s, digest, es, None) == Some(true)
              && (exists i :: 0 <= i < |s.plan.arts| && i in back) && (exists i :: 0 <= i < |s.plan.arts| && i !in back)
  {
    HealthyRecoveryIff(s, digest, es, t);
    FollowsRun(s, digest, es, t, None, {});
    assert {} + RestoredIn(s, digest, es) == RestoredIn(s, digest, es);
  }

  // ----- Such a mixture does get committed -----

  lemma OneStep(s: System, digest: Digest, e: Event, es: seq<Event>, t: System)
    requires InRecovery(s.proc) && Enabled(s, e) && RecoveryRun(Next(s, digest, e), digest, es, t)
    ensures RecoveryRun(s, digest, [e] + es, t)
    ensures RestoredIn(s, digest, [e] + es) == Restored(s, e) + RestoredIn(Next(s, digest, e), digest, es)
    ensures AllClear(es) && (e.Begin? ==> Clear(e.plan)) ==> AllClear([e] + es)
  {
    assert ([e] + es)[1..] == es;
  }

  /** Services down: a rollback starts, restores the last target, and dies. */
  lemma CutShortSteps(s: System, digest: Digest, next: Plan, t: System)
    requires WasHealthy(s, digest) && |s.plan.arts| >= 1 && Proper(next)
    requires t == s.(files := RestoreOne(s.files, JournalIn(s.files).value.backups[|s.plan.arts| - 1], NoFault).0)
    ensures var s1, s2 := s.(proc := Starting(next)), s.(proc := Restoring(JournalIn(s.files).value, |s.plan.arts|, false, Some(next)));
            && Enabled(s, Begin(next)) && Next(s, digest, Begin(next)) == s1
            && Enabled(s1, Look(false)) && Next(s1, digest, Look(false)) == s2
            && Enabled(s2, Op(NoFault)) && Next(s2, digest, Op(NoFault)) == t.(proc := Next(s2, digest, Op(NoFault)).proc)
            && Next(s2, digest, Op(NoFault)).proc.Restoring?
  {
  }

  /** Four steps in front of a run, of which the third puts one target back. */
  lemma FourSteps(digest: Digest, s: System, next: Plan, s1: System, s2: System, s3: System, t: System, es: seq<Event>, end: System)
    returns (all: seq<Event>)
    requires InRecovery(s.proc) && Enabled(s, Begin(next)) && Next(s, digest, Begin(next)) == s1 && Clear(next)
    requires InRecovery(s1.proc) && Enabled(s1, Look(false)) && Next(s1, digest, Look(false)) == s2
    requires s2.proc.Restoring? && Enabled(s2, Op(NoFault)) && Next(s2, digest, Op(NoFault)) == s3
    requires s3.proc.Restoring? && Next(s3, digest, Crash) == t && RecoveryRun(t, digest, es, end) && AllClear(es)
    ensures RecoveryRun(s, digest, all, end) && AllClear(all)
    ensures RestoredIn(s, digest, all) == Restored(s2, Op(NoFault)) + RestoredIn(t, digest, es)
  {
    OneStep(s3, digest, Crash, es, end);
    OneStep(s2, digest, Op(NoFault), [Crash] + es, end);
    OneStep(s1, digest, Look(false), [Op(NoFault)] + ([Crash] + es), end);
    OneStep(s, digest, Begin(next), [Look(false)] + ([Op(NoFault)] + ([Crash] + es)), end);
    all := [Begin(next)] + ([Look(false)] + ([Op(NoFault)] + ([Crash] + es)));
  }

  lemma CutShort(s: System, digest: Digest, next: Plan, es: seq<Event>, t: System, end: System) returns (all: seq<Event>)
    requires WasHealthy(s, digest) && |s.plan.arts| >= 1 && Proper(next)
    requires t == s.(files := RestoreOne(s.files, JournalIn(s.files).value.backups[|s.plan.arts| - 1], NoFault).0)
    requires RecoveryRun(t, digest, es, end) && AllClear(es)
    ensures RecoveryRun(s, digest, all, end) && AllClear(all)
    ensures RestoredIn(s, digest, all) == {|s.plan.arts| - 1} + RestoredIn(t, digest, es)
  {
    var s1, s2 := s.(proc := Starting(next)), s.(proc := Restoring(JournalIn(s.files).value, |s.plan.arts|, false, Some(next)));
    CutShortSteps(s, digest, next, t);
    all := FourSteps(digest, s, next, s1, s2, Next(s2, digest, Op(NoFault)), t, es, end);
  }

  /** A journal that recovery can commit. */
  predicate Committable(s: System) {
    && Proper(s.plan) && s.proc.Idle? && JournalIn(s.files).Some?
    && JournalIn(s.files).value.phase == Healthy && JournalIn(s.files).value.plan == s.plan
    && (s.plan.log in s.files ==> s.files[s.plan.log].File?)
  }

  lemma CommitLogged(s: System, digest: Digest, next: Plan)
    requires Committable(s)
    ensures var s2 := s.(proc := Resuming(JournalIn(s.files).value, next));
            && Enabled(s2, Op(NoFault)) && Next(s2, digest, Op(NoFault)).proc == Sealing(JournalIn(s.files).value, next)
            && CommittedIn(Next(s2, digest, Op(NoFault)).files, s.plan.log, s.plan.id)
  {
    var s3 := Next(s.(proc := Resuming(JournalIn(s.files).value, next)), digest, Op(NoFault));
    var records := Records(s3.files[s.plan.log].content);
    assert records[|records| - 1] == Record(s.plan.id, CommittedAfterRecovery);
  }

  lemma CommitSealed(s: System, digest: Digest, j: Journal, next: Plan)
    requires s.proc == Sealing(j, next) && s.plan.log != Active
    ensures var t := Next(s, digest, Op(NoFault));
            && t.proc == Clearing(next) && Enabled(t, Op(NoFault)) && Next(t, digest, Op(NoFault)).proc == Staging(next, 0)
            && At(Next(t, digest, Op(NoFault)).files, s.plan.log) == At(s.files, s.plan.log)
  {
  }

  /** Services up: the journal is committed and removed. */
  lemma Committing(s: System, digest: Digest, next: Plan) returns (es: seq<Event>, end: System)
    requires Proper(next) && Committable(s)
    ensures RecoveryRun(s, digest, es, end) && AllClear(es) && end.proc.Staging? && RestoredIn(s, digest, es) == {}
    ensures CommittedIn(end.files, s.plan.log, s.plan.id)
  {
    var j := JournalIn(s.files).value;
    var s1, s2 := s.(proc := Starting(next)), s.(proc := Resuming(j, next));
    assert Next(s, digest, Begin(next)) == s1 && Next(s1, digest, Look(true)) == s2;
    CommitLogged(s, digest, next);
    var s3 := Next(s2, digest, Op(NoFault));
    CommitSealed(s3, digest, j, next);
    var s4 := Next(s3, digest, Op(NoFault));
    end := Next(s4, digest, Op(NoFault));
    OneStep(s4, digest, Op(NoFault), [], end);
    OneStep(s3, digest, Op(NoFault), [Op(NoFault)] + [], end);
    OneStep(s2, digest, Op(NoFault), [Op(NoFault)] + ([Op(NoFault)] + []), end);
    OneStep(s1, digest, Look(true), [Op(NoFault)] + ([Op(NoFault)] + ([Op(NoFault)] + [])), end);
    es := [Begin(next)] + ([Look(true)] + ([Op(NoFault)] + ([Op(NoFault)] + ([Op(NoFault)] + []))));
    OneStep(s, digest, Begin(next), [Look(true)] + ([Op(NoFault)] + ([Op(NoFault)] + ([Op(NoFault)] + []))), end);
  }

  lemma HalfRestored(s: System, digest: Digest) returns (t: System)
    requires WasHealthy(s, digest) && |s.plan.arts| >= 1 && (s.plan.log in s.files ==> s.files[s.plan.log].File?)
    ensures t == s.(files := RestoreOne(s.files, JournalIn(s.files).value.backups[|s.plan.arts| - 1], NoFault).0)
    ensures JournalIn(t.files) == JournalIn(s.files) && (t.plan.log in t.files ==> t.files[t.plan.log].File?)
  {
    var i := |s.plan.arts| - 1;
    var b := JournalIn(s.files).value.backups[i];
    assert ReproducesOne(s.files, s.pre, s.plan, s.plan.arts[i].target, b);
    t := s.(files := RestoreOne(s.files, b, NoFault).0);
    RestoredOne(s.files, s.pre, s.plan, i, b, NoFault);
    assert At(t.files, Active) == At(s.files, Active) && At(t.files, s.plan.log) == At(s.files, s.plan.log);
  }

  /** Two attempts: the first puts the last target back and dies, the second finds the services up and logs a commit. */
  lemma CommitAfterCut(s: System, digest: Digest, next: Plan) returns (es: seq<Event>, t: System)
    requires WasHealthy(s, digest) && |s.plan.arts| >= 1 && Proper(next) && (s.plan.log in s.files ==> s.files[s.plan.log].File?)
    ensures RecoveryRun(s, digest, es, t) && AllClear(es) && t.proc.Staging? && RestoredIn(s, digest, es) == {|s.plan.arts| - 1}
    ensures CommittedIn(t.files, s.plan.log, s.plan.id)
  {
    var half := HalfRestored(s, digest);
    var later, end := Committing(half, digest, next);
    es := CutShort(s, digest, next, later, half, end);
    t := end;
  }

  /** Whenever there are two targets or more, some run of two attempts logs a commit with one target old and one new. */
  lemma HealthyJournalMayCommitMixture(s: System, digest: Digest, next: Plan) returns (es: seq<Event>, t: System)
    requires WasHealthy(s, digest) && |s.plan.arts| >= 2 && Proper(next) && (s.plan.log in s.files ==> s.files[s.plan.log].File?)
    ensures RecoveryRun(s, digest, es, t) && AllClear(es) && t.proc.Staging? && CommittedIn(t.files, s.plan.log, s.plan.id)
    ensures !AllOld(t.files, s.pre, s.plan) && !AllNew(t.files, s.files, s.plan)
  {
    es, t := CommitAfterCut(s, digest, next);
    HealthyRecoveryIff(s, digest, es, t);
    assert |s.plan.arts| - 1 in RestoredIn(s, digest, es) && 0 !in RestoredIn(s, digest, es);
  }

  /** And with one target some run logs a commit although the old file is back. */
  lemma HealthyJournalMayCommitOld(s: System, digest: Digest, next: Plan) returns (es: seq<Event>, t: System)
    requires WasHealthy(s, digest) && |s.plan.arts| == 1 && Proper(next) && (s.plan.log in s.files ==> s.files[s.plan.log].File?)
    ensures RecoveryRun(s, digest, es, t) && AllClear(es) && t.proc.Staging? && CommittedIn(t.files, s.plan.log, s.plan.id)
    ensures AllOld(t.files, s.pre, s.plan) && !AllNew(t.files, s.files, s.plan)
  {
    es, t := CommitAfterCut(s, digest, next);
    HealthyRecoveryIff(s, digest, es, t);
    assert 0 in RestoredIn(s, digest, es);
  }
}
