/** What holds of every run of upgrades, crashes and recoveries, and exactly where it ends. */
module UpgradeTheorems {
  import opened Basics
  import opened Upgrade
  import opened UpgradeProofs

  // ----- Write-ahead safety -----

  predicate AllClear(es: seq<Event>) {
    forall k :: 0 <= k < |es| && es[k].Begin? ==> Clear(es[k].plan)
  }

  /** No journal, and no upgrade under way. */
  predicate Initial(s: System) {
    s.proc == Idle && Active !in s.files && s.pre == s.files && Proper(s.plan)
  }

  /** If a target differs from what the upgrade found there, backups of all targets are durable, or the upgrade has committed. */
  predicate WriteAhead(s: System) {
    (exists i :: 0 <= i < |s.plan.arts| && !Kept(s.files, s.pre, s.plan.arts[i].target)) ==>
      HoldsBackups(s.files, s.pre, s.plan) || CommittedIn(s.files, s.plan.log, s.plan.id)
  }

  lemma {:induction false} RunKeepsInv(s: System, digest: Digest, es: seq<Event>, t: System)
    requires Inv(s, digest) && Runs(s, digest, es, t) && AllClear(es)
    ensures Inv(t, digest)
    decreases |es|
  {
    if es != [] {
      StepKeepsInv(s, digest, es[0]);
      RunKeepsInv(Next(s, digest, es[0]), digest, es[1..], t);
    }
  }

  /** In every reachable state, whatever crashed and failed on the way. Targets need not be distinct. */
  lemma RunIsWriteAhead(s: System, digest: Digest, es: seq<Event>, t: System)
    requires Initial(s) && Runs(s, digest, es, t) && AllClear(es)
    ensures WriteAhead(t)
  {
    RunKeepsInv(s, digest, es, t);
  }

  /** The journal goes last: once it says that the logged commit is complete, or once every target is put back. */
  lemma JournalGoesLast(s: System, digest: Digest, e: Event)
    requires Inv(s, digest) && Enabled(s, e) && Active in s.files
    ensures Active in Next(s, digest, e).files
            || (JournalIs(s.files, Committed) && CommittedIn(s.files, s.plan.log, s.plan.id))
            || PutBack(s.files, s.pre, s.plan, 0)
  {
    RemovesJournal(s, digest, e);
  }

  lemma RemovesJournal(s: System, digest: Digest, e: Event)
    requires Inv(s, digest) && Enabled(s, e) && Active in s.files
    ensures Active in Next(s, digest, e).files || s.proc.Clearing? || s.proc.Forgetting? || s.proc.Finishing?
  {
    if s.proc.Restoring? && e.Op? {
      var i := s.proc.left - 1;
      assert ReproducesOne(s.files, s.pre, s.plan, s.plan.arts[i].target, s.proc.j.backups[i]);
    }
  }

  // ----- Recovery -----

  predicate InRecovery(p: Proc) {
    p.Idle? || p.Starting? || IsRecovery(p)
  }

  /** Any number of attempts at recovery, each cut short or failing anywhere, until one gets through to staging. */
  ghost predicate RecoveryRun(s: System, digest: Digest, es: seq<Event>, t: System)
    decreases |es|
  {
    if es == [] then s == t
    else InRecovery(s.proc) && Enabled(s, es[0]) && RecoveryRun(Next(s, digest, es[0]), digest, es[1..], t)
  }

  lemma {:induction false} RecoveryRunExtend(s: System, digest: Digest, es: seq<Event>, m: System, e: Event)
    requires RecoveryRun(s, digest, es, m) && InRecovery(m.proc) && Enabled(m, e)
    ensures RecoveryRun(s, digest, es + [e], Next(m, digest, e))
    decreases |es|
  {
    if es == [] {
      assert RecoveryRun(Next(m, digest, e), digest, [], Next(m, digest, e));
      assert ([] + [e])[1..] == [];
    } else {
      RecoveryRunExtend(Next(s, digest, es[0]), digest, es[1..], m, e);
      assert (es + [e])[1..] == es[1..] + [e];
    }
  }

  lemma {:induction false} RecoveryRunConcat(s: System, digest: Digest, es: seq<Event>, m: System, fs: seq<Event>, t: System)
    requires RecoveryRun(s, digest, es, m) && RecoveryRun(m, digest, fs, t)
    ensures RecoveryRun(s, digest, es + fs, t)
    decreases |es|
  {
    if es == [] {
      assert es + fs == fs;
    } else {
      RecoveryRunConcat(Next(s, digest, es[0]), digest, es[1..], m, fs, t);
      assert (es + fs)[1..] == es[1..] + fs;
    }
  }

  lemma {:induction false} RecoveryRunIsRun(s: System, digest: Digest, es: seq<Event>, t: System)
    requires RecoveryRun(s, digest, es, t)
    ensures Runs(s, digest, es, t)
    decreases |es|
  {
    if es != [] {
      RecoveryRunIsRun(Next(s, digest, es[0]), digest, es[1..], t);
    }
  }

  /** A rollback is still to be done, or has been done completely. */
  predicate Undoing(s: System, pre: Files, plan: Plan) {
    && s.plan == plan && s.pre == pre
    && if Active in s.files then
         && JournalIn(s.files).Some? && (JournalIn(s.files).value.phase == Prepared || JournalIn(s.files).value.phase == Switched)
         && (s.proc.Idle? || s.proc.Starting? || s.proc.Restoring? || s.proc.Relogging? || s.proc.Forgetting?)
       else PutBack(s.files, pre, plan, 0) && (s.proc.Idle? || s.proc.Starting?)
  }

  lemma UndoingStep(s: System, digest: Digest, e: Event, pre: Files, plan: Plan)
    requires Inv(s, digest) && Undoing(s, pre, plan) && Enabled(s, e)
    ensures var t := Next(s, digest, e);
            if t.proc.Staging? then Active !in t.files && PutBack(t.files, pre, plan, 0) else Undoing(t, pre, plan)
  {
    match s.proc {
      case Restoring(j, left, _, _) =>
        if e.Op? {
          var b := j.backups[left - 1];
          assert ReproducesOne(s.files, s.pre, s.plan, s.plan.arts[left - 1].target, b);
          RestoredOne(s.files, s.pre, s.plan, left - 1, b, e.fault);
          SameOwnKeeps(s.files, RestoreOne(s.files, b, e.fault).0, s.pre, s.plan);
        }
      case Relogging(j, restored, after) =>
        if e.Op? {
          LogKeeps(s, RestoreRecord(j, restored, after), e.fault);
        }
      case Forgetting(_, _, _) =>
        if e.Op? {
          var files := Remove(s.files, Active, e.fault).0;
          assert forall i :: 0 <= i < |plan.arts| ==> At(files, plan.arts[i].target) == At(s.files, plan.arts[i].target);
        }
      case _ =>
    }
  }

  lemma {:induction false} UndoingRun(s: System, digest: Digest, es: seq<Event>, t: System, pre: Files, plan: Plan)
    requires Inv(s, digest) && Undoing(s, pre, plan) && RecoveryRun(s, digest, es, t) && AllClear(es)
    ensures if t.proc.Staging? then Active !in t.files && PutBack(t.files, pre, plan, 0) else Undoing(t, pre, plan)
    decreases |es|
  {
    if es != [] {
      UndoingStep(s, digest, es[0], pre, plan);
      StepKeepsInv(s, digest, es[0]);
      var next := Next(s, digest, es[0]);
      if next.proc.Staging? {
        assert es[1..] == [];
      } else {
        UndoingRun(next, digest, es[1..], t, pre, plan);
      }
    }
  }

  predicate HasSpecial(pre: Files, p: Path) {
    IsRegular(pre, p) && pre[p].special != 0
  }

  /**
   From a prepared or switched journal, however often recovery itself crashes
   and starts over: once it returns, every target is old again and no journal
   remains; and a target is back exactly when it had no special mode bits.
   */
  lemma RecoveryIsAllOld(s: System, digest: Digest, es: seq<Event>, t: System)
    requires Inv(s, digest) && s.proc.Idle? && JournalIn(s.files).Some?
    requires JournalIn(s.files).value.phase == Prepared || JournalIn(s.files).value.phase == Switched
    requires RecoveryRun(s, digest, es, t) && AllClear(es) && t.proc.Staging?
    ensures Active !in t.files && AllKept(t.files, s.pre, s.plan)
    ensures forall i :: 0 <= i < |s.plan.arts| ==>
              var p := s.plan.arts[i].target;
              At(t.files, p) == Strip(At(s.pre, p)) && (At(t.files, p) == At(s.pre, p) <==> !HasSpecial(s.pre, p))
  {
    UndoingRun(s, digest, es, t, s.pre, s.plan);
  }

  // ----- Nothing is staged before recovery is through -----

  lemma RecoveryStepWrites(s: System, digest: Digest, e: Event, p: Path)
    requires Inv(s, digest) && InRecovery(s.proc) && Enabled(s, e)
    requires p != Active && p != s.plan.log && forall i :: 0 <= i < |s.plan.arts| ==> s.plan.arts[i].target != p
    ensures At(Next(s, digest, e).files, p) == At(s.files, p)
    ensures !Next(s, digest, e).proc.Staging? ==> Next(s, digest, e).plan == s.plan
  {
    if s.proc.Restoring? && e.Op? {
      assert ReproducesOne(s.files, s.pre, s.plan, s.plan.arts[s.proc.left - 1].target, s.proc.j.backups[s.proc.left - 1]);
    }
  }

  /** Until recovery is through, no file is created or changed but the interrupted upgrade's own: nothing is staged. */
  lemma {:induction false} NothingStagedBefore(s: System, digest: Digest, es: seq<Event>, t: System, p: Path)
    requires Inv(s, digest) && RecoveryRun(s, digest, es, t) && AllClear(es)
    requires p != Active && p != s.plan.log && forall i :: 0 <= i < |s.plan.arts| ==> s.plan.arts[i].target != p
    ensures At(t.files, p) == At(s.files, p)
    decreases |es|
  {
    if es != [] {
      RecoveryStepWrites(s, digest, es[0], p);
      StepKeepsInv(s, digest, es[0]);
      var next := Next(s, digest, es[0]);
      if next.proc.Staging? {
        assert es[1..] == [];
      } else {
        NothingStagedBefore(next, digest, es[1..], t, p);
      }
    }
  }

  // ----- All new -----

  predicate DistinctTargets(plan: Plan) {
    forall i, k :: 0 <= i < k < |plan.arts| ==> plan.arts[i].target != plan.arts[k].target
  }

  /** What installing an artifact puts at its target. */
  function Artefact(files: Files, plan: Plan, i: nat): Option<Entry>
    requires i < |plan.arts|
  {
    var staged := Staged(plan.txn, i);
    if IsRegular(files, staged) then Some(File(files[staged].content, plan.arts[i].mode, 0)) else None
  }

  predicate InPlace(files: Files, plan: Plan, i: nat)
    requires i < |plan.arts|
  {
    At(files, plan.arts[i].target) == Artefact(files, plan, i)
  }

  predicate AllInPlace(files: Files, plan: Plan) {
    forall i :: 0 <= i < |plan.arts| ==> InPlace(files, plan, i)
  }

  /** Artifacts with the same target are the same. */
  predicate Agree(files: Files, plan: Plan) {
    forall i, k :: 0 <= i < |plan.arts| && 0 <= k < |plan.arts| && plan.arts[i].target == plan.arts[k].target ==>
      Artefact(files, plan, i) == Artefact(files, plan, k)
  }

  lemma {:induction false} LastOf(plan: Plan, i: nat, n: nat) returns (k: nat)
    requires i < n <= |plan.arts|
    ensures i <= k < n && plan.arts[k].target == plan.arts[i].target && IsLast(plan, k, n)
    decreases n - i
  {
    if IsLast(plan, i, n) {
      k := i;
    } else {
      var j :| i < j < n && plan.arts[j].target == plan.arts[i].target;
      k := LastOf(plan, j, n);
    }
  }

  /** After all installs every artifact is in place if and only if artifacts with the same target are the same. */
  lemma AllNewIff(files: Files, plan: Plan)
    requires Written(files, plan, |plan.arts|)
    ensures AllInPlace(files, plan) <==> Agree(files, plan)
  {
    if Agree(files, plan) {
      forall i | 0 <= i < |plan.arts|
        ensures InPlace(files, plan, i)
      {
        var k := LastOf(plan, i, |plan.arts|);
        assert InstalledOne(files, plan, k);
      }
    }
    if AllInPlace(files, plan) {
      forall i, k | 0 <= i < |plan.arts| && 0 <= k < |plan.arts| && plan.arts[i].target == plan.arts[k].target
        ensures Artefact(files, plan, i) == Artefact(files, plan, k)
      {
        assert InPlace(files, plan, i) && InPlace(files, plan, k);
      }
    }
  }

  /** With two different artifacts for one target, one of them is not in place even after an upgrade that succeeded. */
  lemma EqualTargetsNotAllNew(files: Files, plan: Plan, i: nat, k: nat)
    requires Written(files, plan, |plan.arts|)
    requires i < k < |plan.arts| && plan.arts[i].target == plan.arts[k].target && Artefact(files, plan, i) != Artefact(files, plan, k)
    ensures !AllInPlace(files, plan)
  {
    AllNewIff(files, plan);
  }

  lemma FinishedIsNew(s: System, digest: Digest, j: Journal)
    requires Inv(s, digest) && s.proc == Finishing(j)
    ensures var files := s.files - {Active};
            && CommittedIn(files, j.plan.log, j.plan.id)
            && Written(files, j.plan, |j.plan.arts|) && AllStaged(files, j.plan, digest, |j.plan.arts|)
  {
    var files := s.files - {Active};
    LogKept(s.files, files, s.plan);
    SameTargetsWritten(s.files, files, s.plan, |s.plan.arts|);
  }
}
