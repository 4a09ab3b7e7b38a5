/** Runs from the start of an upgrade into a healthy journal, and on into a committed mixture. */
module HealthyRuns {
  import opened Basics
  import opened Upgrade
  import opened UpgradeProofs
  import opened UpgradeTheorems
  import opened UpgradeLimits
  import opened HealthyRecovery

  /** Every artifact really changes its target. */
  predicate ChangesAll(files: Files, plan: Plan) {
    forall i :: 0 <= i < |plan.arts| ==>
      Strip(At(files, plan.arts[i].target)) != Some(File(SourceOf(files, plan.arts[i]), plan.arts[i].mode, 0))
  }

  /** Each target holds its artifact. */
  predicate AllInstalled(files: Files, start: Files, plan: Plan) {
    forall i :: 0 <= i < |plan.arts| ==> At(files, plan.arts[i].target) == Some(File(SourceOf(start, plan.arts[i]), plan.arts[i].mode, 0))
  }

  lemma SwitchedAll(s: System, digest: Digest, plan: Plan, start: Files)
    requires Inv(s, digest) && SwitchedSoFar(s, plan, start, |plan.arts|) && DistinctTargets(plan)
    ensures AllInstalled(s.files, start, plan)
  {
    forall i | 0 <= i < |plan.arts|
      ensures At(s.files, plan.arts[i].target) == Some(File(SourceOf(start, plan.arts[i]), plan.arts[i].mode, 0))
    {
      assert IsLast(plan, i, |plan.arts|);
      assert InstalledOne(s.files, plan, i);
      assert At(s.files, Staged(plan.txn, i)) == Some(File(SourceOf(start, plan.arts[i]), 0x180, 0));
    }
  }

  lemma SwitchedOn(s: System, digest: Digest, plan: Plan, start: Files)
    requires SwitchedSoFar(s, plan, start, |plan.arts|)
    ensures var s1 := Next(s, digest, Op(NoFault));
            && Enabled(s, Op(NoFault)) && s1 == s.(files := s1.files, proc := Checking(s.proc.j.(phase := Switched)))
            && forall p :: p != Active ==> At(s1.files, p) == At(s.files, p)
  {
  }

  lemma CheckedOn(s: System, digest: Digest)
    requires s.proc.Checking?
    ensures var s2 := s.(proc := Marking(s.proc.j)); Enabled(s, Look(true)) && Next(s, digest, Look(true)) == s2
    ensures var j := s.proc.j.(phase := Healthy);
            var s2 := s.(proc := Marking(s.proc.j));
            var s3 := Next(s2, digest, Op(NoFault));
            && Enabled(s2, Op(NoFault)) && s3 == s.(files := s3.files, proc := Logging(j)) && JournalIn(s3.files) == Some(j)
            && forall p :: p != Active ==> At(s3.files, p) == At(s.files, p)
  {
  }

  /** With all targets switched the services answer, and the process dies once the journal says so. */
  lemma MarkedHealthy(s: System, digest: Digest, plan: Plan, start: Files) returns (t: System)
    requires SwitchedSoFar(s, plan, start, |plan.arts|)
    ensures Runs(s, digest, [Op(NoFault), Look(true), Op(NoFault), Crash], t)
    ensures t.proc.Idle? && t.plan == plan && t.pre == start && JournalIs(t.files, Healthy)
    ensures forall p :: p != Active ==> At(t.files, p) == At(s.files, p)
  {
    SwitchedOn(s, digest, plan, start);
    var s1 := Next(s, digest, Op(NoFault));
    CheckedOn(s1, digest);
    var s2 := s1.(proc := Marking(s1.proc.j));
    var s3 := Next(s2, digest, Op(NoFault));
    t := s3.(proc := Idle);
    assert Runs(t, digest, [], t);
    UpgradeLimits.Step(s3, digest, Crash, [], t);
    UpgradeLimits.Step(s2, digest, Op(NoFault), [Crash], t);
    UpgradeLimits.Step(s1, digest, Look(true), [Op(NoFault), Crash], t);
    UpgradeLimits.Step(s, digest, Op(NoFault), [Look(true), Op(NoFault), Crash], t);
  }

  /** From the start to the last switch. */
  lemma SwitchedRun(s: System, digest: Digest, plan: Plan) returns (es: seq<Event>, t: System)
    requires s.proc.Idle? && Ready(s.files, plan, digest)
    ensures Runs(s, digest, [Begin(plan)] + es, t) && NoBegin(es) && SwitchedSoFar(t, plan, s.files, |plan.arts|)
  {
    var prepare, m := PreparedRun(s, digest, plan);
    var switching;
    switching, t := SwitchRun(m, digest, plan, s.files, 0, |plan.arts|);
    MoreRun(s, digest, plan, prepare, m, switching, t);
    es := prepare + switching;
  }

  lemma BeginIsClear(plan: Plan, es: seq<Event>)
    requires Clear(plan) && NoBegin(es)
    ensures AllClear([Begin(plan)] + es)
  {
  }

  lemma InstalledIsChanged(files: Files, start: Files, plan: Plan)
    requires AllInstalled(files, start, plan) && ChangesAll(start, plan)
    ensures AllChanged(files, start, plan)
  {
  }

  lemma DiesHealthy(s: System, digest: Digest, plan: Plan) returns (es: seq<Event>, t: System)
    requires Inv(s, digest) && s.proc.Idle? && Ready(s.files, plan, digest) && Clear(plan) && DistinctTargets(plan)
    ensures Runs(s, digest, [Begin(plan)] + es, t) && NoBegin(es)
    ensures t.proc.Idle? && t.plan == plan && t.pre == s.files && JournalIs(t.files, Healthy)
    ensures AllInstalled(t.files, s.files, plan) && At(t.files, plan.log) == At(s.files, plan.log)
  {
    var before, u := SwitchedRun(s, digest, plan);
    assert AllInstalled(u.files, s.files, plan) by {
      BeginIsClear(plan, before);
      RunKeepsInv(s, digest, [Begin(plan)] + before, u);
      SwitchedAll(u, digest, plan, s.files);
    }
    t := MarkedHealthy(u, digest, plan, s.files);
    var after := [Op(NoFault), Look(true), Op(NoFault), Crash];
    assert Runs(s, digest, [Begin(plan)] + (before + after), t) && NoBegin(before + after) by {
      MoreRun(s, digest, plan, before, u, after, t);
    }
    es := before + after;
  }

  /** An upgrade that dies between its health check and its commit leaves a healthy journal behind, with every artifact in place. */
  lemma ReachesHealthy(s: System, digest: Digest, plan: Plan) returns (es: seq<Event>, t: System)
    requires Inv(s, digest) && s.proc.Idle? && Ready(s.files, plan, digest) && Clear(plan)
    requires DistinctTargets(plan) && ChangesAll(s.files, plan)
    ensures Runs(s, digest, [Begin(plan)] + es, t) && NoBegin(es)
    ensures WasHealthy(t, digest) && t.plan == plan && t.pre == s.files && AllInstalled(t.files, s.files, plan)
    ensures Solid(t.files, plan.log)
  {
    es, t := DiesHealthy(s, digest, plan);
    assert Inv(t, digest) by {
      BeginIsClear(plan, es);
      RunKeepsInv(s, digest, [Begin(plan)] + es, t);
    }
    InstalledIsChanged(t.files, s.files, plan);
  }

  /**
   So a mixture can come of any upgrade of two targets or more that nothing
   stands in the way of: a run from its start, through two deaths, logs a commit
   with not all targets old and not all artifacts in place.
   */
  lemma MixtureFromStart(s: System, digest: Digest, plan: Plan, next: Plan) returns (es: seq<Event>, t: System)
    requires Inv(s, digest) && s.proc.Idle? && Ready(s.files, plan, digest) && Clear(plan)
    requires DistinctTargets(plan) && ChangesAll(s.files, plan) && |plan.arts| >= 2 && Proper(next)
    ensures Runs(s, digest, es, t) && t.proc.Staging? && CommittedIn(t.files, plan.log, plan.id)
    ensures !AllOld(t.files, s.files, plan) && !AllInstalled(t.files, s.files, plan)
  {
    var first, m := ReachesHealthy(s, digest, plan);
    var later;
    later, t := HealthyJournalMayCommitMixture(m, digest, next);
    RecoveryRunIsRun(m, digest, later, t);
    RunsConcat(s, digest, [Begin(plan)] + first, m, later, t);
    es := [Begin(plan)] + first + later;
  }
}
