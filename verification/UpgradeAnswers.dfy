/** No upgrade is committed without an answer of its services. */
module UpgradeAnswers {
  import opened Upgrade
  import opened UpgradeProofs
  import opened UpgradeTheorems
  import opened UpgradeOutcomes

  /** Whether the services of the current upgrade have answered: at its own health check, or to a recovery that found it healthy. */
  function Noted(s: System, digest: Digest, e: Event, answered: bool): bool
    requires Enabled(s, e)
  {
    if e == Look(true) && (s.proc.Checking? || (s.proc.Starting? && JournalIs(s.files, Healthy))) then true
    else if !s.proc.Staging? && Next(s, digest, e).proc.Staging? then false
    else answered
  }

  ghost function Answered(s: System, digest: Digest, es: seq<Event>, answered: bool): bool
    decreases |es|
  {
    if es == [] || !Enabled(s, es[0]) then answered
    else Answered(Next(s, digest, es[0]), digest, es[1..], Noted(s, digest, es[0], answered))
  }

  /** An upgrade without an answer: its log shows no commit that was not there before, and no process is about to write one. */
  predicate Unanswered(s: System) {
    && (CommittedIn(s.files, s.plan.log, s.plan.id) ==> CommittedIn(s.pre, s.plan.log, s.plan.id))
    && !JournalIs(s.files, Healthy) && !JournalIs(s.files, Committed)
    && !(s.proc.Marking? || s.proc.Logging? || s.proc.Closing? || s.proc.Finishing?)
    && !(s.proc.Resuming? || s.proc.Sealing? || s.proc.Clearing?)
  }

  lemma OtherLine(files: Files, log: Path, r: Record, f: Fault, id: string)
    requires r.status != CommitRecord && r.status != CommittedAfterRecovery
    ensures CommittedIn(AppendAudit(files, log, r, f).0, log, id) ==> CommittedIn(files, log, id)
  {
    var next := AppendAudit(files, log, r, f).0;
    if next != files {
      assert Records(next[log].content) == (if log in files then Records(files[log].content) else []) + [r];
    }
  }

  lemma UnansweredLook(s: System, digest: Digest, good: bool)
    requires Inv(s, digest) && Unanswered(s) && Enabled(s, Look(good)) && !Noted(s, digest, Look(good), false)
    ensures Unanswered(Next(s, digest, Look(good)))
  {
  }

  lemma UnansweredUndo(s: System, digest: Digest, f: Fault)
    requires Inv(s, digest) && Unanswered(s) && Enabled(s, Op(f)) && IsBack(s.proc)
    ensures Unanswered(Next(s, digest, Op(f)))
  {
    match s.proc {
      case Restoring(j, left, _, _) =>
        assert ReproducesOne(s.files, s.pre, s.plan, s.plan.arts[left - 1].target, j.backups[left - 1]);
        RestoredOne(s.files, s.pre, s.plan, left - 1, j.backups[left - 1], f);
        assert At(RestoreOne(s.files, j.backups[left - 1], f).0, Active) == At(s.files, Active);
      case Relogging(j, restored, after) =>
        OtherLine(s.files, s.plan.log, RestoreRecord(j, restored, after), f, s.plan.id);
        LogKeeps(s, RestoreRecord(j, restored, after), f);
      case Forgetting(_, _, _) =>
        LogKept(s.files, Remove(s.files, Active, f).0, s.plan);
    }
  }

  lemma UnansweredReject(s: System, digest: Digest, f: Fault)
    requires Inv(s, digest) && Unanswered(s) && Enabled(s, Op(f)) && s.proc.Rejecting?
    ensures Unanswered(Next(s, digest, Op(f)))
  {
    OtherLine(s.files, s.plan.log, Record(s.plan.id, Rejected), f, s.plan.id);
    LogAppended(s.files, s.plan.log, Record(s.plan.id, Rejected), f, s.plan.id);
    assert At(Next(s, digest, Op(f)).files, Active) == At(s.files, Active);
  }

  lemma UnansweredCopy(s: System, digest: Digest, f: Fault)
    requires Inv(s, digest) && Unanswered(s) && Enabled(s, Op(f)) && (s.proc.Staging? || s.proc.Backing? || s.proc.Preparing?)
    ensures Unanswered(Next(s, digest, Op(f)))
  {
    var t := Next(s, digest, Op(f));
    assert At(t.files, s.plan.log) == At(s.files, s.plan.log);
    assert !s.proc.Preparing? ==> At(t.files, Active) == At(s.files, Active);
  }

  lemma UnansweredSwitch(s: System, digest: Digest, f: Fault)
    requires Inv(s, digest) && Unanswered(s) && Enabled(s, Op(f)) && s.proc.Switching?
    ensures Unanswered(Next(s, digest, Op(f)))
  {
    var t := Next(s, digest, Op(f));
    assert At(t.files, s.plan.log) == At(s.files, s.plan.log);
    assert s.proc.done < |s.plan.arts| ==> At(t.files, Active) == At(s.files, Active);
  }

  lemma UnansweredStep(s: System, digest: Digest, e: Event)
    requires Inv(s, digest) && Unanswered(s) && Enabled(s, e) && !Noted(s, digest, e, false)
    ensures Unanswered(Next(s, digest, e))
  {
    match e {
      case Look(good) => UnansweredLook(s, digest, good);
      case Op(f) =>
        if IsBack(s.proc) {
          UnansweredUndo(s, digest, f);
        } else if s.proc.Switching? {
          UnansweredSwitch(s, digest, f);
        } else if s.proc.Rejecting? {
          UnansweredReject(s, digest, f);
        } else {
          UnansweredCopy(s, digest, f);
        }
      case _ =>
    }
  }

  /** A step that enters the next upgrade starts from the disk as it is, with no journal. */
  lemma EntersAfresh(s: System, digest: Digest, e: Event)
    requires Enabled(s, e) && !s.proc.Staging? && Next(s, digest, e).proc.Staging?
    ensures var t := Next(s, digest, e); t.pre == t.files && Active !in t.files
  {
  }

  lemma NotedStep(s: System, digest: Digest, e: Event, answered: bool)
    requires Inv(s, digest) && Enabled(s, e) && (answered || Unanswered(s))
    ensures Noted(s, digest, e, answered) || Unanswered(Next(s, digest, e))
  {
    if !Noted(s, digest, e, answered) {
      if answered {
        EntersAfresh(s, digest, e);
      } else {
        UnansweredStep(s, digest, e);
      }
    }
  }

  lemma {:induction false} UnansweredRun(s: System, digest: Digest, es: seq<Event>, t: System, answered: bool)
    requires Inv(s, digest) && Runs(s, digest, es, t) && AllClear(es) && (answered || Unanswered(s))
    ensures Answered(s, digest, es, answered) || Unanswered(t)
    decreases |es|
  {
    if es != [] {
      NotedStep(s, digest, es[0], answered);
      StepKeepsInv(s, digest, es[0]);
      UnansweredRun(Next(s, digest, es[0]), digest, es[1..], t, Noted(s, digest, es[0], answered));
    }
  }

  /** In every run, whatever crashes or fails: the log shows the commit of an upgrade only if its services answered. */
  lemma CommitNeedsAnswer(s: System, digest: Digest, es: seq<Event>, t: System)
    requires Initial(s) && Runs(s, digest, es, t) && AllClear(es)
    requires CommittedIn(t.files, t.plan.log, t.plan.id) && !CommittedIn(t.pre, t.plan.log, t.plan.id)
    ensures Answered(s, digest, es, false)
  {
    UnansweredRun(s, digest, es, t, false);
  }

  /** The process is at work on the upgrade it entered, not on one it found. */
  predicate IsOwn(p: Proc) {
    p.Idle? || IsEarly(p) || IsLate(p) || (IsBack(p) && p.after.None?)
  }

  lemma OwnLook(s: System, digest: Digest, good: bool)
    requires IsOwn(s.proc) && Enabled(s, Look(good))
    ensures var t := Next(s, digest, Look(good)); IsOwn(t.proc) && t.plan == s.plan && t.pre == s.pre
  {
  }

  lemma OwnOp(s: System, digest: Digest, f: Fault)
    requires IsOwn(s.proc) && Enabled(s, Op(f))
    ensures var t := Next(s, digest, Op(f)); IsOwn(t.proc) && t.plan == s.plan && t.pre == s.pre
  {
  }

  lemma OwnStep(s: System, digest: Digest, e: Event, host: Host)
    requires IsOwn(s.proc) && Enabled(s, e) && Suits(host, s.proc, e)
    ensures var t := Next(s, digest, e); IsOwn(t.proc) && t.plan == s.plan && t.pre == s.pre
  {
    match e {
      case Look(good) => OwnLook(s, digest, good);
      case Op(f) => OwnOp(s, digest, f);
      case Torn(_) =>
    }
  }

  lemma OwnIsNotNoted(s: System, digest: Digest, e: Event, host: Host)
    requires IsOwn(s.proc) && Enabled(s, e) && Suits(host, s.proc, e) && !host.healthy
    ensures !Noted(s, digest, e, false)
  {
  }

  /** On a host whose services do not answer after the switch, the upgrade is never committed, whether the disk works or not. */
  lemma {:induction false} UnhealthyNeverCommits(s: System, digest: Digest, es: seq<Event>, t: System, host: Host)
    requires Inv(s, digest) && Unanswered(s) && IsOwn(s.proc) && !host.healthy && HostRun(s, digest, es, t, host, false)
    ensures Unanswered(t) && t.plan == s.plan && t.pre == s.pre
    decreases |es|
  {
    if es != [] {
      OwnStep(s, digest, es[0], host);
      OwnIsNotNoted(s, digest, es[0], host);
      NotedStep(s, digest, es[0], false);
      StepKeepsInv(s, digest, es[0]);
      UnhealthyNeverCommits(Next(s, digest, es[0]), digest, es[1..], t, host);
    }
  }

  lemma StagingIsUnanswered(s: System, digest: Digest)
    requires Inv(s, digest) && s.proc.Staging?
    ensures Unanswered(s)
  {
    LogKept(s.files, s.pre, s.plan);
  }
}
