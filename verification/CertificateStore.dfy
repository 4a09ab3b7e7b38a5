/**
 The certificate store as a step system: versions in directories of their own,
 one `current` link that is swapped by a single rename, and two stable links
 into it. Every step is one file operation; the process may die between any two.
 */
module CertificateStore {
  import opened Basics

  /** A version directory while it is filled or removed: either file may be missing. */
  datatype Version = Version(cert: Option<string>, key: Option<string>)

  datatype Link = Missing | IntoCurrent | Elsewhere

  /** Links are relative to their own directories: only a key path beside the certificate's leads into this store. */
  datatype Store = Store(versions: map<string, Version>, current: Option<string>, certLink: Link, keyLink: Link, together: bool)

  datatype Fault = NoFault | Before | After

  datatype Renewal = Renewal(v: string, cert: string, key: string)

  /** What the renewal is about to do. */
  datatype Proc =
    | Idle
    | Creating(r: Renewal)
    | WritingCert(r: Renewal)
    | WritingKey(r: Renewal)
    | Syncing(r: Renewal)
    | Swapping(r: Renewal)
    | Cleaning(r: Renewal, swapped: bool)    // an error was reported: remove the version again
    | LinkingCert(r: Renewal)
    | LinkingKey(r: Renewal)
    | Pruning(r: Renewal)

  datatype System = System(store: Store, proc: Proc)

  datatype Event =
    | Begin(r: Renewal)
    | Op(fault: Fault)
    | Torn(content: string)                          // a write that got stuck half way
    | Remove(v: string, cert: bool, key: bool, dir: bool)  // what a removal managed to remove
    | Done                                           // the removal or the pruning is over
    | Crash

  type Pairs = (string, string) -> bool   // does this key belong to this certificate?

  /** The pair reached through the two stable paths; both come from the directory `current` names. */
  function Live(s: Store): Option<(string, string)> {
    if s.together && s.certLink == IntoCurrent && s.keyLink == IntoCurrent && s.current.Some? && s.current.value in s.versions
       && s.versions[s.current.value].cert.Some? && s.versions[s.current.value].key.Some?
    then Some((s.versions[s.current.value].cert.value, s.versions[s.current.value].key.value))
    else None
  }

  /** The live pair exists and belongs together. */
  predicate Serves(s: Store, pairs: Pairs) {
    Live(s).Some? && pairs(Live(s).value.0, Live(s).value.1)
  }

  predicate Enabled(s: System, pairs: Pairs, e: Event) {
    match e
    case Begin(r) => s.proc.Idle? && pairs(r.cert, r.key) && r.v !in s.store.versions && s.store.current != Some(r.v)
    case Op(_) => !s.proc.Idle? && !s.proc.Cleaning? && !s.proc.Pruning?
    case Torn(_) => s.proc.WritingCert? || s.proc.WritingKey?
    case Remove(v, _, _, _) =>
      v in s.store.versions && ((s.proc.Cleaning? && v == s.proc.r.v) || (s.proc.Pruning? && v != s.proc.r.v))
    case Done => s.proc.Cleaning? || s.proc.Pruning?
    case Crash => !s.proc.Idle?
  }

  function Put(s: System, v: string, version: Version, proc: Proc): System {
    System(s.store.(versions := s.store.versions[v := version]), proc)
  }

  /** A directory goes only when it is empty. */
  function Removed(s: Store, v: string, cert: bool, key: bool, dir: bool): Store
    requires v in s.versions
  {
    var left := Version(if cert then None else s.versions[v].cert, if key then None else s.versions[v].key);
    if dir && left == Version(None, None) then s.(versions := s.versions - {v}) else s.(versions := s.versions[v := left])
  }

  function OnOp(s: System, f: Fault): System
    requires s.proc != Idle && !s.proc.Cleaning? && !s.proc.Pruning?
  {
    match s.proc
    case Creating(r) => if f == Before then s.(proc := Idle) else Put(s, r.v, Version(None, None), WritingCert(r))
    case WritingCert(r) => if f == NoFault then Put(s, r.v, Version(Some(r.cert), None), WritingKey(r)) else s.(proc := Cleaning(r, false))
    case WritingKey(r) =>
      if f == NoFault then Put(s, r.v, Version(Some(r.cert), Some(r.key)), Syncing(r)) else s.(proc := Cleaning(r, false))
    case Syncing(r) => s.(proc := if f == NoFault then Swapping(r) else Cleaning(r, false))
    case Swapping(r) =>
      if f == Before then s.(proc := Cleaning(r, false))
      else System(s.store.(current := Some(r.v)), if f == NoFault then LinkingCert(r) else Cleaning(r, true))
    case LinkingCert(r) =>
      if s.store.certLink == IntoCurrent then s.(proc := LinkingKey(r))
      else System(if f == Before then s.store else s.store.(certLink := IntoCurrent), if f == NoFault then LinkingKey(r) else Idle)
    case LinkingKey(r) =>
      if s.store.keyLink == IntoCurrent then s.(proc := Pruning(r))
      else System(if f == Before then s.store else s.store.(keyLink := IntoCurrent), if f == NoFault then Pruning(r) else Idle)
  }

  function Next(s: System, pairs: Pairs, e: Event): System
    requires Enabled(s, pairs, e)
  {
    match e
    case Begin(r) => s.(proc := Creating(r))
    case Op(f) => OnOp(s, f)
    case Torn(content) =>
      var left := if s.proc.WritingCert? then Version(Some(content), None) else Version(Some(s.proc.r.cert), Some(content));
      Put(s, s.proc.r.v, left, Cleaning(s.proc.r, false))
    case Remove(v, cert, key, dir) => s.(store := Removed(s.store, v, cert, key, dir))
    case Done => s.(proc := Idle)
    case Crash => s.(proc := Idle)
  }

  predicate Runs(s: System, pairs: Pairs, es: seq<Event>, t: System)
    decreases |es|
  {
    if es == [] then s == t else Enabled(s, pairs, es[0]) && Runs(Next(s, pairs, es[0]), pairs, es[1..], t)
  }

  // ----- The order of a renewal -----

  /** The last events are the beginning of this renewal, the creation of its directory, and n operations without an error. */
  predicate Created(es: seq<Event>, r: Renewal, n: nat) {
    && |es| >= n + 2 && es[|es| - n - 2] == Begin(r)
    && es[|es| - n - 1].Op? && es[|es| - n - 1].fault != Before
    && forall k :: |es| - n <= k < |es| ==> es[k] == Op(NoFault)
  }

  /** What the process has just done. */
  predicate Trail(p: Proc, es: seq<Event>) {
    match p
    case Creating(r) => es != [] && es[|es| - 1] == Begin(r)
    case WritingCert(r) => Created(es, r, 0)
    case WritingKey(r) => Created(es, r, 1)
    case Syncing(r) => Created(es, r, 2)
    case Swapping(r) => Created(es, r, 3)
    case _ => true
  }

  lemma TrailGoesOn(es: seq<Event>, r: Renewal, n: nat)
    requires Created(es, r, n)
    ensures Created(es + [Op(NoFault)], r, n + 1)
  {
  }

  lemma TrailStep(s: System, pairs: Pairs, past: seq<Event>, e: Event)
    requires Trail(s.proc, past) && Enabled(s, pairs, e)
    ensures Trail(Next(s, pairs, e).proc, past + [e])
  {
    if s.proc.WritingCert? {
      TrailGoesOn(past, s.proc.r, 0);
    } else if s.proc.WritingKey? {
      TrailGoesOn(past, s.proc.r, 1);
    } else if s.proc.Syncing? {
      TrailGoesOn(past, s.proc.r, 2);
    }
  }

  lemma {:induction false} TrailInRun(s: System, pairs: Pairs, past: seq<Event>, es: seq<Event>, t: System)
    requires Trail(s.proc, past) && Runs(s, pairs, es, t)
    ensures Trail(t.proc, past + es)
    decreases |es|
  {
    if es == [] {
      assert past + es == past;
    } else {
      TrailStep(s, pairs, past, es[0]);
      TrailInRun(Next(s, pairs, es[0]), pairs, past + [es[0]], es[1..], t);
      assert past + [es[0]] + es[1..] == past + es;
    }
  }

  /**
   In every run, a version becomes current only right after its own renewal has
   made its directory, written its certificate and its key and synced them, in
   this order and each without an error.
   */
  lemma CurrentComesLast(s: System, pairs: Pairs, es: seq<Event>, t: System, e: Event)
    requires s.proc.Idle? && Runs(s, pairs, es, t) && Enabled(t, pairs, e) && Next(t, pairs, e).store.current != t.store.current
    ensures t.proc.Swapping? && Created(es, t.proc.r, 3)
    ensures Next(t, pairs, e).store.current == Some(t.proc.r.v)
  {
    TrailInRun(s, pairs, [], es, t);
    assert [] + es == es;
  }

  // ----- What is served, over whole runs -----

  predicate Complete(s: Store, r: Renewal, pairs: Pairs) {
    r.v in s.versions && s.versions[r.v] == Version(Some(r.cert), Some(r.key)) && pairs(r.cert, r.key)
  }

  predicate Inv(s: System, pairs: Pairs) {
    match s.proc
    case Idle => true
    case Creating(r) => s.store.current != Some(r.v) && pairs(r.cert, r.key)
    case WritingCert(r) => s.store.current != Some(r.v) && pairs(r.cert, r.key)
    case WritingKey(r) => s.store.current != Some(r.v) && pairs(r.cert, r.key)
    case Syncing(r) => s.store.current != Some(r.v) && Complete(s.store, r, pairs)
    case Swapping(r) => s.store.current != Some(r.v) && Complete(s.store, r, pairs)
    case Cleaning(r, swapped) => s.store.current == Some(r.v) <==> swapped
    case LinkingCert(r) => s.store.current == Some(r.v) && Complete(s.store, r, pairs)
    case LinkingKey(r) => s.store.current == Some(r.v) && Complete(s.store, r, pairs)
    case Pruning(r) => s.store.current == Some(r.v) && Complete(s.store, r, pairs)
  }

  lemma StepKeepsInv(s: System, pairs: Pairs, e: Event)
    requires Inv(s, pairs) && Enabled(s, pairs, e)
    ensures Inv(Next(s, pairs, e), pairs)
  {
  }

  /** The cleanup removes a file of the version it has itself just made current. */
  predicate RemovesLive(s: System, e: Event) {
    s.proc.Cleaning? && s.proc.swapped && e.Remove? && (e.cert || e.key)
  }

  /** A step goes on serving a matching pair exactly when it is not such a removal. */
  lemma StepServesIff(s: System, pairs: Pairs, e: Event)
    requires Inv(s, pairs) && Enabled(s, pairs, e) && Serves(s.store, pairs)
    ensures Serves(Next(s, pairs, e).store, pairs) <==> !RemovesLive(s, e)
  {
  }

  /** Every state of the run serves a matching pair. */
  predicate ServesThroughout(s: System, pairs: Pairs, es: seq<Event>)
    decreases |es|
  {
    Serves(s.store, pairs) && (es != [] && Enabled(s, pairs, es[0]) ==> ServesThroughout(Next(s, pairs, es[0]), pairs, es[1..]))
  }

  /** Somewhere in the run a live file is removed. */
  predicate RemovesLiveIn(s: System, pairs: Pairs, es: seq<Event>)
    decreases |es|
  {
    es != [] && Enabled(s, pairs, es[0]) && (RemovesLive(s, es[0]) || RemovesLiveIn(Next(s, pairs, es[0]), pairs, es[1..]))
  }

  /**
   Over any number of renewals, each failing or dying anywhere: a matching pair
   is served at every point if and only if no renewal whose swap took effect but
   was reported as failed goes on to remove a file of its version.
   */
  lemma {:induction false} ServesThroughoutIff(s: System, pairs: Pairs, es: seq<Event>, t: System)
    requires Inv(s, pairs) && Runs(s, pairs, es, t) && Serves(s.store, pairs)
    ensures ServesThroughout(s, pairs, es) <==> !RemovesLiveIn(s, pairs, es)
    decreases |es|
  {
    if es != [] {
      StepKeepsInv(s, pairs, es[0]);
      StepServesIff(s, pairs, es[0]);
      if Serves(Next(s, pairs, es[0]).store, pairs) {
        ServesThroughoutIff(Next(s, pairs, es[0]), pairs, es[1..], t);
      }
    }
  }

  predicate SwapReported(s: System, e: Event) {
    s.proc.Swapping? && e == Op(After)
  }

  predicate SwapReportedIn(s: System, pairs: Pairs, es: seq<Event>)
    decreases |es|
  {
    es != [] && Enabled(s, pairs, es[0]) && (SwapReported(s, es[0]) || SwapReportedIn(Next(s, pairs, es[0]), pairs, es[1..]))
  }

  /** In particular, without such a report nothing can go wrong. */
  lemma {:induction false} OnlyReportedSwapsLose(s: System, pairs: Pairs, es: seq<Event>, t: System)
    requires Inv(s, pairs) && Runs(s, pairs, es, t) && Serves(s.store, pairs) && !SwapReportedIn(s, pairs, es)
    requires s.proc.Cleaning? ==> !s.proc.swapped
    ensures ServesThroughout(s, pairs, es)
    decreases |es|
  {
    if es != [] {
      StepKeepsInv(s, pairs, es[0]);
      StepServesIff(s, pairs, es[0]);
      OnlyReportedSwapsLose(Next(s, pairs, es[0]), pairs, es[1..], t);
    }
  }

  lemma {:induction false} RunsConcat(s: System, pairs: Pairs, es: seq<Event>, m: System, fs: seq<Event>, t: System)
    requires Runs(s, pairs, es, m) && Runs(m, pairs, fs, t)
    ensures Runs(s, pairs, es + fs, t)
    decreases |es|
  {
    if es == [] {
      assert es + fs == fs;
    } else {
      RunsConcat(Next(s, pairs, es[0]), pairs, es[1..], m, fs, t);
      assert (es + fs)[1..] == es[1..] + fs;
    }
  }

  lemma RunsExtend(s: System, pairs: Pairs, es: seq<Event>, m: System, e: Event)
    requires Runs(s, pairs, es, m) && Enabled(m, pairs, e)
    ensures Runs(s, pairs, es + [e], Next(m, pairs, e))
  {
    assert Runs(Next(m, pairs, e), pairs, [e][1..], Next(m, pairs, e));
    RunsConcat(s, pairs, es, m, [e], Next(m, pairs, e));
  }

  // ----- The code -----

  /** Two sets of versions differ in v at most. */
  predicate OnlyIn(a: map<string, Version>, b: map<string, Version>, v: string) {
    a - {v} == b - {v}
  }

  lemma OnlyInTwice(a: map<string, Version>, b: map<string, Version>, c: map<string, Version>, v: string)
    requires OnlyIn(a, b, v) && OnlyIn(b, c, v)
    ensures OnlyIn(a, c, v) && (v !in a && v !in c ==> a == c)
  {
    if v !in a && v !in c {
      assert a - {v} == a && c - {v} == c;
    }
  }

  class Directory {
    const reliable: bool    // whether every file operation works
    const pairs: Pairs
    var store: Store
    ghost var proc: Proc

    ghost function Abs(): System
      reads this
    {
      System(store, proc)
    }

    constructor (store: Store, pairs: Pairs, reliable: bool)
      ensures this.pairs == pairs && this.reliable == reliable && Abs() == System(store, Idle)
    {
      this.store, this.pairs, this.reliable, proc := store, pairs, reliable, Idle;
    }

    /** How an operation is going to end. */
    method Environment() returns (fault: Fault)
      ensures reliable ==> fault == NoFault
    {
      fault := *;
      if reliable {
        fault := NoFault;
      }
    }

    /** Deletes a version directory as far as that works; errors are ignored. */
    method RemoveAll(v: string, works: bool) returns (ghost es: seq<Event>)
      requires (proc.Cleaning? && v == proc.r.v) || (proc.Pruning? && v != proc.r.v)
      modifies this`store
      ensures Runs(old(Abs()), pairs, es, Abs())
      ensures forall u :: u != v ==> (u in store.versions <==> u in old(store).versions)
                                     && (u in store.versions ==> store.versions[u] == old(store).versions[u])
      ensures store == old(store).(versions := store.versions)
      ensures works ==> v !in store.versions
    {
      es := [];
      ghost var s := Abs();
      if v !in store.versions {
        return;
      }
      var cert, key, dir: bool := *, *, *;
      if works {
        cert, key, dir := true, true, true;
      }
      store := Removed(store, v, cert, key, dir);
      RunsExtend(s, pairs, [], s, Remove(v, cert, key, dir));
      es := [] + [Remove(v, cert, key, dir)];
    }

    /** Writes one of the two files; cut short, it may hold anything. */
    method WriteFile(r: Renewal, isKey: bool) returns (ok: bool, ghost e: Event)
      requires proc == if isKey then WritingKey(r) else WritingCert(r)
      requires r.v in store.versions && store.versions[r.v] == Version(if isKey then Some(r.cert) else None, None)
      modifies this
      ensures Enabled(old(Abs()), pairs, e) && Abs() == Next(old(Abs()), pairs, e)
      ensures proc == if !ok then Cleaning(r, false) else if isKey then Syncing(r) else WritingKey(r)
      ensures ok ==> r.v in store.versions && store.versions[r.v] == Version(Some(r.cert), if isKey then Some(r.key) else None)
      ensures store == old(store).(versions := store.versions) && (store.current != Some(r.v) ==> Live(store) == Live(old(store)))
      ensures (reliable ==> ok) && OnlyIn(old(store).versions, store.versions, r.v)
    {
      ghost var m := Abs();
      var fault := Environment();
      if fault == Before {
        e, proc := Op(Before), Cleaning(r, false);
        return false, e;
      }
      ok := fault == NoFault;
      var partial: string := *;
      var data := if !ok then partial else if isKey then r.key else r.cert;
      var version := store.versions[r.v];
      store := store.(versions := store.versions[r.v := if isKey then version.(key := Some(data)) else version.(cert := Some(data))]);
      e := if ok then Op(NoFault) else Torn(partial);
      proc := Next(m, pairs, e).proc;
    }

    /** Fills a new version directory; nothing refers to it yet. */
    method WriteVersion(r: Renewal) returns (ok: bool, created: bool, ghost es: seq<Event>)
      requires proc == Creating(r)
      modifies this
      ensures Runs(old(Abs()), pairs, es, Abs())
      ensures proc == if ok then Swapping(r) else if created then Cleaning(r, false) else Idle
      ensures store == old(store).(versions := store.versions) && (store.current != Some(r.v) ==> Live(store) == Live(old(store)))
      ensures (reliable ==> ok) && OnlyIn(old(store).versions, store.versions, r.v) && (!created ==> store == old(store))
    {
      ghost var s := Abs();
      created := false;
      var fault := Environment();
      RunsExtend(s, pairs, [], s, Op(fault));
      es := [] + [Op(fault)];
      if fault == Before {
        proc := Idle;
        return false, false, es;
      }
      created := true;
      store := store.(versions := store.versions[r.v := Version(None, None)]);
      proc := WritingCert(r);
      ghost var e, m := Crash, Abs();
      ok, e := WriteFile(r, false);
      RunsExtend(s, pairs, es, m, e);
      es := es + [e];
      if !ok {
        return;
      }
      m := Abs();
      ok, e := WriteFile(r, true);
      RunsExtend(s, pairs, es, m, e);
      es := es + [e];
      if !ok {
        return;
      }
      fault := Environment();
      ok, e := fault == NoFault, Op(fault);
      RunsExtend(s, pairs, es, Abs(), e);
      es := es + [e];
      proc := if ok then Swapping(r) else Cleaning(r, false);
    }

    /** Points one stable path into current/, unless it does already. */
    method EnsureLink(r: Renewal, isKey: bool) returns (ok: bool, ghost e: Event)
      requires proc == if isKey then LinkingKey(r) else LinkingCert(r)
      modifies this
      ensures Enabled(old(Abs()), pairs, e) && Abs() == Next(old(Abs()), pairs, e)
      ensures proc == if !ok then Idle else if isKey then Pruning(r) else LinkingKey(r)
      ensures ok ==> (if isKey then store.keyLink else store.certLink) == IntoCurrent
      ensures old(if isKey then store.keyLink else store.certLink) == IntoCurrent ==> ok && store == old(store)
      ensures reliable ==> ok
    {
      ghost var m := Abs();
      var fault := Environment();
      e := Op(fault);
      if isKey {
        ok := store.keyLink == IntoCurrent || fault == NoFault;
        if fault != Before {
          store := store.(keyLink := IntoCurrent);
        }
      } else {
        ok := store.certLink == IntoCurrent || fault == NoFault;
        if fault != Before {
          store := store.(certLink := IntoCurrent);
        }
      }
      proc := Next(m, pairs, e).proc;
    }

    /** Removes superseded versions, as far as that works; the one in use stays. */
    method Prune(r: Renewal, works: bool) returns (ghost es: seq<Event>)
      requires proc == Pruning(r)
      modifies this
      ensures Runs(old(Abs()), pairs, es, Abs()) && proc == Idle
      ensures r.v in old(store).versions ==> r.v in store.versions && store.versions[r.v] == old(store).versions[r.v]
      ensures store == old(store).(versions := store.versions)
      ensures works && r.v in old(store).versions ==> store.versions.Keys == {r.v}
    {
      es := [];
      ghost var s := Abs();
      var stale := store.versions.Keys - {r.v};
      while stale != {}
        invariant r.v !in stale && proc == Pruning(r) && Runs(s, pairs, es, Abs())
        invariant r.v in old(store).versions ==> r.v in store.versions && store.versions[r.v] == old(store).versions[r.v]
        invariant store == old(store).(versions := store.versions)
        invariant works ==> store.versions.Keys <= stale + {r.v}
        decreases stale
      {
        var v :| v in stale;
        ghost var m := Abs();
        ghost var more := RemoveAll(v, works);
        RunsConcat(s, pairs, es, m, more, Abs());
        es := es + more;
        stale := stale - {v};
      }
      RunsExtend(s, pairs, es, Abs(), Done);
      es := es + [Done];
      proc := Idle;
    }

    /** Cleans up after an error. */
    method CleanUp(r: Renewal, works: bool) returns (ghost es: seq<Event>)
      requires proc.Cleaning? && proc.r == r
      modifies this
      ensures Runs(old(Abs()), pairs, es, Abs()) && proc == Idle
      ensures store.current != Some(r.v) ==> Live(store) == Live(old(store))
      ensures store == old(store).(versions := store.versions) && OnlyIn(old(store).versions, store.versions, r.v)
      ensures works ==> r.v !in store.versions
    {
      ghost var s := Abs();
      es := RemoveAll(r.v, works);
      RunsExtend(s, pairs, es, Abs(), Done);
      es := es + [Done];
      proc := Idle;
    }

    /** Both links, then pruning, behind a swap that worked. */
    method Finish(r: Renewal, pruneWorks: bool) returns (ok: bool, ghost es: seq<Event>)
      requires proc == LinkingCert(r) && Complete(store, r, pairs) && store.current == Some(r.v)
      modifies this
      ensures Runs(old(Abs()), pairs, es, Abs()) && proc == Idle
      ensures ok ==> Live(store) == (if store.together then Some((r.cert, r.key)) else None) && store.together == old(store).together
      ensures ok && pruneWorks ==> store.versions.Keys == {r.v}
      ensures reliable ==> ok
    {
      ghost var s := Abs();
      ghost var e;
      ok, e := EnsureLink(r, false);
      RunsExtend(s, pairs, [], s, e);
      es := [] + [e];
      if !ok {
        return;
      }
      ghost var m := Abs();
      ok, e := EnsureLink(r, true);
      RunsExtend(s, pairs, es, m, e);
      es := es + [e];
      if !ok {
        return;
      }
      m := Abs();
      ghost var more := Prune(r, pruneWorks);
      RunsConcat(s, pairs, es, m, more, Abs());
      es := es + more;
    }

    /**
     One renewal: a run of the system, which on success leaves the new pair live
     exactly when both stable paths share a directory. When the file operations
     work it succeeds for every pair that matches; and when it fails before the
     swap and its cleanup works, nothing has changed.
     */
    method WriteCertificateFiles(r: Renewal, pruneWorks: bool, cleanupWorks: bool) returns (ok: bool, swapped: bool, ghost es: seq<Event>)
      requires proc == Idle && r.v !in store.versions && store.current != Some(r.v)
      modifies this
      ensures Runs(old(Abs()), pairs, es, Abs()) && proc == Idle
      ensures ok ==> Live(store) == (if old(store).together then Some((r.cert, r.key)) else None)
      ensures ok ==> pairs(r.cert, r.key) && (pruneWorks ==> store.versions.Keys == {r.v})
      ensures !pairs(r.cert, r.key) ==> !ok && !swapped && store == old(store)
      ensures !swapped ==> !ok && Live(store) == Live(old(store))
      ensures reliable ==> ok == pairs(r.cert, r.key)
      ensures !swapped && cleanupWorks ==> store == old(store)
    {
      ghost var s := Abs();
      swapped := false;
      if !pairs(r.cert, r.key) {
        return false, false, [];
      }
      proc := Creating(r);
      RunsExtend(s, pairs, [], s, Begin(r));
      es := [] + [Begin(r)];
      ghost var m, more := Abs(), [];
      var created;
      ok, created, more := WriteVersion(r);
      RunsConcat(s, pairs, es, m, more, Abs());
      es := es + more;
      if !ok {
        if created {
          m := Abs();
          more := CleanUp(r, cleanupWorks);
          RunsConcat(s, pairs, es, m, more, Abs());
          es := es + more;
          OnlyInTwice(s.store.versions, m.store.versions, store.versions, r.v);
        }
        return;
      }
      RunKeepsInv(s, pairs, es, Abs());
      m := Abs();
      var fault := Environment();
      RunsExtend(s, pairs, es, m, Op(fault));
      es := es + [Op(fault)];
      if fault != Before {
        store := store.(current := Some(r.v));
        swapped := true;
      }
      proc := Next(m, pairs, Op(fault)).proc;
      if fault != NoFault {
        m := Abs();
        more := CleanUp(r, cleanupWorks);
        RunsConcat(s, pairs, es, m, more, Abs());
        es := es + more;
        OnlyInTwice(s.store.versions, m.store.versions, store.versions, r.v);
        return false, swapped, es;
      }
      m := Abs();
      ok, more := Finish(r, pruneWorks);
      RunsConcat(s, pairs, es, m, more, Abs());
      es := es + more;
    }
  }

  lemma {:induction false} RunKeepsInv(s: System, pairs: Pairs, es: seq<Event>, t: System)
    requires Inv(s, pairs) && Runs(s, pairs, es, t)
    ensures Inv(t, pairs)
    decreases |es|
  {
    if es != [] {
      StepKeepsInv(s, pairs, es[0]);
      RunKeepsInv(Next(s, pairs, es[0]), pairs, es[1..], t);
    }
  }
}
