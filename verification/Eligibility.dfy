/** Which users may connect: the master's list for workers, the data-plane refresh, and Hysteria login. */
module Eligibility {
  import opened Basics
  import opened SenderProtocol
  import opened MemoryAuthenticator
  import opened NodeSync

  /** An expiry time of zero, like none at all, means never. */
  datatype User = User(hash: string, quota: int, used: int, expiry: Option<int>, status: int) {
    predicate Expired(now: int) {
      expiry.Some? && expiry.value != 0 && expiry.value < now
    }

    predicate Exhausted() {
      quota > 0 && used >= quota
    }

    predicate Eligible(now: int) {
      status == 0 && hash != "" && !Expired(now) && !Exhausted()
    }
  }

  /** An active user is let in up to the last byte of the quota and through the second of the expiry, and without either for ever. */
  lemma LetInUntil(u: User, now: int)
    requires u.status == 0 && u.hash != ""
    ensures u.quota > 0 && u.expiry.None? ==> u.(used := u.quota - 1).Eligible(now) && !u.(used := u.quota).Eligible(now)
    ensures u.quota <= 0 && (u.expiry.None? || u.expiry == Some(0)) ==> u.Eligible(now)
    ensures u.quota <= 0 && u.expiry.Some? && u.expiry.value != 0 ==>
              u.Eligible(u.expiry.value) && !u.Eligible(u.expiry.value + 1) && (!u.Eligible(now) ==> !u.Eligible(now + 1))
    ensures !u.(status := 1).Eligible(now) && !u.(hash := "").Eligible(now)
  {
  }

  /** The users table has a unique index on the hash. */
  predicate Unique(rows: seq<User>) {
    forall i, j :: 0 <= i < j < |rows| ==> rows[i].hash != rows[j].hash
  }

  function EligibleHashes(rows: seq<User>, now: int): set<string> {
    set u | u in rows && u.Eligible(now) :: u.hash
  }

  lemma EligibleHashesGrow(rows: seq<User>, i: nat, now: int)
    requires i < |rows|
    ensures EligibleHashes(rows[..i + 1], now) == EligibleHashes(rows[..i], now) + if rows[i].Eligible(now) then {rows[i].hash} else {}
  {
  }

  /** The list of valid hashes the master answers a worker with. */
  method ValidHashes(rows: seq<User>, now: int) returns (hashes: seq<string>)
    ensures (set h | h in hashes) == EligibleHashes(rows, now)
    ensures Unique(rows) ==> forall j, k :: 0 <= j < k < |hashes| ==> hashes[j] != hashes[k]
  {
    hashes := [];
    for i := 0 to |rows|
      invariant (set h | h in hashes) == EligibleHashes(rows[..i], now)
      invariant Unique(rows) ==> forall j, k :: 0 <= j < k < |hashes| ==> hashes[j] != hashes[k]
    {
      EligibleHashesGrow(rows, i, now);
      var u := rows[i];
      if u.status != 0 {
        continue;
      }
      if u.expiry.Some? && u.expiry.value != 0 && u.expiry.value < now {
        continue;
      }
      if u.quota > 0 && u.used >= u.quota {
        continue;
      }
      if u.hash != "" {
        assert Unique(rows) ==> u.hash !in (set h | h in hashes);
        hashes := hashes + [u.hash];
      }
    }
    assert rows[..|rows|] == rows;
  }

  /** Hysteria login, with the hash of the password given. */
  method HysteriaAuth(rows: seq<User>, hash: string, now: int) returns (ok: bool)
    requires hash != "" && Unique(rows)
    ensures ok <==> hash in EligibleHashes(rows, now)
  {
    var i := 0;
    while i < |rows| && rows[i].hash != hash
      invariant 0 <= i <= |rows| && forall k :: 0 <= k < i ==> rows[k].hash != hash
    {
      i := i + 1;
    }
    if i == |rows| {
      return false;
    }
    var user := rows[i];
    assert forall u :: u in rows && u.hash == hash ==> u == user by {
      forall u | u in rows && u.hash == hash ensures u == user {
        var j :| 0 <= j < |rows| && rows[j] == u;
        assert j == i;
      }
    }
    if user.status != 0 {
      return false;
    }
    if user.expiry.Some? && user.expiry.value != 0 && user.expiry.value < now {
      return false;
    }
    if user.quota > 0 && user.used >= user.quota {
      return false;
    }
    assert user in rows && user.Eligible(now);
    return true;
  }

  /** Adds the eligible users that are not known yet. */
  method AddEligible(rows: seq<User>, now: int, auth: Authenticator) returns (ok: bool, valid: set<string>)
    modifies auth
    ensures ok && valid == EligibleHashes(rows, now)
    ensures auth.users.Keys == old(auth.users).Keys + valid
    ensures forall h :: h in auth.users ==> auth.users[h] == if h in old(auth.users) then old(auth.users)[h] else Counter(0, 0)
  {
    valid := {};
    for i := 0 to |rows|
      invariant valid == EligibleHashes(rows[..i], now)
      invariant auth.users.Keys == old(auth.users).Keys + valid
      invariant forall h :: h in auth.users ==> auth.users[h] == if h in old(auth.users) then old(auth.users)[h] else Counter(0, 0)
    {
      EligibleHashesGrow(rows, i, now);
      var user := rows[i];
      if user.status != 0 || user.hash == "" || user.Expired(now) || user.Exhausted() {
        continue;
      }
      valid := valid + {user.hash};
      if user.hash !in auth.users {
        ok := auth.AddUser(user.hash);
        if !ok {
          assert false;
        }
      }
    }
    assert rows[..|rows|] == rows;
    ok := true;
  }

  /** Removes the users that are not in the valid set. */
  method RemoveOthers(auth: Authenticator, valid: set<string>)
    modifies auth
    ensures auth.users == map h | h in old(auth.users) && h in valid :: old(auth.users)[h]
  {
    var rest := auth.users.Keys;
    while rest != {}
      invariant rest <= auth.users.Keys <= old(auth.users).Keys
      invariant forall h :: h in auth.users ==> auth.users[h] == old(auth.users)[h]
      invariant forall h :: h in old(auth.users) && (h in valid || h in rest) ==> h in auth.users
      invariant forall h :: h in auth.users ==> h in valid || h in rest
      decreases rest
    {
      var h :| h in rest;
      rest := rest - {h};
      if h !in valid {
        var ok := auth.DelUser(h);
      }
    }
  }

  /** The refresh: afterwards exactly the eligible users are known, and those known before keep their counters. */
  method SyncAuthenticatorFromDatabase(rows: seq<User>, now: int, auth: Authenticator) returns (ok: bool)
    modifies auth
    ensures ok && auth.users == Reconciled(old(auth.users), EligibleHashes(rows, now))
  {
    var valid;
    ok, valid := AddEligible(rows, now, auth);
    RemoveOthers(auth, valid);
  }

  /** A worker takes the master's list over exactly when every eligible hash is 56 hexadecimal digits. */
  lemma ListIsTakenIff(rows: seq<User>, now: int, hashes: seq<string>)
    requires (set h | h in hashes) == EligibleHashes(rows, now)
    requires forall j, k :: 0 <= j < k < |hashes| ==> hashes[j] != hashes[k]
    ensures ValidAnswer(hashes) <==> forall h :: h in EligibleHashes(rows, now) ==> IsUserHash(h)
  {
  }

  /** What keeps a worker from taking a list over, apart from the list itself. */
  ghost predicate Hindered(m: Manager, syncId: Option<string>, requestId: Option<string>, collected: seq<Event>, exchange: seq<Event>)
    reads m, m.auths, m.outbox
  {
    || m.loadFailed || |m.auths| == 0 || syncId.None? || requestId.None?
    || EndsRefused(collected, m.Abs(), m.outbox.reliable) || EndsRefused(exchange, m.Abs(), m.outbox.reliable)
  }

  /**
   A worker's sync with the master's list as the answer: success leaves every
   authenticator with exactly the eligible users, and it fails only if an
   eligible hash is not one or the worker's own side was hindered.
   */
  method SyncWorker(m: Manager, rows: seq<User>, now: int, syncId: Option<string>, requestId: Option<string>)
    returns (ok: bool, ghost collected: seq<Event>, ghost exchange: seq<Event>)
    requires m.Valid() && (syncId.Some? ==> |syncId.value| == 32) && Unique(rows)
    modifies m, m.auths, m.outbox
    ensures ok ==> forall a :: a in m.auths ==> a.users.Keys == EligibleHashes(rows, now)
    ensures ok ==> forall h :: h in EligibleHashes(rows, now) ==> IsUserHash(h)
    ensures !ok ==> Hindered(m, syncId, requestId, collected, exchange) || exists h :: h in EligibleHashes(rows, now) && !IsUserHash(h)
  {
    var hashes := ValidHashes(rows, now);
    ListIsTakenIff(rows, now, hashes);
    ok, collected, exchange := TakeOver(m, syncId, requestId, hashes);
  }

  method TakeOver(m: Manager, syncId: Option<string>, requestId: Option<string>, hashes: seq<string>)
    returns (ok: bool, ghost collected: seq<Event>, ghost exchange: seq<Event>)
    requires m.Valid() && (syncId.Some? ==> |syncId.value| == 32)
    modifies m, m.auths, m.outbox
    ensures ok ==> ValidAnswer(hashes) && forall a :: a in m.auths ==> a.users.Keys == set h | h in hashes
    ensures !ok ==> !ValidAnswer(hashes) || Hindered(m, syncId, requestId, collected, exchange)
  {
    var sent;
    ghost var updates;
    ok, sent, collected, exchange, updates := m.PerformSync(syncId, requestId, Some(hashes));
  }
}
