/** The in-memory authenticator: one traffic counter per user hash. */
module MemoryAuthenticator {
  import opened TrafficValues
  import opened SenderProtocol

  class Authenticator {
    var users: map<string, Counter>

    constructor ()
      ensures users == map[]
    {
      users := map[];
    }

    method AddUser(hash: string) returns (ok: bool)
      modifies this
      ensures ok == (hash !in old(users))
      ensures users == if ok then old(users)[hash := Counter(0, 0)] else old(users)
    {
      if hash in users {
        return false;
      }
      users := users[hash := Counter(0, 0)];
      return true;
    }

    /** Closing the user clears its counter, then it is forgotten. */
    method DelUser(hash: string) returns (ok: bool)
      modifies this
      ensures ok == (hash in old(users))
      ensures users == old(users) - {hash}
    {
      if hash !in users {
        return false;
      }
      users := users - {hash};
      return true;
    }

    method AddTraffic(hash: string, sent: nat, recv: nat)
      requires hash in users
      modifies this
      ensures users == old(users)[hash := Counter((old(users)[hash].sent + sent) % (UINT64_MAX + 1),
                                                  (old(users)[hash].recv + recv) % (UINT64_MAX + 1))]
    {
      users := users[hash := Counter((users[hash].sent + sent) % (UINT64_MAX + 1), (users[hash].recv + recv) % (UINT64_MAX + 1))];
    }

    method ClearTraffic(hash: string)
      requires hash in users
      modifies this
      ensures users == old(users)[hash := Counter(0, 0)]
    {
      users := users[hash := Counter(0, 0)];
    }
  }
}
