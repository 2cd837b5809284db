/** The process-wide user map (`user_storage` in src/Storage.py): one
    dictionary that the helper functions update in place. The pipeline keeps
    the current user id in it under the key "userid". */
module Storage {
  import opened Common

  /** `dict.get`: the value stored under `k`, or `None`. */
  function Lookup(m: map<string, string>, k: string): (r: Option<string>)
    ensures r.Some? <==> k in m
    ensures r.Some? ==> r.value == m[k]
  {
    if k in m then Some(m[k]) else None
  }

  class UserStorage {
    var users: map<string, string>

    constructor()
      ensures users == map[]
    {
      users := map[];
    }

    /** `add_user`: stores `v` under `k`, replacing any previous value. */
    method AddUser(k: string, v: string)
      modifies this
      ensures users == old(users)[k := v]
    {
      users := users[k := v];
    }

    /** `get_user`: reads without changing anything. */
    method GetUser(k: string) returns (r: Option<string>)
      ensures r == Lookup(users, k)
    {
      r := if k in users then Some(users[k]) else None;
    }

    /** `get_all_users`: the live storage itself, not a copy, so later updates
        through either name are seen through both. */
    method GetAllUsers() returns (s: UserStorage)
      ensures s == this
    {
      s := this;
    }

    /** `delete_user`: removes `k` and reports whether it was there. */
    method DeleteUser(k: string) returns (deleted: bool)
      modifies this
      ensures deleted == (k in old(users))
      ensures users == old(users) - {k}
      ensures !deleted ==> users == old(users)
    {
      if k in users {
        users := users - {k};
        deleted := true;
      } else {
        deleted := false;
      }
    }
  }

  /** After `add_user(k, v)`, `get_user(k)` is `v` and every other key reads
      as before. */
  lemma LookupAfterAdd(m: map<string, string>, k: string, v: string, other: string)
    ensures Lookup(m[k := v], k) == Some(v)
    ensures other != k ==> Lookup(m[k := v], other) == Lookup(m, other)
  {
  }

  /** After a delete of `k`, `get_user(k)` is `None` and every other key reads
      as before. */
  lemma LookupAfterDelete(m: map<string, string>, k: string, other: string)
    ensures Lookup(m - {k}, k) == None
    ensures other != k ==> Lookup(m - {k}, other) == Lookup(m, other)
  {
  }

  /** A run of the helpers in the order the pipeline uses them. */
  method StorageScenario(s: UserStorage, uid: string, later: string)
    modifies s
    ensures s.users == old(s.users) - {"userid"}
  {
    s.AddUser("userid", uid);
    var got := s.GetUser("userid");
    assert got == Some(uid);
    s.AddUser("userid", later);
    got := s.GetUser("userid");
    assert got == Some(later);
    var all := s.GetAllUsers();
    assert "userid" in all.users;
    var deleted := s.DeleteUser("userid");
    assert deleted;
    got := s.GetUser("userid");
    assert got == None;
    deleted := s.DeleteUser("userid");
    assert !deleted;
  }
}
