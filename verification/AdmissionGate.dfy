/** websocket/admission.go: the reference-counted gate that several clients share. */
module AdmissionGate {
  import opened Wrappers

  datatype Key<T> = Key(owner: nat, identity: T, user: string)
  // One successful acquisition: what it holds, and whether its release has run.
  datatype Lease<T> = Lease(key: Key<T>, released: bool)
  datatype GateError = ActiveSubscriptionLimit | UniqueUserLimit

  const DEFAULT_MAX_ACTIVE_SUBSCRIPTIONS: nat := 1000
  const DEFAULT_MAX_UNIQUE_USERS: nat := 10

  function Holders<T(==)>(leases: seq<Lease<T>>, key: Key<T>): set<nat> {
    set i: nat | i < |leases| && !leases[i].released && leases[i].key == key
  }

  function LiveKeys<T(==)>(leases: seq<Lease<T>>): set<Key<T>> {
    set i: nat | i < |leases| && !leases[i].released :: leases[i].key
  }

  function KeysOf<T(==)>(keys: set<Key<T>>, user: string): set<Key<T>> {
    set key | key in keys && key.user == user
  }

  function LiveUsers<T(==)>(keys: set<Key<T>>): set<string> {
    set key | key in keys && key.user != "" :: key.user
  }

  // Every key counts its live leases.
  ghost predicate CountsLeases<T>(leases: seq<Lease<T>>, references: map<Key<T>, nat>) {
    && references.Keys == LiveKeys(leases)
    && forall key | key in references :: references[key] == |Holders(leases, key)|
  }

  // Every named user counts its distinct live keys.
  ghost predicate CountsKeys<T>(keys: set<Key<T>>, userReferences: map<string, nat>) {
    && userReferences.Keys == LiveUsers(keys)
    && forall user | user in userReferences :: userReferences[user] == |KeysOf(keys, user)|
  }

  ghost predicate Accounts<T>(leases: seq<Lease<T>>, references: map<Key<T>, nat>, userReferences: map<string, nat>) {
    CountsLeases(leases, references) && CountsKeys(LiveKeys(leases), userReferences)
  }

  function Bump<K>(counts: map<K, nat>, k: K): map<K, nat> {
    counts[k := (if k in counts then counts[k] else 0) + 1]
  }

  function Drop<K>(counts: map<K, nat>, k: K): map<K, nat> {
    if k in counts && counts[k] > 1 then counts[k := counts[k] - 1] else counts - {k}
  }

  lemma KeyIsLive<T>(leases: seq<Lease<T>>, key: Key<T>)
    ensures key in LiveKeys(leases) <==> Holders(leases, key) != {}
  {
    if key in LiveKeys(leases) {
      var i: nat :| i < |leases| && !leases[i].released && leases[i].key == key;
      assert i in Holders(leases, key);
    }
    if i :| i in Holders(leases, key) {
      assert leases[i].key in LiveKeys(leases);
    }
  }

  lemma UserIsLive<T>(keys: set<Key<T>>, user: string)
    ensures user in LiveUsers(keys) <==> user != "" && KeysOf(keys, user) != {}
  {
    if user in LiveUsers(keys) {
      var key :| key in keys && key.user != "" && key.user == user;
      assert key in KeysOf(keys, user);
    }
    if user != "" && KeysOf(keys, user) != {} {
      var key :| key in KeysOf(keys, user);
      assert key.user in LiveUsers(keys);
    }
  }

  lemma AcquireCountsLeases<T>(leases: seq<Lease<T>>, references: map<Key<T>, nat>, key: Key<T>)
    requires CountsLeases(leases, references)
    ensures CountsLeases(leases + [Lease(key, false)], Bump(references, key))
    ensures LiveKeys(leases + [Lease(key, false)]) == LiveKeys(leases) + {key}
  {
    var after := leases + [Lease(key, false)];
    assert after[|leases|] == Lease(key, false);
    assert forall i: nat | i < |leases| :: after[i] == leases[i];
    assert LiveKeys(after) == LiveKeys(leases) + {key};
    assert Holders(after, key) == Holders(leases, key) + {|leases|};
    assert forall other | other != key :: Holders(after, other) == Holders(leases, other);
    KeyIsLive(leases, key);
  }

  lemma ReleaseCountsLeases<T>(leases: seq<Lease<T>>, references: map<Key<T>, nat>, token: nat)
    requires CountsLeases(leases, references) && token < |leases| && !leases[token].released
    ensures leases[token].key in references
    ensures CountsLeases(leases[token := Lease(leases[token].key, true)], Drop(references, leases[token].key))
    ensures LiveKeys(leases[token := Lease(leases[token].key, true)]) == Drop(references, leases[token].key).Keys
  {
    var key := leases[token].key;
    var after := leases[token := Lease(key, true)];
    assert token in Holders(leases, key);
    KeyIsLive(leases, key);
    assert Holders(after, key) == Holders(leases, key) - {token};
    forall other ensures other in LiveKeys(after) <==> other in Drop(references, key)
    {
      KeyIsLive(after, other);
      KeyIsLive(leases, other);
      if other != key {
        assert Holders(after, other) == Holders(leases, other);
      } else {
        assert |Holders(after, key)| == references[key] - 1;
      }
    }
    forall other | other in Drop(references, key) && other != key
      ensures Holders(after, other) == Holders(leases, other)
    {}
  }

  lemma AddKeyCounts<T>(keys: set<Key<T>>, userReferences: map<string, nat>, key: Key<T>)
    requires CountsKeys(keys, userReferences) && key !in keys
    ensures CountsKeys(keys + {key}, if key.user == "" then userReferences else Bump(userReferences, key.user))
  {
    var after := keys + {key};
    var bumped := if key.user == "" then userReferences else Bump(userReferences, key.user);
    assert KeysOf(after, key.user) == KeysOf(keys, key.user) + {key};
    UserIsLive(keys, key.user);
    forall user ensures user in LiveUsers(after) <==> user in bumped
    {
      UserIsLive(after, user);
      UserIsLive(keys, user);
      if user != key.user {
        assert KeysOf(after, user) == KeysOf(keys, user);
      }
    }
    forall user | user in bumped && user != key.user ensures KeysOf(after, user) == KeysOf(keys, user) {}
  }

  lemma RemoveKeyCounts<T>(keys: set<Key<T>>, userReferences: map<string, nat>, key: Key<T>)
    requires CountsKeys(keys, userReferences) && key in keys
    ensures key.user != "" ==> key.user in userReferences
    ensures CountsKeys(keys - {key}, if key.user == "" then userReferences else Drop(userReferences, key.user))
  {
    var after := keys - {key};
    var dropped := if key.user == "" then userReferences else Drop(userReferences, key.user);
    assert key in KeysOf(keys, key.user);
    assert KeysOf(after, key.user) == KeysOf(keys, key.user) - {key};
    UserIsLive(keys, key.user);
    forall user ensures user in LiveUsers(after) <==> user in dropped
    {
      UserIsLive(after, user);
      UserIsLive(keys, user);
      if user != key.user {
        assert KeysOf(after, user) == KeysOf(keys, user);
      } else if user != "" {
        assert |KeysOf(after, user)| == userReferences[user] - 1;
      }
    }
    forall user | user in dropped && user != key.user ensures KeysOf(after, user) == KeysOf(keys, user) {}
  }

  // Once every release has run, in whatever order, nothing is left in either map.
  lemma EveryReleaseEmptiesTheGate<T>(leases: seq<Lease<T>>, references: map<Key<T>, nat>,
                                      userReferences: map<string, nat>)
    requires Accounts(leases, references, userReferences)
    ensures (forall i | 0 <= i < |leases| :: leases[i].released) <==> references == map[]
    ensures references == map[] ==> userReferences == map[]
  {
    if i :| 0 <= i < |leases| && !leases[i].released {
      assert leases[i].key in LiveKeys(leases);
    }
  }

  class ReferenceGate<T(==)> {
    const maxSubscriptions: nat
    const maxUsers: nat
    var references: map<Key<T>, nat>
    var userReferences: map<string, nat>
    // Every acquisition so far. `released` is the sync.Once of the closure handed out for it.
    var leases: seq<Lease<T>>

    ghost predicate Valid()
      reads this
    {
      && Accounts(leases, references, userReferences)
      && |references| <= maxSubscriptions
      && |userReferences| <= maxUsers
    }

    constructor (maxSubscriptions: int, maxUsers: int)
      ensures Valid() && leases == []
      ensures this.maxSubscriptions == if maxSubscriptions <= 0 then 1000 else maxSubscriptions
      ensures this.maxUsers == if maxUsers <= 0 then 10 else maxUsers
    {
      this.maxSubscriptions := if maxSubscriptions <= 0 then DEFAULT_MAX_ACTIVE_SUBSCRIPTIONS else maxSubscriptions;
      this.maxUsers := if maxUsers <= 0 then DEFAULT_MAX_UNIQUE_USERS else maxUsers;
      references, userReferences, leases := map[], map[], [];
    }

    // `key.user` has already been trimmed and lowered by the caller.
    method Acquire(key: Key<T>) returns (result: Result<nat, GateError>)
      requires Valid()
      modifies this
      ensures Valid()
      ensures result.Err? ==>
              leases == old(leases) && references == old(references) && userReferences == old(userReferences)
      ensures result.Ok? ==> result.value == |old(leases)| && leases == old(leases) + [Lease(key, false)]
      ensures result == Err(ActiveSubscriptionLimit) <==>
              key !in LiveKeys(old(leases)) && |LiveKeys(old(leases))| >= maxSubscriptions
      ensures result == Err(UniqueUserLimit) <==>
              && key !in LiveKeys(old(leases)) && |LiveKeys(old(leases))| < maxSubscriptions
              && key.user != "" && key.user !in LiveUsers(LiveKeys(old(leases)))
              && |LiveUsers(LiveKeys(old(leases)))| >= maxUsers
    {
      CapsAreOnKeys();
      if key !in references {
        if |references| >= maxSubscriptions {
          return Err(ActiveSubscriptionLimit);
        }
        if key.user != "" && key.user !in userReferences && |userReferences| >= maxUsers {
          return Err(UniqueUserLimit);
        }
      }
      Count(key);
      result := Ok(|leases| - 1);
    }

    lemma CapsAreOnKeys()
      requires Valid()
      ensures |references| == |LiveKeys(leases)| && |userReferences| == |LiveUsers(LiveKeys(leases))|
    {
      assert |references| == |references.Keys| && |userReferences| == |userReferences.Keys|;
    }

    // The counting half of Acquire, past the caps.
    method Count(key: Key<T>)
      requires Valid()
      requires key !in references ==> |references| < maxSubscriptions
      requires key !in references && key.user != "" && key.user !in userReferences ==> |userReferences| < maxUsers
      modifies this
      ensures Valid() && leases == old(leases) + [Lease(key, false)]
    {
      AcquireCountsLeases(leases, references, key);
      if key !in references {
        AddKeyCounts(LiveKeys(leases), userReferences, key);
        if key.user != "" {
          userReferences := Bump(userReferences, key.user);
        }
      } else {
        assert LiveKeys(leases) + {key} == LiveKeys(leases);
      }
      references := Bump(references, key);
      leases := leases + [Lease(key, false)];
      assert |references| == |references.Keys| && |userReferences| == |userReferences.Keys|;
    }

    // The closure returned for acquisition `token`; only its first call does anything.
    method Release(token: nat)
      requires Valid() && token < |leases|
      modifies this
      ensures Valid()
      ensures leases == old(leases)[token := Lease(old(leases)[token].key, true)]
      ensures old(leases)[token].released ==> references == old(references) && userReferences == old(userReferences)
    {
      if leases[token].released {
        return;
      }
      var key := leases[token].key;
      ghost var keys := LiveKeys(leases);
      ReleaseCountsLeases(leases, references, token);
      RemoveKeyCounts(keys, userReferences, key);
      leases := leases[token := Lease(key, true)];
      assert |references| == |references.Keys| && |userReferences| == |userReferences.Keys|;
      if references[key] > 1 {
        references := references[key := references[key] - 1];
        assert LiveKeys(leases) == keys;
        assert |references| == |references.Keys|;
        return;
      }
      references := references - {key};
      assert LiveKeys(leases) == keys - {key};
      if key.user != "" {
        if userReferences[key.user] > 1 {
          userReferences := userReferences[key.user := userReferences[key.user] - 1];
        } else {
          userReferences := userReferences - {key.user};
        }
      }
      assert |references| == |references.Keys| && |userReferences| == |userReferences.Keys|;
    }
  }
}
