/** websocket/client.go: the registry of logical subscriptions, and the admission lease every
    server identity in it holds.

    `K` is the type of registry keys. `T` is the type of printed requests (server identities and wire
    fingerprints); RequestHandle below fixes it to the requests of WireIdentity. */
module Registry {
  import opened AdmissionGate
  import opened WireIdentity
  import opened Wrappers

  // One logical subscription object: the type of its events, its server identity, its own request and the user it
  // is admitted for. `serial` tells two objects made from the same request apart.
  datatype Handle<T> = Handle(serial: nat, events: nat, identity: T, request: T, user: string)

  type Subscriptions<K, T> = map<K, Handle<T>>

  function Identities<K(==), T(==)>(subs: Subscriptions<K, T>): set<T> {
    set key | key in subs :: subs[key].identity
  }

  function MemberKeys<K(==), T(==)>(subs: Subscriptions<K, T>, identity: T): set<K> {
    set key | key in subs && subs[key].identity == identity
  }

  function Members<K(==), T(==)>(subs: Subscriptions<K, T>, identity: T): Subscriptions<K, T> {
    map key | key in MemberKeys(subs, identity) :: subs[key]
  }

  // What the registry would put on the wire for an identity: a lone handle's own request, and the
  // canonical request (which prints as the identity) once several equivalent handles share it.
  ghost function Fingerprint<K, T>(subs: Subscriptions<K, T>, identity: T): T
    requires identity in Identities(subs)
  {
    if |MemberKeys(subs, identity)| > 1 then identity
    else var key :| key in subs && subs[key].identity == identity; subs[key].request
  }

  lemma MembersWitness<K, T>(subs: Subscriptions<K, T>, identity: T)
    ensures identity in Identities(subs) <==> MemberKeys(subs, identity) != {}
  {
    if identity in Identities(subs) {
      var key :| key in subs && subs[key].identity == identity;
      assert key in MemberKeys(subs, identity);
    }
    if key :| key in MemberKeys(subs, identity) {
      assert subs[key].identity in Identities(subs);
    }
  }

  lemma SmallSet<X>(s: set<X>, a: X, b: X)
    requires a in s && b in s && |s| <= 1
    ensures a == b
  {
    assert |s - {a}| == 0;
  }

  // Which member the registry happens to visit last does not matter.
  lemma AnyMemberDecidesFingerprint<K, T>(subs: Subscriptions<K, T>, identity: T, key: K)
    requires key in MemberKeys(subs, identity)
    ensures identity in Identities(subs)
    ensures Fingerprint(subs, identity) ==
            if |MemberKeys(subs, identity)| > 1 then subs[key].identity else subs[key].request
  {
    MembersWitness(subs, identity);
    if |MemberKeys(subs, identity)| <= 1 {
      forall other | other in subs && subs[other].identity == identity ensures other == key {
        SmallSet(MemberKeys(subs, identity), key, other);
      }
    }
  }

  method SubscriptionIdentityState<K(==), T(==)>(subs: Subscriptions<K, T>, identity: T) returns (state: Option<T>)
    ensures state.Some? <==> identity in Identities(subs)
    ensures state.Some? ==> state.value == Fingerprint(subs, identity)
  {
    ghost var members := MemberKeys(subs, identity);
    var count := 0;
    var representative: Option<K> := None;
    var rest := subs.Keys;
    while rest != {}
      invariant rest <= subs.Keys
      invariant count == |members - rest|
      invariant count > 0 ==> representative.Some? && representative.value in members
      decreases rest
    {
      var key :| key in rest;
      ghost var counted := members - rest;
      rest := rest - {key};
      if subs[key].identity != identity {
        assert members - rest == counted;
        continue;
      }
      assert members - rest == counted + {key};
      count := count + 1;
      representative := Some(key);
    }
    assert members - rest == members;
    MembersWitness(subs, identity);
    if count == 0 {
      return None;
    }
    AnyMemberDecidesFingerprint(subs, identity, representative.value);
    if count > 1 {
      return Some(subs[representative.value].identity);
    }
    return Some(subs[representative.value].request);
  }

  method CollectMembers<K(==), T(==)>(subs: Subscriptions<K, T>, identity: T) returns (found: Subscriptions<K, T>)
    ensures found == Members(subs, identity)
  {
    ghost var members := MemberKeys(subs, identity);
    found := map[];
    var rest := subs.Keys;
    while rest != {}
      invariant rest <= subs.Keys
      invariant found.Keys == members - rest
      invariant forall key | key in found :: found[key] == subs[key]
      decreases rest
    {
      var key :| key in rest;
      ghost var taken := members - rest;
      rest := rest - {key};
      if subs[key].identity != identity {
        assert members - rest == taken;
        continue;
      }
      assert members - rest == taken + {key};
      found := found[key := subs[key]];
    }
    assert members - rest == members;
  }

  // ---------- Handles of real requests ----------

  function AdmissionUser(fields: Fields): string {
    if "user" in fields && fields["user"].String? then Lower(TrimSpace(fields["user"].text)) else ""
  }

  function RequestHandle(serial: nat, events: nat, fields: Fields): Handle<Fields> {
    Handle(serial, events, Normalize(fields), fields, AdmissionUser(fields))
  }

  // The user a request is admitted for is its user without the blanks around it, in lower case.
  lemma AdmissionUserIsPlain(fields: Fields)
    ensures "user" !in fields || !fields["user"].String? ==> AdmissionUser(fields) == ""
    ensures "user" in fields && fields["user"].String? ==>
              exists before, inner, after :: IsWithin(fields["user"].text, before, inner, after)
                && (inner != "" ==> !IsBlank(inner[0]) && !IsBlank(inner[|inner| - 1]))
                && AdmissionUser(fields) == Lower(inner)
  {
    if "user" in fields && fields["user"].String? {
      var text := fields["user"].text;
      var before, after := SpacesAround(text);
      TrimmedEnds(text);
      forall c: char | true ensures IsSpace(c) <==> IsBlank(c) {
        SpacesAreBlanks(c);
      }
      assert IsWithin(text, before, TrimSpace(text), after);
    }
  }

  // The text between blanks.
  ghost predicate IsWithin(text: string, before: string, inner: string, after: string) {
    && text == before + inner + after
    && (forall i | 0 <= i < |before| :: IsBlank(before[i])) && (forall i | 0 <= i < |after| :: IsBlank(after[i]))
  }

  // The White_Space characters of Unicode.
  predicate IsBlank(c: char) {
    c as int in {0x9, 0xa, 0xb, 0xc, 0xd, 0x20, 0x85, 0xa0, 0x1680, 0x2000, 0x2001, 0x2002, 0x2003, 0x2004, 0x2005,
                 0x2006, 0x2007, 0x2008, 0x2009, 0x200a, 0x2028, 0x2029, 0x202f, 0x205f, 0x3000}
  }

  lemma SpacesAreBlanks(c: char)
    ensures IsSpace(c) <==> IsBlank(c)
  {}

  lemma {:induction false} SpacesAround(s: string) returns (before: string, after: string)
    ensures s == before + TrimSpace(s) + after
    ensures (forall i | 0 <= i < |before| :: IsSpace(before[i])) && (forall i | 0 <= i < |after| :: IsSpace(after[i]))
    decreases |s|
  {
    before, after := "", "";
    if s != "" && IsSpace(s[0]) {
      var rest;
      rest, after := SpacesAround(s[1..]);
      before := [s[0]] + rest;
      OneBefore(s, rest, TrimSpace(s[1..]), after);
    } else if s != "" && IsSpace(s[|s| - 1]) {
      var rest;
      before, rest := SpacesAround(s[..|s| - 1]);
      after := rest + [s[|s| - 1]];
      OneAfter(s, before, TrimSpace(s[..|s| - 1]), rest);
    }
  }

  lemma OneBefore(s: string, before: string, inner: string, after: string)
    requires s != "" && s[1..] == before + inner + after
    ensures s == [s[0]] + before + inner + after
  {
    assert s == [s[0]] + s[1..];
  }

  lemma OneAfter(s: string, before: string, inner: string, after: string)
    requires s != "" && s[..|s| - 1] == before + inner + after
    ensures s == before + inner + (after + [s[|s| - 1]])
  {
    assert s == s[..|s| - 1] + [s[|s| - 1]];
  }

  lemma {:induction false} TrimmedEnds(s: string)
    ensures TrimSpace(s) != "" ==> !IsSpace(TrimSpace(s)[0]) && !IsSpace(TrimSpace(s)[|TrimSpace(s)| - 1])
    decreases |s|
  {
    if s != "" && IsSpace(s[0]) {
      TrimmedEnds(s[1..]);
    } else if s != "" && IsSpace(s[|s| - 1]) {
      TrimmedEnds(s[..|s| - 1]);
    }
  }

  // Whatever member represents a group of equivalent requests, the registry prints the same thing:
  // the canonical form of that member's wire, or its own wire when it is alone. And what is printed
  // names the identity it is printed for.
  lemma FingerprintIsDeterminate(subs: Subscriptions<string, Fields>, key: string)
    requires forall k | k in subs :: subs[k] == RequestHandle(subs[k].serial, subs[k].events, subs[k].request)
    requires key in subs
    ensures var identity := Normalize(subs[key].request);
            && identity in Identities(subs)
            && Fingerprint(subs, identity) ==
               (if |MemberKeys(subs, identity)| > 1 then Normalize(subs[key].request) else subs[key].request)
            && Normalize(Fingerprint(subs, identity)) == identity
  {
    var identity := subs[key].identity;
    assert key in MemberKeys(subs, identity);
    AnyMemberDecidesFingerprint(subs, identity, key);
    IdentityIsCanonicalFingerprint(subs[key].request);
  }

  // ---------- The client's registry ----------

  datatype RegistryError = Closed | TypeConflict | Refused | Denied(reason: GateError)

  // Exactly the registered identities hold a lease, each of those is still counted by the gate, and the gate
  // counts no other lease of this owner but the outgoing ones, which are out of the registry and about to be released.
  ghost predicate LeasesMatch<K, T>(owner: nat, subs: Subscriptions<K, T>, subLeases: map<T, nat>, outgoing: set<nat>,
                                    leases: seq<Lease<T>>) {
    && subLeases.Keys == Identities(subs)
    && (forall identity | identity in subLeases ::
          Holds(owner, identity, subLeases[identity], leases) && subLeases[identity] !in outgoing)
    && (forall token | token in outgoing :: Live(owner, token, leases))
    && (forall token | 0 <= token < |leases| :: Accounted(owner, subLeases, outgoing, token, leases))
  }

  predicate Accounted<T(==)>(owner: nat, subLeases: map<T, nat>, outgoing: set<nat>, token: nat,
                             leases: seq<Lease<T>>) {
    Live(owner, token, leases) ==>
      token in outgoing || (leases[token].key.identity in subLeases && subLeases[leases[token].key.identity] == token)
  }

  predicate Live<T(==)>(owner: nat, token: nat, leases: seq<Lease<T>>) {
    token < |leases| && !leases[token].released && leases[token].key.owner == owner
  }

  predicate Holds<T(==)>(owner: nat, identity: T, token: nat, leases: seq<Lease<T>>) {
    Live(owner, token, leases) && leases[token].key.identity == identity
  }

  // The lease of an identity that has left the registry is on its way out.
  lemma LeaseDropped<K, T>(owner: nat, before: Subscriptions<K, T>, after: Subscriptions<K, T>, subLeases: map<T, nat>,
                           outgoing: set<nat>, leases: seq<Lease<T>>, identity: T)
    requires LeasesMatch(owner, before, subLeases, outgoing, leases)
    requires identity in subLeases && Identities(after) == Identities(before) - {identity}
    ensures LeasesMatch(owner, after, subLeases - {identity}, outgoing + {subLeases[identity]}, leases)
  {
    var fewer, more := subLeases - {identity}, outgoing + {subLeases[identity]};
    assert Holds(owner, identity, subLeases[identity], leases);
    forall other | other in fewer ensures Holds(owner, other, fewer[other], leases) && fewer[other] !in more {
      assert Holds(owner, other, subLeases[other], leases);
    }
    forall token | 0 <= token < |leases| ensures Accounted(owner, fewer, more, token, leases) {
      assert Accounted(owner, subLeases, outgoing, token, leases);
    }
  }

  // The release of an outgoing lease ends it.
  lemma LeaseReleased<K, T>(owner: nat, subs: Subscriptions<K, T>, subLeases: map<T, nat>, outgoing: set<nat>,
                            leases: seq<Lease<T>>, token: nat)
    requires LeasesMatch(owner, subs, subLeases, outgoing, leases) && token in outgoing
    ensures token < |leases|
    ensures LeasesMatch(owner, subs, subLeases, outgoing - {token}, leases[token := Lease(leases[token].key, true)])
  {
    assert Live(owner, token, leases);
    var after, fewer := leases[token := Lease(leases[token].key, true)], outgoing - {token};
    forall identity | identity in subLeases ensures Holds(owner, identity, subLeases[identity], after) {
      assert Holds(owner, identity, subLeases[identity], leases);
    }
    forall other | other in fewer ensures Live(owner, other, after) {
      assert Live(owner, other, leases);
    }
    forall other | 0 <= other < |after| ensures Accounted(owner, subLeases, fewer, other, after) {
      assert Accounted(owner, subLeases, outgoing, other, leases);
    }
  }

  // A lease nobody held before is accounted for once its token is noted.
  lemma LeaseAdded<K, T>(owner: nat, before: Subscriptions<K, T>, after: Subscriptions<K, T>, subLeases: map<T, nat>,
                         outgoing: set<nat>, leases: seq<Lease<T>>, identity: T, user: string)
    requires LeasesMatch(owner, before, subLeases, outgoing, leases)
    requires identity !in subLeases && Identities(after) == Identities(before) + {identity}
    ensures LeasesMatch(owner, after, subLeases[identity := |leases|], outgoing,
                        leases + [Lease(Key(owner, identity, user), false)])
  {
    var longer := leases + [Lease(Key(owner, identity, user), false)];
    var more := subLeases[identity := |leases|];
    forall token | token in outgoing ensures Live(owner, token, longer) && token < |leases| {
      assert Live(owner, token, leases);
    }
    forall token | 0 <= token < |longer| ensures Accounted(owner, more, outgoing, token, longer) {
      if token < |leases| {
        assert Accounted(owner, subLeases, outgoing, token, leases);
      }
    }
    forall other | other in subLeases ensures Holds(owner, other, subLeases[other], longer) {
      assert Holds(owner, other, subLeases[other], leases);
    }
  }

  class Client<K(==), T(==)> {
    const owner: nat
    const gate: ReferenceGate<T>
    var closed: bool
    var subs: Subscriptions<K, T>
    var subLeases: map<T, nat>
    // History: the leases taken out of subLeases whose release has not run yet.
    ghost var outgoing: set<nat>

    // The state seen whenever Client.mu is free.
    ghost predicate Valid()
      reads this, gate
    {
      gate.Valid() && LeasesMatch(owner, subs, subLeases, outgoing, gate.leases)
    }

    constructor (owner: nat, gate: ReferenceGate<T>)
      requires gate.Valid()
      requires forall lease | lease in gate.leases :: lease.key.owner != owner
      ensures Valid() && this.owner == owner && this.gate == gate && subs == map[] && outgoing == {} && !closed
    {
      this.owner, this.gate := owner, gate;
      closed, subs, subLeases, outgoing := false, map[], map[], {};
    }

    // The registry part of subscribeStream. `entrant` is the handle registered when the key is new; `permits` is the
    // check some feeds make on the registry first.
    method Subscribe(key: K, entrant: Handle<T>, permits: Subscriptions<K, T> -> bool)
      returns (result: Result<Handle<T>, RegistryError>)
      requires Valid()
      modifies this`subs, this`subLeases, gate
      ensures Valid()
      ensures result == Err(Closed) <==> closed
      ensures result == Err(TypeConflict) <==> !closed && key in old(subs) && old(subs)[key].events != entrant.events
      ensures result == Err(Refused) <==> !closed && key !in old(subs) && !permits(old(subs))
      ensures !closed && key in old(subs) && old(subs)[key].events == entrant.events ==> result == Ok(old(subs)[key])
      ensures !closed && key !in old(subs) && permits(old(subs)) && entrant.identity in Identities(old(subs)) ==>
          result == Ok(entrant)
      ensures subs == if result.Ok? && key !in old(subs) then old(subs)[key := entrant] else old(subs)
      // Equivalent handles share one lease: only a new identity asks the gate.
      ensures gate.leases ==
              if result.Ok? && key !in old(subs) && entrant.identity !in Identities(old(subs))
              then old(gate.leases) + [Lease(Key(owner, entrant.identity, entrant.user), false)]
              else old(gate.leases)
    {
      if closed {
        return Err(Closed);
      }
      if key in subs {
        if subs[key].events != entrant.events {
          return Err(TypeConflict);
        }
        return Ok(subs[key]);
      }
      if !permits(subs) {
        return Err(Refused);
      }
      var denied := Publish(key, entrant);
      result := if denied.Some? then Err(Denied(denied.value)) else Ok(entrant);
    }

    // A new handle joins the registry if its identity is admitted.
    method Publish(key: K, entrant: Handle<T>) returns (denied: Option<GateError>)
      requires Valid() && key !in subs
      modifies this`subs, this`subLeases, gate
      ensures Valid()
      ensures entrant.identity in Identities(old(subs)) ==> denied.None?
      ensures subs == if denied.None? then old(subs)[key := entrant] else old(subs)
      ensures gate.leases ==
              if denied.None? && entrant.identity !in Identities(old(subs))
              then old(gate.leases) + [Lease(Key(owner, entrant.identity, entrant.user), false)]
              else old(gate.leases)
    {
      AddedIdentities(subs, key, entrant);
      denied := AdmitSubscription(entrant.identity, entrant.user, subs[key := entrant]);
      if denied.None? {
        subs := subs[key := entrant];
      }
    }

    // Duplicates share the lease of their identity. The handle itself is published by the caller.
    method AdmitSubscription(identity: T, user: string, ghost published: Subscriptions<K, T>)
        returns (denied: Option<GateError>)
      requires Valid() && Identities(published) == Identities(subs) + {identity}
      modifies this`subLeases, gate
      ensures gate.Valid()
              && LeasesMatch(owner, if denied.None? then published else subs, subLeases, outgoing, gate.leases)
      ensures identity in Identities(subs) ==> denied.None?
      ensures gate.leases ==
              if denied.None? && identity !in Identities(subs)
              then old(gate.leases) + [Lease(Key(owner, identity, user), false)]
              else old(gate.leases)
    {
      if identity in subLeases {
        return None;
      }
      LeaseAdded(owner, subs, published, subLeases, outgoing, gate.leases, identity, user);
      var acquired := gate.Acquire(Key(owner, identity, user));
      if acquired.Err? {
        return Some(acquired.error);
      }
      subLeases := subLeases[identity := acquired.value];
      denied := None;
    }

    // The critical section of remove: takes one handle out, unless the key has been given to another one since. The
    // lease of an identity that is gone comes back as the release to run.
    method TakeOut(key: K, handle: Handle<T>) returns (removed: bool, release: Option<nat>)
      requires Valid()
      modifies this`subs, this`subLeases, this`outgoing
      ensures Valid()
      ensures removed <==> key in old(subs) && old(subs)[key] == handle
      ensures subs == if removed then old(subs) - {key} else old(subs)
      // Only the removal of the last handle of an identity takes its lease out.
      ensures release.Some? <==> removed && handle.identity !in Identities(subs)
      ensures release.None? ==> subLeases == old(subLeases) && outgoing == old(outgoing)
      ensures release.Some? ==>
              && handle.identity in old(subLeases) && release.value == old(subLeases)[handle.identity]
              && subLeases == old(subLeases) - {handle.identity}
              && release.value !in old(outgoing) && outgoing == old(outgoing) + {release.value}
    {
      removed, release := key in subs && subs[key] == handle, None;
      if removed {
        RemovedIdentities(subs, key);
        ghost var before := subs;
        subs := subs - {key};
        var state := SubscriptionIdentityState(subs, handle.identity);
        if state.None? {
          release := Some(subLeases[handle.identity]);
          LeaseDropped(owner, before, subs, subLeases, outgoing, gate.leases, handle.identity);
          subLeases := subLeases - {handle.identity};
          outgoing := outgoing + {release.value};
        }
      }
    }

    // Afterwards, with no lock held, the release runs.
    method GiveBack(token: nat)
      requires Valid() && token in outgoing
      modifies this`outgoing, gate
      ensures Valid() && outgoing == old(outgoing) - {token}
      ensures GivenBack(old(gate.leases), gate.leases, token)
    {
      LeaseReleased(owner, subs, subLeases, outgoing, gate.leases, token);
      outgoing := outgoing - {token};
      gate.Release(token);
    }

    // Unregisters one handle, nobody else acting in between.
    method Remove(key: K, handle: Handle<T>) returns (removed: bool)
      requires Valid()
      modifies this`subs, this`subLeases, this`outgoing, gate
      ensures Valid() && outgoing == old(outgoing)
      ensures removed <==> key in old(subs) && old(subs)[key] == handle
      ensures subs == if removed then old(subs) - {key} else old(subs)
      ensures !removed || handle.identity in Identities(subs) ==>
          gate.leases == old(gate.leases) && subLeases == old(subLeases)
      ensures removed && handle.identity !in Identities(subs) ==>
              && handle.identity in old(subLeases)
              && subLeases == old(subLeases) - {handle.identity}
              && GivenBack(old(gate.leases), gate.leases, old(subLeases)[handle.identity])
    {
      var release;
      removed, release := TakeOut(key, handle);
      if release.Some? {
        GiveBack(release.value);
      }
    }

    // The critical section of a detachment: every handle of an identity goes at once, as after a server rejection.
    method TakeOutIdentity(identity: T) returns (detached: Subscriptions<K, T>, release: Option<nat>)
      requires Valid()
      modifies this`subs, this`subLeases, this`outgoing
      ensures Valid()
      ensures detached == Members(old(subs), identity)
      ensures subs == old(subs) - detached.Keys
      ensures identity !in Identities(subs)
      ensures release.Some? <==> identity in Identities(old(subs))
      ensures release.None? ==> subLeases == old(subLeases) && outgoing == old(outgoing)
      ensures release.Some? ==>
              && identity in old(subLeases) && release.value == old(subLeases)[identity]
              && subLeases == old(subLeases) - {identity}
              && release.value !in old(outgoing) && outgoing == old(outgoing) + {release.value}
    {
      DetachedIdentities(subs, identity);
      ghost var before := subs;
      detached := CollectMembers(subs, identity);
      assert detached.Keys == MemberKeys(subs, identity);
      subs := subs - detached.Keys;
      release := None;
      if identity in subLeases {
        release := Some(subLeases[identity]);
        LeaseDropped(owner, before, subs, subLeases, outgoing, gate.leases, identity);
        subLeases := subLeases - {identity};
        outgoing := outgoing + {release.value};
      }
    }

    // Unregisters every handle of an identity, nobody else acting in between.
    method DetachSubscriptionIdentity(identity: T) returns (detached: Subscriptions<K, T>)
      requires Valid()
      modifies this`subs, this`subLeases, this`outgoing, gate
      ensures Valid() && outgoing == old(outgoing)
      ensures detached == Members(old(subs), identity)
      ensures subs == old(subs) - detached.Keys
      ensures identity !in Identities(subs)
      ensures if identity in Identities(old(subs))
              then GivenBack(old(gate.leases), gate.leases, old(subLeases)[identity])
              else gate.leases == old(gate.leases)
    {
      var release;
      detached, release := TakeOutIdentity(identity);
      if release.Some? {
        GiveBack(release.value);
      }
    }
  }

  // Other clients of the gate, with owners of their own, neither take a lease away nor add one.
  lemma OtherClientsDoNotMatter<K, T>(owner: nat, subs: Subscriptions<K, T>, subLeases: map<T, nat>,
                                      outgoing: set<nat>, leases: seq<Lease<T>>, key: Key<T>, token: nat)
    requires LeasesMatch(owner, subs, subLeases, outgoing, leases)
    ensures key.owner != owner ==> LeasesMatch(owner, subs, subLeases, outgoing, leases + [Lease(key, false)])
    ensures token < |leases| && leases[token].key.owner != owner ==>
              LeasesMatch(owner, subs, subLeases, outgoing, leases[token := Lease(leases[token].key, true)])
  {
    if key.owner != owner {
      SameLiveLeases(owner, subs, subLeases, outgoing, leases, leases + [Lease(key, false)]);
    }
    if token < |leases| && leases[token].key.owner != owner {
      SameLiveLeases(owner, subs, subLeases, outgoing, leases, leases[token := Lease(leases[token].key, true)]);
    }
  }

  lemma SameLiveLeases<K, T>(owner: nat, subs: Subscriptions<K, T>, subLeases: map<T, nat>, outgoing: set<nat>,
                             leases: seq<Lease<T>>, after: seq<Lease<T>>)
    requires LeasesMatch(owner, subs, subLeases, outgoing, leases) && |leases| <= |after|
    requires forall token: nat :: Live(owner, token, after) <==> Live(owner, token, leases)
    requires forall token | 0 <= token < |leases| :: after[token].key == leases[token].key
    ensures LeasesMatch(owner, subs, subLeases, outgoing, after)
  {
    forall token | 0 <= token < |after| ensures Accounted(owner, subLeases, outgoing, token, after) {
      if token < |leases| {
        assert Accounted(owner, subLeases, outgoing, token, leases);
      }
    }
    forall identity | identity in subLeases ensures Holds(owner, identity, subLeases[identity], after) {
      assert Holds(owner, identity, subLeases[identity], leases);
    }
  }

  // Nothing leaks: the gate counts no lease of a client exactly when the client has no subscriptions left and every
  // release it owes has run.
  lemma NothingLeaks<K, T>(owner: nat, subs: Subscriptions<K, T>, subLeases: map<T, nat>, outgoing: set<nat>,
                           leases: seq<Lease<T>>)
    requires LeasesMatch(owner, subs, subLeases, outgoing, leases)
    ensures subs == map[] && outgoing == {} <==> forall token: nat :: !Live(owner, token, leases)
  {
    if subs == map[] && outgoing == {} {
      forall token: nat ensures !Live(owner, token, leases) {
        if token < |leases| {
          assert Accounted(owner, subLeases, outgoing, token, leases);
        }
      }
    } else if subs != map[] {
      var key :| key in subs;
      assert subs[key].identity in Identities(subs);
      assert Holds(owner, subs[key].identity, subLeases[subs[key].identity], leases);
    }
  }

  predicate GivenBack<T(==)>(before: seq<Lease<T>>, after: seq<Lease<T>>, token: nat) {
    token < |before| && after == before[token := Lease(before[token].key, true)]
  }

  lemma AddedIdentities<K, T>(subs: Subscriptions<K, T>, key: K, handle: Handle<T>)
    requires key !in subs
    ensures Identities(subs[key := handle]) == Identities(subs) + {handle.identity}
  {
    var after := subs[key := handle];
    assert key in after && after[key] == handle;
    assert forall k | k in subs :: after[k] == subs[k];
  }

  lemma RemovedIdentities<K, T>(subs: Subscriptions<K, T>, key: K)
    requires key in subs
    ensures subs[key].identity in Identities(subs)
    ensures Identities(subs - {key}) ==
            if MemberKeys(subs, subs[key].identity) == {key} then Identities(subs) - {subs[key].identity}
                else Identities(subs)
  {
    var after := subs - {key};
    var gone := subs[key].identity;
    forall identity ensures identity in Identities(after) <==> MemberKeys(subs, identity) - {key} != {} {
      MembersWitness(after, identity);
      assert MemberKeys(after, identity) == MemberKeys(subs, identity) - {key};
    }
    forall identity ensures identity in Identities(subs) <==> MemberKeys(subs, identity) != {} {
      MembersWitness(subs, identity);
    }
    assert key in MemberKeys(subs, gone);
    forall identity | identity != gone ensures MemberKeys(subs, identity) - {key} == MemberKeys(subs, identity) {}
  }

  lemma DetachedIdentities<K, T>(subs: Subscriptions<K, T>, identity: T)
    ensures Identities(subs - MemberKeys(subs, identity)) == Identities(subs) - {identity}
  {
    var after := subs - MemberKeys(subs, identity);
    forall other | other in Identities(subs) && other != identity ensures other in Identities(after)
    {
      var k :| k in subs && subs[k].identity == other;
      assert k in after;
    }
  }

  // strings.TrimSpace.
  function TrimSpace(s: string): (r: string)
    decreases |s|
  {
    if s != "" && IsSpace(s[0]) then TrimSpace(s[1..])
    else if s != "" && IsSpace(s[|s| - 1]) then TrimSpace(s[..|s| - 1])
    else s
  }

  predicate IsSpace(c: char) {
    || c == ' ' || '\t' <= c <= '\r' || c as int == 0x85 || c as int == 0xa0 || c as int == 0x1680
    || 0x2000 <= c as int <= 0x200a || c as int == 0x2028 || c as int == 0x2029 || c as int == 0x202f
    || c as int == 0x205f || c as int == 0x3000
  }
}
