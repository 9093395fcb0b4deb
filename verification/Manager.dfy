/** websocket/manager.go: the code of one connection generation, run without interference. Writing a
    frame is modelled by `linkUp`, the number of frames the socket still accepts before it fails. */
module Manager {
  import opened Protocol
  import opened Registry

  type Subs = Subscriptions<Key, Text>
  type Group = Active<Key, Text>
  type Groupings = map<Text, Group>
  type Frames = seq<Event<Key, Text>>

  // ---------- Grouping the registry ----------

  // The groups after visiting the handles `seen`; `firsts` tells which handle opened each group.
  ghost predicate Grouped(seen: Subs, current: Groupings, firsts: map<Text, Key>) {
    && current.Keys == Identities(seen)
    && firsts.Keys == Identities(seen)
    && forall identity | identity in current ::
         && firsts[identity] in MemberKeys(seen, identity)
         && current[identity] == Active(seen[firsts[identity]].request, Members(seen, identity), false)
  }

  lemma VisitedOneMore(seen: Subs, key: Key, handle: Handle<Text>)
    requires key !in seen
    ensures Identities(seen[key := handle]) == Identities(seen) + {handle.identity}
    ensures Members(seen[key := handle], handle.identity) == Members(seen, handle.identity)[key := handle]
    ensures handle.identity !in Identities(seen) ==> Members(seen, handle.identity) == map[]
    ensures forall identity | identity != handle.identity ::
              Members(seen[key := handle], identity) == Members(seen, identity)
    ensures forall identity | identity != handle.identity ::
        MemberKeys(seen[key := handle], identity) == MemberKeys(seen, identity)
  {
    AddedIdentities(seen, key, handle);
    MembersWitness(seen, handle.identity);
    assert forall identity :: Members(seen, identity).Keys == MemberKeys(seen, identity);
  }

  method GroupHandles(subs: Subs) returns (current: Groupings, firsts: map<Text, Key>)
    ensures Grouped(subs, current, firsts)
  {
    firsts, current := map[], map[];
    ghost var seen: Subs := map[];
    var rest := subs.Keys;
    while rest != {}
      invariant rest <= subs.Keys
      invariant seen.Keys == subs.Keys - rest
      invariant forall key | key in seen :: seen[key] == subs[key]
      invariant Grouped(seen, current, firsts)
      decreases rest
    {
      var key :| key in rest;
      var handle := subs[key];
      VisitedOneMore(seen, key, handle);
      rest := rest - {key};
      seen := seen[key := handle];
      if handle.identity in current {
        var group := current[handle.identity];
        current := current[handle.identity := group.(members := group.members[key := handle])];
      } else {
        firsts := firsts[handle.identity := key];
        current := current[handle.identity := Active(handle.request, map[key := handle], false)];
      }
    }
    assert seen == subs;
  }

  lemma GroupIsCanonical(subs: Subs, current: Groupings, firsts: map<Text, Key>, identity: Text)
    requires Grouped(subs, current, firsts) && identity in current
    ensures Groups(subs)[identity] ==
            if |current[identity].members| > 1 then current[identity].(wire := identity) else current[identity]
  {
    AnyMemberDecidesFingerprint(subs, identity, firsts[identity]);
    assert Members(subs, identity).Keys == MemberKeys(subs, identity);
    assert |Members(subs, identity)| == |Members(subs, identity).Keys|;
  }

  // The two grouping loops at the head of syncSubscriptions. A group of several handles is written
  // with canonicalSubscriptionWire, whose request prints as the identity.
  method GroupSubscriptions(subs: Subs) returns (current: Groupings)
    ensures current == Groups(subs)
  {
    var grouped, firsts := GroupHandles(subs);
    current := map[];
    var rest := grouped.Keys;
    while rest != {}
      invariant rest <= grouped.Keys
      invariant current.Keys == grouped.Keys - rest
      invariant forall identity | identity in current :: current[identity] == Groups(subs)[identity]
      decreases rest
    {
      var identity :| identity in rest;
      rest := rest - {identity};
      GroupIsCanonical(subs, grouped, firsts, identity);
      var group := grouped[identity];
      current := current[identity := if |group.members| > 1 then group.(wire := identity) else group];
    }
  }

  // ---------- What a pass does to the record ----------

  predicate Distinct(order: seq<Text>) {
    forall i, j | 0 <= i < j < |order| :: order[i] != order[j]
  }

  // The keys of a map, in some order.
  method ListKeys(keys: set<Text>) returns (order: seq<Text>)
    ensures Distinct(order)
    ensures forall identity :: identity in order <==> identity in keys
  {
    order := [];
    var rest := keys;
    while rest != {}
      invariant rest <= keys
      invariant Distinct(order)
      invariant forall identity :: identity in order <==> identity in keys && identity !in rest
      decreases rest
    {
      var identity :| identity in rest;
      rest := rest - {identity};
      order := order + [identity];
    }
  }

  // First loop, over the identities that were active when it began.
  function Prune(r: Record<Key, Text>, active: seq<Text>, current: Groupings, subs: Subs): Record<Key, Text> {
    if active == [] then r
    else
      var before := Prune(r, active[..|active| - 1], current, subs);
      var identity := active[|active| - 1];
      if identity !in before.subscribed then before
      else if identity in current then WithMembers(before, identity, current[identity].members)
      else AfterUnsubscribe(before, identity, before.subscribed[identity].wire, subs)
  }

  // Second loop, over the wanted identities.
  function Fill(r: Record<Key, Text>, wanted: seq<Text>, current: Groupings, subs: Subs): Record<Key, Text>
    requires forall identity | identity in wanted :: identity in current
  {
    if wanted == [] then r
    else
      var before := Fill(r, wanted[..|wanted| - 1], current, subs);
      var identity := wanted[|wanted| - 1];
      if identity in before.subscribed then before else AfterSubscribe(before, identity, current[identity], subs)
  }

  ghost predicate AllSuit(log: Frames, from: nat, subs: Subs) {
    forall i | from <= i < |log| ::
      log[i].Frame? && log[i].registry == subs && Suits(log[i].command, log[i].wire, Now(subs, log[i].identity))
  }

  lemma LastIsNew(order: seq<Text>)
    requires Distinct(order) && order != []
    ensures Distinct(order[..|order| - 1]) && order[|order| - 1] !in order[..|order| - 1]
    ensures order == order[..|order| - 1] + [order[|order| - 1]]
  {}

  lemma {:induction false} PruneSubscribed(r: Record<Key, Text>, active: seq<Text>, current: Groupings, subs: Subs)
    requires Distinct(active)
    ensures var s := Prune(r, active, current, subs).subscribed;
            && (forall identity :: identity in s <==>
                identity in r.subscribed && (identity in active ==> identity in current))
            && forall identity | identity in s ::
                 s[identity] == if identity in active then r.subscribed[identity].(members := current[identity].members)
                                else r.subscribed[identity]
  {
    if active != [] {
      LastIsNew(active);
      PruneSubscribed(r, active[..|active| - 1], current, subs);
    }
  }

  lemma {:induction false} PruneFrames(r: Record<Key, Text>, active: seq<Text>, current: Groupings, subs: Subs,
      identity: Text)
    requires Distinct(active) && forall other | other in active :: other in r.subscribed
    ensures FramesOf(Prune(r, active, current, subs).log, identity) ==
            FramesOf(r.log, identity) + if identity in active && identity !in current then [Unsubscribe] else []
  {
    if active != [] {
      LastIsNew(active);
      PruneSubscribed(r, active[..|active| - 1], current, subs);
      var front, last := active[..|active| - 1], active[|active| - 1];
      PruneFrames(r, front, current, subs, identity);
      var before := Prune(r, front, current, subs);
      if last in before.subscribed && last !in current {
        FramesAppended(before.log, Frame(Unsubscribe, last, before.subscribed[last].wire, subs), identity);
      }
    }
  }

  lemma {:induction false} PruneSuits(r: Record<Key, Text>, active: seq<Text>, current: Groupings, subs: Subs)
    requires current.Keys == Identities(subs)
    ensures var after := Prune(r, active, current, subs);
            r.log <= after.log && AllSuit(after.log, |r.log|, subs) && (PendingIsExact(r) ==> PendingIsExact(after))
  {
    if active != [] {
      PruneSuits(r, active[..|active| - 1], current, subs);
    }
  }

  lemma {:induction false} PruneCount(r: Record<Key, Text>, active: seq<Text>, current: Groupings, subs: Subs,
      gone: set<Text>)
    requires Distinct(active) && forall identity | identity in active :: identity in r.subscribed
    requires forall identity :: identity in gone <==> identity in active && identity !in current
    ensures |Prune(r, active, current, subs).log| == |r.log| + |gone|
  {
    if active != [] {
      var front, last := active[..|active| - 1], active[|active| - 1];
      LastIsNew(active);
      PruneSubscribed(r, front, current, subs);
      PruneCount(r, front, current, subs, gone - {last});
    }
  }

  lemma {:induction false} FillSubscribed(r: Record<Key, Text>, wanted: seq<Text>, current: Groupings, subs: Subs)
    requires Distinct(wanted) && forall identity | identity in wanted :: identity in current
    ensures var s := Fill(r, wanted, current, subs).subscribed;
            && (forall identity :: identity in s <==> identity in r.subscribed || identity in wanted)
            && forall identity | identity in s ::
                 s[identity] == if identity in r.subscribed then r.subscribed[identity] else current[identity]
  {
    if wanted != [] {
      LastIsNew(wanted);
      FillSubscribed(r, wanted[..|wanted| - 1], current, subs);
    }
  }

  lemma {:induction false} FillFrames(r: Record<Key, Text>, wanted: seq<Text>, current: Groupings, subs: Subs,
      identity: Text)
    requires Distinct(wanted) && forall other | other in wanted :: other in current
    ensures FramesOf(Fill(r, wanted, current, subs).log, identity) ==
            FramesOf(r.log, identity) + if identity in wanted && identity !in r.subscribed then [Subscribe] else []
  {
    if wanted != [] {
      LastIsNew(wanted);
      var front, last := wanted[..|wanted| - 1], wanted[|wanted| - 1];
      FillSubscribed(r, front, current, subs);
      FillFrames(r, front, current, subs, identity);
      var before := Fill(r, front, current, subs);
      if last !in before.subscribed {
        FramesAppended(before.log, Frame(Subscribe, last, current[last].wire, subs), identity);
      }
    }
  }

  lemma {:induction false} FillSuits(r: Record<Key, Text>, wanted: seq<Text>, current: Groupings, subs: Subs)
    requires forall identity | identity in wanted :: identity in current
    requires current == Groups(subs)
    ensures var after := Fill(r, wanted, current, subs);
            r.log <= after.log && AllSuit(after.log, |r.log|, subs) && (PendingIsExact(r) ==> PendingIsExact(after))
  {
    if wanted != [] {
      FillSuits(r, wanted[..|wanted| - 1], current, subs);
      var last := wanted[|wanted| - 1];
      assert last in wanted && last in current && current[last].wire == Fingerprint(subs, last);
    }
  }

  lemma {:induction false} FillCount(r: Record<Key, Text>, wanted: seq<Text>, current: Groupings, subs: Subs,
      added: set<Text>)
    requires Distinct(wanted) && forall identity | identity in wanted :: identity in current
    requires forall identity :: identity in added <==> identity in wanted && identity !in r.subscribed
    ensures |Fill(r, wanted, current, subs).log| == |r.log| + |added|
  {
    if wanted != [] {
      var front, last := wanted[..|wanted| - 1], wanted[|wanted| - 1];
      LastIsNew(wanted);
      FillSubscribed(r, front, current, subs);
      FillCount(r, front, current, subs, added - {last});
    }
  }

  lemma {:induction false} PruneGrows(r: Record<Key, Text>, active: seq<Text>, current: Groupings, subs: Subs, i: nat)
    requires i <= |active|
    ensures Prune(r, active[..i], current, subs).log <= Prune(r, active, current, subs).log
  {
    if i < |active| {
      PruneGrows(r, active[..|active| - 1], current, subs, i);
      assert active[..|active| - 1][..i] == active[..i];
    } else {
      assert active[..i] == active;
    }
  }

  lemma {:induction false} FillGrows(r: Record<Key, Text>, wanted: seq<Text>, current: Groupings, subs: Subs, i: nat)
    requires i <= |wanted| && forall identity | identity in wanted :: identity in current
    ensures Fill(r, wanted[..i], current, subs).log <= Fill(r, wanted, current, subs).log
  {
    if i < |wanted| {
      FillGrows(r, wanted[..|wanted| - 1], current, subs, i);
      assert wanted[..|wanted| - 1][..i] == wanted[..i];
    } else {
      assert wanted[..i] == wanted;
    }
  }

  // The record after a whole pass, for any order in which the two maps are visited.
  ghost predicate PassFrom(r: Record<Key, Text>, subs: Subs, active: seq<Text>, wanted: seq<Text>) {
    && Distinct(active) && Distinct(wanted)
    && (forall identity :: identity in active <==> identity in r.subscribed)
    && (forall identity :: identity in wanted <==> identity in Identities(subs))
  }

  ghost function AfterPass(r: Record<Key, Text>, subs: Subs, active: seq<Text>, wanted: seq<Text>): Record<Key, Text>
    requires PassFrom(r, subs, active, wanted)
  {
    Fill(Prune(r, active, Groups(subs), subs), wanted, Groups(subs), subs)
  }

  // A pass leaves the wire equal to the registry, every subscription feeding exactly the registry's handles.
  lemma PassSettles(r: Record<Key, Text>, subs: Subs, active: seq<Text>, wanted: seq<Text>)
    requires PassFrom(r, subs, active, wanted)
    ensures var after := AfterPass(r, subs, active, wanted);
            && after.subscribed.Keys == Identities(subs)
            && forall identity | identity in after.subscribed ::
                  after.subscribed[identity] ==
                  if identity in r.subscribed then r.subscribed[identity].(members := Members(subs, identity))
                  else Active(Fingerprint(subs, identity), Members(subs, identity), false)
  {
    PruneSubscribed(r, active, Groups(subs), subs);
    FillSubscribed(Prune(r, active, Groups(subs), subs), wanted, Groups(subs), subs);
  }

  // Its frames all suit the registry ...
  lemma PassWritesSuitably(r: Record<Key, Text>, subs: Subs, active: seq<Text>, wanted: seq<Text>)
    requires PassFrom(r, subs, active, wanted)
    ensures var after := AfterPass(r, subs, active, wanted);
            r.log <= after.log && AllSuit(after.log, |r.log|, subs) && (PendingIsExact(r) ==> PendingIsExact(after))
  {
    var middle := Prune(r, active, Groups(subs), subs);
    PruneSuits(r, active, Groups(subs), subs);
    FillSuits(middle, wanted, Groups(subs), subs);
    var log := AfterPass(r, subs, active, wanted).log;
    forall i | |r.log| <= i < |middle.log| ensures log[i] == middle.log[i] {}
  }

  // ... and are as many as the identities on one side only.
  lemma PassCount(r: Record<Key, Text>, subs: Subs, active: seq<Text>, wanted: seq<Text>)
    requires PassFrom(r, subs, active, wanted)
    ensures |AfterPass(r, subs, active, wanted).log| ==
            |r.log| + |r.subscribed.Keys - Identities(subs)| + |Identities(subs) - r.subscribed.Keys|
  {
    LoopsCount(r, subs, active, wanted, Groups(subs));
  }

  lemma LoopsCount(r: Record<Key, Text>, subs: Subs, active: seq<Text>, wanted: seq<Text>, current: Groupings)
    requires PassFrom(r, subs, active, wanted) && current.Keys == Identities(subs)
    ensures |Fill(Prune(r, active, current, subs), wanted, current, subs).log| ==
            |r.log| + |r.subscribed.Keys - current.Keys| + |current.Keys - r.subscribed.Keys|
  {
    var middle := Prune(r, active, current, subs);
    PruneSubscribed(r, active, current, subs);
    PruneCount(r, active, current, subs, r.subscribed.Keys - current.Keys);
    FillCount(middle, wanted, current, subs, current.Keys - r.subscribed.Keys);
  }

  // One frame for each of those identities, and none for the rest.
  lemma PassWritesTheDifference(r: Record<Key, Text>, subs: Subs, active: seq<Text>, wanted: seq<Text>, identity: Text)
    requires PassFrom(r, subs, active, wanted)
    ensures FramesOf(AfterPass(r, subs, active, wanted).log, identity) ==
            FramesOf(r.log, identity) +
            if identity in r.subscribed && identity !in Identities(subs) then [Unsubscribe]
            else if identity !in r.subscribed && identity in Identities(subs) then [Subscribe]
            else []
  {
    var current := Groups(subs);
    PruneSubscribed(r, active, current, subs);
    PruneFrames(r, active, current, subs, identity);
    FillFrames(Prune(r, active, current, subs), wanted, current, subs, identity);
  }

  class Generation {
    var subscribed: Groupings
    var pending: map<AckKey<Text>, PendingAck<Text>>
    ghost var log: Frames

    constructor ()
      ensures Valid() && Kept() == Record(map[], map[], [])
    {
      subscribed, pending, log := map[], map[], [];
    }

    // Between two critical sections a subscribe is pending exactly while it is unacknowledged.
    ghost predicate Valid()
      reads this
    {
      PendingIsExact(Kept()) && KeysAreHonest(Kept())
    }

    ghost function Kept(): Record<Key, Text>
      reads this
    {
      Record(subscribed, pending, log)
    }

    method WriteUnsubscribe(identity: Text, ghost subs: Subs)
      requires identity in subscribed
      modifies this
      ensures Kept() == AfterUnsubscribe(old(Kept()), identity, old(subscribed)[identity].wire, subs)
    {
      var wire := subscribed[identity].wire;
      subscribed := subscribed - {identity};
      pending := (pending - {AckKey(Subscribe, identity)})
          [AckKey(Unsubscribe, identity) := PendingAck(Unsubscribe, identity, wire)];
      log := log + [Frame(Unsubscribe, identity, wire, subs)];
    }

    method WriteSubscribe(identity: Text, group: Group, ghost subs: Subs)
      modifies this
      ensures Kept() == AfterSubscribe(old(Kept()), identity, group, subs)
    {
      subscribed := subscribed[identity := group];
      pending := pending[AckKey(Subscribe, identity) := PendingAck(Subscribe, identity, group.wire)];
      log := log + [Frame(Subscribe, identity, group.wire, subs)];
    }

    // First loop of a pass. When the socket fails, the record stands at some prefix of the loop.
    method UnsubscribeUnwanted(ghost subs: Subs, current: Groupings, active: seq<Text>, linkUp: nat)
        returns (ok: bool, left: nat)
      modifies this
      ensures ok ==> Kept() == Prune(old(Kept()), active, current, subs)
      ensures left + |log| == linkUp + |old(log)|
      ensures !ok ==> left == 0 && log < Prune(old(Kept()), active, current, subs).log
    {
      left := linkUp;
      var i := 0;
      while i < |active|
        invariant 0 <= i <= |active|
        invariant Kept() == Prune(old(Kept()), active[..i], current, subs)
        invariant left + |log| == linkUp + |old(log)|
      {
        var identity := active[i];
        assert active[..i + 1][..i] == active[..i];
        if identity in subscribed {
          if identity in current {
            subscribed := subscribed[identity := subscribed[identity].(members := current[identity].members)];
          } else if left == 0 {
            PruneGrows(old(Kept()), active, current, subs, i + 1);
            return false, 0;
          } else {
            WriteUnsubscribe(identity, subs);
            left := left - 1;
          }
        }
        i := i + 1;
      }
      assert active[..i] == active;
      ok := true;
    }

    // Second loop.
    method SubscribeMissing(ghost subs: Subs, current: Groupings, wanted: seq<Text>, linkUp: nat)
        returns (ok: bool, left: nat)
      requires forall identity | identity in wanted :: identity in current
      modifies this
      ensures ok ==> Kept() == Fill(old(Kept()), wanted, current, subs)
      ensures left + |log| == linkUp + |old(log)|
      ensures !ok ==> left == 0 && log < Fill(old(Kept()), wanted, current, subs).log
    {
      left := linkUp;
      var i := 0;
      while i < |wanted|
        invariant 0 <= i <= |wanted|
        invariant Kept() == Fill(old(Kept()), wanted[..i], current, subs)
        invariant left + |log| == linkUp + |old(log)|
      {
        var identity := wanted[i];
        assert wanted[..i + 1][..i] == wanted[..i];
        if identity !in subscribed {
          if left == 0 {
            FillGrows(old(Kept()), wanted, current, subs, i + 1);
            return false, 0;
          }
          WriteSubscribe(identity, current[identity], subs);
          left := left - 1;
        }
        i := i + 1;
      }
      assert wanted[..i] == wanted;
      ok := true;
    }

    // A pass against a registry that does not change. It succeeds exactly when the socket accepts all
    // its frames; otherwise it wrote a proper prefix of them.
    method SyncSubscriptions(subs: Subs, linkUp: nat)
      returns (ok: bool, ghost active: seq<Text>, ghost wanted: seq<Text>)
      modifies this
      ensures PassFrom(old(Kept()), subs, active, wanted)
      ensures ok <==> |AfterPass(old(Kept()), subs, active, wanted).log| <= |old(log)| + linkUp
      ensures ok ==> Kept() == AfterPass(old(Kept()), subs, active, wanted)
      ensures !ok ==> |log| == |old(log)| + linkUp && log < AfterPass(old(Kept()), subs, active, wanted).log
    {
      var current := GroupSubscriptions(subs);
      var identities := ListKeys(subscribed.Keys);
      var todo := ListKeys(current.Keys);
      active, wanted := identities, todo;
      var left;
      ok, left := UnsubscribeUnwanted(subs, current, identities, linkUp);
      FillGrows(Prune(old(Kept()), active, current, subs), wanted, current, subs, 0);
      if ok {
        ok, left := SubscribeMissing(subs, current, todo, left);
      }
    }

    // acknowledgeSubscription once the answer has been attributed to a pending request. Returns the
    // handles that learn that they are subscribed.
    method AcknowledgeSubscription(key: AckKey<Text>) returns (told: Subs)
      requires key in pending
      requires Valid()
      modifies this
      ensures Valid()
      ensures Kept() == AfterAck(old(Kept()), key)
      ensures log == old(log) && pending == old(pending) - {key}
      ensures subscribed.Keys == old(subscribed).Keys
      ensures forall identity | identity in subscribed ::
          subscribed[identity] == if key == AckKey(Subscribe, identity) then old(subscribed)[identity].(acked := true)
                                  else old(subscribed)[identity]
      ensures told == if old(pending)[key].command == Subscribe && old(pending)[key].identity in subscribed
                      then subscribed[old(pending)[key].identity].members else map[]
    {
      var request := pending[key];
      pending := pending - {key};
      told := map[];
      if request.command == Subscribe && request.identity in subscribed {
        subscribed := subscribed[request.identity := subscribed[request.identity].(acked := true)];
        told := subscribed[request.identity].members;
      }
    }

    // rejectWireSubscription; `detached` is what detachSubscriptionIdentity took out of the registry.
    // Returns the handles to terminate: those, and the ones the wire was still feeding under other keys.
    method RejectWireSubscription(identity: Text, detached: Subs) returns (ended: Subs)
      requires Valid()
      modifies this
      ensures Valid()
      ensures Kept() == AfterRejection(old(Kept()), identity)
      ensures pending == old(pending) - {AckKey(Subscribe, identity)} && subscribed == old(subscribed) - {identity}
      ensures log == old(log) + [Rejected(identity)]
      ensures ended == if identity in old(subscribed) then old(subscribed)[identity].members + detached else detached
    {
      pending := pending - {AckKey(Subscribe, identity)};
      ended := detached;
      if identity in subscribed {
        ended := subscribed[identity].members + detached;
      }
      subscribed := subscribed - {identity};
      log := log + [Rejected(identity)];
    }

    // An error frame that names no request rejects every pending subscribe and nothing else.
    method RejectEveryPendingSubscribe(detached: map<Text, Subs>)
      requires Valid()
      modifies this
      ensures Valid()
      ensures forall key :: key in pending <==> key in old(pending) && key.command == Unsubscribe
      ensures forall key | key in pending :: pending[key] == old(pending)[key]
      ensures forall identity :: identity in subscribed <==>
          identity in old(subscribed) && AckKey(Subscribe, identity) !in old(pending)
      ensures forall identity | identity in subscribed :: subscribed[identity] == old(subscribed)[identity]
    {
      var identities := set key | key in pending && pending[key].command == Subscribe :: pending[key].identity;
      var rest := identities;
      while rest != {}
        invariant rest <= identities
        invariant forall key :: key in pending <==>
            key in old(pending) && (key.command == Unsubscribe || key.identity in rest)
        invariant forall key | key in pending :: pending[key] == old(pending)[key]
        invariant forall identity :: identity in subscribed <==>
            identity in old(subscribed) && (identity in identities ==> identity in rest)
        invariant forall identity | identity in subscribed :: subscribed[identity] == old(subscribed)[identity]
        decreases rest
      {
        var identity :| identity in rest;
        rest := rest - {identity};
        var ended := RejectWireSubscription(identity, if identity in detached then detached[identity] else map[]);
      }
    }
  }
}
