/** websocket/manager.go: what one connection generation records about its server subscriptions, and
    the effect of every frame, acknowledgement and rejection on that record. */
module Protocol {
  import opened Registry
  import opened Wrappers

  // Registry keys, and printed requests: the protocol only ever compares them.
  type Key(==, !new)
  type Text(==, !new)

  datatype Command = Subscribe | Unsubscribe

  datatype AckKey<T> = AckKey(command: Command, identity: T)
  datatype PendingAck<T> = PendingAck(command: Command, identity: T, wire: T)

  // A server subscription that is on the wire, with the handles it feeds.
  datatype Active<K, T> = Active(wire: T, members: Subscriptions<K, T>, acked: bool)

  // The history of a generation: the frames written, each with the registry at that instant, and the
  // server's rejections.
  datatype Event<K, T> =
    | Frame(command: Command, identity: T, wire: T, registry: Subscriptions<K, T>)
    | Rejected(identity: T)

  datatype Record<K, T> = Record(
    subscribed: map<T, Active<K, T>>,
    pending: map<AckKey<T>, PendingAck<T>>,
    log: seq<Event<K, T>>)

  // What the registry says about an identity right now.
  ghost function Now<K, T>(subs: Subscriptions<K, T>, identity: T): Option<T> {
    if identity in Identities(subs) then Some(Fingerprint(subs, identity)) else None
  }

  // A frame suits the registry: a subscribe needs that very fingerprint, an unsubscribe needs absence.
  predicate Suits<T(==)>(command: Command, wire: T, now: Option<T>) {
    if command == Subscribe then now == Some(wire) else now == None
  }

  // The registry grouped by server identity.
  ghost function Groups<K, T>(subs: Subscriptions<K, T>): map<T, Active<K, T>> {
    map identity | identity in Identities(subs) :: Active(Fingerprint(subs, identity), Members(subs, identity), false)
  }

  function AfterSubscribe<K, T(==)>(
      r: Record<K, T>, identity: T, group: Active<K, T>, registry: Subscriptions<K, T>): Record<K, T> {
    Record(
      r.subscribed[identity := group],
      r.pending[AckKey(Subscribe, identity) := PendingAck(Subscribe, identity, group.wire)],
      r.log + [Frame(Subscribe, identity, group.wire, registry)])
  }

  function AfterUnsubscribe<K, T(==)>(
      r: Record<K, T>, identity: T, wire: T, registry: Subscriptions<K, T>): Record<K, T> {
    Record(
      r.subscribed - {identity},
      (r.pending - {AckKey(Subscribe, identity)})
        [AckKey(Unsubscribe, identity) := PendingAck(Unsubscribe, identity, wire)],
      r.log + [Frame(Unsubscribe, identity, wire, registry)])
  }

  // A success answer to the pending request under `key`.
  function AfterAck<K, T(==)>(r: Record<K, T>, key: AckKey<T>): Record<K, T>
    requires key in r.pending
  {
    var request := r.pending[key];
    r.(pending := r.pending - {key},
       subscribed := if request.command == Subscribe && request.identity in r.subscribed
         then r.subscribed[request.identity := r.subscribed[request.identity].(acked := true)]
         else r.subscribed)
  }

  // rejectWireSubscription, as far as the generation's own record goes.
  function AfterRejection<K, T(==)>(r: Record<K, T>, identity: T): Record<K, T> {
    Record(
      r.subscribed - {identity},
      r.pending - {AckKey(Subscribe, identity)},
      r.log + [Rejected(identity)])
  }

  // A later pass found other handles feeding from the same subscription.
  function WithMembers<K, T(==)>(r: Record<K, T>, identity: T, members: Subscriptions<K, T>): Record<K, T>
    requires identity in r.subscribed
  {
    r.(subscribed := r.subscribed[identity := r.subscribed[identity].(members := members)])
  }

  function Forget<K, T(==)>(r: Record<K, T>, keys: set<AckKey<T>>): Record<K, T> {
    r.(pending := r.pending - keys)
  }

  // ---------- What the record keeps ----------

  // A subscribe is pending exactly while its subscription is on the wire and not acknowledged.
  ghost predicate PendingIsExact<K, T(!new)>(r: Record<K, T>) {
    forall identity ::
      AckKey(Subscribe, identity) in r.pending <==> identity in r.subscribed && !r.subscribed[identity].acked
  }

  ghost predicate KeysAreHonest<K, T>(r: Record<K, T>) {
    forall key | key in r.pending :: r.pending[key].command == key.command && r.pending[key].identity == key.identity
  }

  function LastEvent<K, T(==)>(log: seq<Event<K, T>>, identity: T): Option<Event<K, T>> {
    if log == [] then None
    else if log[|log| - 1].identity == identity then Some(log[|log| - 1])
    else LastEvent(log[..|log| - 1], identity)
  }

  function LastFrame<K, T(==)>(log: seq<Event<K, T>>, identity: T): Option<Command> {
    if log == [] then None
    else if log[|log| - 1].Frame? && log[|log| - 1].identity == identity then Some(log[|log| - 1].command)
    else LastFrame(log[..|log| - 1], identity)
  }

  predicate Subscribes<K, T>(event: Option<Event<K, T>>) {
    event.Some? && event.value.Frame? && event.value.command == Subscribe
  }

  // A subscribe never follows a subscribe of the same identity unless a rejection came in between,
  // and an unsubscribe always answers the last subscribe.
  ghost predicate Alternates<K, T>(log: seq<Event<K, T>>) {
    forall i | 0 <= i < |log| && log[i].Frame? ::
      if log[i].command == Subscribe then !Subscribes(LastEvent(log[..i], log[i].identity))
      else LastFrame(log[..i], log[i].identity) == Some(Subscribe)
  }

  // The subscribed identities are those whose last event is a subscribe frame.
  ghost predicate LogAgrees<K, T(!new)>(r: Record<K, T>) {
    && Alternates(r.log)
    && forall identity :: identity in r.subscribed <==> Subscribes(LastEvent(r.log, identity))
  }

  lemma {:induction false} SubscribedWasWritten<K, T>(log: seq<Event<K, T>>, identity: T)
    requires Subscribes(LastEvent(log, identity))
    ensures LastFrame(log, identity) == Some(Subscribe)
  {
    if log[|log| - 1].identity != identity {
      SubscribedWasWritten(log[..|log| - 1], identity);
    }
  }

  lemma Appended<K, T>(log: seq<Event<K, T>>, event: Event<K, T>)
    requires Alternates(log)
    requires event.Frame? ==>
               if event.command == Subscribe then !Subscribes(LastEvent(log, event.identity))
               else LastFrame(log, event.identity) == Some(Subscribe)
    ensures Alternates(log + [event])
    ensures (log + [event])[..|log|] == log
  {
    var after := log + [event];
    assert after[..|log|] == log;
    assert forall i | 0 <= i < |log| :: after[i] == log[i] && after[..i] == log[..i];
  }

  lemma LogAgreesAfter<K, T(!new)>(r: Record<K, T>, event: Event<K, T>, subscribed: map<T, Active<K, T>>)
    requires LogAgrees(r)
    requires event.Frame? ==>
               if event.command == Subscribe then event.identity !in r.subscribed
               else LastFrame(r.log, event.identity) == Some(Subscribe)
    requires forall identity :: identity in subscribed <==>
               if identity == event.identity then Subscribes(Some(event)) else identity in r.subscribed
    ensures LogAgrees(r.(subscribed := subscribed, log := r.log + [event]))
  {
    Appended(r.log, event);
  }

  lemma SubscribeKeeps<K, T(!new)>(r: Record<K, T>, identity: T, group: Active<K, T>, registry: Subscriptions<K, T>)
    requires LogAgrees(r) && KeysAreHonest(r) && identity !in r.subscribed && !group.acked
    ensures var after := AfterSubscribe(r, identity, group, registry);
            LogAgrees(after) && KeysAreHonest(after) && (PendingIsExact(r) ==> PendingIsExact(after))
  {
    var after := AfterSubscribe(r, identity, group, registry);
    LogAgreesAfter(r, Frame(Subscribe, identity, group.wire, registry), after.subscribed);
    assert LogAgrees(after);
  }

  lemma UnsubscribeKeeps<K, T(!new)>(r: Record<K, T>, identity: T, wire: T, registry: Subscriptions<K, T>)
    requires LogAgrees(r) && KeysAreHonest(r) && LastFrame(r.log, identity) == Some(Subscribe)
    ensures var after := AfterUnsubscribe(r, identity, wire, registry);
            LogAgrees(after) && KeysAreHonest(after) && (PendingIsExact(r) ==> PendingIsExact(after))
  {
    var after := AfterUnsubscribe(r, identity, wire, registry);
    LogAgreesAfter(r, Frame(Unsubscribe, identity, wire, registry), after.subscribed);
    assert LogAgrees(after);
  }

  lemma RejectionKeeps<K, T(!new)>(r: Record<K, T>, key: AckKey<T>)
    requires LogAgrees(r) && KeysAreHonest(r) && key in r.pending
    ensures var after := AfterRejection(Forget(r, {key}), r.pending[key].identity);
            LogAgrees(after) && KeysAreHonest(after) && (PendingIsExact(r) ==> PendingIsExact(after))
  {
    var after := AfterRejection(Forget(r, {key}), r.pending[key].identity);
    LogAgreesAfter(r, Rejected(r.pending[key].identity), after.subscribed);
    assert LogAgrees(after);
  }

  lemma MembersKeep<K, T(!new)>(r: Record<K, T>, identity: T, members: Subscriptions<K, T>)
    requires LogAgrees(r) && KeysAreHonest(r) && identity in r.subscribed
    ensures var after := WithMembers(r, identity, members);
            LogAgrees(after) && KeysAreHonest(after) && (PendingIsExact(r) ==> PendingIsExact(after))
  {}

  lemma AckKeeps<K, T(!new)>(r: Record<K, T>, key: AckKey<T>)
    requires LogAgrees(r) && KeysAreHonest(r) && key in r.pending
    ensures var after := AfterAck(r, key);
            LogAgrees(after) && KeysAreHonest(after) && (PendingIsExact(r) ==> PendingIsExact(after))
  {}

  function FramesOf<K, T(==)>(log: seq<Event<K, T>>, identity: T): seq<Command> {
    if log == [] then []
    else
      var last := log[|log| - 1];
      FramesOf(log[..|log| - 1], identity) + if last.Frame? && last.identity == identity then [last.command] else []
  }

  lemma FramesAppended<K, T>(log: seq<Event<K, T>>, event: Event<K, T>, identity: T)
    ensures FramesOf(log + [event], identity) ==
            FramesOf(log, identity) + if event.Frame? && event.identity == identity then [event.command] else []
  {
    assert (log + [event])[..|log|] == log;
  }

  lemma {:induction false} LastOfFrames<K, T>(log: seq<Event<K, T>>, identity: T)
    ensures LastFrame(log, identity) ==
            if FramesOf(log, identity) == [] then None else Some(FramesOf(log, identity)[|FramesOf(log, identity)| - 1])
  {
    if log != [] {
      LastOfFrames(log[..|log| - 1], identity);
    }
  }

  lemma {:induction false} LastEventIsAFrame<K, T>(log: seq<Event<K, T>>, identity: T)
    requires forall i | 0 <= i < |log| && log[i].Rejected? :: log[i].identity != identity
    ensures Subscribes(LastEvent(log, identity)) <==> LastFrame(log, identity) == Some(Subscribe)
  {
    if log != [] {
      LastEventIsAFrame(log[..|log| - 1], identity);
    }
  }

  // Without rejections the frames of an identity strictly alternate, starting with a subscribe.
  lemma {:induction false} StrictAlternation<K, T>(log: seq<Event<K, T>>, identity: T)
    requires Alternates(log)
    requires forall i | 0 <= i < |log| && log[i].Rejected? :: log[i].identity != identity
    ensures forall i | 0 <= i < |FramesOf(log, identity)| ::
              FramesOf(log, identity)[i] == if i % 2 == 0 then Subscribe else Unsubscribe
  {
    if log != [] {
      var init := log[..|log| - 1];
      assert Alternates(init) by {
        assert forall i | 0 <= i < |init| :: init[i] == log[i] && init[..i] == log[..i];
      }
      StrictAlternation(init, identity);
      LastOfFrames(init, identity);
      LastEventIsAFrame(init, identity);
      assert log[|log| - 1].Frame? ==> log[..|log| - 1] == init;
    }
  }

  // pendingAckKey joins method and identity with a colon; no two pending requests can collide on it.
  function PendingAckKey(command: Command, identity: string): string {
    (if command == Subscribe then "subscribe" else "unsubscribe") + ":" + identity
  }

  lemma PendingAckKeyInjective(a: Command, b: Command, i: string, j: string)
    requires PendingAckKey(a, i) == PendingAckKey(b, j)
    ensures a == b && i == j
  {
    assert PendingAckKey(a, i)[0] == PendingAckKey(b, j)[0];
    var n := if a == Subscribe then 10 else 12;
    assert PendingAckKey(a, i)[n..] == i && PendingAckKey(b, j)[n..] == j;
  }
}
