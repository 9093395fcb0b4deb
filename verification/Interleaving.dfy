/** websocket/manager.go: one connection generation as a state machine. Any number of goroutines
    register and close handles, one synchronizer turns the registry into frames, and the serve loop
    consumes wakes, results, acknowledgements and errors; every step below is one critical section. */
module Interleaving {
  import opened Protocol
  import opened Registry
  import opened Wrappers

  // Who holds commitMu. `Changing` is a goroutine that has changed the registry and has not yet
  // invalidated admissions and raised the wake; `now` is the fingerprint it is about to publish.
  datatype Commit = Free | Changing(identity: Text, now: Option<Text>) | Notifying | Writing

  // Where writeJSON is: chosen, entered in `admissions`, rechecked and waiting for the rate limiter,
  // admitted, holding the locks, past the final checks.
  datatype Stage = Chosen | Entered | Waiting | Admitted | Locked | Checked

  datatype Work =
    | NoWork
    | Write(command: Command, identity: Text, group: Active<Key, Text>, token: nat, stage: Stage)

  // The synchronizer goroutine, as serve sees it and as it advances.
  datatype Phase = Stopped | Launched | Grouped | Passing | Finished(ok: bool)

  // What a pass works from. History: the registry it saw, what was on the wire at that moment, and how many
  // events had been recorded; the code keeps `current` only.
  datatype Plan = Plan(
    snap: Subscriptions<Key, Text>,
    before: set<Text>,
    mark: nat,
    current: map<Text, Active<Key, Text>>,
    removals: set<Text>,
    additions: set<Text>)

  datatype WireAdmission = WireAdmission(token: nat, command: Command, fingerprint: Text)

  datatype State = State(
    subs: Subscriptions<Key, Text>,
    commit: Commit,
    admissions: map<Text, WireAdmission>,
    nextToken: nat,
    stale: set<nat>,
    wake: bool,
    phase: Phase,
    plan: Plan,
    work: Work,
    syncAgain: bool,
    returning: bool,
    expired: bool,
    record: Record<Key, Text>)

  ghost predicate Init(s: State) {
    && s.commit != Writing
    && (s.commit.Changing? ==> s.commit.now == Now(s.subs, s.commit.identity))
    && s.admissions == map[] && s.stale == {}
    && s.phase == Launched && s.work == NoWork && !s.syncAgain && !s.returning && !s.expired
    && s.record == Record(map[], map[], [])
  }

  predicate Busy(s: State) {
    s.work.Write?
  }

  predicate At(s: State, stage: Stage) {
    Busy(s) && s.work.stage == stage
  }

  function Staged(s: State, stage: Stage): Work
    requires Busy(s)
  {
    Write(s.work.command, s.work.identity, s.work.group, s.work.token, stage)
  }

  // writeJSON returns: its admission entry goes, unless a newer one took its place, and so do its locks.
  function Leave(s: State, phase: Phase, record: Record<Key, Text>): State
    requires Busy(s)
  {
    s.(admissions := if s.work.identity in s.admissions && s.admissions[s.work.identity].token == s.work.token
                     then s.admissions - {s.work.identity} else s.admissions,
       commit := if s.commit.Writing? then Free else s.commit,
       work := NoWork,
       phase := phase,
       record := record)
  }

  // The frame is given up because the registry no longer wants it; the pass goes on.
  function Skip(s: State): State
    requires Busy(s)
  {
    Leave(s, s.phase, s.record)
  }

  // The write failed or the generation was cancelled; the pass ends.
  function Fail(s: State): State
    requires Busy(s)
  {
    Leave(s, Finished(false), s.record)
  }

  // ---------- Registry changes, under commitMu ----------

  // subscribeStream publishes a new handle.
  ghost predicate Register(s: State, key: Key, handle: Handle<Text>, t: State) {
    && s.commit.Free? && key !in s.subs
    && t == s.(subs := s.subs[key := handle],
        commit := Changing(handle.identity, Now(s.subs[key := handle], handle.identity)))
  }

  // remove takes a handle out; when the key has moved on it only raises the wake.
  ghost predicate Unregister(s: State, key: Key, handle: Handle<Text>, t: State) {
    && s.commit.Free?
    && if key in s.subs && s.subs[key] == handle
       then t == s.(subs := s.subs - {key}, commit := Changing(handle.identity, Now(s.subs - {key}, handle.identity)))
       else t == s.(commit := Notifying)
  }

  // registryChangedLocked: an admission that no longer suits goes stale, the wake is raised.
  ghost predicate Publish(s: State, t: State) {
    && (s.commit.Changing? || s.commit.Notifying?)
    && if s.commit.Changing? && s.commit.identity in s.admissions
          && !Suits(s.admissions[s.commit.identity].command, s.admissions[s.commit.identity].fingerprint, s.commit.now)
       then t == s.(stale := s.stale + {s.admissions[s.commit.identity].token}, wake := true, commit := Free)
       else t == s.(wake := true, commit := Free)
  }

  // ---------- The serve loop ----------

  ghost predicate ConsumeWake(s: State, t: State) {
    && !s.returning && s.wake
    && if s.phase.Stopped? then t == s.(wake := false, phase := Launched, syncAgain := false)
       else t == s.(wake := false, syncAgain := true)
  }

  ghost predicate ConsumeResult(s: State, t: State) {
    && !s.returning && s.phase.Finished?
    && if !s.phase.ok then t == s.(phase := Stopped, returning := true)
       else if s.syncAgain then t == s.(phase := Launched, syncAgain := false)
       else t == s.(phase := Stopped)
  }

  // Shutdown, a read or heartbeat error, or nothing left to serve.
  ghost predicate Return(s: State, t: State) {
    t == s.(returning := true)
  }

  // ---------- syncSubscriptions ----------

  ghost predicate TakeSnapshot(s: State, t: State) {
    && s.phase.Launched?
    && t == s.(phase := Grouped, plan := Plan(s.subs, s.record.subscribed.Keys, |s.record.log|, Groups(s.subs), {}, {}))
  }

  ghost predicate ListActive(s: State, t: State) {
    && s.phase.Grouped? && s.commit != Writing
    && t == s.(phase := Passing,
               plan := s.plan.(removals := s.record.subscribed.Keys, additions := s.plan.current.Keys))
  }

  // First loop: an active identity nobody wants any more is to be unsubscribed; a wanted one only
  // changes the handles it feeds.
  ghost predicate PickRemoval(s: State, identity: Text, t: State) {
    && s.phase.Passing? && s.work.NoWork? && identity in s.plan.removals
    && var rest := s.plan.(removals := s.plan.removals - {identity});
       if identity !in s.record.subscribed then t == s.(plan := rest)
       else if identity in s.plan.current then
         t == s.(plan := rest, record := WithMembers(s.record, identity, s.plan.current[identity].members))
       else t == s.(plan := rest, work := Write(Unsubscribe, identity, s.record.subscribed[identity], 0, Chosen))
  }

  // Second loop: a wanted identity that is not active is to be subscribed.
  ghost predicate PickAddition(s: State, identity: Text, t: State) {
    && s.phase.Passing? && s.work.NoWork? && s.plan.removals == {}
    && identity in s.plan.additions && identity in s.plan.current
    && var rest := s.plan.(additions := s.plan.additions - {identity});
       if identity in s.record.subscribed then t == s.(plan := rest)
       else t == s.(plan := rest, work := Write(Subscribe, identity, s.plan.current[identity], 0, Chosen))
  }

  ghost predicate EndPass(s: State, t: State) {
    && s.phase.Passing? && s.work.NoWork? && s.plan.removals == {} && s.plan.additions == {}
    && t == s.(phase := Finished(true))
  }

  // ---------- writeJSON ----------

  // registerWireAdmission enters the table first ...
  ghost predicate EnterAdmission(s: State, t: State) {
    && At(s, Chosen)
    && t == s.(admissions :=
                 s.admissions[s.work.identity := WireAdmission(s.nextToken, s.work.command, s.work.group.wire)],
               nextToken := s.nextToken + 1,
               work := Write(s.work.command, s.work.identity, s.work.group, s.nextToken, Entered))
  }

  // ... and looks at the registry afterwards.
  ghost predicate RecheckAdmission(s: State, t: State) {
    && At(s, Entered)
    && if Suits(s.work.command, s.work.group.wire, Now(s.subs, s.work.identity))
       then t == s.(work := Staged(s, Waiting))
       else t == s.(work := Staged(s, Waiting), stale := s.stale + {s.work.token})
  }

  // The message limiter admits the frame; the presence test right after it may still drop it.
  ghost predicate WaitSucceeds(s: State, t: State) {
    && At(s, Waiting)
    && if (s.work.command == Subscribe) == (s.work.identity in Identities(s.subs))
       then t == s.(work := Staged(s, Admitted))
       else t == Skip(s)
  }

  // The wait is cancelled, by staleness or because the generation is; the first cause counts.
  ghost predicate WaitFails(s: State, t: State) {
    && At(s, Waiting)
    && (|| (s.work.token in s.stale && t == Skip(s))
        || ((s.work.token !in s.stale || s.returning) && t == Fail(s)))
  }

  ghost predicate TakeLocks(s: State, t: State) {
    At(s, Admitted) && s.commit.Free? && t == s.(work := Staged(s, Locked), commit := Writing)
  }

  ghost predicate FinalCheck(s: State, t: State) {
    && At(s, Locked)
    && if s.work.token !in s.stale && Suits(s.work.command, s.work.group.wire, Now(s.subs, s.work.identity))
       then t == s.(work := Staged(s, Checked))
       else t == Skip(s)
  }

  ghost predicate Send(s: State, t: State) {
    && At(s, Checked)
    && if s.work.command == Subscribe
       then t == Leave(s, s.phase, AfterSubscribe(s.record, s.work.identity, s.work.group, s.subs))
       else t == Leave(s, s.phase, AfterUnsubscribe(s.record, s.work.identity, s.work.group.wire, s.subs))
  }

  // The write fails; or the generation was cancelled first, while the locks were being taken.
  ghost predicate SendFails(s: State, t: State) {
    && (At(s, Checked) || (At(s, Locked) && (s.work.token !in s.stale || s.returning)))
    && t == Fail(s)
  }

  // ---------- dispatch, under protocolMu (which a writer holds together with commitMu) ----------

  ghost predicate Acknowledge(s: State, ack: AckKey<Text>, t: State) {
    && !s.returning && s.commit != Writing && ack in s.record.pending
    && t == s.(record := AfterAck(s.record, ack))
  }

  // An error answer, or an error frame attributed to a pending request: the identity is detached. The record is
  // changed a little before the registry, but nobody else looks at it before protocolMu is free again.
  ghost predicate Reject(s: State, ack: AckKey<Text>, t: State) {
    && !s.returning && s.commit.Free? && ack in s.record.pending
    && var identity := s.record.pending[ack].identity;
       var record := AfterRejection(Forget(s.record, {ack}), identity);
       if identity in Identities(s.subs)
       then t == s.(record := record, subs := s.subs - MemberKeys(s.subs, identity), commit := Changing(identity, None))
       else t == s.(record := record)
  }

  // An error frame attributed to a pending unsubscribe only forgets that request.
  ghost predicate DropUnsubscribe(s: State, ack: AckKey<Text>, t: State) {
    && !s.returning && s.commit != Writing && ack in s.record.pending && ack.command == Unsubscribe
    && t == s.(record := Forget(s.record, {ack}))
  }

  // failExpiredAcknowledgement, after which serve gives the connection up.
  ghost predicate Expire(s: State, acks: set<AckKey<Text>>, t: State) {
    && !s.returning && s.commit != Writing
    && t == s.(record := Forget(s.record, acks), expired := true, returning := true)
  }

  // Subscribers, closers, and the serve loop that consumes their wakes.
  ghost predicate ClientNext(s: State, t: State) {
    || (exists key, handle :: Register(s, key, handle, t))
    || (exists key, handle :: Unregister(s, key, handle, t))
    || Publish(s, t) || ConsumeWake(s, t) || ConsumeResult(s, t) || Return(s, t)
  }

  // The synchronizer goroutine.
  ghost predicate SyncNext(s: State, t: State) {
    || TakeSnapshot(s, t) || ListActive(s, t) || EndPass(s, t)
    || (exists identity :: PickRemoval(s, identity, t))
    || (exists identity :: PickAddition(s, identity, t))
    || EnterAdmission(s, t) || RecheckAdmission(s, t) || WaitSucceeds(s, t) || WaitFails(s, t)
    || TakeLocks(s, t) || FinalCheck(s, t) || Send(s, t) || SendFails(s, t)
  }

  // The server's answers, and their absence.
  ghost predicate ServerNext(s: State, t: State) {
    || (exists ack :: Acknowledge(s, ack, t))
    || (exists ack :: Reject(s, ack, t))
    || (exists ack :: DropUnsubscribe(s, ack, t))
    || (exists acks :: Expire(s, acks, t))
  }

  ghost predicate Next(s: State, t: State) {
    ClientNext(s, t) || SyncNext(s, t) || ServerNext(s, t)
  }

  // ---------- Invariants ----------

  // Whoever is past the final checks holds commitMu, so the registry still suits its frame.
  ghost predicate LocksKept(s: State) {
    && (s.commit.Writing? <==> At(s, Locked) || At(s, Checked))
    && (Busy(s) ==> s.phase.Passing?)
    && (s.commit.Changing? ==> s.commit.now == Now(s.subs, s.commit.identity))
    && (At(s, Checked) ==> Suits(s.work.command, s.work.group.wire, Now(s.subs, s.work.identity)))
  }

  // Nothing has happened since the running pass took its snapshot that serve does not already know about.
  predicate Quiet(s: State) {
    !s.wake && !s.syncAgain && !s.commit.Changing? && !s.returning
  }

  // Tokens are given out once: an admission that carries the token of the frame being written is that frame's own.
  ghost predicate TokensFresh(s: State) {
    && (forall token | token in s.stale :: token < s.nextToken)
    && (forall identity | identity in s.admissions :: s.admissions[identity].token < s.nextToken)
    && (Busy(s) && s.work.stage != Chosen ==> s.work.token < s.nextToken)
    && (Busy(s) && s.work.stage != Chosen ==>
          forall identity | identity in s.admissions && s.admissions[identity].token == s.work.token ::
            && identity == s.work.identity
            && s.admissions[identity] == WireAdmission(s.work.token, s.work.command, s.work.group.wire))
  }

  // A pass works on the groups of its snapshot; while all is quiet that snapshot is still the registry,
  // and no admission of the pass has gone stale.
  ghost predicate SnapshotHolds(s: State) {
    && (s.phase.Grouped? || s.phase.Passing? ==>
          && s.plan.current.Keys == Identities(s.plan.snap)
          && (forall identity | identity in s.plan.current ::
              s.plan.current[identity].wire == Fingerprint(s.plan.snap, identity))
          && (Quiet(s) ==> s.subs == s.plan.snap))
    && (Busy(s) ==>
          if s.work.command == Subscribe
          then s.work.identity in s.plan.current && s.work.group.wire == s.plan.current[s.work.identity].wire
              && s.plan.removals == {}
          else s.work.identity !in s.plan.current)
    && (Busy(s) && s.work.stage != Chosen && s.work.token in s.stale ==> !Quiet(s))
  }

  ghost predicate InDate(s: State) {
    s.record.subscribed.Keys == Identities(s.subs)
  }

  predicate BusyWith(s: State, command: Command, identity: Text) {
    Busy(s) && s.work.command == command && s.work.identity == identity
  }

  // What a quiet pass still has to do is exactly what is out of date.
  ghost predicate NothingMissed(s: State) {
    && (s.phase.Stopped? && !s.returning ==> !s.syncAgain)
    && (Quiet(s) && (s.phase.Stopped? || s.phase == Finished(true)) ==> InDate(s))
    && (Quiet(s) && s.phase.Passing? ==>
          && (forall identity | identity in s.record.subscribed ::
                identity in s.plan.current || identity in s.plan.removals || BusyWith(s, Unsubscribe, identity))
          && (forall identity | identity in s.plan.current ::
                identity in s.record.subscribed || identity in s.plan.additions || BusyWith(s, Subscribe, identity)))
    && (s.phase.Passing? ==> s.plan.additions <= s.plan.current.Keys)
  }

  ghost predicate RecordKept(s: State) {
    && KeysAreHonest(s.record)
    && LogAgrees(s.record)
    && (!s.expired ==> PendingIsExact(s.record))
    && (s.expired ==> s.returning)
    && (s.phase.Grouped? || s.phase.Passing? ==> forall identity | identity in s.plan.current ::
        !s.plan.current[identity].acked)
    && (Busy(s) && s.work.command == Subscribe ==> s.work.identity !in s.record.subscribed && !s.work.group.acked)
    && (Busy(s) && s.work.command == Unsubscribe ==> LastFrame(s.record.log, s.work.identity) == Some(Subscribe))
  }

  // Every frame suited the registry it was written against.
  ghost predicate FramesSuited(log: seq<Event<Key, Text>>) {
    forall i | 0 <= i < |log| && log[i].Frame? ::
      Suits(log[i].command, log[i].wire, Now(log[i].registry, log[i].identity))
  }

  ghost predicate Inv(s: State) {
    LocksKept(s) && TokensFresh(s) && SnapshotHolds(s)
    && NothingMissed(s) && RecordKept(s) && FramesSuited(s.record.log)
  }

  // What a step may add to the history: nothing, a rejection, or a frame that suits the registry of
  // that very instant.
  ghost predicate WritesOnlyWhatSuits(s: State, t: State) {
    || t.record.log == s.record.log
    || (&& |t.record.log| == |s.record.log| + 1
        && t.record.log[..|s.record.log|] == s.record.log
        && var event := t.record.log[|s.record.log|];
           event.Frame? ==>
             && event.registry == s.subs
             && (event.command == Subscribe ==>
                   event.identity in Identities(s.subs) && Fingerprint(s.subs, event.identity) == event.wire)
             && (event.command == Unsubscribe ==> event.identity !in Identities(s.subs)))
  }

  // ---------- Every step keeps the invariants ----------

  lemma SkipKeeps(s: State)
    requires Inv(s) && Busy(s)
    requires !Quiet(s)
    ensures Inv(Skip(s))
  {}

  // A failed pass promises nothing until serve has seen it fail.
  lemma FailKeeps(s: State)
    requires Inv(s) && Busy(s)
    ensures Inv(Fail(s))
  {}

  lemma RegisterKeeps(s: State, key: Key, handle: Handle<Text>, t: State)
    requires Inv(s) && Register(s, key, handle, t)
    ensures Inv(t) && WritesOnlyWhatSuits(s, t)
  {
  }

  lemma UnregisterKeeps(s: State, key: Key, handle: Handle<Text>, t: State)
    requires Inv(s) && Unregister(s, key, handle, t)
    ensures Inv(t) && WritesOnlyWhatSuits(s, t)
  {
  }

  lemma PublishKeeps(s: State, t: State)
    requires Inv(s) && Publish(s, t)
    ensures Inv(t) && WritesOnlyWhatSuits(s, t)
  {
  }

  lemma ConsumeWakeKeeps(s: State, t: State)
    requires Inv(s) && ConsumeWake(s, t)
    ensures Inv(t) && WritesOnlyWhatSuits(s, t)
  {
  }

  lemma ConsumeResultKeeps(s: State, t: State)
    requires Inv(s) && ConsumeResult(s, t)
    ensures Inv(t) && WritesOnlyWhatSuits(s, t)
  {
  }

  lemma ReturnKeeps(s: State, t: State)
    requires Inv(s) && Return(s, t)
    ensures Inv(t) && WritesOnlyWhatSuits(s, t)
  {
  }

  lemma TakeSnapshotKeeps(s: State, t: State)
    requires Inv(s) && TakeSnapshot(s, t)
    ensures Inv(t) && WritesOnlyWhatSuits(s, t)
  {
  }

  lemma ListActiveKeeps(s: State, t: State)
    requires Inv(s) && ListActive(s, t)
    ensures Inv(t) && WritesOnlyWhatSuits(s, t)
  {
  }

  lemma EndPassKeeps(s: State, t: State)
    requires Inv(s) && EndPass(s, t)
    ensures Inv(t) && WritesOnlyWhatSuits(s, t)
  {
  }

  lemma FedByOthersKeeps(s: State, identity: Text, t: State)
    requires Inv(s) && s.phase.Passing? && s.work.NoWork?
             && identity in s.record.subscribed && identity in s.plan.current
    requires t == s.(plan := s.plan.(removals := s.plan.removals - {identity}),
                     record := WithMembers(s.record, identity, s.plan.current[identity].members))
    ensures Inv(t) && WritesOnlyWhatSuits(s, t)
  {
    MembersKeep(s.record, identity, s.plan.current[identity].members);
  }

  lemma ChosenForUnsubscribeKeeps(s: State, identity: Text, t: State)
    requires Inv(s) && s.phase.Passing? && s.work.NoWork?
             && identity in s.record.subscribed && identity !in s.plan.current
    requires t == s.(plan := s.plan.(removals := s.plan.removals - {identity}),
                     work := Write(Unsubscribe, identity, s.record.subscribed[identity], 0, Chosen))
    ensures Inv(t) && WritesOnlyWhatSuits(s, t)
  {
    SubscribedWasWritten(s.record.log, identity);
  }

  lemma PickRemovalKeeps(s: State, identity: Text, t: State)
    requires Inv(s) && PickRemoval(s, identity, t)
    ensures Inv(t) && WritesOnlyWhatSuits(s, t)
  {
    if identity in s.record.subscribed {
      if identity in s.plan.current {
        FedByOthersKeeps(s, identity, t);
      } else {
        ChosenForUnsubscribeKeeps(s, identity, t);
      }
    }
  }

  lemma ChosenForSubscribeKeeps(s: State, identity: Text, t: State)
    requires Inv(s) && s.phase.Passing? && s.work.NoWork? && s.plan.removals == {}
    requires identity in s.plan.additions && identity in s.plan.current && identity !in s.record.subscribed
    requires t == s.(plan := s.plan.(additions := s.plan.additions - {identity}),
                     work := Write(Subscribe, identity, s.plan.current[identity], 0, Chosen))
    ensures Inv(t) && WritesOnlyWhatSuits(s, t)
  {}

  lemma PickAdditionKeeps(s: State, identity: Text, t: State)
    requires Inv(s) && PickAddition(s, identity, t)
    ensures Inv(t) && WritesOnlyWhatSuits(s, t)
  {
    if identity !in s.record.subscribed {
      ChosenForSubscribeKeeps(s, identity, t);
    }
  }

  lemma EnterAdmissionKeeps(s: State, t: State)
    requires Inv(s) && EnterAdmission(s, t)
    ensures Inv(t) && WritesOnlyWhatSuits(s, t)
  {
  }

  // The registry no longer suits the frame, so it has changed since the snapshot.
  lemma StaleAtOnceKeeps(s: State, t: State)
    requires Inv(s) && At(s, Entered) && !Suits(s.work.command, s.work.group.wire, Now(s.subs, s.work.identity))
    requires t == s.(work := Staged(s, Waiting), stale := s.stale + {s.work.token})
    ensures Inv(t) && WritesOnlyWhatSuits(s, t)
  {}

  lemma RecheckAdmissionKeeps(s: State, t: State)
    requires Inv(s) && RecheckAdmission(s, t)
    ensures Inv(t) && WritesOnlyWhatSuits(s, t)
  {
    if !Suits(s.work.command, s.work.group.wire, Now(s.subs, s.work.identity)) {
      StaleAtOnceKeeps(s, t);
    }
  }

  lemma WaitSucceedsKeeps(s: State, t: State)
    requires Inv(s) && WaitSucceeds(s, t)
    ensures Inv(t) && WritesOnlyWhatSuits(s, t)
  {
    if !Quiet(s) {
      SkipKeeps(s);
    }
  }

  lemma WaitFailsKeeps(s: State, t: State)
    requires Inv(s) && WaitFails(s, t)
    ensures Inv(t) && WritesOnlyWhatSuits(s, t)
  {
    FailKeeps(s);
    if s.work.token in s.stale {
      SkipKeeps(s);
    }
  }

  lemma TakeLocksKeeps(s: State, t: State)
    requires Inv(s) && TakeLocks(s, t)
    ensures Inv(t) && WritesOnlyWhatSuits(s, t)
  {
  }

  lemma FinalCheckKeeps(s: State, t: State)
    requires Inv(s) && FinalCheck(s, t)
    ensures Inv(t) && WritesOnlyWhatSuits(s, t)
  {
    if !Quiet(s) {
      SkipKeeps(s);
    }
  }

  lemma SendSubscribeKeeps(s: State, t: State)
    requires Inv(s) && At(s, Checked) && s.work.command == Subscribe
    requires t == Leave(s, s.phase, AfterSubscribe(s.record, s.work.identity, s.work.group, s.subs))
    ensures Inv(t) && WritesOnlyWhatSuits(s, t)
  {
    SubscribeKeeps(s.record, s.work.identity, s.work.group, s.subs);
  }

  lemma SendUnsubscribeKeeps(s: State, t: State)
    requires Inv(s) && At(s, Checked) && s.work.command == Unsubscribe
    requires t == Leave(s, s.phase, AfterUnsubscribe(s.record, s.work.identity, s.work.group.wire, s.subs))
    ensures Inv(t) && WritesOnlyWhatSuits(s, t)
  {
    UnsubscribeKeeps(s.record, s.work.identity, s.work.group.wire, s.subs);
  }

  lemma SendKeeps(s: State, t: State)
    requires Inv(s) && Send(s, t)
    ensures Inv(t) && WritesOnlyWhatSuits(s, t)
  {
    if s.work.command == Subscribe {
      SendSubscribeKeeps(s, t);
    } else {
      SendUnsubscribeKeeps(s, t);
    }
  }

  lemma SendFailsKeeps(s: State, t: State)
    requires Inv(s) && SendFails(s, t)
    ensures Inv(t) && WritesOnlyWhatSuits(s, t)
  {
    FailKeeps(s);
  }

  lemma AcknowledgeKeeps(s: State, ack: AckKey<Text>, t: State)
    requires Inv(s) && Acknowledge(s, ack, t)
    ensures Inv(t) && WritesOnlyWhatSuits(s, t)
  {
    AckKeeps(s.record, ack);
  }

  lemma DetachKeeps(s: State, ack: AckKey<Text>, t: State)
    requires Inv(s) && Reject(s, ack, t) && s.record.pending[ack].identity in Identities(s.subs)
    ensures Inv(t) && WritesOnlyWhatSuits(s, t)
  {
    RejectionKeeps(s.record, ack);
    DetachedIdentities(s.subs, s.record.pending[ack].identity);
  }

  lemma ForgetRejectedKeeps(s: State, ack: AckKey<Text>, t: State)
    requires Inv(s) && Reject(s, ack, t) && s.record.pending[ack].identity !in Identities(s.subs)
    ensures Inv(t) && WritesOnlyWhatSuits(s, t)
  {
    RejectionKeeps(s.record, ack);
  }

  lemma RejectKeeps(s: State, ack: AckKey<Text>, t: State)
    requires Inv(s) && Reject(s, ack, t)
    ensures Inv(t) && WritesOnlyWhatSuits(s, t)
  {
    if s.record.pending[ack].identity in Identities(s.subs) {
      DetachKeeps(s, ack, t);
    } else {
      ForgetRejectedKeeps(s, ack, t);
    }
  }

  lemma DropUnsubscribeKeeps(s: State, ack: AckKey<Text>, t: State)
    requires Inv(s) && DropUnsubscribe(s, ack, t)
    ensures Inv(t) && WritesOnlyWhatSuits(s, t)
  {
  }

  lemma ExpireKeeps(s: State, acks: set<AckKey<Text>>, t: State)
    requires Inv(s) && Expire(s, acks, t)
    ensures Inv(t) && WritesOnlyWhatSuits(s, t)
  {
  }

  lemma ClientNextKeeps(s: State, t: State)
    requires Inv(s) && ClientNext(s, t)
    ensures Inv(t) && WritesOnlyWhatSuits(s, t)
  {
    if key, handle :| Register(s, key, handle, t) {
      RegisterKeeps(s, key, handle, t);
    }
    if key, handle :| Unregister(s, key, handle, t) {
      UnregisterKeeps(s, key, handle, t);
    }
    if Publish(s, t) { PublishKeeps(s, t); }
    if ConsumeWake(s, t) { ConsumeWakeKeeps(s, t); }
    if ConsumeResult(s, t) { ConsumeResultKeeps(s, t); }
    if Return(s, t) { ReturnKeeps(s, t); }
  }

  lemma SyncNextKeeps(s: State, t: State)
    requires Inv(s) && SyncNext(s, t)
    ensures Inv(t) && WritesOnlyWhatSuits(s, t)
  {
    if TakeSnapshot(s, t) { TakeSnapshotKeeps(s, t); }
    if ListActive(s, t) { ListActiveKeeps(s, t); }
    if EndPass(s, t) { EndPassKeeps(s, t); }
    if EnterAdmission(s, t) { EnterAdmissionKeeps(s, t); }
    if RecheckAdmission(s, t) { RecheckAdmissionKeeps(s, t); }
    if WaitSucceeds(s, t) { WaitSucceedsKeeps(s, t); }
    if WaitFails(s, t) { WaitFailsKeeps(s, t); }
    if TakeLocks(s, t) { TakeLocksKeeps(s, t); }
    if FinalCheck(s, t) { FinalCheckKeeps(s, t); }
    if Send(s, t) { SendKeeps(s, t); }
    if SendFails(s, t) { SendFailsKeeps(s, t); }
    if identity :| PickRemoval(s, identity, t) {
      PickRemovalKeeps(s, identity, t);
    }
    if identity :| PickAddition(s, identity, t) {
      PickAdditionKeeps(s, identity, t);
    }
  }

  lemma ServerNextKeeps(s: State, t: State)
    requires Inv(s) && ServerNext(s, t)
    ensures Inv(t) && WritesOnlyWhatSuits(s, t)
  {
    if ack :| Acknowledge(s, ack, t) {
      AcknowledgeKeeps(s, ack, t);
    }
    if ack :| Reject(s, ack, t) {
      RejectKeeps(s, ack, t);
    }
    if ack :| DropUnsubscribe(s, ack, t) {
      DropUnsubscribeKeeps(s, ack, t);
    }
    if acks :| Expire(s, acks, t) {
      ExpireKeeps(s, acks, t);
    }
  }

  lemma NextKeeps(s: State, t: State)
    requires Inv(s) && Next(s, t)
    ensures Inv(t) && WritesOnlyWhatSuits(s, t)
  {
    if ClientNext(s, t) { ClientNextKeeps(s, t); }
    if SyncNext(s, t) { SyncNextKeeps(s, t); }
    if ServerNext(s, t) { ServerNextKeeps(s, t); }
  }

  // ---------- Who leaves what alone ----------

  ghost predicate LeavesThePass(s: State, t: State) {
    t.plan == s.plan && t.work == s.work
  }

  lemma RegistryChangesLeave(s: State, t: State)
    requires (exists key, handle :: Register(s, key, handle, t))
             || (exists key, handle :: Unregister(s, key, handle, t))
    ensures LeavesThePass(s, t) && t.record == s.record && t.phase == s.phase
  {}

  lemma PublishLeaves(s: State, t: State)
    requires Publish(s, t)
    ensures LeavesThePass(s, t) && t.record == s.record && t.phase == s.phase
  {}

  lemma ServeLeaves(s: State, t: State)
    requires ConsumeWake(s, t) || ConsumeResult(s, t) || Return(s, t)
    ensures LeavesThePass(s, t) && t.record == s.record
    ensures t.phase == s.phase
            || ((s.phase.Stopped? || s.phase.Finished?) && (t.phase.Stopped? || t.phase.Launched?))
  {}

  // Subscribers, closers and serve write nothing, and only serve takes notice of a pass that is over.
  lemma ClientLeaves(s: State, t: State)
    requires ClientNext(s, t)
    ensures LeavesThePass(s, t) && t.record == s.record
    ensures t.phase == s.phase
            || ((s.phase.Stopped? || s.phase.Finished?) && (t.phase.Stopped? || t.phase.Launched?))
  {
    if Publish(s, t) {
      PublishLeaves(s, t);
    } else if ConsumeWake(s, t) || ConsumeResult(s, t) || Return(s, t) {
      ServeLeaves(s, t);
    } else {
      RegistryChangesLeave(s, t);
    }
  }

  lemma RejectionLeaves(s: State, ack: AckKey<Text>, t: State)
    requires Reject(s, ack, t)
    ensures LeavesThePass(s, t) && t.phase == s.phase
    ensures t.record.log == s.record.log + [Rejected(s.record.pending[ack].identity)]
  {}

  lemma AnswersLeave(s: State, t: State)
    requires (exists ack :: Acknowledge(s, ack, t)) || (exists ack :: DropUnsubscribe(s, ack, t))
             || (exists acks :: Expire(s, acks, t))
    ensures LeavesThePass(s, t) && t.phase == s.phase && t.record.log == s.record.log
  {}

  // Nor do the server's answers touch the synchronizer.
  lemma ServerLeaves(s: State, t: State)
    requires ServerNext(s, t)
    ensures LeavesThePass(s, t) && t.phase == s.phase
  {
    if ack :| Reject(s, ack, t) {
      RejectionLeaves(s, ack, t);
    } else {
      AnswersLeave(s, t);
    }
  }

  // An answer settles the request it is attributed to, and a rejection takes the identity off the wire as well.
  lemma AnswersSettleOneRequest(s: State, ack: AckKey<Text>, t: State)
    ensures Acknowledge(s, ack, t) || DropUnsubscribe(s, ack, t) ==>
              && ack in s.record.pending && t.record.pending == s.record.pending - {ack}
              && t.record.subscribed.Keys == s.record.subscribed.Keys
    ensures Reject(s, ack, t) ==>
              && ack in s.record.pending
              && var identity := s.record.pending[ack].identity;
                 && t.record.pending == s.record.pending - {ack, AckKey(Subscribe, identity)}
                 && t.record.subscribed == s.record.subscribed - {identity}
                 && identity !in Identities(t.subs)
  {
    if Acknowledge(s, ack, t) || DropUnsubscribe(s, ack, t) {
      SuccessSettles(s, ack, t);
    }
    if Reject(s, ack, t) {
      RejectionSettles(s, ack, t);
    }
  }

  lemma SuccessSettles(s: State, ack: AckKey<Text>, t: State)
    requires Acknowledge(s, ack, t) || DropUnsubscribe(s, ack, t)
    ensures t.record.pending == s.record.pending - {ack} && t.record.subscribed.Keys == s.record.subscribed.Keys
  {}

  lemma RejectionSettles(s: State, ack: AckKey<Text>, t: State)
    requires Reject(s, ack, t)
    ensures var identity := s.record.pending[ack].identity;
            && t.record.pending == s.record.pending - {ack, AckKey(Subscribe, identity)}
            && t.record.subscribed == s.record.subscribed - {identity} && identity !in Identities(t.subs)
  {
    DetachedIdentities(s.subs, s.record.pending[ack].identity);
  }

  // ---------- Whole runs ----------

  ghost predicate Step(states: seq<State>, i: nat)
    requires i + 1 < |states|
  {
    Next(states[i], states[i + 1])
  }

  ghost predicate Run(states: seq<State>) {
    && states != []
    && Init(states[0])
    && forall i: nat | i + 1 < |states| :: Step(states, i)
  }

  lemma {:induction false} RunKeeps(states: seq<State>, i: nat)
    requires Run(states) && i < |states|
    ensures Inv(states[i])
  {
    if i > 0 {
      RunKeeps(states, i - 1);
      assert Step(states, i - 1);
      NextKeeps(states[i - 1], states[i]);
    }
  }

  // In every interleaving a step writes nothing, or one frame against the registry of that very instant.
  lemma StepsWriteWhatSuits(states: seq<State>, i: nat)
    requires Run(states) && i + 1 < |states|
    ensures WritesOnlyWhatSuits(states[i], states[i + 1])
  {
    RunKeeps(states, i);
    assert Step(states, i);
    NextKeeps(states[i], states[i + 1]);
  }

  // So every subscribe frame was written while the registry held that identity with that fingerprint,
  // and every unsubscribe frame while the registry did not hold it.
  lemma FramesSuitTheRegistry(states: seq<State>, i: nat)
    requires Run(states) && i < |states|
    ensures FramesSuited(states[i].record.log)
  {
    RunKeeps(states, i);
  }

  // The connection never idles out of date: while what is on the wire differs from the registry, a
  // wake is buffered, a synchronizer is running, serve is returning, or the goroutine that changed the
  // registry still holds commitMu and is about to raise the wake.
  lemma NeverIdlesOutOfDate(states: seq<State>, i: nat)
    requires Run(states) && i < |states|
    ensures !InDate(states[i]) ==>
              states[i].wake || !states[i].phase.Stopped? || states[i].returning || states[i].commit.Changing?
  {
    RunKeeps(states, i);
  }

  // Until an acknowledgement expires, a subscribe is pending exactly while its identity is subscribed
  // and not acknowledged.
  lemma PendingMeansUnacknowledged(states: seq<State>, i: nat, identity: Text)
    requires Run(states) && i < |states| && !states[i].expired
    ensures AckKey(Subscribe, identity) in states[i].record.pending <==>
            identity in states[i].record.subscribed && !states[i].record.subscribed[identity].acked
  {
    RunKeeps(states, i);
  }

  // The frames of an identity the server never rejected strictly alternate, starting with a subscribe;
  // with rejections, a subscribe is repeated only after one, and an unsubscribe never is.
  lemma FramesAlternate(states: seq<State>, i: nat, identity: Text)
    requires Run(states) && i < |states|
    ensures Alternates(states[i].record.log)
    ensures (forall j | 0 <= j < |states[i].record.log| && states[i].record.log[j].Rejected? ::
        states[i].record.log[j].identity != identity) ==>
              forall j | 0 <= j < |FramesOf(states[i].record.log, identity)| ::
                FramesOf(states[i].record.log, identity)[j] == if j % 2 == 0 then Subscribe else Unsubscribe
  {
    RunKeeps(states, i);
    var log := states[i].record.log;
    if forall j | 0 <= j < |log| && log[j].Rejected? :: log[j].identity != identity {
      StrictAlternation(log, identity);
    }
  }
}
