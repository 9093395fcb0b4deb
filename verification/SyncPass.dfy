/** websocket/manager.go: what a pass of syncSubscriptions achieves while clients, the serve loop and the server
    act between its steps. */
module SyncPass {
  import opened Interleaving
  import opened Protocol
  import opened Registry

  // ---------- The invariant of a pass ----------

  predicate InPass(s: State) {
    s.phase.Grouped? || s.phase.Passing? || s.phase == Finished(true)
  }

  // The frames of an identity among the events recorded since `mark`.
  function FramesSince(log: seq<Event<Key, Text>>, mark: nat, identity: Text): seq<Command> {
    if |log| <= mark then []
    else
      var last := log[|log| - 1];
      FramesSince(log[..|log| - 1], mark, identity)
      + if last.Frame? && last.identity == identity then [last.command] else []
  }

  ghost predicate Unrejected(log: seq<Event<Key, Text>>, mark: nat, identity: Text) {
    forall i | mark <= i < |log| && log[i].Rejected? :: log[i].identity != identity
  }

  // The frames that lead from one side to the other.
  function Crossing(was: bool, now: bool): seq<Command> {
    if was == now then [] else if was then [Unsubscribe] else [Subscribe]
  }

  // Unless it was rejected, an identity has had one frame if it changed sides since the snapshot, and none if not;
  // and it only moves towards the side the snapshot has it on.
  ghost predicate Tracked(s: State, identity: Text) {
    Unrejected(s.record.log, s.plan.mark, identity) ==>
      && FramesSince(s.record.log, s.plan.mark, identity)
          == Crossing(identity in s.plan.before, identity in s.record.subscribed)
      && (identity in s.record.subscribed && identity !in s.plan.before ==> identity in s.plan.current)
      && (identity in s.plan.before && identity !in s.record.subscribed ==> identity !in s.plan.current)
      && (BusyWith(s, Unsubscribe, identity) ==> identity in s.record.subscribed)
  }

  predicate Processed(s: State, identity: Text) {
    s.phase == Finished(true) || (s.phase.Passing? && identity !in s.plan.removals)
  }

  // A wanted identity that the pass is done with feeds the handles of its group.
  ghost predicate Feeds(s: State) {
    && (forall identity | identity in s.record.subscribed && identity in s.plan.current && Processed(s, identity) ::
          s.record.subscribed[identity].members == s.plan.current[identity].members)
    && (Busy(s) && s.work.command == Subscribe ==>
          s.work.identity in s.plan.current && s.work.group.members == s.plan.current[s.work.identity].members)
  }

  ghost predicate PassKept(s: State) {
    InPass(s) ==>
      && s.plan.mark <= |s.record.log|
      && s.plan.current == Groups(s.plan.snap)
      && Feeds(s)
      && forall identity :: Tracked(s, identity)
  }

  // The same identities on the wire, feeding the same handles.
  ghost predicate SameFeeds(r: Record<Key, Text>, after: Record<Key, Text>) {
    && after.log == r.log
    && after.subscribed.Keys == r.subscribed.Keys
    && forall identity | identity in r.subscribed ::
         after.subscribed[identity].members == r.subscribed[identity].members
  }

  // Most steps are about something else.
  ghost predicate Elsewhere(s: State, t: State) {
    && SameFeeds(s.record, t.record)
    && (InPass(t) ==> t.phase == s.phase && t.plan == s.plan)
    && (Busy(t) ==>
        Busy(s) && t.work.command == s.work.command
        && t.work.identity == s.work.identity && t.work.group == s.work.group)
    && (InPass(t) && Quiet(t) ==> Quiet(s) && t.subs == s.subs)
  }

  // The pass goes on from the same snapshot, and a quiet state has come from a quiet one.
  ghost predicate Continues(s: State, t: State) {
    InPass(t) ==>
      && InPass(s) && t.plan.snap == s.plan.snap && t.plan.before == s.plan.before && t.plan.mark == s.plan.mark
      && (Quiet(t) ==> Quiet(s) && t.subs == s.subs)
  }

  lemma ElsewhereKeepsPass(s: State, t: State)
    requires PassKept(s) && Elsewhere(s, t)
    ensures PassKept(t) && Continues(s, t)
  {
    if InPass(t) {
      forall identity ensures Tracked(t, identity) {
        assert Tracked(s, identity);
      }
    }
  }

  lemma RegistryStepsAreElsewhere(s: State, t: State)
    requires (exists key, handle :: Register(s, key, handle, t))
             || (exists key, handle :: Unregister(s, key, handle, t))
    ensures Elsewhere(s, t)
  {}

  lemma PublishIsElsewhere(s: State, t: State)
    requires Publish(s, t)
    ensures Elsewhere(s, t)
  {}

  lemma ServeStepsAreElsewhere(s: State, t: State)
    requires ConsumeWake(s, t) || ConsumeResult(s, t) || Return(s, t)
    ensures Elsewhere(s, t)
  {}

  lemma SkipIsElsewhere(s: State)
    requires Busy(s) && s.phase.Passing?
    ensures Elsewhere(s, Skip(s)) && Elsewhere(s, Fail(s))
  {}

  lemma EnterIsElsewhere(s: State, t: State)
    requires EnterAdmission(s, t)
    ensures Elsewhere(s, t)
  {}

  lemma RecheckIsElsewhere(s: State, t: State)
    requires RecheckAdmission(s, t)
    ensures Elsewhere(s, t)
  {}

  lemma WaitingStepsAreElsewhere(s: State, t: State)
    requires LocksKept(s)
    requires WaitSucceeds(s, t) || WaitFails(s, t)
    ensures Elsewhere(s, t)
  {
    SkipIsElsewhere(s);
  }

  lemma WritingStepsAreElsewhere(s: State, t: State)
    requires LocksKept(s)
    requires TakeLocks(s, t) || FinalCheck(s, t) || SendFails(s, t)
    ensures Elsewhere(s, t)
  {
    SkipIsElsewhere(s);
  }

  lemma AnswersAreElsewhere(s: State, t: State)
    requires (exists ack :: Acknowledge(s, ack, t)) || (exists ack :: DropUnsubscribe(s, ack, t))
        || (exists acks :: Expire(s, acks, t))
    ensures Elsewhere(s, t)
  {}

  lemma SnapshotKeepsPass(s: State, t: State)
    requires TakeSnapshot(s, t) && s.work.NoWork?
    ensures PassKept(t)
  {}

  // The identities on the wire stay, and so does the history.
  lemma StillTracked(s: State, t: State)
    requires forall identity :: Tracked(s, identity)
    requires t.record.log == s.record.log && t.record.subscribed.Keys == s.record.subscribed.Keys
    requires t.plan.before == s.plan.before && t.plan.mark == s.plan.mark && t.plan.current == s.plan.current
    requires Busy(t) && t.work.command == Unsubscribe ==> t.work.identity in t.record.subscribed
    ensures forall identity :: Tracked(t, identity)
  {
    forall identity ensures Tracked(t, identity) {
      assert Tracked(s, identity);
    }
  }

  lemma ListActiveKeepsPass(s: State, t: State)
    requires Inv(s) && PassKept(s) && ListActive(s, t)
    ensures PassKept(t) && Continues(s, t)
  {
    StillTracked(s, t);
  }

  lemma PickRemovalKeepsPass(s: State, identity: Text, t: State)
    requires Inv(s) && PassKept(s) && PickRemoval(s, identity, t)
    ensures PassKept(t) && Continues(s, t)
  {
    StillTracked(s, t);
  }

  lemma PickAdditionKeepsPass(s: State, identity: Text, t: State)
    requires Inv(s) && PassKept(s) && PickAddition(s, identity, t)
    ensures PassKept(t) && Continues(s, t)
  {
    StillTracked(s, t);
  }

  lemma EndPassKeepsPass(s: State, t: State)
    requires Inv(s) && PassKept(s) && EndPass(s, t)
    ensures PassKept(t) && Continues(s, t)
  {
    StillTracked(s, t);
  }

  // One more event of another identity, or a frame of this one.
  lemma OneMoreEvent(log: seq<Event<Key, Text>>, event: Event<Key, Text>, mark: nat, identity: Text)
    requires mark <= |log|
    ensures FramesSince(log + [event], mark, identity) == FramesSince(log, mark, identity)
              + if event.Frame? && event.identity == identity then [event.command] else []
    ensures Unrejected(log + [event], mark, identity) <==>
              Unrejected(log, mark, identity) && (event.Rejected? ==> event.identity != identity)
  {
    var after := log + [event];
    assert after[..|log|] == log;
    assert after[|log|] == event && forall i | 0 <= i < |log| :: after[i] == log[i];
  }

  lemma SubscribeTracked(s: State, t: State, identity: Text)
    requires RecordKept(s) && PassKept(s) && InPass(s) && Send(s, t) && s.work.command == Subscribe
    ensures Tracked(t, identity)
  {
    assert Tracked(s, identity);
    OneMoreEvent(s.record.log, Frame(Subscribe, s.work.identity, s.work.group.wire, s.subs), s.plan.mark, identity);
  }

  lemma UnsubscribeTracked(s: State, t: State, identity: Text)
    requires SnapshotHolds(s) && PassKept(s) && InPass(s) && Send(s, t) && s.work.command == Unsubscribe
    ensures Tracked(t, identity)
  {
    assert Tracked(s, identity);
    OneMoreEvent(s.record.log, Frame(Unsubscribe, s.work.identity, s.work.group.wire, s.subs), s.plan.mark, identity);
  }

  lemma SubscribeFeeds(s: State, t: State)
    requires SnapshotHolds(s) && PassKept(s) && InPass(s) && Send(s, t) && s.work.command == Subscribe
    ensures Feeds(t)
  {}

  lemma UnsubscribeFeeds(s: State, t: State)
    requires SnapshotHolds(s) && PassKept(s) && InPass(s) && Send(s, t) && s.work.command == Unsubscribe
    ensures Feeds(t)
  {}

  lemma SendKeepsPass(s: State, t: State)
    requires Inv(s) && PassKept(s) && Send(s, t)
    ensures PassKept(t) && Continues(s, t)
  {
    if s.work.command == Subscribe {
      SubscribeFeeds(s, t);
      forall identity ensures Tracked(t, identity) {
        SubscribeTracked(s, t, identity);
      }
    } else {
      UnsubscribeFeeds(s, t);
      forall identity ensures Tracked(t, identity) {
        UnsubscribeTracked(s, t, identity);
      }
    }
  }

  lemma RejectedTracked(s: State, ack: AckKey<Text>, t: State, identity: Text)
    requires LocksKept(s) && PassKept(s) && InPass(s) && Reject(s, ack, t)
    ensures Tracked(t, identity)
  {
    assert Tracked(s, identity);
    OneMoreEvent(s.record.log, Rejected(s.record.pending[ack].identity), s.plan.mark, identity);
  }

  lemma RejectFeeds(s: State, ack: AckKey<Text>, t: State)
    requires PassKept(s) && InPass(s) && Reject(s, ack, t)
    ensures Feeds(t) && Continues(s, t) && |t.record.log| == |s.record.log| + 1
    ensures t.phase == s.phase && t.plan == s.plan && (Quiet(t) ==> Quiet(s) && t.subs == s.subs)
  {}

  lemma RejectKeepsPass(s: State, ack: AckKey<Text>, t: State)
    requires Inv(s) && PassKept(s) && Reject(s, ack, t)
    ensures PassKept(t) && Continues(s, t)
  {
    if InPass(s) {
      RejectFeeds(s, ack, t);
      forall identity ensures Tracked(t, identity) {
        RejectedTracked(s, ack, t, identity);
      }
    }
  }

  lemma SyncStepKeepsPass(s: State, t: State)
    requires Inv(s) && PassKept(s) && SyncNext(s, t)
    ensures PassKept(t) && (TakeSnapshot(s, t) || Continues(s, t))
  {
    if TakeSnapshot(s, t) { SnapshotKeepsPass(s, t); }
    if ListActive(s, t) { ListActiveKeepsPass(s, t); }
    if EndPass(s, t) { EndPassKeepsPass(s, t); }
    if identity :| PickRemoval(s, identity, t) {
      PickRemovalKeepsPass(s, identity, t);
    }
    if identity :| PickAddition(s, identity, t) {
      PickAdditionKeepsPass(s, identity, t);
    }
    if EnterAdmission(s, t) {
      EnterIsElsewhere(s, t);
      ElsewhereKeepsPass(s, t);
    }
    if RecheckAdmission(s, t) {
      RecheckIsElsewhere(s, t);
      ElsewhereKeepsPass(s, t);
    }
    if WaitSucceeds(s, t) || WaitFails(s, t) {
      WaitingStepsAreElsewhere(s, t);
      ElsewhereKeepsPass(s, t);
    }
    if TakeLocks(s, t) || FinalCheck(s, t) || SendFails(s, t) {
      WritingStepsAreElsewhere(s, t);
      ElsewhereKeepsPass(s, t);
    }
    if Send(s, t) { SendKeepsPass(s, t); }
  }

  lemma NextKeepsPass(s: State, t: State)
    requires Inv(s) && PassKept(s) && Next(s, t)
    ensures PassKept(t) && (TakeSnapshot(s, t) || Continues(s, t))
  {
    if SyncNext(s, t) {
      SyncStepKeepsPass(s, t);
    } else if ack :| Reject(s, ack, t) {
      RejectKeepsPass(s, ack, t);
    } else {
      if Publish(s, t) {
        PublishIsElsewhere(s, t);
      } else if ConsumeWake(s, t) || ConsumeResult(s, t) || Return(s, t) {
        ServeStepsAreElsewhere(s, t);
      } else if ClientNext(s, t) {
        RegistryStepsAreElsewhere(s, t);
      } else {
        AnswersAreElsewhere(s, t);
      }
      ElsewhereKeepsPass(s, t);
    }
  }

  // What one step owes the next state.
  ghost predicate HandsOn(states: seq<State>, k: nat)
    requires 0 < k < |states|
  {
    PassKept(states[k - 1]) ==>
      PassKept(states[k]) && (TakeSnapshot(states[k - 1], states[k]) || Continues(states[k - 1], states[k]))
  }

  lemma StepHandsOn(states: seq<State>, k: nat)
    requires Run(states) && 0 < k < |states|
    ensures HandsOn(states, k)
  {
    RunKeeps(states, k - 1);
    assert Step(states, k - 1);
    if PassKept(states[k - 1]) {
      NextKeepsPass(states[k - 1], states[k]);
    }
  }

  lemma {:induction false} PassIsHandedOn(states: seq<State>, i: nat)
    requires i < |states| && PassKept(states[0])
    requires forall k | 0 < k < |states| :: HandsOn(states, k)
    ensures PassKept(states[i])
  {
    if i > 0 {
      PassIsHandedOn(states, i - 1);
      assert HandsOn(states, i);
    }
  }

  lemma RunKeepsPass(states: seq<State>, i: nat)
    requires Run(states) && i < |states|
    ensures PassKept(states[i])
  {
    RunHandsOn(states);
    PassIsHandedOn(states, i);
  }

  lemma RunHandsOn(states: seq<State>)
    requires Run(states)
    ensures PassKept(states[0]) && !InPass(states[0])
    ensures forall k | 0 < k < |states| :: HandsOn(states, k)
  {
    forall k | 0 < k < |states| ensures HandsOn(states, k) {
      StepHandsOn(states, k);
    }
  }

  // ---------- The identities a pass is on course for ----------

  // What is being written stays, and no more tokens go stale.
  ghost predicate LeavesWork(s: State, t: State) {
    t.work == s.work && t.stale == s.stale && (InPass(t) ==> InPass(s))
  }

  lemma RegistryLeavesWork(s: State, t: State)
    requires (exists key, handle :: Register(s, key, handle, t))
             || (exists key, handle :: Unregister(s, key, handle, t))
    ensures LeavesWork(s, t)
  {}

  lemma ServeLeavesWork(s: State, t: State)
    requires ConsumeWake(s, t) || ConsumeResult(s, t) || Return(s, t)
    ensures LeavesWork(s, t)
  {}

  lemma AnswersLeaveWork(s: State, t: State)
    requires (exists ack :: Acknowledge(s, ack, t)) || (exists ack :: DropUnsubscribe(s, ack, t))
             || (exists acks :: Expire(s, acks, t))
    ensures LeavesWork(s, t)
  {}

  // While the registry says of an identity what it said in the snapshot, its frame does not go stale, and the pass
  // still has to do for it exactly what is out of date.
  ghost predicate OnCourse(s: State, identity: Text) {
    InPass(s) ==>
      && Now(s.subs, identity) == Now(s.plan.snap, identity)
      && (Busy(s) && s.work.identity == identity && s.work.stage != Chosen ==> s.work.token !in s.stale)
      && (s.phase.Passing? ==> LeftToDo(s, identity))
      && (s.phase == Finished(true) ==> (identity in s.record.subscribed <==> identity in s.plan.current))
  }

  ghost predicate LeftToDo(s: State, identity: Text) {
    && (identity in s.record.subscribed ==>
          identity in s.plan.current || identity in s.plan.removals || BusyWith(s, Unsubscribe, identity))
    && (identity in s.plan.current ==>
          identity in s.record.subscribed || identity in s.plan.additions || BusyWith(s, Subscribe, identity))
  }

  // The registry still says what it said in the snapshot, if there is one.
  ghost predicate AsInSnapshot(s: State, identity: Text) {
    InPass(s) ==> Now(s.subs, identity) == Now(s.plan.snap, identity)
  }

  lemma WorkSuits(s: State, identity: Text)
    requires SnapshotHolds(s) && PassKept(s) && AsInSnapshot(s, identity)
    requires Busy(s) && s.phase.Passing? && s.work.identity == identity
    ensures Suits(s.work.command, s.work.group.wire, Now(s.subs, identity))
  {}

  // The frame of an identity is neither given up nor stale.
  ghost predicate GoesOn(s: State, t: State, identity: Text) {
    InPass(t) && Busy(s) && s.work.identity == identity ==>
      Busy(t) && (t.work.stage != Chosen ==> t.work.token !in t.stale)
  }

  lemma ElsewhereKeepsCourse(s: State, t: State, identity: Text)
    requires OnCourse(s, identity) && Elsewhere(s, t) && GoesOn(s, t, identity) && AsInSnapshot(t, identity)
    ensures OnCourse(t, identity)
  {}

  lemma PublishGoesOn(s: State, t: State, identity: Text)
    requires LocksKept(s) && SnapshotHolds(s) && PassKept(s) && TokensFresh(s) && OnCourse(s, identity) && Publish(s, t)
    ensures GoesOn(s, t, identity)
  {
    if InPass(s) && Busy(s) && s.work.identity == identity {
      WorkSuits(s, identity);
    }
  }

  lemma AdmissionGoesOn(s: State, t: State, identity: Text)
    requires LocksKept(s) && TokensFresh(s) && SnapshotHolds(s) && PassKept(s) && OnCourse(s, identity)
    requires EnterAdmission(s, t) || RecheckAdmission(s, t)
    ensures GoesOn(s, t, identity)
  {
    if s.work.identity == identity {
      WorkSuits(s, identity);
    }
  }

  lemma WaitGoesOn(s: State, t: State, identity: Text)
    requires LocksKept(s) && SnapshotHolds(s) && PassKept(s) && OnCourse(s, identity)
    requires WaitSucceeds(s, t) || WaitFails(s, t)
    ensures GoesOn(s, t, identity)
  {
    if s.work.identity == identity {
      WorkSuits(s, identity);
    }
  }

  lemma WriteGoesOn(s: State, t: State, identity: Text)
    requires LocksKept(s) && SnapshotHolds(s) && PassKept(s) && OnCourse(s, identity)
    requires TakeLocks(s, t) || FinalCheck(s, t) || SendFails(s, t)
    ensures GoesOn(s, t, identity)
  {
    if s.work.identity == identity {
      WorkSuits(s, identity);
    }
  }

  lemma SnapshotKeepsCourse(s: State, t: State, identity: Text)
    requires LocksKept(s) && TakeSnapshot(s, t)
    ensures OnCourse(t, identity)
  {}

  lemma LoopsKeepCourse(s: State, t: State, identity: Text)
    requires LocksKept(s) && OnCourse(s, identity)
    requires ListActive(s, t) || EndPass(s, t)
    ensures OnCourse(t, identity)
  {}

  lemma PickRemovalKeepsCourse(s: State, other: Text, t: State, identity: Text)
    requires OnCourse(s, identity) && PickRemoval(s, other, t)
    ensures OnCourse(t, identity)
  {}

  lemma PickAdditionKeepsCourse(s: State, other: Text, t: State, identity: Text)
    requires OnCourse(s, identity) && PickAddition(s, other, t)
    ensures OnCourse(t, identity)
  {}

  lemma SubscribeKeepsCourse(s: State, t: State, identity: Text)
    requires s.phase.Passing? && SnapshotHolds(s) && OnCourse(s, identity)
    requires Send(s, t) && s.work.command == Subscribe
    ensures OnCourse(t, identity)
  {}

  lemma UnsubscribeKeepsCourse(s: State, t: State, identity: Text)
    requires s.phase.Passing? && SnapshotHolds(s) && OnCourse(s, identity)
    requires Send(s, t) && s.work.command == Unsubscribe
    ensures OnCourse(t, identity)
  {}

  lemma SendKeepsCourse(s: State, t: State, identity: Text)
    requires LocksKept(s) && SnapshotHolds(s) && OnCourse(s, identity) && Send(s, t)
    ensures OnCourse(t, identity)
  {
    if s.work.command == Subscribe {
      SubscribeKeepsCourse(s, t, identity);
    } else {
      UnsubscribeKeepsCourse(s, t, identity);
    }
  }

  lemma RejectKeepsCourse(s: State, ack: AckKey<Text>, t: State, identity: Text)
    requires PassKept(s) && OnCourse(s, identity) && Reject(s, ack, t) && AsInSnapshot(t, identity)
    ensures OnCourse(t, identity)
  {}

  lemma ClientKeepsCourse(s: State, t: State, identity: Text)
    requires Inv(s) && PassKept(s) && OnCourse(s, identity)
    requires ClientNext(s, t) && AsInSnapshot(t, identity)
    ensures OnCourse(t, identity)
  {
    if Publish(s, t) {
      PublishGoesOn(s, t, identity);
      PublishIsElsewhere(s, t);
    } else if ConsumeWake(s, t) || ConsumeResult(s, t) || Return(s, t) {
      ServeLeavesWork(s, t);
      ServeStepsAreElsewhere(s, t);
    } else {
      RegistryLeavesWork(s, t);
      RegistryStepsAreElsewhere(s, t);
    }
    ElsewhereKeepsCourse(s, t, identity);
  }

  lemma ServerKeepsCourse(s: State, t: State, identity: Text)
    requires PassKept(s) && OnCourse(s, identity) && ServerNext(s, t) && AsInSnapshot(t, identity)
    ensures OnCourse(t, identity)
  {
    if ack :| Reject(s, ack, t) {
      RejectKeepsCourse(s, ack, t, identity);
    } else {
      AnswersAreElsewhere(s, t);
      AnswersLeaveWork(s, t);
      ElsewhereKeepsCourse(s, t, identity);
    }
  }

  // The steps of writeJSON other than the frame itself.
  lemma WriterKeepsCourse(s: State, t: State, identity: Text)
    requires Inv(s) && PassKept(s) && OnCourse(s, identity) && AsInSnapshot(t, identity)
    requires EnterAdmission(s, t) || RecheckAdmission(s, t) || WaitSucceeds(s, t) || WaitFails(s, t)
             || TakeLocks(s, t) || FinalCheck(s, t) || SendFails(s, t)
    ensures OnCourse(t, identity)
  {
    if EnterAdmission(s, t) {
      EnterIsElsewhere(s, t);
      AdmissionGoesOn(s, t, identity);
    } else if RecheckAdmission(s, t) {
      RecheckIsElsewhere(s, t);
      AdmissionGoesOn(s, t, identity);
    } else if WaitSucceeds(s, t) || WaitFails(s, t) {
      WaitingStepsAreElsewhere(s, t);
      WaitGoesOn(s, t, identity);
    } else {
      WritingStepsAreElsewhere(s, t);
      WriteGoesOn(s, t, identity);
    }
    ElsewhereKeepsCourse(s, t, identity);
  }

  lemma NextKeepsCourse(s: State, t: State, identity: Text)
    requires Inv(s) && PassKept(s) && OnCourse(s, identity)
    requires Next(s, t) && AsInSnapshot(t, identity)
    ensures OnCourse(t, identity)
  {
    if ClientNext(s, t) {
      ClientKeepsCourse(s, t, identity);
    } else if ServerNext(s, t) {
      ServerKeepsCourse(s, t, identity);
    } else if TakeSnapshot(s, t) {
      SnapshotKeepsCourse(s, t, identity);
    } else if Send(s, t) {
      SendKeepsCourse(s, t, identity);
    } else if ListActive(s, t) || EndPass(s, t) {
      LoopsKeepCourse(s, t, identity);
    } else if other :| PickRemoval(s, other, t) {
      PickRemovalKeepsCourse(s, other, t, identity);
    } else if other :| PickAddition(s, other, t) {
      PickAdditionKeepsCourse(s, other, t, identity);
    } else {
      WriterKeepsCourse(s, t, identity);
    }
  }

  // ---------- The passes of any run ----------

  // The pass that state `i` belongs to took its snapshot in the step after state `j`, and has been running since.
  ghost predicate SnapshotTaken(states: seq<State>, j: nat, i: nat) {
    && j < i < |states|
    && TakeSnapshot(states[j], states[j + 1])
    && (forall k | j < k <= i :: InPass(states[k]) && states[k].plan.snap == states[j].subs)
    && states[i].plan.before == states[j].record.subscribed.Keys
    && states[i].plan.mark == |states[j].record.log|
  }

  lemma TakenNow(states: seq<State>, i: nat)
    requires 0 < i < |states| && TakeSnapshot(states[i - 1], states[i])
    ensures SnapshotTaken(states, i - 1, i)
  {}

  lemma TakenBefore(states: seq<State>, j: nat, i: nat)
    requires 0 < i < |states| && SnapshotTaken(states, j, i - 1)
    requires InPass(states[i]) && Continues(states[i - 1], states[i])
    ensures SnapshotTaken(states, j, i)
  {}

  ghost predicate Stepped(states: seq<State>, i: nat)
    requires 0 < i < |states|
  {
    TakeSnapshot(states[i - 1], states[i]) || Continues(states[i - 1], states[i])
  }

  lemma StepOf(states: seq<State>, i: nat)
    requires 0 < i < |states| && PassKept(states[0])
    requires forall k | 0 < k < |states| :: HandsOn(states, k)
    ensures Stepped(states, i)
  {
    PassIsHandedOn(states, i - 1);
    assert HandsOn(states, i);
  }

  lemma {:induction false} SnapshotOf(states: seq<State>, i: nat) returns (j: nat)
    requires i < |states| && !InPass(states[0]) && InPass(states[i])
    requires forall k | 0 < k < |states| :: Stepped(states, k)
    ensures SnapshotTaken(states, j, i)
  {
    assert Stepped(states, i);
    if TakeSnapshot(states[i - 1], states[i]) {
      j := i - 1;
      TakenNow(states, i);
    } else {
      j := SnapshotOf(states, i - 1);
      TakenBefore(states, j, i);
    }
  }

  lemma PassHasSnapshot(states: seq<State>, i: nat) returns (j: nat)
    requires Run(states) && i < |states| && InPass(states[i])
    ensures SnapshotTaken(states, j, i)
  {
    RunHandsOn(states);
    forall k | 0 < k < |states| ensures Stepped(states, k) {
      StepOf(states, k);
    }
    j := SnapshotOf(states, i);
  }

  // From the snapshot on the registry has said the same of an identity:
  // whether it is there, and with which fingerprint.
  ghost predicate Unchanged(states: seq<State>, j: nat, i: nat, identity: Text)
    requires j <= i < |states|
  {
    forall k | j <= k <= i :: Now(states[k].subs, identity) == Now(states[j].subs, identity)
  }

  ghost predicate KeepsCourse(s: State, t: State, identity: Text) {
    OnCourse(s, identity) && AsInSnapshot(t, identity) ==> OnCourse(t, identity)
  }

  lemma StepKeepsCourse(states: seq<State>, k: nat, identity: Text)
    requires Run(states) && 0 < k < |states|
    ensures KeepsCourse(states[k - 1], states[k], identity)
  {
    RunKeeps(states, k - 1);
    RunKeepsPass(states, k - 1);
    if OnCourse(states[k - 1], identity) && AsInSnapshot(states[k], identity) {
      assert Step(states, k - 1);
      NextKeepsCourse(states[k - 1], states[k], identity);
    }
  }

  lemma {:induction false} CourseIsKept(states: seq<State>, j: nat, i: nat, identity: Text)
    requires j <= i < |states| && OnCourse(states[j], identity)
    requires forall k | j < k <= i :: KeepsCourse(states[k - 1], states[k], identity)
    requires forall k | j < k <= i :: AsInSnapshot(states[k], identity)
    ensures OnCourse(states[i], identity)
  {
    if j < i {
      CourseIsKept(states, j, i - 1, identity);
      assert KeepsCourse(states[i - 1], states[i], identity);
    }
  }

  lemma StaysOnCourse(states: seq<State>, j: nat, i: nat, identity: Text)
    requires Run(states) && SnapshotTaken(states, j, i) && Unchanged(states, j, i, identity)
    ensures OnCourse(states[i], identity)
  {
    forall k | j < k <= i ensures KeepsCourse(states[k - 1], states[k], identity) {
      StepKeepsCourse(states, k, identity);
    }
    CourseIsKept(states, j, i, identity);
  }

  // Whatever happened meanwhile to other identities, whatever was acknowledged, rejected or waited for, and whatever
  // wakes came in: a finished pass leaves an identity the registry said the same of throughout on the wire exactly if
  // the registry has it, feeding the handles of the snapshot, ...
  lemma UnchangedIdentitySettles(states: seq<State>, j: nat, i: nat, identity: Text)
    requires Run(states) && SnapshotTaken(states, j, i) && Unchanged(states, j, i, identity)
    requires states[i].phase == Finished(true)
    ensures var s := states[i];
            && (identity in s.record.subscribed <==> identity in Identities(s.subs))
            && (identity in s.record.subscribed ==>
                  s.record.subscribed[identity].members == Members(states[j].subs, identity))
  {
    RunKeepsPass(states, i);
    StaysOnCourse(states, j, i, identity);
  }

  // ... and has written one frame for it if it was on one side only, and none if not, as far as the server did not
  // reject it.
  lemma UnchangedIdentityGetsItsFrame(states: seq<State>, j: nat, i: nat, identity: Text)
    requires Run(states) && SnapshotTaken(states, j, i) && Unchanged(states, j, i, identity)
    requires states[i].phase == Finished(true)
    ensures Unrejected(states[i].record.log, |states[j].record.log|, identity) ==>
              FramesSince(states[i].record.log, |states[j].record.log|, identity)
              == Crossing(identity in states[j].record.subscribed, identity in Identities(states[j].subs))
  {
    RunKeepsPass(states, i);
    StaysOnCourse(states, j, i, identity);
    assert Tracked(states[i], identity);
  }

  // So a finished pass during which the registry did not change leaves exactly the registry on the wire.
  lemma UndisturbedPassSettles(states: seq<State>, j: nat, i: nat)
    requires Run(states) && SnapshotTaken(states, j, i) && states[i].phase == Finished(true)
    requires forall k | j <= k <= i :: states[k].subs == states[j].subs
    ensures var s := states[i];
            && s.record.subscribed.Keys == Identities(s.subs)
            && forall identity | identity in s.record.subscribed ::
                 s.record.subscribed[identity].members == Members(s.subs, identity)
  {
    forall identity
      ensures identity in states[i].record.subscribed <==> identity in Identities(states[i].subs)
      ensures identity in states[i].record.subscribed ==>
                states[i].record.subscribed[identity].members == Members(states[i].subs, identity)
    {
      assert Unchanged(states, j, i, identity);
      UnchangedIdentitySettles(states, j, i, identity);
    }
  }

  lemma {:induction false} QuietComesFromQuiet(states: seq<State>, j: nat, i: nat)
    requires j < i < |states| && InPass(states[i]) && Quiet(states[i])
    requires forall k | j + 1 < k <= i :: Continues(states[k - 1], states[k])
    ensures forall k | j < k <= i :: states[k].subs == states[i].subs
  {
    if j + 1 < i {
      assert Continues(states[i - 1], states[i]);
      QuietComesFromQuiet(states, j, i - 1);
    }
  }

  lemma SteppedInPass(states: seq<State>, k: nat)
    requires 0 < k < |states| && Stepped(states, k) && InPass(states[k - 1])
    ensures Continues(states[k - 1], states[k])
  {}

  // What serve can see when the pass ends is enough: with no wake buffered or noted, nobody about to raise one and
  // no return, the registry has not changed since the snapshot.
  lemma QuietPassIsUndisturbed(states: seq<State>, j: nat, i: nat)
    requires Run(states) && SnapshotTaken(states, j, i) && Quiet(states[i])
    ensures forall k | j <= k <= i :: states[k].subs == states[j].subs
  {
    SnapshotLeavesRegistry(states, j, i);
    StepsContinue(states, j, i);
    QuietSince(states, j, i);
  }

  lemma SnapshotLeavesRegistry(states: seq<State>, j: nat, i: nat)
    requires SnapshotTaken(states, j, i)
    ensures InPass(states[i]) && states[j + 1].subs == states[j].subs
  {}

  lemma StepsContinue(states: seq<State>, j: nat, i: nat)
    requires Run(states) && SnapshotTaken(states, j, i)
    ensures forall k | j + 1 < k <= i :: Continues(states[k - 1], states[k])
  {
    RunHandsOn(states);
    SnapshotContinues(states, j, i);
  }

  lemma QuietSince(states: seq<State>, j: nat, i: nat)
    requires j < i < |states| && InPass(states[i]) && Quiet(states[i]) && states[j + 1].subs == states[j].subs
    requires forall k | j + 1 < k <= i :: Continues(states[k - 1], states[k])
    ensures forall k | j <= k <= i :: states[k].subs == states[j].subs
  {
    QuietComesFromQuiet(states, j, i);
  }

  lemma SnapshotContinues(states: seq<State>, j: nat, i: nat)
    requires SnapshotTaken(states, j, i) && PassKept(states[0])
    requires forall k | 0 < k < |states| :: HandsOn(states, k)
    ensures forall k | j + 1 < k <= i :: Continues(states[k - 1], states[k])
  {
    forall k | j + 1 < k <= i ensures Continues(states[k - 1], states[k]) {
      StepOf(states, k);
      SteppedInPass(states, k);
    }
  }
}
