/** websocket/manager.go: what a change of the registry does to a frame that is being written, and when a pass may
    fail. */
module StaleFrames {
  import opened Interleaving
  import opened Protocol
  import opened Registry

  // ---------- What the registry says of other identities ----------

  lemma SameMembersSameNow(a: Subscriptions<Key, Text>, b: Subscriptions<Key, Text>, identity: Text)
    requires Members(a, identity) == Members(b, identity)
    ensures Now(a, identity) == Now(b, identity)
  {
    assert Members(a, identity).Keys == MemberKeys(a, identity) && Members(b, identity).Keys == MemberKeys(b, identity);
    MembersWitness(a, identity);
    MembersWitness(b, identity);
    if key :| key in MemberKeys(a, identity) {
      assert Members(a, identity)[key] == a[key] && Members(b, identity)[key] == b[key];
      AnyMemberDecidesFingerprint(a, identity, key);
      AnyMemberDecidesFingerprint(b, identity, key);
    }
  }

  lemma AddedElsewhere(subs: Subscriptions<Key, Text>, key: Key, handle: Handle<Text>, identity: Text)
    requires key !in subs && handle.identity != identity
    ensures Now(subs[key := handle], identity) == Now(subs, identity)
  {
    assert MemberKeys(subs[key := handle], identity) == MemberKeys(subs, identity);
    SameMembersSameNow(subs, subs[key := handle], identity);
  }

  lemma RemovedElsewhere(subs: Subscriptions<Key, Text>, keys: set<Key>, identity: Text)
    requires forall key | key in keys && key in subs :: subs[key].identity != identity
    ensures Now(subs - keys, identity) == Now(subs, identity)
  {
    assert MemberKeys(subs - keys, identity) == MemberKeys(subs, identity);
    SameMembersSameNow(subs, subs - keys, identity);
  }

  // ---------- The invariant of a frame on its way ----------

  // The table holds the admission of the frame being written, so whoever changes the registry finds it, and no other.
  ghost predicate InTable(s: State) {
    if Busy(s) && s.work.stage != Chosen then
      s.admissions.Keys == {s.work.identity} && s.admissions[s.work.identity].token == s.work.token
    else s.admissions == map[]
  }

  predicate UnderWay(s: State) {
    Busy(s) && s.work.stage in {Waiting, Admitted, Locked, Checked}
  }

  // A frame past the first look at the registry suits it, or is known to be stale, or the goroutine that made the
  // difference has not published it yet.
  ghost predicate Noticed(s: State) {
    UnderWay(s) ==>
      || Suits(s.work.command, s.work.group.wire, Now(s.subs, s.work.identity))
      || s.work.token in s.stale
      || (s.commit.Changing? && s.commit.identity == s.work.identity)
  }

  // Past the final checks the frame is not stale.
  ghost predicate CheckedIsFresh(s: State) {
    At(s, Checked) ==> s.work.token !in s.stale
  }

  ghost predicate Watched(s: State) {
    InTable(s) && Noticed(s) && CheckedIsFresh(s)
  }

  lemma RegisterWatches(s: State, key: Key, handle: Handle<Text>, t: State)
    requires LocksKept(s) && Watched(s) && Register(s, key, handle, t)
    ensures Watched(t)
  {
    if UnderWay(s) && s.work.identity != handle.identity {
      AddedElsewhere(s.subs, key, handle, s.work.identity);
    }
  }

  lemma UnregisterWatches(s: State, key: Key, handle: Handle<Text>, t: State)
    requires LocksKept(s) && Watched(s) && Unregister(s, key, handle, t)
    ensures Watched(t)
  {
    if UnderWay(s) && s.work.identity != handle.identity && key in s.subs && s.subs[key] == handle {
      RemovedElsewhere(s.subs, {key}, s.work.identity);
    }
  }

  lemma RejectWatches(s: State, ack: AckKey<Text>, t: State)
    requires LocksKept(s) && Watched(s) && Reject(s, ack, t)
    ensures Watched(t)
  {
    var identity := s.record.pending[ack].identity;
    if UnderWay(s) && s.work.identity != identity && identity in Identities(s.subs) {
      RemovedElsewhere(s.subs, MemberKeys(s.subs, identity), s.work.identity);
    }
  }

  lemma PublishWatches(s: State, t: State)
    requires LocksKept(s) && TokensFresh(s) && Watched(s) && Publish(s, t)
    ensures Watched(t)
  {}

  lemma ServeWatches(s: State, t: State)
    requires Watched(s) && (ConsumeWake(s, t) || ConsumeResult(s, t) || Return(s, t))
    ensures Watched(t)
  {
    ServeLeavesFrames(s, t);
  }

  lemma ServeLeavesFrames(s: State, t: State)
    requires ConsumeWake(s, t) || ConsumeResult(s, t) || Return(s, t)
    ensures t.work == s.work && t.admissions == s.admissions && t.stale == s.stale && t.subs == s.subs
    ensures t.commit == s.commit
  {}

  lemma AnswersWatch(s: State, t: State)
    requires Watched(s)
    requires (exists ack :: Acknowledge(s, ack, t)) || (exists ack :: DropUnsubscribe(s, ack, t))
             || (exists acks :: Expire(s, acks, t))
    ensures Watched(t)
  {}

  lemma PassWatches(s: State, t: State)
    requires Watched(s) && (TakeSnapshot(s, t) || ListActive(s, t) || EndPass(s, t))
    ensures Watched(t)
  {}

  lemma PickRemovalWatches(s: State, identity: Text, t: State)
    requires Watched(s) && PickRemoval(s, identity, t)
    ensures Watched(t)
  {}

  lemma PickAdditionWatches(s: State, identity: Text, t: State)
    requires Watched(s) && PickAddition(s, identity, t)
    ensures Watched(t)
  {}

  lemma AdmissionWatches(s: State, t: State)
    requires LocksKept(s) && Watched(s) && (EnterAdmission(s, t) || RecheckAdmission(s, t))
    ensures Watched(t)
  {}

  lemma WaitSuccessWatches(s: State, t: State)
    requires Watched(s) && WaitSucceeds(s, t)
    ensures Watched(t)
  {
    EmptiedBy(s.admissions, s.work.identity);
  }

  lemma WaitFailureWatches(s: State, t: State)
    requires Watched(s) && WaitFails(s, t)
    ensures Watched(t)
  {
    EmptiedBy(s.admissions, s.work.identity);
  }

  lemma LocksWatch(s: State, t: State)
    requires Watched(s) && (TakeLocks(s, t) || FinalCheck(s, t))
    ensures Watched(t)
  {}

  lemma SendWatches(s: State, t: State)
    requires Watched(s) && (Send(s, t) || SendFails(s, t))
    ensures Watched(t)
  {
    EmptiedBy(s.admissions, s.work.identity);
  }

  lemma EmptiedBy(table: map<Text, WireAdmission>, identity: Text)
    requires table.Keys == {identity}
    ensures table - {identity} == map[]
  {}

  lemma NextWatches(s: State, t: State)
    requires Inv(s) && Watched(s) && Next(s, t)
    ensures Watched(t)
  {
    if key, handle :| Register(s, key, handle, t) {
      RegisterWatches(s, key, handle, t);
    } else if key, handle :| Unregister(s, key, handle, t) {
      UnregisterWatches(s, key, handle, t);
    } else if Publish(s, t) {
      PublishWatches(s, t);
    } else if ClientNext(s, t) {
      ServeWatches(s, t);
    } else if ack :| Reject(s, ack, t) {
      RejectWatches(s, ack, t);
    } else if ServerNext(s, t) {
      AnswersWatch(s, t);
    } else {
      SyncWatches(s, t);
    }
  }

  lemma SyncWatches(s: State, t: State)
    requires LocksKept(s) && Watched(s) && SyncNext(s, t)
    ensures Watched(t)
  {
    if EnterAdmission(s, t) || RecheckAdmission(s, t) {
      AdmissionWatches(s, t);
    } else if WaitSucceeds(s, t) {
      WaitSuccessWatches(s, t);
    } else if WaitFails(s, t) {
      WaitFailureWatches(s, t);
    } else if TakeLocks(s, t) || FinalCheck(s, t) {
      LocksWatch(s, t);
    } else if Send(s, t) || SendFails(s, t) {
      SendWatches(s, t);
    } else if identity :| PickRemoval(s, identity, t) {
      PickRemovalWatches(s, identity, t);
    } else if identity :| PickAddition(s, identity, t) {
      PickAdditionWatches(s, identity, t);
    } else {
      PassWatches(s, t);
    }
  }

  lemma {:induction false} RunWatches(states: seq<State>, i: nat)
    requires Run(states) && i < |states|
    ensures Watched(states[i])
  {
    if i > 0 {
      RunKeeps(states, i - 1);
      RunWatches(states, i - 1);
      assert Step(states, i - 1);
      NextWatches(states[i - 1], states[i]);
    }
  }

  // ---------- In every run ----------

  // Whoever looks for a frame to cancel finds the one that is being written, and only while it is.
  lemma TableIsExact(states: seq<State>, i: nat)
    requires Run(states) && i < |states|
    ensures var s := states[i];
            if Busy(s) && s.work.stage != Chosen
            then s.admissions == map[s.work.identity :=
                                       WireAdmission(s.work.token, s.work.command, s.work.group.wire)]
            else s.admissions == map[]
  {
    RunKeeps(states, i);
    RunWatches(states, i);
  }

  // As soon as a change of the registry is published, every frame under way that no longer suits is stale.
  lemma ChangesAreNoticed(states: seq<State>, i: nat)
    requires Run(states) && i < |states| && UnderWay(states[i]) && !states[i].commit.Changing?
    ensures var s := states[i];
            Suits(s.work.command, s.work.group.wire, Now(s.subs, s.work.identity)) || s.work.token in s.stale
  {
    RunWatches(states, i);
  }

  // A pass fails only at a frame under way, and never for a stale one unless serve is returning: a change of the
  // registry does not take the connection down.
  lemma PassFailsForAReason(states: seq<State>, i: nat)
    requires Run(states) && i + 1 < |states|
    requires states[i].phase != Finished(false) && states[i + 1].phase == Finished(false)
    ensures UnderWay(states[i]) && (states[i].returning || states[i].work.token !in states[i].stale)
  {
    RunWatches(states, i);
    assert Step(states, i);
    FailingSteps(states[i], states[i + 1]);
  }

  lemma FailingSteps(s: State, t: State)
    requires Next(s, t) && CheckedIsFresh(s)
    requires s.phase != Finished(false) && t.phase == Finished(false)
    ensures UnderWay(s) && (s.returning || s.work.token !in s.stale)
  {
    if !ClientNext(s, t) && !ServerNext(s, t) {
      FailingSyncSteps(s, t);
    } else if ClientNext(s, t) {
      ClientLeaves(s, t);
    } else {
      ServerLeaves(s, t);
    }
  }

  // The phase and the history are left alone, or the pass moves on.
  ghost predicate Harmless(s: State, t: State) {
    t.record.log == s.record.log && (t.phase == Finished(false) ==> s.phase == Finished(false))
  }

  lemma PassIsHarmless(s: State, t: State)
    requires TakeSnapshot(s, t) || ListActive(s, t) || EndPass(s, t)
    ensures Harmless(s, t)
  {}

  lemma RemovalIsHarmless(s: State, identity: Text, t: State)
    requires PickRemoval(s, identity, t)
    ensures Harmless(s, t)
  {}

  lemma AdditionIsHarmless(s: State, identity: Text, t: State)
    requires PickAddition(s, identity, t)
    ensures Harmless(s, t)
  {}

  lemma EntryIsHarmless(s: State, t: State)
    requires EnterAdmission(s, t)
    ensures Harmless(s, t)
  {}

  lemma RecheckIsHarmless(s: State, t: State)
    requires RecheckAdmission(s, t)
    ensures Harmless(s, t)
  {}

  lemma WaitingIsHarmless(s: State, t: State)
    requires WaitSucceeds(s, t)
    ensures Harmless(s, t)
  {}

  lemma LockingIsHarmless(s: State, t: State)
    requires TakeLocks(s, t) || FinalCheck(s, t)
    ensures Harmless(s, t)
  {}

  // What is left: a wait or a write that fails, and the frame itself.
  lemma SyncIsHarmless(s: State, t: State)
    requires SyncNext(s, t) && !WaitFails(s, t) && !Send(s, t) && !SendFails(s, t)
    ensures Harmless(s, t)
  {
    if identity :| PickRemoval(s, identity, t) {
      RemovalIsHarmless(s, identity, t);
    } else if identity :| PickAddition(s, identity, t) {
      AdditionIsHarmless(s, identity, t);
    } else if EnterAdmission(s, t) {
      EntryIsHarmless(s, t);
    } else if RecheckAdmission(s, t) {
      RecheckIsHarmless(s, t);
    } else if WaitSucceeds(s, t) {
      WaitingIsHarmless(s, t);
    } else if TakeLocks(s, t) || FinalCheck(s, t) {
      LockingIsHarmless(s, t);
    } else {
      PassIsHarmless(s, t);
    }
  }

  lemma FailingSyncSteps(s: State, t: State)
    requires SyncNext(s, t) && CheckedIsFresh(s)
    requires s.phase != Finished(false) && t.phase == Finished(false)
    ensures UnderWay(s) && (s.returning || s.work.token !in s.stale)
  {
    if !WaitFails(s, t) && !Send(s, t) && !SendFails(s, t) {
      SyncIsHarmless(s, t);
    } else {
      WritingFails(s, t);
    }
  }

  lemma WritingFails(s: State, t: State)
    requires CheckedIsFresh(s) && (WaitFails(s, t) || Send(s, t) || SendFails(s, t))
    requires s.phase != Finished(false) && t.phase == Finished(false)
    ensures UnderWay(s) && (s.returning || s.work.token !in s.stale)
  {}

  // And when one has failed, serve returns as soon as it sees it.
  lemma FailedPassEndsTheGeneration(states: seq<State>, i: nat)
    requires Run(states) && i + 1 < |states|
    requires states[i].phase == Finished(false) && states[i + 1].phase != Finished(false)
    ensures states[i + 1].returning
  {
    RunKeeps(states, i);
    assert Step(states, i);
    OnlyServeTakesFailure(states[i], states[i + 1]);
  }

  lemma OnlyServeTakesFailure(s: State, t: State)
    requires LocksKept(s) && Next(s, t) && s.phase == Finished(false) && t.phase != Finished(false)
    ensures ConsumeResult(s, t)
  {
    if ServerNext(s, t) {
      ServerLeaves(s, t);
    } else if SyncNext(s, t) {
      SyncNeedsAPass(s, t);
    }
  }

  lemma SyncNeedsAPass(s: State, t: State)
    requires LocksKept(s) && SyncNext(s, t)
    ensures s.phase.Launched? || s.phase.Grouped? || s.phase.Passing?
  {}

  // So closing the last handle of a subscription that waits to be written, or opening one that waits to be taken off
  // the wire, does not end the pass.
  lemma OutdatedFramesDoNotFail(states: seq<State>, i: nat)
    requires Run(states) && i + 1 < |states| && UnderWay(states[i])
    requires !states[i].commit.Changing? && !states[i].returning
    requires var s := states[i]; !Suits(s.work.command, s.work.group.wire, Now(s.subs, s.work.identity))
    ensures states[i + 1].phase != Finished(false)
  {
    RunKeeps(states, i);
    ChangesAreNoticed(states, i);
    if states[i + 1].phase == Finished(false) {
      PassFailsForAReason(states, i);
    }
  }

  // Its wait can end at once, with the pass going on and nothing written.
  lemma StaleWaitsCanEnd(s: State)
    requires At(s, Waiting) && s.work.token in s.stale
    ensures Next(s, Skip(s)) && Skip(s).work.NoWork?
    ensures Skip(s).phase == s.phase && Skip(s).plan == s.plan && Skip(s).record == s.record
  {
    assert WaitFails(s, Skip(s));
  }

  // And no stale frame is ever written.
  lemma StaleFramesAreNotWritten(states: seq<State>, i: nat)
    requires Run(states) && i + 1 < |states| && |states[i + 1].record.log| == |states[i].record.log| + 1
    requires states[i + 1].record.log[|states[i].record.log|].Frame?
    ensures Busy(states[i]) && states[i].work.token !in states[i].stale
  {
    RunWatches(states, i);
    assert Step(states, i);
    OnlySendsWrite(states[i], states[i + 1]);
  }

  lemma OnlySendsWrite(s: State, t: State)
    requires Next(s, t) && |t.record.log| == |s.record.log| + 1 && t.record.log[|s.record.log|].Frame?
    ensures Send(s, t)
  {
    if ClientNext(s, t) {
      ClientLeaves(s, t);
    } else if ack :| Reject(s, ack, t) {
      RejectionLeaves(s, ack, t);
    } else if ServerNext(s, t) {
      AnswersLeave(s, t);
    } else if WaitFails(s, t) || SendFails(s, t) {
      FailureWritesNothing(s, t);
    } else if !Send(s, t) {
      SyncIsHarmless(s, t);
    }
  }

  lemma FailureWritesNothing(s: State, t: State)
    requires WaitFails(s, t) || SendFails(s, t)
    ensures t.record == s.record
  {}
}
