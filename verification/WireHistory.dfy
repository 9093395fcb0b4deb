/** websocket/manager.go: the wires of frames, pending requests and subscriptions belong together: a request waits for
    the answer to the frame that was written, and an unsubscribe names what was subscribed. */
module WireHistory {
  import opened Interleaving
  import opened Protocol
  import opened Registry
  import opened StaleFrames
  import opened Wrappers

  // The wire of the last frame of this command and identity.
  function LastWire(log: seq<Event<Key, Text>>, command: Command, identity: Text): Option<Text> {
    if log == [] then None
    else
      var last := log[|log| - 1];
      if last.Frame? && last.command == command && last.identity == identity then Some(last.wire)
      else LastWire(log[..|log| - 1], command, identity)
  }

  lemma OneMoreFrame(log: seq<Event<Key, Text>>, event: Event<Key, Text>, command: Command, identity: Text)
    ensures LastWire(log + [event], command, identity) ==
            if event.Frame? && event.command == command && event.identity == identity then Some(event.wire)
            else LastWire(log, command, identity)
  {
    assert (log + [event])[..|log|] == log;
  }

  ghost predicate RecordAgrees(r: Record<Key, Text>) {
    && (forall identity | identity in r.subscribed ::
          LastWire(r.log, Subscribe, identity) == Some(r.subscribed[identity].wire))
    && (forall key | key in r.pending :: LastWire(r.log, key.command, key.identity) == Some(r.pending[key].wire))
    && Matched(r.log)
  }

  // Every unsubscribe names the wire of the subscribe before it.
  ghost predicate Matched(log: seq<Event<Key, Text>>) {
    forall i | 0 <= i < |log| && log[i].Frame? && log[i].command == Unsubscribe ::
      LastWire(log[..i], Subscribe, log[i].identity) == Some(log[i].wire)
  }

  // An unsubscribe on its way is about to name it.
  ghost predicate WiresAgree(s: State) {
    && RecordAgrees(s.record)
    && (Busy(s) && s.work.command == Unsubscribe ==>
          LastWire(s.record.log, Subscribe, s.work.identity) == Some(s.work.group.wire))
  }

  // Fewer requests and subscriptions, with the wires they had.
  ghost predicate Fewer(r: Record<Key, Text>, after: Record<Key, Text>) {
    && (forall identity | identity in after.subscribed ::
          identity in r.subscribed && after.subscribed[identity].wire == r.subscribed[identity].wire)
    && (forall key | key in after.pending :: key in r.pending && after.pending[key] == r.pending[key])
  }

  ghost predicate SameFrame(s: State, t: State) {
    Busy(t) && t.work.command == Unsubscribe ==>
      Busy(s) && s.work.command == Unsubscribe && t.work.identity == s.work.identity && t.work.group == s.work.group
  }

  // A step that neither writes nor chooses what to write.
  ghost predicate StillAgrees(s: State, t: State) {
    Fewer(s.record, t.record) && t.record.log == s.record.log && SameFrame(s, t)
  }

  lemma FewerAgree(s: State, t: State)
    requires WiresAgree(s) && StillAgrees(s, t)
    ensures WiresAgree(t)
  {}

  lemma MatchedAppended(log: seq<Event<Key, Text>>, event: Event<Key, Text>)
    requires Matched(log)
    requires event.Frame? && event.command == Unsubscribe ==>
               LastWire(log, Subscribe, event.identity) == Some(event.wire)
    ensures Matched(log + [event])
  {
    var after := log + [event];
    forall i | 0 <= i < |after| && after[i].Frame? && after[i].command == Unsubscribe
      ensures LastWire(after[..i], Subscribe, after[i].identity) == Some(after[i].wire)
    {
      assert after[..i] == log[..i];
      if i < |log| {
        assert after[i] == log[i];
      } else {
        assert log[..i] == log;
      }
    }
  }

  lemma RejectionAgrees(s: State, ack: AckKey<Text>, t: State)
    requires WiresAgree(s) && Reject(s, ack, t)
    ensures WiresAgree(t)
  {
    var event: Event<Key, Text> := Rejected(s.record.pending[ack].identity);
    RejectedRecord(s, ack, t);
    MatchedAppended(s.record.log, event);
    forall command, identity
      ensures LastWire(t.record.log, command, identity) == LastWire(s.record.log, command, identity)
    {
      OneMoreFrame(s.record.log, event, command, identity);
    }
  }

  lemma RejectedRecord(s: State, ack: AckKey<Text>, t: State)
    requires Reject(s, ack, t)
    ensures t.record.log == s.record.log + [Rejected(s.record.pending[ack].identity)]
    ensures Fewer(s.record, t.record) && t.work == s.work
  {}

  lemma SubscribeAgrees(r: Record<Key, Text>, identity: Text, group: Active<Key, Text>,
                        registry: Subscriptions<Key, Text>)
    requires RecordAgrees(r)
    ensures RecordAgrees(AfterSubscribe(r, identity, group, registry))
  {
    var event: Event<Key, Text> := Frame(Subscribe, identity, group.wire, registry);
    MatchedAppended(r.log, event);
    forall command, other | true
      ensures LastWire(r.log + [event], command, other) ==
              if command == Subscribe && other == identity then Some(group.wire) else LastWire(r.log, command, other)
    {
      OneMoreFrame(r.log, event, command, other);
    }
  }

  lemma UnsubscribeAgrees(r: Record<Key, Text>, identity: Text, wire: Text, registry: Subscriptions<Key, Text>)
    requires RecordAgrees(r) && LastWire(r.log, Subscribe, identity) == Some(wire)
    ensures RecordAgrees(AfterUnsubscribe(r, identity, wire, registry))
  {
    var event: Event<Key, Text> := Frame(Unsubscribe, identity, wire, registry);
    MatchedAppended(r.log, event);
    forall command, other | true
      ensures LastWire(r.log + [event], command, other) ==
              if command == Unsubscribe && other == identity then Some(wire) else LastWire(r.log, command, other)
    {
      OneMoreFrame(r.log, event, command, other);
    }
  }

  lemma SentRecord(s: State, t: State)
    requires Send(s, t)
    ensures t.work == NoWork
    ensures t.record == if s.work.command == Subscribe
                        then AfterSubscribe(s.record, s.work.identity, s.work.group, s.subs)
                        else AfterUnsubscribe(s.record, s.work.identity, s.work.group.wire, s.subs)
  {}

  lemma SendAgrees(s: State, t: State)
    requires WiresAgree(s) && Send(s, t)
    ensures WiresAgree(t)
  {
    SentRecord(s, t);
    if s.work.command == Subscribe {
      SubscribeAgrees(s.record, s.work.identity, s.work.group, s.subs);
    } else {
      UnsubscribeAgrees(s.record, s.work.identity, s.work.group.wire, s.subs);
    }
  }

  // The removals that only change what a subscription feeds, or change nothing.
  lemma KeptRemovalAgrees(s: State, identity: Text, t: State)
    requires PickRemoval(s, identity, t)
    requires identity !in s.record.subscribed || identity in s.plan.current
    ensures StillAgrees(s, t)
  {}

  lemma PickRemovalAgrees(s: State, identity: Text, t: State)
    requires WiresAgree(s) && PickRemoval(s, identity, t)
    ensures WiresAgree(t)
  {
    if identity !in s.record.subscribed || identity in s.plan.current {
      KeptRemovalAgrees(s, identity, t);
      FewerAgree(s, t);
    }
  }

  lemma PickAdditionAgrees(s: State, identity: Text, t: State)
    requires WiresAgree(s) && PickAddition(s, identity, t)
    ensures WiresAgree(t)
  {}

  lemma AcknowledgeAgrees(s: State, ack: AckKey<Text>, t: State)
    requires Acknowledge(s, ack, t)
    ensures StillAgrees(s, t)
  {}

  lemma ForgettingAgrees(s: State, t: State)
    requires (exists ack :: DropUnsubscribe(s, ack, t)) || (exists acks :: Expire(s, acks, t))
    ensures StillAgrees(s, t)
  {}

  lemma PassAgrees(s: State, t: State)
    requires TakeSnapshot(s, t) || ListActive(s, t) || EndPass(s, t)
    ensures StillAgrees(s, t)
  {}

  lemma EnterAdmissionAgrees(s: State, t: State)
    requires EnterAdmission(s, t)
    ensures StillAgrees(s, t)
  {}

  lemma RecheckAdmissionAgrees(s: State, t: State)
    requires RecheckAdmission(s, t)
    ensures StillAgrees(s, t)
  {}

  lemma WaitSucceedsAgrees(s: State, t: State)
    requires WaitSucceeds(s, t)
    ensures StillAgrees(s, t)
  {}

  lemma WaitFailsAgrees(s: State, t: State)
    requires WaitFails(s, t)
    ensures StillAgrees(s, t)
  {}

  lemma TakeLocksAgrees(s: State, t: State)
    requires TakeLocks(s, t)
    ensures StillAgrees(s, t)
  {}

  lemma FinalCheckAgrees(s: State, t: State)
    requires FinalCheck(s, t)
    ensures StillAgrees(s, t)
  {}

  lemma SendFailsAgrees(s: State, t: State)
    requires SendFails(s, t)
    ensures StillAgrees(s, t)
  {}

  lemma SyncAgrees(s: State, t: State)
    requires WiresAgree(s) && SyncNext(s, t)
    ensures WiresAgree(t)
  {
    if Send(s, t) {
      SendAgrees(s, t);
    } else if identity :| PickRemoval(s, identity, t) {
      PickRemovalAgrees(s, identity, t);
    } else if identity :| PickAddition(s, identity, t) {
      PickAdditionAgrees(s, identity, t);
    } else {
      if EnterAdmission(s, t) {
        EnterAdmissionAgrees(s, t);
      } else if RecheckAdmission(s, t) {
        RecheckAdmissionAgrees(s, t);
      } else if WaitSucceeds(s, t) {
        WaitSucceedsAgrees(s, t);
      } else if WaitFails(s, t) {
        WaitFailsAgrees(s, t);
      } else if TakeLocks(s, t) {
        TakeLocksAgrees(s, t);
      } else if FinalCheck(s, t) {
        FinalCheckAgrees(s, t);
      } else if SendFails(s, t) {
        SendFailsAgrees(s, t);
      } else {
        PassAgrees(s, t);
      }
      FewerAgree(s, t);
    }
  }

  lemma NextAgrees(s: State, t: State)
    requires WiresAgree(s) && Next(s, t)
    ensures WiresAgree(t)
  {
    if SyncNext(s, t) {
      SyncAgrees(s, t);
    } else if ack :| Reject(s, ack, t) {
      RejectionAgrees(s, ack, t);
    } else {
      if ClientNext(s, t) {
        ClientLeaves(s, t);
      } else if ack :| Acknowledge(s, ack, t) {
        AcknowledgeAgrees(s, ack, t);
      } else {
        ForgettingAgrees(s, t);
      }
      FewerAgree(s, t);
    }
  }

  lemma InitAgrees(s: State)
    requires Init(s)
    ensures WiresAgree(s)
  {}

  lemma {:induction false} RunAgrees(states: seq<State>, i: nat)
    requires Run(states) && i < |states|
    ensures WiresAgree(states[i])
  {
    if i == 0 {
      InitAgrees(states[0]);
    } else {
      RunAgrees(states, i - 1);
      assert Step(states, i - 1);
      NextAgrees(states[i - 1], states[i]);
    }
  }

  // A pending request waits for the answer to the frame of its command that was written last, and so does a
  // subscription that is on the wire.
  lemma RequestsAreTheFramesWritten(states: seq<State>, i: nat)
    requires Run(states) && i < |states|
    ensures var r := states[i].record;
            && (forall key | key in r.pending ::
                  LastWire(r.log, key.command, key.identity) == Some(r.pending[key].wire))
            && (forall identity | identity in r.subscribed ::
                  LastWire(r.log, Subscribe, identity) == Some(r.subscribed[identity].wire))
  {
    RunAgrees(states, i);
  }

  // Every frame is answered for: from then on its answer is awaited, and an unsubscribe ends the wait for an earlier
  // subscribe.
  lemma FramesAreAwaited(states: seq<State>, i: nat)
    requires Run(states) && i + 1 < |states| && |states[i + 1].record.log| == |states[i].record.log| + 1
    requires states[i + 1].record.log[|states[i].record.log|].Frame?
    ensures var frame, before, after := states[i + 1].record.log[|states[i].record.log|],
                                        states[i].record.pending, states[i + 1].record.pending;
            var request := AckKey(frame.command, frame.identity);
            && request in after && after[request] == PendingAck(frame.command, frame.identity, frame.wire)
            && (frame.command == Unsubscribe ==> AckKey(Subscribe, frame.identity) !in after)
            && (forall key | key in before && key.identity != frame.identity :: key in after)
            && (forall key | key in after && key.identity != frame.identity ::
                  key in before && after[key] == before[key])
  {
    assert Step(states, i);
    OnlySendsWrite(states[i], states[i + 1]);
    SentRecord(states[i], states[i + 1]);
  }

  // An unsubscribe takes off the wire what the last subscribe put there.
  lemma UnsubscribesNameWhatWasSubscribed(states: seq<State>, i: nat, j: nat)
    requires Run(states) && i < |states| && j < |states[i].record.log|
    requires states[i].record.log[j].Frame? && states[i].record.log[j].command == Unsubscribe
    ensures var log := states[i].record.log; LastWire(log[..j], Subscribe, log[j].identity) == Some(log[j].wire)
  {
    RunAgrees(states, i);
  }
}
