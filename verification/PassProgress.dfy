/** websocket/manager.go: a pass of syncSubscriptions is never stuck, and comes to its end after a bounded number of
    its own steps, whatever the other goroutines do in between. */
module PassProgress {
  import opened Interleaving
  import opened Protocol
  import opened Registry

  // How many steps the frame in hand may still take.
  function StepsOf(work: Work): nat {
    match work
    case NoWork => 0
    case Write(_, _, _, _, stage) =>
      match stage
      case Chosen => 6
      case Entered => 5
      case Waiting => 4
      case Admitted => 3
      case Locked => 2
      case Checked => 1
  }

  // How many steps a pass between its loops' beginning and end may still take.
  function StepsLeft(s: State): nat {
    7 * (|s.plan.removals| + |s.plan.additions|) + StepsOf(s.work) + 1
  }

  // Fewer identities to look at, whatever is chosen to be written.
  lemma FewerLeft(all: set<Text>, identity: Text)
    requires identity in all
    ensures |all - {identity}| == |all| - 1
  {}

  lemma PickRemovalAdvances(s: State, identity: Text, t: State)
    requires PickRemoval(s, identity, t)
    ensures t.phase.Passing? && StepsLeft(t) < StepsLeft(s)
  {
    FewerLeft(s.plan.removals, identity);
    RemovalPicked(s, identity, t);
  }

  lemma RemovalPicked(s: State, identity: Text, t: State)
    requires PickRemoval(s, identity, t)
    ensures t.phase == s.phase && StepsOf(s.work) == 0 && StepsOf(t.work) <= 6
    ensures t.plan.removals == s.plan.removals - {identity} && t.plan.additions == s.plan.additions
  {}

  lemma PickAdditionAdvances(s: State, identity: Text, t: State)
    requires PickAddition(s, identity, t)
    ensures t.phase.Passing? && StepsLeft(t) < StepsLeft(s)
  {
    FewerLeft(s.plan.additions, identity);
    AdditionPicked(s, identity, t);
  }

  lemma AdditionPicked(s: State, identity: Text, t: State)
    requires PickAddition(s, identity, t)
    ensures t.phase == s.phase && StepsOf(s.work) == 0 && StepsOf(t.work) <= 6
    ensures t.plan.additions == s.plan.additions - {identity} && t.plan.removals == s.plan.removals
  {}

  // The frame in hand has fewer steps to go, and nothing else is taken in hand.
  ghost predicate FrameAdvances(s: State, t: State) {
    t.plan == s.plan && StepsOf(t.work) < StepsOf(s.work) && (t.phase == s.phase || t.phase.Finished?)
  }

  lemma EnterAdvances(s: State, t: State)
    requires EnterAdmission(s, t)
    ensures FrameAdvances(s, t)
  {}

  lemma RecheckAdvances(s: State, t: State)
    requires RecheckAdmission(s, t)
    ensures FrameAdvances(s, t)
  {}

  lemma WaitSuccessAdvances(s: State, t: State)
    requires WaitSucceeds(s, t)
    ensures FrameAdvances(s, t)
  {}

  lemma WaitFailureAdvances(s: State, t: State)
    requires WaitFails(s, t)
    ensures FrameAdvances(s, t)
  {}

  lemma LocksAdvance(s: State, t: State)
    requires TakeLocks(s, t)
    ensures FrameAdvances(s, t)
  {}

  lemma FinalCheckAdvances(s: State, t: State)
    requires FinalCheck(s, t)
    ensures FrameAdvances(s, t)
  {}

  lemma SendingAdvances(s: State, t: State)
    requires Send(s, t) || SendFails(s, t)
    ensures FrameAdvances(s, t)
  {}

  // Every step of the synchronizer brings a pass closer to its end, ...
  lemma SyncStepsAdvance(s: State, t: State)
    requires s.phase.Passing? && SyncNext(s, t)
    ensures t.phase.Finished? || (t.phase.Passing? && StepsLeft(t) < StepsLeft(s))
  {
    if identity :| PickRemoval(s, identity, t) {
      PickRemovalAdvances(s, identity, t);
    } else if identity :| PickAddition(s, identity, t) {
      PickAdditionAdvances(s, identity, t);
    } else if EnterAdmission(s, t) {
      EnterAdvances(s, t);
    } else if RecheckAdmission(s, t) {
      RecheckAdvances(s, t);
    } else if WaitSucceeds(s, t) {
      WaitSuccessAdvances(s, t);
    } else if WaitFails(s, t) {
      WaitFailureAdvances(s, t);
    } else if TakeLocks(s, t) {
      LocksAdvance(s, t);
    } else if FinalCheck(s, t) {
      FinalCheckAdvances(s, t);
    } else if !EndPass(s, t) {
      SendingAdvances(s, t);
    }
  }

  // ... and no step of anybody else takes it further away.
  lemma OthersDoNotSetBack(s: State, t: State)
    requires s.phase.Passing? && (ClientNext(s, t) || ServerNext(s, t))
    ensures t.phase.Passing? && StepsLeft(t) == StepsLeft(s)
  {
    if ClientNext(s, t) {
      ClientLeaves(s, t);
    } else {
      ServerLeaves(s, t);
    }
  }

  // A pass that has begun can always take a step of its own, except that it waits for another goroutine to let go of
  // commitMu.
  lemma PassIsNeverStuck(states: seq<State>, i: nat) returns (t: State)
    requires Run(states) && i < |states|
    requires states[i].phase.Launched? || states[i].phase.Grouped? || states[i].phase.Passing?
    requires states[i].commit.Free? || states[i].commit.Writing?
    ensures SyncNext(states[i], t)
  {
    RunKeeps(states, i);
    t := NextOwnStep(states[i]);
  }

  lemma NextOwnStep(s: State) returns (t: State)
    requires LocksKept(s) && (s.commit.Free? || s.commit.Writing?)
    requires s.phase.Launched? || s.phase.Grouped? || s.phase.Passing?
    requires s.phase.Passing? ==> s.plan.additions <= s.plan.current.Keys
    ensures SyncNext(s, t)
  {
    if s.phase.Launched? {
      t := s.(phase := Grouped, plan := Plan(s.subs, s.record.subscribed.Keys, |s.record.log|, Groups(s.subs), {}, {}));
      assert TakeSnapshot(s, t);
    } else if s.phase.Grouped? {
      t := s.(phase := Passing,
              plan := s.plan.(removals := s.record.subscribed.Keys, additions := s.plan.current.Keys));
      assert ListActive(s, t);
    } else if s.work.NoWork? {
      t := LoopStep(s);
    } else {
      t := WriteStep(s);
    }
  }

  lemma LoopStep(s: State) returns (t: State)
    requires s.phase.Passing? && s.work.NoWork? && s.plan.additions <= s.plan.current.Keys
    ensures SyncNext(s, t)
  {
    if identity :| identity in s.plan.removals {
      t := RemovalStep(s, identity);
      assert PickRemoval(s, identity, t);
    } else if identity :| identity in s.plan.additions {
      t := AdditionStep(s, identity);
      assert PickAddition(s, identity, t);
    } else {
      t := s.(phase := Finished(true));
      assert EndPass(s, t);
    }
  }

  lemma RemovalStep(s: State, identity: Text) returns (t: State)
    requires s.phase.Passing? && s.work.NoWork? && identity in s.plan.removals
    ensures PickRemoval(s, identity, t)
  {
    var rest := s.plan.(removals := s.plan.removals - {identity});
    t := if identity !in s.record.subscribed then s.(plan := rest)
         else if identity in s.plan.current then
           s.(plan := rest, record := WithMembers(s.record, identity, s.plan.current[identity].members))
         else s.(plan := rest, work := Write(Unsubscribe, identity, s.record.subscribed[identity], 0, Chosen));
  }

  lemma AdditionStep(s: State, identity: Text) returns (t: State)
    requires s.phase.Passing? && s.work.NoWork? && s.plan.removals == {}
    requires identity in s.plan.additions && identity in s.plan.current
    ensures PickAddition(s, identity, t)
  {
    var rest := s.plan.(additions := s.plan.additions - {identity});
    t := if identity in s.record.subscribed then s.(plan := rest)
         else s.(plan := rest, work := Write(Subscribe, identity, s.plan.current[identity], 0, Chosen));
  }

  lemma WriteStep(s: State) returns (t: State)
    requires LocksKept(s) && Busy(s) && (s.commit.Free? || s.commit.Writing?)
    ensures SyncNext(s, t)
  {
    match s.work.stage
    case Chosen =>
      var admission := WireAdmission(s.nextToken, s.work.command, s.work.group.wire);
      t := s.(admissions := s.admissions[s.work.identity := admission], nextToken := s.nextToken + 1,
              work := Write(s.work.command, s.work.identity, s.work.group, s.nextToken, Entered));
      assert EnterAdmission(s, t);
    case Entered =>
      var suits := Suits(s.work.command, s.work.group.wire, Now(s.subs, s.work.identity));
      t := s.(work := Staged(s, Waiting), stale := if suits then s.stale else s.stale + {s.work.token});
      assert RecheckAdmission(s, t);
    case Waiting =>
      var present := (s.work.command == Subscribe) == (s.work.identity in Identities(s.subs));
      t := if present then s.(work := Staged(s, Admitted)) else Skip(s);
      assert WaitSucceeds(s, t);
    case Admitted =>
      t := s.(work := Staged(s, Locked), commit := Writing);
      assert TakeLocks(s, t);
    case Locked =>
      var fine := s.work.token !in s.stale && Suits(s.work.command, s.work.group.wire, Now(s.subs, s.work.identity));
      t := if fine then s.(work := Staged(s, Checked)) else Skip(s);
      assert FinalCheck(s, t);
    case Checked =>
      t := Leave(s, s.phase, if s.work.command == Subscribe
                             then AfterSubscribe(s.record, s.work.identity, s.work.group, s.subs)
                             else AfterUnsubscribe(s.record, s.work.identity, s.work.group.wire, s.subs));
      assert Send(s, t);
  }

  // ---------- The goroutines around it ----------

  // Serve can return at any moment, and nothing makes it forget that it has.
  lemma ServeCanReturn(s: State, t: State)
    ensures Next(s, s.(returning := true))
    ensures s.returning && Next(s, t) ==> t.returning
  {
    assert Return(s, s.(returning := true));
    if s.returning && Next(s, t) {
      NobodyResumes(s, t);
    }
  }

  lemma NobodyResumes(s: State, t: State)
    requires s.returning && Next(s, t)
    ensures t.returning
  {
    if ServerNext(s, t) {
      AnswersResumeNothing(s, t);
    } else if SyncNext(s, t) {
      SyncLeavesOthers(s, t);
    }
  }

  lemma AnswersResumeNothing(s: State, t: State)
    requires ServerNext(s, t)
    ensures s.returning ==> t.returning
  {}

  // Serve never leaves a wake or a result lying: a wake starts a pass, or makes serve remember to start one as soon as
  // the one that runs has finished.
  lemma ServeTakesWakes(s: State) returns (t: State)
    requires s.wake && !s.returning
    ensures Next(s, t) && !t.wake
    ensures if s.phase.Stopped? then t.phase.Launched? else t.phase == s.phase && t.syncAgain
  {
    t := if s.phase.Stopped? then s.(wake := false, phase := Launched, syncAgain := false)
         else s.(wake := false, syncAgain := true);
    assert ConsumeWake(s, t);
  }

  lemma ServeTakesResults(s: State) returns (t: State)
    requires s.phase.Finished? && !s.returning
    ensures Next(s, t) && if s.phase.ok && s.syncAgain then t.phase.Launched? else t.phase.Stopped?
    ensures t.returning <==> !s.phase.ok
  {
    t := if !s.phase.ok then s.(phase := Stopped, returning := true)
         else if s.syncAgain then s.(phase := Launched, syncAgain := false)
         else s.(phase := Stopped);
    assert ConsumeResult(s, t);
  }

  // Whoever registers or removes a handle owes a wake, even if the key has moved on, and pays it before letting go of
  // commitMu.
  lemma ClientsOweAWake(s: State, key: Key, handle: Handle<Text>, t: State)
    ensures Register(s, key, handle, t) || Unregister(s, key, handle, t) ==> t.commit.Changing? || t.commit.Notifying?
    ensures (s.commit.Changing? || s.commit.Notifying?) && Next(s, t) && t.commit != s.commit ==>
              t.commit.Free? && t.wake
  {
    if (s.commit.Changing? || s.commit.Notifying?) && Next(s, t) && t.commit != s.commit {
      OnlyPublishPays(s, t);
    }
  }

  lemma OnlyPublishPays(s: State, t: State)
    requires (s.commit.Changing? || s.commit.Notifying?) && Next(s, t) && t.commit != s.commit
    ensures Publish(s, t)
  {
    if ServerNext(s, t) {
      AnswersPayNothing(s, t);
    } else if SyncNext(s, t) {
      SyncLeavesOthers(s, t);
    }
  }

  lemma AnswersPayNothing(s: State, t: State)
    requires ServerNext(s, t) && (s.commit.Changing? || s.commit.Notifying?)
    ensures t.commit == s.commit
  {}

  // The synchronizer neither stops serve nor pays for others.
  ghost predicate LeavesOthers(s: State, t: State) {
    t.returning == s.returning && (s.commit.Changing? || s.commit.Notifying? ==> t.commit == s.commit)
  }

  lemma LoopsLeaveOthers(s: State, t: State)
    requires TakeSnapshot(s, t) || ListActive(s, t) || EndPass(s, t)
    ensures LeavesOthers(s, t)
  {}

  lemma PickRemovalLeavesOthers(s: State, identity: Text, t: State)
    requires PickRemoval(s, identity, t)
    ensures LeavesOthers(s, t)
  {}

  lemma PickAdditionLeavesOthers(s: State, identity: Text, t: State)
    requires PickAddition(s, identity, t)
    ensures LeavesOthers(s, t)
  {}

  lemma AdmissionLeavesOthers(s: State, t: State)
    requires EnterAdmission(s, t) || RecheckAdmission(s, t)
    ensures LeavesOthers(s, t)
  {}

  lemma WaitLeavesOthers(s: State, t: State)
    requires WaitSucceeds(s, t) || WaitFails(s, t)
    ensures LeavesOthers(s, t)
  {}

  lemma LockingLeavesOthers(s: State, t: State)
    requires TakeLocks(s, t) || FinalCheck(s, t)
    ensures LeavesOthers(s, t)
  {}

  lemma WriteLeavesOthers(s: State, t: State)
    requires Send(s, t) || SendFails(s, t)
    ensures LeavesOthers(s, t)
  {}

  lemma SyncLeavesOthers(s: State, t: State)
    requires SyncNext(s, t)
    ensures LeavesOthers(s, t)
  {
    if identity :| PickRemoval(s, identity, t) {
      PickRemovalLeavesOthers(s, identity, t);
    } else if identity :| PickAddition(s, identity, t) {
      PickAdditionLeavesOthers(s, identity, t);
    } else if EnterAdmission(s, t) || RecheckAdmission(s, t) {
      AdmissionLeavesOthers(s, t);
    } else if WaitSucceeds(s, t) || WaitFails(s, t) {
      WaitLeavesOthers(s, t);
    } else if TakeSnapshot(s, t) || ListActive(s, t) || EndPass(s, t) {
      LoopsLeaveOthers(s, t);
    } else if TakeLocks(s, t) || FinalCheck(s, t) {
      LockingLeavesOthers(s, t);
    } else {
      WriteLeavesOthers(s, t);
    }
  }
}
