/** websocket/state.go and the lifecycle half of websocket/market_subscription.go: the bounded channel of state
    events of one subscription. Producers hold deliveryMu for several channel operations, and the
    observer may receive between any two of them. */
module Lifecycle {
  import opened Wrappers

  datatype LifeState = Connecting | Connected | Reconnecting | Subscribed | Unsubscribed | Error

  datatype Event = Event(sequence: nat, state: LifeState, error: Option<string>)

  const MISSING_ERROR := "websocket subscription error state requires an error"

  // An error state always carries an error, no other state does.
  function EventOf(sequence: nat, state: LifeState, error: Option<string>): (event: Event)
    ensures event.sequence == sequence && event.state == state
    ensures event.error == if state != Error then None
                           else if error.Some? then error
                           else Some("websocket subscription error state requires an error")
  {
    Event(sequence, state, if state != Error then None else if error.None? then Some(MISSING_ERROR) else error)
  }

  // The holder of deliveryMu, between the channel operations of enqueueSubscriptionState.
  datatype Work = Idle | Trying(event: Event) | Dropping(event: Event) | Sending(event: Event)

  // sync.Once of Close and terminate: nobody came yet, the winner is on its way to the lock, its event is made.
  datatype Once = Fresh | Ending(state: LifeState, error: Option<string>) | Ended

  // An event that has left the channel, to the observer or to make room.
  datatype Gone = Gone(event: Event, observed: bool)

  datatype State = State(
    capacity: nat,
    once: Once,
    done: bool,
    closed: bool,
    lastState: Option<LifeState>,
    stateSeq: nat,
    buffer: seq<Event>,
    work: Work,
    // History: every event ever made, and those that have left the channel.
    history: seq<Event>,
    gone: seq<Gone>)

  ghost predicate Init(s: State) {
    && 0 < s.capacity
    && s == State(s.capacity, Fresh, false, false, None, 0, [], Idle, [], [])
  }

  // ---------- The steps ----------

  function Made(s: State, event: Event): State {
    s.(stateSeq := event.sequence, history := s.history + [event], work := Trying(event))
  }

  // stateChange takes the lock and looks.
  ghost predicate Change(s: State, state: LifeState, error: Option<string>, t: State) {
    && s.work.Idle?
    && if s.done || (state != Error && s.lastState == Some(state)) then t == s
       else t == Made(s, EventOf(s.stateSeq + 1, state, error))
  }

  // Close or terminate, whichever comes first.
  ghost predicate BeginEnd(s: State, terminated: bool, error: Option<string>, t: State) {
    && s.once.Fresh?
    && t == s.(once := Ending(if terminated then Error else Unsubscribed, error), done := true)
  }

  ghost predicate End(s: State, t: State) {
    && s.once.Ending? && s.work.Idle?
    && t == Made(s, EventOf(s.stateSeq + 1, s.once.state, s.once.error)).(once := Ended)
  }

  // The event is in the channel: the last state is noted, or the channel is closed.
  function Enqueued(s: State): State
    requires !s.work.Idle?
  {
    var buffer := s.buffer + [s.work.event];
    if s.once.Ended? then s.(buffer := buffer, work := Idle, closed := true)
    else s.(buffer := buffer, work := Idle, lastState := Some(s.work.event.state))
  }

  ghost predicate TrySend(s: State, t: State) {
    && s.work.Trying?
    && if |s.buffer| < s.capacity then t == Enqueued(s) else t == s.(work := Dropping(s.work.event))
  }

  ghost predicate DropOldest(s: State, t: State) {
    && s.work.Dropping?
    && if s.buffer == [] then t == s.(work := Sending(s.work.event))
       else t == s.(work := Sending(s.work.event), buffer := s.buffer[1..], gone := s.gone + [Gone(s.buffer[0], false)])
  }

  // The blocking send.
  ghost predicate SendNow(s: State, t: State) {
    s.work.Sending? && |s.buffer| < s.capacity && t == Enqueued(s)
  }

  ghost predicate Receive(s: State, t: State) {
    s.buffer != [] && t == s.(buffer := s.buffer[1..], gone := s.gone + [Gone(s.buffer[0], true)])
  }

  ghost predicate Next(s: State, t: State) {
    || (exists state, error :: Change(s, state, error, t))
    || (exists terminated, error :: BeginEnd(s, terminated, error, t))
    || End(s, t) || TrySend(s, t) || DropOldest(s, t) || SendNow(s, t) || Receive(s, t)
  }

  // ---------- Invariants ----------

  // In order of their numbers the events are: those that left, those in the channel, the one on its way.
  ghost predicate Conserved(s: State) {
    && s.stateSeq == |s.history| == |s.gone| + |s.buffer| + (if s.work.Idle? then 0 else 1)
    && (forall i | 0 <= i < |s.history| :: s.history[i].sequence == i + 1)
    && (forall i | 0 <= i < |s.gone| :: s.gone[i].event == s.history[i])
    && (forall i | 0 <= i < |s.buffer| :: s.buffer[i] == s.history[|s.gone| + i])
    && (!s.work.Idle? ==> s.work.event == s.history[|s.history| - 1])
  }

  // Only an event that has a successor makes room, and there is room for the blocking send.
  ghost predicate RoomKept(s: State) {
    && |s.buffer| <= s.capacity && 0 < s.capacity
    && (s.work.Sending? ==> |s.buffer| < s.capacity)
    && (forall i | 0 <= i < |s.gone| && !s.gone[i].observed :: i < |s.history| - 1)
  }

  ghost predicate EndKept(s: State) {
    && (s.once.Fresh? <==> !s.done)
    && (s.closed <==> s.once.Ended? && s.work.Idle?)
    && (s.once.Ending? ==> s.once.state in {Error, Unsubscribed})
    && (s.once.Ended? ==> s.history != [] && s.history[|s.history| - 1].state in {Error, Unsubscribed})
  }

  predicate NotRepeated(history: seq<Event>, i: nat)
    requires 0 < i < |history|
  {
    history[i].state == history[i - 1].state ==> history[i].state == Error
  }

  // How many events stateChange has made, and how many of them it has finished with.
  function Changes(s: State): int {
    if s.once.Ended? then |s.history| - 1 else |s.history|
  }

  function Settled(s: State): int {
    if s.once.Ended? || !s.work.Idle? then |s.history| - 1 else |s.history|
  }

  // Of two consecutive changes to the same state, only errors are reported again.
  ghost predicate NoRepeats(s: State) {
    && (forall i | 0 < i < Changes(s) :: NotRepeated(s.history, i))
    && 0 <= Settled(s)
    && s.lastState == if Settled(s) == 0 then None else Some(s.history[Settled(s) - 1].state)
  }

  ghost predicate Inv(s: State) {
    Conserved(s) && RoomKept(s) && EndKept(s) && NoRepeats(s)
  }

  lemma ChangeKeeps(s: State, state: LifeState, error: Option<string>, t: State)
    requires Inv(s) && Change(s, state, error, t)
    ensures Inv(t)
  {
    if t != s {
      MadeKeeps(s, EventOf(s.stateSeq + 1, state, error), t);
      forall i | 0 < i < Changes(t) ensures NotRepeated(t.history, i) {
        if i < |s.history| {
          assert NotRepeated(s.history, i);
        }
      }
    }
  }

  lemma MadeKeeps(s: State, event: Event, t: State)
    requires Conserved(s) && RoomKept(s) && s.work.Idle? && event.sequence == s.stateSeq + 1
    requires t == Made(s, event) || t == Made(s, event).(once := Ended)
    ensures Conserved(t) && RoomKept(t)
  {}

  lemma BeginEndKeeps(s: State, terminated: bool, error: Option<string>, t: State)
    requires Inv(s) && BeginEnd(s, terminated, error, t)
    ensures Inv(t)
  {}

  lemma EndKeeps(s: State, t: State)
    requires Inv(s) && End(s, t)
    ensures Inv(t)
  {
    MadeKeeps(s, EventOf(s.stateSeq + 1, s.once.state, s.once.error), t);
    forall i | 0 < i < Changes(t) ensures NotRepeated(t.history, i) {
      assert NotRepeated(s.history, i);
    }
  }

  lemma EnqueuedKeeps(s: State)
    requires Inv(s) && !s.work.Idle? && |s.buffer| < s.capacity
    ensures Inv(Enqueued(s))
  {}

  lemma TrySendKeeps(s: State, t: State)
    requires Inv(s) && TrySend(s, t)
    ensures Inv(t)
  {
    if |s.buffer| < s.capacity {
      EnqueuedKeeps(s);
    }
  }

  lemma DropOldestKeeps(s: State, t: State)
    requires Inv(s) && DropOldest(s, t)
    ensures Inv(t)
  {}

  lemma SendNowKeeps(s: State, t: State)
    requires Inv(s) && SendNow(s, t)
    ensures Inv(t)
  {
    EnqueuedKeeps(s);
  }

  lemma ReceiveKeeps(s: State, t: State)
    requires Inv(s) && Receive(s, t)
    ensures Inv(t)
  {}

  // Besides the invariants: the terminal event is the last one that is ever made.
  lemma NextKeeps(s: State, t: State)
    requires Inv(s) && Next(s, t)
    ensures Inv(t) && s.history <= t.history
    ensures s.once.Ended? ==> t.once.Ended? && t.history == s.history
  {
    if state, error :| Change(s, state, error, t) {
      ChangeKeeps(s, state, error, t);
    }
    if terminated, error :| BeginEnd(s, terminated, error, t) {
      BeginEndKeeps(s, terminated, error, t);
    }
    if End(s, t) { EndKeeps(s, t); }
    if TrySend(s, t) { TrySendKeeps(s, t); }
    if DropOldest(s, t) { DropOldestKeeps(s, t); }
    if SendNow(s, t) { SendNowKeeps(s, t); }
    if Receive(s, t) { ReceiveKeeps(s, t); }
  }

  // ---------- Every run ----------

  ghost predicate Step(run: seq<State>, i: nat)
    requires i + 1 < |run|
  {
    Next(run[i], run[i + 1])
  }

  ghost predicate Run(run: seq<State>) {
    run != [] && Init(run[0]) && forall i: nat | i + 1 < |run| :: Step(run, i)
  }

  lemma {:induction false} RunKeeps(run: seq<State>, i: nat)
    requires Run(run) && i < |run|
    ensures Inv(run[i])
  {
    if i > 0 {
      RunKeeps(run, i - 1);
      assert Step(run, i - 1);
      NextKeeps(run[i - 1], run[i]);
    }
  }

  // Of two consecutive changes to one state only errors are told again.
  lemma RepeatsAreSilent(run: seq<State>, i: nat, k: nat)
    requires Run(run) && i < |run| && 0 < k < |run[i].history| && (run[i].once.Ended? ==> k < |run[i].history| - 1)
    ensures run[i].history[k].state == run[i].history[k - 1].state ==> run[i].history[k].state == Error
  {
    RunKeeps(run, i);
    assert NotRepeated(run[i].history, k);
  }

  // Every other change is told, with the next number.
  lemma ChangesAreTold(run: seq<State>, i: nat, state: LifeState, error: Option<string>, t: State)
    requires Run(run) && i < |run| && Change(run[i], state, error, t)
    ensures var s := run[i];
            var silent := s.done || (state != Error && s.history != [] && s.history[|s.history| - 1].state == state);
            if silent then t.history == s.history
            else t.history[..|s.history|] == s.history && |t.history| == |s.history| + 1
                 && var event := t.history[|s.history|];
                    event.sequence == |s.history| + 1 && event.state == state && (event.error.Some? <==> state == Error)
  {
    RunKeeps(run, i);
  }

  // The end tells an error exactly if the subscription was terminated.
  lemma EndsAreTold(run: seq<State>, i: nat)
    requires Run(run) && i + 1 < |run| && !run[i].once.Ended? && run[i + 1].once.Ended?
    ensures run[i].once.Ending? && |run[i + 1].history| == |run[i].history| + 1
    ensures var event := run[i + 1].history[|run[i].history|];
            event.state == run[i].once.state && (event.error.Some? <==> event.state == Error)
  {
    assert Step(run, i);
    OnlyEndEnds(run[i], run[i + 1]);
  }

  // How a subscription that was closed or terminated ends.
  predicate EndsWith(event: Event, terminated: bool, error: Option<string>) {
    if terminated
    then event.state == Error
         && event.error == Some(if error.Some? then error.value
                                else "websocket subscription error state requires an error")
    else event.state == Unsubscribed && event.error == None
  }

  // It is told so, or is about to be.
  ghost predicate Bound(s: State, terminated: bool, error: Option<string>) {
    && s.done && !s.once.Fresh?
    && (s.once.Ending? ==> EndsWith(EventOf(s.stateSeq, s.once.state, s.once.error), terminated, error))
    && (s.once.Ended? ==> s.history != [] && EndsWith(s.history[|s.history| - 1], terminated, error))
  }

  lemma NextStaysBound(s: State, terminated: bool, error: Option<string>, t: State)
    requires Bound(s, terminated, error) && Next(s, t)
    ensures Bound(t, terminated, error)
  {}

  lemma {:induction false} StaysBound(run: seq<State>, i: nat, terminated: bool, error: Option<string>, j: nat)
    requires Run(run) && i < j < |run| && BeginEnd(run[i], terminated, error, run[i + 1])
    ensures Bound(run[j], terminated, error)
  {
    if i + 1 < j {
      StaysBound(run, i, terminated, error, j - 1);
      assert Step(run, j - 1);
      NextStaysBound(run[j - 1], terminated, error, run[j]);
    }
  }

  // Whichever of Close and terminate comes first decides the terminal event: unsubscribed, or the error given.
  lemma FirstEndDecides(run: seq<State>, i: nat, terminated: bool, error: Option<string>, j: nat)
    requires Run(run) && i < j < |run| && BeginEnd(run[i], terminated, error, run[i + 1]) && run[j].closed
    ensures run[j].history != [] && EndsWith(run[j].history[|run[j].history| - 1], terminated, error)
  {
    StaysBound(run, i, terminated, error, j);
    RunKeeps(run, j);
  }

  lemma OnlyEndEnds(s: State, t: State)
    requires Next(s, t) && !s.once.Ended? && t.once.Ended?
    ensures End(s, t)
  {}

  // An event makes room for itself only after it found the channel full.
  lemma RoomIsMadeOnlyWhenFull(run: seq<State>, i: nat)
    requires Run(run) && i + 1 < |run| && !run[i].work.Dropping? && run[i + 1].work.Dropping?
    ensures |run[i].buffer| == run[i].capacity
  {
    RunKeeps(run, i);
    assert Step(run, i);
    OnlyTrySendTurnsToDropping(run[i], run[i + 1]);
  }

  lemma OnlyTrySendTurnsToDropping(s: State, t: State)
    requires Next(s, t) && !s.work.Dropping? && t.work.Dropping?
    ensures |s.buffer| >= s.capacity
  {}

  function Observed(gone: seq<Gone>): seq<Event> {
    if gone == [] then []
    else
      var last := gone[|gone| - 1];
      Observed(gone[..|gone| - 1]) + if last.observed then [last.event] else []
  }

  function Evicted(gone: seq<Gone>): nat {
    if gone == [] then 0 else Evicted(gone[..|gone| - 1]) + if gone[|gone| - 1].observed then 0 else 1
  }

  lemma {:induction false} ObservedInOrder(gone: seq<Gone>)
    requires forall i | 0 <= i < |gone| :: gone[i].event.sequence == i + 1
    ensures forall i, j | 0 <= i < j < |Observed(gone)| :: Observed(gone)[i].sequence < Observed(gone)[j].sequence
    ensures forall i | 0 <= i < |Observed(gone)| :: Observed(gone)[i].sequence <= |gone|
    ensures |Observed(gone)| + Evicted(gone) == |gone|
  {
    if gone != [] {
      ObservedInOrder(gone[..|gone| - 1]);
    }
  }

  // What the channel holds is an unbroken run of numbers that ends at the newest event made.
  lemma BufferedIsTheNewestRun(run: seq<State>, i: nat)
    requires Run(run) && i < |run|
    ensures var s := run[i];
            var newest := if s.work.Idle? then s.stateSeq else s.stateSeq - 1;
            |s.buffer| <= s.capacity
            && forall k | 0 <= k < |s.buffer| :: s.buffer[k].sequence == newest - |s.buffer| + 1 + k
  {
    RunKeeps(run, i);
  }

  // Observers see strictly increasing numbers, and what they miss was made room of.
  lemma ObserversSeeIncreasingNumbers(run: seq<State>, i: nat)
    requires Run(run) && i < |run|
    ensures var seen := Observed(run[i].gone);
            forall j, k | 0 <= j < k < |seen| :: seen[j].sequence < seen[k].sequence
    ensures var s := run[i];
            |Observed(s.gone)| + Evicted(s.gone) + |s.buffer| + (if s.work.Idle? then 0 else 1) == s.stateSeq
  {
    RunKeeps(run, i);
    assert forall k | 0 <= k < |run[i].gone| :: run[i].gone[k].event == run[i].history[k];
    ObservedInOrder(run[i].gone);
  }

  // The second send of enqueueSubscriptionState finds room, whatever the observer did meanwhile.
  lemma SendNeverBlocks(run: seq<State>, i: nat)
    requires Run(run) && i < |run| && run[i].work.Sending?
    ensures SendNow(run[i], Enqueued(run[i]))
  {
    RunKeeps(run, i);
  }

  lemma ClosedStep(s: State, t: State)
    requires EndKept(s) && s.closed && Next(s, t)
    ensures t.closed && t.history == s.history
  {}

  // The terminal event has been observed or is the last one in the channel.
  ghost predicate TerminalKept(s: State) {
    && s.history != []
    && var terminal := s.history[|s.history| - 1];
       && terminal.state in {Error, Unsubscribed}
       && if s.buffer != [] then s.buffer[|s.buffer| - 1] == terminal
          else s.gone != [] && s.gone[|s.gone| - 1] == Gone(terminal, true)
  }

  lemma ClosedKeepsTerminal(s: State)
    requires Conserved(s) && RoomKept(s) && EndKept(s) && s.closed
    ensures TerminalKept(s)
  {}

  lemma ClosedStepOf(run: seq<State>, i: nat)
    requires Run(run) && 0 < i < |run| && run[i - 1].closed
    ensures run[i].closed && run[i].history == run[i - 1].history
  {
    RunKeeps(run, i - 1);
    assert Step(run, i - 1);
    ClosedStep(run[i - 1], run[i]);
  }

  lemma {:induction false} ClosedForGood(run: seq<State>, i: nat, j: nat)
    requires Run(run) && i <= j < |run| && run[i].closed
    ensures run[j].closed && run[j].history == run[i].history
  {
    if i < j {
      ClosedForGood(run, i, j - 1);
      ClosedStepOf(run, j);
    }
  }

  // Once the channel is closed its last event is the terminal one, nothing is made after it, and it is
  // never evicted.
  lemma TerminalIsLastAndKept(run: seq<State>, i: nat, j: nat)
    requires Run(run) && i <= j < |run| && run[i].closed
    ensures run[j].closed && run[j].history == run[i].history && TerminalKept(run[j])
  {
    ClosedForGood(run, i, j);
    RunKeeps(run, j);
    ClosedKeepsTerminal(run[j]);
  }

  // ---------- The subscription as one object ----------

  // The newest `capacity` events.
  function Newest(events: seq<Event>, capacity: nat): seq<Event> {
    if |events| <= capacity then events else events[|events| - capacity..]
  }

  // What the channel holds stays the end of what was made.
  ghost predicate IsEnd(states: seq<Event>, made: seq<Event>, capacity: nat) {
    |states| <= capacity && |states| <= |made| && states == made[|made| - |states|..]
  }

  lemma NewestIsEnd(states: seq<Event>, made: seq<Event>, event: Event, capacity: nat)
    requires IsEnd(states, made, capacity) && 0 < capacity
    ensures var after := Newest(states + [event], capacity);
            IsEnd(after, made + [event], capacity) && after != [] && after[|after| - 1] == event
  {
    var longer := made + [event];
    assert states + [event] == longer[|longer| - |states| - 1..];
  }

  class StreamSubscription {
    const capacity: nat
    var once: bool
    var lastState: Option<LifeState>
    var stateSeq: nat
    var states: seq<Event>
    var closed: bool
    ghost var made: seq<Event>

    ghost predicate Valid()
      reads this
    {
      && 0 < capacity
      && (closed <==> once)
      && stateSeq == |made|
      && (forall i | 0 <= i < |made| :: made[i].sequence == i + 1)
      && IsEnd(states, made, capacity)
    }

    constructor (capacity: nat)
      requires 0 < capacity
      ensures Valid() && this.capacity == capacity && !closed && made == [] && lastState == None
    {
      this.capacity := capacity;
      once, lastState, stateSeq, states, closed, made := false, None, 0, [], false, [];
    }

    // enqueueSubscriptionState, with nobody receiving in between.
    method Enqueue(event: Event)
      requires 0 < capacity && |states| <= capacity
      modifies this`states
      ensures states == Newest(old(states) + [event], capacity)
    {
      if |states| < capacity {
        states := states + [event];
        return;
      }
      if states != [] {
        states := states[1..];
      }
      assert |states| < capacity;
      states := states + [event];
    }

    method StateChange(state: LifeState, error: Option<string>)
      requires Valid()
      modifies this
      ensures Valid() && closed == old(closed)
      ensures var silent := old(closed) || (state != Error && old(lastState) == Some(state));
              if silent then made == old(made) && states == old(states) && lastState == old(lastState)
              else && made == old(made) + [EventOf(|old(made)| + 1, state, error)]
                   && states == Newest(old(states) + [EventOf(|old(made)| + 1, state, error)], capacity)
                   && lastState == Some(state)
    {
      if closed {
        return;
      }
      if state != Error && lastState == Some(state) {
        return;
      }
      stateSeq := stateSeq + 1;
      var event := EventOf(stateSeq, state, error);
      NewestIsEnd(states, made, event, capacity);
      made := made + [event];
      Enqueue(event);
      lastState := Some(state);
    }

    // Close and terminate share one sync.Once.
    method Finish(state: LifeState, error: Option<string>)
      requires Valid()
      modifies this
      ensures Valid() && closed && lastState == old(lastState)
      ensures old(closed) ==> made == old(made) && states == old(states)
      ensures !old(closed) ==>
                && made == old(made) + [EventOf(|old(made)| + 1, state, error)]
                && states == Newest(old(states) + [EventOf(|old(made)| + 1, state, error)], capacity)
    {
      if once {
        return;
      }
      once := true;
      stateSeq := stateSeq + 1;
      var event := EventOf(stateSeq, state, error);
      NewestIsEnd(states, made, event, capacity);
      made := made + [event];
      Enqueue(event);
      closed := true;
    }

    method Receive() returns (event: Option<Event>)
      requires Valid()
      modifies this`states
      ensures Valid()
      ensures event.None? <==> old(states) == []
      ensures old(states) == [] ==> states == []
      ensures event.Some? ==> event.value == old(states)[0] && states == old(states)[1..]
    {
      if states == [] {
        return None;
      }
      event := Some(states[0]);
      states := states[1..];
    }
  }
}
