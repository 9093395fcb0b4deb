/** websocket/post.go: which request frames still reach a socket after the outcome of their call was decided. A request
    is pending before it has a connection, so a disconnect can decide it while it is still looking for one. */
module LateWrites {
  import opened PostMultiplexer
  import opened Wrappers

  // ---------- What decides a request ----------

  // The socket in place goes, by a disconnect or by close.
  predicate Lost(s: State, t: State) {
    s.conn.Some? && t.conn.None?
  }

  // The reader takes the entry out.
  predicate Taken(s: State, t: State, id: nat) {
    id !in s.hands && id in t.hands
  }

  predicate Decides(s: State, t: State, id: nat) {
    Lost(s, t) || (!s.closed && t.closed) || Taken(s, t, id)
  }

  predicate HasSocket(s: State, id: nat) {
    id in s.requests && HasConn(s.requests[id].stage)
  }

  predicate Open(s: State, id: nat) {
    id in s.requests && !s.requests[id].stage.Returned?
  }

  // Still without a socket.
  predicate Seeks(s: State, id: nat) {
    && id in s.requests
    && (s.requests[id].stage.Seeking? || s.requests[id].stage.Locked? || s.requests[id].stage.Calling?)
  }

  // ---------- Steps ----------

  // An open request stays pending until it is decided.
  ghost predicate PendingFollows(s: State, t: State, id: nat) {
    id in s.requests ==>
      && id in t.requests
      && (Open(t, id) ==> Open(s, id) && (id in t.pending <==> id in s.pending && !Decides(s, t, id)))
  }

  // A connected request keeps its socket, and that is the one in place until it is lost; a request that gets one gets
  // the one in place.
  ghost predicate SocketFollows(s: State, t: State, id: nat) {
    HasSocket(t, id) && id in s.requests ==>
      if HasSocket(s, id) then
        && t.requests[id].stage.conn == s.requests[id].stage.conn
        && (t.conn == Some(t.requests[id].stage.conn) <==> s.conn == Some(s.requests[id].stage.conn) && !Lost(s, t))
      else Seeks(s, id) && t.conn == Some(t.requests[id].stage.conn)
  }

  ghost predicate Begins(s: State, t: State, id: nat) {
    id !in s.requests && id in t.requests ==> id in t.pending && Seeks(t, id) && !FromReader(t, id)
  }

  predicate ByReader(outcome: Outcome) {
    outcome.Payload? || outcome.ServerError? || outcome.Unexpected?
  }

  predicate FromReader(s: State, id: nat) {
    id in s.hands || (id in s.requests && exists outcome | outcome in s.requests[id].outcomes :: ByReader(outcome))
  }

  ghost predicate ReaderFollows(s: State, t: State, id: nat) {
    id in s.requests && FromReader(t, id) ==> FromReader(s, id) || Taken(s, t, id)
  }

  ghost predicate Follows(s: State, t: State, id: nat) {
    && Begins(s, t, id)
    && PendingFollows(s, t, id) && SocketFollows(s, t, id) && ReaderFollows(s, t, id)
    && (Seeks(t, id) && id in s.requests ==> Seeks(s, id))
  }

  lemma RegisterFollows(s: State, other: nat, kind: Kind, t: State, id: nat)
    requires Inv(s) && Register(s, other, kind, t)
    ensures Follows(s, t, id)
  {}

  lemma FindFollows(s: State, other: nat, t: State, id: nat)
    requires Inv(s) && Find(s, other, t)
    ensures Follows(s, t, id)
  {}

  lemma DialingFollows(s: State, other: nat, t: State, id: nat)
    requires Inv(s) && (LockToDial(s, other, t) || Dial(s, other, t))
    ensures Follows(s, t, id)
  {}

  lemma InstallFollows(s: State, other: nat, t: State, id: nat)
    requires Inv(s) && Install(s, other, t)
    ensures Follows(s, t, id)
  {}

  lemma WritingFollows(s: State, other: nat, t: State, id: nat)
    requires Inv(s)
    requires LockToWrite(s, other, t) || (exists ok :: WriteFrame(s, other, ok, t))
    ensures Follows(s, t, id)
  {}

  lemma UnlockFollows(s: State, other: nat, t: State, id: nat)
    requires Inv(s) && Unlock(s, other, t)
    ensures Follows(s, t, id)
  {}

  lemma GiveUpFollows(s: State, other: nat, t: State, id: nat)
    requires Inv(s) && GiveUp(s, other, t)
    ensures Follows(s, t, id)
  {}

  lemma ReceiveFollows(s: State, other: nat, t: State, id: nat)
    requires Inv(s) && Receive(s, other, t)
    ensures Follows(s, t, id)
  {}

  lemma TakeFollows(s: State, conn: nat, frame: Frame, t: State, id: nat)
    requires Inv(s) && Take(s, conn, frame, t)
    ensures Follows(s, t, id)
  {}

  lemma AnswerFollows(s: State, other: nat, t: State, id: nat)
    requires Inv(s) && Answer(s, other, t)
    ensures Follows(s, t, id)
  {}

  lemma DisconnectFollows(s: State, conn: nat, t: State, id: nat)
    requires Inv(s) && Disconnect(s, conn, t)
    ensures Follows(s, t, id)
  {}

  lemma ReadFailsFollows(s: State, conn: nat, t: State, id: nat)
    requires Inv(s) && ReadFails(s, conn, t)
    ensures Follows(s, t, id)
  {}

  lemma SendFollows(s: State, other: nat, t: State, id: nat)
    requires Inv(s) && (SendDropped(s, other, t) || SendClosed(s, other, t))
    ensures Follows(s, t, id)
  {}

  lemma CloseFollows(s: State, t: State, id: nat)
    requires Inv(s) && Close(s, t)
    ensures Follows(s, t, id)
  {}

  lemma NextFollows(s: State, t: State, id: nat)
    requires Inv(s) && Next(s, t)
    ensures Follows(s, t, id)
  {
    if other :| CallerNext(s, other, t) {
      if kind :| Register(s, other, kind, t) {
        RegisterFollows(s, other, kind, t, id);
      } else if Find(s, other, t) {
        FindFollows(s, other, t, id);
      } else if Unlock(s, other, t) {
        UnlockFollows(s, other, t, id);
      } else if GiveUp(s, other, t) {
        GiveUpFollows(s, other, t, id);
      } else if Receive(s, other, t) {
        ReceiveFollows(s, other, t, id);
      } else if Install(s, other, t) {
        InstallFollows(s, other, t, id);
      } else if LockToWrite(s, other, t) || (exists ok :: WriteFrame(s, other, ok, t)) {
        WritingFollows(s, other, t, id);
      } else {
        DialingFollows(s, other, t, id);
      }
    } else if Close(s, t) {
      CloseFollows(s, t, id);
    } else if conn, frame :| Take(s, conn, frame, t) {
      TakeFollows(s, conn, frame, t, id);
    } else if other :| Answer(s, other, t) {
      AnswerFollows(s, other, t, id);
    } else if other :| SendDropped(s, other, t) || SendClosed(s, other, t) {
      SendFollows(s, other, t, id);
    } else if conn :| Disconnect(s, conn, t) {
      DisconnectFollows(s, conn, t, id);
    } else {
      var conn :| ReadFails(s, conn, t);
      ReadFailsFollows(s, conn, t, id);
    }
  }

  // ---------- Runs ----------

  ghost predicate StepFollows(run: seq<State>, k: nat, id: nat)
    requires 0 < k < |run|
  {
    Follows(run[k - 1], run[k], id)
  }

  lemma RunFollows(run: seq<State>, k: nat, id: nat)
    requires Run(run) && 0 < k < |run|
    ensures StepFollows(run, k, id)
  {
    RunKeeps(run, k - 1);
    assert Step(run, k - 1);
    NextFollows(run[k - 1], run[k], id);
  }

  // The step to state `j` registers the request.
  predicate Registered(run: seq<State>, j: nat, id: nat) {
    0 < j < |run| && id !in run[j - 1].requests && id in run[j].requests
  }

  // Between the states `j` and `i` ... the request was decided,
  ghost predicate DecidedBetween(run: seq<State>, j: nat, i: nat, id: nat)
    requires i < |run|
  {
    exists k | j < k <= i :: Decides(run[k - 1], run[k], id)
  }

  // ... it lost the socket it had,
  ghost predicate LostBetween(run: seq<State>, j: nat, i: nat, id: nat)
    requires i < |run|
  {
    exists k | j < k <= i :: HasSocket(run[k - 1], id) && Lost(run[k - 1], run[k])
  }

  // ... a frame for it was read.
  ghost predicate ReadBetween(run: seq<State>, j: nat, i: nat, id: nat)
    requires i < |run|
  {
    exists k | j < k <= i :: Taken(run[k - 1], run[k], id)
  }

  ghost predicate Explained(run: seq<State>, j: nat, i: nat, id: nat)
    requires i < |run|
  {
    var s := run[i];
    && id in s.requests
    && (Open(s, id) ==> (id in s.pending <==> !DecidedBetween(run, j, i, id)))
    && (HasSocket(s, id) ==> (s.conn == Some(s.requests[id].stage.conn) <==> !LostBetween(run, j, i, id)))
    && (Seeks(s, id) ==> !LostBetween(run, j, i, id))
    && (FromReader(s, id) ==> ReadBetween(run, j, i, id))
  }

  lemma OneStepLonger(run: seq<State>, j: nat, i: nat, id: nat)
    requires 0 < j < i < |run|
    ensures DecidedBetween(run, j, i, id) <==> DecidedBetween(run, j, i - 1, id) || Decides(run[i - 1], run[i], id)
    ensures LostBetween(run, j, i, id) <==>
            LostBetween(run, j, i - 1, id) || (HasSocket(run[i - 1], id) && Lost(run[i - 1], run[i]))
    ensures ReadBetween(run, j, i, id) <==> ReadBetween(run, j, i - 1, id) || Taken(run[i - 1], run[i], id)
  {}

  lemma ExplainedFurther(run: seq<State>, j: nat, i: nat, id: nat)
    requires 0 < j < i < |run| && Explained(run, j, i - 1, id) && StepFollows(run, i, id)
    ensures Explained(run, j, i, id)
  {
    OneStepLonger(run, j, i, id);
  }

  lemma {:induction false} Explains(run: seq<State>, j: nat, i: nat, id: nat)
    requires Registered(run, j, id) && j <= i < |run|
    requires forall k | 0 < k < |run| :: StepFollows(run, k, id)
    ensures Explained(run, j, i, id)
  {
    assert StepFollows(run, i, id);
    if j < i {
      Explains(run, j, i - 1, id);
      ExplainedFurther(run, j, i, id);
    }
  }

  lemma RunExplains(run: seq<State>, j: nat, i: nat, id: nat)
    requires Run(run) && Registered(run, j, id) && j <= i < |run|
    ensures Explained(run, j, i, id)
  {
    forall k | 0 < k < |run| ensures StepFollows(run, k, id) {
      RunFollows(run, k, id);
    }
    Explains(run, j, i, id);
  }

  // A frame is written after its outcome was decided exactly when, since the request was registered, the socket in
  // place was lost, the manager closed, or a frame for it was read.
  lemma WrittenLate(run: seq<State>, j: nat, i: nat, id: nat, ok: bool)
    requires Run(run) && Registered(run, j, id) && j <= i && i + 1 < |run| && WriteFrame(run[i], id, ok, run[i + 1])
    ensures id !in run[i].pending <==> DecidedBetween(run, j, i, id)
  {
    RunExplains(run, j, i, id);
  }

  // Without the reader and without close it can only have been a disconnect.
  lemma ToldOfDisconnect(s: State, id: nat)
    requires Inv(s) && HasSocket(s, id) && s.conn.Some? && id !in s.pending && !FromReader(s, id)
    ensures !s.closed && (id in s.dropped || s.requests[id].outcomes == [DisconnectedError])
  {
    assert !s.closed && id !in s.closing && id !in s.hands;
    if id !in s.dropped {
      assert s.requests[id].outcomes == [s.requests[id].slot.value];
      assert s.requests[id].outcomes[0] in s.requests[id].outcomes;
    }
  }

  // It goes to the socket in place exactly when that loss, if there was one, came before the request had a socket:
  // then nobody has closed the manager, and unless a frame for it was read before it was written, the call is told of
  // a disconnect although its frame goes out.
  lemma WrittenLateToALiveSocket(run: seq<State>, j: nat, i: nat, id: nat, ok: bool)
    requires Run(run) && Registered(run, j, id) && j <= i && i + 1 < |run| && WriteFrame(run[i], id, ok, run[i + 1])
    ensures run[i].conn == Some(run[i].requests[id].stage.conn) <==> !LostBetween(run, j, i, id)
    ensures DecidedBetween(run, j, i, id) && !LostBetween(run, j, i, id) ==>
              && !run[i].closed
              && (ReadBetween(run, j, i, id)
                  || id in run[i].dropped || run[i].requests[id].outcomes == [DisconnectedError])
  {
    RunExplains(run, j, i, id);
    if DecidedBetween(run, j, i, id) && !LostBetween(run, j, i, id) {
      RunKeeps(run, i);
      if !FromReader(run[i], id) {
        ToldOfDisconnect(run[i], id);
      }
    }
  }

  // ---------- An input for it ----------

  lemma Extended(run: seq<State>, t: State)
    requires Run(run) && Next(run[|run| - 1], t)
    ensures Run(run + [t])
  {
    var longer := run + [t];
    forall i: nat | i + 1 < |longer| ensures Step(longer, i) {
      if i + 1 < |run| {
        assert Step(run, i);
      }
    }
  }

  lemma CallerExtends(run: seq<State>, id: nat, t: State) returns (longer: seq<State>)
    requires Run(run) && CallerNext(run[|run| - 1], id, t)
    ensures longer == run + [t] && Run(longer)
  {
    Extended(run, t);
    longer := run + [t];
  }

  function Caller(stage: Stage): Request {
    Request(Action, stage, None, [], 0)
  }

  // One call has installed a socket, and a second one is registered.
  function BothRegistered(): State {
    State(false, Some(0), 1, {0}, {}, None, map[0 := Action, 1 := Action], map[], {}, {},
          map[0 := Caller(Connected(0)), 1 := Caller(Seeking)])
  }

  lemma OneDials() returns (run: seq<State>)
    ensures Run(run) && run[|run| - 1] == State(false, Some(0), 1, {0}, {}, None, map[0 := Action], map[], {}, {},
                                                map[0 := Caller(Connected(0))])
  {
    var start := State(false, None, 0, {}, {}, None, map[], map[], {}, {}, map[]);
    run := [start];
    var known := start.(pending := map[0 := Action], requests := map[0 := Caller(Seeking)]);
    assert Register(start, 0, Action, known);
    run := CallerExtends(run, 0, known);
    var locked := known.(token := Some(0), requests := map[0 := Caller(Locked)]);
    assert LockToDial(known, 0, locked);
    run := CallerExtends(run, 0, locked);
    var calling := locked.(requests := map[0 := Caller(Calling)]);
    assert Dial(locked, 0, calling);
    run := CallerExtends(run, 0, calling);
    var installed := calling.(token := None, conn := Some(0), sockets := 1, readers := {0},
                              requests := map[0 := Caller(Connected(0))]);
    assert Install(calling, 0, installed);
    run := CallerExtends(run, 0, installed);
  }

  // The second call, told of the disconnect while it was still looking for a socket.
  function AlreadyTold(stage: Stage): Request {
    Request(Action, stage, Some(DisconnectedError), [DisconnectedError], 0)
  }

  function SecondAt(stage: Stage, token: Option<nat>, conn: Option<nat>, sockets: nat, readers: set<nat>): State {
    State(false, conn, sockets, readers, {}, token, map[], map[], {}, {0},
          map[0 := Caller(Connected(0)), 1 := AlreadyTold(stage)])
  }

  lemma SecondIsTold() returns (run: seq<State>, j: nat)
    ensures Run(run) && Registered(run, j, 1) && j < |run| && run[|run| - 1] == SecondAt(Seeking, None, None, 1, {0})
  {
    run := OneDials();
    j := |run|;
    var before := run[|run| - 1];
    assert Register(before, 1, Action, BothRegistered());
    run := CallerExtends(run, 1, BothRegistered());
    var lost := BothRegistered().(conn := None, pending := map[], dropped := {0, 1});
    assert Disconnect(BothRegistered(), 0, lost);
    Extended(run, lost);
    run := run + [lost];
    var told := SecondAt(Seeking, None, None, 1, {0});
    assert lost.dropped - {1} == {0};
    assert lost.requests[1].outcomes + [DisconnectedError] == [DisconnectedError];
    assert SendDropped(lost, 1, told);
    Extended(run, told);
    run := run + [told];
  }

  // A call that has been told of a disconnect goes on, finds a new socket, and has its frame written there.
  lemma DisconnectedYetWritten() returns (run: seq<State>, j: nat, i: nat)
    ensures Run(run) && Registered(run, j, 1) && j <= i && i + 1 < |run| && WriteFrame(run[i], 1, true, run[i + 1])
    ensures run[i].requests[1].outcomes == [DisconnectedError]
    ensures run[i].conn == Some(run[i].requests[1].stage.conn)
  {
    run, j := SecondIsTold();
    var locked := SecondAt(Locked, Some(1), None, 1, {0});
    assert LockToDial(run[|run| - 1], 1, locked);
    run := CallerExtends(run, 1, locked);
    var calling := SecondAt(Calling, Some(1), None, 1, {0});
    assert Dial(locked, 1, calling);
    run := CallerExtends(run, 1, calling);
    var installed := SecondAt(Connected(1), None, Some(1), 2, {0, 1});
    assert Install(calling, 1, installed);
    run := CallerExtends(run, 1, installed);
    var writing := SecondAt(Writing(1), Some(1), Some(1), 2, {0, 1});
    assert LockToWrite(installed, 1, writing);
    run := CallerExtends(run, 1, writing);
    i := |run| - 1;
    var written := writing.(token := None, requests := writing.requests[1 := AlreadyTold(Waiting(1)).(writes := 1)]);
    assert WriteFrame(writing, 1, true, written);
    run := CallerExtends(run, 1, written);
  }
}
