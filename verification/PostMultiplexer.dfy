/** websocket/post.go: request/response traffic over one reusable connection. Callers, the reader of each
    socket, `disconnect` and `close` pass the ownership of a pending entry among them; every step below is
    one critical section, one channel operation or one socket write. */
module PostMultiplexer {
  import opened Wrappers

  datatype Kind = Info | Action

  // The `type` of a response: the kind it answers, "error", or something else.
  datatype ResponseType = Answers(kind: Kind) | ErrorType | OtherType

  // A post frame from the server; `wellFormed` tells whether its inner payload can be read.
  datatype Frame = Frame(id: nat, responseType: ResponseType, wellFormed: bool)

  datatype Outcome =
    | Payload(frame: Frame)
    | ServerError(frame: Frame)
    | Unexpected(frame: Frame)
    | ClosedError
    | DisconnectedError

  // What the reader answers to a request of this kind.
  function Respond(kind: Kind, frame: Frame): Outcome {
    match frame.responseType
    case ErrorType => if frame.wellFormed then ServerError(frame) else Unexpected(frame)
    case OtherType => Unexpected(frame)
    case Answers(answered) =>
      if answered != kind then Unexpected(frame)
      else if kind == Info && !frame.wellFormed then Unexpected(frame)
      else Payload(frame)
  }

  // Where a call of request is. Between Locked and Calling, and while Writing, it owns the write token.
  datatype Stage =
    | Seeking
    | Locked
    | Calling
    | Connected(conn: nat)
    | Writing(conn: nat)
    | Waiting(conn: nat)
    | Failing
    | Returned

  // One request: its result channel has a single slot. `outcomes` is everything ever sent to it and `writes`
  // how often its frame was handed to a socket.
  datatype Request = Request(kind: Kind, stage: Stage, slot: Option<Outcome>, outcomes: seq<Outcome>, writes: nat)

  // An entry the reader of `conn` has taken out of `pending` and not yet answered.
  datatype Hand = Hand(conn: nat, kind: Kind, frame: Frame)

  // `closing` and `dropped` are the entries that close and the running disconnects have taken and still have to
  // answer; `readers` are the sockets that are being read, `busy` those whose reader holds an entry.
  datatype State = State(
    closed: bool,
    conn: Option<nat>,
    sockets: nat,
    readers: set<nat>,
    busy: set<nat>,
    token: Option<nat>,
    pending: map<nat, Kind>,
    hands: map<nat, Hand>,
    closing: set<nat>,
    dropped: set<nat>,
    requests: map<nat, Request>)

  ghost predicate Init(s: State) {
    s == State(false, None, 0, {}, {}, None, map[], map[], {}, {}, map[])
  }

  predicate Owns(stage: Stage) {
    stage.Locked? || stage.Calling? || stage.Writing?
  }

  predicate HasConn(stage: Stage) {
    stage.Connected? || stage.Writing? || stage.Waiting?
  }

  function Moved(s: State, id: nat, stage: Stage): map<nat, Request>
    requires id in s.requests
  {
    var request := s.requests[id];
    s.requests[id := Request(request.kind, stage, request.slot, request.outcomes, request.writes)]
  }

  predicate HasRoom(s: State, id: nat) {
    id in s.requests && s.requests[id].slot.None?
  }

  function Told(s: State, id: nat, outcome: Outcome): map<nat, Request>
    requires id in s.requests
  {
    var request := s.requests[id];
    s.requests[id := Request(request.kind, request.stage, Some(outcome), request.outcomes + [outcome], request.writes)]
  }

  // ---------- The caller ----------

  ghost predicate Register(s: State, id: nat, kind: Kind, t: State) {
    && !s.closed && id !in s.requests
    && t == s.(pending := s.pending[id := kind], requests := s.requests[id := Request(kind, Seeking, None, [], 0)])
  }

  // connection() finds the socket in place, on its way in or once it has the token.
  ghost predicate Find(s: State, id: nat, t: State) {
    && id in s.requests && (s.requests[id].stage.Seeking? || s.requests[id].stage.Locked?)
    && !s.closed && s.conn.Some?
    && t == s.(requests := Moved(s, id, Connected(s.conn.value)),
               token := if s.requests[id].stage.Locked? then None else s.token)
  }

  ghost predicate LockToDial(s: State, id: nat, t: State) {
    && id in s.requests && s.requests[id].stage.Seeking? && s.token.None?
    && t == s.(requests := Moved(s, id, Locked), token := Some(id))
  }

  ghost predicate Dial(s: State, id: nat, t: State) {
    && id in s.requests && s.requests[id].stage.Locked? && !s.closed && s.conn.None?
    && t == s.(requests := Moved(s, id, Calling))
  }

  ghost predicate Install(s: State, id: nat, t: State) {
    && id in s.requests && s.requests[id].stage.Calling? && !s.closed
    && t == s.(requests := Moved(s, id, Connected(s.sockets)), token := None,
               conn := Some(s.sockets), sockets := s.sockets + 1, readers := s.readers + {s.sockets})
  }

  ghost predicate LockToWrite(s: State, id: nat, t: State) {
    && id in s.requests && s.requests[id].stage.Connected? && s.token.None?
    && t == s.(requests := Moved(s, id, Writing(s.requests[id].stage.conn)), token := Some(id))
  }

  // WriteJSON hands the frame to the socket; a failed write may have handed over part of it.
  ghost predicate WriteFrame(s: State, id: nat, ok: bool, t: State) {
    && id in s.requests && s.requests[id].stage.Writing?
    && var request := s.requests[id];
       var stage := if ok then Waiting(request.stage.conn) else Failing;
       t == s.(token := None,
               requests :=
                 s.requests[id := Request(request.kind, stage, request.slot, request.outcomes, request.writes + 1)])
  }

  // An error or a cancellation: the token goes back first ...
  ghost predicate Unlock(s: State, id: nat, t: State) {
    && id in s.requests && Owns(s.requests[id].stage)
    && t == s.(requests := Moved(s, id, Failing), token := None)
  }

  // ... then remove takes the entry out, if it is still there.
  ghost predicate GiveUp(s: State, id: nat, t: State) {
    && id in s.requests && !Owns(s.requests[id].stage) && !s.requests[id].stage.Returned?
    && t == s.(requests := Moved(s, id, Returned), pending := s.pending - {id})
  }

  ghost predicate Receive(s: State, id: nat, t: State) {
    && id in s.requests && s.requests[id].stage.Waiting? && s.requests[id].slot.Some?
    && var request := s.requests[id];
       t == s.(requests := s.requests[id := Request(request.kind, Returned, None, request.outcomes, request.writes)])
  }

  // ---------- The reader of a socket ----------

  ghost predicate Take(s: State, conn: nat, frame: Frame, t: State) {
    && conn in s.readers && conn !in s.busy
    && if frame.id in s.pending
       then t == s.(hands := s.hands[frame.id := Hand(conn, s.pending[frame.id], frame)], busy := s.busy + {conn},
                    pending := s.pending - {frame.id})
       else t == s
  }

  // A blocking send.
  ghost predicate Answer(s: State, id: nat, t: State) {
    && id in s.hands && HasRoom(s, id)
    && t == s.(hands := s.hands - {id}, busy := s.busy - {s.hands[id].conn},
               requests := Told(s, id, Respond(s.hands[id].kind, s.hands[id].frame)))
  }

  // ---------- disconnect and close ----------

  // Only the socket in place takes the pending entries with it.
  function Disconnected(s: State, conn: nat): State {
    if s.conn == Some(conn) then s.(conn := None, dropped := s.dropped + s.pending.Keys, pending := map[]) else s
  }

  // A cancelled or failed write gives the socket up.
  ghost predicate Disconnect(s: State, conn: nat, t: State) {
    t == Disconnected(s, conn)
  }

  // The reader meets an error, gives the socket up and ends.
  ghost predicate ReadFails(s: State, conn: nat, t: State) {
    && conn in s.readers && conn !in s.busy
    && t == Disconnected(s, conn).(readers := s.readers - {conn})
  }

  // disconnect does not block: a full channel would lose the error.
  ghost predicate SendDropped(s: State, id: nat, t: State) {
    && id in s.dropped
    && if HasRoom(s, id) then t == s.(dropped := s.dropped - {id}, requests := Told(s, id, DisconnectedError))
       else t == s.(dropped := s.dropped - {id})
  }

  ghost predicate Close(s: State, t: State) {
    && !s.closed
    && t == s.(closed := true, conn := None, closing := s.closing + s.pending.Keys, pending := map[])
  }

  // A blocking send.
  ghost predicate SendClosed(s: State, id: nat, t: State) {
    && id in s.closing && HasRoom(s, id)
    && t == s.(closing := s.closing - {id}, requests := Told(s, id, ClosedError))
  }

  ghost predicate CallerNext(s: State, id: nat, t: State) {
    || (exists kind :: Register(s, id, kind, t))
    || Find(s, id, t) || LockToDial(s, id, t) || Dial(s, id, t) || Install(s, id, t) || LockToWrite(s, id, t)
    || (exists ok :: WriteFrame(s, id, ok, t))
    || Unlock(s, id, t) || GiveUp(s, id, t) || Receive(s, id, t)
  }

  ghost predicate OwnerNext(s: State, t: State) {
    || (exists conn, frame :: Take(s, conn, frame, t))
    || (exists id :: Answer(s, id, t))
    || (exists conn :: Disconnect(s, conn, t))
    || (exists conn :: ReadFails(s, conn, t))
    || (exists id :: SendDropped(s, id, t))
    || Close(s, t)
    || (exists id :: SendClosed(s, id, t))
  }

  ghost predicate Next(s: State, t: State) {
    (exists id :: CallerNext(s, id, t)) || OwnerNext(s, t)
  }

  // ---------- Invariants ----------

  predicate Held(s: State, id: nat) {
    id in s.pending || id in s.hands || id in s.closing || id in s.dropped
  }

  // At most one of the holders has the right to answer a request, and whoever has it finds the slot empty.
  ghost predicate Ownership(s: State) {
    && (forall id | id in s.pending :: id !in s.hands && id !in s.closing && id !in s.dropped)
    && (forall id | id in s.hands :: id !in s.closing && id !in s.dropped)
    && (forall id | id in s.closing :: id !in s.dropped)
    && (forall id | Held(s, id) :: id in s.requests && s.requests[id].slot.None? && s.requests[id].outcomes == [])
    && (forall id | id in s.requests :: |s.requests[id].outcomes| <= 1)
  }

  // A call that has not returned has a holder who will answer it, or its answer.
  ghost predicate NobodyForgotten(s: State) {
    forall id | id in s.requests && !s.requests[id].stage.Returned? :: Held(s, id) || s.requests[id].slot.Some?
  }

  ghost predicate TokenKept(s: State) {
    && (forall id | id in s.requests :: Owns(s.requests[id].stage) <==> s.token == Some(id))
    && (s.token.Some? ==> s.token.value in s.requests)
    && (forall id | id in s.requests && s.requests[id].stage.Calling? :: s.conn.None?)
  }

  // A request that is still pending and has a socket has the one in place, and that one is being read.
  ghost predicate SocketsLive(s: State) {
    && (s.conn.Some? ==> s.conn.value in s.readers)
    && (s.closed ==> s.pending == map[] && s.conn.None?)
    && (forall id | id in s.pending && id in s.requests && HasConn(s.requests[id].stage) ::
          s.conn == Some(s.requests[id].stage.conn))
  }

  // Sockets are numbered in the order they are installed, and only a closed manager speaks of closing.
  ghost predicate SocketsNumbered(s: State) {
    && (s.conn.Some? ==> s.conn.value < s.sockets)
    && (forall id | id in s.requests && HasConn(s.requests[id].stage) :: s.requests[id].stage.conn < s.sockets)
    && (s.closing != {} ==> s.closed)
    && (!s.closed ==> forall id | id in s.requests :: ClosedError !in s.requests[id].outcomes)
  }

  ghost predicate WrittenOnce(s: State) {
    forall id | id in s.requests ::
      && s.requests[id].writes <= 1
      && (s.requests[id].writes == 1 ==>
            s.requests[id].stage.Waiting? || s.requests[id].stage.Failing? || s.requests[id].stage.Returned?)
  }

  // What may have been sent to the caller of a request.
  predicate Suits(id: nat, kind: Kind, outcome: Outcome) {
    match outcome
    case Payload(frame) => frame.id == id && frame.responseType == Answers(kind) && (kind == Info ==> frame.wellFormed)
    case ServerError(frame) => frame.id == id && frame.responseType == ErrorType && frame.wellFormed
    case Unexpected(frame) =>
      && frame.id == id
      && !(frame.responseType == Answers(kind) && (kind == Info ==> frame.wellFormed))
      && !(frame.responseType == ErrorType && frame.wellFormed)
    case _ => true
  }

  ghost predicate KindsKept(s: State) {
    && (forall id | id in s.pending && id in s.requests :: s.pending[id] == s.requests[id].kind)
    && (forall id | id in s.hands && id in s.requests ::
          s.hands[id].frame.id == id && s.hands[id].kind == s.requests[id].kind)
    && (forall id | id in s.requests ::
          && (s.requests[id].slot.Some? ==> s.requests[id].outcomes == [s.requests[id].slot.value])
          && (s.requests[id].outcomes != [] ==> Suits(id, s.requests[id].kind, s.requests[id].outcomes[0])))
  }

  // Who answers what ...
  ghost predicate Linear(s: State) {
    Ownership(s) && NobodyForgotten(s) && KindsKept(s)
  }

  // ... and who writes where.
  ghost predicate Orderly(s: State) {
    TokenKept(s) && SocketsLive(s) && SocketsNumbered(s) && WrittenOnce(s)
  }

  ghost predicate Inv(s: State) {
    Linear(s) && Orderly(s)
  }

  lemma InitKeeps(s: State)
    requires Init(s)
    ensures Inv(s)
  {}

  lemma RegisterKeepsLinear(s: State, id: nat, kind: Kind, t: State)
    requires Linear(s) && Register(s, id, kind, t)
    ensures Linear(t)
  {}

  lemma RegisterKeepsOrderly(s: State, id: nat, kind: Kind, t: State)
    requires Orderly(s) && Register(s, id, kind, t)
    ensures Orderly(t)
  {}

  lemma FindKeepsLinear(s: State, id: nat, t: State)
    requires Linear(s) && Find(s, id, t)
    ensures Linear(t)
  {}

  lemma FindKeepsOrderly(s: State, id: nat, t: State)
    requires Orderly(s) && Find(s, id, t)
    ensures Orderly(t)
  {}

  lemma LockToDialKeepsLinear(s: State, id: nat, t: State)
    requires Linear(s) && LockToDial(s, id, t)
    ensures Linear(t)
  {}

  lemma LockToDialKeepsOrderly(s: State, id: nat, t: State)
    requires Orderly(s) && LockToDial(s, id, t)
    ensures Orderly(t)
  {}

  lemma DialKeepsLinear(s: State, id: nat, t: State)
    requires Linear(s) && Dial(s, id, t)
    ensures Linear(t)
  {}

  lemma DialKeepsOrderly(s: State, id: nat, t: State)
    requires Orderly(s) && Dial(s, id, t)
    ensures Orderly(t)
  {}

  lemma InstallKeepsLinear(s: State, id: nat, t: State)
    requires Linear(s) && Install(s, id, t)
    ensures Linear(t)
  {}

  lemma InstallKeepsOrderly(s: State, id: nat, t: State)
    requires Orderly(s) && Install(s, id, t)
    ensures Orderly(t)
  {}

  lemma LockToWriteKeepsLinear(s: State, id: nat, t: State)
    requires Linear(s) && LockToWrite(s, id, t)
    ensures Linear(t)
  {}

  lemma LockToWriteKeepsOrderly(s: State, id: nat, t: State)
    requires Orderly(s) && LockToWrite(s, id, t)
    ensures Orderly(t)
  {}

  lemma WriteFrameKeepsLinear(s: State, id: nat, ok: bool, t: State)
    requires Linear(s) && WriteFrame(s, id, ok, t)
    ensures Linear(t)
  {}

  lemma WriteFrameKeepsOrderly(s: State, id: nat, ok: bool, t: State)
    requires Orderly(s) && WriteFrame(s, id, ok, t)
    ensures Orderly(t)
  {}

  lemma UnlockKeepsLinear(s: State, id: nat, t: State)
    requires Linear(s) && Unlock(s, id, t)
    ensures Linear(t)
  {}

  lemma UnlockKeepsOrderly(s: State, id: nat, t: State)
    requires Orderly(s) && Unlock(s, id, t)
    ensures Orderly(t)
  {}

  lemma GiveUpKeepsLinear(s: State, id: nat, t: State)
    requires Linear(s) && GiveUp(s, id, t)
    ensures Linear(t)
  {}

  lemma GiveUpKeepsOrderly(s: State, id: nat, t: State)
    requires Orderly(s) && GiveUp(s, id, t)
    ensures Orderly(t)
  {}

  lemma ReceiveKeepsLinear(s: State, id: nat, t: State)
    requires Linear(s) && Receive(s, id, t)
    ensures Linear(t)
  {}

  lemma ReceiveKeepsOrderly(s: State, id: nat, t: State)
    requires Orderly(s) && Receive(s, id, t)
    ensures Orderly(t)
  {}

  lemma TakeKeepsLinear(s: State, conn: nat, frame: Frame, t: State)
    requires Linear(s) && Take(s, conn, frame, t)
    ensures Linear(t)
  {}

  lemma TakeKeepsOrderly(s: State, conn: nat, frame: Frame, t: State)
    requires Orderly(s) && Take(s, conn, frame, t)
    ensures Orderly(t)
  {}

  lemma AnswerKeepsOwnership(s: State, id: nat, t: State)
    requires Linear(s) && Answer(s, id, t)
    ensures Ownership(t)
  {}

  lemma AnswerKeepsLinear(s: State, id: nat, t: State)
    requires Linear(s) && Answer(s, id, t)
    ensures Linear(t)
  {
    AnswerKeepsOwnership(s, id, t);
  }

  lemma AnswerKeepsOrderly(s: State, id: nat, t: State)
    requires Orderly(s) && Answer(s, id, t)
    ensures Orderly(t)
  {}

  lemma DisconnectKeepsLinear(s: State, conn: nat, t: State)
    requires Linear(s) && Disconnect(s, conn, t)
    ensures Linear(t)
  {}

  lemma DisconnectKeepsOrderly(s: State, conn: nat, t: State)
    requires Orderly(s) && Disconnect(s, conn, t)
    ensures Orderly(t)
  {}

  lemma ReadFailsKeepsLinear(s: State, conn: nat, t: State)
    requires Linear(s) && ReadFails(s, conn, t)
    ensures Linear(t)
  {}

  lemma ReadFailsKeepsOrderly(s: State, conn: nat, t: State)
    requires Orderly(s) && ReadFails(s, conn, t)
    ensures Orderly(t)
  {}

  lemma SendDroppedKeepsLinear(s: State, id: nat, t: State)
    requires Linear(s) && SendDropped(s, id, t)
    ensures Linear(t)
  {}

  lemma SendDroppedKeepsOrderly(s: State, id: nat, t: State)
    requires Orderly(s) && SendDropped(s, id, t)
    ensures Orderly(t)
  {}

  lemma CloseKeepsLinear(s: State, t: State)
    requires Linear(s) && Close(s, t)
    ensures Linear(t)
  {}

  lemma CloseKeepsOrderly(s: State, t: State)
    requires Orderly(s) && Close(s, t)
    ensures Orderly(t)
  {}

  lemma SendClosedKeepsLinear(s: State, id: nat, t: State)
    requires Linear(s) && SendClosed(s, id, t)
    ensures Linear(t)
  {}

  lemma SendClosedKeepsOrderly(s: State, id: nat, t: State)
    requires Orderly(s) && SendClosed(s, id, t)
    ensures Orderly(t)
  {}

  lemma CallerNextKeeps(s: State, id: nat, t: State)
    requires Inv(s) && CallerNext(s, id, t)
    ensures Inv(t) && t.closed == s.closed
  {
    if kind :| Register(s, id, kind, t) {
      RegisterKeepsLinear(s, id, kind, t);
      RegisterKeepsOrderly(s, id, kind, t);
    }
    if Find(s, id, t) {
      FindKeepsLinear(s, id, t);
      FindKeepsOrderly(s, id, t);
    }
    if LockToDial(s, id, t) {
      LockToDialKeepsLinear(s, id, t);
      LockToDialKeepsOrderly(s, id, t);
    }
    if Dial(s, id, t) {
      DialKeepsLinear(s, id, t);
      DialKeepsOrderly(s, id, t);
    }
    if Install(s, id, t) {
      InstallKeepsLinear(s, id, t);
      InstallKeepsOrderly(s, id, t);
    }
    if LockToWrite(s, id, t) {
      LockToWriteKeepsLinear(s, id, t);
      LockToWriteKeepsOrderly(s, id, t);
    }
    if ok :| WriteFrame(s, id, ok, t) {
      WriteFrameKeepsLinear(s, id, ok, t);
      WriteFrameKeepsOrderly(s, id, ok, t);
    }
    if Unlock(s, id, t) {
      UnlockKeepsLinear(s, id, t);
      UnlockKeepsOrderly(s, id, t);
    }
    if GiveUp(s, id, t) {
      GiveUpKeepsLinear(s, id, t);
      GiveUpKeepsOrderly(s, id, t);
    }
    if Receive(s, id, t) {
      ReceiveKeepsLinear(s, id, t);
      ReceiveKeepsOrderly(s, id, t);
    }
  }

  lemma OwnerNextKeeps(s: State, t: State)
    requires Inv(s) && OwnerNext(s, t)
    ensures Inv(t) && (s.closed ==> t.closed)
  {
    if conn, frame :| Take(s, conn, frame, t) {
      TakeKeepsLinear(s, conn, frame, t);
      TakeKeepsOrderly(s, conn, frame, t);
    }
    if id :| Answer(s, id, t) {
      AnswerKeepsLinear(s, id, t);
      AnswerKeepsOrderly(s, id, t);
    }
    if conn :| Disconnect(s, conn, t) {
      DisconnectKeepsLinear(s, conn, t);
      DisconnectKeepsOrderly(s, conn, t);
    }
    if conn :| ReadFails(s, conn, t) {
      ReadFailsKeepsLinear(s, conn, t);
      ReadFailsKeepsOrderly(s, conn, t);
    }
    if id :| SendDropped(s, id, t) {
      SendDroppedKeepsLinear(s, id, t);
      SendDroppedKeepsOrderly(s, id, t);
    }
    if Close(s, t) {
      CloseKeepsLinear(s, t);
      CloseKeepsOrderly(s, t);
    }
    if id :| SendClosed(s, id, t) {
      SendClosedKeepsLinear(s, id, t);
      SendClosedKeepsOrderly(s, id, t);
    }
  }

  lemma NextKeeps(s: State, t: State)
    requires Inv(s) && Next(s, t)
    ensures Inv(t) && (s.closed ==> t.closed)
  {
    if OwnerNext(s, t) {
      OwnerNextKeeps(s, t);
    } else {
      var id :| CallerNext(s, id, t);
      CallerNextKeeps(s, id, t);
    }
  }

  // ---------- Every run ----------

  ghost predicate Step(run: seq<State>, i: nat)
    requires i + 1 < |run|
  {
    Next(run[i], run[i + 1])
  }

  ghost predicate Run(run: seq<State>) {
    run != [] && Init(run[0]) && forall i: nat | i + 1 < |run| :: Step(run, i)
  }

  lemma {:induction false} RunKeeps(run: seq<State>, i: nat)
    requires Run(run) && i < |run|
    ensures Inv(run[i])
  {
    if i == 0 {
      InitKeeps(run[0]);
    } else {
      RunKeeps(run, i - 1);
      assert Step(run, i - 1);
      NextKeeps(run[i - 1], run[i]);
    }
  }

  // The reader, close and disconnect together answer a request at most once, and a payload only
  // answers the request whose id and kind it carries.
  lemma OneOutcomeOfItsOwn(run: seq<State>, i: nat, id: nat)
    requires Run(run) && i < |run| && id in run[i].requests
    ensures |run[i].requests[id].outcomes| <= 1
    ensures forall outcome | outcome in run[i].requests[id].outcomes :: Suits(id, run[i].requests[id].kind, outcome)
  {
    RunKeeps(run, i);
  }

  // Whatever the reader took for a request, the request is told of that very frame: its payload if the type answers
  // the kind and an info frame can be read, the server's error if it is a readable error, and else that it was
  // unexpected.
  lemma ReaderTellsTheFrame(run: seq<State>, i: nat, id: nat)
    requires Run(run) && i + 1 < |run| && id in run[i].hands && id !in run[i + 1].hands
    ensures id in run[i].requests && id in run[i + 1].requests && |run[i + 1].requests[id].outcomes| == 1
    ensures var frame, kind := run[i].hands[id].frame, run[i].requests[id].kind;
            var outcome := run[i + 1].requests[id].outcomes[0];
            var paid := frame.responseType == Answers(kind) && (kind == Info ==> frame.wellFormed);
            var failed := frame.responseType == ErrorType && frame.wellFormed;
            && frame.id == id
            && (outcome == Payload(frame) <==> paid)
            && (outcome == ServerError(frame) <==> failed)
            && (outcome == Unexpected(frame) <==> !paid && !failed)
  {
    RunKeeps(run, i);
    assert Held(run[i], id);
    assert Step(run, i);
    OnlyAnswersEmptyHands(run[i], id, run[i + 1]);
  }

  // Whoever lets go of an entry that close or a disconnect has taken tells its request so.
  lemma OwnersTellWhatHappened(run: seq<State>, i: nat, id: nat)
    requires Run(run) && i + 1 < |run|
    ensures id in run[i].closing && id !in run[i + 1].closing ==>
              id in run[i + 1].requests && run[i + 1].requests[id].outcomes == [ClosedError]
    ensures id in run[i].dropped && id !in run[i + 1].dropped ==>
              id in run[i + 1].requests && run[i + 1].requests[id].outcomes == [DisconnectedError]
  {
    RunKeeps(run, i);
    assert Step(run, i);
    if id in run[i].closing && id !in run[i + 1].closing {
      assert Held(run[i], id);
      OnlyCloseLetsGo(run[i], id, run[i + 1]);
      assert run[i].requests[id].outcomes + [ClosedError] == [ClosedError];
    }
    if id in run[i].dropped && id !in run[i + 1].dropped {
      assert Held(run[i], id);
      OnlyDisconnectLetsGo(run[i], id, run[i + 1]);
      assert run[i].requests[id].outcomes + [DisconnectedError] == [DisconnectedError];
    }
  }

  // The end of a reader takes the socket in place, and the pending requests with it, only if it has read that one.
  lemma OldReadersTakeNothing(run: seq<State>, i: nat, conn: nat)
    requires Run(run) && i + 1 < |run| && conn in run[i].readers && conn !in run[i + 1].readers
    ensures var s, t := run[i], run[i + 1];
            && t.requests == s.requests && t.hands == s.hands && t.closing == s.closing
            && if s.conn == Some(conn)
               then t.conn == None && t.pending == map[] && t.dropped == s.dropped + s.pending.Keys
               else t.conn == s.conn && t.pending == s.pending && t.dropped == s.dropped
  {
    assert Step(run, i);
    OnlyFailureEndsReaders(run[i], conn, run[i + 1]);
  }

  lemma OnlyFailureEndsReaders(s: State, conn: nat, t: State)
    requires Next(s, t) && conn in s.readers && conn !in t.readers
    ensures ReadFails(s, conn, t)
  {
    if id :| CallerNext(s, id, t) {
      CallersLeaveReaders(s, id, t);
    }
  }

  lemma CallersLeaveReaders(s: State, id: nat, t: State)
    requires CallerNext(s, id, t)
    ensures s.readers <= t.readers
  {}

  lemma CallersLeaveHolders(s: State, other: nat, t: State)
    requires CallerNext(s, other, t)
    ensures t.hands == s.hands && t.closing == s.closing && t.dropped == s.dropped
  {}

  lemma OnlyCloseLetsGo(s: State, id: nat, t: State)
    requires Next(s, t) && id in s.closing && id !in t.closing
    ensures SendClosed(s, id, t)
  {
    if other :| CallerNext(s, other, t) {
      CallersLeaveHolders(s, other, t);
    }
  }

  lemma OnlyDisconnectLetsGo(s: State, id: nat, t: State)
    requires Next(s, t) && id in s.dropped && id !in t.dropped
    ensures SendDropped(s, id, t)
  {
    if other :| CallerNext(s, other, t) {
      CallersLeaveHolders(s, other, t);
    }
  }

  lemma OnlyAnswersEmptyHands(s: State, id: nat, t: State)
    requires Next(s, t) && id in s.hands && id !in t.hands
    ensures Answer(s, id, t)
  {
    if other :| CallerNext(s, other, t) {
      CallersLeaveHolders(s, other, t);
    }
  }

  // Whoever has an entry to answer finds the slot empty: the blocking sends of the reader and of close go
  // through at once, and disconnect never throws its error away.
  lemma SendsNeverBlock(run: seq<State>, i: nat, id: nat)
    requires Run(run) && i < |run|
    requires id in run[i].hands || id in run[i].closing || id in run[i].dropped
    ensures HasRoom(run[i], id)
  {
    RunKeeps(run, i);
    assert Held(run[i], id);
  }

  lemma WrittenAtMostOnce(run: seq<State>, i: nat, id: nat)
    requires Run(run) && i < |run| && id in run[i].requests
    ensures run[i].requests[id].writes <= 1
  {
    RunKeeps(run, i);
  }

  // A call still waits for good reason: its entry is pending on the socket in place, which is being
  // read, or somebody is about to answer it, or the answer is there.
  lemma NobodyWaitsOnADeadSocket(run: seq<State>, i: nat, id: nat)
    requires Run(run) && i < |run| && id in run[i].requests && run[i].requests[id].stage.Waiting?
    ensures var s := run[i];
            || (id in s.pending && s.conn == Some(s.requests[id].stage.conn) && s.requests[id].stage.conn in s.readers)
            || id in s.hands || id in s.closing || id in s.dropped
            || s.requests[id].slot.Some?
  {
    RunKeeps(run, i);
  }

  // A call that returned with nobody holding its entry, because remove took it out, is over.
  predicate Gone(s: State, id: nat) {
    id in s.requests && s.requests[id].stage.Returned? && !Held(s, id)
  }

  ghost predicate StaysGone(s: State, t: State, id: nat) {
    Gone(s, id) ==> Gone(t, id) && t.requests[id].outcomes == s.requests[id].outcomes
  }

  lemma DialingKeepsGone(s: State, other: nat, t: State, id: nat)
    requires (exists kind :: Register(s, other, kind, t)) || Find(s, other, t)
             || LockToDial(s, other, t) || Dial(s, other, t)
    ensures StaysGone(s, t, id)
  {}

  lemma WritingKeepsGone(s: State, other: nat, t: State, id: nat)
    requires Install(s, other, t) || LockToWrite(s, other, t) || (exists ok :: WriteFrame(s, other, ok, t))
    ensures StaysGone(s, t, id)
  {}

  lemma LeavingKeepsGone(s: State, other: nat, t: State, id: nat)
    requires Unlock(s, other, t) || GiveUp(s, other, t) || Receive(s, other, t)
    ensures StaysGone(s, t, id)
  {}

  lemma ReaderKeepsGone(s: State, t: State, id: nat)
    requires (exists conn, frame :: Take(s, conn, frame, t)) || (exists other :: Answer(s, other, t))
    ensures StaysGone(s, t, id)
  {}

  lemma DisconnectKeepsGone(s: State, t: State, id: nat)
    requires (exists conn :: Disconnect(s, conn, t)) || (exists conn :: ReadFails(s, conn, t))
        || (exists other :: SendDropped(s, other, t))
    ensures StaysGone(s, t, id)
  {}

  lemma CloseKeepsGone(s: State, t: State, id: nat)
    requires Close(s, t) || (exists other :: SendClosed(s, other, t))
    ensures StaysGone(s, t, id)
  {}

  lemma NextKeepsGone(s: State, t: State, id: nat)
    requires Next(s, t)
    ensures StaysGone(s, t, id)
  {
    if other :| CallerNext(s, other, t) {
      if Unlock(s, other, t) || GiveUp(s, other, t) || Receive(s, other, t) {
        LeavingKeepsGone(s, other, t, id);
      } else if Install(s, other, t) || LockToWrite(s, other, t) || (exists ok :: WriteFrame(s, other, ok, t)) {
        WritingKeepsGone(s, other, t, id);
      } else {
        DialingKeepsGone(s, other, t, id);
      }
    } else if Close(s, t) || (exists other :: SendClosed(s, other, t)) {
      CloseKeepsGone(s, t, id);
    } else if (exists conn, frame :: Take(s, conn, frame, t)) || (exists other :: Answer(s, other, t)) {
      ReaderKeepsGone(s, t, id);
    } else {
      DisconnectKeepsGone(s, t, id);
    }
  }

  lemma {:induction false} GoneForGood(run: seq<State>, i: nat, j: nat, id: nat)
    requires i <= j < |run| && Gone(run[i], id)
    requires forall k | i < k <= j :: StaysGone(run[k - 1], run[k], id)
    ensures Gone(run[j], id) && run[j].requests[id].outcomes == run[i].requests[id].outcomes
  {
    if i < j {
      GoneForGood(run, i, j - 1, id);
      assert StaysGone(run[j - 1], run[j], id);
    }
  }

  // Once removed, a request is never answered, whatever frames still arrive for it and whoever closes what.
  lemma RemovedIsNeverAnswered(run: seq<State>, i: nat, j: nat, id: nat)
    requires Run(run) && i <= j < |run| && Gone(run[i], id)
    ensures Gone(run[j], id) && run[j].requests[id].outcomes == run[i].requests[id].outcomes
  {
    forall k | i < k <= j ensures StaysGone(run[k - 1], run[k], id) {
      assert Step(run, k - 1);
      NextKeepsGone(run[k - 1], run[k], id);
    }
    GoneForGood(run, i, j, id);
  }

  // A call that gives up while its entry is pending takes it out before anybody could answer it.
  lemma GivingUpRemoves(run: seq<State>, i: nat, id: nat)
    requires Run(run) && i + 1 < |run| && GiveUp(run[i], id, run[i + 1]) && id in run[i].pending
    ensures Gone(run[i + 1], id) && run[i + 1].requests[id].outcomes == []
  {
    RunKeeps(run, i);
  }

  // A new socket never takes the place of another: only the owner of the write token installs one.
  lemma OneSocketAtATime(run: seq<State>, i: nat, id: nat, t: State)
    requires Run(run) && i < |run| && Install(run[i], id, t)
    ensures run[i].conn.None?
    ensures forall other | other in run[i].requests && Owns(run[i].requests[other].stage) :: other == id
  {
    RunKeeps(run, i);
  }

  lemma StepKeepsClosed(run: seq<State>, i: nat)
    requires Run(run) && 0 < i < |run|
    ensures run[i - 1].closed ==> run[i].closed
  {
    RunKeeps(run, i - 1);
    assert Step(run, i - 1);
    NextKeeps(run[i - 1], run[i]);
  }

  lemma ClosedIsEmpty(run: seq<State>, i: nat)
    requires Run(run) && i < |run| && run[i].closed
    ensures run[i].pending == map[] && run[i].conn.None?
  {
    RunKeeps(run, i);
  }

  lemma {:induction false} ClosedStaysEmpty(run: seq<State>, i: nat, j: nat)
    requires Run(run) && i <= j < |run| && run[i].closed
    ensures run[j].closed && run[j].pending == map[] && run[j].conn.None?
  {
    if i < j {
      ClosedStaysEmpty(run, i, j - 1);
      StepKeepsClosed(run, j);
    }
    ClosedIsEmpty(run, j);
  }

  // ---------- The manager as one object ----------

  // The slots after everybody in `ids` has been told.
  function TellAll(slots: map<nat, Option<Outcome>>, ids: set<nat>, outcome: Outcome): map<nat, Option<Outcome>> {
    map id | id in slots :: if id in ids then Some(outcome) else slots[id]
  }

  class PostManager {
    var closed: bool
    var conn: Option<nat>
    var nextId: nat
    var pending: map<nat, Kind>
    // The result channels of all requests.
    var slots: map<nat, Option<Outcome>>

    ghost predicate Valid()
      reads this
    {
      && (closed ==> pending == map[] && conn.None?)
      && (forall id | id in pending :: id in slots && slots[id].None?)
      && (forall id | id in slots :: id <= nextId)
    }

    constructor ()
      ensures Valid() && !closed && conn == None && pending == map[] && slots == map[]
    {
      closed, conn, nextId, pending, slots := false, None, 0, map[], map[];
    }

    // The head of request: None once the manager is closed.
    method Register(kind: Kind) returns (id: Option<nat>)
      requires Valid()
      modifies this
      ensures Valid() && closed == old(closed) && conn == old(conn)
      ensures id.None? <==> old(closed)
      ensures id.None? ==> pending == old(pending) && slots == old(slots)
      ensures id.Some? ==>
          id.value !in old(slots) && pending == old(pending)[id.value := kind] && slots == old(slots)[id.value := None]
    {
      nextId := nextId + 1;
      if closed {
        return None;
      }
      pending := pending[nextId := kind];
      slots := slots[nextId := None];
      id := Some(nextId);
    }

    method Remove(id: nat)
      requires Valid()
      modifies this`pending
      ensures Valid() && pending == old(pending) - {id}
    {
      pending := pending - {id};
    }

    // One turn of the loop in read.
    method Read(frame: Frame)
      requires Valid()
      modifies this`pending, this`slots
      ensures Valid() && pending == old(pending) - {frame.id}
      ensures frame.id !in old(pending) ==> slots == old(slots)
      ensures frame.id in old(pending) ==>
                && frame.id in slots && slots[frame.id].Some? && slots == old(slots)[frame.id := slots[frame.id]]
                && var kind, outcome := old(pending)[frame.id], slots[frame.id].value;
                   var paid := frame.responseType == Answers(kind) && (kind == Info ==> frame.wellFormed);
                   var failed := frame.responseType == ErrorType && frame.wellFormed;
                   && (outcome == Payload(frame) <==> paid)
                   && (outcome == ServerError(frame) <==> failed)
                   && (outcome == Unexpected(frame) <==> !paid && !failed)
    {
      if frame.id !in pending {
        return;
      }
      var kind := pending[frame.id];
      pending := pending - {frame.id};
      var outcome: Outcome;
      match frame.responseType {
        case ErrorType =>
          outcome := if frame.wellFormed then ServerError(frame) else Unexpected(frame);
        case OtherType =>
          outcome := Unexpected(frame);
        case Answers(answered) =>
          if answered != kind {
            outcome := Unexpected(frame);
          } else if kind == Info && !frame.wellFormed {
            outcome := Unexpected(frame);
          } else {
            outcome := Payload(frame);
          }
      }
      slots := slots[frame.id := Some(outcome)];
    }

    // The socket in place takes every pending request down with it; any other is already gone.
    method Disconnect(connection: nat)
      requires Valid()
      modifies this`conn, this`pending, this`slots
      ensures Valid()
      ensures old(conn) != Some(connection) ==> conn == old(conn) && pending == old(pending) && slots == old(slots)
      ensures old(conn) == Some(connection) ==>
                conn == None && pending == map[] && slots == TellAll(old(slots), old(pending).Keys, DisconnectedError)
    {
      if conn != Some(connection) {
        return;
      }
      conn := None;
      var batch := pending.Keys;
      pending := map[];
      ghost var before, told := slots, {};
      while batch != {}
        invariant told + batch == old(pending).Keys && told !! batch
        invariant slots == TellAll(before, told, DisconnectedError)
        invariant forall id | id in batch :: id in slots && slots[id].None?
        decreases batch
        modifies this`slots
      {
        var id :| id in batch;
        batch := batch - {id};
        if slots[id].None? {
          slots := slots[id := Some(DisconnectedError)];
        }
        told := told + {id};
      }
    }

    method Close()
      requires Valid()
      modifies this`closed, this`conn, this`pending, this`slots
      ensures Valid() && closed
      ensures old(closed) ==> slots == old(slots)
      ensures !old(closed) ==> slots == TellAll(old(slots), old(pending).Keys, ClosedError)
    {
      if closed {
        return;
      }
      closed := true;
      conn := None;
      var batch := pending.Keys;
      pending := map[];
      ghost var before, told := slots, {};
      while batch != {}
        invariant told + batch == old(pending).Keys && told !! batch
        invariant slots == TellAll(before, told, ClosedError)
        invariant forall id | id in batch :: id in slots && slots[id].None?
        decreases batch
        modifies this`slots
      {
        var id :| id in batch;
        batch := batch - {id};
        assert slots[id].None?;
        slots := slots[id := Some(ClosedError)];
        told := told + {id};
      }
    }
  }
}
