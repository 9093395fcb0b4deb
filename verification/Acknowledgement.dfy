/** websocket/manager.go: attributing a server acknowledgement to a pending request. */
module Acknowledgement {
  import opened Protocol
  import opened WireIdentity
  import opened Wrappers

  type PendingAcks = map<AckKey<Fields>, PendingAck<Fields>>

  predicate Candidate(command: Command, response: Fields, pending: PendingAcks, key: AckKey<Fields>) {
    key in pending && pending[key].command == command && Matches(pending[key].wire, response)
  }

  // A candidate no other candidate outscores. Map iteration order decides which one is picked.
  ghost predicate Best(command: Command, response: Fields, pending: PendingAcks, key: AckKey<Fields>) {
    && Candidate(command, response, pending, key)
    && forall other | Candidate(command, response, pending, other) ::
         |Chosen(pending[other].wire)| <= |Chosen(pending[key].wire)|
  }

  method MatchingPendingAcknowledgement(command: Command, response: Fields, pending: PendingAcks)
      returns (best: Option<AckKey<Fields>>)
    ensures best.Some? ==> Best(command, response, pending, best.value)
    ensures best.None? ==> forall key :: !Candidate(command, response, pending, key)
  {
    var bestScore := -1;
    best := None;
    var rest := pending.Keys;
    while rest != {}
      invariant rest <= pending.Keys
      invariant best.None? ==> bestScore == -1
      invariant best.Some? ==>
          Candidate(command, response, pending, best.value) && bestScore == |Chosen(pending[best.value].wire)|
      invariant forall key | Candidate(command, response, pending, key) && key !in rest ::
          |Chosen(pending[key].wire)| <= bestScore
      decreases rest
    {
      var key :| key in rest;
      rest := rest - {key};
      if pending[key].command != command {
        continue;
      }
      var score, matched := SubscriptionMatchScore(pending[key].wire, response);
      if matched && score > bestScore {
        bestScore, best := score, Some(key);
      }
    }
  }

  // Pending requests are keyed by command and server identity, and were built by the SDK.
  ghost predicate Honest(pending: PendingAcks) {
    forall key | key in pending ::
      && key == AckKey(pending[key].command, Normalize(pending[key].wire))
      && SdkBuilt(pending[key].wire)
  }

  // An exact echo of a pending request is attributed to that request, whatever the iteration order,
  // exactly when no other pending request of the same command has the same shape.
  lemma EchoIsAttributedToItsRequest(response: Fields, pending: PendingAcks, key: AckKey<Fields>)
    requires Honest(pending) && key in pending && Echo(pending[key].wire, response)
    ensures (forall best | Best(key.command, response, pending, best) :: best == key) <==>
            (forall other | other in pending && other.command == key.command && other != key ::
               Shape(pending[other].wire) != Shape(pending[key].wire))
  {
    forall other | other in pending
      ensures Matches(pending[key].wire, response)
      ensures Shape(pending[other].wire) != Shape(pending[key].wire) && Matches(pending[other].wire, response) ==>
                |Chosen(pending[other].wire)| < |Chosen(pending[key].wire)|
      ensures Shape(pending[other].wire) == Shape(pending[key].wire) ==>
                Matches(pending[other].wire, response) && |Chosen(pending[other].wire)| == |Chosen(pending[key].wire)|
    {
      EchoBeatsEveryOtherMatch(pending[key].wire, response, pending[other].wire);
    }
    assert Best(key.command, response, pending, key);
    forall other | other in pending && other.command == key.command && other != key
                   && Shape(pending[other].wire) == Shape(pending[key].wire)
      ensures Best(key.command, response, pending, other)
    {}
  }

  predicate PlainUser(fields: Fields) {
    "user" in fields && fields["user"].String? ==> IsAscii(fields["user"].text)
  }

  // For ASCII users, every address among them, the attribution is always right.
  lemma PlainUsersAreNeverConfused(response: Fields, pending: PendingAcks, key: AckKey<Fields>, best: AckKey<Fields>)
    requires Honest(pending) && key in pending && Echo(pending[key].wire, response)
    requires forall k | k in pending :: PlainUser(pending[k].wire)
    requires Best(key.command, response, pending, best)
    ensures best == key
  {
    forall other | other in pending && other.command == key.command && other != key
      ensures Shape(pending[other].wire) != Shape(pending[key].wire)
    {
      PlainShapes(pending[other].wire, pending[key].wire);
    }
    EchoIsAttributedToItsRequest(response, pending, key);
  }

  lemma PlainShapes(a: Fields, b: Fields)
    requires SdkBuilt(a) && SdkBuilt(b) && PlainUser(a) && PlainUser(b)
    ensures Shape(a) == Shape(b) ==> Normalize(a) == Normalize(b)
  {
    if Shape(a) == Shape(b) {
      SameShapeSameIdentity(a, b);
      if "user" in a {
        assert Shape(a)["user"] == Shape(b)["user"];
        FoldAgreesWithLower(a["user"].text, b["user"].text);
      }
    }
  }

  function Fundings(user: string): Fields {
    map["type" := String("userFundings"), "user" := String(user)]
  }

  function Pending(user: string): PendingAck<Fields> {
    PendingAck(Subscribe, Normalize(Fundings(user)), Fundings(user))
  }

  function PendingKey(user: string): AckKey<Fields> {
    AckKey(Subscribe, Normalize(Fundings(user)))
  }

  // Both users' subscriptions are pending, under keys of their own, and an echo of the first may be attributed
  // to either.
  ghost predicate Confused(a: string, b: string) {
    var pending: PendingAcks := map[PendingKey(a) := Pending(a), PendingKey(b) := Pending(b)];
    && PendingKey(a) != PendingKey(b) && Honest(pending)
    && Echo(Fundings(a), Fundings(a))
    && Best(Subscribe, Fundings(a), pending, PendingKey(a))
    && Best(Subscribe, Fundings(a), pending, PendingKey(b))
  }

  lemma SameShapeTies(response: Fields, pending: PendingAcks, key: AckKey<Fields>, other: AckKey<Fields>)
    requires Honest(pending) && key in pending && Echo(pending[key].wire, response)
    requires other in pending && other.command == key.command && Shape(pending[other].wire) == Shape(pending[key].wire)
    ensures Best(key.command, response, pending, key) && Best(key.command, response, pending, other)
  {
    forall rival | rival in pending
      ensures Matches(pending[rival].wire, response) ==> |Chosen(pending[rival].wire)| <= |Chosen(pending[key].wire)|
    {
      EchoBeatsEveryOtherMatch(pending[key].wire, response, pending[rival].wire);
    }
    EchoBeatsEveryOtherMatch(pending[key].wire, response, pending[other].wire);
  }

  lemma FundingsOfFoldedUsers(a: string, b: string)
    requires EqualFold(a, b) && Lower(a) != Lower(b)
    ensures SdkBuilt(Fundings(a)) && SdkBuilt(Fundings(b)) && Echo(Fundings(a), Fundings(a))
    ensures Shape(Fundings(a)) == Shape(Fundings(b)) && Normalize(Fundings(a)) != Normalize(Fundings(b))
  {
    assert Shape(Fundings(a)) == Shape(Fundings(b));
    SameShapeSameIdentity(Fundings(a), Fundings(b));
  }

  // Beyond ASCII the promise fails for every two users that folding identifies and lowering tells apart.
  lemma FoldedUsersAreConfused(a: string, b: string)
    requires EqualFold(a, b) && Lower(a) != Lower(b)
    ensures Confused(a, b)
  {
    FundingsOfFoldedUsers(a, b);
    var pending: PendingAcks := map[PendingKey(a) := Pending(a), PendingKey(b) := Pending(b)];
    SameShapeTies(Fundings(a), pending, PendingKey(a), PendingKey(b));
  }

  // The long s beside an ASCII letter, and the two small sigmas, are such users.
  lemma ConfusedUsersExist()
    ensures Confused("s", [LONG_S]) && Confused([SIGMA], [FINAL_SIGMA])
  {
    FoldAndLowerDisagree();
    FoldedUsersAreConfused("s", [LONG_S]);
    FoldedUsersAreConfused([SIGMA], [FINAL_SIGMA]);
  }

  // The canonical wire of a group is again a request the SDK could have built.
  lemma CanonicalIsSdkBuilt(fields: Fields)
    requires SdkBuilt(fields)
    ensures SdkBuilt(Normalize(fields))
    ensures PlainUser(fields) ==> PlainUser(Normalize(fields))
  {
    assert "type" in Normalize(fields);
  }
}
