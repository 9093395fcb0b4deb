/** websocket/wire_identity.go: which server subscription a wire request names, and how well a
    pending request matches an acknowledgement.

    json.Marshal sorts the keys of a map, so two requests of the kind the SDK builds (texts, whole numbers
    and flags) print the same text exactly when they are equal maps; the map stands for that text here. */
module WireIdentity {

  datatype JsonValue =
    | Null
    | Bool(flag: bool)
    | Int(whole: int)
    | Float(number: real)
    | String(text: string)

  type Fields = map<string, JsonValue>

  datatype Wire = Wire(command: string, subscription: Fields)

  // ---------- Letter case and numbers ----------

  const LONG_S: char := '\U{017F}'
  const KELVIN_SIGN: char := '\U{212A}'
  const SIGMA: char := '\U{03C3}'
  const FINAL_SIGMA: char := '\U{03C2}'
  const DOTTED_I: char := '\U{0130}'
  const TWO_53: int := 0x20_0000_0000_0000

  function AsciiLower(c: char): char {
    if 'A' <= c <= 'Z' then (c as int + 32) as char else c
  }

  predicate IsAscii(text: string) {
    forall i | 0 <= i < |text| :: text[i] as int < 0x80
  }

  // What Go's runtime contributes: strings.ToLower by character, one representative for each class of
  // characters that strings.EqualFold identifies, and the conversion of an int to a float64.
  datatype Runtime = Runtime(lower: char -> char, fold: char -> char, float: int -> real)

  // All that is used of it. On ASCII folding and lowering are the same; beyond ASCII either may identify
  // characters that the other tells apart. Whole numbers up to 2^53 are converted exactly.
  ghost predicate IsGo(r: Runtime) {
    && (forall c: char :: r.lower(r.lower(c)) == r.lower(c))
    && (forall c: char | c as int < 0x80 :: r.lower(c) == AsciiLower(c) && r.fold(c) == AsciiLower(c))
    && r.lower(LONG_S) == LONG_S && r.fold(LONG_S) == 's'
    && r.lower(KELVIN_SIGN) == 'k' && r.fold(KELVIN_SIGN) == 'k'
    && r.lower(SIGMA) == SIGMA && r.lower(FINAL_SIGMA) == FINAL_SIGMA && r.fold(SIGMA) == r.fold(FINAL_SIGMA)
    && r.lower(DOTTED_I) == 'i' && r.fold(DOTTED_I) != 'i'
    && (forall n | -TWO_53 <= n <= TWO_53 :: r.float(n) == n as real)
  }

  function SampleLower(c: char): char {
    if c == KELVIN_SIGN then 'k' else if c == DOTTED_I then 'i' else AsciiLower(c)
  }

  function SampleFold(c: char): char {
    if c == LONG_S then 's' else if c == KELVIN_SIGN then 'k' else if c == FINAL_SIGMA then SIGMA else AsciiLower(c)
  }

  type GoRuntime = r: Runtime | IsGo(r) witness Runtime(SampleLower, SampleFold, n => n as real)

  // Any runtime that meets IsGo: everything below holds whatever else its tables contain.
  const GO: GoRuntime

  function Lower(s: string): (r: string)
    ensures |r| == |s|
  {
    seq(|s|, i requires 0 <= i < |s| => GO.lower(s[i]))
  }

  function Fold(s: string): (r: string)
    ensures |r| == |s|
  {
    seq(|s|, i requires 0 <= i < |s| => GO.fold(s[i]))
  }

  predicate EqualFold(a: string, b: string) {
    Fold(a) == Fold(b)
  }

  lemma LowerIdempotent(s: string)
    ensures Lower(Lower(s)) == Lower(s)
  {
    assert forall i | 0 <= i < |s| :: Lower(Lower(s))[i] == Lower(s)[i];
  }

  // On ASCII text, folding and lowering decide the same equalities.
  lemma FoldAgreesWithLower(a: string, b: string)
    requires IsAscii(a) && IsAscii(b)
    ensures EqualFold(a, b) <==> Lower(a) == Lower(b)
  {
    assert forall i | 0 <= i < |a| :: Fold(a)[i] == Lower(a)[i];
    assert forall i | 0 <= i < |b| :: Fold(b)[i] == Lower(b)[i];
    assert Fold(a) == Lower(a) && Fold(b) == Lower(b);
  }

  // Beyond ASCII they disagree both ways, and the other operand being ASCII does not help.
  lemma FoldAndLowerDisagree()
    ensures EqualFold("s", [LONG_S]) && Lower("s") != Lower([LONG_S])
    ensures EqualFold([SIGMA], [FINAL_SIGMA]) && Lower([SIGMA]) != Lower([FINAL_SIGMA])
    ensures !EqualFold("i", [DOTTED_I]) && Lower("i") == Lower([DOTTED_I])
  {
    assert Fold("s") == "s" == Fold([LONG_S]);
    assert Lower("s")[0] == 's' && Lower([LONG_S])[0] == LONG_S;
    assert Fold([SIGMA]) == Fold([FINAL_SIGMA]);
    assert Lower([SIGMA])[0] == SIGMA && Lower([FINAL_SIGMA])[0] == FINAL_SIGMA;
    assert Fold("i")[0] == 'i' && Fold([DOTTED_I])[0] != 'i';
    assert Lower("i") == "i" == Lower([DOTTED_I]);
  }

  // ---------- Server identity ----------

  function FeedType(fields: Fields): string {
    if "type" in fields && fields["type"].String? then fields["type"].text else ""
  }

  predicate IgnoredField(kind: string, key: string) {
    kind == "spotState" && (key == "isPortfolioMargin" || key == "ignorePortfolioMargin")
  }

  predicate DefaultField(kind: string, key: string, value: JsonValue) {
    match value
    case Null =>
      || (kind == "l2Book" && (key == "nSigFigs" || key == "mantissa"))
      || (kind == "spotState" && (key == "isPortfolioMargin" || key == "ignorePortfolioMargin"))
    case Bool(flag) =>
      && !flag
      && (|| (kind == "l2Book" && key == "fast")
          || (kind == "userFills" && key == "aggregateByTime")
          || (kind == "spotState" && (key == "isPortfolioMargin" || key == "ignorePortfolioMargin")))
    case _ => false
  }

  predicate Kept(kind: string, key: string, value: JsonValue) {
    || (key == "user" && value.String?)
    || (!IgnoredField(kind, key) && !DefaultField(kind, key, value))
  }

  function NormalValue(key: string, value: JsonValue): JsonValue {
    if key == "user" && value.String? then String(Lower(value.text)) else value
  }

  // The server identity of a request, and the subscription of its canonical wire.
  function Normalize(fields: Fields): Fields {
    map key | key in fields && Kept(FeedType(fields), key, fields[key]) :: NormalValue(key, fields[key])
  }

  method ServerSubscriptionIdentity(subscription: Fields) returns (identity: Fields)
    ensures identity == Normalize(subscription)
  {
    var kind := FeedType(subscription);
    identity := map[];
    var rest := subscription.Keys;
    while rest != {}
      invariant rest <= subscription.Keys
      invariant identity == map key | key in subscription.Keys - rest && key in Normalize(subscription) ::
          Normalize(subscription)[key]
      decreases rest
    {
      var key :| key in rest;
      rest := rest - {key};
      var value := subscription[key];
      if key == "user" && value.String? {
        identity := identity[key := String(Lower(value.text))];
      } else if !IgnoredField(kind, key) && !DefaultField(kind, key, value) {
        identity := identity[key := value];
      }
    }
  }

  method CanonicalSubscriptionWire(wire: Wire) returns (canonical: Wire)
    ensures canonical == Wire(wire.command, Normalize(wire.subscription))
  {
    var kind := FeedType(wire.subscription);
    var fields: Fields := map[];
    var rest := wire.subscription.Keys;
    while rest != {}
      invariant rest <= wire.subscription.Keys
      invariant forall key :: key in fields <==> key in Normalize(wire.subscription) && key !in rest
      invariant forall key | key in fields :: fields[key] == Normalize(wire.subscription)[key]
      decreases rest
    {
      var key :| key in rest;
      rest := rest - {key};
      var value := wire.subscription[key];
      if key == "user" && value.String? {
        fields := fields[key := String(Lower(value.text))];
      } else if IgnoredField(kind, key) || DefaultField(kind, key, value) {
        // left out of the canonical wire
      } else {
        fields := fields[key := value];
      }
    }
    canonical := Wire(wire.command, fields);
  }

  // Taking the identity of a canonical wire gives back that wire's own text, so a group of equivalent
  // handles prints the same canonical frame whichever handle it was built from.
  lemma IdentityIsCanonicalFingerprint(fields: Fields)
    ensures Normalize(Normalize(fields)) == Normalize(fields)
    ensures FeedType(Normalize(fields)) == FeedType(fields)
  {
    var once := Normalize(fields);
    forall key | key in once
      ensures NormalValue(key, once[key]) == once[key]
      ensures Kept(FeedType(fields), key, once[key])
    {
      if fields[key].String? {
        LowerIdempotent(fields[key].text);
      }
    }
  }

  // The same field contributes the same thing to both identities, or to neither.
  predicate AgreeOn(a: Fields, b: Fields, key: string) {
    var inA := key in a && Kept(FeedType(a), key, a[key]);
    var inB := key in b && Kept(FeedType(b), key, b[key]);
    inA == inB && (inA ==> NormalValue(key, a[key]) == NormalValue(key, b[key]))
  }

  lemma SameIdentity(a: Fields, b: Fields)
    ensures Normalize(a) == Normalize(b) <==> forall key | key in a.Keys + b.Keys :: AgreeOn(a, b, key)
  {
    if Normalize(a) == Normalize(b) {
      forall key | key in a.Keys + b.Keys ensures AgreeOn(a, b, key) {
        assert key in Normalize(a) <==> key in Normalize(b);
      }
    }
    if forall key | key in a.Keys + b.Keys :: AgreeOn(a, b, key) {
      forall key ensures key in Normalize(a) <==> key in Normalize(b)
      {
        assert key in Normalize(a) ==> AgreeOn(a, b, key);
        assert key in Normalize(b) ==> AgreeOn(a, b, key);
      }
      assert forall key | key in Normalize(a) :: AgreeOn(a, b, key) && Normalize(a)[key] == Normalize(b)[key];
      assert Normalize(a) == Normalize(b);
    }
  }

  // The field says the same in both requests, the user up to letter case.
  predicate SaysTheSame(a: Fields, b: Fields, key: string) {
    if key in a && key in b then
      || a[key] == b[key]
      || (key == "user" && a[key].String? && b[key].String? && Lower(a[key].text) == Lower(b[key].text))
    else key !in a && key !in b
  }

  predicate IsFeed(fields: Fields, feed: string) {
    "type" in fields && fields["type"] == String(feed)
  }

  // Leaving the field out would ask for the same subscription: an l2Book without "fast", precision or mantissa, a
  // userFills without aggregation, and whatever a spotState says of portfolio margin.
  predicate Immaterial(fields: Fields, key: string) {
    key in fields ==>
      || (IsFeed(fields, "l2Book") && key == "fast" && fields[key] == Bool(false))
      || (IsFeed(fields, "l2Book") && (key == "nSigFigs" || key == "mantissa") && fields[key] == Null)
      || (IsFeed(fields, "userFills") && key == "aggregateByTime" && fields[key] == Bool(false))
      || (IsFeed(fields, "spotState") && (key == "isPortfolioMargin" || key == "ignorePortfolioMargin"))
  }

  lemma KeptIsMaterial(fields: Fields, key: string)
    ensures key in Normalize(fields) <==> !Immaterial(fields, key)
    ensures key in Normalize(fields) ==> Normalize(fields)[key] == NormalValue(key, fields[key])
  {}

  // Two requests, of whatever feeds, name one server subscription exactly when every field says the same in both or
  // is immaterial in both.
  lemma IdentityMeans(a: Fields, b: Fields)
    ensures Normalize(a) == Normalize(b) <==>
            forall key | key in a.Keys + b.Keys :: SaysTheSame(a, b, key) || (Immaterial(a, key) && Immaterial(b, key))
  {
    if Normalize(a) == Normalize(b) {
      forall key | key in a.Keys + b.Keys
        ensures SaysTheSame(a, b, key) || (Immaterial(a, key) && Immaterial(b, key))
      {
        SameEntrySaysTheSame(a, b, key);
      }
    }
    if forall key | key in a.Keys + b.Keys :: SaysTheSame(a, b, key) || (Immaterial(a, key) && Immaterial(b, key)) {
      forall key ensures key in Normalize(a) <==> key in Normalize(b)
                 ensures key in Normalize(a) ==> Normalize(a)[key] == Normalize(b)[key]
      {
        SayingTheSameSameEntry(a, b, key);
      }
    }
  }

  lemma SameEntrySaysTheSame(a: Fields, b: Fields, key: string)
    requires Normalize(a) == Normalize(b)
    ensures SaysTheSame(a, b, key) || (Immaterial(a, key) && Immaterial(b, key))
  {
    KeptIsMaterial(a, key);
    KeptIsMaterial(b, key);
    if key in Normalize(a) {
      assert NormalValue(key, a[key]) == NormalValue(key, b[key]);
    }
  }

  lemma SayingTheSameSameEntry(a: Fields, b: Fields, key: string)
    requires forall k | k in a.Keys + b.Keys :: SaysTheSame(a, b, k) || (Immaterial(a, k) && Immaterial(b, k))
    ensures key in Normalize(a) <==> key in Normalize(b)
    ensures key in Normalize(a) ==> Normalize(a)[key] == Normalize(b)[key]
  {
    KeptIsMaterial(a, key);
    KeptIsMaterial(b, key);
    assert "type" in a || "type" in b ==>
        SaysTheSame(a, b, "type") && !(Immaterial(a, "type") && Immaterial(b, "type"));
    assert key in a || key in b ==> SaysTheSame(a, b, key) || (Immaterial(a, key) && Immaterial(b, key));
  }

  // Spelling the user in another case, or saying a server default aloud, names the same subscription.
  lemma EquivalentSpellings(fields: Fields, key: string, value: JsonValue)
    requires key != "type"
    requires
      || (key == "user" && value.String? && key in fields && fields[key].String?
          && Lower(fields[key].text) == Lower(value.text))
      || (key !in fields && !Kept(FeedType(fields), key, value))
    ensures Normalize(fields[key := value]) == Normalize(fields)
  {
    assert FeedType(fields[key := value]) == FeedType(fields);
    assert forall other | other != key :: other in Normalize(fields[key := value]) <==> other in Normalize(fields);
  }

  // ---------- Matching an acknowledgement ----------

  function ProtocolNumber(value: JsonValue): (r: (bool, real)) {
    match value
    case Int(whole) => (true, GO.float(whole))
    case Float(number) => (true, number)
    case _ => (false, 0.0)
  }

  predicate FieldEqual(key: string, expected: JsonValue, actual: JsonValue) {
    if key == "user" then
      expected.String? && actual.String? && EqualFold(expected.text, actual.text)
    else
      expected == actual ||
      (ProtocolNumber(expected).0 && ProtocolNumber(actual).0 && ProtocolNumber(expected).1 == ProtocolNumber(actual).1)
  }

  predicate SpotStateAckCompatible(kind: string, key: string, expected: JsonValue, response: Fields) {
    && kind == "spotState"
    && key == "isPortfolioMargin"
    && expected.Bool?
    && "ignorePortfolioMargin" in response
    && response["ignorePortfolioMargin"] == Bool(false)
  }

  predicate FieldAccepted(request: Fields, response: Fields, key: string)
    requires key in request
  {
    || SpotStateAckCompatible(FeedType(request), key, request[key], response)
    || (if key !in response then DefaultField(FeedType(request), key, request[key])
        else FieldEqual(key, request[key], response[key]))
  }

  predicate Matches(request: Fields, response: Fields) {
    forall key | key in request :: FieldAccepted(request, response, key)
  }

  // The fields a request sets away from the server default.
  function Chosen(fields: Fields): set<string> {
    set key | key in fields && !DefaultField(FeedType(fields), key, fields[key])
  }

  lemma CountOne<T>(chosen: set<T>, rest: set<T>, key: T)
    requires key in rest
    ensures |chosen - (rest - {key})| == |chosen - rest| + if key in chosen then 1 else 0
  {
    var counted := chosen - rest;
    assert chosen - (rest - {key}) == if key in chosen then counted + {key} else counted;
  }

  method SubscriptionMatchScore(request: Fields, response: Fields) returns (score: int, matched: bool)
    ensures matched <==> Matches(request, response)
    ensures score == if matched then |Chosen(request)| else 0
  {
    var kind := FeedType(request);
    ghost var chosen := Chosen(request);
    score := 0;
    var rest := request.Keys;
    while rest != {}
      invariant rest <= request.Keys
      invariant forall key | key in request && key !in rest :: FieldAccepted(request, response, key)
      invariant score == |chosen - rest|
      decreases rest
    {
      var key :| key in rest;
      var expected := request[key];
      CountOne(chosen, rest, key);
      rest := rest - {key};
      if SpotStateAckCompatible(kind, key, expected, response) {
        if !DefaultField(kind, key, expected) {
          score := score + 1;
        }
        continue;
      }
      if key !in response {
        if DefaultField(kind, key, expected) {
          continue;
        }
        assert !FieldAccepted(request, response, key);
        return 0, false;
      }
      if !FieldEqual(key, expected, response[key]) {
        assert !FieldAccepted(request, response, key);
        return 0, false;
      }
      if !DefaultField(kind, key, expected) {
        score := score + 1;
      }
    }
    assert chosen - rest == chosen;
    matched := true;
  }

  // An answer as json.Unmarshal leaves it, where every number is a float64, or one with whole numbers that are exact.
  predicate Decoded(response: Fields) {
    forall key | key in response && response[key].Int? :: -TWO_53 <= response[key].whole <= TWO_53
  }

  predicate SameNumber(a: JsonValue, b: JsonValue) {
    match (a, b)
    case (Int(n), Int(m)) => n == m
    case (Int(n), Float(x)) => n as real == x
    case (Float(x), Int(n)) => n as real == x
    case (Float(x), Float(y)) => x == y
    case _ => false
  }

  // Saying the server's default aloud: false flags and absent numbers.
  predicate IsDefault(fields: Fields, key: string)
    requires key in fields
  {
    || (IsFeed(fields, "l2Book") && key == "fast" && fields[key] == Bool(false))
    || (IsFeed(fields, "l2Book") && (key == "nSigFigs" || key == "mantissa") && fields[key] == Null)
    || (IsFeed(fields, "userFills") && key == "aggregateByTime" && fields[key] == Bool(false))
    || (IsFeed(fields, "spotState") && (key == "isPortfolioMargin" || key == "ignorePortfolioMargin")
        && (fields[key] == Bool(false) || fields[key] == Null))
  }

  // The answer has the requested field, the user up to folding and a number up to its JSON type; or it leaves out a
  // default; or it says that a spotState request's portfolio margin is not ignored.
  predicate Confirmed(request: Fields, response: Fields, key: string)
    requires key in request
  {
    || (if key !in response then IsDefault(request, key)
        else if key == "user" then
          request[key].String? && response[key].String? && EqualFold(request[key].text, response[key].text)
        else request[key] == response[key] || SameNumber(request[key], response[key]))
    || (IsFeed(request, "spotState") && key == "isPortfolioMargin" && request[key].Bool?
        && "ignorePortfolioMargin" in response && response["ignorePortfolioMargin"] == Bool(false))
  }

  // A request of the SDK matches an answer exactly when the answer confirms each of its fields, and its score counts
  // the fields that say something else than the server's default.
  lemma MatchMeans(request: Fields, response: Fields)
    requires SdkBuilt(request) && Decoded(response)
    ensures Matches(request, response) <==> forall key | key in request :: Confirmed(request, response, key)
    ensures Chosen(request) == set key | key in request && !IsDefault(request, key)
  {
    forall key | key in request
      ensures FieldAccepted(request, response, key) <==> Confirmed(request, response, key)
      ensures DefaultField(FeedType(request), key, request[key]) <==> IsDefault(request, key)
    {
      FieldMeans(request, response, key);
    }
  }

  lemma FieldMeans(request: Fields, response: Fields, key: string)
    requires SdkBuilt(request) && Decoded(response) && key in request
    ensures FieldAccepted(request, response, key) <==> Confirmed(request, response, key)
    ensures DefaultField(FeedType(request), key, request[key]) <==> IsDefault(request, key)
  {}

  // Every request the SDK builds: a kind, a textual user if any, no field the server only answers with, and
  // texts, flags and whole numbers that a float64 holds exactly.
  predicate SdkBuilt(fields: Fields) {
    && "type" in fields && fields["type"].String?
    && ("user" in fields ==> fields["user"].String?)
    && "ignorePortfolioMargin" !in fields
    && forall key | key in fields ::
         fields[key].String? || fields[key].Bool? || (fields[key].Int? && -TWO_53 <= fields[key].whole <= TWO_53)
  }

  // The server repeats the request: the same fields, up to the case of the user and the JSON number type.
  predicate Echo(request: Fields, response: Fields) {
    && request.Keys == response.Keys
    && forall key | key in request :: FieldEqual(key, request[key], response[key])
  }

  function FoldValue(key: string, value: JsonValue): JsonValue {
    if key == "user" && value.String? then String(Fold(value.text)) else value
  }

  // What a match can see of a request.
  function Shape(fields: Fields): Fields {
    map key | key in Chosen(fields) :: FoldValue(key, fields[key])
  }

  lemma SubsetScore(a: set<string>, b: set<string>)
    requires a <= b
    ensures |a| <= |b|
    ensures |a| == |b| ==> a == b
  {
    assert b == a + (b - a);
    assert |b| == |a| + |b - a|;
    if a != b {
      var x :| x in b - a;
      assert b - a != {};
    }
  }

  lemma EchoFeedType(request: Fields, response: Fields, other: Fields)
    requires SdkBuilt(request) && SdkBuilt(other) && Echo(request, response) && Matches(other, response)
    ensures FeedType(other) == FeedType(request)
    ensures Chosen(other) <= Chosen(request)
    ensures forall key | key in Chosen(other) :: FoldValue(key, other[key]) == FoldValue(key, request[key])
  {
    assert FieldAccepted(other, response, "type");
    assert FieldEqual("type", request["type"], response["type"]);
    forall key | key in Chosen(other)
      ensures key in Chosen(request) && FoldValue(key, other[key]) == FoldValue(key, request[key])
    {
      assert FieldAccepted(other, response, key);
      assert FieldEqual(key, request[key], response[key]);
    }
  }

  // An exact echo matches its own request with the best score; any other pending request that also
  // matches scores strictly less, unless it has the very same shape, and then it ties.
  lemma EchoBeatsEveryOtherMatch(request: Fields, response: Fields, other: Fields)
    requires SdkBuilt(request) && SdkBuilt(other) && Echo(request, response)
    ensures Matches(request, response)
    ensures Shape(other) != Shape(request) && Matches(other, response) ==> |Chosen(other)| < |Chosen(request)|
    ensures Shape(other) == Shape(request) ==> Matches(other, response) && |Chosen(other)| == |Chosen(request)|
  {
    if Matches(other, response) {
      EchoFeedType(request, response, other);
      SubsetScore(Chosen(other), Chosen(request));
      if Chosen(other) == Chosen(request) {
        assert Shape(other) == Shape(request);
      }
    }
    if Shape(other) == Shape(request) {
      assert Chosen(other) == Shape(other).Keys == Shape(request).Keys == Chosen(request);
      assert "type" in Chosen(other) && "type" in Chosen(request);
      assert Shape(other)["type"] == Shape(request)["type"];
      forall key | key in other ensures FieldAccepted(other, response, key) {
        if key in Chosen(other) {
          assert Shape(other)[key] == Shape(request)[key];
          assert FieldEqual(key, request[key], response[key]);
        } else if key in response {
          assert FieldEqual(key, request[key], response[key]);
        }
      }
    }
  }

  // Requests of one shape are one server identity, hence one pending entry, exactly when lowering their users
  // leaves no difference either.
  lemma SameShapeSameIdentity(a: Fields, b: Fields)
    requires SdkBuilt(a) && SdkBuilt(b) && Shape(a) == Shape(b)
    ensures "user" in a <==> "user" in b
    ensures Normalize(a) == Normalize(b) <==> ("user" in a ==> Lower(a["user"].text) == Lower(b["user"].text))
  {
    assert Chosen(a) == Shape(a).Keys == Shape(b).Keys == Chosen(b);
    assert "type" in Chosen(a) && Shape(a)["type"] == Shape(b)["type"];
    assert "user" in a <==> "user" in Chosen(a);
    assert "user" in b <==> "user" in Chosen(b);
    forall key | key in a.Keys + b.Keys && key != "user" ensures AgreeOn(a, b, key) {
      if key in Chosen(a) {
        assert Shape(a)[key] == Shape(b)[key];
      }
    }
    SameIdentity(a, b);
    if "user" in a {
      assert AgreeOn(a, b, "user") <==> Lower(a["user"].text) == Lower(b["user"].text);
    }
  }
}
