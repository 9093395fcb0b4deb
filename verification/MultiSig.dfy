/** exchange/multisig.go: which signer sets are accepted, and the order their signatures are sent in. */
module MultiSig {
  import opened Bytes
  import opened Sequences
  import opened Wrappers

  // ---------- The configuration ----------

  const MAX_AUTHORIZED := 10

  // What a signer answers to the digest of this submission; None when it fails.
  datatype Signer<A, S> = Signer(address: A, signature: Option<S>)

  // A nil leader or signer is None.
  datatype Config<A, S> = Config(
    multiSigUser: A,
    leader: Option<A>,
    authorized: seq<A>,
    signers: seq<Option<Signer<A, S>>>,
    threshold: nat,
    leaderOwner: Option<A>)

  datatype ConfigError =
    | InvalidConfiguration
    | AuthorizedUserRequired
    | AuthorizedUsersMustBeUnique
    | LeaderNotAuthorized
    | LeaderOwnerRequired
    | LeaderOwnerNotAuthorized
    | SignerRequired
    | SignerNotAuthorized
    | SignersMustBeUnique

  ghost predicate AllDistinct<T>(s: seq<T>) {
    forall i, j | 0 <= i < j < |s| :: s[i] != s[j]
  }

  // `zero` is the address nobody has.
  predicate Sized<A(==), S>(config: Config<A, S>, zero: A) {
    && config.multiSigUser != zero && config.leader.Some?
    && 0 < |config.authorized| <= 10
    && 0 < config.threshold <= |config.authorized|
    && config.threshold <= |config.signers| <= |config.authorized|
  }

  predicate LeaderAuthorized<A(==), S>(config: Config<A, S>, zero: A)
    requires config.leader.Some?
  {
    if config.leaderOwner.None? then config.leader.value in config.authorized
    else config.leaderOwner.value != zero && config.leaderOwner.value in config.authorized
  }

  // Every contributor is authorized, and none contributes twice.
  ghost predicate SignersAuthorized<A, S>(config: Config<A, S>) {
    && (forall i | 0 <= i < |config.signers| ::
        config.signers[i].Some? && config.signers[i].value.address in config.authorized)
    && (forall i, j | 0 <= i < j < |config.signers| && config.signers[i].Some? && config.signers[j].Some? ::
          config.signers[i].value.address != config.signers[j].value.address)
  }

  ghost predicate Acceptable<A, S>(config: Config<A, S>, zero: A) {
    && Sized(config, zero)
    && zero !in config.authorized && AllDistinct(config.authorized)
    && LeaderAuthorized(config, zero)
    && SignersAuthorized(config)
  }

  // What is wrong with the signers.
  ghost predicate Explains<A, S>(config: Config<A, S>, error: ConfigError) {
    match error
    case SignerRequired => None in config.signers
    case SignerNotAuthorized =>
      exists k | 0 <= k < |config.signers| ::
        config.signers[k].Some? && config.signers[k].value.address !in config.authorized
    case SignersMustBeUnique =>
      exists k, l | 0 <= k < l < |config.signers| && config.signers[k].Some? && config.signers[l].Some? ::
        config.signers[k].value.address == config.signers[l].value.address
    case _ => false
  }

  method CheckAuthorized<A(==)>(users: seq<A>, zero: A) returns (r: Result<set<A>, ConfigError>)
    ensures r.Ok? <==> zero !in users && AllDistinct(users)
    ensures r.Ok? ==> forall user :: user in r.value <==> user in users
    ensures r.Err? ==> (r.error == AuthorizedUserRequired && zero in users)
                       || (r.error == AuthorizedUsersMustBeUnique && !AllDistinct(users))
  {
    var authorized: set<A> := {};
    for i := 0 to |users|
      invariant forall user :: user in authorized <==> user in users[..i]
      invariant zero !in users[..i] && AllDistinct(users[..i])
    {
      if users[i] == zero {
        return Err(AuthorizedUserRequired);
      }
      if users[i] in authorized {
        assert users[i] in users[..i];
        return Err(AuthorizedUsersMustBeUnique);
      }
      authorized := authorized + {users[i]};
    }
    assert users[..|users|] == users;
    return Ok(authorized);
  }

  method CheckSigners<A(==), S>(config: Config<A, S>, authorized: set<A>) returns (r: Option<ConfigError>)
    requires forall user :: user in authorized <==> user in config.authorized
    ensures r.None? <==> SignersAuthorized(config)
    ensures r.Some? ==> Explains(config, r.value)
  {
    var signers := config.signers;
    var contributors: set<A> := {};
    for i := 0 to |signers|
      invariant forall k | 0 <= k < i :: signers[k].Some? && signers[k].value.address in authorized
      invariant forall k | 0 <= k < i && signers[k].Some? :: signers[k].value.address in contributors
      invariant forall user | user in contributors :: exists k ::
          0 <= k < i && signers[k].Some? && signers[k].value.address == user
      invariant forall k, l | 0 <= k < l < i && signers[k].Some? && signers[l].Some? ::
          signers[k].value.address != signers[l].value.address
    {
      if signers[i] == None {
        return Some(SignerRequired);
      }
      var address := signers[i].value.address;
      if address !in authorized {
        return Some(SignerNotAuthorized);
      }
      if address in contributors {
        return Some(SignersMustBeUnique);
      }
      contributors := contributors + {address};
    }
    return None;
  }

  method Validate<A(==), S>(config: Config<A, S>, zero: A) returns (r: Option<ConfigError>)
    ensures r.None? <==> Acceptable(config, zero)
    ensures r == Some(InvalidConfiguration) <==> !Sized(config, zero)
    ensures r == Some(AuthorizedUserRequired) ==> zero in config.authorized
    ensures r == Some(AuthorizedUsersMustBeUnique) ==> !AllDistinct(config.authorized)
    ensures r == Some(LeaderNotAuthorized) ==>
              config.leaderOwner == None && config.leader.Some? && config.leader.value !in config.authorized
    ensures r == Some(LeaderOwnerRequired) ==> config.leaderOwner == Some(zero)
    ensures r == Some(LeaderOwnerNotAuthorized) ==>
              config.leaderOwner.Some? && config.leaderOwner.value !in config.authorized
    ensures r.Some? && r.value in {SignerRequired, SignerNotAuthorized, SignersMustBeUnique} ==>
              Explains(config, r.value)
  {
    if config.multiSigUser == zero || config.leader.None?
      || |config.authorized| == 0 || |config.authorized| > MAX_AUTHORIZED
       || config.threshold == 0 || config.threshold > |config.authorized| || |config.signers| < config.threshold
       || |config.signers| > |config.authorized| {
      return Some(InvalidConfiguration);
    }
    var checked := CheckAuthorized(config.authorized, zero);
    if checked.Err? {
      return Some(checked.error);
    }
    var authorized := checked.value;
    if config.leaderOwner.None? {
      if config.leader.value !in authorized {
        return Some(LeaderNotAuthorized);
      }
    } else {
      if config.leaderOwner.value == zero {
        return Some(LeaderOwnerRequired);
      }
      if config.leaderOwner.value !in authorized {
        return Some(LeaderOwnerNotAuthorized);
      }
    }
    r := CheckSigners(config, authorized);
  }

  // ---------- Addresses and their text ----------

  // strings.ToLower(address.Hex()): the checksum casing is gone.
  function HexDigit(n: nat): char
    requires n < 16
  {
    if n < 10 then (n + '0' as nat) as char else (n - 10 + 'a' as nat) as char
  }

  function HexDigits(address: seq<byte>): string {
    if address == [] then [] else [HexDigit(address[0] / 16), HexDigit(address[0] % 16)] + HexDigits(address[1..])
  }

  function LowerHex(address: seq<byte>): string {
    "0x" + HexDigits(address)
  }

  // "0x", and for each byte its two lower-case digits, the high one first.
  lemma HexSpellsBytes(address: seq<byte>, i: nat)
    requires i < |address|
    ensures |LowerHex(address)| == 2 + 2 * |address| && LowerHex(address)[..2] == "0x"
    ensures LowerHex(address)[2 + 2 * i] == "0123456789abcdef"[address[i] / 16]
    ensures LowerHex(address)[3 + 2 * i] == "0123456789abcdef"[address[i] % 16]
  {
    HexDigitsSpell(address, i);
  }

  lemma {:induction false} HexDigitsSpell(address: seq<byte>, i: nat)
    requires i < |address|
    ensures |HexDigits(address)| == 2 * |address|
    ensures HexDigits(address)[2 * i] == "0123456789abcdef"[address[i] / 16]
    ensures HexDigits(address)[2 * i + 1] == "0123456789abcdef"[address[i] % 16]
  {
    HexDigitSpells(address[0] / 16);
    HexDigitSpells(address[0] % 16);
    if |address| > 1 {
      HexDigitsSpell(address[1..], if i == 0 then 0 else i - 1);
    }
  }

  lemma HexDigitSpells(n: nat)
    requires n < 16
    ensures HexDigit(n) == "0123456789abcdef"[n]
  {}

  // The order of Go strings.
  predicate TextBelow(a: string, b: string) {
    if b == [] then false
    else if a == [] then true
    else a[0] < b[0] || (a[0] == b[0] && TextBelow(a[1..], b[1..]))
  }

  predicate Below(a: seq<byte>, b: seq<byte>) {
    if b == [] then false
    else if a == [] then true
    else a[0] < b[0] || (a[0] == b[0] && Below(a[1..], b[1..]))
  }

  lemma HexDigitOrder(a: nat, b: nat)
    requires a < 16 && b < 16
    ensures HexDigit(a) < HexDigit(b) <==> a < b
    ensures HexDigit(a) == HexDigit(b) <==> a == b
  {}

  lemma {:induction false} HexDigitsOrder(a: seq<byte>, b: seq<byte>)
    requires |a| == |b|
    ensures TextBelow(HexDigits(a), HexDigits(b)) <==> Below(a, b)
  {
    if a != [] {
      var s, t := HexDigits(a), HexDigits(b);
      HexDigitsOrder(a[1..], b[1..]);
      HexDigitOrder(a[0] / 16, b[0] / 16);
      HexDigitOrder(a[0] % 16, b[0] % 16);
      assert s[1..][1..] == HexDigits(a[1..]) && t[1..][1..] == HexDigits(b[1..]);
      assert TextBelow(s[1..], t[1..]) <==> a[0] % 16 < b[0] % 16 || (a[0] % 16 == b[0] % 16 && Below(a[1..], b[1..]));
    }
  }

  // Sorting addresses by their lower-case text sorts them by their bytes.
  lemma HexOrderIsByteOrder(a: seq<byte>, b: seq<byte>)
    requires |a| == |b|
    ensures TextBelow(LowerHex(a), LowerHex(b)) <==> Below(a, b)
  {
    HexDigitsOrder(a, b);
    assert LowerHex(a)[1..][1..] == HexDigits(a) && LowerHex(b)[1..][1..] == HexDigits(b);
  }

  lemma {:induction false} BelowIsTotal(a: seq<byte>, b: seq<byte>)
    requires |a| == |b|
    ensures Below(a, b) || Below(b, a) || a == b
    ensures !(Below(a, b) && Below(b, a))
  {
    if a != [] {
      BelowIsTotal(a[1..], b[1..]);
      assert a == [a[0]] + a[1..] && b == [b[0]] + b[1..];
    }
  }

  lemma {:induction false} BelowChains(a: seq<byte>, b: seq<byte>, c: seq<byte>)
    requires |a| == |b| == |c| && !Below(b, a) && !Below(c, b)
    ensures !Below(c, a)
  {
    if a != [] {
      if a[0] == b[0] == c[0] {
        BelowChains(a[1..], b[1..], c[1..]);
      }
    }
  }

  // ---------- Sorting the signatures ----------

  datatype Entry<S> = Entry(address: Address, signature: S)

  // The comparison handed to the sort.
  predicate Less<S>(a: Entry<S>, b: Entry<S>) {
    TextBelow(LowerHex(a.address), LowerHex(b.address))
  }

  ghost predicate InOrder<S>(entries: seq<Entry<S>>) {
    forall i, j | 0 <= i < j < |entries| :: !Less(entries[j], entries[i])
  }

  ghost predicate KeysDistinct<S>(entries: seq<Entry<S>>) {
    forall i, j | 0 <= i < j < |entries| :: entries[i].address != entries[j].address
  }

  lemma LessIsBelow<S>(a: Entry<S>, b: Entry<S>)
    ensures Less(a, b) <==> Below(a.address, b.address)
  {
    HexOrderIsByteOrder(a.address, b.address);
  }

  // One way to sort; any other gives the same, as the next lemmas show.
  function Insert<S>(sorted: seq<Entry<S>>, entry: Entry<S>): seq<Entry<S>> {
    if sorted == [] || !Less(entry, sorted[|sorted| - 1]) then sorted + [entry]
    else Insert(sorted[..|sorted| - 1], entry) + [sorted[|sorted| - 1]]
  }

  function Sort<S>(entries: seq<Entry<S>>): seq<Entry<S>> {
    if entries == [] then [] else Insert(Sort(entries[..|entries| - 1]), entries[|entries| - 1])
  }

  lemma LessChains<S>(a: Entry<S>, b: Entry<S>, c: Entry<S>)
    requires (a == b || !Less(b, a)) && !Less(c, b)
    ensures !Less(c, a)
  {
    LessIsBelow(b, a);
    LessIsBelow(c, b);
    LessIsBelow(c, a);
    BelowIsTotal(a.address, a.address);
    if a != b {
      BelowChains(a.address, b.address, c.address);
    }
  }

  // Nothing in the sequence belongs behind the entry.
  ghost predicate AllUpTo<S>(entries: seq<Entry<S>>, entry: Entry<S>) {
    forall other | other in entries :: !Less(entry, other)
  }

  lemma AppendLast<S>(entries: seq<Entry<S>>, last: Entry<S>)
    requires InOrder(entries) && AllUpTo(entries, last)
    ensures InOrder(entries + [last])
  {}

  lemma LastBounds<S>(sorted: seq<Entry<S>>)
    requires InOrder(sorted) && sorted != []
    ensures InOrder(sorted[..|sorted| - 1]) && AllUpTo(sorted[..|sorted| - 1], sorted[|sorted| - 1])
  {}

  lemma UpToLast<S>(sorted: seq<Entry<S>>, entry: Entry<S>)
    requires InOrder(sorted) && sorted != []
    requires !Less(entry, sorted[|sorted| - 1])
    ensures AllUpTo(sorted, entry)
  {
    var last := sorted[|sorted| - 1];
    forall other | other in sorted ensures !Less(entry, other) {
      var i :| 0 <= i < |sorted| && sorted[i] == other;
      LessChains(other, last, entry);
    }
  }

  lemma LessIsOneWay<S>(a: Entry<S>, b: Entry<S>)
    requires Less(a, b)
    ensures !Less(b, a)
  {
    LessIsBelow(a, b);
    LessIsBelow(b, a);
    BelowIsTotal(a.address, b.address);
  }

  lemma {:induction false} InsertIsPermutation<S>(sorted: seq<Entry<S>>, entry: Entry<S>)
    ensures multiset(Insert(sorted, entry)) == multiset(sorted) + multiset{entry}
    ensures forall other | other in Insert(sorted, entry) :: other in sorted || other == entry
  {
    if sorted != [] && Less(entry, sorted[|sorted| - 1]) {
      InsertIsPermutation(sorted[..|sorted| - 1], entry);
      assert sorted == sorted[..|sorted| - 1] + [sorted[|sorted| - 1]];
    }
  }

  lemma {:induction false} InsertKeepsOrder<S>(sorted: seq<Entry<S>>, entry: Entry<S>)
    requires InOrder(sorted)
    ensures InOrder(Insert(sorted, entry))
  {
    if sorted == [] {
    } else if !Less(entry, sorted[|sorted| - 1]) {
      UpToLast(sorted, entry);
      AppendLast(sorted, entry);
    } else {
      var front, last := sorted[..|sorted| - 1], sorted[|sorted| - 1];
      LastBounds(sorted);
      InsertKeepsOrder(front, entry);
      InsertIsPermutation(front, entry);
      LessIsOneWay(entry, last);
      AppendLast(Insert(front, entry), last);
    }
  }

  lemma {:induction false} SortSorts<S>(entries: seq<Entry<S>>)
    ensures InOrder(Sort(entries)) && multiset(Sort(entries)) == multiset(entries)
  {
    if entries != [] {
      var front, last := entries[..|entries| - 1], entries[|entries| - 1];
      assert entries == front + [last];
      SortSorts(front);
      InsertKeepsOrder(Sort(front), last);
      InsertIsPermutation(Sort(front), last);
    }
  }

  // ---------- The order does not depend on how the signers were listed ----------

  lemma FrontsMatch<T>(a: seq<T>, b: seq<T>)
    requires a != [] && b != [] && multiset(a) == multiset(b) && a[|a| - 1] == b[|b| - 1]
    ensures multiset(a[..|a| - 1]) == multiset(b[..|b| - 1])
  {
    assert a == a[..|a| - 1] + [a[|a| - 1]] && b == b[..|b| - 1] + [b[|b| - 1]];
    assert multiset(a[..|a| - 1]) == multiset(a) - multiset{a[|a| - 1]};
    assert multiset(b[..|b| - 1]) == multiset(b) - multiset{b[|b| - 1]};
  }

  lemma FrontKeeps<S>(a: seq<Entry<S>>)
    requires a != [] && InOrder(a) && KeysDistinct(a)
    ensures InOrder(a[..|a| - 1]) && KeysDistinct(a[..|a| - 1])
  {}

  lemma SameLength<T>(a: seq<T>, b: seq<T>)
    requires multiset(a) == multiset(b)
    ensures |a| == |b|
  {
    assert |multiset(a)| == |a| && |multiset(b)| == |b|;
  }

  // Two sorted arrangements of the same entries are the same sequence.
  lemma {:induction false} SameEntriesSameOrder<S>(a: seq<Entry<S>>, b: seq<Entry<S>>)
    requires InOrder(a) && InOrder(b) && KeysDistinct(a) && KeysDistinct(b)
    requires multiset(a) == multiset(b)
    ensures a == b
  {
    SameLength(a, b);
    if a != [] {
      LargestIsLast(a, b);
      FrontsMatch(a, b);
      FrontKeeps(a);
      FrontKeeps(b);
      SameEntriesSameOrder(a[..|a| - 1], b[..|b| - 1]);
      assert a == a[..|a| - 1] + [a[|a| - 1]] && b == b[..|b| - 1] + [b[|b| - 1]];
    }
  }

  lemma LargestIsLast<S>(a: seq<Entry<S>>, b: seq<Entry<S>>)
    requires a != [] && b != [] && InOrder(a) && InOrder(b) && KeysDistinct(a) && multiset(a) == multiset(b)
    ensures a[|a| - 1] == b[|b| - 1]
  {
    var lastA, lastB := a[|a| - 1], b[|b| - 1];
    assert lastA in multiset(b) && lastB in multiset(a);
    var i :| 0 <= i < |b| && b[i] == lastA;
    var j :| 0 <= j < |a| && a[j] == lastB;
    if lastA != lastB {
      assert !Less(lastB, lastA) && !Less(lastA, lastB);
      LessIsBelow(lastA, lastB);
      LessIsBelow(lastB, lastA);
      BelowIsTotal(lastA.address, lastB.address);
      assert false;
    }
  }

  // Whatever the sort does, its comparison leaves it one result.
  lemma SortIsDetermined<S>(entries: seq<Entry<S>>, sorted: seq<Entry<S>>)
    requires KeysDistinct(entries)
    requires InOrder(sorted) && multiset(sorted) == multiset(entries)
    ensures sorted == Sort(entries)
  {
    SortSorts(entries);
    KeysStayDistinct(entries, Sort(entries));
    KeysStayDistinct(entries, sorted);
    SameEntriesSameOrder(Sort(entries), sorted);
  }

  lemma {:induction false} TwoPlaces<T>(s: seq<T>, x: T) returns (i: nat, j: nat)
    requires multiset(s)[x] >= 2
    ensures i < j < |s| && s[i] == s[j] == x
  {
    var front, last := s[..|s| - 1], s[|s| - 1];
    assert s == front + [last];
    if last == x {
      j := |s| - 1;
      assert x in multiset(front);
      i :| 0 <= i < |front| && front[i] == x;
    } else {
      i, j := TwoPlaces(front, x);
    }
  }

  lemma TwiceIsTwo<T>(s: seq<T>, i: nat, j: nat)
    requires i < j < |s| && s[i] == s[j]
    ensures multiset(s)[s[i]] >= 2
  {
    assert s == s[..j] + s[j..];
    assert s[..j][i] in multiset(s[..j]) && s[j..][0] in multiset(s[j..]);
  }

  lemma KeysStayDistinct<S>(a: seq<Entry<S>>, b: seq<Entry<S>>)
    requires KeysDistinct(a) && multiset(a) == multiset(b)
    ensures KeysDistinct(b)
  {
    forall i, j | 0 <= i < j < |b| ensures b[i].address != b[j].address {
      assert b[i] in multiset(a) && b[j] in multiset(a);
      if b[i] == b[j] {
        TwiceIsTwo(b, i, j);
        var p, q := TwoPlaces(a, b[i]);
      }
    }
  }

  // ---------- Collecting the signatures ----------

  function EntryOf<S>(signer: Signer<Address, S>): Entry<S>
    requires signer.signature.Some?
  {
    Entry(signer.address, signer.signature.value)
  }

  predicate AllSign<A, S>(signers: seq<Option<Signer<A, S>>>) {
    forall i | 0 <= i < |signers| :: signers[i].Some? && signers[i].value.signature.Some?
  }

  function Entries<S>(signers: seq<Option<Signer<Address, S>>>): (entries: seq<Entry<S>>)
    requires AllSign(signers)
    ensures |entries| == |signers|
  {
    seq(|signers|, i requires 0 <= i < |signers| => EntryOf(signers[i].value))
  }

  function Signatures<S>(entries: seq<Entry<S>>): (signatures: seq<S>)
    ensures |signatures| == |entries|
  {
    seq(|entries|, i requires 0 <= i < |entries| => entries[i].signature)
  }

  // Asks every signer in turn, then sorts; the first refusal ends it.
  method CollectSignatures<S>(signers: seq<Option<Signer<Address, S>>>) returns (r: Option<seq<S>>)
    requires forall i | 0 <= i < |signers| :: signers[i].Some?
    ensures r.Some? <==> AllSign(signers)
    ensures r.Some? ==> r.value == Signatures(Sort(Entries(signers)))
  {
    var entries: seq<Entry<S>> := [];
    for i := 0 to |signers|
      invariant AllSign(signers[..i]) && entries == Entries(signers[..i])
    {
      if signers[i].value.signature.None? {
        return None;
      }
      entries := entries + [EntryOf(signers[i].value)];
    }
    assert signers[..|signers|] == signers;
    var sorted := Sort(entries);
    var result: seq<S> := [];
    for i := 0 to |sorted|
      invariant result == Signatures(sorted)[..i]
    {
      result := result + [sorted[i].signature];
    }
    r := Some(result);
  }

  lemma SignersMatch<S>(a: seq<Option<Signer<Address, S>>>, b: seq<Option<Signer<Address, S>>>)
    requires multiset(a) == multiset(b) && AllSign(a)
    ensures AllSign(b) && multiset(Entries(a)) == multiset(Entries(b))
  {
    forall i | 0 <= i < |b| ensures b[i].Some? && b[i].value.signature.Some? {
      assert b[i] in multiset(a);
      var j :| 0 <= j < |a| && a[j] == b[i];
    }
    EntriesMatch(a, b);
  }

  lemma TakenOut<T>(s: seq<T>, k: nat)
    requires k < |s|
    ensures multiset(s) == multiset(Without(s, k)) + multiset{s[k]}
  {
    assert s == s[..k] + ([s[k]] + s[k + 1..]);
  }

  lemma TakenOutAlike<T>(a: seq<T>, i: nat, b: seq<T>, k: nat)
    requires i < |a| && k < |b| && a[i] == b[k] && multiset(a) == multiset(b)
    ensures multiset(Without(a, i)) == multiset(Without(b, k))
  {
    TakenOut(a, i);
    TakenOut(b, k);
    assert multiset(Without(a, i)) == multiset(a) - multiset{a[i]};
    assert multiset(Without(b, k)) == multiset(b) - multiset{b[k]};
  }

  lemma EntriesWithout<S>(signers: seq<Option<Signer<Address, S>>>, k: nat)
    requires AllSign(signers) && k < |signers|
    ensures AllSign(Without(signers, k))
    ensures multiset(Entries(signers)) == multiset(Entries(Without(signers, k))) + multiset{EntryOf(signers[k].value)}
  {
    TakenOut(Entries(signers), k);
    assert Without(Entries(signers), k) == Entries(Without(signers, k));
  }

  lemma PlaceOf<T>(a: seq<T>, b: seq<T>) returns (k: nat)
    requires a != [] && multiset(a) == multiset(b)
    ensures k < |b| && b[k] == a[0]
  {
    assert a[0] in multiset(b);
    k :| 0 <= k < |b| && b[k] == a[0];
  }

  lemma {:induction false} EntriesMatch<S>(a: seq<Option<Signer<Address, S>>>, b: seq<Option<Signer<Address, S>>>)
    requires multiset(a) == multiset(b) && AllSign(a) && AllSign(b)
    ensures multiset(Entries(a)) == multiset(Entries(b))
    decreases |a|
  {
    SameLength(a, b);
    if a != [] {
      var k := PlaceOf(a, b);
      TakenOutAlike(a, 0, b, k);
      EntriesWithout(a, 0);
      EntriesWithout(b, k);
      EntriesMatch(Without(a, 0), Without(b, k));
    }
  }

  // ---------- The envelope ----------

  lemma ContributorsStay<A, S>(config: Config<A, S>, signers: seq<Option<Signer<A, S>>>)
    requires SignersAuthorized(config) && multiset(signers) == multiset(config.signers)
    ensures SignersAuthorized(config.(signers := signers))
  {
    forall i | 0 <= i < |signers| ensures signers[i].Some? && signers[i].value.address in config.authorized {
      assert signers[i] in multiset(config.signers);
    }
    forall i, j | 0 <= i < j < |signers| && signers[i].Some? && signers[j].Some?
      ensures signers[i].value.address != signers[j].value.address
    {
      assert signers[i] in multiset(config.signers) && signers[j] in multiset(config.signers);
      if signers[i] == signers[j] {
        TwiceIsTwo(signers, i, j);
        var p, q := TwoPlaces(config.signers, signers[i]);
      }
    }
  }

  // However the same signers are listed, the configuration is as good as before and the envelope carries
  // the same signatures in the same order.
  lemma EnvelopeIgnoresOrder<S>(config: Config<Address, S>, zero: Address, signers: seq<Option<Signer<Address, S>>>)
    requires Acceptable(config, zero) && multiset(signers) == multiset(config.signers)
    ensures Acceptable(config.(signers := signers), zero)
    ensures AllSign(signers) <==> AllSign(config.signers)
    ensures AllSign(signers) ==> Signatures(Sort(Entries(signers))) == Signatures(Sort(Entries(config.signers)))
  {
    SameLength(signers, config.signers);
    ContributorsStay(config, signers);
    if AllSign(signers) {
      SignersMatch(signers, config.signers);
    }
    if AllSign(config.signers) {
      SignersMatch(config.signers, signers);
      SortSorts(Entries(signers));
      SortIsDetermined(Entries(config.signers), Sort(Entries(signers)));
    }
  }

  // The envelope carries at least the threshold of signatures, of different authorized users, in the
  // order of their addresses.
  lemma EnvelopeReachesThreshold<S>(config: Config<Address, S>, zero: Address)
    requires Acceptable(config, zero) && AllSign(config.signers)
    ensures var sorted := Sort(Entries(config.signers));
            |Signatures(sorted)| >= config.threshold
            && (forall i | 0 <= i < |sorted| :: sorted[i].address in config.authorized)
            && (forall i, j | 0 <= i < j < |sorted| :: Below(sorted[i].address, sorted[j].address))
  {
    var entries := Entries(config.signers);
    var sorted := Sort(entries);
    SortSorts(entries);
    SameLength(entries, sorted);
    KeysStayDistinct(entries, sorted);
    forall i | 0 <= i < |sorted| ensures sorted[i].address in config.authorized {
      assert sorted[i] in multiset(entries);
      var k :| 0 <= k < |entries| && entries[k] == sorted[i];
      assert entries[k] == EntryOf(config.signers[k].value);
    }
    forall i, j | 0 <= i < j < |sorted| ensures Below(sorted[i].address, sorted[j].address) {
      LessIsBelow(sorted[j], sorted[i]);
      BelowIsTotal(sorted[i].address, sorted[j].address);
    }
  }
}
