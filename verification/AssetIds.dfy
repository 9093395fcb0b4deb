/** asset/meta_resolver.go: market identifiers of three namespaces, and the lookup that leaves a namespace out
    when the identifier is too small for it. */
module AssetIds {
  import opened Assets
  import Price
  import opened Wrappers

  datatype Asset = Asset(id: int, symbol: string, kind: AssetKind, szDecimals: int, dex: string)

  datatype Item = Item(name: string, szDecimals: int)

  // A perpetual DEX and its market list; the server's list of DEXs has holes.
  datatype Dex = Dex(name: string, universe: seq<Item>)

  datatype OutcomeMarket = OutcomeMarket(outcome: int, sides: nat)

  datatype LookupError = NotFound | Ambiguous | Unavailable

  const HIP3_START := 100_000
  const DEX_STRIDE := 10_000
  const OUTCOME_START := 100_000_000

  // ---------- The assets of each namespace ----------

  function Perps(universe: seq<Item>, dex: string, offset: int, kind: AssetKind): (assets: seq<Asset>)
    ensures |assets| == |universe|
  {
    seq(|universe|, i requires 0 <= i < |universe| =>
      Asset(offset + i, universe[i].name, kind, universe[i].szDecimals, dex))
  }

  method AppendPerps(assets: seq<Asset>, universe: seq<Item>, dex: string, offset: int, kind: AssetKind)
      returns (r: seq<Asset>)
    ensures r == assets + Perps(universe, dex, offset, kind)
  {
    r := assets;
    var perps := Perps(universe, dex, offset, kind);
    for index := 0 to |universe|
      invariant r == assets + perps[..index]
    {
      var item := universe[index];
      r := r + [Asset(offset + index, item.name, kind, item.szDecimals, dex)];
    }
  }

  predicate Named(dex: Option<Dex>) {
    dex.Some? && dex.value.name != ""
  }

  function Offset(index: nat): int {
    HIP3_START + index * DEX_STRIDE
  }

  function OfDex(dex: Option<Dex>, index: nat): seq<Asset> {
    if Named(dex) then Perps(dex.value.universe, dex.value.name, Offset(index), Hip3) else []
  }

  function Hip3Assets(dexes: seq<Option<Dex>>): seq<Asset> {
    if dexes == [] then []
    else Hip3Assets(dexes[..|dexes| - 1]) + OfDex(dexes[|dexes| - 1], |dexes| - 1)
  }

  // `failing` are the names whose market list cannot be loaded; one of them ends the fetch.
  method FetchHip3(dexes: seq<Option<Dex>>, failing: set<string>) returns (r: Result<seq<Asset>, LookupError>)
    ensures r.Ok? <==> forall i | 0 <= i < |dexes| && Named(dexes[i]) :: dexes[i].value.name !in failing
    ensures r == Ok(Hip3Assets(dexes)) || r == Err(Unavailable)
  {
    var assets: seq<Asset> := [];
    for index := 0 to |dexes|
      invariant assets == Hip3Assets(dexes[..index])
      invariant forall i | 0 <= i < index && Named(dexes[i]) :: dexes[i].value.name !in failing
    {
      var dex := dexes[index];
      assert dexes[..index + 1][..index] == dexes[..index];
      if dex == None || dex.value.name == "" {
        continue;
      }
      if dex.value.name in failing {
        return Err(Unavailable);
      }
      assets := AppendPerps(assets, dex.value.universe, dex.value.name, 100000 + index * 10000, Hip3);
    }
    assert dexes[..|dexes|] == dexes;
    r := Ok(assets);
  }

  function Side(outcome: nat, side: nat): Asset {
    Asset(OUTCOME_START + outcome * 10 + side, "#" + Price.Digits(outcome * 10 + side), Outcome, 0, "")
  }

  function OfOutcome(market: OutcomeMarket): seq<Asset> {
    if market.outcome < 0 || market.sides != 2 then [] else [Side(market.outcome, 0), Side(market.outcome, 1)]
  }

  function OutcomeAssets(markets: seq<OutcomeMarket>): seq<Asset> {
    if markets == [] then [] else OutcomeAssets(markets[..|markets| - 1]) + OfOutcome(markets[|markets| - 1])
  }

  method AppendOutcomes(markets: seq<OutcomeMarket>) returns (assets: seq<Asset>)
    ensures assets == OutcomeAssets(markets)
  {
    assets := [];
    for index := 0 to |markets|
      invariant assets == OutcomeAssets(markets[..index])
    {
      var market := markets[index];
      assert markets[..index + 1][..index] == markets[..index];
      if market.outcome < 0 || market.sides != 2 {
        continue;
      }
      ghost var before := assets;
      for side := 0 to 2
        invariant assets == before + OfOutcome(market)[..side]
      {
        assets := assets + [Side(market.outcome, side)];
      }
    }
    assert markets[..|markets|] == markets;
  }

  // ---------- The index ----------

  function Having(assets: seq<Asset>, id: int): seq<Asset> {
    if assets == [] then []
    else
      var last := assets[|assets| - 1];
      Having(assets[..|assets| - 1], id) + if last.id == id then [last] else []
  }

  function Found(byId: map<int, seq<Asset>>, id: int): seq<Asset> {
    if id in byId then byId[id] else []
  }

  ghost predicate Indexes(byId: map<int, seq<Asset>>, assets: seq<Asset>) {
    forall id :: Found(byId, id) == Having(assets, id)
  }

  lemma IndexOne(byId: map<int, seq<Asset>>, front: seq<Asset>, asset: Asset)
    requires Indexes(byId, front)
    ensures Indexes(byId[asset.id := Found(byId, asset.id) + [asset]], front + [asset])
  {
    assert (front + [asset])[..|front|] == front;
    forall id ensures Found(byId[asset.id := Found(byId, asset.id) + [asset]], id) == Having(front + [asset], id) {
      assert Found(byId, id) == Having(front, id);
    }
  }

  method IndexAssets(assets: seq<Asset>) returns (byId: map<int, seq<Asset>>)
    ensures Indexes(byId, assets)
  {
    byId := map[];
    for index := 0 to |assets|
      invariant Indexes(byId, assets[..index])
    {
      var asset := assets[index];
      IndexOne(byId, assets[..index], asset);
      assert assets[..index] + [asset] == assets[..index + 1];
      byId := byId[asset.id := Found(byId, asset.id) + [asset]];
    }
    assert assets[..|assets|] == assets;
  }

  // ---------- The lookup ----------

  function Unique(assets: seq<Asset>): Result<Asset, LookupError> {
    if |assets| == 0 then Err(NotFound) else if |assets| != 1 then Err(Ambiguous) else Ok(assets[0])
  }

  // A namespace whose metadata could not be loaded is None.
  method ResolveID(base: seq<Asset>, hip3: Option<seq<Asset>>, outcomesEnabled: bool,
                   outcomes: Option<seq<Asset>>, id: int)
    returns (r: Result<Asset, LookupError>)
    ensures r == Resolved(base, hip3, outcomesEnabled, outcomes, id)
  {
    var baseIndex := IndexAssets(base);
    var assets := Found(baseIndex, id);
    if id >= 100000 {
      if hip3 == None {
        return Err(Unavailable);
      }
      var hip3Index := IndexAssets(hip3.value);
      assets := assets + Found(hip3Index, id);
    }
    if id >= 100000000 && outcomesEnabled {
      if outcomes == None {
        return Err(Unavailable);
      }
      var outcomeIndex := IndexAssets(outcomes.value);
      assets := assets + Found(outcomeIndex, id);
    }
    r := Unique(assets);
  }

  function Resolved(base: seq<Asset>, hip3: Option<seq<Asset>>, outcomesEnabled: bool,
                    outcomes: Option<seq<Asset>>, id: int)
    : Result<Asset, LookupError>
  {
    if id >= HIP3_START && hip3.None? then Err(Unavailable)
    else if id >= OUTCOME_START && outcomesEnabled && outcomes.None? then Err(Unavailable)
    else Unique(Having(base, id)
                + (if id >= HIP3_START then Having(hip3.value, id) else [])
                + (if id >= OUTCOME_START && outcomesEnabled then Having(outcomes.value, id) else []))
  }

  lemma {:induction false} HavingOfSum(a: seq<Asset>, b: seq<Asset>, id: int)
    ensures Having(a + b, id) == Having(a, id) + Having(b, id)
  {
    if b == [] {
      assert a + b == a;
    } else {
      HavingOfSum(a, b[..|b| - 1], id);
      assert (a + b)[..|a + b| - 1] == a + b[..|b| - 1];
    }
  }

  lemma {:induction false} HavingNone(assets: seq<Asset>, id: int)
    requires forall asset | asset in assets :: asset.id != id
    ensures Having(assets, id) == []
  {
    if assets != [] {
      HavingNone(assets[..|assets| - 1], id);
    }
  }

  lemma {:induction false} Hip3IdsAreHigh(dexes: seq<Option<Dex>>)
    ensures forall asset | asset in Hip3Assets(dexes) :: asset.id >= HIP3_START
  {
    if dexes != [] {
      Hip3IdsAreHigh(dexes[..|dexes| - 1]);
    }
  }

  lemma {:induction false} OutcomeIdsAreHigh(markets: seq<OutcomeMarket>)
    ensures forall asset | asset in OutcomeAssets(markets) :: asset.id >= OUTCOME_START
  {
    if markets != [] {
      OutcomeIdsAreHigh(markets[..|markets| - 1]);
    }
  }

  // What the identifier finds in a list: its one asset, nothing, or more than one.
  ghost predicate IsAnswer(all: seq<Asset>, id: int, r: Result<Asset, LookupError>) {
    match r
    case Ok(asset) => asset.id == id && exists p :: IsOnly(all, p, asset)
    case Err(NotFound) => forall p | 0 <= p < |all| :: all[p].id != id
    case Err(Ambiguous) => exists p, q | 0 <= p < q < |all| :: all[p].id == all[q].id == id
    case Err(Unavailable) => false
  }

  predicate IsOnly(all: seq<Asset>, p: int, asset: Asset) {
    0 <= p < |all| && all[p] == asset && forall q | 0 <= q < |all| && q != p :: all[q].id != asset.id
  }

  lemma {:induction false} UniqueIsAnswer(all: seq<Asset>, id: int)
    ensures IsAnswer(all, id, Unique(Having(all, id)))
  {
    if all != [] {
      var n := |all| - 1;
      var front := all[..n];
      UniqueIsAnswer(front, id);
      match Unique(Having(front, id))
      case Ok(asset) =>
        var p :| IsOnly(front, p, asset);
        assert all[n].id != id ==> IsOnly(all, p, asset);
        assert all[p].id == id;
      case Err(NotFound) =>
        assert Having(front, id) == [];
        assert all[n].id == id ==> IsOnly(all, n, all[n]);
      case Err(Ambiguous) =>
        var p, q :| 0 <= p < q < |front| && front[p].id == front[q].id == id;
        assert all[p].id == all[q].id == id;
      case Err(Unavailable) =>
    }
  }

  // Leaving namespaces out by the size of the identifier finds what a scan of everything finds.
  lemma LookupAgreesWithFullScan(base: seq<Asset>, dexes: seq<Option<Dex>>, outcomesEnabled: bool,
      markets: seq<OutcomeMarket>, id: int)
    ensures var hip3, outcomes := Hip3Assets(dexes), OutcomeAssets(markets);
            var all := base + hip3 + if outcomesEnabled then outcomes else [];
            var r := Resolved(base, Some(hip3), outcomesEnabled, Some(outcomes), id);
            r == Unique(Having(all, id)) && IsAnswer(all, id, r)
  {
    var hip3, outcomes := Hip3Assets(dexes), OutcomeAssets(markets);
    HavingOfSum(base, hip3, id);
    HavingOfSum(base + hip3, if outcomesEnabled then outcomes else [], id);
    UniqueIsAnswer(base + hip3 + if outcomesEnabled then outcomes else [], id);
    if id < HIP3_START {
      Hip3IdsAreHigh(dexes);
      HavingNone(hip3, id);
    }
    if id < OUTCOME_START {
      OutcomeIdsAreHigh(markets);
      HavingNone(outcomes, id);
    }
  }

  // A namespace that cannot be loaded is either reported or does not matter: whatever is answered is what the
  // scan of everything would have found, and only identifiers of its range are refused.
  lemma UnavailableNeverMisleads(base: seq<Asset>, dexes: seq<Option<Dex>>, outcomesEnabled: bool,
      markets: seq<OutcomeMarket>, hip3: Option<seq<Asset>>, outcomes: Option<seq<Asset>>, id: int)
    requires hip3.Some? ==> hip3.value == Hip3Assets(dexes)
    requires outcomes.Some? ==> outcomes.value == OutcomeAssets(markets)
    ensures var all := base + Hip3Assets(dexes) + if outcomesEnabled then OutcomeAssets(markets) else [];
            var r := Resolved(base, hip3, outcomesEnabled, outcomes, id);
            && (r == Err(Unavailable) <==>
                  (id >= 100_000 && hip3.None?) || (id >= 100_000_000 && outcomesEnabled && outcomes.None?))
            && (r != Err(Unavailable) ==> IsAnswer(all, id, r))
  {
    LookupAgreesWithFullScan(base, dexes, outcomesEnabled, markets, id);
  }

  // ---------- Which identifiers the namespaces give out ----------

  ghost predicate IsHip3(dexes: seq<Option<Dex>>, asset: Asset, i: nat, j: nat) {
    && i < |dexes| && dexes[i].Some? && dexes[i].value.name != "" && j < |dexes[i].value.universe|
    && asset == Asset(100_000 + 10_000 * i + j, dexes[i].value.universe[j].name, Hip3,
                      dexes[i].value.universe[j].szDecimals, dexes[i].value.name)
  }

  // The HIP-3 assets are the markets of the named DEXs, each under 100000 + 10000 * DEX + position.
  lemma {:induction false} Hip3AssetsAre(dexes: seq<Option<Dex>>, asset: Asset)
    ensures asset in Hip3Assets(dexes) <==> exists i: nat, j: nat :: IsHip3(dexes, asset, i, j)
  {
    if dexes != [] {
      var k := |dexes| - 1;
      Hip3AssetsAre(dexes[..k], asset);
      OfDexAre(dexes, asset);
      if i: nat, j: nat :| IsHip3(dexes[..k], asset, i, j) {
        assert IsHip3(dexes, asset, i, j);
      }
      if i: nat, j: nat :| IsHip3(dexes, asset, i, j) && i < k {
        assert IsHip3(dexes[..k], asset, i, j);
      }
    }
  }

  lemma OfDexAre(dexes: seq<Option<Dex>>, asset: Asset)
    requires dexes != []
    ensures var k := |dexes| - 1; asset in OfDex(dexes[k], k) <==> exists j: nat :: IsHip3(dexes, asset, k, j)
  {
    var k := |dexes| - 1;
    var last := OfDex(dexes[k], k);
    if asset in last {
      var j: nat :| j < |last| && last[j] == asset;
      assert IsHip3(dexes, asset, k, j);
    }
    if j: nat :| IsHip3(dexes, asset, k, j) {
      assert last[j] == asset;
    }
  }

  ghost predicate IsSideOf(market: OutcomeMarket, asset: Asset, side: nat) {
    && market.outcome >= 0 && market.sides == 2 && side < 2
    && var encoding := 10 * market.outcome + side;
       asset == Asset(100_000_000 + encoding, "#" + Price.Digits(encoding), Outcome, 0, "")
  }

  ghost predicate IsOutcome(markets: seq<OutcomeMarket>, asset: Asset, k: nat) {
    k < |markets| && exists side: nat :: IsSideOf(markets[k], asset, side)
  }

  // The outcome assets are the two sides of the two-sided markets, each under 100000000 + 10 * outcome + side.
  lemma {:induction false} OutcomeAssetsAre(markets: seq<OutcomeMarket>, asset: Asset)
    ensures asset in OutcomeAssets(markets) <==> exists k: nat :: IsOutcome(markets, asset, k)
  {
    if markets != [] {
      var n := |markets| - 1;
      OutcomeAssetsAre(markets[..n], asset);
      OfOutcomeAre(markets[n], asset);
      assert asset in OfOutcome(markets[n]) <==> IsOutcome(markets, asset, n);
      forall k: nat | k < n ensures IsOutcome(markets, asset, k) <==> IsOutcome(markets[..n], asset, k) {
        assert markets[..n][k] == markets[k];
      }
    }
  }

  lemma OfOutcomeAre(market: OutcomeMarket, asset: Asset)
    ensures asset in OfOutcome(market) <==> exists side: nat :: IsSideOf(market, asset, side)
  {
    var sides := OfOutcome(market);
    if asset in sides {
      var side: nat :| side < |sides| && sides[side] == asset;
      assert IsSideOf(market, asset, side);
    }
    if side: nat :| IsSideOf(market, asset, side) {
      assert sides[side] == asset;
    }
  }

  // ---------- When identifiers are unique ----------

  ghost predicate Distinct(assets: seq<Asset>) {
    forall p, q | 0 <= p < q < |assets| :: assets[p].id != assets[q].id
  }

  lemma {:induction false} DistinctIsFound(assets: seq<Asset>, p: nat)
    requires Distinct(assets) && p < |assets|
    ensures Having(assets, assets[p].id) == [assets[p]]
  {
    var front := assets[..|assets| - 1];
    if p < |front| {
      DistinctIsFound(front, p);
    } else {
      HavingNone(front, assets[p].id);
    }
  }

  // A DEX may not have so many markets that it runs into a later one that has any.
  ghost predicate Spaced(dexes: seq<Option<Dex>>) {
    forall i, k | 0 <= i < k < |dexes| && Named(dexes[i]) && Named(dexes[k]) && dexes[k].value.universe != [] ::
      |dexes[i].value.universe| <= (k - i) * DEX_STRIDE
  }

  lemma {:induction false} WhereFrom(dexes: seq<Option<Dex>>, p: nat) returns (i: nat, j: nat)
    requires p < |Hip3Assets(dexes)|
    ensures i < |dexes| && Named(dexes[i]) && j < |dexes[i].value.universe|
    ensures Hip3Assets(dexes)[p].id == Offset(i) + j
  {
    var front := dexes[..|dexes| - 1];
    if p < |Hip3Assets(front)| {
      i, j := WhereFrom(front, p);
    } else {
      i, j := |dexes| - 1, p - |Hip3Assets(front)|;
    }
  }

  lemma {:induction false} WhereTo(dexes: seq<Option<Dex>>, i: nat, j: nat)
    requires i < |dexes| && Named(dexes[i]) && j < |dexes[i].value.universe|
    ensures var p := |Hip3Assets(dexes[..i])| + j;
            p < |Hip3Assets(dexes)| && Hip3Assets(dexes)[p].id == Offset(i) + j
  {
    var front := dexes[..|dexes| - 1];
    if i < |front| {
      WhereTo(front, i, j);
      assert front[..i] == dexes[..i];
    }
  }

  lemma SpacedPrefix(dexes: seq<Option<Dex>>)
    requires dexes != [] && Spaced(dexes)
    ensures Spaced(dexes[..|dexes| - 1])
  {}

  lemma {:induction false} SpacedIsDistinct(dexes: seq<Option<Dex>>)
    requires Spaced(dexes)
    ensures Distinct(Hip3Assets(dexes))
  {
    if dexes != [] {
      var k := |dexes| - 1;
      var front := Hip3Assets(dexes[..k]);
      SpacedPrefix(dexes);
      SpacedIsDistinct(dexes[..k]);
      forall p | 0 <= p < |front| && OfDex(dexes[k], k) != [] ensures front[p].id < Offset(k) {
        var i, j := WhereFrom(dexes[..k], p);
        assert |dexes[i].value.universe| <= (k - i) * DEX_STRIDE;
      }
    }
  }

  lemma DistinctIsSpaced(dexes: seq<Option<Dex>>, i: nat, k: nat)
    requires Distinct(Hip3Assets(dexes))
    requires i < k < |dexes| && Named(dexes[i]) && Named(dexes[k]) && dexes[k].value.universe != []
    ensures |dexes[i].value.universe| <= (k - i) * DEX_STRIDE
  {
    if |dexes[i].value.universe| > (k - i) * DEX_STRIDE {
      var j := (k - i) * DEX_STRIDE;
      WhereTo(dexes[..k], i, j);
      assert dexes[..k][..i] == dexes[..i];
      WhereTo(dexes, i, j);
      WhereTo(dexes, k, 0);
    }
  }

  // HIP-3 identifiers are pairwise distinct exactly when no DEX outgrows the distance to a later one in use.
  lemma Hip3IdsDistinct(dexes: seq<Option<Dex>>)
    ensures Distinct(Hip3Assets(dexes)) <==> Spaced(dexes)
  {
    if Spaced(dexes) {
      SpacedIsDistinct(dexes);
    }
    if Distinct(Hip3Assets(dexes)) {
      forall i, k | 0 <= i < k < |dexes| && Named(dexes[i]) && Named(dexes[k]) && dexes[k].value.universe != []
        ensures |dexes[i].value.universe| <= (k - i) * DEX_STRIDE
      {
        DistinctIsSpaced(dexes, i, k);
      }
    }
  }

  // Ten thousand markets a DEX are always few enough.
  lemma TenThousandEachSuffice(dexes: seq<Option<Dex>>)
    requires forall dex | dex in dexes && Named(dex) :: |dex.value.universe| <= DEX_STRIDE
    ensures Distinct(Hip3Assets(dexes))
  {
    SpacedIsDistinct(dexes);
  }

  lemma UniqueOfDistinct(all: seq<Asset>, id: int)
    requires Distinct(all)
    ensures forall p | 0 <= p < |all| && all[p].id == id :: Unique(Having(all, id)) == Ok(all[p])
    ensures Unique(Having(all, id)) == Err(NotFound) <==> forall p | 0 <= p < |all| :: all[p].id != id
  {
    if p :| 0 <= p < |all| && all[p].id == id {
      DistinctIsFound(all, p);
    } else {
      HavingNone(all, id);
    }
  }

  // With distinct identifiers every market is found under its own, and nothing else is.
  lemma EveryMarketIsFound(base: seq<Asset>, dexes: seq<Option<Dex>>, outcomesEnabled: bool,
                           markets: seq<OutcomeMarket>,
                           all: seq<Asset>, id: int)
    requires all == base + Hip3Assets(dexes) + if outcomesEnabled then OutcomeAssets(markets) else []
    requires Distinct(all)
    ensures var r := Resolved(base, Some(Hip3Assets(dexes)), outcomesEnabled, Some(OutcomeAssets(markets)), id);
            (forall p | 0 <= p < |all| && all[p].id == id :: r == Ok(all[p]))
            && (r == Err(NotFound) <==> forall p | 0 <= p < |all| :: all[p].id != id)
  {
    LookupAgreesWithFullScan(base, dexes, outcomesEnabled, markets, id);
    UniqueOfDistinct(all, id);
  }
}
