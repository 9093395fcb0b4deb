/** asset: the market namespaces. */
module Assets {

  datatype AssetKind = Perp | Spot | Hip3 | Outcome
}
