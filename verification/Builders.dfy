/** exchange/order.go, builderForOrders: the one builder fee a batch of orders may carry. */
module Builders {
  import opened Assets
  import opened Bytes
  import opened MultiSig
  import opened Wrappers

  // A builder as the caller names it, and as it goes on the wire.
  datatype Builder = Builder(address: Address, fee: nat)

  datatype BuilderWire = BuilderWire(address: string, fee: nat)

  datatype BuilderError = MissingAssets | DifferentBuilders | AddressRequired | FeeRequired | FeeTooHigh

  const ZERO: Address := [0, 0, 0, 0, 0, 0, 0, 0, 0, 0, 0, 0, 0, 0, 0, 0, 0, 0, 0, 0]

  function MaxFee(kind: AssetKind): nat {
    if kind == Spot || kind == Outcome then 1000 else 100
  }

  function WireOf(builder: Builder): BuilderWire {
    BuilderWire(LowerHex(builder.address), builder.fee)
  }

  predicate Allowed(builder: Builder, kind: AssetKind) {
    builder.address != ZERO && 0 < builder.fee <= MaxFee(kind)
  }

  lemma {:induction false} NotBelowItself(text: string)
    ensures !TextBelow(text, text)
  {
    if text != [] {
      NotBelowItself(text[1..]);
    }
  }

  // Lower-case text tells addresses apart.
  lemma TextTellsAddressesApart(a: Address, b: Address)
    ensures LowerHex(a) == LowerHex(b) <==> a == b
  {
    if LowerHex(a) == LowerHex(b) {
      NotBelowItself(LowerHex(a));
      HexOrderIsByteOrder(a, b);
      HexOrderIsByteOrder(b, a);
      BelowIsTotal(a, b);
    }
  }

  // Order `i` names the builder the first one names, or none if the first names none, and its asset allows the fee.
  predicate Agrees(builders: seq<Option<Builder>>, kinds: seq<AssetKind>, i: nat)
    requires i < |builders| == |kinds|
  {
    builders[i] == builders[0] && (builders[i].Some? ==> Allowed(builders[i].value, kinds[i]))
  }

  lemma SameWireSameBuilder(a: Builder, b: Builder)
    ensures WireOf(a) == WireOf(b) <==> a == b
  {
    TextTellsAddressesApart(a.address, b.address);
  }

  // What one order is checked for on its own.
  method CheckBuilder(builder: Builder, kind: AssetKind) returns (r: Option<BuilderError>)
    ensures r.None? <==> Allowed(builder, kind)
    ensures var zero := forall i | 0 <= i < 20 :: builder.address[i] == 0;
            var cap := if kind == Spot || kind == Outcome then 1000 else 100;
            && (r == Some(AddressRequired) <==> zero)
            && (r == Some(FeeRequired) <==> !zero && builder.fee == 0)
            && (r == Some(FeeTooHigh) <==> !zero && builder.fee > cap)
            && (r == None <==> !zero && 0 < builder.fee <= cap)
  {
    assert (forall i | 0 <= i < 20 :: builder.address[i] == 0) <==> builder.address == ZERO;
    if builder.address == ZERO {
      return Some(AddressRequired);
    }
    if builder.fee == 0 {
      return Some(FeeRequired);
    }
    var maximum := 100;
    if kind == Spot || kind == Outcome {
      maximum := 1000;
    }
    if builder.fee > maximum {
      return Some(FeeTooHigh);
    }
    r := None;
  }

  // A batch is accepted exactly when all its orders agree, and then carries their builder.
  method BuilderForOrders(builders: seq<Option<Builder>>, kinds: seq<AssetKind>)
      returns (r: Result<Option<BuilderWire>, BuilderError>)
    requires builders != [] || kinds != []
    ensures r.Ok? <==> |builders| == |kinds| && forall i | 0 <= i < |builders| :: Agrees(builders, kinds, i)
    ensures r == Err(MissingAssets) <==> |builders| != |kinds|
    ensures r.Ok? ==> builders != []
    ensures r.Ok? && builders[0].None? ==> r.value == None
    ensures r.Ok? && builders[0].Some? ==>
              r.value == Some(BuilderWire(LowerHex(builders[0].value.address), builders[0].value.fee))
  {
    if |builders| != |kinds| {
      return Err(MissingAssets);
    }
    var output: Option<BuilderWire> := None;
    var firstHasBuilder := builders[0].Some?;
    for index := 0 to |builders|
      invariant forall i | 0 <= i < index :: Agrees(builders, kinds, i)
      invariant output == if index > 0 && firstHasBuilder then Some(WireOf(builders[0].value)) else None
    {
      var builder := builders[index];
      if builder.Some? != firstHasBuilder {
        assert !Agrees(builders, kinds, index);
        return Err(DifferentBuilders);
      }
      if builder == None {
        assert Agrees(builders, kinds, index);
        continue;
      }
      var checked := CheckBuilder(builder.value, kinds[index]);
      if checked.Some? {
        assert !Agrees(builders, kinds, index);
        return Err(checked.value);
      }
      var candidate := BuilderWire(LowerHex(builder.value.address), builder.value.fee);
      SameWireSameBuilder(builder.value, builders[0].value);
      if output == None {
        output := Some(candidate);
        continue;
      }
      if output.value != candidate {
        assert !Agrees(builders, kinds, index);
        return Err(DifferentBuilders);
      }
    }
    r := Ok(output);
  }
}
