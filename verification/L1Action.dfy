/** signing/l1_action.go: the bytes an L1 action contributes to the digest that is signed. */
module L1Action {
  import opened Bytes
  import opened MessagePack
  import opened Wrappers

  type int64 = n: int | -TWO_63 <= n < TWO_63
  type uint64 = n: int | 0 <= n < TWO_64

  // A slice of Go is nil or a sequence, and the two are encoded differently.
  type Slice<T> = Option<seq<T>>

  // The names on the wire.
  const TYPE: ByteString := "type"
  const CANCELS: ByteString := "cancels"
  const ORDER: ByteString := "order"
  const TWAP_ORDER: ByteString := "twapOrder"
  const CANCEL_BY_CLOID: ByteString := "cancelByCloid"
  const CANCEL: ByteString := "cancel"
  const BATCH_MODIFY: ByteString := "batchModify"
  const TWAP: ByteString := "twap"
  const MODIFIES: ByteString := "modifies"
  const TIF: ByteString := "tif"
  const SCHEDULE_CANCEL: ByteString := "scheduleCancel"
  const ORDERS: ByteString := "orders"
  const OID: ByteString := "oid"
  const GROUPING: ByteString := "grouping"
  const BUILDER: ByteString := "builder"
  const TWAP_CANCEL: ByteString := "twapCancel"
  const TRIGGER_PX: ByteString := "triggerPx"
  const TRIGGER: ByteString := "trigger"
  const TPSL: ByteString := "tpsl"
  const TIME: ByteString := "time"
  const LIMIT: ByteString := "limit"
  const IS_MARKET: ByteString := "isMarket"
  const CLOID: ByteString := "cloid"
  const ASSET: ByteString := "asset"
  const SUBACCOUNT_TRANSFER: ByteString := "subAccountTransfer"
  const SUBACCOUNT_SPOT_TRANSFER: ByteString := "subAccountSpotTransfer"
  const SUBACCOUNT_USER: ByteString := "subAccountUser"
  const IS_DEPOSIT: ByteString := "isDeposit"
  const TOKEN: ByteString := "token"
  const AMOUNT: ByteString := "amount"
  const VAULT_TRANSFER: ByteString := "vaultTransfer"
  const VAULT_ADDRESS: ByteString := "vaultAddress"
  const USD: ByteString := "usd"
  const UPDATE_LEVERAGE: ByteString := "updateLeverage"
  const IS_CROSS: ByteString := "isCross"
  const LEVERAGE: ByteString := "leverage"
  const UPDATE_ISOLATED_MARGIN: ByteString := "updateIsolatedMargin"
  const IS_BUY: ByteString := "isBuy"
  const NTLI: ByteString := "ntli"
  const TOP_UP: ByteString := "topUpIsolatedOnlyMargin"
  const RESERVE_WEIGHT: ByteString := "reserveRequestWeight"
  const WEIGHT: ByteString := "weight"
  const NOOP: ByteString := "noop"

  datatype BuilderWire = BuilderWire(address: ByteString, fee: uint64)

  datatype OrderType =
    NoType | Limit(tif: ByteString) | Trigger(isMarket: bool, triggerPx: ByteString, tpsl: ByteString)

  datatype OrderWire = OrderWire(asset: int64, isBuy: bool, price: ByteString, size: ByteString, reduceOnly: bool,
                                 orderType: OrderType, cloid: Option<ByteString>)

  datatype CancelWire = CancelWire(asset: int64, oid: uint64)

  datatype CancelByCloidWire = CancelByCloidWire(asset: int64, cloid: ByteString)

  datatype TwapWire = TwapWire(asset: int64, isBuy: bool, size: ByteString, reduceOnly: bool,
                               minutes: uint64, randomize: bool)

  datatype ModifyWire = ModifyWire(oid: uint64, cloid: Option<ByteString>, order: OrderWire)

  // The actions whose pairs are all scalars and always all there.
  datatype FlatAction =
    | SubaccountTransfer(user: ByteString, isDeposit: bool, usd: uint64)
    | SubaccountSpotTransfer(user: ByteString, isDeposit: bool, token: ByteString, amount: ByteString)
    | VaultTransfer(vault: ByteString, isDeposit: bool, usd: uint64)
    | UpdateLeverage(asset: int64, isCross: bool, leverage: uint64)
    | UpdateIsolatedMargin(asset: int64, isBuy: bool, ntli: int64)
    | TopUpIsolatedOnlyMargin(asset: int64, target: ByteString)
    | ReserveRequestWeight(weight: uint64)
    | TwapCancel(asset: int64, twapId: uint64)
    | Noop

  datatype Action =
    | OrderAction(orders: Slice<OrderWire>, grouping: ByteString, builder: Option<BuilderWire>)
    | CancelAction(cancels: Slice<CancelWire>)
    | CancelByCloidAction(byCloid: Slice<CancelByCloidWire>)
    | ScheduleCancelAction(time: Option<uint64>)
    | TwapOrderAction(twap: TwapWire)
    | Flat(flat: FlatAction)
    | BatchModifyAction(modifies_: Slice<ModifyWire>)

  predicate Short<T>(slice: Slice<T>) {
    slice.Some? ==> |slice.value| < TWO_32
  }

  // Every array length fits the format.
  predicate Fitting(action: Action) {
    match action
    case OrderAction(orders, _, _) => Short(orders)
    case CancelAction(cancels) => Short(cancels)
    case CancelByCloidAction(cancels) => Short(cancels)
    case BatchModifyAction(modifies_) => Short(modifies_)
    case _ => true
  }

  // ---------- The value each type stands for on the wire ----------

  function SliceValue<T>(slice: Slice<T>, value: T -> Value): Value {
    match slice
    case None => Nil
    case Some(elements) => Arr(seq(|elements|, i requires 0 <= i < |elements| => value(elements[i])))
  }

  function BuilderValue(builder: BuilderWire): Value {
    Map([Pair("b", Str(builder.address)), Pair("f", Int(builder.fee))])
  }

  function OrderTypeValue(orderType: OrderType): Value {
    match orderType
    case NoType => Nil
    case Limit(tif) => Map([Pair(LIMIT, Map([Pair(TIF, Str(tif))]))])
    case Trigger(_, _, _) => Map([Pair(TRIGGER, Map(TriggerPairs(orderType)))])
  }

  function TriggerPairs(trigger: OrderType): seq<Pair>
    requires trigger.Trigger?
  {
    [Pair(IS_MARKET, Bool(trigger.isMarket)), Pair(TRIGGER_PX, Str(trigger.triggerPx)), Pair(TPSL, Str(trigger.tpsl))]
  }

  function OrderScalars(order: OrderWire): seq<Pair> {
    [Pair("a", Int(order.asset)), Pair("b", Bool(order.isBuy)), Pair("p", Str(order.price)), Pair("s", Str(order.size)),
     Pair("r", Bool(order.reduceOnly))]
  }

  function OrderFields(order: OrderWire): seq<Pair> {
    OrderScalars(order) + [Pair("t", OrderTypeValue(order.orderType))]
  }

  function OrderValue(order: OrderWire): Value {
    Map(OrderFields(order) + if order.cloid.Some? then [Pair("c", Str(order.cloid.value))] else [])
  }

  function CancelValue(cancel: CancelWire): Value {
    Map([Pair("a", Int(cancel.asset)), Pair("o", Int(cancel.oid))])
  }

  function CancelByCloidValue(cancel: CancelByCloidWire): Value {
    Map([Pair(ASSET, Int(cancel.asset)), Pair(CLOID, Str(cancel.cloid))])
  }

  function TwapPairs(twap: TwapWire): seq<Pair> {
    [Pair("a", Int(twap.asset)), Pair("b", Bool(twap.isBuy)), Pair("s", Str(twap.size)),
     Pair("r", Bool(twap.reduceOnly)), Pair("m", Int(twap.minutes)), Pair("t", Bool(twap.randomize))]
  }

  // A client order id, when there is one, takes the place of the numeric one.
  function ModifyValue(modify_: ModifyWire): Value {
    Map([Pair(OID, if modify_.cloid.Some? then Str(modify_.cloid.value) else Int(modify_.oid)),
         Pair(ORDER, OrderValue(modify_.order))])
  }

  function OrderActionPairs(action: Action): seq<Pair>
    requires action.OrderAction?
  {
    [Pair(TYPE, Str(ORDER)), Pair(ORDERS, SliceValue(action.orders, OrderValue)), Pair(GROUPING, Str(action.grouping))]
  }

  function TypedValue(kind: ByteString, key: ByteString, value: Value): Value {
    Map([Pair(TYPE, Str(kind)), Pair(key, value)])
  }

  function OrderActionValue(action: Action): Value
    requires action.OrderAction?
  {
    Map(OrderActionPairs(action)
        + if action.builder.Some? then [Pair(BUILDER, BuilderValue(action.builder.value))] else [])
  }

  function ScheduleCancelValue(time: Option<uint64>): Value {
    Map([Pair(TYPE, Str(SCHEDULE_CANCEL))] + if time.Some? then [Pair(TIME, Int(time.value))] else [])
  }

  function FlatType(flat: FlatAction): ByteString {
    match flat
    case SubaccountTransfer(_, _, _) => SUBACCOUNT_TRANSFER
    case SubaccountSpotTransfer(_, _, _, _) => SUBACCOUNT_SPOT_TRANSFER
    case VaultTransfer(_, _, _) => VAULT_TRANSFER
    case UpdateLeverage(_, _, _) => UPDATE_LEVERAGE
    case UpdateIsolatedMargin(_, _, _) => UPDATE_ISOLATED_MARGIN
    case TopUpIsolatedOnlyMargin(_, _) => TOP_UP
    case ReserveRequestWeight(_) => RESERVE_WEIGHT
    case TwapCancel(_, _) => TWAP_CANCEL
    case Noop => NOOP
  }

  function FlatFields(flat: FlatAction): seq<Pair> {
    match flat
    case SubaccountTransfer(user, isDeposit, usd) =>
      [Pair(SUBACCOUNT_USER, Str(user)), Pair(IS_DEPOSIT, Bool(isDeposit)), Pair(USD, Int(usd))]
    case SubaccountSpotTransfer(user, isDeposit, token, amount) =>
      [Pair(SUBACCOUNT_USER, Str(user)), Pair(IS_DEPOSIT, Bool(isDeposit)), Pair(TOKEN, Str(token)),
          Pair(AMOUNT, Str(amount))]
    case VaultTransfer(vault, isDeposit, usd) =>
      [Pair(VAULT_ADDRESS, Str(vault)), Pair(IS_DEPOSIT, Bool(isDeposit)), Pair(USD, Int(usd))]
    case UpdateLeverage(asset, isCross, leverage) =>
      [Pair(ASSET, Int(asset)), Pair(IS_CROSS, Bool(isCross)), Pair(LEVERAGE, Int(leverage))]
    case UpdateIsolatedMargin(asset, isBuy, ntli) =>
      [Pair(ASSET, Int(asset)), Pair(IS_BUY, Bool(isBuy)), Pair(NTLI, Int(ntli))]
    case TopUpIsolatedOnlyMargin(asset, target) => [Pair(ASSET, Int(asset)), Pair(LEVERAGE, Str(target))]
    case ReserveRequestWeight(weight) => [Pair(WEIGHT, Int(weight))]
    case TwapCancel(asset, twapId) => [Pair("a", Int(asset)), Pair("t", Int(twapId))]
    case Noop => []
  }

  function FlatPairs(flat: FlatAction): seq<Pair> {
    [Pair(TYPE, Str(FlatType(flat)))] + FlatFields(flat)
  }

  function ActionValue(action: Action): Value {
    match action
    case OrderAction(_, _, _) => OrderActionValue(action)
    case CancelAction(cancels) => TypedValue(CANCEL, CANCELS, SliceValue(cancels, CancelValue))
    case CancelByCloidAction(cancels) => TypedValue(CANCEL_BY_CLOID, CANCELS, SliceValue(cancels, CancelByCloidValue))
    case ScheduleCancelAction(time) => ScheduleCancelValue(time)
    case TwapOrderAction(twap) => TypedValue(TWAP_ORDER, TWAP, Map(TwapPairs(twap)))
    case Flat(flat) => Map(FlatPairs(flat))
    case BatchModifyAction(modifies_) => TypedValue(BATCH_MODIFY, MODIFIES, SliceValue(modifies_, ModifyValue))
  }

  // ---------- Every value fits the format ----------

  lemma SliceEncodable<T>(slice: Slice<T>, value: T -> Value)
    requires Short(slice)
    requires slice.Some? ==> forall element | element in slice.value :: Encodable(value(element))
    ensures Encodable(SliceValue(slice, value))
  {
    if slice.Some? {
      var items := SliceValue(slice, value).items;
      forall item | item in items ensures Encodable(item) {
        var i :| 0 <= i < |items| && items[i] == item;
        assert slice.value[i] in slice.value;
      }
    }
  }

  lemma OrderTypeEncodable(orderType: OrderType)
    ensures Encodable(OrderTypeValue(orderType))
  {
    if orderType.Trigger? {
      assert AllPairsEncodable(TriggerPairs(orderType));
    }
    if orderType.Limit? {
      assert Encodable(Map([Pair(TIF, Str(orderType.tif))]));
    }
  }

  lemma OrderEncodable(order: OrderWire)
    ensures Encodable(OrderValue(order))
  {
    OrderTypeEncodable(order.orderType);
    assert AllPairsEncodable(OrderScalars(order));
    assert AllPairsEncodable(OrderFields(order));
  }

  lemma ModifyEncodable(modify_: ModifyWire)
    ensures Encodable(ModifyValue(modify_))
  {
    OrderEncodable(modify_.order);
  }

  lemma TypedEncodable(kind: ByteString, key: ByteString, value: Value)
    requires Encodable(value)
    ensures Encodable(TypedValue(kind, key, value))
  {}

  lemma OrderActionEncodable(action: Action)
    requires action.OrderAction? && Fitting(action)
    ensures Encodable(ActionValue(action)) && AllPairsEncodable(OrderActionPairs(action))
  {
    forall order: OrderWire | true ensures Encodable(OrderValue(order)) {
      OrderEncodable(order);
    }
    SliceEncodable(action.orders, OrderValue);
    if action.builder.Some? {
      assert Encodable(BuilderValue(action.builder.value));
    }
  }

  lemma CancelsEncodable(cancels: Slice<CancelWire>, byCloid: Slice<CancelByCloidWire>)
    ensures Short(cancels) ==> Encodable(SliceValue(cancels, CancelValue))
    ensures Short(byCloid) ==> Encodable(SliceValue(byCloid, CancelByCloidValue))
  {
    forall cancel: CancelWire | true ensures Encodable(CancelValue(cancel)) {}
    forall cancel: CancelByCloidWire | true ensures Encodable(CancelByCloidValue(cancel)) {}
    if Short(cancels) {
      SliceEncodable(cancels, CancelValue);
    }
    if Short(byCloid) {
      SliceEncodable(byCloid, CancelByCloidValue);
    }
  }

  lemma ModifiesEncodable(modifies_: Slice<ModifyWire>)
    requires Short(modifies_)
    ensures Encodable(SliceValue(modifies_, ModifyValue))
  {
    forall modify_: ModifyWire | true ensures Encodable(ModifyValue(modify_)) {
      ModifyEncodable(modify_);
    }
    SliceEncodable(modifies_, ModifyValue);
  }

  lemma TwapEncodable(twap: TwapWire)
    ensures AllPairsEncodable(TwapPairs(twap)) && Encodable(Map(TwapPairs(twap)))
  {}

  lemma ScheduleCancelEncodable(time: Option<uint64>)
    ensures Encodable(ScheduleCancelValue(time))
  {}

  predicate AllScalar(pairs: seq<Pair>) {
    forall pair | pair in pairs :: !pair.value.Arr? && !pair.value.Map?
  }

  lemma FlatIsScalar(flat: FlatAction)
    ensures AllScalar(FlatPairs(flat)) && |FlatPairs(flat)| <= 5
  {
    assert AllScalar(FlatFields(flat)) && |FlatFields(flat)| <= 4;
  }

  lemma ScalarsEncodable(pairs: seq<Pair>)
    requires AllScalar(pairs) && |pairs| < TWO_32
    ensures Encodable(Map(pairs))
  {
    assert AllPairsEncodable(pairs);
  }

  lemma ActionEncodable(action: Action)
    requires Fitting(action)
    ensures Encodable(ActionValue(action))
  {
    match action
    case OrderAction(_, _, _) => OrderActionEncodable(action);
    case CancelAction(cancels) =>
      CancelsEncodable(cancels, None);
      TypedEncodable(CANCEL, CANCELS, SliceValue(cancels, CancelValue));
    case CancelByCloidAction(byCloid) =>
      CancelsEncodable(None, byCloid);
      TypedEncodable(CANCEL_BY_CLOID, CANCELS, SliceValue(byCloid, CancelByCloidValue));
    case ScheduleCancelAction(time) => ScheduleCancelEncodable(time);
    case TwapOrderAction(twap) =>
      TwapEncodable(twap);
      TypedEncodable(TWAP_ORDER, TWAP, Map(TwapPairs(twap)));
    case Flat(flat) =>
      FlatIsScalar(flat);
      ScalarsEncodable(FlatPairs(flat));
    case BatchModifyAction(modifies_) =>
      ModifiesEncodable(modifies_);
      TypedEncodable(BATCH_MODIFY, MODIFIES, SliceValue(modifies_, ModifyValue));
  }

  // ---------- What a reader of the bytes finds, key by key ----------

  predicate Entry(v: Value, i: nat, key: string, value: Value) {
    v.Map? && i < |v.pairs| && v.pairs[i].key == key && v.pairs[i].value == value
  }

  predicate Under(v: Value, i: nat, key: string) {
    v.Map? && i < |v.pairs| && v.pairs[i].key == key
  }

  predicate Sized(v: Value, n: nat) {
    v.Map? && |v.pairs| == n
  }

  // The first entry is the type, and the type is this one.
  predicate Named(v: Value, name: string) {
    Under(v, 0, "type") && v.pairs[0].value.Str? && v.pairs[0].value.text == name
  }

  // A nil slice is nil, any other an array of as many elements.
  predicate SaysSlice<T>(v: Value, slice: Slice<T>, says: (Value, T) -> bool) {
    match slice
    case None => v == Nil
    case Some(elements) =>
      v.Arr? && |v.items| == |elements| && forall i | 0 <= i < |elements| :: says(v.items[i], elements[i])
  }

  predicate SaysBuilder(v: Value, builder: BuilderWire) {
    Sized(v, 2) && Entry(v, 0, "b", Str(builder.address)) && Entry(v, 1, "f", Int(builder.fee))
  }

  predicate SaysOrderType(v: Value, orderType: OrderType) {
    match orderType
    case NoType => v == Nil
    case Limit(tif) =>
      Sized(v, 1) && Under(v, 0, "limit") && var limit := v.pairs[0].value;
      Sized(limit, 1) && Entry(limit, 0, "tif", Str(tif))
    case Trigger(isMarket, triggerPx, tpsl) =>
      Sized(v, 1) && Under(v, 0, "trigger") && var trigger := v.pairs[0].value;
      && Sized(trigger, 3) && Entry(trigger, 0, "isMarket", Bool(isMarket))
      && Entry(trigger, 1, "triggerPx", Str(triggerPx)) && Entry(trigger, 2, "tpsl", Str(tpsl))
  }

  predicate SaysOrder(v: Value, order: OrderWire) {
    && Sized(v, if order.cloid.Some? then 7 else 6)
    && Entry(v, 0, "a", Int(order.asset)) && Entry(v, 1, "b", Bool(order.isBuy))
    && Entry(v, 2, "p", Str(order.price)) && Entry(v, 3, "s", Str(order.size))
    && Entry(v, 4, "r", Bool(order.reduceOnly))
    && Under(v, 5, "t") && SaysOrderType(v.pairs[5].value, order.orderType)
    && (order.cloid.Some? ==> Entry(v, 6, "c", Str(order.cloid.value)))
  }

  predicate SaysCancel(v: Value, cancel: CancelWire) {
    Sized(v, 2) && Entry(v, 0, "a", Int(cancel.asset)) && Entry(v, 1, "o", Int(cancel.oid))
  }

  predicate SaysCancelByCloid(v: Value, cancel: CancelByCloidWire) {
    Sized(v, 2) && Entry(v, 0, "asset", Int(cancel.asset)) && Entry(v, 1, "cloid", Str(cancel.cloid))
  }

  predicate SaysModify(v: Value, modify_: ModifyWire) {
    && Sized(v, 2)
    && Entry(v, 0, "oid", if modify_.cloid.Some? then Str(modify_.cloid.value) else Int(modify_.oid))
    && Under(v, 1, "order") && SaysOrder(v.pairs[1].value, modify_.order)
  }

  predicate SaysTwap(v: Value, twap: TwapWire) {
    && Sized(v, 6) && Entry(v, 0, "a", Int(twap.asset)) && Entry(v, 1, "b", Bool(twap.isBuy))
    && Entry(v, 2, "s", Str(twap.size)) && Entry(v, 3, "r", Bool(twap.reduceOnly))
    && Entry(v, 4, "m", Int(twap.minutes)) && Entry(v, 5, "t", Bool(twap.randomize))
  }

  predicate SaysFlat(v: Value, flat: FlatAction) {
    match flat
    case SubaccountTransfer(user, isDeposit, usd) =>
      && Sized(v, 4) && Named(v, "subAccountTransfer") && Entry(v, 1, "subAccountUser", Str(user))
      && Entry(v, 2, "isDeposit", Bool(isDeposit)) && Entry(v, 3, "usd", Int(usd))
    case SubaccountSpotTransfer(user, isDeposit, token, amount) =>
      && Sized(v, 5) && Named(v, "subAccountSpotTransfer") && Entry(v, 1, "subAccountUser", Str(user))
      && Entry(v, 2, "isDeposit", Bool(isDeposit)) && Entry(v, 3, "token", Str(token))
      && Entry(v, 4, "amount", Str(amount))
    case VaultTransfer(vault, isDeposit, usd) =>
      && Sized(v, 4) && Named(v, "vaultTransfer") && Entry(v, 1, "vaultAddress", Str(vault))
      && Entry(v, 2, "isDeposit", Bool(isDeposit)) && Entry(v, 3, "usd", Int(usd))
    case UpdateLeverage(asset, isCross, leverage) =>
      && Sized(v, 4) && Named(v, "updateLeverage") && Entry(v, 1, "asset", Int(asset))
      && Entry(v, 2, "isCross", Bool(isCross)) && Entry(v, 3, "leverage", Int(leverage))
    case UpdateIsolatedMargin(asset, isBuy, ntli) =>
      && Sized(v, 4) && Named(v, "updateIsolatedMargin") && Entry(v, 1, "asset", Int(asset))
      && Entry(v, 2, "isBuy", Bool(isBuy)) && Entry(v, 3, "ntli", Int(ntli))
    case TopUpIsolatedOnlyMargin(asset, target) =>
      && Sized(v, 3) && Named(v, "topUpIsolatedOnlyMargin") && Entry(v, 1, "asset", Int(asset))
      && Entry(v, 2, "leverage", Str(target))
    case ReserveRequestWeight(weight) =>
      Sized(v, 2) && Named(v, "reserveRequestWeight") && Entry(v, 1, "weight", Int(weight))
    case TwapCancel(asset, twapId) =>
      && Sized(v, 3) && Named(v, "twapCancel") && Entry(v, 1, "a", Int(asset))
      && Entry(v, 2, "t", Int(twapId))
    case Noop => Sized(v, 1) && Named(v, "noop")
  }

  // An entry "type" with the name of the action, and one entry with its content.
  predicate Enclosed(v: Value, name: string, key: string) {
    Sized(v, 2) && Named(v, name) && Under(v, 1, key)
  }

  predicate SaysAction(v: Value, action: Action) {
    match action
    case OrderAction(orders, grouping, builder) =>
      && Sized(v, if builder.Some? then 4 else 3) && Named(v, "order")
      && Under(v, 1, "orders") && SaysSlice(v.pairs[1].value, orders, SaysOrder)
      && Entry(v, 2, "grouping", Str(grouping))
      && (builder.Some? ==> Under(v, 3, "builder") && SaysBuilder(v.pairs[3].value, builder.value))
    case CancelAction(cancels) =>
      Enclosed(v, "cancel", "cancels") && SaysSlice(v.pairs[1].value, cancels, SaysCancel)
    case CancelByCloidAction(cancels) =>
      Enclosed(v, "cancelByCloid", "cancels") && SaysSlice(v.pairs[1].value, cancels, SaysCancelByCloid)
    case ScheduleCancelAction(time) =>
      && Sized(v, if time.Some? then 2 else 1) && Named(v, "scheduleCancel")
      && (time.Some? ==> Entry(v, 1, "time", Int(time.value)))
    case TwapOrderAction(twap) => Enclosed(v, "twapOrder", "twap") && SaysTwap(v.pairs[1].value, twap)
    case Flat(flat) => SaysFlat(v, flat)
    case BatchModifyAction(modifies_) =>
      Enclosed(v, "batchModify", "modifies") && SaysSlice(v.pairs[1].value, modifies_, SaysModify)
  }

  // The bytes are one value and nothing after it.
  predicate IsOneValue(bytes: seq<byte>) {
    Decode(bytes).Some? && Decode(bytes).value.1 == []
  }

  function ValueOf(bytes: seq<byte>): Value
    requires IsOneValue(bytes)
  {
    Decode(bytes).value.0
  }

  lemma EncodedIsOneValue(v: Value)
    requires Encodable(v)
    ensures IsOneValue(Encode(v)) && ValueOf(Encode(v)) == v
  {
    RoundTrip(v, []);
    assert Encode(v) + [] == Encode(v);
  }

  lemma SliceSays<T>(slice: Slice<T>, value: T -> Value, says: (Value, T) -> bool)
    requires forall element: T | slice.Some? && element in slice.value :: says(value(element), element)
    ensures SaysSlice(SliceValue(slice, value), slice, says)
  {}

  lemma OrderTypeSays(orderType: OrderType)
    ensures SaysOrderType(OrderTypeValue(orderType), orderType)
  {}

  lemma OrderSays(order: OrderWire)
    ensures SaysOrder(OrderValue(order), order)
  {
    OrderTypeSays(order.orderType);
    var pairs := OrderValue(order).pairs;
    assert forall i | 0 <= i < 6 :: pairs[i] == OrderFields(order)[i];
  }

  lemma ModifySays(modify_: ModifyWire)
    ensures SaysModify(ModifyValue(modify_), modify_)
  {
    OrderSays(modify_.order);
  }

  lemma TwapSays(twap: TwapWire)
    ensures SaysTwap(Map(TwapPairs(twap)), twap)
  {}

  lemma FlatSays(flat: FlatAction)
    ensures SaysFlat(Map(FlatPairs(flat)), flat)
  {
    var pairs, fields := FlatPairs(flat), FlatFields(flat);
    assert forall i | 0 <= i < |fields| :: pairs[i + 1] == fields[i];
  }

  lemma OrderActionSays(action: Action)
    requires action.OrderAction?
    ensures SaysAction(ActionValue(action), action)
  {
    forall order: OrderWire | true ensures SaysOrder(OrderValue(order), order) {
      OrderSays(order);
    }
    SliceSays(action.orders, OrderValue, SaysOrder);
    var pairs := ActionValue(action).pairs;
    assert forall i | 0 <= i < 3 :: pairs[i] == OrderActionPairs(action)[i];
  }

  // Every action says on the wire what it is, field by field under the name the protocol gives the field.
  lemma ActionSays(action: Action)
    ensures SaysAction(ActionValue(action), action)
  {
    match action
    case OrderAction(_, _, _) => OrderActionSays(action);
    case CancelAction(cancels) => SliceSays(cancels, CancelValue, SaysCancel);
    case CancelByCloidAction(cancels) => SliceSays(cancels, CancelByCloidValue, SaysCancelByCloid);
    case ScheduleCancelAction(_) =>
    case TwapOrderAction(twap) => TwapSays(twap);
    case Flat(flat) => FlatSays(flat);
    case BatchModifyAction(modifies_) =>
      forall modify_: ModifyWire | true ensures SaysModify(ModifyValue(modify_), modify_) {
        ModifySays(modify_);
      }
      SliceSays(modifies_, ModifyValue, SaysModify);
  }

  // ---------- What the value on the wire determines ----------

  // The numeric order id is not sent when a client order id is.
  predicate SameModify(a: ModifyWire, b: ModifyWire) {
    a.cloid == b.cloid && a.order == b.order && (a.cloid.None? ==> a.oid == b.oid)
  }

  predicate SameOnWire(a: Action, b: Action) {
    if a.BatchModifyAction? && b.BatchModifyAction? && a.modifies_.Some? && b.modifies_.Some? then
      && |a.modifies_.value| == |b.modifies_.value|
      && forall i | 0 <= i < |a.modifies_.value| :: SameModify(a.modifies_.value[i], b.modifies_.value[i])
    else
      a == b
  }

  lemma SliceDetermined<T>(a: Slice<T>, b: Slice<T>, value: T -> Value)
    requires SliceValue(a, value) == SliceValue(b, value)
    ensures a.Some? == b.Some?
    ensures a.Some? ==>
            |a.value| == |b.value| && forall i | 0 <= i < |a.value| :: value(a.value[i]) == value(b.value[i])
  {
    if a.Some? {
      var left, right := SliceValue(a, value).items, SliceValue(b, value).items;
      forall i | 0 <= i < |a.value| ensures value(a.value[i]) == value(b.value[i]) {
        assert left[i] == right[i];
      }
    }
  }

  lemma OrderTypeDetermined(a: OrderType, b: OrderType)
    requires OrderTypeValue(a) == OrderTypeValue(b)
    ensures a == b
  {
    if a != NoType {
      var left, right := OrderTypeValue(a).pairs[0], OrderTypeValue(b).pairs[0];
      assert left == right;
      var inner, other := left.value.pairs, right.value.pairs;
      assert inner[0] == other[0];
      if a.Trigger? {
        assert inner[1] == other[1] && inner[2] == other[2];
      }
    }
  }

  lemma OrderDetermined(a: OrderWire, b: OrderWire)
    requires OrderValue(a) == OrderValue(b)
    ensures a == b
  {
    var left, right := OrderValue(a).pairs, OrderValue(b).pairs;
    assert forall i | 0 <= i < 6 :: left[i] == OrderFields(a)[i] && right[i] == OrderFields(b)[i];
    assert left[0] == right[0] && left[1] == right[1] && left[2] == right[2];
    assert left[3] == right[3] && left[4] == right[4] && left[5] == right[5];
    OrderTypeDetermined(a.orderType, b.orderType);
    if |left| > 6 {
      assert left[6] == right[6];
    }
  }

  lemma ModifyDetermined(a: ModifyWire, b: ModifyWire)
    requires ModifyValue(a) == ModifyValue(b)
    ensures SameModify(a, b)
  {
    var left, right := ModifyValue(a).pairs, ModifyValue(b).pairs;
    assert left[0] == right[0] && left[1] == right[1];
    OrderDetermined(a.order, b.order);
  }

  lemma ModifyIgnores(a: ModifyWire, b: ModifyWire)
    requires SameModify(a, b)
    ensures ModifyValue(a) == ModifyValue(b)
  {}

  lemma CancelDetermined(a: CancelWire, b: CancelWire)
    requires CancelValue(a) == CancelValue(b)
    ensures a == b
  {
    assert CancelValue(a).pairs[0] == CancelValue(b).pairs[0] && CancelValue(a).pairs[1] == CancelValue(b).pairs[1];
  }

  lemma CancelByCloidDetermined(a: CancelByCloidWire, b: CancelByCloidWire)
    requires CancelByCloidValue(a) == CancelByCloidValue(b)
    ensures a == b
  {
    var left, right := CancelByCloidValue(a).pairs, CancelByCloidValue(b).pairs;
    assert left[0] == right[0] && left[1] == right[1];
  }

  lemma TwapDetermined(a: TwapWire, b: TwapWire)
    requires TwapPairs(a) == TwapPairs(b)
    ensures a == b
  {
    var left, right := TwapPairs(a), TwapPairs(b);
    assert left[0] == right[0] && left[1] == right[1] && left[2] == right[2];
    assert left[3] == right[3] && left[4] == right[4] && left[5] == right[5];
  }

  lemma OrderActionDetermined(a: Action, b: Action)
    requires a.OrderAction? && b.OrderAction? && OrderActionValue(a) == OrderActionValue(b)
    ensures a == b
  {
    var left, right := OrderActionValue(a).pairs, OrderActionValue(b).pairs;
    assert left[1] == OrderActionPairs(a)[1] && right[1] == OrderActionPairs(b)[1];
    assert left[2] == OrderActionPairs(a)[2] && right[2] == OrderActionPairs(b)[2];
    assert left[1] == right[1] && left[2] == right[2];
    SliceDetermined(a.orders, b.orders, OrderValue);
    if a.orders.Some? {
      forall i | 0 <= i < |a.orders.value| ensures a.orders.value[i] == b.orders.value[i] {
        OrderDetermined(a.orders.value[i], b.orders.value[i]);
      }
      assert a.orders.value == b.orders.value;
    }
    if |left| > 3 {
      assert left[3] == right[3];
      assert BuilderValue(a.builder.value).pairs[0] == BuilderValue(b.builder.value).pairs[0];
      assert BuilderValue(a.builder.value).pairs[1] == BuilderValue(b.builder.value).pairs[1];
    }
  }

  lemma CancelsDetermined(a: Slice<CancelWire>, b: Slice<CancelWire>)
    requires SliceValue(a, CancelValue) == SliceValue(b, CancelValue)
    ensures a == b
  {
    SliceDetermined(a, b, CancelValue);
    if a.Some? {
      forall i | 0 <= i < |a.value| ensures a.value[i] == b.value[i] {
        CancelDetermined(a.value[i], b.value[i]);
      }
      assert a.value == b.value;
    }
  }

  lemma CancelsByCloidDetermined(a: Slice<CancelByCloidWire>, b: Slice<CancelByCloidWire>)
    requires SliceValue(a, CancelByCloidValue) == SliceValue(b, CancelByCloidValue)
    ensures a == b
  {
    SliceDetermined(a, b, CancelByCloidValue);
    if a.Some? {
      forall i | 0 <= i < |a.value| ensures a.value[i] == b.value[i] {
        CancelByCloidDetermined(a.value[i], b.value[i]);
      }
      assert a.value == b.value;
    }
  }

  lemma BatchModifyDetermined(a: Action, b: Action)
    requires a.BatchModifyAction? && b.BatchModifyAction?
    ensures SliceValue(a.modifies_, ModifyValue) == SliceValue(b.modifies_, ModifyValue) <==> SameOnWire(a, b)
  {
    if SliceValue(a.modifies_, ModifyValue) == SliceValue(b.modifies_, ModifyValue) {
      SliceDetermined(a.modifies_, b.modifies_, ModifyValue);
      if a.modifies_.Some? {
        forall i | 0 <= i < |a.modifies_.value| ensures SameModify(a.modifies_.value[i], b.modifies_.value[i]) {
          ModifyDetermined(a.modifies_.value[i], b.modifies_.value[i]);
        }
      }
    }
    if SameOnWire(a, b) && a.modifies_.Some? {
      forall i | 0 <= i < |a.modifies_.value|
        ensures ModifyValue(a.modifies_.value[i]) == ModifyValue(b.modifies_.value[i]) {
        ModifyIgnores(a.modifies_.value[i], b.modifies_.value[i]);
      }
    }
  }

  lemma FlatDetermined(a: FlatAction, b: FlatAction)
    requires FlatPairs(a) == FlatPairs(b) && FlatType(a) == FlatType(b)
    ensures a == b
  {
    FieldsMatch(a, b);
    FieldsDetermine(a, b);
  }

  lemma FieldsMatch(a: FlatAction, b: FlatAction)
    requires FlatPairs(a) == FlatPairs(b)
    ensures FlatFields(a) == FlatFields(b)
  {
    assert FlatFields(a) == FlatPairs(a)[1..] && FlatFields(b) == FlatPairs(b)[1..];
  }

  lemma FieldsDetermine(a: FlatAction, b: FlatAction)
    requires FlatFields(a) == FlatFields(b) && FlatType(a) == FlatType(b)
    ensures a == b
  {
    SameFlatType(a, b);
    var left, right := FlatFields(a), FlatFields(b);
    assert left == right;
    if |left| > 0 {
      assert left[0] == right[0];
    }
    if |left| > 1 {
      assert left[1] == right[1];
    }
    if |left| > 2 {
      assert left[2] == right[2];
    }
    if |left| > 3 {
      assert left[3] == right[3];
    }
  }

  // The names of the kinds differ in length or in the letters looked at here.
  lemma SameFlatType(a: FlatAction, b: FlatAction)
    requires FlatType(a) == FlatType(b)
    ensures match a
            case SubaccountTransfer(_, _, _) => b.SubaccountTransfer?
            case SubaccountSpotTransfer(_, _, _, _) => b.SubaccountSpotTransfer?
            case VaultTransfer(_, _, _) => b.VaultTransfer?
            case UpdateLeverage(_, _, _) => b.UpdateLeverage?
            case UpdateIsolatedMargin(_, _, _) => b.UpdateIsolatedMargin?
            case TopUpIsolatedOnlyMargin(_, _) => b.TopUpIsolatedOnlyMargin?
            case ReserveRequestWeight(_) => b.ReserveRequestWeight?
            case TwapCancel(_, _) => b.TwapCancel?
            case Noop => b.Noop?
  {
  }

  // The entry every action starts with tells the kinds apart.
  function ActionType(action: Action): ByteString {
    match action
    case OrderAction(_, _, _) => ORDER
    case CancelAction(_) => CANCEL
    case CancelByCloidAction(_) => CANCEL_BY_CLOID
    case ScheduleCancelAction(_) => SCHEDULE_CANCEL
    case TwapOrderAction(_) => TWAP_ORDER
    case Flat(flat) => FlatType(flat)
    case BatchModifyAction(_) => BATCH_MODIFY
  }

  lemma KindComesFirst(action: Action)
    ensures ActionValue(action).Map? && ActionValue(action).pairs != []
    ensures ActionValue(action).pairs[0] == Pair(TYPE, Str(ActionType(action)))
  {}

  lemma KindsDiffer(a: Action, b: Action)
    requires ActionValue(a) == ActionValue(b)
    ensures ActionType(a) == ActionType(b)
  {
    KindComesFirst(a);
    KindComesFirst(b);
  }

  // Two actions have the same wire value exactly when they differ at most in order ids that are not sent.
  lemma WireValueDetermines(a: Action, b: Action)
    ensures ActionValue(a) == ActionValue(b) <==> SameOnWire(a, b)
  {
    if ActionValue(a) == ActionValue(b) {
      KindsDiffer(a, b);
      SameTypeDetermines(a, b);
    }
    if SameOnWire(a, b) && a.BatchModifyAction? {
      BatchModifyDetermined(a, b);
    }
  }

  lemma TypeTellsTheKind(a: Action, b: Action)
    requires ActionType(a) == ActionType(b)
    ensures match a
            case OrderAction(_, _, _) => b.OrderAction?
            case CancelAction(_) => b.CancelAction?
            case CancelByCloidAction(_) => b.CancelByCloidAction?
            case ScheduleCancelAction(_) => b.ScheduleCancelAction?
            case TwapOrderAction(_) => b.TwapOrderAction?
            case Flat(_) => b.Flat?
            case BatchModifyAction(_) => b.BatchModifyAction?
  {}

  lemma SameTypeDetermines(a: Action, b: Action)
    requires ActionValue(a) == ActionValue(b) && ActionType(a) == ActionType(b)
    ensures SameOnWire(a, b)
  {
    var left, right := ActionValue(a).pairs, ActionValue(b).pairs;
    assert left == right;
    TypeTellsTheKind(a, b);
    match a
    case OrderAction(_, _, _) => OrderActionDetermined(a, b);
    case CancelAction(cancels) =>
      assert left[1] == right[1];
      CancelsDetermined(cancels, b.cancels);
    case CancelByCloidAction(byCloid) =>
      assert left[1] == right[1];
      CancelsByCloidDetermined(byCloid, b.byCloid);
    case ScheduleCancelAction(time) =>
      if |left| > 1 {
        assert left[1] == right[1];
      }
    case TwapOrderAction(twap) =>
      assert left[1] == right[1];
      TwapDetermined(twap, b.twap);
    case Flat(flat) => FlatDetermined(flat, b.flat);
    case BatchModifyAction(_) =>
      assert left[1] == right[1];
      BatchModifyDetermined(a, b);
  }

  // ---------- The preimage ----------

  datatype Inputs = Inputs(value: Value, nonce: uint64, vault: Option<Address>, expiresAfter: Option<uint64>)

  function Preimage(inputs: Inputs): seq<byte>
    requires Encodable(inputs.value)
  {
    Encode(inputs.value) + Tail(inputs.nonce, inputs.vault, inputs.expiresAfter)
  }

  function VaultBytes(vault: Option<Address>): seq<byte> {
    if vault.Some? then [1] + vault.value else [0]
  }

  function ExpiryBytes(expiresAfter: Option<uint64>): seq<byte> {
    if expiresAfter.Some? then [0] + BigEndian(expiresAfter.value, 8) else []
  }

  function Tail(nonce: uint64, vault: Option<Address>, expiresAfter: Option<uint64>): seq<byte> {
    BigEndian(nonce, 8) + (VaultBytes(vault) + ExpiryBytes(expiresAfter))
  }

  function FromEight(bytes: seq<byte>): (n: uint64)
    requires |bytes| == 8
  {
    BigEndianBound(bytes);
    Widths();
    FromBigEndian(bytes)
  }

  function ParseExpiry(bytes: seq<byte>): Option<Option<uint64>> {
    if bytes == [] then Some(None)
    else if |bytes| == 9 && bytes[0] == 0 then Some(Some(FromEight(bytes[1..])))
    else None
  }

  function ParseVault(bytes: seq<byte>): Option<(Option<Address>, seq<byte>)> {
    if bytes == [] then None
    else if bytes[0] == 0 then Some((None, bytes[1..]))
    else if bytes[0] == 1 && |bytes| >= 21 then Some((Some(bytes[1..21]), bytes[21..]))
    else None
  }

  // Reads back what a preimage was made of.
  function Parse(bytes: seq<byte>): Option<Inputs> {
    match Decode(bytes)
    case None => None
    case Some((value, tail)) =>
      if |tail| < 8 then None
      else match ParseVault(tail[8..])
        case None => None
        case Some((vault, rest)) =>
          match ParseExpiry(rest)
          case None => None
          case Some(expiresAfter) => Some(Inputs(value, FromEight(tail[..8]), vault, expiresAfter))
  }

  lemma EightBytesRoundTrip(n: uint64)
    ensures FromEight(BigEndian(n, 8)) == n
  {
    Widths();
    BigEndianRoundTrip(n, 8);
  }

  lemma ParseTail(nonce: uint64, vault: Option<Address>, expiresAfter: Option<uint64>)
    ensures var tail := Tail(nonce, vault, expiresAfter);
            |tail| >= 8 && FromEight(tail[..8]) == nonce
            && ParseVault(tail[8..]).Some? && ParseVault(tail[8..]).value.0 == vault
            && ParseExpiry(ParseVault(tail[8..]).value.1) == Some(expiresAfter)
  {
    var tail := Tail(nonce, vault, expiresAfter);
    var expiry := ExpiryBytes(expiresAfter);
    EightBytesRoundTrip(nonce);
    assert tail[..8] == BigEndian(nonce, 8) && tail[8..] == VaultBytes(vault) + expiry;
    if vault.Some? {
      assert tail[8..][1..21] == vault.value && tail[8..][21..] == expiry;
    } else {
      assert tail[8..][1..] == expiry;
    }
    if expiresAfter.Some? {
      EightBytesRoundTrip(expiresAfter.value);
      assert expiry[1..] == BigEndian(expiresAfter.value, 8);
    }
  }

  lemma ParsePreimage(inputs: Inputs)
    requires Encodable(inputs.value)
    ensures Parse(Preimage(inputs)) == Some(inputs)
  {
    RoundTrip(inputs.value, Tail(inputs.nonce, inputs.vault, inputs.expiresAfter));
    ParseTail(inputs.nonce, inputs.vault, inputs.expiresAfter);
  }

  // Where everything stands behind the action: eight bytes of nonce, the vault's mark and bytes, and the expiry's mark
  // and eight bytes if there is one.
  predicate SaysTail(tail: seq<byte>, nonce: uint64, vault: Option<Address>, expiresAfter: Option<uint64>) {
    var size := if vault.Some? then 29 else 9;
    && |tail| == size + (if expiresAfter.Some? then 9 else 0)
    && FromBigEndian(tail[..8]) == nonce
    && (if vault.Some? then tail[8] == 1 && tail[9..29] == vault.value else tail[8] == 0)
    && (expiresAfter.Some? ==> tail[size] == 0 && FromBigEndian(tail[size + 1..]) == expiresAfter.value)
  }

  lemma TailSays(nonce: uint64, vault: Option<Address>, expiresAfter: Option<uint64>)
    ensures SaysTail(Tail(nonce, vault, expiresAfter), nonce, vault, expiresAfter)
  {
    var tail := Tail(nonce, vault, expiresAfter);
    var size := if vault.Some? then 29 else 9;
    Widths();
    BigEndianRoundTrip(nonce, 8);
    assert tail[..8] == BigEndian(nonce, 8);
    assert tail[8..size] == VaultBytes(vault) && tail[size..] == ExpiryBytes(expiresAfter);
    assert tail[8] == VaultBytes(vault)[0];
    if vault.Some? {
      assert tail[9..29] == VaultBytes(vault)[1..];
    }
    if expiresAfter.Some? {
      BigEndianRoundTrip(expiresAfter.value, 8);
      assert tail[size] == tail[size..][0] && tail[size + 1..] == tail[size..][1..] == BigEndian(expiresAfter.value, 8);
    }
  }

  // Equal preimages come from equal inputs, up to order ids that are not sent.
  lemma PreimageDeterminesInputs(
    a: Action, nonceA: uint64, vaultA: Option<Address>, expiresA: Option<uint64>,
    b: Action, nonceB: uint64, vaultB: Option<Address>, expiresB: Option<uint64>)
    requires Fitting(a) && Fitting(b)
    ensures Encodable(ActionValue(a)) && Encodable(ActionValue(b))
    ensures Preimage(Inputs(ActionValue(a), nonceA, vaultA, expiresA))
              == Preimage(Inputs(ActionValue(b), nonceB, vaultB, expiresB))
            <==> SameOnWire(a, b) && nonceA == nonceB && vaultA == vaultB && expiresA == expiresB
  {
    ActionEncodable(a);
    ActionEncodable(b);
    ParsePreimage(Inputs(ActionValue(a), nonceA, vaultA, expiresA));
    ParsePreimage(Inputs(ActionValue(b), nonceB, vaultB, expiresB));
    WireValueDetermines(a, b);
  }

  // ---------- The marshallers ----------

  lemma OrderTypeOnWire(orderType: OrderType)
    ensures var v := OrderTypeValue(orderType);
            Encodable(v) && IsOneValue(Encode(v)) && SaysOrderType(ValueOf(Encode(v)), orderType)
  {
    OrderTypeEncodable(orderType);
    OrderTypeSays(orderType);
    EncodedIsOneValue(OrderTypeValue(orderType));
  }

  lemma OrderOnWire(order: OrderWire)
    ensures var v := OrderValue(order);
            Encodable(v) && IsOneValue(Encode(v)) && SaysOrder(ValueOf(Encode(v)), order)
  {
    OrderEncodable(order);
    OrderSays(order);
    EncodedIsOneValue(OrderValue(order));
  }

  lemma ModifyOnWire(modify_: ModifyWire)
    ensures var v := ModifyValue(modify_);
            Encodable(v) && IsOneValue(Encode(v)) && SaysModify(ValueOf(Encode(v)), modify_)
  {
    ModifyEncodable(modify_);
    ModifySays(modify_);
    EncodedIsOneValue(ModifyValue(modify_));
  }

  lemma TwapOnWire(twap: TwapWire)
    ensures var v := Map(TwapPairs(twap));
            Encodable(v) && IsOneValue(Encode(v)) && SaysTwap(ValueOf(Encode(v)), twap)
  {
    TwapEncodable(twap);
    TwapSays(twap);
    EncodedIsOneValue(Map(TwapPairs(twap)));
  }

  lemma BuilderOnWire(builder: BuilderWire)
    ensures var v := BuilderValue(builder);
            Encodable(v) && IsOneValue(Encode(v)) && SaysBuilder(ValueOf(Encode(v)), builder)
  {
    EncodedIsOneValue(BuilderValue(builder));
  }

  lemma CancelOnWire(cancel: CancelWire)
    ensures var v := CancelValue(cancel);
            Encodable(v) && IsOneValue(Encode(v)) && SaysCancel(ValueOf(Encode(v)), cancel)
  {
    EncodedIsOneValue(CancelValue(cancel));
  }

  lemma CancelByCloidOnWire(cancel: CancelByCloidWire)
    ensures var v := CancelByCloidValue(cancel);
            Encodable(v) && IsOneValue(Encode(v)) && SaysCancelByCloid(ValueOf(Encode(v)), cancel)
  {
    EncodedIsOneValue(CancelByCloidValue(cancel));
  }

  lemma ActionOnWire(action: Action)
    requires Fitting(action)
    ensures var v := ActionValue(action);
            Encodable(v) && IsOneValue(Encode(v)) && SaysAction(ValueOf(Encode(v)), action)
  {
    ActionEncodable(action);
    ActionSays(action);
    EncodedIsOneValue(ActionValue(action));
  }

  // A header of `size` and the pairs `done` is what has been written so far.
  ghost predicate Written(buf: seq<byte>, size: nat, done: seq<Pair>) {
    size < TWO_32 && AllPairsEncodable(done) && buf == EncodeHead(MapHead(size)) + EncodePairs(done)
  }

  lemma WriteOne(before: seq<byte>, size: nat, done: seq<Pair>, pair: Pair)
    requires Written(before, size, done) && Encodable(pair.value)
    ensures Written(before + EncodeText(pair.key) + Encode(pair.value), size, done + [pair])
  {
    LastPair(done, pair);
    Regrouped(EncodeHead(MapHead(size)), EncodePairs(done), EncodeText(pair.key), Encode(pair.value));
  }

  // The header announced exactly the pairs that followed.
  lemma WrittenAll(buf: seq<byte>, done: seq<Pair>)
    requires Written(buf, |done|, done)
    ensures Encodable(Map(done)) && buf == Encode(Map(done))
  {}

  method StartMap(size: nat) returns (e: Encoder)
    requires size < TWO_32
    ensures fresh(e) && Written(e.buf, size, [])
  {
    e := new Encoder();
    e.EncodeMapLen(size);
    assert EncodeHead(MapHead(size)) + EncodePairs([]) == EncodeHead(MapHead(size));
  }

  // A key and a scalar.
  method WriteScalar(e: Encoder, ghost size: nat, ghost done: seq<Pair>, key: ByteString, value: Value)
    requires Written(e.buf, size, done) && !value.Arr? && !value.Map?
    modifies e
    ensures Written(e.buf, size, done + [Pair(key, value)])
  {
    ghost var before := e.buf;
    e.EncodeString(key);
    e.EncodeScalar(value);
    WriteOne(before, size, done, Pair(key, value));
  }

  // A key and a value that has its own marshaller.
  method WriteEncoded(e: Encoder, ghost size: nat, ghost done: seq<Pair>, key: ByteString,
                      ghost value: Value, bytes: seq<byte>)
    requires Written(e.buf, size, done) && Encodable(value) && bytes == Encode(value)
    modifies e
    ensures Written(e.buf, size, done + [Pair(key, value)])
  {
    ghost var before := e.buf;
    e.EncodeString(key);
    e.Write(bytes);
    WriteOne(before, size, done, Pair(key, value));
  }

  // The loops over a table of keys and scalars.
  method WriteScalars(e: Encoder, ghost size: nat, pairs: seq<Pair>)
    requires Written(e.buf, size, []) && AllScalar(pairs)
    modifies e
    ensures Written(e.buf, size, pairs)
  {
    var i := 0;
    while i < |pairs|
      invariant i <= |pairs| && Written(e.buf, size, pairs[..i])
    {
      WriteScalar(e, size, pairs[..i], pairs[i].key, pairs[i].value);
      assert pairs[..i] + [Pair(pairs[i].key, pairs[i].value)] == pairs[..i + 1];
      i := i + 1;
    }
    assert pairs[..|pairs|] == pairs;
  }

  method MarshalScalars(size: nat, pairs: seq<Pair>) returns (bytes: seq<byte>)
    requires size == |pairs| < TWO_32 && AllScalar(pairs)
    ensures Encodable(Map(pairs)) && bytes == Encode(Map(pairs))
  {
    var e := StartMap(size);
    WriteScalars(e, size, pairs);
    WrittenAll(e.buf, pairs);
    bytes := e.buf;
  }

  ghost predicate Spelled(pairs: seq<Pair>, keys: seq<ByteString>, encoded: seq<seq<byte>>) {
    && |pairs| == |keys| == |encoded|
    && forall i | 0 <= i < |pairs| ::
         pairs[i].key == keys[i] && Encodable(pairs[i].value) && encoded[i] == Encode(pairs[i].value)
  }

  // A header, then one key and one encoded value after the other.
  method MarshalPairs(size: nat, ghost pairs: seq<Pair>, keys: seq<ByteString>, encoded: seq<seq<byte>>)
    returns (bytes: seq<byte>)
    requires size == |pairs| < TWO_32 && Spelled(pairs, keys, encoded)
    ensures Encodable(Map(pairs)) && bytes == Encode(Map(pairs))
  {
    var e := StartMap(size);
    var i := 0;
    while i < size
      invariant i <= size && Written(e.buf, size, pairs[..i])
    {
      SpelledAt(pairs, keys, encoded, i);
      WriteEncoded(e, size, pairs[..i], keys[i], pairs[i].value, encoded[i]);
      i := i + 1;
    }
    assert pairs[..|pairs|] == pairs;
    WrittenAll(e.buf, pairs);
    bytes := e.buf;
  }

  lemma SpelledAt(pairs: seq<Pair>, keys: seq<ByteString>, encoded: seq<seq<byte>>, i: nat)
    requires Spelled(pairs, keys, encoded) && i < |pairs|
    ensures Encodable(pairs[i].value) && encoded[i] == Encode(pairs[i].value)
    ensures pairs[..i] + [Pair(keys[i], pairs[i].value)] == pairs[..i + 1]
  {}

  method MarshalBuilder(builder: BuilderWire) returns (bytes: seq<byte>)
    ensures Encodable(BuilderValue(builder)) && bytes == Encode(BuilderValue(builder))
    ensures IsOneValue(bytes) && SaysBuilder(ValueOf(bytes), builder)
  {
    BuilderOnWire(builder);
    bytes := MarshalScalars(2, [Pair("b", Str(builder.address)), Pair("f", Int(builder.fee))]);
  }

  method MarshalCancel(cancel: CancelWire) returns (bytes: seq<byte>)
    ensures Encodable(CancelValue(cancel)) && bytes == Encode(CancelValue(cancel))
    ensures IsOneValue(bytes) && SaysCancel(ValueOf(bytes), cancel)
  {
    CancelOnWire(cancel);
    bytes := MarshalScalars(2, [Pair("a", Int(cancel.asset)), Pair("o", Int(cancel.oid))]);
  }

  method MarshalCancelByCloid(cancel: CancelByCloidWire) returns (bytes: seq<byte>)
    ensures Encodable(CancelByCloidValue(cancel)) && bytes == Encode(CancelByCloidValue(cancel))
    ensures IsOneValue(bytes) && SaysCancelByCloid(ValueOf(bytes), cancel)
  {
    CancelByCloidOnWire(cancel);
    bytes := MarshalScalars(2, [Pair(ASSET, Int(cancel.asset)), Pair(CLOID, Str(cancel.cloid))]);
  }

  // The one-entry map around an order type.
  method MarshalNested(key: ByteString, pairs: seq<Pair>) returns (bytes: seq<byte>)
    requires |pairs| < TWO_32 && AllScalar(pairs)
    ensures Encodable(Map([Pair(key, Map(pairs))])) && bytes == Encode(Map([Pair(key, Map(pairs))]))
  {
    var inner := MarshalScalars(|pairs|, pairs);
    var e := StartMap(1);
    WriteEncoded(e, 1, [], key, Map(pairs), inner);
    assert [] + [Pair(key, Map(pairs))] == [Pair(key, Map(pairs))];
    WrittenAll(e.buf, [Pair(key, Map(pairs))]);
    bytes := e.buf;
  }

  method MarshalOrderType(orderType: OrderType) returns (bytes: seq<byte>)
    ensures Encodable(OrderTypeValue(orderType)) && bytes == Encode(OrderTypeValue(orderType))
    ensures IsOneValue(bytes) && SaysOrderType(ValueOf(bytes), orderType)
  {
    bytes := MarshalOrderTypeMap(orderType);
    OrderTypeOnWire(orderType);
  }

  method MarshalOrderTypeMap(orderType: OrderType) returns (bytes: seq<byte>)
    ensures Encodable(OrderTypeValue(orderType)) && bytes == Encode(OrderTypeValue(orderType))
  {
    match orderType
    case NoType =>
      var e := new Encoder();
      e.EncodeNil();
      bytes := e.buf;
    case Limit(tif) =>
      bytes := MarshalNested(LIMIT, [Pair(TIF, Str(tif))]);
    case Trigger(isMarket, triggerPx, tpsl) =>
      bytes := MarshalNested(TRIGGER,
        [Pair(IS_MARKET, Bool(isMarket)), Pair(TRIGGER_PX, Str(triggerPx)), Pair(TPSL, Str(tpsl))]);
  }

  ghost function Optional(key: ByteString, value: Option<ByteString>): (pairs: seq<Pair>)
    ensures |pairs| == if value.Some? then 1 else 0
  {
    if value.Some? then [Pair(key, Str(value.value))] else []
  }

  method WriteOptional(e: Encoder, ghost size: nat, ghost done: seq<Pair>, key: ByteString, value: Option<ByteString>)
    requires Written(e.buf, size, done)
    modifies e
    ensures Written(e.buf, size, done + Optional(key, value))
  {
    if value.Some? {
      WriteScalar(e, size, done, key, Str(value.value));
    } else {
      assert done + [] == done;
    }
  }

  // A table of scalars, a value with its own marshaller, and perhaps a last string.
  method MarshalTable(size: nat, scalars: seq<Pair>, key: ByteString, ghost value: Value, encoded: seq<byte>,
                      lastKey: ByteString, last: Option<ByteString>) returns (bytes: seq<byte>)
    requires AllScalar(scalars) && Encodable(value) && encoded == Encode(value)
    requires size == |scalars| + (if last.Some? then 2 else 1) && size < TWO_32
    ensures var pairs := scalars + [Pair(key, value)] + Optional(lastKey, last);
            Encodable(Map(pairs)) && bytes == Encode(Map(pairs))
  {
    var e := StartMap(size);
    WriteScalars(e, size, scalars);
    WriteEncoded(e, size, scalars, key, value, encoded);
    ghost var head := scalars + [Pair(key, value)];
    WriteOptional(e, size, head, lastKey, last);
    WrittenAll(e.buf, head + Optional(lastKey, last));
    bytes := e.buf;
  }

  method MarshalOrder(order: OrderWire) returns (bytes: seq<byte>)
    ensures Encodable(OrderValue(order)) && bytes == Encode(OrderValue(order))
    ensures IsOneValue(bytes) && SaysOrder(ValueOf(bytes), order)
  {
    bytes := MarshalOrderMap(order);
    OrderOnWire(order);
  }

  method MarshalOrderMap(order: OrderWire) returns (bytes: seq<byte>)
    ensures Encodable(OrderValue(order)) && bytes == Encode(OrderValue(order))
  {
    var size := 6;
    if order.cloid.Some? {
      size := size + 1;
    }
    var orderType := MarshalOrderType(order.orderType);
    bytes := MarshalTable(size, OrderScalars(order), "t", OrderTypeValue(order.orderType), orderType, "c", order.cloid);
  }

  method MarshalModify(modify_: ModifyWire) returns (bytes: seq<byte>)
    ensures Encodable(ModifyValue(modify_)) && bytes == Encode(ModifyValue(modify_))
    ensures IsOneValue(bytes) && SaysModify(ValueOf(bytes), modify_)
  {
    bytes := MarshalModifyMap(modify_);
    ModifyOnWire(modify_);
  }

  method MarshalModifyMap(modify_: ModifyWire) returns (bytes: seq<byte>)
    ensures Encodable(ModifyValue(modify_)) && bytes == Encode(ModifyValue(modify_))
  {
    var order := MarshalOrder(modify_.order);
    var oid := if modify_.cloid.Some? then Str(modify_.cloid.value) else Int(modify_.oid);
    bytes := MarshalTable(2, [Pair(OID, oid)], ORDER, OrderValue(modify_.order), order, "", None);
    assert ModifyValue(modify_).pairs == [Pair(OID, oid)] + [Pair(ORDER, OrderValue(modify_.order))] + [];
  }

  // ---------- Slices ----------

  ghost predicate WrittenItems(buf: seq<byte>, size: nat, done: seq<Value>) {
    size < TWO_32 && AllEncodable(done) && buf == EncodeHead(ArrHead(size)) + EncodeItems(done)
  }

  method StartArray(size: nat) returns (e: Encoder)
    requires size < TWO_32
    ensures fresh(e) && WrittenItems(e.buf, size, [])
  {
    e := new Encoder();
    e.EncodeArrayLen(size);
    assert EncodeHead(ArrHead(size)) + EncodeItems([]) == EncodeHead(ArrHead(size));
  }

  // The next of the items, encoded by its own marshaller.
  method WriteItem(e: Encoder, ghost items: seq<Value>, ghost i: nat, bytes: seq<byte>)
    requires i < |items| && WrittenItems(e.buf, |items|, items[..i]) && Encodable(items[i]) && bytes == Encode(items[i])
    modifies e
    ensures WrittenItems(e.buf, |items|, items[..i + 1])
  {
    ghost var before := e.buf;
    e.Write(bytes);
    LastItem(items[..i], items[i]);
    assert items[..i] + [items[i]] == items[..i + 1];
    assert e.buf == EncodeHead(ArrHead(|items|)) + (EncodeItems(items[..i]) + bytes);
  }

  lemma WrittenAllItems(buf: seq<byte>, items: seq<Value>)
    requires WrittenItems(buf, |items|, items[..|items|])
    ensures Encodable(Arr(items)) && buf == Encode(Arr(items))
  {
    assert items[..|items|] == items;
  }

  method MarshalNil() returns (bytes: seq<byte>)
    ensures bytes == Encode(Nil)
  {
    var e := new Encoder();
    e.EncodeNil();
    bytes := e.buf;
  }

  method MarshalOrders(orders: Slice<OrderWire>) returns (bytes: seq<byte>)
    requires Short(orders)
    ensures Encodable(SliceValue(orders, OrderValue)) && bytes == Encode(SliceValue(orders, OrderValue))
  {
    if orders == None {
      bytes := MarshalNil();
      return;
    }
    ghost var items := SliceValue(orders, OrderValue).items;
    var size := |orders.value|;
    var e := StartArray(size);
    var i := 0;
    while i < size
      invariant i <= size == |items| && WrittenItems(e.buf, |items|, items[..i])
    {
      var item := MarshalOrder(orders.value[i]);
      WriteItem(e, items, i, item);
      i := i + 1;
    }
    WrittenAllItems(e.buf, items);
    bytes := e.buf;
  }

  method MarshalCancels(cancels: Slice<CancelWire>) returns (bytes: seq<byte>)
    requires Short(cancels)
    ensures Encodable(SliceValue(cancels, CancelValue)) && bytes == Encode(SliceValue(cancels, CancelValue))
  {
    if cancels == None {
      bytes := MarshalNil();
      return;
    }
    ghost var items := SliceValue(cancels, CancelValue).items;
    var size := |cancels.value|;
    var e := StartArray(size);
    var i := 0;
    while i < size
      invariant i <= size == |items| && WrittenItems(e.buf, |items|, items[..i])
    {
      var item := MarshalCancel(cancels.value[i]);
      WriteItem(e, items, i, item);
      i := i + 1;
    }
    WrittenAllItems(e.buf, items);
    bytes := e.buf;
  }

  method MarshalCancelsByCloid(cancels: Slice<CancelByCloidWire>) returns (bytes: seq<byte>)
    requires Short(cancels)
    ensures Encodable(SliceValue(cancels, CancelByCloidValue))
            && bytes == Encode(SliceValue(cancels, CancelByCloidValue))
  {
    if cancels == None {
      bytes := MarshalNil();
      return;
    }
    ghost var items := SliceValue(cancels, CancelByCloidValue).items;
    var size := |cancels.value|;
    var e := StartArray(size);
    var i := 0;
    while i < size
      invariant i <= size == |items| && WrittenItems(e.buf, |items|, items[..i])
    {
      var item := MarshalCancelByCloid(cancels.value[i]);
      WriteItem(e, items, i, item);
      i := i + 1;
    }
    WrittenAllItems(e.buf, items);
    bytes := e.buf;
  }

  method MarshalModifies(modifies_: Slice<ModifyWire>) returns (bytes: seq<byte>)
    requires Short(modifies_)
    ensures Encodable(SliceValue(modifies_, ModifyValue)) && bytes == Encode(SliceValue(modifies_, ModifyValue))
  {
    if modifies_ == None {
      bytes := MarshalNil();
      return;
    }
    ghost var items := SliceValue(modifies_, ModifyValue).items;
    var size := |modifies_.value|;
    var e := StartArray(size);
    var i := 0;
    while i < size
      invariant i <= size == |items| && WrittenItems(e.buf, |items|, items[..i])
    {
      var item := MarshalModify(modifies_.value[i]);
      WriteItem(e, items, i, item);
      i := i + 1;
    }
    WrittenAllItems(e.buf, items);
    bytes := e.buf;
  }

  // ---------- Actions ----------

  method MarshalTyped(kind: ByteString, key: ByteString, ghost value: Value, encoded: seq<byte>)
    returns (bytes: seq<byte>)
    requires Encodable(value) && encoded == Encode(value)
    ensures Encodable(TypedValue(kind, key, value)) && bytes == Encode(TypedValue(kind, key, value))
  {
    bytes := MarshalTable(2, [Pair(TYPE, Str(kind))], key, value, encoded, "", None);
    assert TypedValue(kind, key, value).pairs == [Pair(TYPE, Str(kind))] + [Pair(key, value)] + [];
  }

  ghost function OrderParts(orders: Value, grouping: ByteString, builder: Option<Value>): seq<Pair> {
    [Pair(TYPE, Str(ORDER)), Pair(ORDERS, orders), Pair(GROUPING, Str(grouping))]
    + if builder.Some? then [Pair(BUILDER, builder.value)] else []
  }

  method MarshalText(text: ByteString) returns (bytes: seq<byte>)
    ensures bytes == Encode(Str(text))
  {
    var e := new Encoder();
    e.EncodeString(text);
    bytes := e.buf;
  }

  lemma SpelledWithOne(pairs: seq<Pair>, keys: seq<ByteString>, encoded: seq<seq<byte>>, key: ByteString, value: Value,
                       bytes: seq<byte>)
    requires Spelled(pairs, keys, encoded) && Encodable(value) && bytes == Encode(value)
    ensures Spelled(pairs + [Pair(key, value)], keys + [key], encoded + [bytes])
  {}

  lemma OrderPartsSpelled(orders: Value, encodedOrders: seq<byte>, grouping: ByteString, kind: seq<byte>,
                          group: seq<byte>)
    requires Encodable(orders) && encodedOrders == Encode(orders)
    requires kind == Encode(Str(ORDER)) && group == Encode(Str(grouping))
    ensures Spelled(OrderParts(orders, grouping, None), [TYPE, ORDERS, GROUPING], [kind, encodedOrders, group])
  {
    SpelledWithOne([], [], [], TYPE, Str(ORDER), kind);
    SpelledWithOne([Pair(TYPE, Str(ORDER))], [TYPE], [kind], ORDERS, orders, encodedOrders);
    SpelledWithOne([Pair(TYPE, Str(ORDER)), Pair(ORDERS, orders)], [TYPE, ORDERS], [kind, encodedOrders], GROUPING,
                   Str(grouping), group);
  }

  // The pairs of an order action around the encodings of its orders and its builder.
  method MarshalOrderParts(length: nat, ghost orders: Value, encodedOrders: seq<byte>, grouping: ByteString,
                           ghost builder: Option<Value>, encodedBuilder: Option<seq<byte>>) returns (bytes: seq<byte>)
    requires Encodable(orders) && encodedOrders == Encode(orders)
    requires builder.Some? == encodedBuilder.Some? && length == if builder.Some? then 4 else 3
    requires builder.Some? ==> Encodable(builder.value) && encodedBuilder.value == Encode(builder.value)
    ensures var value := Map(OrderParts(orders, grouping, builder));
            Encodable(value) && bytes == Encode(value)
  {
    var kind := MarshalText(ORDER);
    var group := MarshalText(grouping);
    var keys: seq<ByteString>, encoded := [TYPE, ORDERS, GROUPING], [kind, encodedOrders, group];
    OrderPartsSpelled(orders, encodedOrders, grouping, kind, group);
    if encodedBuilder.Some? {
      SpelledWithOne(OrderParts(orders, grouping, None), keys, encoded, BUILDER, builder.value, encodedBuilder.value);
      keys, encoded := keys + [BUILDER], encoded + [encodedBuilder.value];
    }
    bytes := MarshalPairs(length, OrderParts(orders, grouping, builder), keys, encoded);
  }

  method MarshalOrderAction(action: Action) returns (bytes: seq<byte>)
    requires action.OrderAction? && Fitting(action)
    ensures Encodable(OrderActionValue(action)) && bytes == Encode(OrderActionValue(action))
    ensures IsOneValue(bytes) && SaysAction(ValueOf(bytes), action)
  {
    ActionOnWire(action);
    var length := 3;
    var encodedBuilder := None;
    ghost var builder := None;
    if action.builder.Some? {
      length := length + 1;
      builder := Some(BuilderValue(action.builder.value));
      var encoded := MarshalBuilder(action.builder.value);
      encodedBuilder := Some(encoded);
    }
    var orders := MarshalOrders(action.orders);
    bytes := MarshalOrderParts(length, SliceValue(action.orders, OrderValue), orders, action.grouping, builder,
        encodedBuilder);
  }

  method MarshalCancelAction(cancels: Slice<CancelWire>) returns (bytes: seq<byte>)
    requires Short(cancels)
    ensures var value := TypedValue(CANCEL, CANCELS, SliceValue(cancels, CancelValue));
            Encodable(value) && bytes == Encode(value)
    ensures IsOneValue(bytes) && SaysAction(ValueOf(bytes), CancelAction(cancels))
  {
    ActionOnWire(CancelAction(cancels));
    var encoded := MarshalCancels(cancels);
    bytes := MarshalTyped(CANCEL, CANCELS, SliceValue(cancels, CancelValue), encoded);
  }

  method MarshalCancelByCloidAction(cancels: Slice<CancelByCloidWire>) returns (bytes: seq<byte>)
    requires Short(cancels)
    ensures var value := TypedValue(CANCEL_BY_CLOID, CANCELS, SliceValue(cancels, CancelByCloidValue));
            Encodable(value) && bytes == Encode(value)
    ensures IsOneValue(bytes) && SaysAction(ValueOf(bytes), CancelByCloidAction(cancels))
  {
    ActionOnWire(CancelByCloidAction(cancels));
    var encoded := MarshalCancelsByCloid(cancels);
    bytes := MarshalTyped(CANCEL_BY_CLOID, CANCELS, SliceValue(cancels, CancelByCloidValue), encoded);
  }

  method MarshalBatchModify(modifies_: Slice<ModifyWire>) returns (bytes: seq<byte>)
    requires Short(modifies_)
    ensures var value := TypedValue(BATCH_MODIFY, MODIFIES, SliceValue(modifies_, ModifyValue));
            Encodable(value) && bytes == Encode(value)
    ensures IsOneValue(bytes) && SaysAction(ValueOf(bytes), BatchModifyAction(modifies_))
  {
    ActionOnWire(BatchModifyAction(modifies_));
    var encoded := MarshalModifies(modifies_);
    bytes := MarshalTyped(BATCH_MODIFY, MODIFIES, SliceValue(modifies_, ModifyValue), encoded);
  }

  method MarshalTwap(twap: TwapWire) returns (bytes: seq<byte>)
    ensures Encodable(Map(TwapPairs(twap))) && bytes == Encode(Map(TwapPairs(twap)))
    ensures IsOneValue(bytes) && SaysTwap(ValueOf(bytes), twap)
  {
    bytes := MarshalScalars(6, TwapPairs(twap));
    TwapOnWire(twap);
  }

  method MarshalTwapOrder(twap: TwapWire) returns (bytes: seq<byte>)
    ensures var value := TypedValue(TWAP_ORDER, TWAP, Map(TwapPairs(twap)));
            Encodable(value) && bytes == Encode(value)
    ensures IsOneValue(bytes) && SaysAction(ValueOf(bytes), TwapOrderAction(twap))
  {
    ActionOnWire(TwapOrderAction(twap));
    var encoded := MarshalTwap(twap);
    bytes := MarshalTyped(TWAP_ORDER, TWAP, Map(TwapPairs(twap)), encoded);
  }

  method MarshalScheduleCancel(time: Option<uint64>) returns (bytes: seq<byte>)
    ensures Encodable(ScheduleCancelValue(time)) && bytes == Encode(ScheduleCancelValue(time))
    ensures IsOneValue(bytes) && SaysAction(ValueOf(bytes), ScheduleCancelAction(time))
  {
    ActionOnWire(ScheduleCancelAction(time));
    var n := 1;
    if time.Some? {
      n := n + 1;
    }
    bytes := MarshalScalars(n,
        [Pair(TYPE, Str(SCHEDULE_CANCEL))] + if time.Some? then [Pair(TIME, Int(time.value))] else []);
  }

  // The header each of these marshallers announces.
  function FlatSize(flat: FlatAction): nat {
    match flat
    case SubaccountTransfer(_, _, _) => 4
    case SubaccountSpotTransfer(_, _, _, _) => 5
    case VaultTransfer(_, _, _) => 4
    case UpdateLeverage(_, _, _) => 4
    case UpdateIsolatedMargin(_, _, _) => 4
    case TopUpIsolatedOnlyMargin(_, _) => 3
    case ReserveRequestWeight(_) => 2
    case TwapCancel(_, _) => 3
    case Noop => 1
  }

  method MarshalFlat(flat: FlatAction) returns (bytes: seq<byte>)
    ensures Encodable(Map(FlatPairs(flat))) && bytes == Encode(Map(FlatPairs(flat)))
    ensures IsOneValue(bytes) && SaysFlat(ValueOf(bytes), flat)
  {
    ActionOnWire(Flat(flat));
    FlatIsScalar(flat);
    bytes := MarshalScalars(FlatSize(flat), FlatPairs(flat));
  }

  method MarshalAction(action: Action) returns (bytes: seq<byte>)
    requires Fitting(action)
    ensures Encodable(ActionValue(action)) && bytes == Encode(ActionValue(action))
    ensures IsOneValue(bytes) && SaysAction(ValueOf(bytes), action)
  {
    ActionOnWire(action);
    match action
    case OrderAction(_, _, _) => bytes := MarshalOrderAction(action);
    case CancelAction(cancels) => bytes := MarshalCancelAction(cancels);
    case CancelByCloidAction(byCloid) => bytes := MarshalCancelByCloidAction(byCloid);
    case ScheduleCancelAction(time) => bytes := MarshalScheduleCancel(time);
    case TwapOrderAction(twap) => bytes := MarshalTwapOrder(twap);
    case Flat(flat) => bytes := MarshalFlat(flat);
    case BatchModifyAction(modifies_) => bytes := MarshalBatchModify(modifies_);
  }

  method AppendVault(data: seq<byte>, vault: Option<Address>) returns (r: seq<byte>)
    ensures r == data + VaultBytes(vault)
  {
    if vault == None {
      r := data + [0];
    } else {
      r := data + [1];
      r := r + vault.value;
    }
  }

  method AppendExpiry(data: seq<byte>, expiresAfter: Option<uint64>) returns (r: seq<byte>)
    ensures r == data + ExpiryBytes(expiresAfter)
  {
    r := data;
    if expiresAfter != None {
      r := r + [0];
      r := r + BigEndian(expiresAfter.value, 8);
    }
  }

  // The bytes that are hashed and signed.
  method L1ActionPreimage(action: Action, nonce: uint64, vault: Option<Address>, expiresAfter: Option<uint64>)
    returns (data: seq<byte>)
    requires Fitting(action)
    ensures Encodable(ActionValue(action))
    ensures data == Preimage(Inputs(ActionValue(action), nonce, vault, expiresAfter))
    ensures Decode(data).Some? && SaysAction(Decode(data).value.0, action)
    ensures SaysTail(Decode(data).value.1, nonce, vault, expiresAfter)
  {
    data := Assemble(action, nonce, vault, expiresAfter);
    PreimageSays(action, nonce, vault, expiresAfter);
  }

  lemma PreimageSays(action: Action, nonce: uint64, vault: Option<Address>, expiresAfter: Option<uint64>)
    requires Encodable(ActionValue(action))
    ensures var data := Preimage(Inputs(ActionValue(action), nonce, vault, expiresAfter));
            && Decode(data).Some? && SaysAction(Decode(data).value.0, action)
            && SaysTail(Decode(data).value.1, nonce, vault, expiresAfter)
  {
    ActionSays(action);
    TailSays(nonce, vault, expiresAfter);
    RoundTrip(ActionValue(action), Tail(nonce, vault, expiresAfter));
  }

  method Assemble(action: Action, nonce: uint64, vault: Option<Address>, expiresAfter: Option<uint64>)
    returns (data: seq<byte>)
    requires Fitting(action)
    ensures Encodable(ActionValue(action))
    ensures data == Preimage(Inputs(ActionValue(action), nonce, vault, expiresAfter))
  {
    var actionBytes := MarshalAction(action);
    data := actionBytes + BigEndian(nonce, 8);
    data := AppendVault(data, vault);
    data := AppendExpiry(data, expiresAfter);
    Regrouped(actionBytes, BigEndian(nonce, 8), VaultBytes(vault), ExpiryBytes(expiresAfter));
  }
}
