/** The order-side decisions of `services/OrdersService.js`: matching a recipe run detail
    to stored market data, generating one recipe order per usable detail once a recipe
    run is approved, and approving or rejecting a recipe order group. Store reads and
    exchange balances are inputs. */
module OrdersService {
  import opened Wrappers
  import opened Domain
  import opened Seqs

  /** The asset pair of an instrument or a recipe run detail. */
  datatype AssetPair = AssetPair(transactionAssetId: int, quoteAssetId: int)

  /** `sameAssets`: the same pair in either orientation. */
  predicate SameAssets(a: AssetPair, b: AssetPair) {
    (a.transactionAssetId == b.transactionAssetId && a.quoteAssetId == b.quoteAssetId)
    || (a.quoteAssetId == b.transactionAssetId && a.transactionAssetId == b.quoteAssetId)
  }

  /** sameAssets is symmetric, reflexive, and ignores orientation. */
  lemma SameAssetsProperties(a: AssetPair, b: AssetPair)
    ensures SameAssets(a, b) <==> SameAssets(b, a)
    ensures SameAssets(a, a)
    ensures SameAssets(a, AssetPair(a.quoteAssetId, a.transactionAssetId))
    ensures SameAssets(a, b) <==> (a == b || a == AssetPair(b.quoteAssetId, b.transactionAssetId))
  {
  }

  /** A recipe run detail: the pair to trade, the exchange and the share of the deposit. */
  datatype RunDetail = RunDetail(id: nat, pair: AssetPair, targetExchangeId: int, investmentPercentage: real)

  /** The text key of a market-data group: the instrument id and the exchange id in
      decimal, joined by a comma. */
  function KeyText(instrumentId: nat, exchangeId: nat): string {
    DecimalText(instrumentId) + "," + DecimalText(exchangeId)
  }

  /** A group key read back: the comma-separated pieces parsed as decimal numbers, the
      first two of them. */
  function ParseKey(key: string): (r: (nat, Option<nat>))
  {
    var parts := Split(key, ',');
    (ParseDecimal(parts[0]), if |parts| >= 2 then Some(ParseDecimal(parts[1])) else None)
  }

  /** Parsing a group key gives back the instrument and exchange it was made from. */
  lemma KeyRoundTrip(instrumentId: nat, exchangeId: nat)
    ensures ParseKey(KeyText(instrumentId, exchangeId)) == (instrumentId, Some(exchangeId))
  {
    var a := DecimalText(instrumentId);
    var b := DecimalText(exchangeId);
    assert forall i :: 0 <= i < |a| ==> a[i] != ',';
    assert forall i :: 0 <= i < |b| ==> b[i] != ',';
    SplitAtFirst(a, ',', b);
    SplitNoSeparator(b, ',');
    assert KeyText(instrumentId, exchangeId) == a + [','] + b;
    DecimalRoundTrip(instrumentId);
    DecimalRoundTrip(exchangeId);
  }

  /** The key's exchange matches the detail's target exchange and the key's instrument
      trades the detail's pair; a key naming an unknown instrument raises once its
      exchange matches. */
  function KeyMatches(key: string, instruments: map<nat, AssetPair>, d: RunDetail): (r: Result<bool, string>)
  {
    var (instrumentId, exchangeId) := ParseKey(key);
    if exchangeId.None? || exchangeId.value != d.targetExchangeId then Ok(false)
    else if instrumentId !in instruments then Err("instrument not found")
    else Ok(SameAssets(instruments[instrumentId], d.pair))
  }

  /** `marketDataKeyForRunDetail`: the first key that matches the detail, if any. */
  function MarketDataKeyForRunDetail(keys: seq<string>, instruments: map<nat, AssetPair>, d: RunDetail): (r: Result<Option<nat>, string>)
    ensures r.Ok? && r.value.Some? ==>
      && r.value.value < |keys| && KeyMatches(keys[r.value.value], instruments, d) == Ok(true)
      && forall j :: 0 <= j < r.value.value ==> KeyMatches(keys[j], instruments, d) == Ok(false)
    ensures r == Ok(None) <==> forall j :: 0 <= j < |keys| ==> KeyMatches(keys[j], instruments, d) == Ok(false)
  {
    if |keys| == 0 then Ok(None)
    else match KeyMatches(keys[0], instruments, d)
      case Err(e) => Err(e)
      case Ok(true) => Ok(Some(0))
      case Ok(false) =>
        var rest :- MarketDataKeyForRunDetail(keys[1..], instruments, d);
        Ok(if rest.Some? then Some(rest.value + 1) else None)
  }

  /** With every instrument known, the search finds a key exactly when some key's exchange
      is the target and its instrument trades the detail's pair. */
  lemma KeyFoundIff(instrumentIds: seq<nat>, exchangeIds: seq<nat>, instruments: map<nat, AssetPair>, d: RunDetail)
    requires |instrumentIds| == |exchangeIds|
    requires forall j :: 0 <= j < |instrumentIds| ==> instrumentIds[j] in instruments
    ensures var keys := seq(|instrumentIds|, j requires 0 <= j < |instrumentIds| => KeyText(instrumentIds[j], exchangeIds[j]));
      var r := MarketDataKeyForRunDetail(keys, instruments, d);
      && r.Ok?
      && (r.value.Some? <==> exists j :: 0 <= j < |keys| && exchangeIds[j] == d.targetExchangeId
                                          && SameAssets(instruments[instrumentIds[j]], d.pair))
  {
    var keys := seq(|instrumentIds|, j requires 0 <= j < |instrumentIds| => KeyText(instrumentIds[j], exchangeIds[j]));
    forall j | 0 <= j < |keys|
      ensures KeyMatches(keys[j], instruments, d) == Ok(exchangeIds[j] == d.targetExchangeId && SameAssets(instruments[instrumentIds[j]], d.pair))
    {
      KeyRoundTrip(instrumentIds[j], exchangeIds[j]);
    }
    KeyFoundOk(keys, instruments, d);
  }

  lemma {:induction false} KeyFoundOk(keys: seq<string>, instruments: map<nat, AssetPair>, d: RunDetail)
    requires forall j :: 0 <= j < |keys| ==> KeyMatches(keys[j], instruments, d).Ok?
    ensures MarketDataKeyForRunDetail(keys, instruments, d).Ok?
  {
    if |keys| > 0 {
      KeyFoundOk(keys[1..], instruments, d);
    }
  }

  /** The newest market-data row of one group. */
  datatype MarketRow = MarketRow(instrumentId: nat, askPrice: real, bidPrice: real)

  /** One group of `grouped_market_data`: its key and its newest row. */
  datatype MarketGroup = MarketGroup(key: string, latest: MarketRow)

  /** A recipe order to be created in the new group; the quantity is `None` when the
      division by a zero price yields a non-finite number. */
  datatype NewRecipeOrder = NewRecipeOrder(
    groupId: nat,
    instrumentId: nat,
    targetExchangeId: int,
    price: real,
    quantity: Option<real>,
    side: OrderSide,
    status: RecipeOrderStatus)

  /** The target exchange has a positive balance of the detail's quote asset. */
  predicate DepositValid(deposits: map<int, map<int, real>>, d: RunDetail) {
    d.targetExchangeId in deposits && d.pair.quoteAssetId in deposits[d.targetExchangeId]
    && deposits[d.targetExchangeId][d.pair.quoteAssetId] > 0.0
  }

  function Keys(groups: seq<MarketGroup>): (r: seq<string>)
    ensures |r| == |groups| && forall i :: 0 <= i < |r| ==> r[i] == groups[i].key
  {
    seq(|groups|, i requires 0 <= i < |groups| => groups[i].key)
  }

  /** The balance of the detail's quote asset on its target exchange. */
  function Deposit(deposits: map<int, map<int, real>>, d: RunDetail): real
    requires DepositValid(deposits, d)
  {
    deposits[d.targetExchangeId][d.pair.quoteAssetId]
  }

  /** A detail that has a market-data group and a positive deposit of its quote asset. */
  function Usable(groups: seq<MarketGroup>, instruments: map<nat, AssetPair>, deposits: map<int, map<int, real>>): RunDetail -> bool {
    (d: RunDetail) =>
      var key := MarketDataKeyForRunDetail(Keys(groups), instruments, d);
      key.Ok? && key.value.Some? && DepositValid(deposits, d)
  }

  /** Keeps the details that have market data and a deposit of their quote asset, in
      their order; an unknown instrument behind a matching key raises. */
  function ValidDetails(details: seq<RunDetail>, groups: seq<MarketGroup>, instruments: map<nat, AssetPair>, deposits: map<int, map<int, real>>): (r: Result<seq<RunDetail>, string>)
    ensures r.Ok? ==> forall i :: 0 <= i < |r.value| ==>
      r.value[i] in details && DepositValid(deposits, r.value[i])
      && MarketDataKeyForRunDetail(Keys(groups), instruments, r.value[i]).Ok?
      && MarketDataKeyForRunDetail(Keys(groups), instruments, r.value[i]).value.Some?
    ensures r.Ok? ==> forall i :: 0 <= i < |details| ==>
      (MarketDataKeyForRunDetail(Keys(groups), instruments, details[i]).Ok?
       && MarketDataKeyForRunDetail(Keys(groups), instruments, details[i]).value.Some?
       && DepositValid(deposits, details[i])) ==> details[i] in r.value
    ensures r.Err? <==> exists i :: 0 <= i < |details| && MarketDataKeyForRunDetail(Keys(groups), instruments, details[i]).Err?
    ensures r.Ok? ==> r.value == Filter(details, Usable(groups, instruments, deposits))
  {
    if |details| == 0 then Ok([])
    else
      var found :- MarketDataKeyForRunDetail(Keys(groups), instruments, details[0]);
      assert forall i :: 1 <= i < |details| ==> details[1..][i - 1] == details[i];
      var rest :- ValidDetails(details[1..], groups, instruments, deposits);
      var usable := Usable(groups, instruments, deposits);
      assert usable(details[0]) == (found.Some? && DepositValid(deposits, details[0]));
      assert Filter(details, usable) == if usable(details[0]) then [details[0]] + rest else rest;
      if found.Some? && DepositValid(deposits, details[0]) then Ok([details[0]] + rest) else Ok(rest)
  }

  /** `o` is the recipe order generated for `d`: Pending, a Sell at the ask, on the detail's
      exchange, buying the detail's share of the quote-asset balance at that price. */
  predicate Realises(o: NewRecipeOrder, d: RunDetail, deposits: map<int, map<int, real>>, groupId: nat)
    requires DepositValid(deposits, d)
  {
    && o.status.Pending? && o.side == Sell && o.groupId == groupId && o.targetExchangeId == d.targetExchangeId
    && (o.price != 0.0 ==> o.quantity == Some(d.investmentPercentage * Deposit(deposits, d) / o.price))
    && (o.price == 0.0 ==> o.quantity.None?)
  }

  /** The recipe order for one detail. The source decides the side by comparing the
      detail's transaction asset with a property read from the first character of the
      group's text key; a single character has no such property, so the comparison never
      holds and every order is a Sell priced at the latest ask. */
  function OrderFor(d: RunDetail, groups: seq<MarketGroup>, instruments: map<nat, AssetPair>, deposits: map<int, map<int, real>>, groupId: nat): (r: NewRecipeOrder)
    requires MarketDataKeyForRunDetail(Keys(groups), instruments, d).Ok?
    requires MarketDataKeyForRunDetail(Keys(groups), instruments, d).value.Some?
    requires DepositValid(deposits, d)
    ensures Realises(r, d, deposits, groupId)
    ensures r.price == groups[MarketDataKeyForRunDetail(Keys(groups), instruments, d).value.value].latest.askPrice
  {
    var k := MarketDataKeyForRunDetail(Keys(groups), instruments, d).value.value;
    var row := groups[k].latest;
    var spend := d.investmentPercentage * Deposit(deposits, d);
    NewRecipeOrder(groupId, row.instrumentId, d.targetExchangeId, row.askPrice,
                   if row.askPrice == 0.0 then None else Some(spend / row.askPrice), Sell, RecipeOrderStatus.Pending)
  }

  /** One new Pending Sell recipe order per usable detail, in the details' order. */
  function OrdersFor(valid: seq<RunDetail>, groups: seq<MarketGroup>, instruments: map<nat, AssetPair>, deposits: map<int, map<int, real>>, groupId: nat): (r: seq<NewRecipeOrder>)
    requires forall i :: 0 <= i < |valid| ==>
      && MarketDataKeyForRunDetail(Keys(groups), instruments, valid[i]).Ok?
      && MarketDataKeyForRunDetail(Keys(groups), instruments, valid[i]).value.Some?
      && DepositValid(deposits, valid[i])
    ensures |r| == |valid|
    ensures forall i :: 0 <= i < |r| ==> Realises(r[i], valid[i], deposits, groupId)
  {
    seq(|valid|, i requires 0 <= i < |valid| => OrderFor(valid[i], groups, instruments, deposits, groupId))
  }

  /** The inputs of `generateApproveRecipeOrders`. `createdGroup` is the id of the new
      order group, or the error creating it; `orderSaveError` is the error of saving one
      of the new recipe orders, if any. */
  datatype GenerationInput = GenerationInput(
    existingGroup: Option<nat>,
    run: Option<RecipeRun>,
    details: seq<RunDetail>,
    instruments: map<nat, AssetPair>,
    groups: seq<MarketGroup>,
    deposits: Result<map<int, map<int, real>>, string>,
    createdGroup: Result<nat, string>,
    orderSaveError: Option<string>)

  /** `generateApproveRecipeOrders`. */
  function Generate(input: GenerationInput): (r: Result<seq<NewRecipeOrder>, string>)
    ensures input.existingGroup.Some? ==> r.Err?
    ensures input.run.None? || input.run.value.approvalStatus != RunApproved ==> r.Err?
    ensures input.deposits.Err? || input.createdGroup.Err? || input.orderSaveError.Some? ==> r.Err?
    ensures (&& input.existingGroup.None? && input.run.Some? && input.run.value.approvalStatus == RunApproved
             && input.deposits.Ok? && input.createdGroup.Ok? && input.orderSaveError.None?) ==>
      var valid := ValidDetails(input.details, input.groups, input.instruments, input.deposits.value);
      && (valid.Err? ==> r.Err?)
      && (valid.Ok? ==> (r.Ok? <==> |valid.value| > 0))
      && (valid.Ok? && |valid.value| > 0 ==>
            r == Ok(OrdersFor(valid.value, input.groups, input.instruments, input.deposits.value, input.createdGroup.value)))
    ensures r.Ok? ==>
      var valid := ValidDetails(input.details, input.groups, input.instruments, input.deposits.value);
      && valid.Ok? && |valid.value| > 0 && |r.value| == |valid.value|
      && forall i :: 0 <= i < |r.value| ==>
           Realises(r.value[i], valid.value[i], input.deposits.value, input.createdGroup.value)
  {
    if input.existingGroup.Some? then Err("recipe run already has a generated orders group")
    else if input.run.None? then Err("recipe run not found")
    else if input.run.value.approvalStatus != RunApproved then Err("recipe run was not approved")
    else
      var deposits :- input.deposits;
      var valid :- ValidDetails(input.details, input.groups, input.instruments, deposits);
      if |valid| == 0 then Err("no valid recipe run details")
      else
        var groupId :- input.createdGroup;
        if input.orderSaveError.Some? then Err(input.orderSaveError.value)
        else Ok(OrdersFor(valid, input.groups, input.instruments, deposits, groupId))
  }

  // ---------------------------------------------------------------------------
  // Group approval

  datatype GroupStatus = GroupPending | GroupApproved | GroupRejected

  datatype OrderGroup = OrderGroup(id: nat, status: GroupStatus, approvalUserId: Option<int>, approvalTimestamp: Option<int>, comment: string)

  /** `changeRecipeOrderGroupStatus`. `group` is what the store returns for the id and
      `orders` the group's recipe orders; `groupSaveError` and `orderSaveError` are the
      errors of saving the group and of saving one of its rejected orders, if any. */
  function ChangeGroupStatus(userId: Option<int>, groupId: Option<nat>, status: Coded<GroupStatus>, comment: Option<string>,
                             group: Option<OrderGroup>, orders: seq<RecipeOrder>, groupSaveError: Option<string>,
                             orderSaveError: Option<string>, now: int): (r: Result<(OrderGroup, seq<RecipeOrder>), string>)
    ensures r.Err? <==>
      || userId.None? || groupId.None? || status.Unknown?
      || ((status.value == GroupApproved || status.value == GroupRejected) && comment.None?)
      || group.None?
      || (group.value.status != status.value
          && (groupSaveError.Some? || (status.value == GroupRejected && orderSaveError.Some?)))
    ensures r.Ok? && group.value.status == status.value ==> r.value == (group.value, orders)
    ensures r.Ok? && group.value.status != status.value ==>
      && r.value.0 == group.value.(status := status.value, approvalUserId := userId, approvalTimestamp := Some(now),
                                   comment := if comment.Some? then comment.value else group.value.comment)
      && |r.value.1| == |orders|
      && (status.value == GroupRejected ==> forall i :: 0 <= i < |orders| ==> r.value.1[i] == orders[i].(status := Rejected))
      && (status.value != GroupRejected ==> r.value.1 == orders)
  {
    if userId.None? || groupId.None? then Err("null user_id or order_group_id")
    else if status.Unknown? then Err("status not within allowed statuses")
    else if (status.value == GroupApproved || status.value == GroupRejected) && comment.None? then Err("comment required")
    else if group.None? then Err("recipe order group not found")
    else
      var g := group.value;
      if g.status == status.value then Ok((g, orders))
      else
        var updated := g.(status := status.value, approvalUserId := userId, approvalTimestamp := Some(now),
                          comment := if comment.Some? then comment.value else g.comment);
        if groupSaveError.Some? then Err(groupSaveError.value)
        else if status.value == GroupRejected && orderSaveError.Some? then Err(orderSaveError.value)
        else if status.value == GroupRejected
        then Ok((updated, seq(|orders|, i requires 0 <= i < |orders| => orders[i].(status := Rejected))))
        else Ok((updated, orders))
  }

  /** Repeating a successful status change is a no-op. */
  lemma ChangeGroupStatusIdempotent(userId: Option<int>, groupId: Option<nat>, status: Coded<GroupStatus>, comment: Option<string>,
                                    group: Option<OrderGroup>, orders: seq<RecipeOrder>, now: int, later: int)
    requires ChangeGroupStatus(userId, groupId, status, comment, group, orders, None, None, now).Ok?
    ensures var (g, os) := ChangeGroupStatus(userId, groupId, status, comment, group, orders, None, None, now).value;
      forall groupSaveError, orderSaveError :: ChangeGroupStatus(userId, groupId, status, comment, Some(g), os, groupSaveError, orderSaveError, later) == Ok((g, os))
  {
  }

  /** After a rejection every recipe order of the group is Rejected, whatever it was. */
  lemma RejectionPropagates(userId: int, groupId: nat, comment: string, g: OrderGroup, orders: seq<RecipeOrder>, now: int)
    requires g.status != GroupRejected
    ensures var r := ChangeGroupStatus(Some(userId), Some(groupId), Known(GroupRejected), Some(comment), Some(g), orders, None, None, now);
      && r.Ok? && r.value.0.status == GroupRejected && r.value.0.comment == comment
      && forall i :: 0 <= i < |r.value.1| ==> r.value.1[i].status == Rejected && r.value.1[i].id == orders[i].id
  {
  }
}
