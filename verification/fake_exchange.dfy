/** The in-memory exchange of `cucumber/features/support/stubs/ccxt_methods.js` that
    stands in for a ccxt connector in acceptance scenarios: orders and trades kept in
    lists, sequential string ids, creation with validation, since-filtered queries and a
    trade simulator that fills open orders. Clock and random draws are inputs. */
module FakeExchange {
  import opened Wrappers
  import opened Domain
  import opened Seqs

  /** `limits.amount` of a market; a bound may be absent. */
  datatype AmountLimits = AmountLimits(min: Option<real>, max: Option<real>)

  /** One entry of `markets`; `amountLimits` is `None` when `limits.amount` is missing or
      an empty object. */
  datatype MarketInfo = MarketInfo(amountLimits: Option<AmountLimits>)

  datatype OrderState = Open | Closed

  datatype FakeOrder = FakeOrder(
    id: string,
    timestamp: int,
    lastTradeTimestamp: Option<int>,
    status: OrderState,
    symbol: string,
    side: string,
    price: real,
    amount: real,
    filled: real,
    remaining: real)

  /** A trade's fee; the currency is `undefined` when the symbol has no quote part. */
  datatype TradeFee = TradeFee(cost: real, currency: Option<string>)

  datatype FakeTrade = FakeTrade(
    id: string,
    timestamp: int,
    symbol: string,
    order: string,
    side: string,
    amount: real,
    price: real,
    cost: real,
    fee: TradeFee)

  /** The stub's fields: markets, the two id counters, orders and trades. */
  datatype FakeState = FakeState(
    markets: map<string, MarketInfo>,
    nextOrderId: nat,
    nextTradeId: nat,
    orders: seq<FakeOrder>,
    trades: seq<FakeTrade>)

  /** `_init`: counters back to 1 and no orders or trades. */
  function Init(markets: map<string, MarketInfo>): (r: FakeState)
    ensures WellNumbered(r) && r.orders == [] && r.trades == []
    ensures r.markets == markets && r.nextOrderId == 1 && r.nextTradeId == 1
  {
    FakeState(markets, 1, 1, [], [])
  }

  /** Every order id is the decimal text of a value the order counter has passed. */
  predicate WellNumbered(s: FakeState) {
    forall i :: 0 <= i < |s.orders| ==>
      s.orders[i].id == DecimalText(ParseDecimal(s.orders[i].id)) && ParseDecimal(s.orders[i].id) < s.nextOrderId
  }

  // ---------------------------------------------------------------------------
  // Queries

  /** Index of the first order with the given id. */
  function FindOrder(orders: seq<FakeOrder>, id: string): (r: Option<nat>)
    ensures r.Some? ==> r.value < |orders| && orders[r.value].id == id
    ensures r.None? <==> forall i :: 0 <= i < |orders| ==> orders[i].id != id
  {
    if |orders| == 0 then None
    else if orders[0].id == id then Some(0)
    else
      var rest := FindOrder(orders[1..], id);
      if rest.Some? then Some(rest.value + 1) else None
  }

  /** `fetchOrder(id, symbol)`: unknown market and symbol mismatch raise; an unknown id
      gives null. */
  function FetchOrder(s: FakeState, id: string, symbol: string): (r: Result<Option<FakeOrder>, string>)
    ensures symbol !in s.markets ==> r.Err?
    ensures r == Ok(None) <==> symbol in s.markets && forall i :: 0 <= i < |s.orders| ==> s.orders[i].id != id
    ensures r.Ok? && r.value.Some? ==> r.value.value in s.orders && r.value.value.id == id && r.value.value.symbol == symbol
    ensures r.Err? && symbol in s.markets ==>
      exists i :: 0 <= i < |s.orders| && s.orders[i].id == id && s.orders[i].symbol != symbol
  {
    if symbol !in s.markets then Err("instrument not supported")
    else match FindOrder(s.orders, id)
      case None => Ok(None)
      case Some(k) => if s.orders[k].symbol != symbol then Err("symbol mismatch") else Ok(Some(s.orders[k]))
  }

  /** `new Date(since).getTime()`: an absent `since` is NaN and no timestamp compares
      greater or equal to it. */
  function OrderAtOrAfter(since: Option<int>): FakeOrder -> bool {
    (o: FakeOrder) => since.Some? && o.timestamp >= since.value
  }

  function TradeAtOrAfter(since: Option<int>): FakeTrade -> bool {
    (t: FakeTrade) => since.Some? && t.timestamp >= since.value
  }

  /** `fetchOrders(symbol, since)`: every stored order with timestamp ≥ since, whatever its
      symbol, in storage order. */
  function FetchOrders(s: FakeState, symbol: string, since: Option<int>): (r: Result<seq<FakeOrder>, string>)
    ensures r.Err? <==> symbol !in s.markets
    ensures r.Ok? ==> forall i :: 0 <= i < |r.value| ==> r.value[i] in s.orders && since.Some? && r.value[i].timestamp >= since.value
    ensures r.Ok? ==> forall i :: 0 <= i < |s.orders| && since.Some? && s.orders[i].timestamp >= since.value ==> s.orders[i] in r.value
  {
    if symbol !in s.markets then Err("instrument not supported")
    else
      assert forall o :: OrderAtOrAfter(since)(o) == (since.Some? && o.timestamp >= since.value);
      Ok(Filter(s.orders, OrderAtOrAfter(since)))
  }

  /** `fetchMyTrades(symbol, since)`: every stored trade with timestamp ≥ since. */
  function FetchMyTrades(s: FakeState, symbol: string, since: Option<int>): (r: Result<seq<FakeTrade>, string>)
    ensures r.Err? <==> symbol !in s.markets
    ensures r.Ok? ==> forall i :: 0 <= i < |r.value| ==> r.value[i] in s.trades && since.Some? && r.value[i].timestamp >= since.value
    ensures r.Ok? ==> forall i :: 0 <= i < |s.trades| && since.Some? && s.trades[i].timestamp >= since.value ==> s.trades[i] in r.value
  {
    if symbol !in s.markets then Err("instrument not supported")
    else
      assert forall t :: TradeAtOrAfter(since)(t) == (since.Some? && t.timestamp >= since.value);
      Ok(Filter(s.trades, TradeAtOrAfter(since)))
  }

  // ---------------------------------------------------------------------------
  // Order creation

  /** lodash `_.inRange(n, start, end)`: an absent bound reads as 0, a missing `end` makes
      the range [0, start), and reversed bounds are swapped. */
  predicate InRange(n: real, start: Option<real>, end: Option<real>) {
    var s := OrZero(start);
    var (lo, hi) := if end.None? then (0.0, s) else (s, end.value);
    var low := if lo <= hi then lo else hi;
    var high := if lo <= hi then hi else lo;
    low <= n < high
  }

  /** The newest stored ask and bid for the instrument. */
  datatype Prices = Prices(ask: real, bid: real)

  /** `createMarketOrder(instrument, side, order)`. Raises for a side other than buy or
      sell, an unknown instrument, a quantity outside a non-empty amount range, and
      missing market data; otherwise stores an open order under the next order id. */
  function CreateMarketOrder(s: FakeState, instrument: string, side: string, quantity: real, prices: Option<Prices>, now: int): (r: Result<(FakeState, FakeOrder), string>)
    ensures r.Err? <==>
      || (side != "buy" && side != "sell")
      || instrument !in s.markets
      || (s.markets[instrument].amountLimits.Some?
          && !InRange(quantity, s.markets[instrument].amountLimits.value.min, s.markets[instrument].amountLimits.value.max))
      || prices.None?
    ensures r.Ok? ==>
      var (s', o) := r.value;
      && o == FakeOrder(DecimalText(s.nextOrderId), now, None, Open, instrument, side,
                        if side == "buy" then prices.value.ask else prices.value.bid, quantity, 0.0, quantity)
      && s' == s.(nextOrderId := s.nextOrderId + 1, orders := s.orders + [o])
  {
    if side != "buy" && side != "sell" then Err("not a valid order side")
    else if instrument !in s.markets then Err("instrument not available")
    else
      var limits := s.markets[instrument].amountLimits;
      if limits.Some? && !InRange(quantity, limits.value.min, limits.value.max) then Err("quantity not within the limits")
      else if prices.None? then Err("no market data")
      else
        var o := FakeOrder(DecimalText(s.nextOrderId), now, None, Open, instrument, side,
                           if side == "buy" then prices.value.ask else prices.value.bid, quantity, 0.0, quantity);
        Ok((s.(nextOrderId := s.nextOrderId + 1, orders := s.orders + [o]), o))
  }

  /** A created order is stored under a fresh id: numbering is preserved and fetching the
      new id with its symbol returns exactly the new order. */
  lemma CreateThenFetch(s: FakeState, instrument: string, side: string, quantity: real, prices: Option<Prices>, now: int)
    requires WellNumbered(s)
    requires CreateMarketOrder(s, instrument, side, quantity, prices, now).Ok?
    ensures var (s', o) := CreateMarketOrder(s, instrument, side, quantity, prices, now).value;
      WellNumbered(s') && FetchOrder(s', o.id, instrument) == Ok(Some(o))
  {
    var (s', o) := CreateMarketOrder(s, instrument, side, quantity, prices, now).value;
    DecimalRoundTrip(s.nextOrderId);
    forall i | 0 <= i < |s.orders| ensures s.orders[i].id != o.id {
      assert ParseDecimal(s.orders[i].id) < s.nextOrderId;
    }
    assert s'.orders[|s.orders|] == o;
    var k := FindOrder(s'.orders, o.id);
    assert k.Some?;
    assert k.value == |s.orders|;
  }

  // ---------------------------------------------------------------------------
  // Purge

  /** `Number(id)` for the decimal ids the stub hands out. */
  function IdNumber(id: string): nat {
    ParseDecimal(id)
  }

  /** The JavaScript values the purge compares: Numbers and Strings. */
  datatype JsValue = Num(n: int) | Str(s: string)

  /** `Array.prototype.includes` (SameValueZero): no conversion between types. */
  predicate Includes(list: seq<JsValue>, x: JsValue) {
    exists i :: 0 <= i < |list| && list[i] == x
  }

  /** Each id converted to a JavaScript number. */
  function AsNumbers(ids: seq<int>): (r: seq<JsValue>)
    ensures |r| == |ids| && forall i :: 0 <= i < |r| ==> r[i] == Num(ids[i])
  {
    seq(|ids|, i requires 0 <= i < |ids| => Num(ids[i]))
  }

  function KeepOrderAsWritten(ids: seq<int>): FakeOrder -> bool {
    (o: FakeOrder) => !Includes(AsNumbers(ids), Str(o.id))
  }

  function KeepTradeAsWritten(ids: seq<int>): FakeTrade -> bool {
    (t: FakeTrade) => !Includes(AsNumbers(ids), Str(t.order))
  }

  /** `purgeOrders(ids)` as written: the ids become Numbers and are then looked up among
      String order ids and String trade order references. */
  function PurgeAsWritten(s: FakeState, ids: seq<int>): (r: FakeState)
    ensures |ids| == 0 ==> r.orders == [] && r.trades == []
  {
    if |ids| > 0 then s.(orders := Filter(s.orders, KeepOrderAsWritten(ids)), trades := Filter(s.trades, KeepTradeAsWritten(ids)))
    else s.(orders := [], trades := [])
  }

  /** As written, purging a non-empty list of ids keeps every order and trade: a Number
      never equals a String under SameValueZero. */
  lemma PurgeAsWrittenKeepsEverything(s: FakeState, ids: seq<int>)
    requires |ids| > 0
    ensures PurgeAsWritten(s, ids) == s
  {
    FilterAll(s.orders, KeepOrderAsWritten(ids));
    FilterAll(s.trades, KeepTradeAsWritten(ids));
  }

  /** Concretely: after creating order "1", purging `[1]` still finds it. */
  lemma PurgeAsWrittenMissesCreatedOrder()
    ensures var s := Init(map["BTC/USD" := MarketInfo(None)]);
      var created := CreateMarketOrder(s, "BTC/USD", "buy", 1.0, Some(Prices(10.0, 9.0)), 0);
      && created.Ok?
      && created.value.1.id == "1"
      && FetchOrder(PurgeAsWritten(created.value.0, [1]), "1", "BTC/USD").Ok?
      && FetchOrder(PurgeAsWritten(created.value.0, [1]), "1", "BTC/USD").value.Some?
  {
    var s := Init(map["BTC/USD" := MarketInfo(None)]);
    var created := CreateMarketOrder(s, "BTC/USD", "buy", 1.0, Some(Prices(10.0, 9.0)), 0);
    assert DecimalText(1) == "1";
    PurgeAsWrittenKeepsEverything(created.value.0, [1]);
    assert created.value.0.orders[0].id == "1";
  }

  function NotListedOrder(ids: seq<int>): FakeOrder -> bool {
    (o: FakeOrder) => IdNumber(o.id) !in ids
  }

  function NotListedTrade(ids: seq<int>): FakeTrade -> bool {
    (t: FakeTrade) => IdNumber(t.order) !in ids
  }

  /** `purgeOrders(ids)` as intended: ids compared as Numbers, so exactly the listed orders
      and the trades that reference them go; with no ids everything goes. */
  function Purge(s: FakeState, ids: seq<int>): (r: FakeState)
    ensures |ids| == 0 ==> r.orders == [] && r.trades == []
    ensures |ids| > 0 ==> forall i :: 0 <= i < |r.orders| ==> r.orders[i] in s.orders && IdNumber(r.orders[i].id) !in ids
    ensures |ids| > 0 ==> forall i :: 0 <= i < |s.orders| && IdNumber(s.orders[i].id) !in ids ==> s.orders[i] in r.orders
    ensures |ids| > 0 ==> forall i :: 0 <= i < |r.trades| ==> r.trades[i] in s.trades && IdNumber(r.trades[i].order) !in ids
    ensures |ids| > 0 ==> forall i :: 0 <= i < |s.trades| && IdNumber(s.trades[i].order) !in ids ==> s.trades[i] in r.trades
    ensures r.markets == s.markets && r.nextOrderId == s.nextOrderId && r.nextTradeId == s.nextTradeId
  {
    if |ids| > 0 then s.(orders := Filter(s.orders, NotListedOrder(ids)), trades := Filter(s.trades, NotListedTrade(ids)))
    else s.(orders := [], trades := [])
  }

  /** The corrected purge removes a created order: fetching its id afterwards gives null. */
  lemma PurgeRemovesCreatedOrder(s: FakeState, instrument: string, side: string, quantity: real, prices: Option<Prices>, now: int)
    requires CreateMarketOrder(s, instrument, side, quantity, prices, now).Ok?
    ensures var (s', o) := CreateMarketOrder(s, instrument, side, quantity, prices, now).value;
      FetchOrder(Purge(s', [s.nextOrderId]), o.id, instrument) == Ok(None)
  {
    var (s', o) := CreateMarketOrder(s, instrument, side, quantity, prices, now).value;
    DecimalRoundTrip(s.nextOrderId);
    var p := Purge(s', [s.nextOrderId]);
    forall i | 0 <= i < |p.orders| ensures p.orders[i].id != o.id {
      assert IdNumber(p.orders[i].id) != s.nextOrderId;
    }
  }

  /** Purging with no ids empties both lists whichever comparison is used. */
  lemma PurgeAllEmpties(s: FakeState)
    ensures PurgeAsWritten(s, []) == Purge(s, []) == s.(orders := [], trades := [])
  {
  }

  // ---------------------------------------------------------------------------
  // Trade simulation

  /** `simulateTrades` options after their `||` defaults. */
  datatype SimOptions = SimOptions(rate: Option<real>, multipleTradeChance: Option<real>, minimumTrades: Option<int>, forceFailure: bool)

  function Rate(opts: SimOptions): real {
    if Truthy(opts.rate) then opts.rate.value else 0.0
  }

  function TradeChance(opts: SimOptions): real {
    var c := if Truthy(opts.multipleTradeChance) then opts.multipleTradeChance.value else 0.0;
    if c < 0.0 then 0.0 else if c > 100.0 then 100.0 else c
  }

  function MinimumTrades(opts: SimOptions): int {
    if opts.minimumTrades.Some? && opts.minimumTrades.value != 0 then opts.minimumTrades.value else 1
  }

  type FeeDivisor = d: int | 98 <= d <= 100 witness 98
  type Die = d: int | 1 <= d <= 100 witness 1

  /** The random draws, indexed by (position of the order, trade number): the price bump,
      a real between 0.00001 and 0.0001 rounded to five places; the fuzzy rate, a real
      between half and twice the fill rate; the fee divisor; and the dice roll. */
  datatype Rolls = Rolls(
    priceBump: (nat, nat) -> real,
    fuzzyRate: (nat, nat) -> real,
    feeDivisor: (nat, nat) -> FeeDivisor,
    dice: (nat, nat) -> Die)

  /** The amount of the next fill: the amount divided by the fuzzy rate, capped at what
      is still unfilled, with a rate of 0 read as 1. */
  function NextFillAmount(filled: real, amount: real, fuzzyRate: real): (r: real)
    requires fuzzyRate != 0.0
    ensures r <= amount - filled
    ensures fuzzyRate == 1.0 && filled >= 0.0 ==> r == amount - filled
  {
    var wanted := amount / fuzzyRate;
    if wanted <= amount - filled then wanted else amount - filled
  }

  function FuzzyRate(rate: real, draw: real): real {
    if rate == 0.0 then 1.0 else draw
  }

  /** Sum of trade amounts. */
  function SumAmounts(trades: seq<FakeTrade>): real {
    if |trades| == 0 then 0.0 else SumAmounts(trades[..|trades| - 1]) + trades[|trades| - 1].amount
  }

  /** Currency of a simulated trade's fee: the base of the symbol for buys, the quote
      otherwise. */
  function FeeCurrency(o: FakeOrder): Option<string> {
    var (base, quote) := SymbolParts(o.symbol);
    if o.side == "buy" then Some(base) else quote
  }

  /** The draws for order position `k` are usable: a non-zero fuzzy rate when the rate is
      not 0 (`_.random` between rate/2 and 2·rate never returns 0). */
  ghost predicate RatesUsable(rolls: Rolls, opts: SimOptions, k: nat) {
    Rate(opts) != 0.0 ==> forall j: nat :: rolls.fuzzyRate(k, j) != 0.0
  }

  /** Every trade refers to the order and carries consecutive trade ids. */
  predicate Linked(o: FakeOrder, trades: seq<FakeTrade>, firstTradeId: nat) {
    forall i :: 0 <= i < |trades| ==>
      && trades[i].order == o.id && trades[i].symbol == o.symbol && trades[i].side == o.side
      && trades[i].id == DecimalText(firstTradeId + i)
  }

  /** Every trade takes at most what remained of the order before it. */
  predicate Bounded(o: FakeOrder, trades: seq<FakeTrade>) {
    |trades| == 0 ||
    var before := trades[..|trades| - 1];
    Bounded(o, before) && trades[|trades| - 1].amount <= o.amount - (o.filled + SumAmounts(before))
  }

  /** The fields trade simulation never changes. */
  predicate Fixed(r: FakeOrder, o: FakeOrder) {
    r.id == o.id && r.timestamp == o.timestamp && r.symbol == o.symbol && r.side == o.side
    && r.price == o.price && r.amount == o.amount
  }

  /** The trades generated for one open order (the inner `while`), at most 50. Every
      trade refers to the order and takes at most what remains; after each one
      `remaining = amount − filled`; the order closes exactly when filled reaches amount. */
  method FillOrder(o: FakeOrder, k: nat, opts: SimOptions, rolls: Rolls, firstTradeId: nat, now: int)
    returns (r: FakeOrder, trades: seq<FakeTrade>)
    requires o.status == Open
    requires RatesUsable(rolls, opts, k)
    ensures 1 <= |trades| <= 50
    ensures Linked(o, trades, firstTradeId) && Bounded(o, trades)
    ensures r.filled == o.filled + SumAmounts(trades)
    ensures r.remaining == r.amount - r.filled
    ensures r.status == Closed <==> r.filled == r.amount
    ensures r.lastTradeTimestamp == Some(now)
    ensures Fixed(r, o)
    ensures o.filled <= o.amount ==> r.filled <= r.amount
    ensures Rate(opts) == 0.0 && o.filled >= 0.0 ==> |trades| == 1 && r.status == Closed
  {
    r := o;
    trades := [];
    while |trades| < 50
      invariant |trades| <= 50
      invariant Linked(o, trades, firstTradeId) && Bounded(o, trades)
      invariant r.filled == o.filled + SumAmounts(trades)
      invariant Fixed(r, o) && r.status == Open
      invariant |trades| >= 1 ==> r.remaining == r.amount - r.filled && r.lastTradeTimestamp == Some(now) && r.filled != r.amount
      invariant o.filled <= o.amount ==> r.filled <= r.amount
      invariant Rate(opts) == 0.0 && o.filled >= 0.0 ==> |trades| == 0
    {
      var step := |trades|;
      r, trades := AppendTrade(o, r, trades, k, opts, rolls, firstTradeId, now);
      if r.filled == r.amount {
        r := r.(status := Closed);
        break;
      }
      if TradeChance(opts) < rolls.dice(k, step) as real && |trades| >= MinimumTrades(opts) {
        break;
      }
    }
  }

  /** One pass of the inner loop up to its exit tests: the next trade is appended and the
      order's filled, remaining and last-trade fields follow it. */
  method AppendTrade(o: FakeOrder, r: FakeOrder, trades: seq<FakeTrade>, k: nat, opts: SimOptions, rolls: Rolls,
                     firstTradeId: nat, now: int)
    returns (r': FakeOrder, trades': seq<FakeTrade>)
    requires RatesUsable(rolls, opts, k)
    requires Linked(o, trades, firstTradeId) && Bounded(o, trades)
    requires r.filled == o.filled + SumAmounts(trades) && Fixed(r, o)
    requires o.filled <= o.amount ==> r.filled <= r.amount
    ensures |trades'| == |trades| + 1 && trades'[..|trades|] == trades
    ensures Linked(o, trades', firstTradeId) && Bounded(o, trades')
    ensures r'.filled == o.filled + SumAmounts(trades') && Fixed(r', o) && r'.status == r.status
    ensures r'.remaining == r'.amount - r'.filled && r'.lastTradeTimestamp == Some(now)
    ensures o.filled <= o.amount ==> r'.filled <= r'.amount
    ensures Rate(opts) == 0.0 && o.filled >= 0.0 && |trades| == 0 ==> r'.filled == r'.amount
  {
    var step := |trades|;
    var trade := NextTrade(r, k, step, opts, rolls, firstTradeId + step, now);
    AmountBoundsExtend(o, trades, trade);
    SumAmountsSnoc(trades, trade);
    trades' := trades + [trade];
    assert trades'[..|trades|] == trades;
    r' := r.(filled := r.filled + trade.amount, remaining := r.amount - (r.filled + trade.amount), lastTradeTimestamp := Some(now));
  }

  /** `_calculateNextFill` and the trade built from it at `step`, for the order in its
      current state: price bumped, amount capped to what remains, fee of
      price × amount / divisor charged in the symbol's base (buy) or quote currency. */
  method NextTrade(r: FakeOrder, k: nat, step: nat, opts: SimOptions, rolls: Rolls, tradeId: nat, now: int) returns (t: FakeTrade)
    requires Rate(opts) != 0.0 ==> rolls.fuzzyRate(k, step) != 0.0
    ensures t.order == r.id && t.symbol == r.symbol && t.side == r.side && t.id == DecimalText(tradeId)
    ensures t.amount <= r.amount - r.filled
    ensures Rate(opts) == 0.0 && r.filled >= 0.0 ==> t.amount == r.amount - r.filled
    ensures t.price == r.price + rolls.priceBump(k, step) && t.timestamp == now
    ensures t.fee == TradeFee(FeeOf(t.price, t.amount, rolls.feeDivisor(k, step)), FeeCurrency(r))
  {
    var price := r.price + rolls.priceBump(k, step);
    var amount := NextFillAmount(r.filled, r.amount, FuzzyRate(Rate(opts), rolls.fuzzyRate(k, step)));
    var fee := FeeOf(price, amount, rolls.feeDivisor(k, step));
    t := FakeTrade(DecimalText(tradeId), now, r.symbol, r.id, r.side, amount, price, price * amount + fee, TradeFee(fee, FeeCurrency(r)));
  }

  /** A simulated trade's fee: its value over the drawn divisor. */
  function FeeOf(price: real, amount: real, divisor: FeeDivisor): real {
    price * amount / (divisor as real)
  }

  lemma SumAmountsSnoc(trades: seq<FakeTrade>, t: FakeTrade)
    ensures SumAmounts(trades + [t]) == SumAmounts(trades) + t.amount
  {
    assert (trades + [t])[..|trades|] == trades;
  }

  lemma AmountBoundsExtend(o: FakeOrder, trades: seq<FakeTrade>, t: FakeTrade)
    requires Bounded(o, trades)
    requires t.amount <= o.amount - (o.filled + SumAmounts(trades))
    ensures Bounded(o, trades + [t])
  {
    assert (trades + [t])[..|trades|] == trades;
  }

  /** What one call does to one order. */
  predicate OrderOutcome(before: FakeOrder, after: FakeOrder, opts: SimOptions) {
    if before.status == Closed then after == before
    else if opts.forceFailure then after == before.(status := Closed)
    else
      && after.remaining == after.amount - after.filled
      && (after.status == Closed <==> after.filled == after.amount)
      && (before.filled <= before.amount ==> after.filled <= after.amount)
      && (Rate(opts) == 0.0 && before.filled >= 0.0 ==> after.status == Closed && after.filled == after.amount)
      && Fixed(after, before)
  }

  /** Ids of the orders that are open. */
  function OpenIds(orders: seq<FakeOrder>): set<string> {
    set i | 0 <= i < |orders| && orders[i].status == Open :: orders[i].id
  }

  /** One iteration of the outer `for`: closed orders are skipped, `force_failure`
      closes an open order without a trade, otherwise its trades are generated. */
  method ProcessOrder(o: FakeOrder, k: nat, opts: SimOptions, rolls: Rolls, firstTradeId: nat, now: int)
    returns (r: FakeOrder, added: seq<FakeTrade>)
    requires RatesUsable(rolls, opts, k)
    ensures OrderOutcome(o, r, opts)
    ensures o.status == Closed || opts.forceFailure ==> added == []
    ensures Linked(o, added, firstTradeId)
  {
    r, added := o, [];
    if o.status == Open {
      if opts.forceFailure {
        r := o.(status := Closed);
      } else {
        r, added := FillOrder(o, k, opts, rolls, firstTradeId, now);
      }
    }
  }

  /** Appending one order's trades keeps every new trade linked to an open order and
      numbered consecutively. */
  lemma AppendLinked(orders: seq<FakeOrder>, k: nat, old0: seq<FakeTrade>, trades: seq<FakeTrade>, added: seq<FakeTrade>, firstId: nat)
    requires k < |orders| && orders[k].status == Open
    requires |trades| >= |old0|
    requires forall j :: |old0| <= j < |trades| ==>
      trades[j].order in OpenIds(orders) && trades[j].id == DecimalText(firstId + (j - |old0|))
    requires Linked(orders[k], added, firstId + (|trades| - |old0|))
    ensures forall j :: |old0| <= j < |trades + added| ==>
      (trades + added)[j].order in OpenIds(orders) && (trades + added)[j].id == DecimalText(firstId + (j - |old0|))
  {
    assert orders[k].id in OpenIds(orders);
    forall j | |old0| <= j < |trades + added|
      ensures (trades + added)[j].order in OpenIds(orders) && (trades + added)[j].id == DecimalText(firstId + (j - |old0|))
    {
      if j >= |trades| {
        assert (trades + added)[j] == added[j - |trades|];
      } else {
        assert (trades + added)[j] == trades[j];
      }
    }
  }

  /** `simulateTrades(options)`: only open orders are touched; with `force_failure` each is
      closed without a trade; otherwise trades are generated for it and appended, each
      referring to an order that was open, with consecutive trade ids. */
  method SimulateTrades(s: FakeState, opts: SimOptions, rolls: Rolls, now: int) returns (r: FakeState)
    requires forall k: nat :: RatesUsable(rolls, opts, k)
    ensures r.markets == s.markets && r.nextOrderId == s.nextOrderId
    ensures |r.orders| == |s.orders|
    ensures forall i :: 0 <= i < |s.orders| ==> OrderOutcome(s.orders[i], r.orders[i], opts)
    ensures |r.trades| >= |s.trades| && r.trades[..|s.trades|] == s.trades
    ensures opts.forceFailure ==> r.trades == s.trades
    ensures r.nextTradeId == s.nextTradeId + (|r.trades| - |s.trades|)
    ensures forall j :: |s.trades| <= j < |r.trades| ==>
      r.trades[j].order in OpenIds(s.orders) && r.trades[j].id == DecimalText(s.nextTradeId + (j - |s.trades|))
  {
    var orders := s.orders;
    var trades := s.trades;
    var i := 0;
    while i < |orders|
      invariant 0 <= i <= |orders| == |s.orders|
      invariant forall j :: 0 <= j < i ==> OrderOutcome(s.orders[j], orders[j], opts)
      invariant forall j :: i <= j < |orders| ==> orders[j] == s.orders[j]
      invariant |trades| >= |s.trades| && trades[..|s.trades|] == s.trades
      invariant opts.forceFailure ==> trades == s.trades
      invariant forall j :: |s.trades| <= j < |trades| ==>
        trades[j].order in OpenIds(s.orders) && trades[j].id == DecimalText(s.nextTradeId + (j - |s.trades|))
    {
      var updated, added := ProcessOrder(orders[i], i, opts, rolls, s.nextTradeId + (|trades| - |s.trades|), now);
      if added != [] {
        AppendLinked(s.orders, i, s.trades, trades, added, s.nextTradeId);
      }
      assert (trades + added)[..|s.trades|] == s.trades;
      trades := trades + added;
      orders := orders[i := updated];
      i := i + 1;
    }
    r := s.(orders := orders, trades := trades, nextTradeId := s.nextTradeId + (|trades| - |s.trades|));
  }
}
