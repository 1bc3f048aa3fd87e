/** The execution-order reconciler of `jobs/exec-order-fill-fetcher.js`. Each Placed or
    PartiallyFilled order is brought in line with what its exchange reports: through
    trade history, through the exchange order's cumulative `filled`, or, for simulated
    investment runs, through one fill priced from the latest stored ask/bid. Every path
    ends in the final status step (`updateOrderStatus`), so a run is modelled as
    `Finalise(Sync(...))`. The store, the exchange and the random fee divisor are inputs. */
module Reconciler {
  import opened Wrappers
  import opened Domain
  import opened Seqs

  /** Store operations that can fail; a failing one behaves as a rejected query. */
  datatype StoreStep =
    | ReadFills        // fill listing before the trade sync
    | SumFills         // fill sum in the tradeless sync
    | SaveFills        // fill creation (bulk or single)
    | SumForStatus     // fill sum in the final status step
    | SpreadFees       // the fee redistribution UPDATE
    | ReadMarketData   // latest ask/bid for the simulated fill

  /** The exchange connector's `has` flags that select a path. */
  datatype Capabilities = Capabilities(fetchOrder: bool, fetchOpenOrders: bool, fetchOrders: bool, fetchTrades: bool)

  datatype RemoteStatus = Open | Closed | Canceled

  /** The exchange's view of one order. */
  datatype RemoteOrder = RemoteOrder(
    id: string,
    status: RemoteStatus,
    filled: real,
    remaining: real,
    price: Option<real>,
    average: Option<real>,
    fee: Option<FeeInfo>)

  /** One entry of `fetchMyTrades`. */
  datatype Trade = Trade(
    id: string,
    order: Option<string>,
    timestamp: Option<int>,
    amount: real,
    price: Option<real>,
    fee: Option<FeeInfo>)

  datatype Quote = Quote(askPrice: real, bidPrice: real)

  /** Everything the outside world answers while one order is processed. */
  datatype Environment = Environment(
    simulated: Result<bool, string>,                 // isSimulated query
    connector: Result<Option<Capabilities>, string>, // getConnector
    fetchById: Result<Option<RemoteOrder>, string>,  // exchange.fetchOrder
    trades: Result<seq<Trade>, string>,              // exchange.fetchMyTrades
    marketData: Option<Quote>,                       // newest InstrumentMarketData row
    feeDivisor: int,                                 // _.random(98, 100)
    faults: set<StoreStep>,
    now: int)

  /** An order together with its recorded fills. */
  datatype Snapshot = Snapshot(order: ExecutionOrder, fills: seq<Fill>)

  /** The state handed to the final status step, and whether an error path was taken. */
  datatype Step = Step(snap: Snapshot, errored: bool)

  /** The job's query: only these orders are reconciled. */
  predicate Selected(o: ExecutionOrder) {
    (o.status.Placed? || o.status.PartiallyFilled?) && o.placedTimestamp.Some? && o.externalIdentifier.Some?
  }

  function SelectForReconcile(orders: seq<ExecutionOrder>): (r: seq<ExecutionOrder>)
    ensures forall i :: 0 <= i < |r| ==> r[i] in orders && Selected(r[i])
    ensures forall i :: 0 <= i < |orders| && Selected(orders[i]) ==> orders[i] in r
  {
    Filter(orders, Selected)
  }

  function FailOnce(s: Snapshot): Step {
    Step(s.(order := s.order.(failedAttempts := s.order.failedAttempts + 1)), true)
  }

  // ---------------------------------------------------------------------------
  // Final status step (updateOrderStatus)

  /** Every fill's fee becomes `fee × quantity / sum`. */
  function SpreadFee(fills: seq<Fill>, fee: real, sum: real): (r: seq<Fill>)
    requires sum != 0.0
    ensures |r| == |fills|
    ensures forall i :: 0 <= i < |r| ==> r[i] == Charge(fills[i], fee, sum)
  {
    if |fills| == 0 then []
    else SpreadFee(fills[..|fills| - 1], fee, sum) + [Charge(fills[|fills| - 1], fee, sum)]
  }

  /** One fill's share of the order fee. */
  function Charge(f: Fill, fee: real, sum: real): Fill
    requires sum != 0.0
  {
    f.(fee := Some(Share(fee, f.quantity, sum)))
  }

  /** The part of `fee` owed by `quantity` out of `sum`. */
  function Share(fee: real, quantity: real, sum: real): real
    requires sum != 0.0
  {
    fee * quantity / sum
  }

  lemma ShareAdd(fee: real, a: real, b: real, sum: real)
    requires sum != 0.0
    ensures Share(fee, a, sum) + Share(fee, b, sum) == Share(fee, a + b, sum)
  {
    assert fee * (a + b) == fee * a + fee * b;
  }

  lemma ShareWhole(fee: real, sum: real)
    requires sum != 0.0
    ensures Share(fee, sum, sum) == fee
  {
  }

  lemma SpreadFeeTotal(fills: seq<Fill>, fee: real, sum: real)
    requires sum != 0.0
    ensures SumFees(SpreadFee(fills, fee, sum)) == Share(fee, SumQuantities(fills), sum)
  {
    var g := (q: real) => Share(fee, q, sum);
    forall a: real, b: real ensures g(a) + g(b) == g(a + b) {
      ShareAdd(fee, a, b, sum);
    }
    SpreadFeeIsCharged(fills, fee, sum);
    ChargedAdditive(fills, g);
  }

  /** Sum of `g` over the fills' quantities. */
  function SumCharged(fills: seq<Fill>, g: real -> real): real {
    if |fills| == 0 then 0.0 else SumCharged(fills[..|fills| - 1], g) + g(fills[|fills| - 1].quantity)
  }

  /** The spread fees are the order fee's share of each fill's quantity. */
  lemma {:induction false} SpreadFeeIsCharged(fills: seq<Fill>, fee: real, sum: real)
    requires sum != 0.0
    ensures SumFees(SpreadFee(fills, fee, sum)) == SumCharged(fills, (q: real) => Share(fee, q, sum))
  {
    if |fills| > 0 {
      SpreadFeeIsCharged(fills[..|fills| - 1], fee, sum);
      var r := SpreadFee(fills, fee, sum);
      assert r[..|r| - 1] == SpreadFee(fills[..|fills| - 1], fee, sum);
    }
  }

  /** An additive charge summed over the fills is the charge of their total quantity. */
  lemma {:induction false} ChargedAdditive(fills: seq<Fill>, g: real -> real)
    requires forall a: real, b: real :: g(a) + g(b) == g(a + b)
    ensures SumCharged(fills, g) == g(SumQuantities(fills))
  {
    if |fills| == 0 {
      assert g(0.0) + g(0.0) == g(0.0 + 0.0);
    } else {
      var init := fills[..|fills| - 1];
      ChargedAdditive(init, g);
      assert g(SumQuantities(init)) + g(fills[|fills| - 1].quantity) == g(SumQuantities(init) + fills[|fills| - 1].quantity);
    }
  }

  /** Fee pro-ration: once spread over the fills by their quantity share, the fills' fees
      add up to the order's fee, and the fills are otherwise unchanged. */
  lemma FeeSpreadAddsUp(fills: seq<Fill>, fee: real)
    requires SumQuantities(fills) != 0.0
    ensures SumFees(SpreadFee(fills, fee, SumQuantities(fills))) == fee
    ensures SumQuantities(SpreadFee(fills, fee, SumQuantities(fills))) == SumQuantities(fills)
  {
    var sum := SumQuantities(fills);
    SpreadFeeTotal(fills, fee, sum);
    ShareWhole(fee, sum);
    SpreadKeepsQuantities(fills, fee, sum);
  }

  lemma {:induction false} SpreadKeepsQuantities(fills: seq<Fill>, fee: real, sum: real)
    requires sum != 0.0
    ensures SumQuantities(SpreadFee(fills, fee, sum)) == SumQuantities(fills)
  {
    if |fills| > 0 {
      SpreadKeepsQuantities(fills[..|fills| - 1], fee, sum);
      var r := SpreadFee(fills, fee, sum);
      assert r[..|r| - 1] == SpreadFee(fills[..|fills| - 1], fee, sum);
    }
  }

  /** `updateOrderStatus`: beyond the tolerance the order is Failed and nothing else
      happens; otherwise the fill sum is read (a failure adds an attempt and leaves the
      sum undefined), an emulated-fill order's fee is spread over its fills, and a Placed
      order with a positive fill sum becomes PartiallyFilled. */
  function Finalise(s: Snapshot, tolerance: int, faults: set<StoreStep>): (r: Snapshot)
    ensures s.order.failedAttempts > tolerance ==> r == Snapshot(s.order.(status := ExecStatus.Failed), s.fills)
    ensures s.order.failedAttempts <= tolerance ==>
      r.order.failedAttempts == s.order.failedAttempts + (if SumForStatus in faults then 1 else 0)
    ensures |r.fills| == |s.fills|
    ensures forall i :: 0 <= i < |r.fills| ==> r.fills[i] == s.fills[i].(fee := r.fills[i].fee)
    ensures r.order.(status := s.order.status, failedAttempts := s.order.failedAttempts) == s.order
  {
    var o := s.order;
    if o.failedAttempts > tolerance then Snapshot(o.(status := ExecStatus.Failed), s.fills)
    else if SumForStatus in faults then Snapshot(o.(failedAttempts := o.failedAttempts + 1), s.fills)
    else
      var sum := SumQuantities(s.fills);
      var fills := if o.emulatedFills && sum != 0.0 && Truthy(o.fee) && SpreadFees !in faults
                   then SpreadFee(s.fills, o.fee.value, sum) else s.fills;
      var status := if sum > 0.0 && o.status.Placed? then PartiallyFilled else o.status;
      Snapshot(o.(status := status), fills)
  }

  /** The failure threshold is strict, overrides fill progress, and otherwise only promotes
      Placed to PartiallyFilled once something is filled. */
  lemma FinaliseStatus(s: Snapshot, tolerance: int, faults: set<StoreStep>)
    ensures s.order.failedAttempts > tolerance ==> Finalise(s, tolerance, faults).order.status.Failed?
    ensures s.order.failedAttempts <= tolerance && !s.order.status.Failed? ==>
      !Finalise(s, tolerance, faults).order.status.Failed?
    ensures (s.order.failedAttempts <= tolerance && s.order.status.Placed? && SumForStatus !in faults
             && SumQuantities(s.fills) > 0.0) ==> Finalise(s, tolerance, faults).order.status.PartiallyFilled?
    ensures s.order.failedAttempts <= tolerance && !s.order.status.Placed? ==>
      Finalise(s, tolerance, faults).order.status == s.order.status
  {
  }

  /** After the final step of an emulated-fill order with a fee and a positive fill sum,
      the fills' fees add up to the order fee. */
  lemma FinaliseSpreadsFee(s: Snapshot, tolerance: int, faults: set<StoreStep>)
    requires s.order.failedAttempts <= tolerance
    requires SumForStatus !in faults && SpreadFees !in faults
    requires s.order.emulatedFills && Truthy(s.order.fee) && SumQuantities(s.fills) > 0.0
    ensures SumFees(Finalise(s, tolerance, faults).fills) == s.order.fee.value
  {
    FeeSpreadAddsUp(s.fills, s.order.fee.value);
  }

  // ---------------------------------------------------------------------------
  // Simulated fill (simulateFill)

  /** Sell orders are filled at the bid, everything else at the ask. */
  function SimulatedPrice(side: OrderSide, q: Quote): real {
    if side.Sell? then q.bidPrice else q.askPrice
  }

  /** `simulateFill` up to the final step: one fill of the whole quantity at the latest
      bid (Sell) or ask (otherwise), with a fee of price / divisor, and the order marked
      FullyFilled; missing market data or a failing store adds one failed attempt. */
  function SimulateFill(s: Snapshot, quoteAssetId: int, env: Environment): (r: Step)
    requires 98 <= env.feeDivisor <= 100
    ensures r.errored <==> ReadMarketData in env.faults || env.marketData.None? || SaveFills in env.faults
    ensures r.errored ==> r.snap == FailOnce(s).snap
    ensures !r.errored ==>
      var price := SimulatedPrice(s.order.side, env.marketData.value);
      && r.snap.fills == s.fills + [Fill(s.order.id, env.now, s.order.totalQuantity, price,
                                         Some(price / env.feeDivisor as real), None, Some(quoteAssetId), None)]
      && r.snap.order == s.order.(fee := Some(price / env.feeDivisor as real), status := FullyFilled,
                                  completedTimestamp := Some(env.now))
  {
    if ReadMarketData in env.faults || env.marketData.None? then FailOnce(s)
    else
      var price := SimulatedPrice(s.order.side, env.marketData.value);
      var fee := price / env.feeDivisor as real;
      if SaveFills in env.faults then FailOnce(s)
      else
        var fill := Fill(s.order.id, env.now, s.order.totalQuantity, price, Some(fee), None, Some(quoteAssetId), None);
        Step(Snapshot(s.order.(fee := Some(fee), status := FullyFilled, completedTimestamp := Some(env.now)),
                      s.fills + [fill]), false)
  }

  // ---------------------------------------------------------------------------
  // Tradeless sync (handleFillsWithoutTrades)

  /** Order fields taken over from the exchange order: the emulated-fills flag, its fee
      when it reports one, and its average (else last) price when it reports a price. */
  function AdoptRemote(o: ExecutionOrder, remote: RemoteOrder): ExecutionOrder {
    var withFee := if remote.fee.Some? then o.(emulatedFills := true, fee := Some(remote.fee.value.cost))
                   else o.(emulatedFills := true);
    if Truthy(remote.price)
    then withFee.(price := if Truthy(remote.average) then remote.average.value else remote.price.value)
    else withFee
  }

  /** `handleFillsWithoutTrades` up to the final step: when the exchange's cumulative
      `filled` exceeds the recorded sum, exactly one fill for the difference is added. */
  function SyncWithoutTrades(s: Snapshot, remote: RemoteOrder, quoteAssetId: int, env: Environment): (r: Step)
    ensures r.snap.order.emulatedFills
    ensures r.errored <==> SumFills in env.faults || (remote.filled > SumQuantities(s.fills) && SaveFills in env.faults)
    ensures r.snap.order.failedAttempts == s.order.failedAttempts + (if r.errored then 1 else 0)
    ensures r.errored ==> r.snap.fills == s.fills
    ensures !r.errored && remote.filled > SumQuantities(s.fills) ==>
      |r.snap.fills| == |s.fills| + 1 && r.snap.fills[..|s.fills|] == s.fills
      && r.snap.fills[|s.fills|].quantity == remote.filled - SumQuantities(s.fills)
      && r.snap.fills[|s.fills|].price == r.snap.order.price
    ensures !r.errored && remote.filled <= SumQuantities(s.fills) ==> r.snap.fills == s.fills
    ensures r.snap.order.status == s.order.status && r.snap.order.completedTimestamp == s.order.completedTimestamp
  {
    var o := AdoptRemote(s.order, remote);
    if SumFills in env.faults then FailOnce(Snapshot(o, s.fills))
    else
      var sum := SumQuantities(s.fills);
      if remote.filled > sum then
        if SaveFills in env.faults then FailOnce(Snapshot(o, s.fills))
        else
          var fill := Fill(o.id, env.now, remote.filled - sum, o.price, None,
                           if remote.fee.Some? then Some(remote.fee.value.currency) else None,
                           if remote.fee.Some? then None else Some(quoteAssetId), None);
          Step(Snapshot(o, s.fills + [fill]), false)
      else Step(Snapshot(o, s.fills), false)
  }

  /** The tradeless sync leaves the recorded sum at max(old sum, exchange `filled`). */
  lemma TradelessSumIsMax(s: Snapshot, remote: RemoteOrder, quoteAssetId: int, env: Environment)
    requires SumFills !in env.faults && SaveFills !in env.faults
    ensures var after := SumQuantities(SyncWithoutTrades(s, remote, quoteAssetId, env).snap.fills);
      after == if remote.filled > SumQuantities(s.fills) then remote.filled else SumQuantities(s.fills)
  {
    var r := SyncWithoutTrades(s, remote, quoteAssetId, env);
    if remote.filled > SumQuantities(s.fills) {
      assert r.snap.fills == s.fills + [r.snap.fills[|s.fills|]];
      SumQuantitiesAppend(s.fills, [r.snap.fills[|s.fills|]]);
      assert SumQuantities([r.snap.fills[|s.fills|]]) == r.snap.fills[|s.fills|].quantity;
    }
  }

  /** A second tradeless sync against the same exchange order creates nothing. */
  lemma TradelessIdempotent(s: Snapshot, remote: RemoteOrder, quoteAssetId: int, env: Environment)
    requires SumFills !in env.faults && SaveFills !in env.faults
    ensures var once := SyncWithoutTrades(s, remote, quoteAssetId, env).snap;
      SyncWithoutTrades(once, remote, quoteAssetId, env).snap.fills == once.fills
  {
    TradelessSumIsMax(s, remote, quoteAssetId, env);
  }

  // ---------------------------------------------------------------------------
  // Trade-based sync (handleFillsWithTrades)

  /** External ids of the recorded fills. */
  function RecordedIds(fills: seq<Fill>): set<string> {
    set i | 0 <= i < |fills| && fills[i].externalIdentifier.Some? :: fills[i].externalIdentifier.value
  }

  /** A trade whose order reference is present and non-empty, i.e. truthy. */
  predicate HasOrderReference(t: Trade) {
    t.order.Some? && t.order.value != ""
  }

  /** The trades linked to the order and not yet recorded as fills. Absent references
      compare equal here, where the source's `undefined === null` does not; the orders
      reconciled all carry an external identifier, so the two never meet. */
  function NewTrades(trades: seq<Trade>, externalId: Option<string>, fills: seq<Fill>): (r: seq<Trade>)
    ensures forall i :: 0 <= i < |r| ==> r[i] in trades && r[i].order == externalId && r[i].id !in RecordedIds(fills)
    ensures forall i :: (0 <= i < |trades| && trades[i].order == externalId && trades[i].id !in RecordedIds(fills))
                        ==> trades[i] in r
  {
    Filter(Filter(trades, LinkedTo(externalId)), Unrecorded(RecordedIds(fills)))
  }

  function LinkedTo(externalId: Option<string>): Trade -> bool {
    (t: Trade) => t.order == externalId
  }

  function Unrecorded(ids: set<string>): Trade -> bool {
    (t: Trade) => t.id !in ids
  }

  /** The fill recorded for one trade. */
  function TradeFill(o: ExecutionOrder, t: Trade, now: int): Fill {
    Fill(o.id,
         if t.timestamp.Some? && t.timestamp.value != 0 then t.timestamp.value else now,
         t.amount,
         if Truthy(t.price) then t.price.value else o.price,
         Some(if t.fee.Some? then t.fee.value.cost else 0.0),
         if t.fee.Some? then Some(t.fee.value.currency) else None,
         None,
         Some(t.id))
  }

  function TradeFills(o: ExecutionOrder, trades: seq<Trade>, now: int): (r: seq<Fill>)
    ensures |r| == |trades|
    ensures forall i :: 0 <= i < |r| ==> r[i] == TradeFill(o, trades[i], now)
  {
    if |trades| == 0 then [] else TradeFills(o, trades[..|trades| - 1], now) + [TradeFill(o, trades[|trades| - 1], now)]
  }

  /** Sum of the trades' fee costs, a missing fee counting as 0. */
  function TradeFees(trades: seq<Trade>): real {
    if |trades| == 0 then 0.0
    else TradeFees(trades[..|trades| - 1]) + (if trades[|trades| - 1].fee.Some? then trades[|trades| - 1].fee.value.cost else 0.0)
  }

  lemma {:induction false} TradeFillsFees(o: ExecutionOrder, trades: seq<Trade>, now: int)
    ensures SumFees(TradeFills(o, trades, now)) == TradeFees(trades)
  {
    if |trades| > 0 {
      TradeFillsFees(o, trades[..|trades| - 1], now);
      var r := TradeFills(o, trades, now);
      assert r[..|r| - 1] == TradeFills(o, trades[..|trades| - 1], now);
    }
  }

  lemma {:induction false} TradeFillsIds(o: ExecutionOrder, trades: seq<Trade>, now: int)
    ensures RecordedIds(TradeFills(o, trades, now)) == set i | 0 <= i < |trades| :: trades[i].id
  {
    var r := TradeFills(o, trades, now);
    forall x | x in RecordedIds(r) ensures x in set i | 0 <= i < |trades| :: trades[i].id {
      var i :| 0 <= i < |r| && r[i].externalIdentifier == Some(x);
      assert trades[i].id == x;
    }
    forall x | x in set i | 0 <= i < |trades| :: trades[i].id ensures x in RecordedIds(r) {
      var i :| 0 <= i < |trades| && trades[i].id == x;
      assert r[i].externalIdentifier == Some(x);
    }
  }

  lemma RecordedIdsAppend(a: seq<Fill>, b: seq<Fill>)
    ensures RecordedIds(a + b) == RecordedIds(a) + RecordedIds(b)
  {
    var ab := a + b;
    forall x | x in RecordedIds(ab) ensures x in RecordedIds(a) + RecordedIds(b) {
      var i :| 0 <= i < |ab| && ab[i].externalIdentifier == Some(x);
      if i < |a| { assert a[i] == ab[i]; } else { assert b[i - |a|] == ab[i]; }
    }
    forall x | x in RecordedIds(a) ensures x in RecordedIds(ab) {
      var i :| 0 <= i < |a| && a[i].externalIdentifier == Some(x);
      assert ab[i] == a[i];
    }
    forall x | x in RecordedIds(b) ensures x in RecordedIds(ab) {
      var i :| 0 <= i < |b| && b[i].externalIdentifier == Some(x);
      assert ab[|a| + i] == b[i];
    }
  }

  /** `handleFillsWithTrades` up to the final step, with the fee accumulated only once
      the new fills are saved. The listed trades are the exchange's answer to
      `fetchMyTrades(symbol, since)`. Without trades, or with nothing new, nothing
      changes; when the trades carry no order reference the tradeless sync runs. */
  function SyncWithTrades(s: Snapshot, remote: RemoteOrder, quoteAssetId: int, env: Environment): (r: Step)
    ensures (ReadFills !in env.faults && env.trades.Ok? && |env.trades.value| > 0
             && HasOrderReference(env.trades.value[0]) && SaveFills !in env.faults) ==>
      var unseen := NewTrades(env.trades.value, s.order.externalIdentifier, s.fills);
      && !r.errored
      && r.snap.fills == s.fills + TradeFills(s.order, unseen, env.now)
      && (|unseen| > 0 ==> r.snap.order == s.order.(fee := Some(OrZero(s.order.fee) + TradeFees(unseen))))
      && (|unseen| == 0 ==> r.snap.order == s.order)
    ensures r.snap.order.failedAttempts == s.order.failedAttempts + (if r.errored then 1 else 0)
    ensures r.errored && (ReadFills in env.faults || env.trades.Err?) ==> r.snap == FailOnce(s).snap
    ensures r.snap.order.status == s.order.status && r.snap.order.completedTimestamp == s.order.completedTimestamp
  {
    if ReadFills in env.faults || env.trades.Err? then FailOnce(s)
    else
      var trades := env.trades.value;
      if |trades| == 0 then Step(s, false)
      else if !HasOrderReference(trades[0]) then SyncWithoutTrades(s, remote, quoteAssetId, env)
      else
        var unseen := NewTrades(trades, s.order.externalIdentifier, s.fills);
        if |unseen| == 0 then Step(s, false)
        else if SaveFills in env.faults then FailOnce(s)
        else
          var o := s.order.(fee := Some(OrZero(s.order.fee) + TradeFees(unseen)));
          Step(Snapshot(o, s.fills + TradeFills(s.order, unseen, env.now)), false)
  }

  /** The same sync as the source writes it: the order fee grows before the fills are
      saved, and stays grown when saving fails. */
  function SyncWithTradesAsWritten(s: Snapshot, remote: RemoteOrder, quoteAssetId: int, env: Environment): (r: Step)
    ensures r.snap.order.failedAttempts == s.order.failedAttempts + (if r.errored then 1 else 0)
    ensures r.snap.order.status == s.order.status && r.snap.order.completedTimestamp == s.order.completedTimestamp
    ensures (ReadFills !in env.faults && env.trades.Ok? && |env.trades.value| > 0
             && HasOrderReference(env.trades.value[0]) && SaveFills in env.faults) ==>
      var unseen := NewTrades(env.trades.value, s.order.externalIdentifier, s.fills);
      |unseen| > 0 ==>
        r.errored && r.snap.fills == s.fills && r.snap.order.fee == Some(OrZero(s.order.fee) + TradeFees(unseen))
  {
    if ReadFills in env.faults || env.trades.Err? then FailOnce(s)
    else
      var trades := env.trades.value;
      if |trades| == 0 then Step(s, false)
      else if !HasOrderReference(trades[0]) then SyncWithoutTrades(s, remote, quoteAssetId, env)
      else
        var unseen := NewTrades(trades, s.order.externalIdentifier, s.fills);
        if |unseen| == 0 then Step(s, false)
        else
          var o := s.order.(fee := Some(OrZero(s.order.fee) + TradeFees(unseen)));
          if SaveFills in env.faults then FailOnce(Snapshot(o, s.fills))
          else Step(Snapshot(o, s.fills + TradeFills(s.order, unseen, env.now)), false)
  }

  /** As written and corrected, the trade sync agrees whenever the fills are saved. */
  lemma AsWrittenAgreesWhenSaved(s: Snapshot, remote: RemoteOrder, quoteAssetId: int, env: Environment)
    requires SaveFills !in env.faults
    ensures SyncWithTradesAsWritten(s, remote, quoteAssetId, env) == SyncWithTrades(s, remote, quoteAssetId, env)
  {
  }

  /** De-duplication: a second trade sync with the same trades creates no fill and
      leaves the fee alone. */
  lemma TradeSyncIdempotent(s: Snapshot, remote: RemoteOrder, quoteAssetId: int, env: Environment)
    requires ReadFills !in env.faults && SaveFills !in env.faults && env.trades.Ok?
    requires |env.trades.value| > 0 && HasOrderReference(env.trades.value[0])
    ensures var once := SyncWithTrades(s, remote, quoteAssetId, env).snap;
      SyncWithTrades(once, remote, quoteAssetId, env) == Step(once, false)
  {
    var unseen := NewTrades(env.trades.value, s.order.externalIdentifier, s.fills);
    var once := SyncWithTrades(s, remote, quoteAssetId, env).snap;
    assert once.order.externalIdentifier == s.order.externalIdentifier;
    assert once.fills == s.fills + TradeFills(s.order, unseen, env.now);
    NothingNewAfterRecording(env.trades.value, s.order.externalIdentifier, s.fills, s.order, env.now);
  }

  /** Once the new trades' fills are recorded, none of the trades is new any more. */
  lemma NothingNewAfterRecording(trades: seq<Trade>, externalId: Option<string>, fills: seq<Fill>, o: ExecutionOrder, now: int)
    ensures NewTrades(trades, externalId, fills + TradeFills(o, NewTrades(trades, externalId, fills), now)) == []
  {
    var unseen := NewTrades(trades, externalId, fills);
    var after := fills + TradeFills(o, unseen, now);
    RecordedIdsAppend(fills, TradeFills(o, unseen, now));
    TradeFillsIds(o, unseen, now);
    var linked := Filter(trades, LinkedTo(externalId));
    forall i | 0 <= i < |linked| ensures !Unrecorded(RecordedIds(after))(linked[i]) {
      var t := linked[i];
      if t.id !in RecordedIds(fills) {
        var k :| 0 <= k < |trades| && trades[k] == t;
        var j :| 0 <= j < |unseen| && unseen[j] == t;
        assert t.id in set m | 0 <= m < |unseen| :: unseen[m].id;
      }
    }
    FilterNone(linked, Unrecorded(RecordedIds(after)));
  }

  /** With every store write succeeding, the order fee grows by exactly the fees of the
      fills the sync records. */
  lemma TradeSyncFeeMatchesFills(s: Snapshot, remote: RemoteOrder, quoteAssetId: int, env: Environment)
    requires ReadFills !in env.faults && SaveFills !in env.faults && env.trades.Ok?
    requires |env.trades.value| > 0 && HasOrderReference(env.trades.value[0])
    ensures var r := SyncWithTrades(s, remote, quoteAssetId, env).snap;
      SumFees(r.fills) - SumFees(s.fills) == OrZero(r.order.fee) - OrZero(s.order.fee)
  {
    var unseen := NewTrades(env.trades.value, s.order.externalIdentifier, s.fills);
    SumFeesAppend(s.fills, TradeFills(s.order, unseen, env.now));
    TradeFillsFees(s.order, unseen, env.now);
  }

  /** The corrected sync keeps the order fee equal to the recorded fills' fees across a
      failed save followed by a successful retry. */
  lemma TradeSyncRetryKeepsFee(s: Snapshot, remote: RemoteOrder, quoteAssetId: int, env: Environment)
    requires ReadFills !in env.faults && SaveFills in env.faults && env.trades.Ok?
    requires |env.trades.value| > 0 && HasOrderReference(env.trades.value[0])
    ensures var failed := SyncWithTrades(s, remote, quoteAssetId, env).snap;
      var retried := SyncWithTrades(failed, remote, quoteAssetId, env.(faults := env.faults - {SaveFills})).snap;
      SumFees(retried.fills) - SumFees(s.fills) == OrZero(retried.order.fee) - OrZero(s.order.fee)
  {
    var failed := SyncWithTrades(s, remote, quoteAssetId, env).snap;
    assert failed.fills == s.fills && failed.order.fee == s.order.fee;
    TradeSyncFeeMatchesFills(failed, remote, quoteAssetId, env.(faults := env.faults - {SaveFills}));
  }

  /** As written, one trade with fee 1 whose first save fails is charged twice: the order
      fee ends at 2 while the single recorded fill carries a fee of 1. */
  lemma TradeSyncAsWrittenDoubleCharges()
    ensures var o := ExecutionOrder(1, 1, 1, 1, Buy, Market, 1.0, 10.0, Placed, Some("X"), Some(0), None, 0, None, false);
      var t := Trade("t1", Some("X"), Some(5), 1.0, Some(10.0), Some(FeeInfo(1.0, "BTC")));
      var env := Environment(Ok(false), Ok(None), Ok(None), Ok([t]), None, 100, {SaveFills}, 7);
      var remote := RemoteOrder("X", Open, 1.0, 0.0, None, None, None);
      var failed := SyncWithTradesAsWritten(Snapshot(o, []), remote, 2, env).snap;
      var retried := SyncWithTradesAsWritten(failed, remote, 2, env.(faults := {})).snap;
      retried.order.fee == Some(2.0) && SumFees(retried.fills) == 1.0
  {
    var o := ExecutionOrder(1, 1, 1, 1, Buy, Market, 1.0, 10.0, Placed, Some("X"), Some(0), None, 0, None, false);
    var t := Trade("t1", Some("X"), Some(5), 1.0, Some(10.0), Some(FeeInfo(1.0, "BTC")));
    assert RecordedIds([]) == {};
    assert NewTrades([t], Some("X"), []) == [t];
    var tf := TradeFill(o.(fee := Some(1.0)), t, 7);
    assert RecordedIds([]) == {};
    assert TradeFills(o.(fee := Some(1.0)), [t], 7) == [tf];
    assert SumFees([tf]) == SumFees([]) + OrZero(tf.fee);
  }

  // ---------------------------------------------------------------------------
  // Order retrieval (fetchOrderFromExchange, lookup by id only)

  datatype Retrieval = Found(remote: RemoteOrder) | NotFound | FetchFailed | Unspecified

  /** Lookup by id. Paths that reach the fallback through open/all orders (which names an
      undefined `exchnage`) or the no-method branch (which names an undefined
      `ExecutionOrderFill`) throw inside the promise executor and never settle: they are
      `Unspecified`. */
  function FetchOrder(caps: Capabilities, answer: Result<Option<RemoteOrder>, string>): (r: Retrieval)
    ensures caps.fetchOrder && answer.Ok? && answer.value.Some? ==> r == Found(answer.value.value)
    ensures caps.fetchOrder && answer.Err? ==> r == FetchFailed
    ensures r.Found? ==> caps.fetchOrder && answer == Ok(Some(r.remote))
    ensures r.Unspecified? <==> (!caps.fetchOrder && !caps.fetchOrders) || (caps.fetchOpenOrders && !(caps.fetchOrder && answer.Err?) && !(caps.fetchOrder && answer.Ok? && answer.value.Some?))
  {
    if !caps.fetchOrder && !caps.fetchOpenOrders && !caps.fetchOrders then Unspecified
    else if caps.fetchOrder && answer.Err? then FetchFailed
    else if caps.fetchOrder && answer.value.Some? then Found(answer.value.value)
    else if caps.fetchOpenOrders then Unspecified
    else NotFound
  }

  // ---------------------------------------------------------------------------
  // One order (JOB_BODY)

  /** Everything the job does to one order before its final status step, as the source
      writes it. `None` when the source's behaviour is unspecified (see `FetchOrder`). */
  function Sync(s: Snapshot, quoteAssetId: int, env: Environment): (r: Option<Step>)
    requires 98 <= env.feeDivisor <= 100
    ensures r.Some? ==> r.value.snap.order.failedAttempts == s.order.failedAttempts + (if r.value.errored then 1 else 0)
  {
    SyncPass(s, quoteAssetId, env, false)
  }

  /** The same step with the trade sync's fee raised only once the fills are saved. */
  function SyncCorrected(s: Snapshot, quoteAssetId: int, env: Environment): (r: Option<Step>)
    requires 98 <= env.feeDivisor <= 100
    ensures r.Some? ==> r.value.snap.order.failedAttempts == s.order.failedAttempts + (if r.value.errored then 1 else 0)
  {
    SyncPass(s, quoteAssetId, env, true)
  }

  /** The per-order step; `corrected` picks the trade sync. */
  function SyncPass(s: Snapshot, quoteAssetId: int, env: Environment, corrected: bool): (r: Option<Step>)
    requires 98 <= env.feeDivisor <= 100
    ensures r.Some? ==> r.value.snap.order.failedAttempts == s.order.failedAttempts + (if r.value.errored then 1 else 0)
  {
    if env.simulated.Err? then Some(FailOnce(s))
    else if env.simulated.value then Some(SimulateFill(s, quoteAssetId, env))
    else if env.connector.Err? || env.connector.value.None? then Some(FailOnce(s))
    else
      var caps := env.connector.value.value;
      match FetchOrder(caps, env.fetchById)
      case Unspecified => None
      case NotFound => Some(FailOnce(s))
      case FetchFailed => Some(FailOnce(s))
      case Found(remote) =>
        if remote.status.Closed? && remote.remaining > 0.0 then
          Some(Step(s.(order := s.order.(status := ExecStatus.Failed)), false))
        else
          var o := if remote.status.Closed? && remote.remaining == 0.0
                   then s.order.(status := FullyFilled, completedTimestamp := Some(env.now)) else s.order;
          if caps.fetchTrades then
            if corrected then Some(SyncWithTrades(s.(order := o), remote, quoteAssetId, env))
            else Some(SyncWithTradesAsWritten(s.(order := o), remote, quoteAssetId, env))
          else Some(SyncWithoutTrades(s.(order := o), remote, quoteAssetId, env))
  }

  /** The exchange is asked for its trade history, and the first trade it lists carries
      an order reference: the path on which fills are made from trades. */
  predicate TradeHistoryPath(env: Environment) {
    && env.simulated == Ok(false) && env.connector.Ok? && env.connector.value.Some?
    && env.connector.value.value.fetchTrades
    && env.trades.Ok? && |env.trades.value| > 0 && HasOrderReference(env.trades.value[0])
  }

  /** The behaviour is unspecified exactly when a live order's connector sends the lookup
      down a path the source leaves unsettled (see `FetchOrder`). */
  predicate UnsettledLookup(env: Environment) {
    && env.simulated == Ok(false) && env.connector.Ok? && env.connector.value.Some?
    && FetchOrder(env.connector.value.value, env.fetchById).Unspecified?
  }

  /** One order of the job, as the source writes it: the sync followed by the final
      status step. */
  function Reconcile(s: Snapshot, quoteAssetId: int, env: Environment, tolerance: int): (r: Option<Snapshot>)
    requires 98 <= env.feeDivisor <= 100
    ensures r.None? <==> UnsettledLookup(env)
    ensures r.Some? ==>
      var step := Sync(s, quoteAssetId, env).value;
      r.value.order.failedAttempts == s.order.failedAttempts + (if step.errored then 1 else 0)
        + (if step.snap.order.failedAttempts <= tolerance && SumForStatus in env.faults then 1 else 0)
    ensures r.Some? && s.order.failedAttempts > tolerance ==> r.value.order.status.Failed?
    ensures r.Some? ==>
      var step := Sync(s, quoteAssetId, env).value;
      step.snap.order.failedAttempts <= tolerance && !step.snap.order.status.Failed? ==> !r.value.order.status.Failed?
    ensures r.Some? && TradeHistoryPath(env) && SaveFills !in env.faults && !s.order.emulatedFills ==>
      OrZero(r.value.order.fee) - OrZero(s.order.fee) == SumFees(r.value.fills) - SumFees(s.fills)
  {
    var step := Sync(s, quoteAssetId, env);
    if step.None? then None
    else
      TradePassFee(s, quoteAssetId, env, false);
      FinaliseKeepsFees(step.value.snap, tolerance, env.faults);
      Some(Finalise(step.value.snap, tolerance, env.faults))
  }

  /** The job with the corrected trade sync: the same accounting, and on the trade path
      the order fee grows by exactly the fees of the fills recorded, whatever fails. */
  function ReconcileCorrected(s: Snapshot, quoteAssetId: int, env: Environment, tolerance: int): (r: Option<Snapshot>)
    requires 98 <= env.feeDivisor <= 100
    ensures r.None? <==> UnsettledLookup(env)
    ensures r.Some? ==>
      var step := SyncCorrected(s, quoteAssetId, env).value;
      r.value.order.failedAttempts == s.order.failedAttempts + (if step.errored then 1 else 0)
        + (if step.snap.order.failedAttempts <= tolerance && SumForStatus in env.faults then 1 else 0)
    ensures r.Some? && s.order.failedAttempts > tolerance ==> r.value.order.status.Failed?
    ensures r.Some? ==>
      var step := SyncCorrected(s, quoteAssetId, env).value;
      step.snap.order.failedAttempts <= tolerance && !step.snap.order.status.Failed? ==> !r.value.order.status.Failed?
    ensures r.Some? && TradeHistoryPath(env) && !s.order.emulatedFills ==>
      OrZero(r.value.order.fee) - OrZero(s.order.fee) == SumFees(r.value.fills) - SumFees(s.fills)
  {
    var step := SyncCorrected(s, quoteAssetId, env);
    if step.None? then None
    else
      TradePassFee(s, quoteAssetId, env, true);
      FinaliseKeepsFees(step.value.snap, tolerance, env.faults);
      Some(Finalise(step.value.snap, tolerance, env.faults))
  }

  /** On the trade path, with the corrected sync or a successful fill save, the pass
      raises the order fee by exactly the fees of the fills it adds. */
  lemma TradePassFee(s: Snapshot, quoteAssetId: int, env: Environment, corrected: bool)
    requires 98 <= env.feeDivisor <= 100
    ensures var r := SyncPass(s, quoteAssetId, env, corrected);
      r.Some? && TradeHistoryPath(env) && (corrected || SaveFills !in env.faults) ==>
        && r.value.snap.order.emulatedFills == s.order.emulatedFills
        && OrZero(r.value.snap.order.fee) - OrZero(s.order.fee) == SumFees(r.value.snap.fills) - SumFees(s.fills)
  {
    var r := SyncPass(s, quoteAssetId, env, corrected);
    if r.Some? && TradeHistoryPath(env) && (corrected || SaveFills !in env.faults) {
      var caps := env.connector.value.value;
      if FetchOrder(caps, env.fetchById).Found? {
        var remote := FetchOrder(caps, env.fetchById).remote;
        if !(remote.status.Closed? && remote.remaining > 0.0) {
          var o := if remote.status.Closed? && remote.remaining == 0.0
                   then s.order.(status := FullyFilled, completedTimestamp := Some(env.now)) else s.order;
          var t := s.(order := o);
          assert r.value == if corrected then SyncWithTrades(t, remote, quoteAssetId, env)
                            else SyncWithTradesAsWritten(t, remote, quoteAssetId, env);
          if ReadFills !in env.faults && SaveFills !in env.faults {
            TradeSyncFeeMatchesFills(t, remote, quoteAssetId, env);
            AsWrittenAgreesWhenSaved(t, remote, quoteAssetId, env);
          }
        }
      }
    }
  }

  /** Without emulated fills the final step leaves the fills and the order fee alone. */
  lemma FinaliseKeepsFees(s: Snapshot, tolerance: int, faults: set<StoreStep>)
    ensures !s.order.emulatedFills ==>
      Finalise(s, tolerance, faults).fills == s.fills && Finalise(s, tolerance, faults).order.fee == s.order.fee
  {
  }

  /** The correction changes nothing unless saving the fills fails. */
  lemma CorrectionOnlyOnFailedSave(s: Snapshot, quoteAssetId: int, env: Environment, tolerance: int)
    requires 98 <= env.feeDivisor <= 100
    requires SaveFills !in env.faults
    ensures SyncCorrected(s, quoteAssetId, env) == Sync(s, quoteAssetId, env)
    ensures ReconcileCorrected(s, quoteAssetId, env, tolerance) == Reconcile(s, quoteAssetId, env, tolerance)
  {
    forall remote: RemoteOrder, o: ExecutionOrder
      ensures SyncWithTradesAsWritten(s.(order := o), remote, quoteAssetId, env) == SyncWithTrades(s.(order := o), remote, quoteAssetId, env)
    {
      AsWrittenAgreesWhenSaved(s.(order := o), remote, quoteAssetId, env);
    }
  }

  /** Error accounting: the sync adds exactly one failed attempt when it takes an error
      path and none otherwise; the final step adds one more only when its own fill-sum
      read fails below the tolerance. */
  lemma ReconcileAttempts(s: Snapshot, quoteAssetId: int, env: Environment, tolerance: int)
    requires 98 <= env.feeDivisor <= 100
    requires Reconcile(s, quoteAssetId, env, tolerance).Some?
    ensures var step := Sync(s, quoteAssetId, env).value;
      var r := Reconcile(s, quoteAssetId, env, tolerance).value;
      r.order.failedAttempts == s.order.failedAttempts + (if step.errored then 1 else 0)
        + (if step.snap.order.failedAttempts <= tolerance && SumForStatus in env.faults then 1 else 0)
  {
  }

  /** Closed with a remainder: the order ends Failed and no fill is created. */
  lemma ClosedWithRemainderFails(s: Snapshot, quoteAssetId: int, env: Environment, tolerance: int, caps: Capabilities, remote: RemoteOrder)
    requires 98 <= env.feeDivisor <= 100
    requires env.simulated == Ok(false) && env.connector == Ok(Some(caps))
    requires FetchOrder(caps, env.fetchById) == Found(remote)
    requires remote.status.Closed? && remote.remaining > 0.0
    ensures var r := Reconcile(s, quoteAssetId, env, tolerance);
      r.Some? && r.value.order.status.Failed? && |r.value.fills| == |s.fills|
  {
  }

  /** Closed with nothing remaining: completed_timestamp is set, the fill sync still runs,
      and the order ends FullyFilled unless the failure tolerance is exceeded. */
  lemma ClosedAndFilled(s: Snapshot, quoteAssetId: int, env: Environment, tolerance: int, caps: Capabilities, remote: RemoteOrder)
    requires 98 <= env.feeDivisor <= 100
    requires env.simulated == Ok(false) && env.connector == Ok(Some(caps))
    requires FetchOrder(caps, env.fetchById) == Found(remote)
    requires remote.status.Closed? && remote.remaining == 0.0
    ensures var r := Reconcile(s, quoteAssetId, env, tolerance);
      && r.Some?
      && r.value.order.completedTimestamp == Some(env.now)
      && (r.value.order.status.FullyFilled? || r.value.order.status.Failed?)
      && (s.order.failedAttempts < tolerance && SumForStatus !in env.faults ==> r.value.order.status.FullyFilled?)
  {
  }

  /** Simulated path: one fill of the whole quantity at bid (Sell) or ask (otherwise) and
      the order FullyFilled; without market data one more failed attempt and no fill. */
  lemma SimulatedOutcome(s: Snapshot, quoteAssetId: int, env: Environment, tolerance: int)
    requires 98 <= env.feeDivisor <= 100
    requires env.simulated == Ok(true)
    requires s.order.failedAttempts + 1 < tolerance
    ensures var r := Reconcile(s, quoteAssetId, env, tolerance);
      && r.Some?
      && (env.marketData.None? && SumForStatus !in env.faults ==>
            |r.value.fills| == |s.fills| && r.value.order.failedAttempts == s.order.failedAttempts + 1)
      && (env.marketData.Some? && ReadMarketData !in env.faults && SaveFills !in env.faults ==>
            && |r.value.fills| == |s.fills| + 1
            && r.value.fills[|s.fills|].quantity == s.order.totalQuantity
            && r.value.fills[|s.fills|].price == SimulatedPrice(s.order.side, env.marketData.value)
            && r.value.order.status.FullyFilled?)
  {
  }

  /** Failure promotion: at exactly the tolerance an order that is not Failed stays so when
      the pass itself raises no error; one attempt more forces Failed whatever the fills. */
  lemma FailurePromotion(s: Snapshot, quoteAssetId: int, env: Environment, tolerance: int)
    requires 98 <= env.feeDivisor <= 100
    requires Reconcile(s, quoteAssetId, env, tolerance).Some?
    ensures s.order.failedAttempts == tolerance + 1 ==> Reconcile(s, quoteAssetId, env, tolerance).value.order.status.Failed?
    ensures s.order.failedAttempts == tolerance && !Sync(s, quoteAssetId, env).value.errored
      && !Sync(s, quoteAssetId, env).value.snap.order.status.Failed?
      ==> !Reconcile(s, quoteAssetId, env, tolerance).value.order.status.Failed?
  {
  }
}
