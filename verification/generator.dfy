/** The execution-order generator of `jobs/exec-order-generator.js`: each Pending recipe
    order is either settled (Failed, Executing, Completed) or given exactly one new
    Pending market execution order sized from a fuzzed base trade amount and capped to
    what is still unrealised. The random fuzz is an input. */
module Generator {
  import opened Wrappers
  import opened Domain
  import opened Seqs

  /** `Number.MIN_VALUE`, the lower bound of the next execution size. */
  const NumberMinValue: real := 5e-324

  /** The BASE_BTC_TRADE and BASE_ETH_TRADE settings; either may be unset. */
  datatype TradeBase = TradeBase(btc: Option<real>, eth: Option<real>)

  /** The currency given away by an order on instrument `symbol` ("TX/QUOTE"): the quote
      currency when buying, the transaction currency when selling. `None` stands for the
      `undefined` second piece of a symbol without a slash. */
  function SoldSymbol(side: OrderSide, symbol: string): (r: Result<Option<string>, string>)
    ensures r.Err? <==> side.UnknownSide?
    ensures side.Sell? ==> r == Ok(Some(SymbolParts(symbol).0))
    ensures side.Buy? ==> r == Ok(SymbolParts(symbol).1)
  {
    var (tx, quote) := SymbolParts(symbol);
    match side
    case Buy => Ok(quote)
    case Sell => Ok(Some(tx))
    case UnknownSide(_) => Err("Unknown order side")
  }

  /** On a well-formed pair the buyer gives the quote currency and the seller the
      transaction currency. */
  lemma SoldSymbolOfPair(tx: string, quote: string)
    requires '/' !in tx && '/' !in quote
    ensures SoldSymbol(Buy, tx + "/" + quote) == Ok(Some(quote))
    ensures SoldSymbol(Sell, tx + "/" + quote) == Ok(Some(tx))
  {
    SplitPair(tx, quote);
  }

  /** The configured base trade amount of a symbol, `None` for an unset setting or any
      other symbol. */
  function BaseAmount(base: TradeBase, symbol: Option<string>): (r: Option<real>)
    ensures r.Some? ==> symbol == Some("BTC") || symbol == Some("ETH")
    ensures symbol == Some("BTC") ==> r == base.btc
    ensures symbol == Some("ETH") ==> r == base.eth
  {
    if symbol == Some("BTC") then base.btc
    else if symbol == Some("ETH") then base.eth
    else None
  }

  /** `base × (1 + draw)`, the draw a real between −f and f. */
  function FuzzyAmount(base: real, draw: real): real {
    base * (1.0 + draw)
  }

  /** For a non-negative base and a draw in [-f, f] the fuzzy amount lies within
      [base·(1−f), base·(1+f)]. */
  lemma FuzzyAmountBounds(base: real, fuzziness: real, draw: real)
    requires base >= 0.0 && -fuzziness <= draw <= fuzziness
    ensures base * (1.0 - fuzziness) <= FuzzyAmount(base, draw) <= base * (1.0 + fuzziness)
  {
    assert base * (1.0 + draw) - base * (1.0 - fuzziness) == base * (draw + fuzziness);
    assert base * (1.0 + fuzziness) - base * (1.0 + draw) == base * (fuzziness - draw);
  }

  /** `clamp(x, lower, upper)`, taken to be lodash's (the job calls a global `clamp` it
      does not define): first capped at `upper`, then raised to `lower`. */
  function Clamp(x: real, lower: real, upper: real): (r: real)
    ensures r >= lower
    ensures lower <= upper ==> r <= upper
    ensures lower <= x <= upper ==> r == x
  {
    var capped := if x <= upper then x else upper;
    if capped >= lower then capped else lower
  }

  /** The execution order the generator asks the store to create. */
  datatype Draft = Draft(
    side: OrderSide,
    orderType: OrderType,
    totalQuantity: real,
    status: ExecStatus,
    recipeOrderId: nat,
    instrumentId: int,
    exchangeId: int,
    price: Option<real>)

  /** What happens to one recipe order: its status, and at most one new execution order. */
  datatype Outcome = Outcome(status: RecipeOrderStatus, created: Option<Draft>)

  predicate Unfilled(e: ExecutionOrder) {
    !e.status.FullyFilled? && !e.status.Cancelled?
  }

  /** `_.find`: the index of the first execution order that is still open or failed. */
  function FirstUnfilled(executions: seq<ExecutionOrder>): (r: Option<nat>)
    ensures r.Some? ==> (r.value < |executions| && Unfilled(executions[r.value])
                         && forall j :: 0 <= j < r.value ==> !Unfilled(executions[j]))
    ensures r.None? ==> forall j :: 0 <= j < |executions| ==> !Unfilled(executions[j])
  {
    if |executions| == 0 then None
    else if Unfilled(executions[0]) then Some(0)
    else
      var rest := FirstUnfilled(executions[1..]);
      if rest.Some? then Some(rest.value + 1) else None
  }

  /** Total quantity of the FullyFilled execution orders. */
  function Realized(executions: seq<ExecutionOrder>): real {
    if |executions| == 0 then 0.0
    else
      var last := executions[|executions| - 1];
      Realized(executions[..|executions| - 1]) + (if last.status.FullyFilled? then last.totalQuantity else 0.0)
  }

  /** With every quantity non-negative, the realised total is non-negative. */
  lemma {:induction false} RealizedNonNegative(executions: seq<ExecutionOrder>)
    requires forall i :: 0 <= i < |executions| ==> executions[i].totalQuantity >= 0.0
    ensures Realized(executions) >= 0.0
  {
    if |executions| > 0 {
      RealizedNonNegative(executions[..|executions| - 1]);
    }
  }

  /** The decision for one recipe order once its base amount is known. */
  function Advance(order: RecipeOrder, executions: seq<ExecutionOrder>, fuzzy: real): (r: Outcome)
  {
    var unfilled := FirstUnfilled(executions);
    if unfilled.Some? then
      Outcome(if executions[unfilled.value].status.Failed? then RecipeOrderStatus.Failed else Executing, None)
    else
      var realized := Realized(executions);
      if realized >= order.quantity then Outcome(Completed, None)
      else Outcome(order.status, Some(NextDraft(order, realized, fuzzy)))
  }

  /** `price × (next / quantity)`; `None` for a zero quantity, where JavaScript gives
      NaN or an infinity. */
  function ProRata(price: real, next: real, quantity: real): Option<real> {
    if quantity == 0.0 then None else Some(price * (next / quantity))
  }

  /** The next execution order: the fuzzy amount capped to what is unrealised (and
      raised to `Number.MIN_VALUE`), priced pro rata to the recipe order. */
  function NextDraft(order: RecipeOrder, realized: real, fuzzy: real): Draft {
    var next := Clamp(fuzzy, NumberMinValue, order.quantity - realized);
    Draft(order.side, Market, next, ExecStatus.Pending, order.id,
          order.instrumentId, order.targetExchangeId, ProRata(order.price, next, order.quantity))
  }

  /** The whole per-order step. An unknown side raises (`Err`); a sold currency without
      a base trade amount fails the recipe order. */
  function Decide(order: RecipeOrder, symbol: string, executions: seq<ExecutionOrder>, base: TradeBase, draw: real): (r: Result<Outcome, string>)
    ensures r.Err? <==> order.side.UnknownSide?
    ensures r.Ok? && BaseAmount(base, SoldSymbol(order.side, symbol).value).None? ==> r.value == Outcome(RecipeOrderStatus.Failed, None)
    ensures r.Ok? && BaseAmount(base, SoldSymbol(order.side, symbol).value).Some? ==>
      r.value == Advance(order, executions, FuzzyAmount(BaseAmount(base, SoldSymbol(order.side, symbol).value).value, draw))
  {
    var sold :- SoldSymbol(order.side, symbol);
    var amount := BaseAmount(base, sold);
    if amount.None? then Ok(Outcome(RecipeOrderStatus.Failed, None))
    else Ok(Advance(order, executions, FuzzyAmount(amount.value, draw)))
  }

  /** While an execution order is neither FullyFilled nor Cancelled nothing is created;
      the recipe order is Executing, or Failed when that execution order failed. */
  lemma AdvanceWaitsForOpenExecution(order: RecipeOrder, executions: seq<ExecutionOrder>, fuzzy: real, k: nat)
    requires k < |executions| && Unfilled(executions[k])
    requires forall j :: 0 <= j < k ==> !Unfilled(executions[j])
    ensures Advance(order, executions, fuzzy).created.None?
    ensures Advance(order, executions, fuzzy).status ==
      if executions[k].status.Failed? then RecipeOrderStatus.Failed else Executing
  {
  }

  /** When every execution order is settled and the realised total reaches the recipe
      quantity, the recipe order is Completed and nothing is created. */
  lemma AdvanceCompletes(order: RecipeOrder, executions: seq<ExecutionOrder>, fuzzy: real)
    requires forall j :: 0 <= j < |executions| ==> !Unfilled(executions[j])
    requires Realized(executions) >= order.quantity
    ensures Advance(order, executions, fuzzy) == Outcome(Completed, None)
  {
  }

  /** Otherwise one Pending market order is created for the target exchange, sized
      0 < next ≤ quantity − realised and priced pro rata, so realised + next never
      exceeds the recipe quantity. A remainder below `Number.MIN_VALUE` is overshot:
      the order is for `Number.MIN_VALUE`. */
  lemma AdvanceCreatesCappedOrder(order: RecipeOrder, executions: seq<ExecutionOrder>, fuzzy: real)
    requires forall j :: 0 <= j < |executions| ==> !Unfilled(executions[j])
    requires Realized(executions) < order.quantity
    ensures var r := Advance(order, executions, fuzzy);
      && r.status == order.status
      && r.created.Some?
      && var d := r.created.value;
      && 0.0 < d.totalQuantity
      && (order.quantity - Realized(executions) >= NumberMinValue ==>
            d.totalQuantity <= order.quantity - Realized(executions)
            && Realized(executions) + d.totalQuantity <= order.quantity)
      && (order.quantity - Realized(executions) < NumberMinValue ==> d.totalQuantity == NumberMinValue)
      && d.price == ProRata(order.price, d.totalQuantity, order.quantity)
      && d.status.Pending? && d.orderType.Market?
      && d.side == order.side && d.instrumentId == order.instrumentId
      && d.exchangeId == order.targetExchangeId && d.recipeOrderId == order.id
  {
    var realized := Realized(executions);
    assert Advance(order, executions, fuzzy) == Outcome(order.status, Some(NextDraft(order, realized, fuzzy)));
    var next := Clamp(fuzzy, NumberMinValue, order.quantity - realized);
    assert NextDraft(order, realized, fuzzy).totalQuantity == next;
  }

  /** A recipe order with no base amount for its sold currency fails without creating
      anything, whatever its execution orders. */
  lemma NoBaseFails(order: RecipeOrder, tx: string, quote: string, executions: seq<ExecutionOrder>, base: TradeBase, draw: real)
    requires order.side.Buy?
    requires '/' !in tx && '/' !in quote
    requires BaseAmount(base, Some(quote)).None?
    ensures Decide(order, tx + "/" + quote, executions, base, draw) == Ok(Outcome(RecipeOrderStatus.Failed, None))
  {
    SoldSymbolOfPair(tx, quote);
  }

  /** One recipe order of the job together with what the job reads for it. */
  datatype Candidate = Candidate(order: RecipeOrder, symbol: string, executions: seq<ExecutionOrder>, draw: real)

  /** The job's result: the recipe orders it acted on with their outcomes, in query order,
      and the error raised when an order with an unknown side stops the scan. */
  datatype RunResult = RunResult(handled: seq<(nat, Outcome)>, error: Option<string>)

  predicate PendingCandidate(c: Candidate) {
    c.order.status.Pending?
  }

  /** The candidates the job's query returns: the Pending recipe orders, in order. */
  function Pending(candidates: seq<Candidate>): seq<Candidate> {
    Filter(candidates, PendingCandidate)
  }

  /** The decision the job takes for one candidate. */
  function Handle(c: Candidate, base: TradeBase): Result<Outcome, string> {
    Decide(c.order, c.symbol, c.executions, base, c.draw)
  }

  /** One run: only Pending recipe orders are examined, each once and in query order; the
      first unknown side raises and leaves the rest unexamined. */
  function Run(candidates: seq<Candidate>, base: TradeBase): (r: RunResult)
    ensures |r.handled| <= |Pending(candidates)|
    ensures r.error.None? ==> |r.handled| == |Pending(candidates)|
  {
    if |candidates| == 0 then RunResult([], None)
    else
      var c := candidates[0];
      var rest := Run(candidates[1..], base);
      if !c.order.status.Pending? then rest
      else
        match Handle(c, base)
        case Err(e) => RunResult([], Some(e))
        case Ok(outcome) => RunResult([(c.order.id, outcome)] + rest.handled, rest.error)
  }

  /** The run handles the Pending recipe orders in query order, each with its own
      decision, up to the first one with an unknown side; that one raises the run's error,
      and the run raises exactly when some Pending recipe order has an unknown side. */
  lemma RunHandlesPendingInOrder(candidates: seq<Candidate>, base: TradeBase)
    ensures var r := Run(candidates, base);
      var p := Pending(candidates);
      && (forall i :: 0 <= i < |r.handled| ==>
            Handle(p[i], base).Ok? && r.handled[i] == (p[i].order.id, Handle(p[i], base).value))
      && (r.error.Some? ==> |r.handled| < |p| && p[|r.handled|].order.side.UnknownSide?)
      && (r.error.Some? <==> exists j :: 0 <= j < |p| && p[j].order.side.UnknownSide?)
  {
    RunHandledAreDecisions(candidates, base);
    RunStopsAtUnknownSide(candidates, base);
    var r := Run(candidates, base);
    var p := Pending(candidates);
    if exists j :: 0 <= j < |p| && p[j].order.side.UnknownSide? {
      var j :| 0 <= j < |p| && p[j].order.side.UnknownSide?;
      if r.error.None? {
        assert false;
      }
    }
  }

  /** Each handled recipe order is the Pending one at the same position, with its own
      decision. */
  lemma {:induction false} RunHandledAreDecisions(candidates: seq<Candidate>, base: TradeBase)
    ensures var r := Run(candidates, base);
      var p := Pending(candidates);
      forall i :: 0 <= i < |r.handled| ==>
        Handle(p[i], base).Ok? && r.handled[i] == (p[i].order.id, Handle(p[i], base).value)
  {
    if |candidates| > 0 {
      RunHandledAreDecisions(candidates[1..], base);
      var c := candidates[0];
      var p := Pending(candidates);
      var tail := Pending(candidates[1..]);
      var rest := Run(candidates[1..], base);
      var r := Run(candidates, base);
      if !c.order.status.Pending? {
        assert p == tail && r == rest;
      } else if Handle(c, base).Ok? {
        assert p == [c] + tail;
        assert r.handled == [(c.order.id, Handle(c, base).value)] + rest.handled;
        forall i | 0 <= i < |r.handled|
          ensures Handle(p[i], base).Ok? && r.handled[i] == (p[i].order.id, Handle(p[i], base).value)
        {
          if i > 0 {
            assert p[i] == tail[i - 1] && r.handled[i] == rest.handled[i - 1];
          }
        }
      }
    }
  }

  /** A run that raises stops at a Pending recipe order with an unknown side, the first
      one not handled. */
  predicate StopsAtUnknownSide(candidates: seq<Candidate>, base: TradeBase) {
    var r := Run(candidates, base);
    r.error.Some? ==> |r.handled| < |Pending(candidates)| && Pending(candidates)[|r.handled|].order.side.UnknownSide?
  }

  lemma {:induction false} RunStopsAtUnknownSide(candidates: seq<Candidate>, base: TradeBase)
    ensures StopsAtUnknownSide(candidates, base)
  {
    if |candidates| > 0 {
      RunStopsAtUnknownSide(candidates[1..], base);
      if candidates[0].order.status.Pending? {
        StopStepPending(candidates, base);
      } else {
        assert Pending(candidates) == Pending(candidates[1..]);
        assert Run(candidates, base) == Run(candidates[1..], base);
      }
    }
  }

  lemma StopStepPending(candidates: seq<Candidate>, base: TradeBase)
    requires |candidates| > 0 && candidates[0].order.status.Pending?
    requires StopsAtUnknownSide(candidates[1..], base)
    ensures StopsAtUnknownSide(candidates, base)
  {
    var c := candidates[0];
    var p := Pending(candidates);
    var tail := Pending(candidates[1..]);
    var rest := Run(candidates[1..], base);
    var r := Run(candidates, base);
    assert p == [c] + tail;
    match Handle(c, base)
    case Ok(outcome) =>
      assert r == RunResult([(c.order.id, outcome)] + rest.handled, rest.error);
      if r.error.Some? {
        assert p[|r.handled|] == tail[|rest.handled|];
      }
    case Err(e) =>
      assert r == RunResult([], Some(e));
      assert c.order.side.UnknownSide?;
  }

  /** What one handled recipe order creates: an execution order for it, only when its
      execution orders are all settled and its realised total is short of its quantity. */
  lemma HandleCreates(c: Candidate, base: TradeBase)
    requires Handle(c, base).Ok? && Handle(c, base).value.created.Some?
    ensures Handle(c, base).value.created.value.recipeOrderId == c.order.id
    ensures FirstUnfilled(c.executions).None? && Realized(c.executions) < c.order.quantity
  {
  }

  /** Number of execution orders a run creates. */
  function CreatedCount(handled: seq<(nat, Outcome)>): (n: nat)
    ensures n <= |handled|
  {
    if |handled| == 0 then 0
    else CreatedCount(handled[..|handled| - 1]) + (if handled[|handled| - 1].1.created.Some? then 1 else 0)
  }

  /** A run creates at most one execution order per Pending recipe order, and only for
      one whose execution orders are all settled and whose realised total falls short of
      its quantity; the new order refers to that recipe order. */
  lemma RunCreatesAtMostOnePerPending(candidates: seq<Candidate>, base: TradeBase)
    ensures CreatedCount(Run(candidates, base).handled) <= |Pending(candidates)|
    ensures var r := Run(candidates, base);
      forall i :: 0 <= i < |r.handled| && r.handled[i].1.created.Some? ==>
        var c := Pending(candidates)[i];
        && r.handled[i].1.created.value.recipeOrderId == c.order.id
        && FirstUnfilled(c.executions).None?
        && Realized(c.executions) < c.order.quantity
  {
    RunHandledAreDecisions(candidates, base);
    var r := Run(candidates, base);
    var p := Pending(candidates);
    forall i | 0 <= i < |r.handled| && r.handled[i].1.created.Some?
      ensures r.handled[i].1.created.value.recipeOrderId == p[i].order.id
      ensures FirstUnfilled(p[i].executions).None? && Realized(p[i].executions) < p[i].order.quantity
    {
      HandleCreates(p[i], base);
    }
  }
}
