/** The validations and the allocation of `services/InvestmentService.js`: opening an
    investment run, moving it between stages, creating a recipe run, generating the
    recipe (one suggested way to acquire each strategy asset and its share of the
    investment), and approving a recipe run. Store reads, store writes that can fail,
    and the asset queries are inputs. */
module InvestmentService {
  import opened Wrappers
  import opened Domain
  import opened Seqs
  import opened AssetService

  /** INVESTMENT_RUN_STATUSES: the two stages this service sets by name, and the later
      stages of the enumeration, told apart by their code. */
  datatype RunStage = Initiated | RecipeRunStage | LaterStage(code: nat)

  datatype InvestmentRun = InvestmentRun(
    id: nat,
    userCreatedId: int,
    strategy: StrategyType,
    isSimulated: bool,
    startedTimestamp: int,
    updatedTimestamp: int,
    completedTimestamp: Option<int>,
    status: RunStage,
    depositUsd: Option<real>)

  /** An uncompleted run of the same user, strategy and mode. */
  predicate Blocks(run: InvestmentRun, userId: int, strategy: StrategyType, isSimulated: bool) {
    run.userCreatedId == userId && run.strategy == strategy && run.isSimulated == isSimulated
    && run.completedTimestamp.None?
  }

  /** `createInvestmentRun`. `runs` are the stored investment runs and `newId` the id the
      store assigns, or the error creating the row. An omitted mode means simulated. */
  function CreateInvestmentRun(userId: int, strategy: Coded<StrategyType>, isSimulated: Option<bool>, depositUsd: Option<real>,
                               runs: seq<InvestmentRun>, newId: Result<nat, string>, now: int): (r: Result<InvestmentRun, string>)
    ensures r.Err? <==>
      || strategy.Unknown?
      || (exists i :: 0 <= i < |runs| && Blocks(runs[i], userId, strategy.value, isSimulated.GetOr(true)))
      || newId.Err?
    ensures r.Ok? ==>
      && r.value.status == Initiated && r.value.id == newId.value
      && r.value.strategy == strategy.value && r.value.isSimulated == isSimulated.GetOr(true)
      && r.value.userCreatedId == userId && r.value.depositUsd == depositUsd
      && r.value.completedTimestamp.None? && r.value.startedTimestamp == now
  {
    if strategy.Unknown? then Err("Unknown strategy type")
    else
      var simulated := isSimulated.GetOr(true);
      if exists i :: 0 <= i < |runs| && Blocks(runs[i], userId, strategy.value, simulated)
      then Err("Investment with this strategy and mode already created")
      else
        var id :- newId;
        Ok(InvestmentRun(id, userId, strategy.value, simulated, now, now, None, Initiated, depositUsd))
  }

  /** Once a run is created, a second request with the same user, strategy and mode is
      rejected until the first run completes. */
  lemma OneOpenRunPerStrategyAndMode(userId: int, strategy: Coded<StrategyType>, isSimulated: Option<bool>, depositUsd: Option<real>,
                                      runs: seq<InvestmentRun>, newId: Result<nat, string>, now: int,
                                      otherId: Result<nat, string>, later: int)
    requires CreateInvestmentRun(userId, strategy, isSimulated, depositUsd, runs, newId, now).Ok?
    ensures var run := CreateInvestmentRun(userId, strategy, isSimulated, depositUsd, runs, newId, now).value;
      CreateInvestmentRun(userId, strategy, isSimulated, depositUsd, runs + [run], otherId, later).Err?
  {
    var run := CreateInvestmentRun(userId, strategy, isSimulated, depositUsd, runs, newId, now).value;
    assert (runs + [run])[|runs|] == run;
  }

  /** `changeInvestmentRunStatus`: only the stage and the update time change. */
  function ChangeInvestmentRunStatus(status: Coded<RunStage>, run: Option<InvestmentRun>, saveError: Option<string>, now: int): (r: Result<InvestmentRun, string>)
    ensures r.Err? <==> status.Unknown? || run.None? || saveError.Some?
    ensures r.Ok? ==>
      && r.value.status == status.value && r.value.updatedTimestamp == now
      && r.value.(status := run.value.status, updatedTimestamp := run.value.updatedTimestamp) == run.value
  {
    if status.Unknown? then Err("Unknown investment run status")
    else if run.None? then Err("Investment run not found")
    else if saveError.Some? then Err(saveError.value)
    else Ok(run.value.(status := status.value, updatedTimestamp := now))
  }

  /** Setting the stage a run already has changes nothing but the update time. */
  lemma ChangeInvestmentRunStatusIdempotent(status: Coded<RunStage>, run: Option<InvestmentRun>, now: int, later: int)
    requires ChangeInvestmentRunStatus(status, run, None, now).Ok?
    ensures var once := ChangeInvestmentRunStatus(status, run, None, now).value;
      ChangeInvestmentRunStatus(status, Some(once), None, later) == Ok(once.(updatedTimestamp := later))
  {
  }

  // ---------------------------------------------------------------------------
  // Recipe generation

  /** A way to acquire an asset: an instrument listed on an exchange, with its liquidity
      history and its latest ask and bid. */
  datatype Action = Action(
    instrumentId: int,
    transactionAssetId: int,
    quoteAssetId: int,
    exchangeId: int,
    averageVolume: Option<real>,
    minVolumeRequirement: Option<real>,
    askPrice: real,
    bidPrice: real)

  /** A base asset and its USD price. */
  datatype BaseAsset = BaseAsset(id: int, symbol: string)
  datatype BasePrice = BasePrice(symbol: string, price: real)
  datatype PricedBase = PricedBase(id: int, usd: real)

  /** What the generation reads: the strategy's assets (as `AssetService.StrategyAssets`
      selects them), the base assets, their prices,
      and the instruments of each asset. */
  datatype RecipeInputs = RecipeInputs(
    strategyAssets: Result<seq<StrategyAsset>, string>,
    baseAssets: seq<BaseAsset>,
    prices: Result<seq<BasePrice>, string>,
    instruments: nat -> Result<seq<Action>, string>)

  /** One asset of the generated recipe: how to acquire it and its share of the investment
      in percent; `None` when the division by a zero total share is not a finite number. */
  datatype PlannedAsset = PlannedAsset(asset: StrategyAsset, suggested: Option<Action>, percentage: Option<real>)

  /** An action passes the liquidity check when it has no minimum-volume requirement or
      its average volume reaches the minimum. */
  predicate Liquid(a: Action) {
    !Truthy(a.minVolumeRequirement) || OrZero(a.averageVolume) >= a.minVolumeRequirement.value
  }

  function Swapped(a: Action): Action {
    a.(transactionAssetId := a.quoteAssetId, quoteAssetId := a.transactionAssetId)
  }

  /** The action turned so that the acquired asset is the quote asset: an instrument that
      has the asset as its transaction asset is a sell and is flipped. */
  function Oriented(a: Action, assetId: int): (r: Action)
    ensures a.transactionAssetId == assetId || a.quoteAssetId == assetId ==> r.quoteAssetId == assetId
  {
    if a.transactionAssetId == assetId then Swapped(a) else a
  }

  /** A USD cost, or a non-finite number (the inverse of a zero bid). */
  datatype Cost = Finite(value: real) | Unbounded

  /** Strictly cheaper, a non-finite cost being dearer than every finite one. */
  predicate Cheaper(a: Cost, b: Cost) {
    a.Finite? && (b.Unbounded? || a.value < b.value)
  }

  /** The USD price of the first base asset with the given id. */
  function BaseUsd(bases: seq<PricedBase>, id: int): (r: Option<real>)
    ensures r.None? <==> forall i :: 0 <= i < |bases| ==> bases[i].id != id
    ensures r.Some? ==> exists k :: (0 <= k < |bases| && bases[k].id == id && r.value == bases[k].usd
      && forall j :: 0 <= j < k ==> bases[j].id != id)
  {
    if |bases| == 0 then None
    else if bases[0].id == id then Some(bases[0].usd)
    else BaseUsd(bases[1..], id)
  }

  /** What acquiring the asset through `a` costs in USD: the base asset's price times the
      ask, or times the inverse of the bid for a sell. `None` when the base asset is not
      known. */
  function ActionCost(a: Action, assetId: int, bases: seq<PricedBase>): Option<Cost> {
    var isSell := a.transactionAssetId == assetId;
    var base := Oriented(a, assetId).transactionAssetId;
    var usd :- BaseUsd(bases, base);
    if !isSell then Some(Finite(usd * a.askPrice))
    else if a.bidPrice == 0.0 then Some(Unbounded)
    else Some(Finite(usd * (1.0 / a.bidPrice)))
  }

  /** The costs of the actions, or an error naming the first action without a base asset. */
  function Costs(options: seq<Action>, assetId: int, bases: seq<PricedBase>): (r: Result<seq<Cost>, string>)
    ensures r.Err? <==> exists i :: 0 <= i < |options| && ActionCost(options[i], assetId, bases).None?
    ensures r.Ok? ==> |r.value| == |options| && forall i :: 0 <= i < |options| ==> ActionCost(options[i], assetId, bases) == Some(r.value[i])
  {
    if |options| == 0 then Ok([])
    else
      var rest :- Costs(options[1..], assetId, bases);
      match ActionCost(options[0], assetId, bases)
      case None => Err("Didn't find base asset")
      case Some(c) => Ok([c] + rest)
  }

  /** `_.minBy`: the first position of a cheapest cost. */
  function Cheapest(costs: seq<Cost>): (k: nat)
    requires |costs| > 0
    ensures k < |costs|
    ensures forall j :: 0 <= j < |costs| ==> !Cheaper(costs[j], costs[k])
    ensures forall j :: 0 <= j < k ==> Cheaper(costs[k], costs[j])
  {
    if |costs| == 1 then 0
    else
      var k := Cheapest(costs[..|costs| - 1]);
      if Cheaper(costs[|costs| - 1], costs[k]) then |costs| - 1 else k
  }

  /** `a` is, turned towards the asset, the first of `options` whose cost no other
      option beats: every earlier option is strictly dearer. */
  predicate IsCheapest(a: Action, options: seq<Action>, assetId: int, bases: seq<PricedBase>) {
    exists k :: 0 <= k < |options| && a == Oriented(options[k], assetId)
      && ActionCost(options[k], assetId, bases).Some?
      && (forall j :: 0 <= j < |options| ==>
           (ActionCost(options[j], assetId, bases).Some?
            && !Cheaper(ActionCost(options[j], assetId, bases).value, ActionCost(options[k], assetId, bases).value)))
      && (forall j :: 0 <= j < k ==>
           Cheaper(ActionCost(options[k], assetId, bases).value, ActionCost(options[j], assetId, bases).value))
  }

  /** The suggested action of one asset. A base asset takes its first instrument, turned
      so that the asset is quoted (a base asset without instruments raises). Another asset
      without instruments gets no suggestion; otherwise the liquid instruments are priced
      and the cheapest is suggested, and having no liquid instrument raises. */
  function Suggest(asset: StrategyAsset, actions: seq<Action>, bases: seq<PricedBase>): (r: Result<Option<Action>, string>)
    ensures asset.isBase ==> (r.Err? <==> |actions| == 0)
    ensures asset.isBase && |actions| > 0 ==>
      && r.Ok? && r.value.Some?
      && (r.value.value == actions[0] || r.value.value == Swapped(actions[0]))
      && (actions[0].quoteAssetId == asset.id ==> r.value.value == actions[0])
      && (actions[0].transactionAssetId == asset.id ==> r.value.value.quoteAssetId == asset.id)
    ensures !asset.isBase && |actions| == 0 ==> r == Ok(None)
    ensures !asset.isBase && |actions| > 0 ==>
      var liquid := Filter(actions, Liquid);
      && (|liquid| == 0 ==> r.Err?)
      && (|liquid| > 0 ==> (r.Err? <==> exists i :: 0 <= i < |liquid| && ActionCost(liquid[i], asset.id, bases).None?))
      && (r.Ok? ==> r.value.Some? && IsCheapest(r.value.value, liquid, asset.id, bases))
    ensures r.Ok? && r.value.Some? && (forall i :: 0 <= i < |actions| ==> actions[i].transactionAssetId == asset.id || actions[i].quoteAssetId == asset.id)
      ==> r.value.value.quoteAssetId == asset.id
  {
    if asset.isBase then
      if |actions| == 0 then Err("TypeError: no instrument for base asset")
      else
        var a := actions[0];
        Ok(Some(if asset.id != a.quoteAssetId then Swapped(a) else a))
    else if |actions| == 0 then Ok(None)
    else
      var liquid := Filter(actions, Liquid);
      if |liquid| == 0 then Err("None of instruments for asset fulfill liquidity requirements")
      else
        var costs :- Costs(liquid, asset.id, bases);
        var k := Cheapest(costs);
        CheapestChoice(liquid, asset.id, bases, costs);
        Ok(Some(Oriented(liquid[k], asset.id)))
  }

  /** The position `_.minBy` picks among the costs is the first cheapest option. */
  lemma CheapestChoice(options: seq<Action>, assetId: int, bases: seq<PricedBase>, costs: seq<Cost>)
    requires |options| > 0 && Costs(options, assetId, bases) == Ok(costs)
    ensures IsCheapest(Oriented(options[Cheapest(costs)], assetId), options, assetId, bases)
  {
    var k := Cheapest(costs);
    assert ActionCost(options[k], assetId, bases) == Some(costs[k]);
  }

  /** Attaches its USD price to every base asset; a base asset without a price raises. */
  function PriceBases(baseAssets: seq<BaseAsset>, prices: seq<BasePrice>): (r: Result<seq<PricedBase>, string>)
    ensures r.Err? <==> exists i :: 0 <= i < |baseAssets| && forall j :: 0 <= j < |prices| ==> prices[j].symbol != baseAssets[i].symbol
    ensures r.Ok? ==> |r.value| == |baseAssets| && forall i :: 0 <= i < |baseAssets| ==>
      && r.value[i].id == baseAssets[i].id
      && FirstPrice(prices, baseAssets[i].symbol).Some?
      && r.value[i].usd == prices[FirstPrice(prices, baseAssets[i].symbol).value].price
  {
    if |baseAssets| == 0 then Ok([])
    else
      var rest :- PriceBases(baseAssets[1..], prices);
      var i := FirstPrice(prices, baseAssets[0].symbol);
      if i.None? then Err("TypeError: no price for base asset")
      else Ok([PricedBase(baseAssets[0].id, prices[i.value].price)] + rest)
  }

  function FirstPrice(prices: seq<BasePrice>, symbol: string): (r: Option<nat>)
    ensures r.None? <==> forall j :: 0 <= j < |prices| ==> prices[j].symbol != symbol
    ensures r.Some? ==> r.value < |prices| && prices[r.value].symbol == symbol
    ensures r.Some? ==> forall j :: 0 <= j < r.value ==> prices[j].symbol != symbol
  {
    if |prices| == 0 then None
    else if prices[0].symbol == symbol then Some(0)
    else var r := FirstPrice(prices[1..], symbol); if r.Some? then Some(r.value + 1) else None
  }

  /** An asset with the suggestion made for it. */
  datatype Considered = Considered(asset: StrategyAsset, suggested: Option<Action>)

  /** Suggests an action for every asset in turn; the first asset that raises ends the
      generation. */
  function SuggestAll(assets: seq<StrategyAsset>, instruments: nat -> Result<seq<Action>, string>, bases: seq<PricedBase>): (r: Result<seq<Considered>, string>)
    ensures r.Ok? ==> |r.value| == |assets| && forall i :: 0 <= i < |assets| ==>
      && r.value[i].asset == assets[i] && instruments(assets[i].id).Ok?
      && Suggest(assets[i], instruments(assets[i].id).value, bases) == Ok(r.value[i].suggested)
    ensures r.Err? <==> exists i :: (0 <= i < |assets| &&
      (instruments(assets[i].id).Err? || Suggest(assets[i], instruments(assets[i].id).value, bases).Err?))
  {
    if |assets| == 0 then Ok([])
    else
      var actions :- instruments(assets[0].id);
      var s :- Suggest(assets[0], actions, bases);
      var rest :- SuggestAll(assets[1..], instruments, bases);
      Ok([Considered(assets[0], s)] + rest)
  }

  /** The assets that stay in the recipe: those with a suggestion, and base assets. */
  predicate Kept(c: Considered) {
    c.suggested.Some? || c.asset.isBase
  }

  function SumShares(cs: seq<Considered>): real {
    if |cs| == 0 then 0.0 else SumShares(cs[..|cs| - 1]) + cs[|cs| - 1].asset.avgShare
  }

  /** `100 / total * share`, not finite when the total is zero. */
  function Portion(total: real, share: real): Option<real> {
    if total == 0.0 then None else Some(100.0 / total * share)
  }

  /** Gives each kept asset its percentage of the total share. */
  function Allocate(kept: seq<Considered>): (r: seq<PlannedAsset>)
    ensures |r| == |kept|
    ensures forall i :: 0 <= i < |r| ==>
      r[i].asset == kept[i].asset && r[i].suggested == kept[i].suggested
      && r[i].percentage == Portion(SumShares(kept), kept[i].asset.avgShare)
  {
    var total := SumShares(kept);
    seq(|kept|, i requires 0 <= i < |kept| => PlannedAsset(kept[i].asset, kept[i].suggested, Portion(total, kept[i].asset.avgShare)))
  }

  /** `generateRecipeDetails`. */
  function GenerateRecipeDetails(input: RecipeInputs): (r: Result<seq<PlannedAsset>, string>)
    ensures input.strategyAssets.Err? || |input.baseAssets| == 0 || input.prices.Err? ==> r.Err?
    ensures input.prices.Ok? && PriceBases(input.baseAssets, input.prices.value).Err? ==> r.Err?
    ensures r.Ok? ==> forall i :: 0 <= i < |r.value| ==> r.value[i].suggested.Some? && r.value[i].asset in input.strategyAssets.value
    ensures r.Ok? ==> forall i :: 0 <= i < |r.value| ==>
      r.value[i].percentage == Portion(SumShares(Considering(r.value)), r.value[i].asset.avgShare)
  {
    var assets :- input.strategyAssets;
    if |input.baseAssets| == 0 then Err("Couldn't find base assets")
    else
      var prices :- input.prices;
      var bases :- PriceBases(input.baseAssets, prices);
      var considered :- SuggestAll(assets, input.instruments, bases);
      var kept := Filter(considered, Kept);
      KeptAreSuggested(assets, input.instruments, bases, considered);
      var planned := Allocate(kept);
      assert Considering(planned) == kept;
      Ok(planned)
  }

  /** With readable inputs and priced base assets, the recipe is generated exactly when
      every strategy asset gets its instruments and a suggestion, and then it lists every
      base asset and every asset with a suggested action, with that suggestion. */
  lemma GenerateRecipeDetailsComplete(input: RecipeInputs)
    requires input.strategyAssets.Ok? && |input.baseAssets| > 0 && input.prices.Ok?
    requires PriceBases(input.baseAssets, input.prices.value).Ok?
    ensures var assets := input.strategyAssets.value;
      var bases := PriceBases(input.baseAssets, input.prices.value).value;
      var r := GenerateRecipeDetails(input);
      && (r.Ok? <==> forall i :: 0 <= i < |assets| ==>
            input.instruments(assets[i].id).Ok? && Suggest(assets[i], input.instruments(assets[i].id).value, bases).Ok?)
      && (r.Ok? ==> forall i :: 0 <= i < |assets| && (assets[i].isBase || Suggest(assets[i], input.instruments(assets[i].id).value, bases).value.Some?) ==>
            exists j :: (0 <= j < |r.value| && r.value[j].asset == assets[i]
                         && r.value[j].suggested == Suggest(assets[i], input.instruments(assets[i].id).value, bases).value))
  {
    var assets := input.strategyAssets.value;
    var bases := PriceBases(input.baseAssets, input.prices.value).value;
    var all := SuggestAll(assets, input.instruments, bases);
    if all.Ok? {
      var considered := all.value;
      var kept := Filter(considered, Kept);
      var r := GenerateRecipeDetails(input).value;
      assert r == Allocate(kept);
      forall i | 0 <= i < |assets| && (assets[i].isBase || Suggest(assets[i], input.instruments(assets[i].id).value, bases).value.Some?)
        ensures exists j :: (0 <= j < |r| && r[j].asset == assets[i]
                             && r[j].suggested == Suggest(assets[i], input.instruments(assets[i].id).value, bases).value)
      {
        assert Kept(considered[i]);
        assert considered[i] in kept;
        var j :| 0 <= j < |kept| && kept[j] == considered[i];
        assert r[j].asset == assets[i];
      }
    }
  }

  /** Every kept consideration carries a suggestion: a base asset is only considered
      when its suggestion succeeded, and that always names an instrument. */
  lemma KeptAreSuggested(assets: seq<StrategyAsset>, instruments: nat -> Result<seq<Action>, string>,
                         bases: seq<PricedBase>, considered: seq<Considered>)
    requires |considered| == |assets| && forall i :: 0 <= i < |assets| ==>
      && considered[i].asset == assets[i] && instruments(assets[i].id).Ok?
      && Suggest(assets[i], instruments(assets[i].id).value, bases) == Ok(considered[i].suggested)
    ensures forall i :: 0 <= i < |Filter(considered, Kept)| ==>
      Filter(considered, Kept)[i].suggested.Some? && Filter(considered, Kept)[i].asset in assets
  {
    var kept := Filter(considered, Kept);
    forall i | 0 <= i < |kept| ensures kept[i].suggested.Some? && kept[i].asset in assets {
      var j :| 0 <= j < |considered| && considered[j] == kept[i];
      if considered[j].asset.isBase {
        assert Suggest(assets[j], instruments(assets[j].id).value, bases).Ok?;
      }
    }
  }

  /** The assets and suggestions of a plan, without the percentages. */
  function Considering(ps: seq<PlannedAsset>): (r: seq<Considered>)
    ensures |r| == |ps| && forall i :: 0 <= i < |ps| ==> r[i] == Considered(ps[i].asset, ps[i].suggested)
  {
    seq(|ps|, i requires 0 <= i < |ps| => Considered(ps[i].asset, ps[i].suggested))
  }

  function SumPercentages(ps: seq<PlannedAsset>): real {
    if |ps| == 0 then 0.0 else SumPercentages(ps[..|ps| - 1]) + OrZero(ps[|ps| - 1].percentage)
  }

  /** Scaling every share by the same factor scales their sum. */
  lemma {:induction false} ScaledSum(kept: seq<Considered>, total: real)
    requires total != 0.0
    ensures SumPercentages(seq(|kept|, i requires 0 <= i < |kept| => PlannedAsset(kept[i].asset, kept[i].suggested, Portion(total, kept[i].asset.avgShare))))
            == 100.0 / total * SumShares(kept)
  {
    var f := 100.0 / total;
    var ps := seq(|kept|, i requires 0 <= i < |kept| => PlannedAsset(kept[i].asset, kept[i].suggested, Portion(total, kept[i].asset.avgShare)));
    if |kept| > 0 {
      var init := kept[..|kept| - 1];
      var last := kept[|kept| - 1];
      ScaledSum(init, total);
      assert ps[..|ps| - 1] == seq(|init|, i requires 0 <= i < |init| => PlannedAsset(init[i].asset, init[i].suggested, Portion(total, init[i].asset.avgShare)));
      calc {
        SumPercentages(ps);
        SumPercentages(ps[..|ps| - 1]) + f * last.asset.avgShare;
        f * SumShares(init) + f * last.asset.avgShare;
        f * (SumShares(init) + last.asset.avgShare);
      }
    }
  }

  /** The percentages of a generated recipe add up to 100 whenever the kept assets have a
      non-zero total share. */
  lemma AllocationSumsTo100(kept: seq<Considered>)
    requires SumShares(kept) != 0.0
    ensures SumPercentages(Allocate(kept)) == 100.0
  {
    ScaledSum(kept, SumShares(kept));
  }

  /** A share below the total. */
  lemma {:induction false} ShareBelowTotal(kept: seq<Considered>, i: nat)
    requires i < |kept|
    requires forall j :: 0 <= j < |kept| ==> kept[j].asset.avgShare >= 0.0
    ensures 0.0 <= kept[i].asset.avgShare <= SumShares(kept)
    ensures SumShares(kept) >= 0.0
  {
    if i < |kept| - 1 {
      ShareBelowTotal(kept[..|kept| - 1], i);
    } else if |kept| > 1 {
      ShareBelowTotal(kept[..|kept| - 1], 0);
    }
  }

  lemma PortionBounded(total: real, share: real)
    requires 0.0 <= share <= total && total > 0.0
    ensures Portion(total, share).Some? && 0.0 <= Portion(total, share).value <= 100.0
  {
    var f := 100.0 / total;
    assert f * share <= f * total;
  }

  /** With non-negative shares and a positive total, each percentage lies in [0, 100]. */
  lemma {:induction false} AllocationBounded(kept: seq<Considered>, i: nat)
    requires i < |kept|
    requires forall j :: 0 <= j < |kept| ==> kept[j].asset.avgShare >= 0.0
    requires SumShares(kept) > 0.0
    ensures Allocate(kept)[i].percentage.Some?
    ensures 0.0 <= Allocate(kept)[i].percentage.value <= 100.0
  {
    ShareBelowTotal(kept, i);
    PortionBounded(SumShares(kept), kept[i].asset.avgShare);
  }

  // ---------------------------------------------------------------------------
  // Recipe runs

  /** What `createRecipeRun` wrote for one planned asset: a recipe run detail, or the
      message kept in its place when the asset has no suggested action. */
  datatype DetailOutcome =
    | DetailCreated(recipeRunId: nat, transactionAssetId: int, quoteAssetId: int, targetExchangeId: int, investmentPercentage: Option<real>)
    | NoWayFound(symbol: string)

  function DetailFor(recipeRunId: nat, p: PlannedAsset): (r: DetailOutcome)
    ensures r.DetailCreated? <==> p.suggested.Some?
    ensures r.DetailCreated? ==>
      r.targetExchangeId == p.suggested.value.exchangeId && r.investmentPercentage == p.percentage
      && r.transactionAssetId == p.suggested.value.transactionAssetId
      && r.quoteAssetId == p.suggested.value.quoteAssetId && r.recipeRunId == recipeRunId
    ensures r.NoWayFound? ==> r.symbol == p.asset.symbol
  {
    if p.suggested.None? then NoWayFound(p.asset.symbol)
    else
      var a := p.suggested.value;
      DetailCreated(recipeRunId, a.transactionAssetId, a.quoteAssetId, a.exchangeId, p.percentage)
  }

  /** The store effects of `createRecipeRun`: the investment run as it stands afterwards
      (its stage change is saved even when a later step fails), the recipe run row it
      stored (kept even when saving a detail fails afterwards) and the outcome. */
  datatype RecipeRunCreation = RecipeRunCreation(investmentRun: Option<InvestmentRun>, stored: Option<RecipeRun>,
                                                 result: Result<(RecipeRun, seq<DetailOutcome>), string>)

  /** `createRecipeRun`. `pending` is a stored Pending recipe run of the investment run, if
      any; `generate` gives the recipe for a strategy; `newId` is the id the store gives
      the new recipe run, or its error; `detailSaveError` is the error of saving a detail. */
  function CreateRecipeRun(userId: int, investmentRunId: nat, pending: Option<RecipeRun>, run: Option<InvestmentRun>,
                           stageSaveError: Option<string>, generate: StrategyType -> Result<seq<PlannedAsset>, string>,
                           newId: Result<nat, string>, detailSaveError: Option<string>, now: int): (r: RecipeRunCreation)
    ensures pending.Some? ==> r.result.Err? && r.investmentRun == run && r.stored.None?
    ensures pending.None? && run.Some? && stageSaveError.None? ==>
      r.investmentRun == Some(run.value.(status := RecipeRunStage, updatedTimestamp := now))
    ensures r.stored.Some? <==>
      pending.None? && run.Some? && stageSaveError.None? && generate(run.value.strategy).Ok? && newId.Ok?
    ensures r.result.Ok? <==> r.stored.Some? && detailSaveError.None?
    ensures r.stored.Some? ==>
      var recipe := r.stored.value;
      && recipe.id == newId.value && recipe.approvalStatus == RunPending && recipe.approvalComment == ""
      && recipe.investmentRunId == investmentRunId && recipe.userCreatedId == userId && recipe.approvalUserId.None?
    ensures r.result.Ok? ==>
      var (recipe, details) := r.result.value;
      && recipe == r.stored.value
      && |details| == |generate(run.value.strategy).value|
      && forall i :: 0 <= i < |details| ==> details[i] == DetailFor(recipe.id, generate(run.value.strategy).value[i])
  {
    if pending.Some? then RecipeRunCreation(run, None, Err("There is already recipe run pending approval"))
    else match ChangeInvestmentRunStatus(Known(RecipeRunStage), run, stageSaveError, now)
      case Err(e) => RecipeRunCreation(run, None, Err(e))
      case Ok(updated) =>
        match generate(updated.strategy)
        case Err(e) => RecipeRunCreation(Some(updated), None, Err(e))
        case Ok(planned) =>
          match newId
          case Err(e) => RecipeRunCreation(Some(updated), None, Err(e))
          case Ok(id) =>
            var recipe := RecipeRun(id, investmentRunId, userId, now, RunPending, None, None, "");
            if detailSaveError.Some? then RecipeRunCreation(Some(updated), Some(recipe), Err(detailSaveError.value))
            else RecipeRunCreation(Some(updated), Some(recipe), Ok((recipe, seq(|planned|, i requires 0 <= i < |planned| => DetailFor(id, planned[i])))))
  }

  /** A failed detail save leaves the new recipe run stored and Pending, so a retry for
      the same investment run, which then finds it, is rejected. */
  lemma FailedDetailsBlockRetry(userId: int, investmentRunId: nat, run: Option<InvestmentRun>, generate: StrategyType -> Result<seq<PlannedAsset>, string>,
                                newId: Result<nat, string>, detailError: string, now: int, otherId: Result<nat, string>, later: int)
    requires run.Some? && generate(run.value.strategy).Ok? && newId.Ok?
    ensures var failed := CreateRecipeRun(userId, investmentRunId, None, run, None, generate, newId, Some(detailError), now);
      && failed.result.Err? && failed.stored.Some? && failed.stored.value.approvalStatus == RunPending
      && CreateRecipeRun(userId, investmentRunId, failed.stored, failed.investmentRun, None, generate, otherId, None, later).result.Err?
  {
  }

  /** A recipe run created here is pending, so a second request for the same investment
      run, with the new recipe run as the stored pending one, is rejected. */
  lemma OnePendingRecipeRun(userId: int, investmentRunId: nat, run: Option<InvestmentRun>, stageSaveError: Option<string>,
                            generate: StrategyType -> Result<seq<PlannedAsset>, string>, newId: Result<nat, string>, now: int,
                            otherId: Result<nat, string>, later: int)
    requires CreateRecipeRun(userId, investmentRunId, None, run, stageSaveError, generate, newId, None, now).result.Ok?
    ensures var created := CreateRecipeRun(userId, investmentRunId, None, run, stageSaveError, generate, newId, None, now);
      var recipe := created.stored.value;
      && recipe.approvalStatus == RunPending
      && CreateRecipeRun(userId, investmentRunId, Some(recipe), created.investmentRun, None, generate, otherId, None, later).result.Err?
  {
  }

  /** The outcome of `changeRecipeRunStatus`: the saved recipe run, and whether order
      generation is started for it. */
  datatype Approval = Approval(recipe: RecipeRun, generatesOrders: bool)

  /** `changeRecipeRunStatus`. An empty comment is a missing one. */
  function ChangeRecipeRunStatus(userId: int, status: Coded<RecipeRunStatus>, comment: Option<string>, run: Option<RecipeRun>,
                                 saveError: Option<string>, now: int): (r: Result<Approval, string>)
    ensures r.Err? <==> status.Unknown? || comment.None? || comment.value == "" || run.None? || saveError.Some?
    ensures r.Ok? ==>
      && r.value.recipe == run.value.(approvalStatus := status.value, approvalUserId := Some(userId),
                                      approvalTimestamp := Some(now), approvalComment := comment.value)
      && (r.value.generatesOrders <==> status.value == RunApproved && run.value.approvalStatus != RunApproved)
  {
    if status.Unknown? then Err("Unknown recipe run status")
    else if comment.None? || comment.value == "" then Err("Comment not provided")
    else if run.None? then Err("Recipe run not found")
    else if saveError.Some? then Err(saveError.value)
    else
      var previous := run.value;
      var saved := previous.(approvalStatus := status.value, approvalUserId := Some(userId),
                        approvalTimestamp := Some(now), approvalComment := comment.value);
      Ok(Approval(saved, status.value == RunApproved && previous.approvalStatus != status.value))
  }

  /** Approving an already approved recipe run saves it again but starts no second order
      generation. */
  lemma ReapprovalGeneratesNothing(userId: int, comment: string, run: RecipeRun, now: int, otherUser: int, otherComment: string, later: int)
    requires comment != "" && otherComment != ""
    ensures var first := ChangeRecipeRunStatus(userId, Known(RunApproved), Some(comment), Some(run), None, now);
      && first.Ok?
      && first.value.generatesOrders == (run.approvalStatus != RunApproved)
      && var second := ChangeRecipeRunStatus(otherUser, Known(RunApproved), Some(otherComment), Some(first.value.recipe), None, later);
         second.Ok? && !second.value.generatesOrders
  {
  }
}
