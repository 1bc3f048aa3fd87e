/** The exchange connector registry of `utils/CCXTUtils.js`: one API client and one
    rate limiter per stored exchange, cached under the exchange's numeric id and under
    its api code, and resolved from a closed variant of exchange references. The
    one-time initialisation is modelled as already awaited. */
module Registry {
  import opened Wrappers

  datatype Exchange = Exchange(id: int, apiId: string)

  /** The API client built for one stored exchange. */
  datatype Connector = Connector(exchangeId: int, apiId: string)

  /** The throttle object: `LIM-<api>` id and the Bottleneck options. */
  datatype Limiter = Limiter(name: string, minTime: real, maxConcurrent: nat)

  datatype Maps = Maps(
    conById: map<int, Connector>,
    conByApi: map<string, Connector>,
    limById: map<int, Limiter>,
    limByApi: map<string, Limiter>)

  /** What a caller may pass as `exchange_data`: a number, an api-code string, an
      exchange-shaped object whose fields may be missing, `null`, or anything else. */
  datatype ExchangeRef =
    | ById(id: int)
    | ByCode(code: string)
    | ByRecord(recordId: Option<int>, recordApiId: Option<string>)
    | NullRef
    | OtherRef

  const SlowExchange: string := "bitfinex"

  /** Bottleneck options of an exchange's limiter, `configured` being CONFIG.ccxt_request_mintime. */
  function LimiterFor(apiId: string, configured: real): (l: Limiter)
    ensures l.maxConcurrent == 1
    ensures l.name == "LIM-" + apiId
    ensures apiId == SlowExchange ==> l.minTime == 6.0 * configured
    ensures apiId != SlowExchange ==> l.minTime == configured
  {
    Limiter("LIM-" + apiId, if apiId != SlowExchange then configured else configured * 6.0, 1)
  }

  /** Registers the exchanges in store order; a later exchange with an already used
      id or code overwrites that key, as the plain-object caches do. */
  function Register(exchanges: seq<Exchange>, configured: real): Maps
  {
    if |exchanges| == 0 then Maps(map[], map[], map[], map[])
    else
      var m := Register(exchanges[..|exchanges| - 1], configured);
      var e := exchanges[|exchanges| - 1];
      var c := Connector(e.id, e.apiId);
      var l := LimiterFor(e.apiId, configured);
      Maps(m.conById[e.id := c], m.conByApi[e.apiId := c], m.limById[e.id := l], m.limByApi[e.apiId := l])
  }

  /** The cache initialisation. `available` holds the api codes for which the client
      library has a constructor and market loading succeeds; any other exchange makes
      the shared initialisation promise reject, and with it every lookup. */
  function Initialise(exchanges: seq<Exchange>, configured: real, available: set<string>): (r: Result<Maps, string>)
    ensures r.Ok? <==> forall i :: 0 <= i < |exchanges| ==> exchanges[i].apiId in available
    ensures r.Ok? ==> r.value == Register(exchanges, configured)
  {
    if forall i :: 0 <= i < |exchanges| ==> exchanges[i].apiId in available
    then Ok(Register(exchanges, configured))
    else Err("exchange client construction or market loading failed")
  }

  predicate UniqueKeys(exchanges: seq<Exchange>) {
    forall i, j :: 0 <= i < j < |exchanges| ==>
      exchanges[i].id != exchanges[j].id && exchanges[i].apiId != exchanges[j].apiId
  }

  /** Exchange `e` is registered under both of its keys with its own connector and limiter. */
  ghost predicate RegisteredUnderBothKeys(m: Maps, e: Exchange, configured: real) {
    && e.id in m.conById && e.apiId in m.conByApi
    && e.id in m.limById && e.apiId in m.limByApi
    && m.conById[e.id] == m.conByApi[e.apiId] == Connector(e.id, e.apiId)
    && m.limById[e.id] == m.limByApi[e.apiId] == LimiterFor(e.apiId, configured)
  }

  /** The id cache holds exactly the stored exchanges' ids. */
  lemma {:induction false} RegisterIdKeys(exchanges: seq<Exchange>, configured: real)
    ensures Register(exchanges, configured).conById.Keys == (set i | 0 <= i < |exchanges| :: exchanges[i].id)
  {
    if |exchanges| > 0 {
      var init := exchanges[..|exchanges| - 1];
      RegisterIdKeys(init, configured);
      var ids := set i | 0 <= i < |exchanges| :: exchanges[i].id;
      var initIds := set i | 0 <= i < |init| :: init[i].id;
      forall x | x in ids ensures x in initIds + {exchanges[|exchanges| - 1].id} {
        var i :| 0 <= i < |exchanges| && exchanges[i].id == x;
        if i < |init| { assert init[i].id == x; }
      }
      forall x | x in initIds ensures x in ids {
        var i :| 0 <= i < |init| && init[i].id == x;
        assert exchanges[i].id == x;
      }
    }
  }

  /** With unique ids and codes (the store's constraints), every exchange is reachable
      under both keys, and both keys hold the same connector and the same limiter. */
  lemma {:induction false} RegisterConsistent(exchanges: seq<Exchange>, configured: real)
    requires UniqueKeys(exchanges)
    ensures forall i :: 0 <= i < |exchanges| ==> RegisteredUnderBothKeys(Register(exchanges, configured), exchanges[i], configured)
  {
    if |exchanges| > 0 {
      var init := exchanges[..|exchanges| - 1];
      var last := exchanges[|exchanges| - 1];
      assert UniqueKeys(init);
      RegisterConsistent(init, configured);
      forall i | 0 <= i < |exchanges|
        ensures RegisteredUnderBothKeys(Register(exchanges, configured), exchanges[i], configured)
      {
        if i < |init| {
          assert init[i] == exchanges[i];
          assert RegisteredUnderBothKeys(Register(init, configured), init[i], configured);
          assert exchanges[i].id != last.id && exchanges[i].apiId != last.apiId;
        }
      }
    }
  }

  /** `from_exchange_data`: a number resolves through the id map, a string through the
      code map, an object by id first and by code when the id lookup finds nothing;
      `null` makes the property access throw; anything else yields `null`. */
  function Resolve<V>(byId: map<int, V>, byApi: map<string, V>, ref: ExchangeRef): (r: Result<Option<V>, string>)
    ensures ref.ById? ==> r == Ok(if ref.id in byId then Some(byId[ref.id]) else None)
    ensures ref.ByCode? ==> r == Ok(if ref.code in byApi then Some(byApi[ref.code]) else None)
    ensures ref.ByRecord? && ref.recordId.Some? && ref.recordId.value in byId ==> r == Ok(Some(byId[ref.recordId.value]))
    ensures ref.ByRecord? && (ref.recordId.None? || ref.recordId.value !in byId) ==>
      r == Ok(if ref.recordApiId.Some? && ref.recordApiId.value in byApi then Some(byApi[ref.recordApiId.value]) else None)
    ensures ref.NullRef? <==> r.Err?
    ensures ref.OtherRef? ==> r == Ok(None)
  {
    match ref
    case ById(id) => Ok(if id in byId then Some(byId[id]) else None)
    case ByCode(code) => Ok(if code in byApi then Some(byApi[code]) else None)
    case ByRecord(rid, rapi) =>
      if rid.Some? && rid.value in byId then Ok(Some(byId[rid.value]))
      else if rapi.Some? && rapi.value in byApi then Ok(Some(byApi[rapi.value]))
      else Ok(None)
    case NullRef => Err("cannot read property 'id' of null")
    case OtherRef => Ok(None)
  }

  /** `getConnector`: a failed load is rethrown; otherwise the reference is resolved
      in the connector cache. */
  function GetConnector(reg: Result<Maps, string>, ref: ExchangeRef): (r: Result<Option<Connector>, string>)
    ensures reg.Err? ==> r == Err(reg.error)
    ensures reg.Ok? ==> (r.Err? <==> ref.NullRef?)
    ensures r.Ok? && r.value.Some? ==> r.value.value in reg.value.conById.Values || r.value.value in reg.value.conByApi.Values
  {
    if reg.Err? then Err(reg.error) else Resolve(reg.value.conById, reg.value.conByApi, ref)
  }

  /** `getThrottle`: the same resolution in the limiter cache. */
  function GetThrottle(reg: Result<Maps, string>, ref: ExchangeRef): (r: Result<Option<Limiter>, string>)
    ensures reg.Err? ==> r == Err(reg.error)
    ensures reg.Ok? ==> (r.Err? <==> ref.NullRef?)
    ensures r.Ok? && r.value.Some? ==> r.value.value in reg.value.limById.Values || r.value.value in reg.value.limByApi.Values
  {
    if reg.Err? then Err(reg.error) else Resolve(reg.value.limById, reg.value.limByApi, ref)
  }

  /** Whatever reference form names a registered exchange, the connector and the limiter
      found are the ones built for that exchange. */
  lemma LookupAgrees(exchanges: seq<Exchange>, configured: real, available: set<string>, i: int, ref: ExchangeRef)
    requires UniqueKeys(exchanges)
    requires forall k :: 0 <= k < |exchanges| ==> exchanges[k].apiId in available
    requires 0 <= i < |exchanges|
    requires ref == ById(exchanges[i].id) || ref == ByCode(exchanges[i].apiId)
          || ref == ByRecord(Some(exchanges[i].id), None) || ref == ByRecord(None, Some(exchanges[i].apiId))
    ensures GetConnector(Initialise(exchanges, configured, available), ref)
      == Ok(Some(Connector(exchanges[i].id, exchanges[i].apiId)))
    ensures GetThrottle(Initialise(exchanges, configured, available), ref)
      == Ok(Some(LimiterFor(exchanges[i].apiId, configured)))
  {
    RegisterConsistent(exchanges, configured);
    assert RegisteredUnderBothKeys(Register(exchanges, configured), exchanges[i], configured);
  }

  /** A throttled call's outcome: the wrapped function's value or the error it raised. */
  datatype CallOutcome<+T> = Returned(value: T) | Raised(message: string)

  /** `throttled(default_return, fn, ...args)`: never raises; an error becomes the default. */
  function Throttled<T>(default: T, outcome: CallOutcome<T>): (r: T)
    ensures outcome.Returned? ==> r == outcome.value
    ensures outcome.Raised? ==> r == default
  {
    match outcome
    case Returned(v) => v
    case Raised(_) => default
  }

  /** `allConnectors(exchange_ids)`: every connector for a null or empty filter, otherwise
      exactly those whose id is listed. */
  function AllConnectors(reg: Result<Maps, string>, filter: Option<seq<int>>): (r: Result<map<int, Connector>, string>)
    ensures reg.Err? <==> r.Err?
    ensures r.Ok? && (filter.None? || |filter.value| == 0) ==> r.value == reg.value.conById
    ensures r.Ok? && filter.Some? && |filter.value| > 0 ==>
      r.value.Keys == reg.value.conById.Keys * (set k | k in filter.value)
      && forall k :: k in r.value ==> r.value[k] == reg.value.conById[k]
  {
    if reg.Err? then Err(reg.error)
    else if filter.None? || |filter.value| == 0 then Ok(reg.value.conById)
    else Ok(map k | k in reg.value.conById && k in filter.value :: reg.value.conById[k])
  }
}
