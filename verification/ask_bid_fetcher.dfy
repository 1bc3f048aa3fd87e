/** The ask/bid fetcher job (`jobs/exchange-ask-bid-fetcher.js`): for every exchange that
    has instrument mappings, fetch the order book of each mapped instrument through the
    exchange's throttle, keep the books that carry both sides, report the ones that do
    not, and insert one market-data record per kept book. The exchange replies and the
    clock are inputs. */
module AskBidFetcher {
  import opened Wrappers
  import opened Domain
  import opened Seqs
  import opened Registry

  /** An instrument listed on an exchange under the exchange's own symbol. */
  datatype Mapping = Mapping(exchangeId: int, instrumentId: int, externalInstrumentId: string)

  /** Price levels `[price, amount, ...]` of one side of a book, best first. */
  type Side = seq<seq<real>>

  /** What `fetch_order_book` gave: an array (the throttle's default after an error), or
      a book object whose sides may be absent. */
  datatype BookReply = ArrayReply | Book(asks: Option<Side>, bids: Option<Side>, timestamp: Option<int>)

  /** One fetch of the job: the exchange, the mapping and the reply. */
  datatype Fetch = Fetch(exchange: Exchange, mapping: Mapping, reply: BookReply)

  datatype PriceKind = AskPrice | BidPrice

  /** A missing-price report for one instrument. */
  datatype Report = Report(exchangeId: int, instrument: string, types: seq<PriceKind>)

  /** A row of `instrument_market_data`. The prices are absent when the best level is
      empty. */
  datatype Record = Record(exchangeId: int, instrumentId: int, timestamp: int, askPrice: Option<real>, bidPrice: Option<real>)

  /** The job's outcome: it failed (an exchange without a connector or throttle), or it
      reported the incomplete books and produced records, inserting them only when there
      is at least one. */
  datatype Outcome = JobFailed | Finished(reports: seq<Report>, records: seq<Record>, inserted: bool)

  /** Non-array, with a non-empty `asks` and a non-empty `bids`. */
  predicate Complete(r: BookReply) {
    r.Book? && r.asks.Some? && |r.asks.value| > 0 && r.bids.Some? && |r.bids.value| > 0
  }

  /** The price of the first level of one side, absent when the side has no level. */
  function BestPrice(side: Option<Side>): (r: Option<real>)
    ensures r.Some? <==> side.Some? && |side.value| > 0 && |side.value[0]| > 0
    ensures r.Some? ==> r.value == side.value[0][0]
  {
    if side.Some? && |side.value| > 0 && |side.value[0]| > 0 then Some(side.value[0][0]) else None
  }

  /** The price kinds whose best price is falsy (absent or zero), ask before bid. */
  function MissingKinds(r: BookReply): (kinds: seq<PriceKind>)
    requires r.Book?
    ensures AskPrice in kinds <==> !Truthy(BestPrice(r.asks))
    ensures BidPrice in kinds <==> !Truthy(BestPrice(r.bids))
    ensures |kinds| <= 2
  {
    (if !Truthy(BestPrice(r.asks)) then [AskPrice] else []) + (if !Truthy(BestPrice(r.bids)) then [BidPrice] else [])
  }

  function MappingsOf(mappings: seq<Mapping>, exchangeId: int): seq<Mapping> {
    Filter(mappings, (m: Mapping) => m.exchangeId == exchangeId)
  }

  /** The exchanges, in their order, that have at least one instrument mapping. */
  function WithMappings(exchanges: seq<Exchange>, mappings: seq<Mapping>): (r: seq<Exchange>)
    ensures forall i :: 0 <= i < |exchanges| ==> (exchanges[i] in r <==> |MappingsOf(mappings, exchanges[i].id)| > 0)
  {
    Filter(exchanges, (e: Exchange) => |MappingsOf(mappings, e.id)| > 0)
  }

  /** The fetches of one exchange, one per mapping, in mapping order; a raised error reads
      as the throttle's default, an empty array. */
  function FetchExchange(e: Exchange, ms: seq<Mapping>, fetch: (string, string) -> CallOutcome<BookReply>): (r: seq<Fetch>)
    ensures |r| == |ms|
    ensures forall i :: 0 <= i < |r| ==> r[i].exchange == e && r[i].mapping == ms[i]
    ensures forall i :: 0 <= i < |r| ==> fetch(e.apiId, ms[i].externalInstrumentId).Raised? ==> r[i].reply == ArrayReply
    ensures forall i :: 0 <= i < |r| ==> fetch(e.apiId, ms[i].externalInstrumentId).Returned? ==>
      r[i].reply == fetch(e.apiId, ms[i].externalInstrumentId).value
  {
    seq(|ms|, i requires 0 <= i < |ms| => Fetch(e, ms[i], Throttled(ArrayReply, fetch(e.apiId, ms[i].externalInstrumentId))))
  }

  /** The fetches of all the given exchanges, exchange by exchange. */
  function FetchAll(active: seq<Exchange>, mappings: seq<Mapping>, fetch: (string, string) -> CallOutcome<BookReply>): (r: seq<Fetch>)
    ensures forall k :: 0 <= k < |r| ==>
      r[k].exchange in active && r[k].mapping in mappings && r[k].mapping.exchangeId == r[k].exchange.id
      && r[k].reply == Throttled(ArrayReply, fetch(r[k].exchange.apiId, r[k].mapping.externalInstrumentId))
  {
    if |active| == 0 then []
    else FetchExchange(active[0], MappingsOf(mappings, active[0].id), fetch) + FetchAll(active[1..], mappings, fetch)
  }

  /** No two exchanges share an id. */
  predicate DistinctIds(active: seq<Exchange>) {
    forall a, b :: 0 <= a < b < |active| ==> active[a].id != active[b].id
  }

  function FromExchange(e: Exchange): Fetch -> bool {
    (f: Fetch) => f.exchange == e
  }

  /** Per exchange, the job fetches exactly what fetching that exchange alone does: one
      request per mapping of the exchange, in mapping order, and nothing more. */
  lemma {:induction false} FetchAllPerExchange(active: seq<Exchange>, mappings: seq<Mapping>, fetch: (string, string) -> CallOutcome<BookReply>, e: Exchange)
    requires DistinctIds(active) && e in active
    ensures Filter(FetchAll(active, mappings, fetch), FromExchange(e)) == FetchExchange(e, MappingsOf(mappings, e.id), fetch)
  {
    var head := FetchExchange(active[0], MappingsOf(mappings, active[0].id), fetch);
    var tail := FetchAll(active[1..], mappings, fetch);
    assert FetchAll(active, mappings, fetch) == head + tail;
    FilterAppend(head, tail, FromExchange(e));
    if active[0] == e {
      FilterAll(head, FromExchange(e));
      forall k | 0 <= k < |tail| ensures !FromExchange(e)(tail[k]) {
        var x := tail[k].exchange;
        assert x in active[1..];
        var j :| 0 <= j < |active[1..]| && active[1..][j] == x;
        assert active[j + 1] == x && active[0].id != active[j + 1].id;
      }
      FilterNone(tail, FromExchange(e));
    } else {
      FilterNone(head, FromExchange(e));
      assert e in active[1..];
      assert DistinctIds(active[1..]) by {
        forall a, b | 0 <= a < b < |active[1..]| ensures active[1..][a].id != active[1..][b].id {
          assert active[1..][a] == active[a + 1] && active[1..][b] == active[b + 1];
        }
      }
      FetchAllPerExchange(active[1..], mappings, fetch, e);
    }
  }

  /** The record of a complete book: ids from the mapping, best ask and bid, and the
      book's timestamp when it has a truthy one, else the current time. */
  function RecordFor(f: Fetch, now: int): (r: Record)
    requires Complete(f.reply)
  {
    Record(f.mapping.exchangeId, f.mapping.instrumentId,
           if f.reply.timestamp.Some? && f.reply.timestamp.value != 0 then f.reply.timestamp.value else now,
           BestPrice(f.reply.asks), BestPrice(f.reply.bids))
  }

  /** A fetch whose reply is a complete book. */
  predicate IsComplete(f: Fetch) {
    Complete(f.reply)
  }

  /** A fetch whose reply is a book, not the empty array, missing a best ask or bid. */
  predicate Reportable(f: Fetch) {
    f.reply.Book? && !Complete(f.reply)
  }

  /** The report of an incomplete book: its exchange, instrument and missing price kinds. */
  function ReportFor(f: Fetch): Report
    requires f.reply.Book?
  {
    Report(f.exchange.id, f.mapping.externalInstrumentId, MissingKinds(f.reply))
  }

  /** One record per complete book, position by position in fetch order. */
  function Records(fs: seq<Fetch>, now: int): (r: seq<Record>)
    ensures |r| == |Filter(fs, IsComplete)|
    ensures forall i :: 0 <= i < |r| ==> r[i] == RecordFor(Filter(fs, IsComplete)[i], now)
  {
    if |fs| == 0 then []
    else if Complete(fs[0].reply) then [RecordFor(fs[0], now)] + Records(fs[1..], now)
    else Records(fs[1..], now)
  }

  /** One report per incomplete book, position by position in fetch order; array replies
      are not reported. */
  function Reports(fs: seq<Fetch>): (r: seq<Report>)
    ensures |r| == |Filter(fs, Reportable)|
    ensures forall i :: 0 <= i < |r| ==> r[i] == ReportFor(Filter(fs, Reportable)[i])
  {
    if |fs| == 0 then []
    else if !Complete(fs[0].reply) && fs[0].reply.Book? then [ReportFor(fs[0])] + Reports(fs[1..])
    else Reports(fs[1..])
  }

  /** `JOB_BODY`. `available` holds the api ids with a connector and a throttle. */
  function Job(exchanges: seq<Exchange>, mappings: seq<Mapping>, available: set<string>,
               fetch: (string, string) -> CallOutcome<BookReply>, now: int): (r: Outcome)
    ensures r.JobFailed? <==> exists i :: 0 <= i < |exchanges| && |MappingsOf(mappings, exchanges[i].id)| > 0 && exchanges[i].apiId !in available
    ensures r.Finished? ==> (r.inserted <==> |r.records| > 0)
    ensures r.Finished? ==>
      var fs := FetchAll(WithMappings(exchanges, mappings), mappings, fetch);
      r.records == Records(fs, now) && r.reports == Reports(fs)
  {
    var active := WithMappings(exchanges, mappings);
    if exists i :: 0 <= i < |active| && active[i].apiId !in available then JobFailed
    else
      var fs := FetchAll(active, mappings, fetch);
      var records := Records(fs, now);
      Finished(Reports(fs), records, |records| > 0)
  }

  // ---------------------------------------------------------------------------
  // Properties

  /** Only exchanges with at least one mapping are fetched, and only their own
      mappings. */
  lemma OnlyMappedExchangesFetched(exchanges: seq<Exchange>, mappings: seq<Mapping>, fetch: (string, string) -> CallOutcome<BookReply>, k: nat)
    requires k < |FetchAll(WithMappings(exchanges, mappings), mappings, fetch)|
    ensures var f := FetchAll(WithMappings(exchanges, mappings), mappings, fetch)[k];
      f.exchange in exchanges && f.mapping in mappings && f.mapping.exchangeId == f.exchange.id
      && |MappingsOf(mappings, f.exchange.id)| > 0
  {
  }

  /** `fs` holds a fetch of mapping `m` on exchange `e`. */
  predicate Fetched(fs: seq<Fetch>, e: Exchange, m: Mapping) {
    exists k :: 0 <= k < |fs| && fs[k].exchange == e && fs[k].mapping == m
  }

  lemma FetchedInJoin(head: seq<Fetch>, tail: seq<Fetch>, e: Exchange, m: Mapping)
    requires Fetched(head, e, m) || Fetched(tail, e, m)
    ensures Fetched(head + tail, e, m)
  {
    if Fetched(head, e, m) {
      var k :| 0 <= k < |head| && head[k].exchange == e && head[k].mapping == m;
      assert (head + tail)[k] == head[k];
    } else {
      var k :| 0 <= k < |tail| && tail[k].exchange == e && tail[k].mapping == m;
      assert (head + tail)[|head| + k] == tail[k];
    }
  }

  /** An exchange's own fetches cover each of its mappings. */
  lemma FetchExchangeComplete(e: Exchange, mappings: seq<Mapping>, fetch: (string, string) -> CallOutcome<BookReply>, m: Mapping)
    requires m in mappings && m.exchangeId == e.id
    ensures Fetched(FetchExchange(e, MappingsOf(mappings, e.id), fetch), e, m)
  {
    var ms := MappingsOf(mappings, e.id);
    var j :| 0 <= j < |mappings| && mappings[j] == m;
    assert m in ms;
    var n :| 0 <= n < |ms| && ms[n] == m;
    assert FetchExchange(e, ms, fetch)[n].mapping == m;
  }

  /** Every mapping of every given exchange is fetched. */
  lemma {:induction false} FetchAllComplete(active: seq<Exchange>, mappings: seq<Mapping>, fetch: (string, string) -> CallOutcome<BookReply>)
    ensures forall i, m :: 0 <= i < |active| && m in mappings && m.exchangeId == active[i].id ==>
      Fetched(FetchAll(active, mappings, fetch), active[i], m)
  {
    if |active| > 0 {
      FetchAllComplete(active[1..], mappings, fetch);
      var head := FetchExchange(active[0], MappingsOf(mappings, active[0].id), fetch);
      var tail := FetchAll(active[1..], mappings, fetch);
      assert FetchAll(active, mappings, fetch) == head + tail;
      forall i, m | 0 <= i < |active| && m in mappings && m.exchangeId == active[i].id
        ensures Fetched(head + tail, active[i], m)
      {
        if i == 0 {
          FetchExchangeComplete(active[0], mappings, fetch, m);
        } else {
          assert active[i] == active[1..][i - 1];
        }
        FetchedInJoin(head, tail, active[i], m);
      }
    }
  }

  /** Exactly one record per complete book, in fetch order, carrying the mapping's ids
      and the best prices. */
  lemma RecordPerCompleteBook(fs: seq<Fetch>, now: int)
    ensures |Records(fs, now)| == |Filter(fs, IsComplete)|
    ensures forall i :: 0 <= i < |Records(fs, now)| ==>
      var f := Filter(fs, IsComplete)[i];
      var rec := Records(fs, now)[i];
      && rec.exchangeId == f.mapping.exchangeId && rec.instrumentId == f.mapping.instrumentId
      && rec.askPrice == BestPrice(f.reply.asks) && rec.bidPrice == BestPrice(f.reply.bids)
      && (f.reply.timestamp.Some? && f.reply.timestamp.value != 0 ==> rec.timestamp == f.reply.timestamp.value)
      && (f.reply.timestamp.None? || f.reply.timestamp.value == 0 ==> rec.timestamp == now)
  {
  }

  /** A fetch that answered, with a book, as opposed to the throttle's empty array. */
  predicate Answered(f: Fetch) {
    f.reply.Book?
  }

  /** A fetch that raised yields neither a record nor a report: the records and reports
      of a batch are those of its answered fetches alone, and an all-failed batch yields
      none. */
  lemma {:induction false} FailedFetchLeavesNoTrace(fs: seq<Fetch>, now: int)
    ensures Records(fs, now) == Records(Filter(fs, Answered), now)
    ensures Reports(fs) == Reports(Filter(fs, Answered))
    ensures (forall i :: 0 <= i < |fs| ==> fs[i].reply == ArrayReply) ==> Records(fs, now) == [] && Reports(fs) == []
  {
    if |fs| > 0 {
      FailedFetchLeavesNoTrace(fs[1..], now);
      if Answered(fs[0]) {
        assert Filter(fs, Answered) == [fs[0]] + Filter(fs[1..], Answered);
        assert ([fs[0]] + Filter(fs[1..], Answered))[1..] == Filter(fs[1..], Answered);
      } else {
        assert Filter(fs, Answered) == Filter(fs[1..], Answered);
      }
    }
  }

  /** A report lists the ask exactly when the book's best ask is falsy and the bid
      exactly when its best bid is; every report is about an incomplete book, and every
      incomplete book that is not an array is reported, in fetch order. */
  lemma ReportsNameMissingPrices(fs: seq<Fetch>, i: nat)
    requires i < |Reports(fs)|
    ensures exists k :: (0 <= k < |fs| && fs[k].reply.Book? && !Complete(fs[k].reply)
      && Reports(fs)[i] == Report(fs[k].exchange.id, fs[k].mapping.externalInstrumentId, MissingKinds(fs[k].reply))
      && (AskPrice in Reports(fs)[i].types <==> !Truthy(BestPrice(fs[k].reply.asks)))
      && (BidPrice in Reports(fs)[i].types <==> !Truthy(BestPrice(fs[k].reply.bids))))
    ensures |Reports(fs)| == |Filter(fs, Reportable)|
    ensures var f := Filter(fs, Reportable)[i];
      && Reports(fs)[i].exchangeId == f.exchange.id
      && Reports(fs)[i].instrument == f.mapping.externalInstrumentId
      && (AskPrice in Reports(fs)[i].types <==> !Truthy(BestPrice(f.reply.asks)))
      && (BidPrice in Reports(fs)[i].types <==> !Truthy(BestPrice(f.reply.bids)))
  {
    var f := Filter(fs, Reportable)[i];
    assert f in fs && Reportable(f);
    var k :| 0 <= k < |fs| && fs[k] == f;
  }

  /** Every incomplete book that is not an array has its report. */
  lemma IncompleteBooksReported(fs: seq<Fetch>, k: nat)
    requires k < |fs| && fs[k].reply.Book? && !Complete(fs[k].reply)
    ensures ReportFor(fs[k]) in Reports(fs)
  {
    assert Reportable(fs[k]);
    var j :| 0 <= j < |Filter(fs, Reportable)| && Filter(fs, Reportable)[j] == fs[k];
    assert Reports(fs)[j] == ReportFor(fs[k]);
  }
}
