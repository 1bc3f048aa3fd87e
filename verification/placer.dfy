/** The exchange order placer of `jobs/exchange-order-placer.js`: one Pending execution
    order per exchange is mapped to a ccxt order type and side and sent with
    `createOrder`; the response or the failure is written back to the order. */
module Placer {
  import opened Wrappers
  import opened Domain
  import opened Seqs
  import Registry
  import Reconciler

  /** The connector's `has` flags the placer consults. */
  datatype PlacerCaps = PlacerCaps(createMarketOrder: bool, createLimitOrder: bool)

  /** A ccxt order type and whether the exchange supports it. */
  datatype TypeChoice = TypeChoice(name: string, supported: bool)

  /** The order-type switch: Market and Limit map to their ccxt names and are supported
      as the exchange declares; Stop is never supported; anything else raises. */
  function MapType(t: OrderType, caps: PlacerCaps): (r: Result<TypeChoice, string>)
    ensures r.Err? <==> t.UnknownType?
    ensures t.Market? ==> r == Ok(TypeChoice("market", caps.createMarketOrder))
    ensures t.Limit? ==> r == Ok(TypeChoice("limit", caps.createLimitOrder))
    ensures t.Stop? ==> r.Ok? && !r.value.supported
  {
    match t
    case Market => Ok(TypeChoice("market", caps.createMarketOrder))
    case Limit => Ok(TypeChoice("limit", caps.createLimitOrder))
    case Stop => Ok(TypeChoice("", false))
    case UnknownType(_) => Err("Unknown order type. Should be market, limit or stop order.")
  }

  /** The side switch: Buy and Sell map to "buy" and "sell"; anything else raises. */
  function MapSide(s: OrderSide): (r: Result<string, string>)
    ensures r.Err? <==> s.UnknownSide?
    ensures s.Buy? ==> r == Ok("buy")
    ensures s.Sell? ==> r == Ok("sell")
  {
    match s
    case Buy => Ok("buy")
    case Sell => Ok("sell")
    case UnknownSide(_) => Err("Uknown order action. Should be either buy or sell.")
  }

  /** What `createOrder` resolves with: an order object, a bare string, or nothing. */
  datatype Response =
    | OrderObject(id: Option<string>, timestamp: Option<int>)
    | Text(text: string)
    | NoResponse

  /** `order_response == "open"` with loose equality: an object never equals a string, so
      only a bare "open" passes. */
  predicate LooselyOpen(r: Response) {
    r.Text? && r.text == "open"
  }

  /** What the store and the exchange answer for one candidate. `caps` is `None` when no
      exchange row is found; `mapping` is the external instrument id, `None` when no
      mapping row exists. */
  datatype Lookup = Lookup(caps: Option<PlacerCaps>, mapping: Option<string>, reply: Registry.CallOutcome<Response>)

  /** The failure path: one more failed attempt; Failed beyond the tolerance. */
  function CountFailure(o: ExecutionOrder, tolerance: int): (r: ExecutionOrder)
    ensures r.failedAttempts == o.failedAttempts + 1
    ensures r.status == if o.failedAttempts + 1 > tolerance then ExecStatus.Failed else o.status
    ensures r.(status := o.status, failedAttempts := o.failedAttempts) == o
  {
    var bumped := o.(failedAttempts := o.failedAttempts + 1);
    if bumped.failedAttempts > tolerance then bumped.(status := ExecStatus.Failed) else bumped
  }

  /** The success path: identifier and timestamp copied from the response (absent for a
      string), and Placed only for a loosely "open" response. A missing response makes the
      handler throw on its first line, which lands in the failure path. */
  function Accept(o: ExecutionOrder, response: Response, tolerance: int): ExecutionOrder {
    match response
    case NoResponse => CountFailure(o, tolerance)
    case OrderObject(id, ts) => o.(externalIdentifier := id, placedTimestamp := ts)
    case Text(text) =>
      var cleared := o.(externalIdentifier := None, placedTimestamp := None);
      if LooselyOpen(response) then cleared.(status := Placed) else cleared
  }

  /** One candidate. Errors raised synchronously (no exchange row, an unknown type or side,
      a missing instrument mapping when the order would be sent) stop the job. An
      unsupported type or `sendOrders` off leaves the order as it is. */
  function PlaceOne(o: ExecutionOrder, lookup: Lookup, sendOrders: bool, tolerance: int): (r: Result<ExecutionOrder, string>)
    ensures r.Ok? && lookup.caps.Some? && MapType(o.orderType, lookup.caps.value).Ok? && !MapType(o.orderType, lookup.caps.value).value.supported ==> r.value == o
    ensures r.Ok? && !sendOrders ==> r.value == o
    ensures r.Ok? && lookup.reply.Raised? ==> r.value == o || r.value == CountFailure(o, tolerance)
    ensures r.Err? <==> lookup.caps.None? || o.orderType.UnknownType? || o.side.UnknownSide?
                        || (MapType(o.orderType, lookup.caps.value).value.supported && lookup.mapping.None?)
  {
    if lookup.caps.None? then Err("exchange not found")
    else
      var choice :- MapType(o.orderType, lookup.caps.value);
      var side :- MapSide(o.side);
      if !choice.supported then Ok(o)
      else if lookup.mapping.None? then Err("no instrument mapping")
      else if !sendOrders then Ok(o)
      else match lookup.reply
        case Returned(response) => Ok(Accept(o, response, tolerance))
        case Raised(_) => Ok(CountFailure(o, tolerance))
  }

  /** Failure counting: a rejected `createOrder` adds one attempt, and the order is Failed
      exactly when the count then exceeds the tolerance. */
  lemma PlaceFailure(o: ExecutionOrder, lookup: Lookup, tolerance: int)
    requires lookup.caps.Some? && lookup.mapping.Some? && lookup.reply.Raised?
    requires MapType(o.orderType, lookup.caps.value).Ok? && MapType(o.orderType, lookup.caps.value).value.supported
    requires o.side.Buy? || o.side.Sell?
    ensures var r := PlaceOne(o, lookup, true, tolerance);
      && r.Ok?
      && r.value.failedAttempts == o.failedAttempts + 1
      && (r.value.status.Failed? <==> o.failedAttempts + 1 > tolerance || o.status.Failed?)
  {
  }

  /** An order object response records the exchange id and timestamp but never changes the
      status; only a bare "open" string marks the order Placed, and it clears both fields. */
  lemma PlaceSuccess(o: ExecutionOrder, lookup: Lookup, tolerance: int)
    requires lookup.caps.Some? && lookup.mapping.Some? && lookup.reply.Returned?
    requires MapType(o.orderType, lookup.caps.value).Ok? && MapType(o.orderType, lookup.caps.value).value.supported
    requires o.side.Buy? || o.side.Sell?
    ensures var r := PlaceOne(o, lookup, true, tolerance);
      && r.Ok?
      && (lookup.reply.value.OrderObject? ==>
            r.value == o.(externalIdentifier := lookup.reply.value.id, placedTimestamp := lookup.reply.value.timestamp))
      && (r.value.status.Placed? && !o.status.Placed? ==> r.value.externalIdentifier.None?)
  {
  }

  /** Consequence of the loose comparison: an order the placer moves to Placed has no
      external identifier, so the reconciler never selects it. */
  lemma PlacedOrdersEscapeReconciler(o: ExecutionOrder, lookup: Lookup, sendOrders: bool, tolerance: int)
    requires o.status.Pending?
    requires PlaceOne(o, lookup, sendOrders, tolerance).Ok?
    requires PlaceOne(o, lookup, sendOrders, tolerance).value.status.Placed?
    ensures !Reconciler.Selected(PlaceOne(o, lookup, sendOrders, tolerance).value)
  {
  }

  // ---------------------------------------------------------------------------
  // Candidate selection

  /** No earlier order shares the exchange of `orders[k]`. */
  predicate FirstOfExchange(orders: seq<ExecutionOrder>, k: nat)
    requires k < |orders|
  {
    forall j :: 0 <= j < k ==> orders[j].exchangeId != orders[k].exchangeId
  }

  /** Indices, from `k` on, of the orders that open their exchange's group. */
  function GroupHeads(orders: seq<ExecutionOrder>, k: nat): (r: seq<nat>)
    requires k <= |orders|
    ensures forall i :: 0 <= i < |r| ==> k <= r[i] < |orders| && FirstOfExchange(orders, r[i])
    ensures forall i :: k <= i < |orders| && FirstOfExchange(orders, i) ==> i in r
    ensures forall a, b :: 0 <= a < b < |r| ==> r[a] < r[b]
    decreases |orders| - k
  {
    if k == |orders| then []
    else if FirstOfExchange(orders, k) then [k] + GroupHeads(orders, k + 1)
    else GroupHeads(orders, k + 1)
  }

  predicate IsPending(o: ExecutionOrder) {
    o.status.Pending?
  }

  /** An exchange id that is an array index, so that an object keyed by it enumerates it
      before every other key and in ascending numeric order. */
  predicate IndexKeyed(o: ExecutionOrder) {
    0 <= o.exchangeId < 0xFFFF_FFFF
  }

  predicate NotIndexKeyed(o: ExecutionOrder) {
    !IndexKeyed(o)
  }

  /** No two orders share an exchange. */
  predicate DistinctExchanges(s: seq<ExecutionOrder>) {
    forall a, b :: 0 <= a < b < |s| ==> s[a].exchangeId != s[b].exchangeId
  }

  predicate AscendingExchanges(s: seq<ExecutionOrder>) {
    forall a, b :: 0 <= a < b < |s| ==> s[a].exchangeId < s[b].exchangeId
  }

  /** Inserts `o` before the first order with a larger exchange id. */
  function InsertByExchange(o: ExecutionOrder, s: seq<ExecutionOrder>): (r: seq<ExecutionOrder>)
    requires AscendingExchanges(s)
    requires forall i :: 0 <= i < |s| ==> s[i].exchangeId != o.exchangeId
    ensures AscendingExchanges(r)
    ensures forall x :: x in r <==> x == o || x in s
  {
    if |s| == 0 || o.exchangeId < s[0].exchangeId then [o] + s
    else
      var rest := InsertByExchange(o, s[1..]);
      assert forall i :: 0 <= i < |rest| ==> s[0].exchangeId < rest[i].exchangeId by {
        forall i | 0 <= i < |rest| ensures s[0].exchangeId < rest[i].exchangeId {
          if rest[i] != o {
            assert rest[i] in s[1..];
            var j :| 0 <= j < |s[1..]| && s[1..][j] == rest[i];
            assert s[j + 1] == rest[i];
          }
        }
      }
      [s[0]] + rest
  }

  /** Orders with distinct exchanges, by ascending exchange id. */
  function SortByExchange(s: seq<ExecutionOrder>): (r: seq<ExecutionOrder>)
    requires DistinctExchanges(s)
    ensures AscendingExchanges(r)
    ensures forall x :: x in r <==> x in s
  {
    if |s| == 0 then []
    else
      var rest := SortByExchange(s[1..]);
      assert forall i :: 0 <= i < |rest| ==> rest[i].exchangeId != s[0].exchangeId by {
        forall i | 0 <= i < |rest| ensures rest[i].exchangeId != s[0].exchangeId {
          assert rest[i] in s[1..];
          var j :| 0 <= j < |s[1..]| && s[1..][j] == rest[i];
          assert s[j + 1] == rest[i];
        }
      }
      InsertByExchange(s[0], rest)
  }

  /** The first Pending order of each exchange, in query order. */
  function GroupFirsts(orders: seq<ExecutionOrder>): (r: seq<ExecutionOrder>)
  {
    var pending := Filter(orders, IsPending);
    var heads := GroupHeads(pending, 0);
    seq(|heads|, i requires 0 <= i < |heads| => pending[heads[i]])
  }

  /** The enumeration order of an object keyed by the orders' exchange ids: array-index
      ids ascending first, then every other key in order of first appearance. */
  function KeyOrder(s: seq<ExecutionOrder>): (r: seq<ExecutionOrder>)
    requires DistinctExchanges(s)
    ensures forall x :: x in r <==> x in s
    ensures DistinctExchanges(r)
    ensures forall a, b :: 0 <= a < b < |r| && IndexKeyed(r[b]) ==> IndexKeyed(r[a]) && r[a].exchangeId < r[b].exchangeId
  {
    FilterDistinct(s, IndexKeyed);
    FilterDistinct(s, NotIndexKeyed);
    var front := SortByExchange(Filter(s, IndexKeyed));
    var back := Filter(s, NotIndexKeyed);
    SplitByKey(s);
    JoinParts(front, back);
    front + back
  }

  /** The Pending orders grouped by exchange, and the first order of each group taken,
      in the order a JavaScript object lists the group keys. */
  function Candidates(orders: seq<ExecutionOrder>): (r: seq<ExecutionOrder>)
  {
    GroupFirstsDistinct(orders);
    KeyOrder(GroupFirsts(orders))
  }

  /** Every order is array-index keyed or not, and each filter keeps only its kind. */
  lemma SplitByKey(s: seq<ExecutionOrder>)
    ensures forall x :: x in s <==> x in Filter(s, IndexKeyed) || x in Filter(s, NotIndexKeyed)
    ensures forall x :: x in Filter(s, IndexKeyed) ==> IndexKeyed(x)
    ensures forall x :: x in Filter(s, NotIndexKeyed) ==> !IndexKeyed(x)
  {
    var front := Filter(s, IndexKeyed);
    var back := Filter(s, NotIndexKeyed);
    forall x | x in s ensures x in front || x in back {
      var i :| 0 <= i < |s| && s[i] == x;
      if !IndexKeyed(s[i]) {
        assert NotIndexKeyed(s[i]);
      }
    }
    forall x | x in front ensures IndexKeyed(x) {
      var i :| 0 <= i < |front| && front[i] == x;
    }
    forall x | x in back ensures !IndexKeyed(x) {
      var i :| 0 <= i < |back| && back[i] == x;
      assert NotIndexKeyed(back[i]);
    }
  }

  /** Ascending array-index keys followed by other, distinct keys list each exchange once
      and keep every array-index key ahead of the others. */
  lemma JoinParts(front: seq<ExecutionOrder>, back: seq<ExecutionOrder>)
    requires AscendingExchanges(front) && DistinctExchanges(back)
    requires forall x :: x in front ==> IndexKeyed(x)
    requires forall x :: x in back ==> !IndexKeyed(x)
    ensures DistinctExchanges(front + back)
    ensures var r := front + back;
      forall a, b :: 0 <= a < b < |r| && IndexKeyed(r[b]) ==> IndexKeyed(r[a]) && r[a].exchangeId < r[b].exchangeId
  {
    var r := front + back;
    var n := |front|;
    forall k | 0 <= k < n ensures IndexKeyed(r[k]) {
      assert r[k] == front[k];
    }
    forall k | n <= k < |r| ensures !IndexKeyed(r[k]) {
      assert r[k] == back[k - n];
    }
    forall a, b | 0 <= a < b < |r| ensures r[a].exchangeId != r[b].exchangeId {
      if a >= n {
        assert r[a] == back[a - n] && r[b] == back[b - n];
      } else if b < n {
        assert r[a] == front[a] && r[b] == front[b];
      }
    }
    forall a, b | 0 <= a < b < |r| && IndexKeyed(r[b]) ensures IndexKeyed(r[a]) && r[a].exchangeId < r[b].exchangeId {
      assert r[a] == front[a] && r[b] == front[b];
    }
  }

  /** Keeping some orders of a sequence with distinct exchanges keeps them distinct. */
  lemma {:induction false} FilterDistinct(s: seq<ExecutionOrder>, p: ExecutionOrder -> bool)
    requires DistinctExchanges(s)
    ensures DistinctExchanges(Filter(s, p))
  {
    if |s| > 0 {
      FilterDistinct(s[1..], p);
      var rest := Filter(s[1..], p);
      if p(s[0]) {
        var r := Filter(s, p);
        assert r == [s[0]] + rest;
        forall a, b | 0 <= a < b < |r| ensures r[a].exchangeId != r[b].exchangeId {
          if a == 0 {
            var j :| 0 <= j < |s[1..]| && s[1..][j] == r[b];
            assert s[j + 1] == r[b];
          } else {
            assert r[a] == rest[a - 1] && r[b] == rest[b - 1];
          }
        }
      }
    }
  }

  lemma GroupFirstsDistinct(orders: seq<ExecutionOrder>)
    ensures DistinctExchanges(GroupFirsts(orders))
  {
    var pending := Filter(orders, IsPending);
    var heads := GroupHeads(pending, 0);
    var r := GroupFirsts(orders);
    forall a, b | 0 <= a < b < |r| ensures r[a].exchangeId != r[b].exchangeId {
      assert heads[a] < heads[b] && FirstOfExchange(pending, heads[b]);
    }
  }

  lemma GroupFirstsArePending(orders: seq<ExecutionOrder>)
    ensures var r := GroupFirsts(orders);
      forall i :: 0 <= i < |r| ==> r[i] in orders && r[i].status.Pending?
  {
    var pending := Filter(orders, IsPending);
    var heads := GroupHeads(pending, 0);
    var r := GroupFirsts(orders);
    forall i | 0 <= i < |r| ensures r[i] in orders && r[i].status.Pending? {
      assert r[i] == pending[heads[i]];
    }
  }

  lemma GroupFirstsCover(orders: seq<ExecutionOrder>)
    ensures var r := GroupFirsts(orders);
      forall o :: o in orders && o.status.Pending? ==> exists i :: 0 <= i < |r| && r[i].exchangeId == o.exchangeId
  {
    var pending := Filter(orders, IsPending);
    var heads := GroupHeads(pending, 0);
    var r := GroupFirsts(orders);
    forall o | o in orders && o.status.Pending? ensures exists i :: 0 <= i < |r| && r[i].exchangeId == o.exchangeId {
      var m :| 0 <= m < |orders| && orders[m] == o;
      assert IsPending(orders[m]);
      assert o in pending;
      var p :| 0 <= p < |pending| && pending[p] == o;
      var f := EarliestOfExchange(pending, p);
      assert f in heads;
      var i :| 0 <= i < |heads| && heads[i] == f;
      assert r[i] == pending[f];
    }
  }

  /** Exactly one candidate per exchange that has a Pending order: candidates are Pending,
      their exchanges are pairwise distinct, every exchange with a Pending order is
      represented, and the representative is that exchange's first Pending order. */
  lemma CandidatesOnePerExchange(orders: seq<ExecutionOrder>)
    ensures var r := Candidates(orders);
      && (forall i :: 0 <= i < |r| ==> r[i] in orders && r[i].status.Pending?)
      && (forall a, b :: 0 <= a < b < |r| ==> r[a].exchangeId != r[b].exchangeId)
      && (forall o :: o in orders && o.status.Pending? ==> exists i :: 0 <= i < |r| && r[i].exchangeId == o.exchangeId)
      && (forall i :: 0 <= i < |r| ==> exists m :: 0 <= m < |orders| && orders[m] == r[i] && FirstPendingOfExchange(orders, m))
  {
    CandidatesAreFirstPending(orders);
    CandidatesArePending(orders);
    CandidatesInKeyOrder(orders);
    CandidatesCover(orders);
  }

  lemma CandidatesArePending(orders: seq<ExecutionOrder>)
    ensures var r := Candidates(orders);
      forall i :: 0 <= i < |r| ==> r[i] in orders && r[i].status.Pending?
  {
    var firsts := GroupFirsts(orders);
    GroupFirstsDistinct(orders);
    GroupFirstsArePending(orders);
    var r := Candidates(orders);
    forall i | 0 <= i < |r| ensures r[i] in orders && r[i].status.Pending? {
      assert r[i] in firsts;
    }
  }

  lemma CandidatesCover(orders: seq<ExecutionOrder>)
    ensures var r := Candidates(orders);
      forall o :: o in orders && o.status.Pending? ==> exists i :: 0 <= i < |r| && r[i].exchangeId == o.exchangeId
  {
    var firsts := GroupFirsts(orders);
    GroupFirstsDistinct(orders);
    GroupFirstsCover(orders);
    var r := KeyOrder(firsts);
    assert Candidates(orders) == r;
    forall o | o in orders && o.status.Pending? ensures exists i :: 0 <= i < |r| && r[i].exchangeId == o.exchangeId {
      SameOrdersSameExchanges(firsts, r, o.exchangeId);
    }
  }

  /** Two sequences of the same orders cover the same exchanges. */
  lemma SameOrdersSameExchanges(s: seq<ExecutionOrder>, r: seq<ExecutionOrder>, e: int)
    requires forall x :: x in r <==> x in s
    requires exists i :: 0 <= i < |s| && s[i].exchangeId == e
    ensures exists k :: 0 <= k < |r| && r[k].exchangeId == e
  {
    var i :| 0 <= i < |s| && s[i].exchangeId == e;
    assert s[i] in r;
    var k :| 0 <= k < |r| && r[k] == s[i];
  }

  /** `orders[m]` is Pending and no earlier Pending order shares its exchange: it heads
      its exchange's group. */
  predicate FirstPendingOfExchange(orders: seq<ExecutionOrder>, m: nat)
    requires m < |orders|
  {
    orders[m].status.Pending?
    && forall j :: 0 <= j < m && orders[j].status.Pending? ==> orders[j].exchangeId != orders[m].exchangeId
  }

  /** The `i`-th kept element sits at some position `m` of the input, and the elements
      the filter keeps before `m` are exactly the first `i` of the result. */
  lemma {:induction false} FilterPosition(s: seq<ExecutionOrder>, p: ExecutionOrder -> bool, i: nat) returns (m: nat)
    requires i < |Filter(s, p)|
    ensures m < |s| && s[m] == Filter(s, p)[i]
    ensures Filter(s[..m], p) == Filter(s, p)[..i]
  {
    var r := Filter(s, p);
    var rest := Filter(s[1..], p);
    if p(s[0]) {
      assert r == [s[0]] + rest;
      if i == 0 {
        m := 0;
        assert s[..0] == [];
      } else {
        var m' := FilterPosition(s[1..], p, i - 1);
        m := m' + 1;
        assert s[..m][0] == s[0] && s[..m][1..] == s[1..][..m'];
        assert Filter(s[..m], p) == [s[0]] + Filter(s[1..][..m'], p);
        assert r[..i] == [s[0]] + rest[..i - 1];
      }
    } else {
      assert r == rest;
      var m' := FilterPosition(s[1..], p, i);
      m := m' + 1;
      assert s[..m][0] == s[0] && s[..m][1..] == s[1..][..m'];
      assert Filter(s[..m], p) == Filter(s[1..][..m'], p);
    }
  }

  /** Each group head is the first Pending order of its exchange in query order. */
  lemma GroupFirstsAreFirst(orders: seq<ExecutionOrder>)
    ensures var r := GroupFirsts(orders);
      forall i :: 0 <= i < |r| ==> exists m :: 0 <= m < |orders| && orders[m] == r[i] && FirstPendingOfExchange(orders, m)
  {
    var pending := Filter(orders, IsPending);
    var heads := GroupHeads(pending, 0);
    var r := GroupFirsts(orders);
    forall i | 0 <= i < |r|
      ensures exists m :: 0 <= m < |orders| && orders[m] == r[i] && FirstPendingOfExchange(orders, m)
    {
      var h := heads[i];
      assert r[i] == pending[h] && FirstOfExchange(pending, h);
      var m := FilterPosition(orders, IsPending, h);
      assert IsPending(pending[h]);
      forall j | 0 <= j < m && orders[j].status.Pending? ensures orders[j].exchangeId != orders[m].exchangeId {
        assert orders[..m][j] == orders[j] && IsPending(orders[j]);
        assert orders[j] in Filter(orders[..m], IsPending);
        assert orders[j] in pending[..h];
        var k :| 0 <= k < h && pending[..h][k] == orders[j];
        assert pending[k] == orders[j];
      }
      assert FirstPendingOfExchange(orders, m);
    }
  }

  /** Each candidate is its exchange's group head: the first Pending order of that
      exchange in query order, so no Pending order of the same exchange comes before it. */
  lemma CandidatesAreFirstPending(orders: seq<ExecutionOrder>)
    ensures var r := Candidates(orders);
      forall i :: 0 <= i < |r| ==> exists m :: 0 <= m < |orders| && orders[m] == r[i] && FirstPendingOfExchange(orders, m)
  {
    var firsts := GroupFirsts(orders);
    GroupFirstsDistinct(orders);
    GroupFirstsAreFirst(orders);
    var r := Candidates(orders);
    assert r == KeyOrder(firsts);
    forall i | 0 <= i < |r|
      ensures exists m :: 0 <= m < |orders| && orders[m] == r[i] && FirstPendingOfExchange(orders, m)
    {
      assert r[i] in firsts;
      var k :| 0 <= k < |firsts| && firsts[k] == r[i];
    }
  }

  /** No Pending order of a candidate's exchange precedes the candidate: for any Pending
      `orders[j]` on that exchange, the candidate sits at some position up to `j`. */
  lemma CandidateNotPreceded(orders: seq<ExecutionOrder>, i: nat, j: nat)
    requires i < |Candidates(orders)| && j < |orders|
    requires orders[j].status.Pending? && orders[j].exchangeId == Candidates(orders)[i].exchangeId
    ensures exists m :: 0 <= m <= j && orders[m] == Candidates(orders)[i]
  {
    CandidatesAreFirstPending(orders);
    var m :| 0 <= m < |orders| && orders[m] == Candidates(orders)[i] && FirstPendingOfExchange(orders, m);
  }

  /** The candidates come in the groups' key order: every array-index exchange id comes
      before the other keys, in strictly ascending order. */
  lemma CandidatesInKeyOrder(orders: seq<ExecutionOrder>)
    ensures var r := Candidates(orders);
      && DistinctExchanges(r)
      && (forall a, b :: 0 <= a < b < |r| && IndexKeyed(r[b]) ==> IndexKeyed(r[a]) && r[a].exchangeId < r[b].exchangeId)
  {
    GroupFirstsDistinct(orders);
  }

  /** Every order has an earliest order on the same exchange, which heads the group. */
  lemma EarliestOfExchange(orders: seq<ExecutionOrder>, p: nat) returns (f: nat)
    requires p < |orders|
    ensures f <= p && orders[f].exchangeId == orders[p].exchangeId && FirstOfExchange(orders, f)
  {
    f := p;
    while !FirstOfExchange(orders, f)
      invariant f <= p && orders[f].exchangeId == orders[p].exchangeId
      decreases f
    {
      var j :| 0 <= j < f && orders[j].exchangeId == orders[f].exchangeId;
      f := j;
    }
  }

  /** The job's result: the candidates it wrote back, in visiting order, and the error
      that stopped it, if any. */
  datatype RunResult = RunResult(written: seq<ExecutionOrder>, error: Option<string>)

  /** One run over the candidates, in visiting order; the first synchronous error stops
      the remaining candidates. `lookups` answers per exchange id. */
  function Run(candidates: seq<ExecutionOrder>, lookups: int -> Lookup, sendOrders: bool, tolerance: int): (r: RunResult)
    ensures |r.written| <= |candidates|
    ensures r.error.None? ==> |r.written| == |candidates|
    ensures forall i :: 0 <= i < |r.written| ==>
      PlaceOne(candidates[i], lookups(candidates[i].exchangeId), sendOrders, tolerance) == Ok(r.written[i])
    ensures r.error.Some? ==> (|r.written| < |candidates|
      && PlaceOne(candidates[|r.written|], lookups(candidates[|r.written|].exchangeId), sendOrders, tolerance) == Err(r.error.value))
    ensures r.error.None? <==> forall i :: 0 <= i < |candidates| ==>
      PlaceOne(candidates[i], lookups(candidates[i].exchangeId), sendOrders, tolerance).Ok?
  {
    if |candidates| == 0 then RunResult([], None)
    else
      match PlaceOne(candidates[0], lookups(candidates[0].exchangeId), sendOrders, tolerance)
      case Err(e) => RunResult([], Some(e))
      case Ok(o) =>
        var rest := Run(candidates[1..], lookups, sendOrders, tolerance);
        RunResult([o] + rest.written, rest.error)
  }
}
