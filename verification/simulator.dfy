/** The simulated placer of `jobs/exchange-order-simulator.js`: every Pending execution
    order of a simulated investment run is marked Placed with the identifier
    `SIM-<id>` and the current time, standing in for an exchange. */
module Simulator {
  import opened Wrappers
  import opened Domain
  import Reconciler

  /** The identifier given to a simulated order. */
  function SimIdentifier(id: nat): string {
    "SIM-" + DecimalText(id)
  }

  /** Distinct orders get distinct identifiers. */
  lemma SimIdentifierInjective(a: nat, b: nat)
    requires SimIdentifier(a) == SimIdentifier(b)
    ensures a == b
  {
    assert DecimalText(a) == SimIdentifier(a)[4..];
    assert DecimalText(b) == SimIdentifier(b)[4..];
    DecimalRoundTrip(a);
    DecimalRoundTrip(b);
  }

  /** One execution order row together with the simulation flag of its investment run. */
  datatype Row = Row(order: ExecutionOrder, simulated: bool)

  /** The query's condition. */
  predicate Selected(r: Row) {
    r.simulated && r.order.status.Pending?
  }

  /** Lines 56-58 applied to one order. */
  function MarkPlaced(o: ExecutionOrder, now: int): ExecutionOrder {
    o.(placedTimestamp := Some(now), status := Placed, externalIdentifier := Some(SimIdentifier(o.id)))
  }

  /** One run over the store. A failing query raises before any order is touched;
      otherwise every selected row is placed and every other row is left alone. */
  function Run(rows: seq<Row>, queryError: Option<string>, now: int): (r: Result<seq<Row>, string>)
    ensures queryError.Some? ==> r == Err(queryError.value)
    ensures queryError.None? ==> r.Ok? && |r.value| == |rows|
    ensures queryError.None? ==> forall i :: 0 <= i < |rows| ==>
      r.value[i] == if Selected(rows[i]) then rows[i].(order := MarkPlaced(rows[i].order, now)) else rows[i]
  {
    if queryError.Some? then Err(queryError.value)
    else Ok(seq(|rows|, i requires 0 <= i < |rows| =>
                if Selected(rows[i]) then rows[i].(order := MarkPlaced(rows[i].order, now)) else rows[i]))
  }

  /** A placed simulated order is exactly what the reconciler looks for. */
  lemma PlacedMeetsReconcilerSelection(rows: seq<Row>, now: int, i: nat)
    requires i < |rows| && Selected(rows[i])
    ensures Reconciler.Selected(Run(rows, None, now).value[i].order)
    ensures Run(rows, None, now).value[i].order.externalIdentifier == Some("SIM-" + DecimalText(rows[i].order.id))
  {
  }

  /** A second run touches nothing: the orders it placed are no longer Pending. */
  lemma RunIdempotent(rows: seq<Row>, now: int, later: int)
    ensures Run(Run(rows, None, now).value, None, later) == Run(rows, None, now)
  {
    var once := Run(rows, None, now).value;
    var twice := Run(once, None, later).value;
    assert forall i :: 0 <= i < |once| ==> !Selected(once[i]);
    assert twice == once;
  }

  /** Rows that are not Pending or not simulated are never changed. */
  lemma RunLeavesOthers(rows: seq<Row>, now: int, i: nat)
    requires i < |rows| && !Selected(rows[i])
    ensures Run(rows, None, now).value[i] == rows[i]
  {
  }
}
