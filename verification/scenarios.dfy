/** Concrete runs of the placement endpoints that exhibit their observable
    differences. */
module Scenarios {
  import opened Models
  import opened Results
  import opened Schemas
  import opened Marketplace
  import opened PlacementProofs

  /** One user, id 7, with balance `balance` and no orders. */
  function OneUser(balance: int): Store {
    Store(map[7 := User("ann", balance, 0)], map[], 8)
  }

  /** Nothing stops a balance from going negative, and v5's `balance > 0`
      filter is read once: two lines of 6 against a balance of 10 both go
      through, in every variant, leaving -2. v1 and v2 report two orders
      and a balance of -2; v3 to v5 report them swapped. */
  lemma NoBalanceFloor()
    ensures var s := OneUser(10);
      var req := PlacementRequest(7, [Line(6), Line(6)]);
      && PlaceOrderV1(s, req, 0).result == Ok(PlacementResponse(2, -2))
      && PlaceOrderV2(s, req, 0).result == Ok(PlacementResponse(2, -2))
      && PlaceOrderV3(s, req, 0).result == Ok(PlacementResponse(-2, 2))
      && PlaceOrderV4(s, req, 0).result == Ok(PlacementResponse(-2, 2))
      && PlaceOrderV5(s, req, 0).result == Ok(PlacementResponse(-2, 2))
      && PlaceOrderV5(s, req, 0).after.users[7].balance == -2
  {
    var s := OneUser(10);
    var lines := [Line(6), Line(6)];
    var req := PlacementRequest(7, lines);
    assert lines[..1] == [Line(6)] && lines[..2] == lines;
    assert Total(lines[..1]) == 6 && Total(lines) == 12;
    assert !Rejects(10, lines, 0) && !Rejects(10, lines, 1);
    assert OrdersOf(s, 7) == {};
    SummaryOnSuccess(s, req, 0);
    CommitAtEndOutcome(s, 7, lines, 0, QueryAsWritten);
    BatchUsers(s, 7, lines, 0);
  }

  /** The batch `[10, -1, 5]` is refused with 400 at its second line. v1
      has already committed the first line; v2 to v5 leave the store as it
      was. */
  lemma MixedBatch()
    ensures var s := OneUser(100);
      var req := PlacementRequest(7, [Line(10), Line(-1), Line(5)]);
      var r1 := PlaceOrderV1(s, req, 0);
      && r1.result == Err(InvalidAmount)
      && r1.after.users[7].balance == 90
      && |OrdersOf(r1.after, 7)| == 1
      && PlaceOrderV2(s, req, 0) == Step(Err(InvalidAmount), s)
      && PlaceOrderV3(s, req, 0) == Step(Err(InvalidAmount), s)
      && PlaceOrderV4(s, req, 0) == Step(Err(InvalidAmount), s)
      && PlaceOrderV5(s, req, 0) == Step(Err(InvalidAmount), s)
  {
    var s := OneUser(100);
    var lines := [Line(10), Line(-1), Line(5)];
    var req := PlacementRequest(7, lines);
    assert lines[..1] == [Line(10)];
    assert Total(lines[..1]) == 10;
    assert !Rejects(100, lines, 0) && Rejects(100, lines, 1);
    assert FirstRejected(100, lines, 1);
    PlaceOrderV1Outcome(s, req, 0);
    PlaceOrderV2Outcome(s, req, 0);
    PlaceOrderV5Outcome(s, req, 0);
    BatchUsers(s, 7, lines[..1], 0);
    BatchCounts(s, 7, lines[..1], 0);
    assert OrdersOf(s, 7) == {};
  }

  /** With a balance of 0, v5 refuses these three batches and commits
      nothing: `[5]` hits the missing user (500), `[0, 5]` is refused with
      400 before that, and `[]` fails reading the missing user's id (500).
      That v5 refuses every batch at such a balance is stated by the
      contract of `PlaceOrderV5`. */
  lemma V5RefusesEmptyBalance()
    ensures var s := OneUser(0);
      && PlaceOrderV5(s, PlacementRequest(7, [Line(5)]), 0) == Step(Err(NoneAttribute), s)
      && PlaceOrderV5(s, PlacementRequest(7, [Line(0), Line(5)]), 0) == Step(Err(InvalidAmount), s)
      && PlaceOrderV5(s, PlacementRequest(7, []), 0) == Step(Err(NoneAttribute), s)
      && PlaceOrderV2(s, PlacementRequest(7, [Line(5)]), 0).result.Ok?
  {
  }

  /** v3 reports the balance as the order count: one line of 10 against a
      balance of 100 leaves one order, yet `total_orders` is 90 and
      `available_balance` is 1. The corrected reading reports 1 and 90. */
  lemma SwappedSummary()
    ensures var s := OneUser(100);
      var req := PlacementRequest(7, [Line(10)]);
      var r := PlaceOrderV3(s, req, 0);
      && r.result == Ok(PlacementResponse(90, 1))
      && |OrdersOf(r.after, 7)| == 1
      && r.result.value.totalOrders != |OrdersOf(r.after, 7)|
      && PlaceOrderV3Corrected(s, req, 0).result == Ok(PlacementResponse(1, 90))
  {
    var s := OneUser(100);
    var lines := [Line(10)];
    var req := PlacementRequest(7, lines);
    assert lines[..1] == lines && Total(lines) == 10;
    assert !Rejects(100, lines, 0);
    assert OrdersOf(s, 7) == {};
    SummaryOnSuccess(s, req, 0);
    CorrectedSummaryOnSuccess(s, req, 0);
  }
}
