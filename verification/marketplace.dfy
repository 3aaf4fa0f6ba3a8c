/** The five batch order-placement endpoints of app/marketplace.py.

    All five look the user up, walk the lines in input order, reject a line
    whose amount is not positive, and otherwise stage one order for the
    request's user and debit the balance by the amount; they differ in
    where they commit and in how they read the summary afterwards. An
    error raised before a commit leaves the store as it was last committed,
    because the session is discarded when the request ends. */
module Marketplace {
  import opened Models
  import opened Results
  import opened Schemas

  /** Sum of the amounts of `lines`. */
  function Total(lines: seq<OrderBase>): int
  {
    if |lines| == 0 then 0 else lines[0].amount + Total(lines[1..])
  }

  /** The error a rejected line ends the walk with. */
  function LineError(line: OrderBase): Error {
    if line.amount <= 0 then InvalidAmount else OutOfRange
  }

  /** Reference definition of a rejected line: line `k`, reached with the
      balance `balance` less the lines before it, is refused when its amount
      is not positive, or when the amount or the debited balance does not
      fit the int4 column it is written to. */
  predicate Rejects(balance: int, lines: seq<OrderBase>, k: nat)
    requires k < |lines|
  {
    || lines[k].amount <= 0
    || !IsInt4(lines[k].amount)
    || !IsInt4(balance - Total(lines[..k + 1]))
  }

  /** Every line of the batch is accepted. */
  ghost predicate AllAccepted(balance: int, lines: seq<OrderBase>) {
    forall j :: 0 <= j < |lines| ==> !Rejects(balance, lines, j)
  }

  /** Line `k` is the first line the batch rejects. */
  ghost predicate FirstRejected(balance: int, lines: seq<OrderBase>, k: nat) {
    && k < |lines|
    && Rejects(balance, lines, k)
    && forall j :: 0 <= j < k ==> !Rejects(balance, lines, j)
  }

  /** The orders staged for a batch: line `i` becomes the order with id
      `start + i`, owned by `uid` whatever the line's own `user_id` says. */
  function Batch(start: Id, uid: Id, lines: seq<OrderBase>, now: Timestamp): map<Id, Order> {
    map id: Id | start <= id < start + |lines| :: Order(AmountFor(lines, start, id), uid, now)
  }

  /** The amount of the line that order `id` of a batch starting at `start` stages. */
  function AmountFor(lines: seq<OrderBase>, start: Id, id: Id): int
    requires start <= id < start + |lines|
  {
    lines[id - start].amount
  }

  /** Closed-form reference for a staged batch: its orders inserted under
      fresh ids in input order, and the user's balance debited by their
      total. */
  function Appended(s: Store, uid: Id, lines: seq<OrderBase>, now: Timestamp): Store
    requires uid in s.users
  {
    var u := s.users[uid];
    Store(s.users[uid := u.(balance := u.balance - Total(lines))],
          s.orders + Batch(s.nextId, uid, lines, now),
          s.nextId + |lines|)
  }

  /** Stage one accepted line: `session.add` of an order for the request's
      user and `user.balance -= amount`, refused by the database when a
      value leaves the int4 range. */
  function StageLine(s: Store, uid: Id, line: OrderBase, now: Timestamp): (r: Result<Store>)
    requires uid in s.users
    ensures r.Ok? <==> IsInt4(line.amount) && IsInt4(s.users[uid].balance - line.amount)
    ensures r.Err? ==> r.error == OutOfRange
    ensures r.Ok? ==> r.value == Appended(s, uid, [line], now)
  {
    var balance := s.users[uid].balance - line.amount;
    if !IsInt4(line.amount) || !IsInt4(balance) then
      Err(OutOfRange)
    else
      var r := Store(s.users[uid := s.users[uid].(balance := balance)],
                     s.orders[s.nextId := Order(line.amount, uid, now)],
                     s.nextId + 1);
      assert Total([line]) == line.amount;
      ghost var b := Batch(s.nextId, uid, [line], now);
      assert b == map[s.nextId := Order(line.amount, uid, now)];
      assert r.orders == s.orders + b;
      Ok(r)
  }

  /** Where the walk over the lines stopped: the state with every accepted
      line staged, how many lines that is, and the error that stopped it. */
  datatype Walk = Walk(staged: Store, done: nat, failure: Option<Error>)

  /** The loop shared by all five endpoints. */
  function PlaceLines(s: Store, uid: Id, lines: seq<OrderBase>, now: Timestamp): (w: Walk)
    requires uid in s.users
    ensures w.done <= |lines|
    ensures w.failure.None? <==> w.done == |lines|
    ensures uid in w.staged.users
    decreases |lines|
  {
    if |lines| == 0 then
      Walk(s, 0, None)
    else if lines[0].amount <= 0 then
      Walk(s, 0, Some(InvalidAmount))
    else
      match StageLine(s, uid, lines[0], now)
      case Err(e) => Walk(s, 0, Some(e))
      case Ok(s1) =>
        var w := PlaceLines(s1, uid, lines[1..], now);
        w.(done := w.done + 1)
  }

  /** How the summary is read after the commit.
      - Refresh: `len(user.user_orders)` and `user.balance` of the refreshed user;
      - QueryAsWritten: the row `(User.balance, count(Order.id))` read into
        `total_orders=result[0], available_balance=result[1]`;
      - QueryCorrected: the same row read into the fields its columns hold. */
  datatype SummaryRead = Refresh | QueryAsWritten | QueryCorrected

  function Summarize(read: SummaryRead, s: Store, uid: Id): PlacementResponse
    requires uid in s.users
  {
    var count := |OrdersOf(s, uid)|;
    var balance := s.users[uid].balance;
    match read
    case Refresh => PlacementResponse(count, balance)
    case QueryAsWritten =>
      var row := (balance, count);
      PlacementResponse(row.0, row.1)
    case QueryCorrected =>
      var row := (balance, count);
      PlacementResponse(row.1, row.0)
  }

  /** `place_order_v1`: a commit after every line, so a rejected line keeps
      the lines before it. */
  function PlaceOrderV1(s: Store, req: PlacementRequest, now: Timestamp): (r: Step<PlacementResponse>)
    ensures req.userId !in s.users ==> r == Step(Err(NotFound), s)
    ensures r.result.Ok? ==> req.userId in r.after.users && r.result.value == Summarize(Refresh, r.after, req.userId)
  {
    if req.userId !in s.users then
      Step(Err(NotFound), s)
    else
      var w := PlaceLines(s, req.userId, req.orders, now);
      match w.failure
      case Some(e) => Step(Err(e), w.staged)
      case None => Step(Ok(Summarize(Refresh, w.staged, req.userId)), w.staged)
  }

  /** The loop of v2 to v5: one commit after the last line, so a rejected
      line discards the whole batch. */
  function CommitAtEnd(s: Store, uid: Id, lines: seq<OrderBase>, now: Timestamp, read: SummaryRead): (r: Step<PlacementResponse>)
    requires uid in s.users
    ensures r.result.Err? ==> r.after == s
    ensures r.result.Ok? ==> uid in r.after.users && r.result.value == Summarize(read, r.after, uid)
  {
    var w := PlaceLines(s, uid, lines, now);
    match w.failure
    case Some(e) => Step(Err(e), s)
    case None => Step(Ok(Summarize(read, w.staged, uid)), w.staged)
  }

  /** `place_order_v2`: flush per line, one commit, refreshed summary. */
  function PlaceOrderV2(s: Store, req: PlacementRequest, now: Timestamp): (r: Step<PlacementResponse>)
    ensures req.userId !in s.users ==> r == Step(Err(NotFound), s)
    ensures r.result.Err? ==> r.after == s
    ensures r.result.Ok? ==> req.userId in r.after.users && r.result.value == Summarize(Refresh, r.after, req.userId)
  {
    if req.userId !in s.users then Step(Err(NotFound), s)
    else CommitAtEnd(s, req.userId, req.orders, now, Refresh)
  }

  /** `place_order_v3`: one commit, summary from a query whose columns land
      in the wrong fields. */
  function PlaceOrderV3(s: Store, req: PlacementRequest, now: Timestamp): (r: Step<PlacementResponse>)
    ensures req.userId !in s.users ==> r == Step(Err(NotFound), s)
    ensures r.result.Err? ==> r.after == s
    ensures r.result.Ok? ==>
      && req.userId in r.after.users
      && r.result.value.totalOrders == r.after.users[req.userId].balance
      && r.result.value.availableBalance == |OrdersOf(r.after, req.userId)|
  {
    if req.userId !in s.users then Step(Err(NotFound), s)
    else CommitAtEnd(s, req.userId, req.orders, now, QueryAsWritten)
  }

  /** `place_order_v4`: v3 with the user row locked `FOR UPDATE`; run on its
      own, the lock changes nothing. */
  function PlaceOrderV4(s: Store, req: PlacementRequest, now: Timestamp): (r: Step<PlacementResponse>)
    ensures r == PlaceOrderV3(s, req, now)
  {
    if req.userId !in s.users then Step(Err(NotFound), s)
    else CommitAtEnd(s, req.userId, req.orders, now, QueryAsWritten)
  }

  /** `place_order_v5`: after the existence check the user is re-read with
      the filter `balance > 0`, once, before the loop. When the filter drops
      the row the user is `None`: a first line with a non-positive amount is
      still refused with 400, and otherwise the first attribute read on the
      user (the debit, or `user.id` in the summary query of an empty batch)
      fails. Nothing is committed either way. */
  function PlaceOrderV5(s: Store, req: PlacementRequest, now: Timestamp): (r: Step<PlacementResponse>)
    ensures req.userId !in s.users ==> r == Step(Err(NotFound), s)
    ensures r.result.Err? ==> r.after == s
    ensures req.userId in s.users && s.users[req.userId].balance <= 0 ==>
      && r.after == s
      && r.result.Err?
      && (r.result.error == InvalidAmount <==> |req.orders| > 0 && req.orders[0].amount <= 0)
    ensures req.userId in s.users && s.users[req.userId].balance > 0 ==> r == PlaceOrderV3(s, req, now)
  {
    if req.userId !in s.users then
      Step(Err(NotFound), s)
    else if s.users[req.userId].balance <= 0 then
      if |req.orders| > 0 && req.orders[0].amount <= 0 then Step(Err(InvalidAmount), s)
      else Step(Err(NoneAttribute), s)
    else
      CommitAtEnd(s, req.userId, req.orders, now, QueryAsWritten)
  }

  /** v3 with the query row read into the fields its columns hold. */
  function PlaceOrderV3Corrected(s: Store, req: PlacementRequest, now: Timestamp): (r: Step<PlacementResponse>)
    ensures req.userId !in s.users ==> r == Step(Err(NotFound), s)
    ensures r.result.Err? ==> r.after == s
    ensures r.result.Ok? ==> req.userId in r.after.users && r.result.value == Summarize(Refresh, r.after, req.userId)
  {
    if req.userId !in s.users then Step(Err(NotFound), s)
    else CommitAtEnd(s, req.userId, req.orders, now, QueryCorrected)
  }
}
