/** The order endpoints of app/order.py as transitions of the store. None of
    them looks at the sign of an amount, and none of them touches a balance:
    creating an order debits nothing, changing it re-debits nothing and
    deleting it refunds nothing. */
module Orders {
  import opened Models
  import opened Results
  import opened Schemas

  /** The database accepts `owner` in the NOT NULL foreign-key column. */
  predicate OwnerExists(s: Store, owner: Option<Id>) {
    owner.Some? && owner.value in s.users
  }

  /** `GET /orders/{order_id}`: the stored row, or 404. */
  function GetOrder(s: Store, id: Id): (r: Result<OrderResponse>)
    ensures r.Ok? <==> id in s.orders
    ensures r.Ok? ==>
      && r.value.id == id
      && r.value.amount == s.orders[id].amount
      && r.value.userId == Some(s.orders[id].userId)
      && r.value.timestamp == s.orders[id].created
    ensures r.Err? ==> r.error == NotFound
  {
    if id in s.orders then Ok(OrderView(id, s.orders[id])) else Err(NotFound)
  }

  /** `GET /orders/`: every stored order, each exactly as `GetOrder` reports it. */
  function GetOrders(s: Store): (r: set<OrderResponse>)
    ensures forall x :: x in r <==> GetOrder(s, x.id) == Ok(x)
  {
    set id | id in s.orders :: OrderView(id, s.orders[id])
  }

  /** `POST /orders/`: insert one order under a fresh id, stamped `now`. The amount is
      stored as given, zero and negative amounts included; only the int4
      range and the foreign key are enforced, by the database. */
  function CreateOrder(s: Store, body: OrderBase, now: Timestamp): (r: Step<OrderResponse>)
    ensures r.result.Ok? <==> IsInt4(body.amount) && OwnerExists(s, body.userId)
    ensures r.result.Err? ==> r.after == s
    ensures r.after.users == s.users
    ensures r.result.Ok? ==>
      var id := r.result.value.id;
      && r.after.orders.Keys == s.orders.Keys + {id}
      && r.after.orders[id].amount == body.amount
      && Some(r.after.orders[id].userId) == body.userId
      && r.after.orders[id].created == now
      && (forall o :: o in s.orders && o != id ==> r.after.orders[o] == s.orders[o])
      && GetOrder(r.after, id) == Ok(r.result.value)
    ensures Valid(s) && r.result.Ok? ==> r.result.value.id !in s.orders
    ensures Valid(s) ==> Valid(r.after)
  {
    if !IsInt4(body.amount) then
      Step(Err(OutOfRange), s)
    else if !OwnerExists(s, body.userId) then
      Step(Err(IntegrityViolation), s)
    else
      var id := s.nextId;
      var o := Order(body.amount, body.userId.value, now);
      Step(Ok(OrderView(id, o)), Store(s.users, s.orders[id := o], s.nextId + 1))
  }

  /** `PUT /orders/{order_id}`: replace exactly the amount and the owner,
      which may move the order to another user. */
  function UpdateOrder(s: Store, id: Id, body: OrderBase): (r: Step<OrderResponse>)
    ensures r.result.Ok? <==> id in s.orders && IsInt4(body.amount) && OwnerExists(s, body.userId)
    ensures id !in s.orders ==> r == Step(Err(NotFound), s)
    ensures r.result.Err? ==> r.after == s
    ensures r.after.users == s.users
    ensures r.result.Ok? ==>
      && r.after.orders.Keys == s.orders.Keys
      && r.after.orders[id].amount == body.amount
      && Some(r.after.orders[id].userId) == body.userId
      && r.after.orders[id].created == s.orders[id].created
      && (forall o :: o in s.orders && o != id ==> r.after.orders[o] == s.orders[o])
      && GetOrder(r.after, id) == Ok(r.result.value)
    ensures Valid(s) ==> Valid(r.after)
  {
    if id !in s.orders then
      Step(Err(NotFound), s)
    else if !IsInt4(body.amount) then
      Step(Err(OutOfRange), s)
    else if !OwnerExists(s, body.userId) then
      Step(Err(IntegrityViolation), s)
    else
      var o := s.orders[id].(amount := body.amount, userId := body.userId.value);
      Step(Ok(OrderView(id, o)), s.(orders := s.orders[id := o]))
  }

  /** `DELETE /orders/{order_id}`: remove that order and nothing else. */
  function DeleteOrder(s: Store, id: Id): (r: Step<()>)
    ensures r.result.Ok? <==> id in s.orders
    ensures r.result.Err? ==> r == Step(Err(NotFound), s)
    ensures r.after.users == s.users
    ensures r.result.Ok? ==>
      && r.after.orders.Keys == s.orders.Keys - {id}
      && (forall o :: o in r.after.orders ==> r.after.orders[o] == s.orders[o])
      && GetOrder(r.after, id) == Err(NotFound)
    ensures Valid(s) ==> Valid(r.after)
  {
    if id !in s.orders then
      Step(Err(NotFound), s)
    else
      Step(Ok(()), s.(orders := s.orders - {id}))
  }

  /** Moving an order with `UpdateOrder` takes it out of the old owner's
      `user_orders` and puts it into the new owner's; every other user's
      list is unchanged. */
  lemma UpdateOrderMovesOwnership(s: Store, id: Id, body: OrderBase, uid: Id)
    requires UpdateOrder(s, id, body).result.Ok?
    ensures var after := UpdateOrder(s, id, body).after;
      && (uid == body.userId.value ==> OrdersOf(after, uid) == OrdersOf(s, uid) + {id})
      && (uid != body.userId.value ==> OrdersOf(after, uid) == OrdersOf(s, uid) - {id})
  {
  }

  /** Order creation accepts a non-positive amount, in contrast with
      placement: the order is stored and the owner's balance stays put. */
  lemma CreateOrderIgnoresSign(s: Store, uid: Id, amount: int, now: Timestamp)
    requires uid in s.users && MinInt4 <= amount <= 0
    ensures var r := CreateOrder(s, OrderBase(amount, Some(uid)), now);
      && r.result.Ok?
      && r.after.orders[r.result.value.id].amount == amount
      && r.after.users[uid].balance == s.users[uid].balance
  {
  }
}
