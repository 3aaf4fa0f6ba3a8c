/** Request and response bodies of app/crud_models.py. Identifiers and
    timestamps appear only in responses; no body constrains the sign of an
    amount or a balance. */
module Schemas {
  import opened Models
  import opened Results

  /** `UserCreate`, used both to create and to replace a user. */
  datatype UserCreate = UserCreate(name: string, balance: int)

  datatype UserResponse = UserResponse(id: Id, name: string, balance: int, timestamp: Timestamp)

  /** `OrderBase` (and `OrderCreate`): an amount and an optional owner. */
  datatype OrderBase = OrderBase(amount: int, userId: Option<Id>)

  datatype OrderResponse = OrderResponse(id: Id, amount: int, userId: Option<Id>, timestamp: Timestamp)

  /** One user and the ordered lines to place for them. */
  datatype PlacementRequest = PlacementRequest(userId: Id, orders: seq<OrderBase>)

  datatype PlacementResponse = PlacementResponse(totalOrders: int, availableBalance: int)

  /** An order line built without a `user_id`, which then defaults to none. */
  function Line(amount: int): OrderBase {
    OrderBase(amount, None)
  }

  /** The response body serialised from a stored user row. */
  function UserView(id: Id, u: User): UserResponse {
    UserResponse(id, u.name, u.balance, u.created)
  }

  /** The response body serialised from a stored order row. */
  function OrderView(id: Id, o: Order): OrderResponse {
    OrderResponse(id, o.amount, Some(o.userId), o.created)
  }
}
