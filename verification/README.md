# Marketplace order placement, modelled in Dafny

A model of a small FastAPI/SQLAlchemy service that keeps users with an
integer balance and orders that debit them. Its core is the batch
order-placement endpoint, written five times (`/marketplace/v1/` to
`/marketplace/v5/`), which looks up a user, walks an ordered list of order
lines, refuses a line whose amount is not positive, stages one order per
line while decrementing the balance, commits, and reports
`{total_orders, available_balance}`. Around it sit plain create/read/update/
delete endpoints for users and orders.

The database is an immutable value `Store`: a map from user id to
`User(name, balance, created)`, a map from order id to
`Order(amount, userId, created)`, and an id counter that stands in for the
uuid4 generator (an id is fresh when it is at or above the counter). Every
state-changing endpoint is a pure function `Store × request → Step`, where
`Step(result, after)` pairs the reply (`Ok(value)` or `Err(error)`) with the
store as committed once the request's session closes. An error raised
before a commit leaves the last committed store, because the session is
discarded without committing. `GetUser` and `GetOrder` return a `Result`; the
two listings return a set; no read changes the store.

Modules (one per source file, plus `Results`, `PlacementProofs` and `Scenarios`, which support them):

- `Models` (models/models.py): ids, timestamps, the int4 range of the
  `Integer` columns, the two row types, the store, the schema invariant
  `Valid` (keys below the id counter, int4 columns in range, names free of
  U+0000, which a Postgres text column cannot hold, and every order's
  `user_id` names an existing user), and `OrdersOf`, the `user_orders`
  relationship.
- `Results`: the errors the endpoints end in, with their HTTP status, and
  `Result`/`Step`.
- `Schemas` (app/crud_models.py): `UserCreate` (name and balance only),
  `UserResponse`, `OrderBase` (an int amount and an optional `user_id`,
  absent by default), `OrderResponse`, `PlacementRequest` (one user id and
  an ordered sequence of lines) and `PlacementResponse` (exactly two ints).
  None of them constrains the sign of an amount or a balance.
- `Users` (app/user.py) and `Orders` (app/order.py): the CRUD endpoints.
- `Marketplace` (app/marketplace.py): the loop shared by the five variants
  (`PlaceLines`), its closed-form reference (`Appended`: the lines' orders
  under fresh ids in input order, the user's balance down by their total),
  the rejection test `Rejects`, the three ways of reading the summary, and
  the five endpoints.
- `PlacementProofs`: the loop against its reference, the commit point of
  each variant, the summaries, and preservation of `Valid`.
- `Scenarios`: concrete batches showing the differences between variants.

The variants differ as follows. v1 commits after every line, so a refused
line keeps the lines before it. v2 to v5 commit once after the loop, so a
refused line changes nothing. v1 and v2 report the refreshed user's order
count and balance. v3 to v5 read the row `(User.balance, count(Order.id))`
after the commit and assign `total_orders=result[0]`,
`available_balance=result[1]`, so the two fields come back swapped. v4 adds a
row lock, which has no effect on a single request. v5 first re-reads the
user with the filter `balance > 0`. When the balance is not positive that
read yields no user, and the request fails with nothing committed: with 400
if the first line's amount is not positive, otherwise with the error of
reading an attribute of `None`.

A line's amount and the debited balance are written to 32-bit `Integer`
columns. A value outside that range makes the database refuse the write.
This appears as `OutOfRange`, which in v1 keeps the committed prefix and in
v2 to v5 discards the batch. There is no other floor on the balance:
placement can take it below zero.

All five variants are modelled. Order CRUD stores
amounts of any sign. Placement may leave a negative balance.

## Model

| member | source | states |
|---|---|---|
| `Results.Status` | app/marketplace.py:22-27 | a missing row answers 404, a non-positive line 400, every other failure 500 |
| `Users.GetUser` | app/user.py:29-36 | succeeds exactly when the id is stored, with that row's id, name, balance and timestamp; otherwise 404 |
| `Users.GetUsers` | app/user.py:23-27 | the listing holds exactly the users `GetUser` returns |
| `Users.CreateUser` | app/user.py:15-21 | accepts exactly the int4 balances, negative ones included, with a name a text column can hold (else 500, no change); adds one user under an id not in use, with the given name and balance, stamped `now`; other users and all orders unchanged; the created user reads back as returned and owns no orders; keeps `Valid` |
| `Users.UpdateUser` | app/user.py:38-47 | 404 and no change for a missing id; a balance outside int4 or a name holding U+0000 is refused with no change; otherwise replaces exactly name and balance (id, timestamp and the user's orders untouched); keeps `Valid` |
| `Users.DeleteUser` | app/user.py:49-55 | 404 and no change for a missing id; removes exactly that user when it owns no orders, and refuses without change when it does; keeps `Valid` |
| `Users.NulNameRefused` | models/models.py:20 | a name holding U+0000 is refused by the text column on create and on update, and nothing changes |
| `Users.CreateThenDelete` | app/user.py:15-55 | deleting a freshly created user restores both tables |
| `Orders.GetOrder` | app/order.py:31-36 | succeeds exactly when the id is stored, with that row's id, amount, owner and timestamp; otherwise 404 |
| `Orders.GetOrders` | app/order.py:25-29 | the listing holds exactly the orders `GetOrder` returns |
| `Orders.CreateOrder` | app/order.py:17-23 | succeeds exactly when the amount fits int4 and the owner exists, with no sign check; adds one order under a fresh id with the given amount and owner, stamped `now`; never changes a user; keeps `Valid` |
| `Orders.UpdateOrder` | app/order.py:38-47 | 404 and no change for a missing id; an amount outside int4, or an owner that is absent or not stored, is refused with no change; otherwise replaces exactly amount and owner, keeping id and timestamp; never changes a user (no re-debit); keeps `Valid` |
| `Orders.DeleteOrder` | app/order.py:49-55 | 404 and no change for a missing id; otherwise removes only that order; never changes a user (no refund); keeps `Valid` |
| `Orders.UpdateOrderMovesOwnership` | app/order.py:43-44 | an update moves the order from its old owner's `user_orders` to the new owner's and leaves every other list alone |
| `Orders.CreateOrderIgnoresSign` | app/order.py:19-21 | an order of amount zero or below is stored as given and the owner's balance is untouched |
| `Marketplace.StageLine` | app/marketplace.py:28-31 | staging a line succeeds exactly when the amount and the debited balance fit int4, and then equals the reference batch of that one line |
| `Marketplace.PlaceLines` | app/marketplace.py:44-50 | the loop handles at most all lines, finishes without error exactly when it handled all of them, and keeps the user |
| `Marketplace.PlaceOrderV1` | app/marketplace.py:17-34 | an unknown user gives 404 with no change; a success reports the refreshed user's order count and balance |
| `Marketplace.CommitAtEnd` | app/marketplace.py:44-54 | a failed batch leaves the store exactly as before; a success reports the summary of the committed store |
| `Marketplace.PlaceOrderV2` | app/marketplace.py:36-54 | unknown user gives 404 with no change; any failure leaves the store unchanged; a success reports order count and balance |
| `Marketplace.PlaceOrderV3` | app/marketplace.py:56-76 | unknown user gives 404 with no change; any failure leaves the store unchanged; a success reports the balance as `total_orders` and the order count as `available_balance` |
| `Marketplace.PlaceOrderV4` | app/marketplace.py:78-99 | run on its own, v4 behaves exactly like v3 |
| `Marketplace.PlaceOrderV5` | app/marketplace.py:101-130 | unknown user gives 404 with no change; with a balance of zero or below it always fails with nothing persisted, with 400 exactly when the first line is not positive; with a positive balance it is v3 |
| `Marketplace.PlaceOrderV3Corrected` | app/marketplace.py:73-76 | the v3 query read into the fields its columns hold reports order count and balance |
| `PlacementProofs.PlaceLinesSpec` | app/marketplace.py:44-50 | the loop stages exactly the lines before the first refused one, in input order, as the reference batch, and stops with that line's error (400 for an amount of zero or below) |
| `PlacementProofs.StopsAtFirstRejected` | app/marketplace.py:44-46 | lines are checked in input order: the loop stops at the first refused line |
| `PlacementProofs.CompletesIffAllAccepted` | app/marketplace.py:44-50 | the loop completes exactly when no line is refused, and then has staged the whole batch |
| `PlacementProofs.PlaceOrderV1Outcome` | app/marketplace.py:25-31 | v1 succeeds exactly when no line is refused; a batch refused at line k persists the first k orders and their debits and reports line k's error |
| `PlacementProofs.CommitAtEndOutcome` | app/marketplace.py:64-72 | the single commit succeeds exactly when no line is refused, committing the whole batch; a refusal at any line leaves the store exactly as before |
| `PlacementProofs.PlaceOrderV2Outcome` | app/marketplace.py:44-52 | v2, v3 and v4 are all-or-nothing: the whole batch or no change, with the first refused line's error |
| `PlacementProofs.PlaceOrderV5Outcome` | app/marketplace.py:111-126 | past its one-time `balance > 0` filter, v5 is all-or-nothing like v2 |
| `PlacementProofs.BatchUsers` | app/marketplace.py:28-30 | a placed batch lowers the request user's balance by exactly the sum of the amounts, with no floor, and changes no other user |
| `PlacementProofs.BatchOrders` | app/marketplace.py:28-29 | a placed batch keeps every existing order; line i becomes a new order under a fresh id with line i's amount, owned by the request's user whatever the line's own `user_id` |
| `PlacementProofs.BatchCounts` | app/marketplace.py:28-34 | a placed batch adds exactly as many orders as lines, all to the request user's `user_orders`; other users' lists are unchanged |
| `PlacementProofs.AppendedValid` | models/models.py:18-41 | staging accepted lines keeps keys fresh, int4 columns in range and every order's owner present |
| `PlacementProofs.PlacementPreservesValid` | app/marketplace.py:17-130 | every variant keeps the schema invariant, on success, on a committed prefix and on failure |
| `PlacementProofs.SummaryOfAppended` | app/marketplace.py:73-76 | after a batch, each summary reading reports the old order count plus the lines and the old balance minus their total, in its own field order |
| `PlacementProofs.CommitAtEndSuccess` | app/marketplace.py:52-54 | a fully accepted batch commits the reference batch and reports that store's summary |
| `PlacementProofs.SummaryOnSuccess` | app/marketplace.py:53-76 | on success v1 and v2 report (count, balance) while v3, v4 and v5 report (balance, count), both in terms of the store before the call |
| `PlacementProofs.CorrectedSummaryOnSuccess` | app/marketplace.py:73-76 | the corrected v3 reading agrees with v2 on every accepted batch |
| `PlacementProofs.EmptyBatchIsNoop` | app/marketplace.py:44-54 | an empty batch changes nothing in any variant |
| `Scenarios.NoBalanceFloor` | app/marketplace.py:111-123 | two lines of 6 against a balance of 10 succeed in every variant, v5 included, and leave -2 |
| `Scenarios.MixedBatch` | app/marketplace.py:25-31 | `[10, -1, 5]` is refused with 400; v1 keeps the first order and its debit, and v2 to v5 change nothing |
| `Scenarios.V5RefusesEmptyBalance` | app/marketplace.py:111-127 | with a balance of 0, v5 refuses `[5]` (500), `[0, 5]` (400) and `[]` (500) with nothing persisted, while v2 accepts `[5]` |
| `Scenarios.SwappedSummary` | app/marketplace.py:74-76 | one line of 10 against 100 leaves one order, yet v3 reports `total_orders` 90 and `available_balance` 1 |

## Left out

- Concurrency and row locking: the `with_for_update` of v4 and the lost-update races the variants illustrate are not modelled; requests run one at a time, so v4 is v3.
- SQLAlchemy session mechanics (`flush`, `refresh`, `populate_existing`, relationship loading, `expire_on_commit`) are abstracted as staged versus committed store state.
- uuid4 ids are replaced by a counter that yields an unused id; `func.now()` is a `now` parameter of each inserting call. v1's per-line transactions stamp all their orders with the same `now`.
- The balance default of 0 (models/models.py:22) is not modelled: `UserCreate` always carries a balance, so the default never applies through these endpoints.
- Deleting a user who still owns orders is modelled as a refused delete with no change. The ORM would null the orders' `user_id`, and the NOT NULL foreign key refuses that. Cascade rules or a database schema other than the one models/models.py declares are not modelled.
- Listings are sets: the order in which the database returns rows is not modelled.
- HTTP plumbing beyond an error tag, the timing `print` in `get_user`, and pydantic parsing of UUIDs and ints are left out.
- The admin UI (admin/main.py), router wiring (app/main.py), engine and session factory (app/session.py) and settings loading (config/config.py) are not part of this model.

## Findings

| source | as written | input that shows it | evidently intended | confidence | as-written member | corrected member |
|---|---|---|---|---|---|---|
| app/marketplace.py:74-76 (also 97-99, 128-130) | the row `(User.balance, count(Order.id))` is read as `total_orders=result[0], available_balance=result[1]` | a user with balance 100 and no orders places one line of 10 through v3: reply `total_orders=90, available_balance=1` | `total_orders=1, available_balance=90`, as v1 and v2 report | high; not executed | `Scenarios.SwappedSummary` (on `Marketplace.PlaceOrderV3`) | `Marketplace.PlaceOrderV3Corrected`, proved in `PlacementProofs.CorrectedSummaryOnSuccess` |
