/** The two tables of models/models.py, with the store that holds them.

    Ids are opaque primary keys handed out fresh at insert; the store keeps
    a counter `nextId` that stands in for the uuid4 generator, so an id is
    fresh exactly when it is at or above the counter. Both integer columns
    are Postgres `Integer`, i.e. 32-bit: a write outside that range fails. */
module Models {

  type Id = nat

  /** Opaque value of `func.now()` at insert. */
  type Timestamp = int

  const MinInt4: int := -0x8000_0000
  const MaxInt4: int := 0x7fff_ffff

  /** True iff `x` fits a Postgres `Integer` column. */
  predicate IsInt4(x: int) {
    MinInt4 <= x <= MaxInt4
  }

  /** True iff `s` can be stored in a Postgres text column, which cannot
      hold the character U+0000. */
  predicate IsText(s: string) {
    '\0' !in s
  }

  /** A row of `users`: non-null name and balance, stamped at insert. */
  datatype User = User(name: string, balance: int, created: Timestamp)

  /** A row of `orders`: non-null amount (of either sign) and the owning user. */
  datatype Order = Order(amount: int, userId: Id, created: Timestamp)

  datatype Store = Store(users: map<Id, User>, orders: map<Id, Order>, nextId: Id)

  /** What the schema guarantees of every committed state: primary keys
      below the id counter, int4 columns in range, names storable as text,
      and the foreign key
      `orders.user_id -> users.id` satisfied. */
  ghost predicate Valid(s: Store) {
    && (forall id :: id in s.users ==> id < s.nextId && IsInt4(s.users[id].balance) && IsText(s.users[id].name))
    && (forall id :: id in s.orders ==>
          && id < s.nextId
          && IsInt4(s.orders[id].amount)
          && s.orders[id].userId in s.users)
  }

  /** The relationship `User.user_orders`: ids of the orders whose
      `user_id` names `uid`. */
  function OrdersOf(s: Store, uid: Id): set<Id> {
    set o | o in s.orders && s.orders[o].userId == uid
  }
}
