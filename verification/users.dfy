/** The user endpoints of app/user.py as transitions of the store. */
module Users {
  import opened Models
  import opened Results
  import opened Schemas

  /** `GET /users/{user_id}`: the stored row, or 404. */
  function GetUser(s: Store, id: Id): (r: Result<UserResponse>)
    ensures r.Ok? <==> id in s.users
    ensures r.Ok? ==>
      && r.value.id == id
      && r.value.name == s.users[id].name
      && r.value.balance == s.users[id].balance
      && r.value.timestamp == s.users[id].created
    ensures r.Err? ==> r.error == NotFound
  {
    if id in s.users then Ok(UserView(id, s.users[id])) else Err(NotFound)
  }

  /** `GET /users/`: every stored user, each exactly as `GetUser` reports it. */
  function GetUsers(s: Store): (r: set<UserResponse>)
    ensures forall x :: x in r <==> GetUser(s, x.id) == Ok(x)
  {
    set id | id in s.users :: UserView(id, s.users[id])
  }

  /** `POST /users/`: insert one row under a fresh id, stamped `now`. Any
      balance the int4 column can hold is accepted, negative ones included;
      the database refuses a name it cannot store as text. */
  function CreateUser(s: Store, body: UserCreate, now: Timestamp): (r: Step<UserResponse>)
    ensures r.result.Ok? <==> IsInt4(body.balance) && IsText(body.name)
    ensures !IsInt4(body.balance) ==> r == Step(Err(OutOfRange), s)
    ensures IsInt4(body.balance) && !IsText(body.name) ==> r == Step(Err(InvalidText), s)
    ensures r.result.Ok? ==>
      var id := r.result.value.id;
      && r.after.users.Keys == s.users.Keys + {id}
      && r.after.users[id].name == body.name
      && r.after.users[id].balance == body.balance
      && r.after.users[id].created == now
      && (forall u :: u in s.users && u != id ==> r.after.users[u] == s.users[u])
      && r.after.orders == s.orders
      && GetUser(r.after, id) == Ok(r.result.value)
    ensures Valid(s) && r.result.Ok? ==> r.result.value.id !in s.users && OrdersOf(r.after, r.result.value.id) == {}
    ensures Valid(s) ==> Valid(r.after)
  {
    if !IsInt4(body.balance) then
      Step(Err(OutOfRange), s)
    else if !IsText(body.name) then
      Step(Err(InvalidText), s)
    else
      var id := s.nextId;
      var u := User(body.name, body.balance, now);
      Step(Ok(UserView(id, u)), Store(s.users[id := u], s.orders, s.nextId + 1))
  }

  /** `PUT /users/{user_id}`: replace exactly the name and the balance,
      as far as the database can store them. */
  function UpdateUser(s: Store, id: Id, body: UserCreate): (r: Step<UserResponse>)
    ensures r.result.Ok? <==> id in s.users && IsInt4(body.balance) && IsText(body.name)
    ensures id !in s.users ==> r == Step(Err(NotFound), s)
    ensures id in s.users && IsInt4(body.balance) && !IsText(body.name) ==> r == Step(Err(InvalidText), s)
    ensures r.result.Err? ==> r.after == s
    ensures r.result.Ok? ==>
      && r.after.users.Keys == s.users.Keys
      && r.after.users[id] == s.users[id].(name := body.name, balance := body.balance)
      && (forall u :: u in s.users && u != id ==> r.after.users[u] == s.users[u])
      && r.after.orders == s.orders
      && GetUser(r.after, id) == Ok(r.result.value)
    ensures Valid(s) ==> Valid(r.after)
  {
    if id !in s.users then
      Step(Err(NotFound), s)
    else if !IsInt4(body.balance) then
      Step(Err(OutOfRange), s)
    else if !IsText(body.name) then
      Step(Err(InvalidText), s)
    else
      var u := s.users[id].(name := body.name, balance := body.balance);
      Step(Ok(UserView(id, u)), s.(users := s.users[id := u]))
  }

  /** `DELETE /users/{user_id}`. A user who still owns orders cannot go:
      the ORM nulls the orders' `user_id`, which the NOT NULL foreign key
      refuses, and the session is discarded. */
  function DeleteUser(s: Store, id: Id): (r: Step<()>)
    ensures r.result.Ok? <==> id in s.users && OrdersOf(s, id) == {}
    ensures id !in s.users ==> r == Step(Err(NotFound), s)
    ensures r.result.Err? ==> r.after == s
    ensures r.result.Ok? ==>
      && r.after.users.Keys == s.users.Keys - {id}
      && (forall u :: u in r.after.users ==> r.after.users[u] == s.users[u])
      && r.after.orders == s.orders
      && GetUser(r.after, id) == Err(NotFound)
    ensures Valid(s) ==> Valid(r.after)
  {
    if id !in s.users then
      Step(Err(NotFound), s)
    else if OrdersOf(s, id) != {} then
      Step(Err(IntegrityViolation), s)
    else
      assert forall o :: o in s.orders ==> o !in OrdersOf(s, id);
      Step(Ok(()), s.(users := s.users - {id}))
  }

  /** Creating a user and then deleting it leaves the tables as they were. */
  lemma CreateThenDelete(s: Store, body: UserCreate, now: Timestamp)
    requires Valid(s) && IsInt4(body.balance) && IsText(body.name)
    ensures var c := CreateUser(s, body, now);
      var d := DeleteUser(c.after, c.result.value.id);
      d.result.Ok? && d.after.users == s.users && d.after.orders == s.orders
  {
  }

  /** The text column refuses a name holding U+0000: creating or renaming
      a user with such a name fails and stores nothing. */
  lemma NulNameRefused(s: Store, id: Id, balance: int, now: Timestamp)
    requires id in s.users && IsInt4(balance)
    ensures CreateUser(s, UserCreate("a\0b", balance), now) == Step(Err(InvalidText), s)
    ensures UpdateUser(s, id, UserCreate("a\0b", balance)) == Step(Err(InvalidText), s)
  {
  }
}
