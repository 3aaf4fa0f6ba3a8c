/** Outcomes of an endpoint: a value or an error, and the committed store
    that remains once the request's session has closed. */
module Results {
  import opened Models

  datatype Option<+T> = None | Some(value: T)

  /** The failures the endpoints can end in.
      - NotFound: the explicit 404 raised when a row is absent;
      - InvalidAmount: the explicit 400 raised for an order line with amount <= 0;
      - OutOfRange: the database refuses a value outside the int4 range;
      - InvalidText: the database refuses a string holding U+0000;
      - IntegrityViolation: the database refuses a null or dangling
        `orders.user_id`;
      - NoneAttribute: an attribute read on a `None` user (an uncaught
        Python error). */
  datatype Error = NotFound | InvalidAmount | OutOfRange | InvalidText | IntegrityViolation | NoneAttribute

  /** The HTTP status the client sees for each error. */
  function Status(e: Error): (code: int)
    ensures code == 404 <==> e == NotFound
    ensures code == 400 <==> e == InvalidAmount
    ensures e != NotFound && e != InvalidAmount ==> code == 500
  {
    match e
    case NotFound => 404
    case InvalidAmount => 400
    case _ => 500
  }

  datatype Result<+T> = Ok(value: T) | Err(error: Error)

  /** The reply of a state-changing endpoint together with the store as
      committed after it. */
  datatype Step<+T> = Step(result: Result<T>, after: Store)
}
