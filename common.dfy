/** Vocabulary shared by the bookstore model: identifiers, optional values and handler outcomes. */
module Common {

  /** Identifiers of users, books and carts. The store's object ids are modelled as plain
      comparable values; a cart's id is its position in the cart collection. */
  type UserId = nat
  type BookId = nat
  type CartId = nat

  datatype Option<+T> = None | Some(value: T)

  /** The failure kinds a handler reports, with the HTTP status each handler answers with. */
  datatype Error =
    | ValidationError  // 400: the document fails its schema when it is saved
    | NotFound         // 404: the record is absent or not owned by the caller (not distinguished)
    | InvalidState     // 400: checkout while no pending cart exists
    | Unexpected       // 500: a fault inside the handler

  /** The answer of a handler that returns a value. */
  datatype Result<+T> = Ok(value: T) | Err(error: Error)

  /** The answer of a handler that returns only a message. */
  datatype Outcome = Pass | Fail(error: Error)
}
