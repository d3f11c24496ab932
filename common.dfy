/** Small shared vocabulary: optional values and user identifiers. */
module Common {

  /** An optional value; `None` stands for Python's `None` or an absent key. */
  datatype Option<+T> = None | Some(value: T)

  /** Primary key of a Django `User` row. */
  type UserId = nat
}
