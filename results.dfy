/** Result shapes shared by the model. */
module Results {

  datatype Option<T> = None | Some(value: T)

  /** A Python call that either returns a value or raises `IndexError`
      (the only exception the tool can raise: `random.choice` on an empty list). */
  datatype Raises<T> = Returns(value: T) | IndexError
}
