/** Small stand-ins for the library types the domain model is written against:
    nullable values, result values, GUIDs and the domain error kinds. */
module Primitives {

  /** A value that may be absent (C#'s `T?`). */
  datatype Option<+T> = None | Some(value: T)

  /** Either a success value or an error value (`Result<T, E>`). */
  datatype Result<+T, +E> = Success(value: T) | Failure(error: E)

  /** A 128-bit globally unique identifier; `EmptyGuid` is the all-zero `Guid.Empty`. */
  datatype Guid = Guid(bits: bv128)

  const EmptyGuid: Guid := Guid(0)

  /** The kinds of domain error. The first two are the general ones, labelled with the
      name of the offending argument; the last two are specific to storage places.
      Error codes and human-readable messages are not modelled. */
  datatype Error =
    | ValueIsRequired(field: string)
    | ValueIsInvalid(field: string)
    | CannotStoreOrderInThisStoragePlace
    | OrderNotStoredInThisPlace
}
