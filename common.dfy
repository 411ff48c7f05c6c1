/** Option and Result, as the client code uses them, and the client's error type. */
module Common {

  datatype Option<T> = None | Some(value: T)

  datatype Result<T, E> = Ok(value: T) | Err(error: E)

  /** The crate's error type. Transport, HTTP and JSON failures all come back from the
      network client as one opaque error; indexing past the end of a reply is the
      panic the balance projection raises on an empty reply. */
  datatype Error =
    | ClientError(detail: string)
    | IndexOutOfBounds(index: nat, length: nat)
}
