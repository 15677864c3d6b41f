/** Java value types and the exceptions the forwarding channel can meet. */
module Base {

  /** One element of a Java byte[], read as its unsigned value. */
  type byte = x: int | 0 <= x < 0x100

  /** A Java int. */
  type int32 = x: int | -0x8000_0000 <= x < 0x8000_0000

  datatype Option<T> = None | Some(value: T)

  /** A computation that either returns a value or throws. */
  datatype Result<T> = Ok(value: T) | Err(failure: Failure)

  /** The exceptions that can reach the channel's catch blocks. */
  datatype Failure =
    | JSchException(message: string)
    | NullPointerException
    | ArrayIndexOutOfBoundsException
    | IndexOutOfBoundsException
    | NegativeArraySizeException
    | IOException

  /** Sequence concatenation regrouped, for proofs about logs built in steps. */
  lemma AppendAssoc<T>(x: seq<T>, y: seq<T>, z: seq<T>)
    ensures x + y + z == x + (y + z)
  {
  }
}
