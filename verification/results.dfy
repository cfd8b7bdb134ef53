/** Failure-carrying results for the operations that raise in the Python processor. */
module Results {

  /** The exceptions the processor can raise on bad input. */
  datatype Error =
    | UnknownKey(key: string)       // KeyError on a string key (a label, or '<UNK>')
    | UnknownIndex(missing: nat)    // KeyError on an integer key of an inverse map
    | IndexOutOfRange(position: int)  // IndexError on a list

  datatype Result<+T> = Success(value: T) | Failure(error: Error)

  datatype Option<+T> = None | Some(value: T)
}
