/** The Python values that cross file boundaries in airnet: optional values,
    results that carry an exception, the numbers the reader produces, and the
    keys an element table can be indexed by. */
module Values {

  datatype Option<+T> = None | Some(value: T) {
    function GetOr(default: T): T {
      if Some? then value else default
    }
  }

  /** A computation that either produced a value or raised a Python exception. */
  datatype Result<+T> = Ok(value: T) | Err(error: Exception) {
    predicate IsFailure() {
      Err?
    }

    function PropagateFailure<U>(): Result<U>
      requires Err?
    {
      Err(error)
    }

    function Extract(): T
      requires Ok?
    {
      value
    }
  }

  /** Why the reader raised BadNetworkInput. */
  datatype Reason =
    | ExtraTitle           // a second title while a non-empty one is stored
    | NodeType             // node type other than v, c, a
    | NodeFields           // too few fields on a node line
    | ElementFields        // too few fields on the first line of an element
    | MissingContinuation  // end of input where a second element line was expected
    | ContinuationFields   // too few fields on the second line of an element
    | MissingFanData       // end of input inside the data points of a fan
    | FanPointFields       // too few fields on a fan data point
    | UnknownElement       // element kind not recognised
    | LinkFields           // too few fields on a link line

  /** The exceptions the core can raise. BadNetworkInput carries the reader's
      line counter at the moment it was raised. */
  datatype Exception =
    | BadNetworkInput(line: nat, reason: Reason)
    | IndexError
    | ValueError
    | KeyError
    | TypeError
    | AttributeError
    | ZeroDivisionError

  /** What the reader's handle_float makes of a token: the token itself
      (handle_float is noop) or the floating-point value float() parsed. */
  datatype Number = Raw(token: string) | Float(value: real)

  /** The reader's ElementType enumeration (it has no member for prv). */
  datatype ElementType = PLR | DWC | DOR | CFR | FAN | CPF | QFR | CKV

  /** A key of an element table: an ElementType member or a string.
      In Python an enumeration member never equals a string. */
  datatype Key = EnumKey(member: ElementType) | StrKey(text: string)
}
