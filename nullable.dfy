/** Java references that may be null. */
module Nullable {

  /** A reference that is null or refers to a value. */
  datatype Option<+T> = None | Some(value: T)

  /** String.valueOf of a String reference: its text, or "null". */
  function OrNull(s: Option<string>): (r: string)
    ensures s.Some? ==> r == s.value
  {
    match s
    case None => "null"
    case Some(t) => t
  }
}
