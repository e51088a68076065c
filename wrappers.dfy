/** Option and Result datatypes shared by every module of the model. */
module Wrappers {

  /** A value that may be absent: a SQL NULL, a missing JSON field, a lookup miss. */
  datatype Option<+T> = None | Some(value: T)

  /** The outcome of a call that can fail with an error of type E. */
  datatype Result<+T, +E> = Ok(value: T) | Err(error: E)

  /** JavaScript's `x || d` on a nullable string: NULL and '' are both falsy. */
  function OrElse(x: Option<string>, d: string): (r: string)
    ensures r == d || x == Some(r)
    ensures r == d <== x == None || x == Some("")
    ensures x.Some? && x.value != "" ==> r == x.value
  {
    match x
    case Some(s) => if s != "" then s else d
    case None => d
  }

  /** JavaScript's `x || d` on a string that is never NULL. */
  function Or(s: string, d: string): (r: string)
    ensures r == (if s == "" then d else s)
  {
    if s != "" then s else d
  }

  /** JavaScript's `x || undefined`: an empty or NULL value becomes absent. */
  function Present(x: Option<string>): (r: Option<string>)
    ensures r.Some? <==> x.Some? && x.value != ""
    ensures r.Some? ==> r == x
  {
    match x
    case Some(s) => if s != "" then x else None
    case None => None
  }
}
