/** Optional and failing values.  `None` stands for a pandas/numpy NaN or a
    Python `None`; `Err` stands for an exception the source raises. */
module Wrappers {

  datatype Option<+T> = None | Some(value: T) {
    function GetOr(default: T): T {
      match this
      case Some(v) => v
      case None => default
    }
  }

  /** `combine_first`: the first value when present, the fallback otherwise. */
  function CombineFirst<T>(a: Option<T>, b: Option<T>): (r: Option<T>)
    ensures a.Some? ==> r == a
    ensures a.None? ==> r == b
  {
    if a.Some? then a else b
  }

  datatype Result<+T, +E> = Ok(value: T) | Err(error: E)

  /** The Python exceptions the modelled code can raise. */
  datatype Error =
    | ZeroDivision            // ZeroDivisionError
    | KeyMissing(key: string) // KeyError on a dictionary or table lookup
    | BadValue(what: string)  // an explicit `raise Exception(...)` or ValueError
    | NoneOperand             // TypeError from arithmetic on None
}
