/** Java's nullable references, as values: `None` stands for `null`. */
module Wrappers {

  datatype Option<+T> = None | Some(value: T) {

    /** The wrapped value, or `default` when there is none. */
    function GetOr(default: T): T {
      match this
      case Some(v) => v
      case None => default
    }

    /** The value as a sequence of at most one element. */
    function ToSeq(): (r: seq<T>)
      ensures |r| <= 1 && (r == [] <==> None?)
      ensures Some? ==> r == [value]
    {
      match this
      case Some(v) => [v]
      case None => []
    }
  }

  /** Two lists one after the other; when either is missing (its computation failed),
      so is the result. */
  function Joined<T>(x: Option<seq<T>>, y: Option<seq<T>>): Option<seq<T>> {
    if x.Some? && y.Some? then Some(x.value + y.value) else None
  }
}
