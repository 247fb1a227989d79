/** Option and Result values, standing for C#'s nullable values and thrown exceptions. */
module Wrappers {

  datatype Option<+T> = None | Some(value: T)

  datatype Result<+R, +E> = Ok(value: R) | Err(error: E)

  /** The items a loop yields before it goes on with `rest`: in front of what `rest` yields, or its
      exception instead. */
  function Prepend<T, E>(xs: seq<T>, rest: Result<seq<T>, E>): Result<seq<T>, E> {
    match rest
    case Ok(more) => Ok(xs + more)
    case Err(e) => Err(e)
  }

  lemma PrependAppend<T, E>(xs: seq<T>, x: T, rest: Result<seq<T>, E>)
    ensures Prepend(xs, Prepend([x], rest)) == Prepend(xs + [x], rest)
  {
    if rest.Ok? {
      assert xs + ([x] + rest.value) == (xs + [x]) + rest.value;
    }
  }
}
