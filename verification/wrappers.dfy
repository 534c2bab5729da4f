/** The optional value used for the pipeline's two hand-off slots and for
    every "value or nothing" the pipeline computes (Python's `None`). */
module Wrappers {

  datatype Option<+T> = None | Some(value: T) {

    /** The held value, or `other` when this is None (Python's `a if a is not None else b`). */
    function OrElse(other: Option<T>): (r: Option<T>)
      ensures Some? ==> r == this
      ensures None? ==> r == other
    {
      match this
      case Some(_) => this
      case None => other
    }
  }
}
