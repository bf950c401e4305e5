/** An optional value: `None` stands for a JavaScript argument or property that is `undefined`. */
module Wrappers {

  datatype Option<T> = None | Some(value: T)
  {
    /** The value, or `default` when there is none (the `x || d` and default-parameter idioms). */
    function GetOr(default: T): T
    {
      match this
      case Some(v) => v
      case None => default
    }
  }
}
