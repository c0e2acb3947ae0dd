/** The conventional optional value: `None` stands for JavaScript's
    `undefined` (an absent argument, a missing property, a failed lookup). */
module Wrappers {
  datatype Option<+T> = None | Some(value: T) {
    function GetOr(default: T): T {
      match this
      case Some(v) => v
      case None => default
    }
  }
}
