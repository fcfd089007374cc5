/** The optional value of TypeScript: `None` stands for `undefined` (or `null` where the
    source treats both alike with `??` or `?.`). */
module Wrappers {

  datatype Option<T> = None | Some(value: T) {

    /** `this ?? fallback` */
    function GetOr(fallback: T): T {
      match this
      case Some(v) => v
      case None => fallback
    }

    /** `this ?? other`, where `other` may itself be absent */
    function OrElse(other: Option<T>): Option<T> {
      if Some? then this else other
    }
  }
}
