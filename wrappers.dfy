/** Optional values: the model's rendering of a JavaScript value that may be `null` or `undefined`. */
module Wrappers {

  datatype Option<+T> = None | Some(value: T) {

    /**
      The value held, or `default` when there is none. The source writes `x || default`;
      the two agree at each use here because the only falsy non-null value those uses can
      meet, the empty string, equals its default (and an empty array is not falsy).
     */
    function GetOr(default: T): T {
      match this
      case Some(v) => v
      case None => default
    }
  }
}
