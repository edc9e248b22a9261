/** Shared vocabulary: an optional value stands for Java's `null` and for
    JavaScript's `null`/`undefined`. */
module Util {

  datatype Option<+T> = None | Some(value: T) {

    /** The value, or `default` when absent. */
    function GetOr(default: T): T {
      match this
      case Some(v) => v
      case None => default
    }
  }

  /** `suffix` is a suffix of `s`. */
  predicate IsSuffix<T(==)>(suffix: seq<T>, s: seq<T>) {
    |suffix| <= |s| && s[|s| - |suffix|..] == suffix
  }
}
