/** Small value wrappers shared by the whole model. */
module Wrappers {

  /** A value that may be missing: JavaScript's `undefined` (or `null`). */
  datatype Option<+T> = None | Some(value: T) {

    /** The value, or a default when there is none (`x ?? d`). */
    function GetOr(default: T): T {
      match this
      case Some(v) => v
      case None => default
    }
  }

  /** A key of a partial-update object: either absent from it, or present with a value. */
  datatype Field<+T> = Absent | Present(value: T)

  /** Shallow-merge one key: a present key replaces the old value wholesale. */
  function Override<T>(old_: T, f: Field<T>): T {
    match f
    case Present(v) => v
    case Absent => old_
  }

  /** JavaScript truthiness of an optional number: absent, null and 0 are falsy. */
  predicate TruthyInt(x: Option<int>) {
    x.Some? && x.value != 0
  }

  /** JavaScript truthiness of an optional string: absent, null and "" are falsy. */
  predicate TruthyString(x: Option<string>) {
    x.Some? && x.value != ""
  }
}
