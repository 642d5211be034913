/** Optional values. `Option` stands for a JavaScript value whose `null` and
    `undefined` states are treated alike by the code that reads it; `Nullable`
    keeps the two apart for the fields that are compared with `!== null`. */
module Wrappers {

  datatype Option<+T> = None | Some(value: T)

  /** A JavaScript field that may be `undefined`, `null` or hold a value. */
  datatype Nullable<+T> = Undefined | Null | Present(value: T) {

    /** True if the value is neither `null` nor `undefined`. */
    predicate IsDefined() {
      Present?
    }
  }
}
