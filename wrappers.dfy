/** Optional values, and the three states a key of a Python dict can be in. */
module Wrappers {

  datatype Option<T> = None | Some(value: T)

  /**
   * A key of the workflow's state dictionary: missing from the dict (`Absent`),
   * present and bound to Python's `None` (`Null`), or present with a value.
   * `state.get(k, d)` and `state[k]` differ on `Absent` only.
   */
  datatype Slot<T> = Absent | Null | Val(value: T)
  {
    /** `state.get(k)` as an Option: both `Absent` and `Null` read as `None`. */
    function Get(): Option<T> {
      if Val? then Some(value) else None
    }
  }

  /** Python truthiness of an optional string: neither None nor "". */
  predicate TruthyStr(o: Option<string>) {
    o.Some? && o.value != ""
  }

  /** Python truthiness of a string-valued dict key. */
  predicate TruthySlot(s: Slot<string>) {
    s.Val? && s.value != ""
  }
}
