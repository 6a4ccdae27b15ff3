/** Optional values and the way Python's truthiness reads them. */
module Truthiness {

  /** Python's `Optional[T]`: `None` or a value. */
  datatype Option<+T> = None | Some(value: T)

  /** `if x:` for an `Optional[int]`: both `None` and `0` read as absent. */
  predicate IdGiven(o: Option<int>)
  {
    o.Some? && o.value != 0
  }

  /** `if s:` for an `Optional[str]`: both `None` and `""` read as absent. */
  predicate TextGiven(o: Option<string>)
  {
    o.Some? && o.value != ""
  }
}
