/** The conditional setter that the partial update of a product is built from. */
module AppUtils {
  import opened Wrappers

  /** The value a field holds after `updateIfNotNull(setter, value)` on a
      setter that overwrites that field, which held `current` before: the
      setter is called exactly once, with `value`, when `value` is non-null,
      and not at all when it is null. */
  function UpdateIfNotNull<T>(current: Option<T>, value: Option<T>): (r: Option<T>)
    ensures value.Some? ==> r == value
    ensures value.None? ==> r == current
  {
    if value.Some? then value else current
  }

  /** Applying the same conditional set twice is the same as applying it once. */
  lemma UpdateIfNotNullIdempotent<T>(current: Option<T>, value: Option<T>)
    ensures UpdateIfNotNull(UpdateIfNotNull(current, value), value) == UpdateIfNotNull(current, value)
  {
  }

  /** A field that holds a value still holds one afterwards: it cannot be cleared. */
  lemma UpdateIfNotNullNeverClears<T>(current: Option<T>, value: Option<T>)
    ensures current.Some? ==> UpdateIfNotNull(current, value).Some?
  {
  }
}
