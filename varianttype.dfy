/**
 * The null-aware equality that replaces `GLib.VariantType.__eq__`
 * (driveicon/wrappers/varianttype.py). Either side may be absent, as the
 * state type of a stateless action is.
 */
module VariantTypeEq {
  import opened Wrappers
  import opened Gio

  /** `VariantType.equal`: two type strings denote the same type. */
  predicate TypeEqual(left: VariantType, right: VariantType) {
    left.typeString == right.typeString
  }

  /** `_variant_type_equal`: equal exactly when both are absent or both are present and equal. */
  function VariantTypeEqual(left: Option<VariantType>, right: Option<VariantType>): (r: bool)
    ensures left.None? ==> (r <==> right.None?)
    ensures left.Some? && right.None? ==> !r
    ensures left.Some? && right.Some? ==> (r <==> TypeEqual(left.value, right.value))
    ensures r <==> left == right
  {
    if left.None? then right.None?
    else right.Some? && TypeEqual(left.value, right.value)
  }

  /** The comparison does not depend on which side is written first. */
  lemma VariantTypeEqualSymmetric(left: Option<VariantType>, right: Option<VariantType>)
    ensures VariantTypeEqual(left, right) == VariantTypeEqual(right, left)
  {
  }
}
