/** The limit closures `apply_alpha_limits`, `apply_beta_limits`,
    `apply_zoom_limits` and `apply_focus_limits` of the frame update, written as
    plain functions over the limit values they capture. */
module Limits {
  import opened Common

  /** Hard floor on every zoom value (radius or orthographic scale). */
  const ZoomFloor: real := 0.05

  /** `v` lies within the bounds that are present. */
  predicate Within(v: real, upper: Option<real>, lower: Option<real>) {
    (upper.None? || v <= upper.value) && (lower.None? || lower.value <= v)
  }

  /** The present bounds are not inverted. */
  predicate Consistent(upper: Option<real>, lower: Option<real>) {
    upper.None? || lower.None? || lower.value <= upper.value
  }

  /** ASSUMED definition of `util::apply_limits`, whose body is not part of this
      model: the lower bound is applied first and the upper bound last, so an
      inverted pair collapses to the upper bound. */
  function ApplyLimits(v: real, upper: Option<real>, lower: Option<real>): (r: real)
    ensures upper.Some? ==> r <= upper.value
    ensures Consistent(upper, lower) ==> Within(r, upper, lower)
    ensures Within(v, upper, lower) ==> r == v
    ensures r == v || (upper.Some? && r == upper.value) || (lower.Some? && r == lower.value)
    // Which bound an out-of-range value takes; an inverted pair always gives the upper bound.
    ensures upper.Some? && upper.value < v ==> r == upper.value
    ensures lower.Some? && v < lower.value && Consistent(upper, lower) ==> r == lower.value
    ensures !Consistent(upper, lower) ==> r == upper.value
  {
    var raised := if lower.Some? && v < lower.value then lower.value else v;
    if upper.Some? && upper.value < raised then upper.value else raised
  }

  /** `apply_zoom_limits`: the configured zoom limits, then the hard floor. */
  function ApplyZoomLimits(zoom: real, upper: Option<real>, lower: Option<real>): (r: real)
    ensures r >= ZoomFloor
    ensures r == ZoomFloor || r == ApplyLimits(zoom, upper, lower)
    ensures ApplyLimits(zoom, upper, lower) >= ZoomFloor ==> r == ApplyLimits(zoom, upper, lower)
    ensures Within(zoom, upper, lower) && zoom >= ZoomFloor ==> r == zoom
  {
    var limited := ApplyLimits(zoom, upper, lower);
    if limited < ZoomFloor then ZoomFloor else limited
  }

  /** The six focus limits captured by `apply_focus_limits`. */
  datatype FocusLimits = FocusLimits(
    xUpper: Option<real>, xLower: Option<real>,
    yUpper: Option<real>, yLower: Option<real>,
    zUpper: Option<real>, zLower: Option<real>)
  {
    predicate AllConsistent() {
      Consistent(xUpper, xLower) && Consistent(yUpper, yLower) && Consistent(zUpper, zLower)
    }

    /** `f` lies inside the (possibly unbounded) box the limits describe. */
    predicate Contains(f: Vec3) {
      Within(f.x, xUpper, xLower) && Within(f.y, yUpper, yLower) && Within(f.z, zUpper, zLower)
    }
  }

  /** `apply_focus_limits`: every axis clamped independently. */
  function ApplyFocusLimits(focus: Vec3, limits: FocusLimits): (r: Vec3)
    ensures limits.AllConsistent() ==> limits.Contains(r)
    ensures limits.Contains(focus) ==> r == focus
    ensures limits.xUpper.Some? ==> r.x <= limits.xUpper.value
    ensures limits.yUpper.Some? ==> r.y <= limits.yUpper.value
    ensures limits.zUpper.Some? ==> r.z <= limits.zUpper.value
    // The axes are clamped independently: an axis within its own limits keeps its value.
    ensures Within(focus.x, limits.xUpper, limits.xLower) ==> r.x == focus.x
    ensures Within(focus.y, limits.yUpper, limits.yLower) ==> r.y == focus.y
    ensures Within(focus.z, limits.zUpper, limits.zLower) ==> r.z == focus.z
  {
    Vec3(ApplyLimits(focus.x, limits.xUpper, limits.xLower),
         ApplyLimits(focus.y, limits.yUpper, limits.yLower),
         ApplyLimits(focus.z, limits.zUpper, limits.zLower))
  }

  /** An axis outside its limits takes the bound it crossed: the upper bound
      when above it, the lower bound when below it and the axis's limits are
      consistent. */
  lemma ApplyFocusLimitsToBound(focus: Vec3, limits: FocusLimits)
    ensures limits.xUpper.Some? && limits.xUpper.value < focus.x
      ==> ApplyFocusLimits(focus, limits).x == limits.xUpper.value
    ensures limits.yUpper.Some? && limits.yUpper.value < focus.y
      ==> ApplyFocusLimits(focus, limits).y == limits.yUpper.value
    ensures limits.zUpper.Some? && limits.zUpper.value < focus.z
      ==> ApplyFocusLimits(focus, limits).z == limits.zUpper.value
    ensures limits.xLower.Some? && focus.x < limits.xLower.value && Consistent(limits.xUpper, limits.xLower)
      ==> ApplyFocusLimits(focus, limits).x == limits.xLower.value
    ensures limits.yLower.Some? && focus.y < limits.yLower.value && Consistent(limits.yUpper, limits.yLower)
      ==> ApplyFocusLimits(focus, limits).y == limits.yLower.value
    ensures limits.zLower.Some? && focus.z < limits.zLower.value && Consistent(limits.zUpper, limits.zLower)
      ==> ApplyFocusLimits(focus, limits).z == limits.zLower.value
  {
  }
}
