/** The pure steps of the per-camera frame update: the input of one frame, the
    upside-down test, and how rotation, pan and zoom input move the targets. */
module Motion {
  import opened Common
  import opened Limits

  datatype ScrollUnit = Line | Pixel

  /** A mouse-wheel event: line-based (a wheel) or pixel-based (a touchpad). */
  datatype ScrollEvent = ScrollEvent(unit: ScrollUnit, x: real, y: real)

  /** The input one camera sees in one frame. The button and key flags are
      already resolved against this camera's orbit, pan and touchpad-orbit
      bindings and modifiers; `mouseDelta` is the sum of this frame's mouse
      motion events. */
  datatype FrameInput = FrameInput(
    orbitPressed: bool,
    panPressed: bool,
    orbitJustPressed: bool,
    orbitJustReleased: bool,
    touchpadOrbitModifier: bool,
    mouseDelta: Vec2,
    scroll: seq<ScrollEvent>,
    magnify: seq<real>,
    rotate: seq<real>)

  /** What the input of one frame accumulates to. */
  datatype Gathered = Gathered(
    pan: Vec2, rotation: Vec2, scrollLine: real, scrollPixel: real, orbitButtonChanged: bool)

  const NoInput: Gathered := Gathered(Zero2, Zero2, 0.0, 0.0, false)

  /** Sum of the vertical amounts of the line-based scroll events. */
  function LineScrollSum(events: seq<ScrollEvent>): real {
    if events == [] then 0.0
    else
      var last := events[|events| - 1];
      LineScrollSum(events[..|events| - 1]) + (if last.unit == Line then last.y else 0.0)
  }

  /** Sum of the pixel-based scroll events, as a vector. */
  function PixelScrollSum(events: seq<ScrollEvent>): Vec2 {
    if events == [] then Zero2
    else
      var last := events[|events| - 1];
      Add2(PixelScrollSum(events[..|events| - 1]), if last.unit == Pixel then Vec2(last.x, last.y) else Zero2)
  }

  function Sum(xs: seq<real>): real {
    if xs == [] then 0.0 else Sum(xs[..|xs| - 1]) + xs[|xs| - 1]
  }

  /** What one scroll event adds to the line zoom amount: its vertical
      amount scaled by `d` and `k` if it is line-based, nothing otherwise. */
  function LineStep(ev: ScrollEvent, d: real, k: real): real {
    if ev.unit == Line then ev.y * d * k else 0.0
  }

  /** What one scroll event adds to the pixel movement: its movement scaled
      by `k` if it is pixel-based, nothing otherwise. */
  function PixelStep(ev: ScrollEvent, k: real): Vec2 {
    if ev.unit == Pixel then Scale2(Vec2(ev.x, ev.y), k) else Zero2
  }

  /** The line zoom amount as the input step adds it up, event by event. */
  function LineZoom(events: seq<ScrollEvent>, d: real, k: real): real {
    if events == [] then 0.0 else LineZoom(events[..|events| - 1], d, k) + LineStep(events[|events| - 1], d, k)
  }

  /** The pixel movement as the input step adds it up, event by event. */
  function PixelMove(events: seq<ScrollEvent>, k: real): Vec2 {
    if events == [] then Zero2 else Add2(PixelMove(events[..|events| - 1], k), PixelStep(events[|events| - 1], k))
  }

  lemma LineZoomStep(events: seq<ScrollEvent>, i: nat, d: real, k: real, before: real, after: real)
    requires i < |events|
    requires before == LineZoom(events[..i], d, k)
    requires after == before + LineStep(events[i], d, k)
    ensures after == LineZoom(events[..i + 1], d, k)
  {
    assert events[..i + 1][..i] == events[..i];
  }

  lemma PixelMoveStep(events: seq<ScrollEvent>, i: nat, k: real, base: Vec2, before: Vec2, after: Vec2)
    requires i < |events|
    requires before == Add2(base, PixelMove(events[..i], k))
    requires after == Add2(before, PixelStep(events[i], k))
    ensures after == Add2(base, PixelMove(events[..i + 1], k))
  {
    PixelMovePrefix(events, i, k);
    Add2Associates(base, PixelMove(events[..i], k), PixelStep(events[i], k));
  }

  lemma PixelMovePrefix(events: seq<ScrollEvent>, i: nat, k: real)
    requires i < |events|
    ensures PixelMove(events[..i + 1], k) == Add2(PixelMove(events[..i], k), PixelStep(events[i], k))
  {
    assert events[..i + 1][..i] == events[..i];
  }

  /** Scaling each line event is scaling their sum. */
  lemma {:induction false} LineZoomFactors(events: seq<ScrollEvent>, d: real, k: real)
    ensures LineZoom(events, d, k) == LineScrollSum(events) * d * k
    decreases |events|
  {
    if events != [] {
      var last := events[|events| - 1];
      LineZoomFactors(events[..|events| - 1], d, k);
      ScaledSum(LineScrollSum(events[..|events| - 1]), if last.unit == Line then last.y else 0.0, d, k);
      assert LineStep(last, d, k) == (if last.unit == Line then last.y else 0.0) * d * k;
    }
  }

  lemma ScaledSum(a: real, b: real, d: real, k: real)
    ensures a * d * k + b * d * k == (a + b) * d * k
  {}

  /** Scaling each pixel event is scaling their sum. */
  lemma {:induction false} PixelMoveFactors(events: seq<ScrollEvent>, k: real)
    ensures PixelMove(events, k) == Scale2(PixelScrollSum(events), k)
    decreases |events|
  {
    if events != [] {
      var last := events[|events| - 1];
      PixelMoveFactors(events[..|events| - 1], k);
      Scale2OverAdd(PixelScrollSum(events[..|events| - 1]), if last.unit == Pixel then Vec2(last.x, last.y) else Zero2, k);
    }
  }

  lemma SumStep(xs: seq<real>, i: nat)
    requires i < |xs|
    ensures Sum(xs[..i + 1]) == Sum(xs[..i]) + xs[i]
  {
    assert xs[..i + 1][..i] == xs[..i];
  }

  /** The camera's sensitivities and zoom direction, as the input step reads them. */
  datatype Sensitivity = Sensitivity(orbit: real, pan: real, zoom: real, reversedZoom: bool)

  function ZoomDirection(reversedZoom: bool): real {
    if reversedZoom then -1.0 else 1.0
  }

  /** What one frame of input accumulates to for a camera that takes input:
      mouse motion orbits while the orbit binding is held and pans only
      otherwise; line scroll zooms; pixel scroll orbits with the touchpad
      modifier held and pans without it; magnify zooms twice as fast and
      touchpad rotation orbits three times as fast as their raw amounts. */
  function Accumulate(input: FrameInput, s: Sensitivity): Gathered {
    Gathered(
      ScrolledPan(input, s, MousePan(input, s)),
      Rotated(input.rotate, s.orbit, ScrolledRotation(input, s, MouseRotation(input, s))),
      LineZoom(input.scroll, ZoomDirection(s.reversedZoom), s.zoom),
      Sum(input.magnify) * s.zoom * 2.0,
      input.orbitJustPressed || input.orbitJustReleased)
  }

  /** Mouse motion orbits while the orbit binding is held... */
  function MouseRotation(input: FrameInput, s: Sensitivity): Vec2 {
    if input.orbitPressed then Scale2(input.mouseDelta, s.orbit) else Zero2
  }

  /** ...and pans only when the pan binding is held without it. */
  function MousePan(input: FrameInput, s: Sensitivity): Vec2 {
    if !input.orbitPressed && input.panPressed then Scale2(input.mouseDelta, s.pan) else Zero2
  }

  /** Pixel scroll pans `base` unless the touchpad orbit modifier is held. */
  function ScrolledPan(input: FrameInput, s: Sensitivity, base: Vec2): Vec2 {
    if input.touchpadOrbitModifier then base else Add2(base, PixelMove(input.scroll, s.pan))
  }

  /** Pixel scroll orbits `base` while the touchpad orbit modifier is held. */
  function ScrolledRotation(input: FrameInput, s: Sensitivity, base: Vec2): Vec2 {
    if input.touchpadOrbitModifier then Add2(base, PixelMove(input.scroll, s.orbit)) else base
  }

  /** Touchpad rotation turns `base` horizontally, three times its raw amount. */
  function Rotated(rotate: seq<real>, orbit: real, base: Vec2): Vec2 {
    Vec2(base.x + Sum(rotate) * orbit * 3.0, base.y)
  }

  /** The line zoom amount of a frame is the sum of the line events' raw
      amounts, scaled once by the zoom direction and sensitivity. */
  lemma LineScrollScalesSum(input: FrameInput, s: Sensitivity)
    ensures Accumulate(input, s).scrollLine == LineScrollSum(input.scroll) * ZoomDirection(s.reversedZoom) * s.zoom
  {
    LineZoomFactors(input.scroll, ZoomDirection(s.reversedZoom), s.zoom);
  }

  /** With no binding and no modifier held, the pan of a frame is the sum of
      the pixel events' raw movements, scaled once by the pan sensitivity. */
  lemma PixelScrollPans(input: FrameInput, s: Sensitivity)
    requires !input.orbitPressed && !input.panPressed && !input.touchpadOrbitModifier
    ensures Accumulate(input, s).pan == Scale2(PixelScrollSum(input.scroll), s.pan)
  {
    PixelMoveFactors(input.scroll, s.pan);
    AddToZero(PixelMove(input.scroll, s.pan));
  }

  /** Mouse motion feeds rotation while the orbit binding is held and then
      never pans, whatever the pan binding says. */
  lemma OrbitTakesPrecedence(input: FrameInput, s: Sensitivity)
    requires input.orbitPressed
    ensures Accumulate(input, s).pan == Accumulate(input.(mouseDelta := Zero2), s).pan
    ensures Accumulate(input, s).rotation
         == Add2(Accumulate(input.(mouseDelta := Zero2), s).rotation, Scale2(input.mouseDelta, s.orbit))
  {
    var g0 := Accumulate(input.(mouseDelta := Zero2), s);
    assert Scale2(Zero2, s.orbit) == Zero2;
  }

  /** Without the orbit binding, mouse motion pans if the pan binding is held. */
  lemma MousePansWithoutOrbit(input: FrameInput, s: Sensitivity)
    requires !input.orbitPressed && input.panPressed
    ensures Accumulate(input, s).rotation == Accumulate(input.(mouseDelta := Zero2), s).rotation
    ensures Accumulate(input, s).pan
         == Add2(Accumulate(input.(mouseDelta := Zero2), s).pan, Scale2(input.mouseDelta, s.pan))
  {
    var g0 := Accumulate(input.(mouseDelta := Zero2), s);
    assert Scale2(Zero2, s.pan) == Zero2;
  }

  /** Rust's `%` on floats: the remainder of truncated division, with the sign
      of the dividend. */
  function Trunc(x: real): int {
    if x >= 0.0 then x.Floor else -((-x).Floor)
  }

  function TruncRem(x: real, y: real): real
    requires y != 0.0
  {
    x - y * (Trunc(x / y) as real)
  }

  /** The upside-down test of the frame update: the absolute truncated
      remainder of the target beta by a full turn lies strictly between a
      quarter and three quarters of a turn. */
  predicate IsUpsideDown(targetBeta: real) {
    var wrapped := Abs(TruncRem(targetBeta, TAU));
    TAU / 4.0 < wrapped && wrapped < 3.0 * TAU / 4.0
  }

  /** An angle wrapped into [0, TAU). */
  function Wrap(x: real): (w: real)
    ensures 0.0 <= w < TAU
    ensures 0.0 <= x < TAU ==> w == x
  {
    x - TAU * ((x / TAU).Floor as real)
  }

  /** The truncated-remainder test agrees with the plain reading of "upside
      down": beta wrapped into one turn lies in the lower half of the circle,
      strictly between a quarter and three quarters of a turn. */
  lemma UpsideDownIffWrappedInLowerHalf(targetBeta: real)
    ensures IsUpsideDown(targetBeta) <==> TAU / 4.0 < Wrap(targetBeta) < 3.0 * TAU / 4.0
  {
    var q := targetBeta / TAU;
    if targetBeta >= 0.0 {
      assert Trunc(q) == q.Floor;
      assert TruncRem(targetBeta, TAU) == Wrap(targetBeta);
    } else {
      var m := (-q).Floor;
      assert Trunc(q) == -m;
      var r := TruncRem(targetBeta, TAU);
      assert r == targetBeta + TAU * (m as real);
      assert -TAU < r <= 0.0;
      if (m as real) == -q {
        assert q.Floor == -m;
        assert r == 0.0 && Wrap(targetBeta) == 0.0;
      } else {
        assert q.Floor == -m - 1;
        assert Wrap(targetBeta) == TAU + r;
      }
    }
  }

  /** The rotation step: horizontal motion turns `targetAlpha` against the drag
      (with the drag when upside down), vertical motion tilts `targetBeta`. */
  function Rotate(targetAlpha: real, targetBeta: real, rotation: Vec2, windowSize: Vec2, upsideDown: bool)
    : (r: (real, real))
    requires windowSize.x != 0.0 && windowSize.y != 0.0
    ensures rotation.x == 0.0 ==> r.0 == targetAlpha
    ensures rotation.y == 0.0 ==> r.1 == targetBeta
    // A drag across the whole window width is one full turn, a drag across
    // its whole height half a turn.
    ensures rotation.x == windowSize.x ==> r.0 == targetAlpha + (if upsideDown then TAU else -TAU)
    ensures rotation.y == windowSize.y ==> r.1 == targetBeta + PI
    ensures windowSize.x > 0.0 && rotation.x > 0.0 ==> (if upsideDown then r.0 > targetAlpha else r.0 < targetAlpha)
  {
    var ratioX := rotation.x / windowSize.x;
    var ratioY := rotation.y / windowSize.y;
    DivSelf(windowSize.x);
    DivSelf(windowSize.y);
    DivPositive(rotation.x, windowSize.x);
    var delta := ratioX * PI * 2.0;
    var deltaX := if upsideDown then -delta else delta;
    var deltaY := ratioY * PI;
    (targetAlpha - deltaX, targetBeta + deltaY)
  }

  /** Dragging back by the same amount undoes a rotation step, as long as the
      upside-down flag is unchanged. */
  lemma RotateUndo(targetAlpha: real, targetBeta: real, rotation: Vec2, windowSize: Vec2, upsideDown: bool)
    requires windowSize.x != 0.0 && windowSize.y != 0.0
    ensures var r := Rotate(targetAlpha, targetBeta, rotation, windowSize, upsideDown);
      Rotate(r.0, r.1, Vec2(-rotation.x, -rotation.y), windowSize, upsideDown) == (targetAlpha, targetBeta)
  {
    DivNegated(rotation.x, windowSize.x);
    DivNegated(rotation.y, windowSize.y);
  }

  /** Upside down, the horizontal turn mirrors the normal one, for any drag;
      the vertical tilt does not depend on the flag. */
  lemma RotateMirrors(targetAlpha: real, targetBeta: real, rotation: Vec2, windowSize: Vec2)
    requires windowSize.x != 0.0 && windowSize.y != 0.0
    ensures var up := Rotate(targetAlpha, targetBeta, rotation, windowSize, true);
      var level := Rotate(targetAlpha, targetBeta, rotation, windowSize, false);
      && up.0 - targetAlpha == targetAlpha - level.0
      && up.1 == level.1
  {
  }

  /** Two drags in a row turn the targets as one drag of their sum: the turn
      is proportional to the motion. */
  lemma RotateComposes(
    targetAlpha: real, targetBeta: real, first: Vec2, second: Vec2, windowSize: Vec2, upsideDown: bool)
    requires windowSize.x != 0.0 && windowSize.y != 0.0
    ensures var r := Rotate(targetAlpha, targetBeta, first, windowSize, upsideDown);
      Rotate(r.0, r.1, second, windowSize, upsideDown)
        == Rotate(targetAlpha, targetBeta, Add2(first, second), windowSize, upsideDown)
  {
    DivAdds(first.x, second.x, windowSize.x);
    DivAdds(first.y, second.y, windowSize.y);
    ScaledAdds(first.x / windowSize.x, second.x / windowSize.x, PI * 2.0);
    ScaledAdds(first.y / windowSize.y, second.y / windowSize.y, PI);
  }

  lemma DivAdds(x: real, y: real, z: real)
    requires z != 0.0
    ensures (x + y) / z == x / z + y / z
  {
  }

  lemma ScaledAdds(x: real, y: real, k: real)
    ensures (x + y) * k == x * k + y * k
  {
  }

  lemma DivNegated(x: real, y: real)
    requires y != 0.0
    ensures -x / y == -(x / y)
  {
  }

  lemma DivSelf(x: real)
    requires x != 0.0
    ensures x / x == 1.0
  {
  }

  lemma DivPositive(x: real, y: real)
    requires y != 0.0
    ensures x > 0.0 && y > 0.0 ==> x / y > 0.0
  {
  }

  datatype Projection =
    | Perspective(fov: real, aspectRatio: real)
    | Orthographic(scale: real, areaWidth: real, areaHeight: real)

  /** Pan motion in viewport pixels made independent of resolution and field
      of view: the scaled pan and the multiplier (the current radius for a
      perspective camera, else 1). */
  function PanToWorld(pan: Vec2, projection: Projection, viewportSize: Vec2, radius: Option<real>)
    : (r: (Vec2, real))
    requires viewportSize.x != 0.0 && viewportSize.y != 0.0
    ensures projection.Orthographic? || radius.None? ==> r.1 == 1.0
    ensures projection.Perspective? && radius.Some? ==> r.1 == radius.value
    // A drag across the whole viewport covers the whole visible extent.
    ensures pan.x == viewportSize.x ==>
      r.0.x == (if projection.Perspective? then projection.fov * projection.aspectRatio else projection.areaWidth)
    ensures pan.y == viewportSize.y ==>
      r.0.y == (if projection.Perspective? then projection.fov else projection.areaHeight)
    ensures pan == Zero2 ==> r.0 == Zero2
  {
    match projection
    case Perspective(fov, aspect) =>
      (Vec2(pan.x * (fov * aspect / viewportSize.x), pan.y * (fov / viewportSize.y)),
       if radius.Some? then radius.value else 1.0)
    case Orthographic(_, width, height) =>
      (Vec2(pan.x * (width / viewportSize.x), pan.y * (height / viewportSize.y)), 1.0)
  }

  /** The pan scales linearly: on each axis the world pan is the dragged
      fraction of the viewport times the visible extent on that axis. */
  lemma PanToWorldProportional(pan: Vec2, projection: Projection, viewportSize: Vec2, radius: Option<real>)
    requires viewportSize.x != 0.0 && viewportSize.y != 0.0
    ensures PanToWorld(pan, projection, viewportSize, radius).0.x ==
      pan.x / viewportSize.x * (if projection.Perspective? then projection.fov * projection.aspectRatio else projection.areaWidth)
    ensures PanToWorld(pan, projection, viewportSize, radius).0.y ==
      pan.y / viewportSize.y * (if projection.Perspective? then projection.fov else projection.areaHeight)
  {
  }

  /** Two drags pan as far as one drag of their sum, so a drag split over
      several frames moves the focus as far as one frame's drag. */
  lemma PanToWorldAdds(p: Vec2, q: Vec2, projection: Projection, viewportSize: Vec2, radius: Option<real>)
    requires viewportSize.x != 0.0 && viewportSize.y != 0.0
    ensures PanToWorld(Add2(p, q), projection, viewportSize, radius).0 ==
      Add2(PanToWorld(p, projection, viewportSize, radius).0, PanToWorld(q, projection, viewportSize, radius).0)
  {
  }

  /** `normalize_or_zero`: the zero vector stays zero and any other vector
      becomes its unit vector, which the geometry supplies as `unit` (it needs
      a square root). */
  function NormalizeOrZero(v: Vec3, unit: Vec3 -> Vec3): Vec3 {
    if v == Zero3 then Zero3 else unit(v)
  }

  /** `d` points to the same side as `v` on every axis, as `v / |v|` does. */
  predicate SignsFollow(d: Vec3, v: Vec3) {
    && (v.x <= 0.0 ==> d.x <= 0.0) && (v.x >= 0.0 ==> d.x >= 0.0)
    && (v.y <= 0.0 ==> d.y <= 0.0) && (v.y >= 0.0 ==> d.y >= 0.0)
    && (v.z <= 0.0 ==> d.z <= 0.0) && (v.z >= 0.0 ==> d.z >= 0.0)
  }

  /** The direction from `focus` towards `focus + probe`, bent by the focus
      limits. */
  function LimitedDirection(focus: Vec3, probe: Vec3, limits: FocusLimits, unit: Vec3 -> Vec3): Vec3 {
    NormalizeOrZero(Sub3(ApplyFocusLimits(Add3(focus, probe), limits), focus), unit)
  }

  /** The translation `(r * a + u * b) * m` of the two scaled axis directions. */
  function Combine(r: Vec3, u: Vec3, a: real, b: real, m: real): Vec3 {
    Scale3(Add3(Scale3(r, a), Scale3(u, b)), m)
  }

  /** The pan translation AS WRITTEN: each local axis is probed in the
      direction of the sign of its pan component, and the result scaled by the
      pan magnitude; the right axis then moves AGAINST its probe direction. */
  function PanTranslationAsWritten(
    targetFocus: Vec3, pan: Vec2, multiplier: real, right: Vec3, up: Vec3,
    limits: FocusLimits, unit: Vec3 -> Vec3): Vec3
  {
    var r := LimitedDirection(targetFocus, Scale3(right, Signum(pan.x)), limits, unit);
    var u := LimitedDirection(targetFocus, Scale3(up, Signum(pan.y)), limits, unit);
    Combine(r, u, -pan.x * Signum(pan.x), pan.y * Signum(pan.y), multiplier)
  }

  /** The pan translation with the right axis probed in the direction it moves
      (against the sign of the horizontal pan), as the up axis already is. */
  function PanTranslation(
    targetFocus: Vec3, pan: Vec2, multiplier: real, right: Vec3, up: Vec3,
    limits: FocusLimits, unit: Vec3 -> Vec3): Vec3
  {
    var r := LimitedDirection(targetFocus, Scale3(right, -Signum(pan.x)), limits, unit);
    var u := LimitedDirection(targetFocus, Scale3(up, Signum(pan.y)), limits, unit);
    Combine(r, u, pan.x * Signum(pan.x), pan.y * Signum(pan.y), multiplier)
  }

  /** The pan never pushes the focus past a bound it already sits on, on any
      axis and whatever the pan magnitude. */
  lemma PanNeverPushesPastBound(
    targetFocus: Vec3, pan: Vec2, multiplier: real, right: Vec3, up: Vec3,
    limits: FocusLimits, unit: Vec3 -> Vec3)
    requires limits.Contains(targetFocus)
    requires multiplier >= 0.0
    requires forall v :: SignsFollow(unit(v), v)
    ensures var t := PanTranslation(targetFocus, pan, multiplier, right, up, limits, unit);
      && (limits.xUpper == Some(targetFocus.x) ==> t.x <= 0.0)
      && (limits.xLower == Some(targetFocus.x) ==> t.x >= 0.0)
      && (limits.yUpper == Some(targetFocus.y) ==> t.y <= 0.0)
      && (limits.yLower == Some(targetFocus.y) ==> t.y >= 0.0)
      && (limits.zUpper == Some(targetFocus.z) ==> t.z <= 0.0)
      && (limits.zLower == Some(targetFocus.z) ==> t.z >= 0.0)
  {
    var r := LimitedDirection(targetFocus, Scale3(right, -Signum(pan.x)), limits, unit);
    var u := LimitedDirection(targetFocus, Scale3(up, Signum(pan.y)), limits, unit);
    LimitedDirectionStaysInside(targetFocus, Scale3(right, -Signum(pan.x)), limits, unit);
    LimitedDirectionStaysInside(targetFocus, Scale3(up, Signum(pan.y)), limits, unit);
    CombineKeepsSign(r, u, pan.x * Signum(pan.x), pan.y * Signum(pan.y), multiplier);
  }

  /** Non-negative weights keep the sign both directions share on an axis. */
  lemma CombineKeepsSign(r: Vec3, u: Vec3, a: real, b: real, m: real)
    requires a >= 0.0 && b >= 0.0 && m >= 0.0
    ensures var t := Combine(r, u, a, b, m);
      && (r.x <= 0.0 && u.x <= 0.0 ==> t.x <= 0.0) && (r.x >= 0.0 && u.x >= 0.0 ==> t.x >= 0.0)
      && (r.y <= 0.0 && u.y <= 0.0 ==> t.y <= 0.0) && (r.y >= 0.0 && u.y >= 0.0 ==> t.y >= 0.0)
      && (r.z <= 0.0 && u.z <= 0.0 ==> t.z <= 0.0) && (r.z >= 0.0 && u.z >= 0.0 ==> t.z >= 0.0)
  {
    WeightedSign(r.x, u.x, a, b, m);
    WeightedSign(r.y, u.y, a, b, m);
    WeightedSign(r.z, u.z, a, b, m);
  }

  lemma WeightedSign(p: real, q: real, a: real, b: real, m: real)
    requires a >= 0.0 && b >= 0.0 && m >= 0.0
    ensures p <= 0.0 && q <= 0.0 ==> (p * a + q * b) * m <= 0.0
    ensures p >= 0.0 && q >= 0.0 ==> (p * a + q * b) * m >= 0.0
  {
    if p <= 0.0 && q <= 0.0 {
      assert p * a <= 0.0 && q * b <= 0.0;
    }
    if p >= 0.0 && q >= 0.0 {
      assert p * a >= 0.0 && q * b >= 0.0;
    }
  }

  /** A limited direction never points out of the box through a face on which
      `focus` lies. */
  lemma LimitedDirectionStaysInside(focus: Vec3, probe: Vec3, limits: FocusLimits, unit: Vec3 -> Vec3)
    requires limits.Contains(focus)
    requires forall v :: SignsFollow(unit(v), v)
    ensures var d := LimitedDirection(focus, probe, limits, unit);
      && (limits.xUpper == Some(focus.x) ==> d.x <= 0.0)
      && (limits.xLower == Some(focus.x) ==> d.x >= 0.0)
      && (limits.yUpper == Some(focus.y) ==> d.y <= 0.0)
      && (limits.yLower == Some(focus.y) ==> d.y >= 0.0)
      && (limits.zUpper == Some(focus.z) ==> d.z <= 0.0)
      && (limits.zLower == Some(focus.z) ==> d.z >= 0.0)
  {
    var diff := Sub3(ApplyFocusLimits(Add3(focus, probe), limits), focus);
    assert SignsFollow(unit(diff), diff);
  }

  /** Away from the limits (both probes land inside the box) the corrected pan
      is exactly the code as written (`PanTranslationAsWritten`). */
  lemma PanAgreesAwayFromLimits(
    targetFocus: Vec3, pan: Vec2, multiplier: real, right: Vec3, up: Vec3,
    limits: FocusLimits, unit: Vec3 -> Vec3)
    requires limits.Contains(Add3(targetFocus, right)) && limits.Contains(Add3(targetFocus, Neg3(right)))
    requires unit(Neg3(right)) == Neg3(unit(right))
    ensures PanTranslation(targetFocus, pan, multiplier, right, up, limits, unit)
         == PanTranslationAsWritten(targetFocus, pan, multiplier, right, up, limits, unit)
  {
    RightTermsAgree(targetFocus, pan.x, right, limits, unit);
    PanTranslationParts(targetFocus, pan, multiplier, right, up, limits, unit);
    CombineRightTerm(
      LimitedDirection(targetFocus, Scale3(right, -Signum(pan.x)), limits, unit), pan.x * Signum(pan.x),
      LimitedDirection(targetFocus, Scale3(right, Signum(pan.x)), limits, unit), -pan.x * Signum(pan.x),
      LimitedDirection(targetFocus, Scale3(up, Signum(pan.y)), limits, unit), pan.y * Signum(pan.y), multiplier);
  }

  /** Both translations, spelled out as their two limited directions and weights. */
  lemma PanTranslationParts(
    targetFocus: Vec3, pan: Vec2, multiplier: real, right: Vec3, up: Vec3,
    limits: FocusLimits, unit: Vec3 -> Vec3)
    ensures var u := LimitedDirection(targetFocus, Scale3(up, Signum(pan.y)), limits, unit);
      && PanTranslation(targetFocus, pan, multiplier, right, up, limits, unit)
      == Combine(LimitedDirection(targetFocus, Scale3(right, -Signum(pan.x)), limits, unit), u,
                 pan.x * Signum(pan.x), pan.y * Signum(pan.y), multiplier)
      && PanTranslationAsWritten(targetFocus, pan, multiplier, right, up, limits, unit)
      == Combine(LimitedDirection(targetFocus, Scale3(right, Signum(pan.x)), limits, unit), u,
                 -pan.x * Signum(pan.x), pan.y * Signum(pan.y), multiplier)
  {
  }

  /** Equal right-axis terms give equal translations. */
  lemma CombineRightTerm(r1: Vec3, a1: real, r2: Vec3, a2: real, u: Vec3, b: real, m: real)
    requires Scale3(r1, a1) == Scale3(r2, a2)
    ensures Combine(r1, u, a1, b, m) == Combine(r2, u, a2, b, m)
  {
  }

  /** The right-axis term: probing against the pan and moving forwards equals
      probing with the pan and moving backwards, when neither probe is bent. */
  lemma RightTermsAgree(focus: Vec3, px: real, right: Vec3, limits: FocusLimits, unit: Vec3 -> Vec3)
    requires limits.Contains(Add3(focus, right)) && limits.Contains(Add3(focus, Neg3(right)))
    requires unit(Neg3(right)) == Neg3(unit(right))
    ensures Scale3(LimitedDirection(focus, Scale3(right, -Signum(px)), limits, unit), px * Signum(px))
         == Scale3(LimitedDirection(focus, Scale3(right, Signum(px)), limits, unit), -px * Signum(px))
  {
    NegatedProduct(px, Signum(px));
    SignedProbesAgree(focus, Signum(px), px * Signum(px), right, limits, unit);
  }

  lemma NegatedProduct(x: real, y: real)
    ensures -x * y == -(x * y)
  {
  }

  lemma SignedProbesAgree(focus: Vec3, s: real, a: real, right: Vec3, limits: FocusLimits, unit: Vec3 -> Vec3)
    requires s == 1.0 || s == -1.0
    requires limits.Contains(Add3(focus, right)) && limits.Contains(Add3(focus, Neg3(right)))
    requires unit(Neg3(right)) == Neg3(unit(right))
    ensures Scale3(LimitedDirection(focus, Scale3(right, -s), limits, unit), a)
         == Scale3(LimitedDirection(focus, Scale3(right, s), limits, unit), -a)
  {
    UnclampedDirection(focus, right, limits, unit);
    UnclampedDirection(focus, Neg3(right), limits, unit);
    NormalizeOdd(right, unit);
    ScaleBySign(right);
    ScaleNegated(NormalizeOrZero(right, unit), a);
  }

  lemma ScaleBySign(v: Vec3)
    ensures Scale3(v, 1.0) == v && Scale3(v, -1.0) == Neg3(v)
  {
  }

  lemma ScaleNegated(v: Vec3, a: real)
    ensures Scale3(Neg3(v), a) == Scale3(v, -a) && Scale3(Neg3(v), -a) == Scale3(v, a)
  {
  }

  /** A probe that stays inside the limits is not bent. */
  lemma UnclampedDirection(focus: Vec3, probe: Vec3, limits: FocusLimits, unit: Vec3 -> Vec3)
    requires limits.Contains(Add3(focus, probe))
    ensures LimitedDirection(focus, probe, limits, unit) == NormalizeOrZero(probe, unit)
  {
    assert Sub3(Add3(focus, probe), focus) == probe;
  }

  /** Normalising is odd when the unit vector is. */
  lemma NormalizeOdd(v: Vec3, unit: Vec3 -> Vec3)
    requires unit(Neg3(v)) == Neg3(unit(v))
    ensures NormalizeOrZero(Neg3(v), unit) == Neg3(NormalizeOrZero(v, unit))
  {
    if v != Zero3 {
      assert Neg3(v) != Zero3;
    }
  }

  /** The configuration of the pan counterexample: an upper x bound of 1, the
      focus on it, and the default right and up axes. */
  const BoundLimits: FocusLimits := FocusLimits(Some(1.0), None, None, None, None, None)
  const OnBound: Vec3 := Vec3(1.0, 0.0, 0.0)
  const RightAxis: Vec3 := Vec3(1.0, 0.0, 0.0)
  const LeftAxis: Vec3 := Vec3(-1.0, 0.0, 0.0)
  const UpAxis: Vec3 := Vec3(0.0, 1.0, 0.0)

  /** Probing through the bound is clamped back onto it: no direction. */
  lemma ProbeThroughBound(unit: Vec3 -> Vec3)
    ensures LimitedDirection(OnBound, RightAxis, BoundLimits, unit) == Zero3
  {
    ClampOntoBound();
  }

  lemma ClampOntoBound()
    ensures Sub3(ApplyFocusLimits(Add3(OnBound, RightAxis), BoundLimits), OnBound) == Zero3
  {
  }

  /** Probing inwards or sideways is not bent. */
  lemma ProbeInsideBound(unit: Vec3 -> Vec3, probe: Vec3)
    requires probe == LeftAxis || probe == UpAxis
    requires unit(probe) == probe
    ensures LimitedDirection(OnBound, probe, BoundLimits, unit) == probe
  {
    UnclampedDirection(OnBound, probe, BoundLimits, unit);
  }

  // The pan at a focus sitting on its upper x bound, looking along the default
  // axes. A positive horizontal pan moves the focus towards -x, away from the
  // bound; a negative one moves it towards +x, into the bound.

  /** As written, the pan away from the bound is blocked. */
  lemma AsWrittenBlocksPanAway(unit: Vec3 -> Vec3)
    requires unit(UpAxis) == UpAxis
    ensures PanTranslationAsWritten(OnBound, Vec2(1.0, 0.0), 1.0, RightAxis, UpAxis, BoundLimits, unit) == Zero3
  {
    ProbeThroughBound(unit);
    ProbeInsideBound(unit, UpAxis);
  }

  /** As written, the pan into the bound moves the focus through it. */
  lemma AsWrittenPansThroughBound(unit: Vec3 -> Vec3)
    requires unit(LeftAxis) == LeftAxis && unit(UpAxis) == UpAxis
    ensures PanTranslationAsWritten(OnBound, Vec2(-1.0, 0.0), 1.0, RightAxis, UpAxis, BoundLimits, unit) == RightAxis
  {
    ProbeInsideBound(unit, LeftAxis);
    ProbeInsideBound(unit, UpAxis);
  }

  /** Corrected, the pan away from the bound moves the focus by the full step. */
  lemma CorrectedPansAway(unit: Vec3 -> Vec3)
    requires unit(LeftAxis) == LeftAxis && unit(UpAxis) == UpAxis
    ensures PanTranslation(OnBound, Vec2(1.0, 0.0), 1.0, RightAxis, UpAxis, BoundLimits, unit) == LeftAxis
  {
    RightAxisReversed();
    ProbeInsideBound(unit, LeftAxis);
    ProbeInsideBound(unit, UpAxis);
  }

  /** Corrected, the pan into the bound leaves the focus on it. */
  lemma CorrectedHoldsAtBound(unit: Vec3 -> Vec3)
    requires unit(UpAxis) == UpAxis
    ensures PanTranslation(OnBound, Vec2(-1.0, 0.0), 1.0, RightAxis, UpAxis, BoundLimits, unit) == Zero3
  {
    ProbeThroughBound(unit);
    ProbeInsideBound(unit, UpAxis);
  }

  lemma RightAxisReversed()
    ensures Scale3(RightAxis, -Signum(1.0)) == LeftAxis
  {
  }

  datatype ZoomValues = ZoomValues(target: real, current: Option<real>)

  /** The new zoom target: a fifth of the target per unit of scroll, line and
      pixel amounts together. */
  function ZoomTarget(target: real, scrollLine: real, scrollPixel: real): (t: real)
    ensures Abs(scrollLine + scrollPixel) == 0.0 ==> t == target
    ensures t == target * (1.0 - (scrollLine + scrollPixel) / 5.0)
  {
    if Abs(scrollLine + scrollPixel) > 0.0 then
      var lineDelta := -scrollLine * target * 0.2;
      var pixelDelta := -scrollPixel * target * 0.2;
      ZoomDeltasFactor(target, scrollLine, scrollPixel);
      target + (lineDelta + pixelDelta)
    else
      assert scrollLine + scrollPixel == 0.0;
      assert 1.0 - (scrollLine + scrollPixel) / 5.0 == 1.0;
      target
  }

  lemma ZoomDeltasFactor(t: real, l: real, p: real)
    ensures t + (-l * t * 0.2 + -p * t * 0.2) == t * (1.0 - (l + p) / 5.0)
  {
    assert -l * t * 0.2 + -p * t * 0.2 == -(l + p) * t * 0.2;
    assert (l + p) / 5.0 == (l + p) * 0.2;
  }

  /** The zoom step: the target moves as `ZoomTarget` says, and pixel-based
      zoom also moves the current value at once, re-clamped. A missing current
      value stays missing. */
  function Zoom(target: real, current: Option<real>, scrollLine: real, scrollPixel: real,
                upper: Option<real>, lower: Option<real>): (r: ZoomValues)
    ensures r.target == ZoomTarget(target, scrollLine, scrollPixel)
    ensures Abs(scrollLine + scrollPixel) == 0.0 ==> r.current == current
    ensures r.current.Some? <==> current.Some?
    ensures Abs(scrollLine + scrollPixel) > 0.0 && current.Some? ==>
      r.current.value == ApplyZoomLimits(current.value - scrollPixel * target / 5.0, upper, lower)
    ensures Abs(scrollLine + scrollPixel) > 0.0 && current.Some? ==> r.current.value >= ZoomFloor
  {
    if Abs(scrollLine + scrollPixel) > 0.0 then
      var pixelDelta := -scrollPixel * target * 0.2;
      ZoomValues(ZoomTarget(target, scrollLine, scrollPixel),
                 if current.Some? then Some(ApplyZoomLimits(current.value + pixelDelta, upper, lower)) else None)
    else
      ZoomValues(target, current)
  }

  /** Scrolling towards the scene (a positive amount below five) brings the
      zoom target closer, but never to zero or below. */
  lemma ZoomInMovesCloser(target: real, scrollLine: real, scrollPixel: real)
    requires target > 0.0 && 0.0 < scrollLine + scrollPixel < 5.0
    ensures 0.0 < ZoomTarget(target, scrollLine, scrollPixel) < target
  {
    var f := 1.0 - (scrollLine + scrollPixel) / 5.0;
    assert 0.0 < f < 1.0;
    assert ZoomTarget(target, scrollLine, scrollPixel) == target * f;
    ProductBounds(target, f);
  }

  /** Scrolling away from the scene moves the zoom target further out. */
  lemma ZoomOutMovesAway(target: real, scrollLine: real, scrollPixel: real)
    requires target > 0.0 && scrollLine + scrollPixel < 0.0
    ensures ZoomTarget(target, scrollLine, scrollPixel) > target
  {
    var f := 1.0 - (scrollLine + scrollPixel) / 5.0;
    assert f > 1.0;
    assert ZoomTarget(target, scrollLine, scrollPixel) == target * f;
    ProductBounds(target, f);
  }

  lemma ProductBounds(t: real, f: real)
    requires t > 0.0
    ensures 0.0 < f < 1.0 ==> 0.0 < t * f < t
    ensures f > 1.0 ==> t * f > t
  {
    if 0.0 < f < 1.0 {
      assert t * f < t * 1.0;
    }
    if f > 1.0 {
      assert t * f > t * 1.0;
    }
  }

  /** The zoom step is relative: the same scroll scales the target by the same
      factor at any zoom level. */
  lemma ZoomIsRelative(target: real, k: real, scrollLine: real, scrollPixel: real)
    ensures ZoomTarget(k * target, scrollLine, scrollPixel) == k * ZoomTarget(target, scrollLine, scrollPixel)
  {
    ProductAssociates(k, target, 1.0 - (scrollLine + scrollPixel) / 5.0);
  }

  lemma ProductAssociates(a: real, b: real, c: real)
    ensures a * b * c == a * (b * c)
  {
  }
}
