/** The `PanOrbitCamera` component and the `pan_orbit_camera` system: the
    per-camera frame update that initialises the camera once, turns the frame's
    input into new target values, clamps the targets, and moves the current
    values towards them. */
module PanOrbit {
  import opened Common
  import opened Limits
  import opened Motion
  import opened ActiveCamera

  /** The values `update_orbit_transform` places the camera's transform with. */
  datatype Pose = Pose(alpha: real, beta: real, radius: real, focus: Vec3)

  /** `lerp_and_snap_f32` and `lerp_and_snap_vec3`, whose bodies are not part
      of this model: from the current value towards the target with the given
      smoothness. */
  datatype Smoothing = Smoothing(scalar: (real, real, real) -> real, vector: (Vec3, Vec3, real) -> Vec3)

  /** What the transform supplies for one frame: the orbit values computed
      from its translation and the focus (read only at initialisation), its
      right and up axes, and the unit vector of a non-zero vector. */
  datatype Geometry = Geometry(fromTransform: (real, real, real), right: Vec3, up: Vec3, unit: Vec3 -> Vec3)

  /** The rotation branch runs: there is rotation input and a window size. */
  predicate Rotating(g: Gathered, active: ActiveCameraData) {
    g.rotation != Zero2 && active.windowSize.Some?
  }

  /** The pan branch runs: no rotation input, some pan input, and a viewport size. */
  predicate Panning(g: Gathered, active: ActiveCameraData) {
    g.rotation == Zero2 && g.pan != Zero2 && active.viewportSize.Some?
  }

  /** Window and viewport sizes the update divides by are not zero. */
  predicate SizesNonZero(active: ActiveCameraData) {
    && (active.windowSize.Some? ==> active.windowSize.value.x != 0.0 && active.windowSize.value.y != 0.0)
    && (active.viewportSize.Some? ==> active.viewportSize.value.x != 0.0 && active.viewportSize.value.y != 0.0)
  }

  /** The input a camera takes in a frame: everything it accumulates when the
      pointer is not over a UI area, it is enabled and it is the active camera;
      nothing otherwise. */
  function Gate(entity: Entity, active: ActiveCameraData, pointerOverUi: bool, enabled: bool,
                input: FrameInput, s: Sensitivity): Gathered {
    if !pointerOverUi && enabled && active.entity == Some(entity) then Accumulate(input, s) else NoInput
  }

  /** The target angles after the rotation branch of the input step. */
  function TurnedAngles(alpha: real, beta: real, g: Gathered, active: ActiveCameraData, upsideDown: bool)
    : (real, real)
    requires SizesNonZero(active)
  {
    if Rotating(g, active) then Rotate(alpha, beta, g.rotation, active.windowSize.value, upsideDown)
    else (alpha, beta)
  }

  /** The target focus after the pan branch of the input step. */
  function PannedFocus(focus: Vec3, g: Gathered, active: ActiveCameraData, projection: Projection,
                       geometry: Geometry, radius: Option<real>, limits: FocusLimits): Vec3
    requires SizesNonZero(active)
  {
    if Panning(g, active) then
      var world := PanToWorld(g.pan, projection, active.viewportSize.value, radius);
      Add3(focus, PanTranslation(focus, world.0, world.1, geometry.right, geometry.up, limits, geometry.unit))
    else focus
  }

  /** The zoom value pair the scroll moves when `zooms` holds, unchanged otherwise. */
  function Zoomed(zooms: bool, target: real, current: Option<real>, g: Gathered,
                  upper: Option<real>, lower: Option<real>): ZoomValues {
    if zooms then Zoom(target, current, g.scrollLine, g.scrollPixel, upper, lower) else ZoomValues(target, current)
  }

  /** The targets, the current radius and scale, and the upside-down flag as
      a frame's input step finds them. */
  datatype Before = Before(
    targetAlpha: real, targetBeta: real, targetFocus: Vec3, targetRadius: real, radius: Option<real>,
    targetScale: real, scale: Option<real>, isUpsideDown: bool)

  /** The targets and the upside-down flag: what the input and constraint
      steps of a frame change. */
  datatype Aim = Aim(
    targetAlpha: real, targetBeta: real, targetFocus: Vec3, targetRadius: real, targetScale: real,
    isUpsideDown: bool)

  /** The camera settings the input and constraint steps read. */
  datatype Settings = Settings(
    enabled: bool, allowUpsideDown: bool, sensitivity: Sensitivity,
    alphaUpper: Option<real>, alphaLower: Option<real>, betaUpper: Option<real>, betaLower: Option<real>,
    zoomUpper: Option<real>, zoomLower: Option<real>, focus: FocusLimits)

  /** The beta clamp of the constraints step: the beta limits, then a quarter
      turn either side of level unless upside-down views are allowed. */
  function ConstrainedBeta(b: real, c: Settings): real {
    var limited := ApplyLimits(b, c.betaUpper, c.betaLower);
    if c.allowUpsideDown then limited else ApplyLimits(limited, Some(PI / 2.0), Some(-PI / 2.0))
  }

  /** What the input step of one frame makes of the targets and the
      upside-down flag, from the values `b` before it and the gathered input
      `g`: the flag follows the orbit button, the angles turn, the focus pans
      and a zoom target scrolls. */
  function InputAim(b: Before, c: Settings, g: Gathered, active: ActiveCameraData,
                    projection: Projection, geometry: Geometry): Aim
    requires SizesNonZero(active)
  {
    var upsideDown := if g.orbitButtonChanged then IsUpsideDown(b.targetBeta) else b.isUpsideDown;
    var turned := TurnedAngles(b.targetAlpha, b.targetBeta, g, active, upsideDown);
    Aim(turned.0, turned.1, PannedFocus(b.targetFocus, g, active, projection, geometry, b.radius, c.focus),
        Zoomed(projection.Perspective?, b.targetRadius, b.radius, g, c.zoomUpper, c.zoomLower).target,
        Zoomed(projection.Orthographic?, b.targetScale, b.scale, g, c.zoomUpper, c.zoomLower).target,
        upsideDown)
  }

  /** What the constraints step makes of the targets: each clamped to its
      limits; the flag is left alone. */
  function ConstrainedAim(a: Aim, c: Settings): Aim {
    a.(targetAlpha := ApplyLimits(a.targetAlpha, c.alphaUpper, c.alphaLower),
       targetBeta := ConstrainedBeta(a.targetBeta, c),
       targetFocus := ApplyFocusLimits(a.targetFocus, c.focus),
       targetRadius := ApplyZoomLimits(a.targetRadius, c.zoomUpper, c.zoomLower),
       targetScale := ApplyZoomLimits(a.targetScale, c.zoomUpper, c.zoomLower))
  }

  class PanOrbitCamera {
    // Current and target orbit state.
    var focus: Vec3
    var radius: Option<real>
    var scale: Option<real>
    var alpha: Option<real>
    var beta: Option<real>
    var targetFocus: Vec3
    var targetAlpha: real
    var targetBeta: real
    var targetRadius: real
    var targetScale: real
    // Limits; an absent limit does not constrain.
    var alphaUpperLimit: Option<real>
    var alphaLowerLimit: Option<real>
    var betaUpperLimit: Option<real>
    var betaLowerLimit: Option<real>
    var zoomUpperLimit: Option<real>
    var zoomLowerLimit: Option<real>
    var focusXUpperLimit: Option<real>
    var focusXLowerLimit: Option<real>
    var focusYUpperLimit: Option<real>
    var focusYLowerLimit: Option<real>
    var focusZUpperLimit: Option<real>
    var focusZLowerLimit: Option<real>
    // Settings.
    var orbitSensitivity: real
    var orbitSmoothness: real
    var panSensitivity: real
    var panSmoothness: real
    var zoomSensitivity: real
    var zoomSmoothness: real
    var reversedZoom: bool
    var isUpsideDown: bool
    var allowUpsideDown: bool
    var enabled: bool
    var initialized: bool
    var forceUpdate: bool

    /** `PanOrbitCamera::default()`: nothing preset, no limits, not yet
        initialised. */
    constructor ()
      ensures focus == Zero3 && targetFocus == Zero3
      ensures radius.None? && scale.None? && alpha.None? && beta.None?
      ensures targetAlpha == 0.0 && targetBeta == 0.0 && targetRadius == 1.0 && targetScale == 1.0
      ensures Unlimited()
      ensures orbitSensitivity == 1.0 && orbitSmoothness == 0.8
      ensures panSensitivity == 1.0 && panSmoothness == 0.6
      ensures zoomSensitivity == 1.0 && zoomSmoothness == 0.8
      ensures !reversedZoom && !isUpsideDown && !allowUpsideDown && enabled && !initialized && !forceUpdate
    {
      focus := Zero3;
      targetFocus := Zero3;
      radius := None;
      isUpsideDown := false;
      allowUpsideDown := false;
      orbitSensitivity := 1.0;
      orbitSmoothness := 0.8;
      panSensitivity := 1.0;
      panSmoothness := 0.6;
      zoomSensitivity := 1.0;
      zoomSmoothness := 0.8;
      reversedZoom := false;
      enabled := true;
      alpha := None;
      beta := None;
      scale := None;
      targetAlpha := 0.0;
      targetBeta := 0.0;
      targetRadius := 1.0;
      targetScale := 1.0;
      initialized := false;
      alphaUpperLimit := None;
      alphaLowerLimit := None;
      betaUpperLimit := None;
      betaLowerLimit := None;
      zoomUpperLimit := None;
      zoomLowerLimit := None;
      focusXUpperLimit := None;
      focusXLowerLimit := None;
      focusYUpperLimit := None;
      focusYLowerLimit := None;
      focusZUpperLimit := None;
      focusZLowerLimit := None;
      forceUpdate := false;
    }

    predicate Unlimited()
      reads this
    {
      && alphaUpperLimit.None? && alphaLowerLimit.None? && betaUpperLimit.None? && betaLowerLimit.None?
      && zoomUpperLimit.None? && zoomLowerLimit.None?
      && FocusLimitsOf() == FocusLimits(None, None, None, None, None, None)
    }

    /** The six focus limits, as `apply_focus_limits` captures them. */
    function FocusLimitsOf(): FocusLimits
      reads this`focusXUpperLimit, this`focusXLowerLimit, this`focusYUpperLimit, this`focusYLowerLimit,
        this`focusZUpperLimit, this`focusZLowerLimit
    {
      FocusLimits(focusXUpperLimit, focusXLowerLimit, focusYUpperLimit, focusYLowerLimit,
                  focusZUpperLimit, focusZLowerLimit)
    }

    function SensitivityOf(): Sensitivity
      reads this`orbitSensitivity, this`panSensitivity, this`zoomSensitivity, this`reversedZoom
    {
      Sensitivity(orbitSensitivity, panSensitivity, zoomSensitivity, reversedZoom)
    }

    /** What the constraints step guarantees of the targets, whatever the
        input: zoom targets at or above the floor, beta within a quarter turn
        of level unless upside-down views are allowed, and every target within
        its limits when those are not inverted. */
    predicate TargetsConstrained()
      reads this`targetAlpha, this`targetBeta, this`targetRadius, this`targetScale, this`targetFocus,
        this`allowUpsideDown, this`alphaUpperLimit, this`alphaLowerLimit, this`betaUpperLimit, this`betaLowerLimit,
        this`focusXUpperLimit, this`focusXLowerLimit, this`focusYUpperLimit, this`focusYLowerLimit,
        this`focusZUpperLimit, this`focusZLowerLimit
    {
      && targetRadius >= ZoomFloor
      && targetScale >= ZoomFloor
      && (!allowUpsideDown ==> -PI / 2.0 <= targetBeta <= PI / 2.0)
      && (Consistent(alphaUpperLimit, alphaLowerLimit) ==> Within(targetAlpha, alphaUpperLimit, alphaLowerLimit))
      && (allowUpsideDown && Consistent(betaUpperLimit, betaLowerLimit) ==>
            Within(targetBeta, betaUpperLimit, betaLowerLimit))
      && (FocusLimitsOf().AllConsistent() ==> FocusLimitsOf().Contains(targetFocus))
    }

    /** The commit gate: current orbit values exist, and something moved, some
        target differs from its current value, or an update is forced. */
    predicate CommitDue(hasMoved: bool)
      reads this`alpha, this`beta, this`radius, this`scale, this`focus, this`forceUpdate,
        this`targetAlpha, this`targetBeta, this`targetRadius, this`targetScale, this`targetFocus
    {
      && alpha.Some? && beta.Some? && radius.Some?
      && (|| hasMoved
          || targetAlpha != alpha.value
          || targetBeta != beta.value
          || targetRadius != radius.value
          || targetFocus != focus
          || Some(targetScale) != scale
          || forceUpdate)
    }

    /** One-shot initialisation. Preset alpha, beta and radius are kept and
        only missing ones are taken from the transform; all three are then
        clamped and the targets seeded from them. An orthographic camera keeps
        a preset scale (else takes the projection's) unclamped, while the
        projection's scale and the scale target get the clamped value. */
    method Initialize(fromTransform: (real, real, real), projection: Projection)
      returns (projectionOut: Projection, pose: Pose)
      requires !initialized
      modifies this`alpha, this`beta, this`radius, this`scale, this`targetAlpha, this`targetBeta,
        this`targetRadius, this`targetScale, this`targetFocus, this`initialized
      ensures initialized
      ensures alpha == Some(ApplyLimits(old(alpha).GetOr(fromTransform.0), alphaUpperLimit, alphaLowerLimit))
      ensures beta == Some(ApplyLimits(old(beta).GetOr(fromTransform.1), betaUpperLimit, betaLowerLimit))
      ensures radius == Some(ApplyZoomLimits(old(radius).GetOr(fromTransform.2), zoomUpperLimit, zoomLowerLimit))
      ensures targetAlpha == alpha.value && targetBeta == beta.value && targetRadius == radius.value
      ensures targetFocus == focus
      ensures projection.Orthographic? ==>
        && scale == Some(old(scale).GetOr(projection.scale))
        && projectionOut == projection.(scale := ApplyZoomLimits(scale.value, zoomUpperLimit, zoomLowerLimit))
        && targetScale == projectionOut.scale
      ensures projection.Perspective? ==>
        scale == old(scale) && targetScale == old(targetScale) && projectionOut == projection
      ensures pose == Pose(alpha.value, beta.value, radius.value, focus)
    {
      InitializeOrbit(fromTransform);
      projectionOut := InitializeScale(projection);
      pose := Pose(alpha.value, beta.value, radius.value, focus);
      initialized := true;
    }

    /** The orbit part of initialisation: alpha, beta and radius, preset or
        from the transform, clamped and copied into their targets. */
    method InitializeOrbit(fromTransform: (real, real, real))
      modifies this`alpha, this`beta, this`radius, this`targetAlpha, this`targetBeta,
        this`targetRadius, this`targetFocus
      ensures alpha == Some(ApplyLimits(old(alpha).GetOr(fromTransform.0), alphaUpperLimit, alphaLowerLimit))
      ensures beta == Some(ApplyLimits(old(beta).GetOr(fromTransform.1), betaUpperLimit, betaLowerLimit))
      ensures radius == Some(ApplyZoomLimits(old(radius).GetOr(fromTransform.2), zoomUpperLimit, zoomLowerLimit))
      ensures targetAlpha == alpha.value && targetBeta == beta.value && targetRadius == radius.value
      ensures targetFocus == focus
    {
      var a := ApplyLimits(alpha.GetOr(fromTransform.0), alphaUpperLimit, alphaLowerLimit);
      var b := ApplyLimits(beta.GetOr(fromTransform.1), betaUpperLimit, betaLowerLimit);
      var r := ApplyZoomLimits(radius.GetOr(fromTransform.2), zoomUpperLimit, zoomLowerLimit);
      alpha := Some(a);
      beta := Some(b);
      radius := Some(r);
      targetAlpha := a;
      targetBeta := b;
      targetRadius := r;
      targetFocus := focus;
    }

    /** The orthographic part of initialisation: a preset scale is kept, else
        the projection's is taken, unclamped; the projection and the scale
        target get the clamped value. Any other projection is left alone. */
    method InitializeScale(projection: Projection) returns (projectionOut: Projection)
      modifies this`scale, this`targetScale
      ensures projection.Orthographic? ==>
        && scale == Some(old(scale).GetOr(projection.scale))
        && projectionOut == projection.(scale := ApplyZoomLimits(scale.value, zoomUpperLimit, zoomLowerLimit))
        && targetScale == projectionOut.scale
      ensures projection.Perspective? ==>
        scale == old(scale) && targetScale == old(targetScale) && projectionOut == projection
    {
      projectionOut := projection;
      if projection.Orthographic? {
        if scale.None? {
          scale := Some(projection.scale);
        }
        var s := ApplyZoomLimits(scale.value, zoomUpperLimit, zoomLowerLimit);
        projectionOut := projection.(scale := s);
        targetScale := s;
      }
    }

    /** Step 1: the input of the frame. It is read only when the pointer is not
        over a UI area, the camera is enabled and it is the active camera;
        otherwise nothing accumulates. */
    method GatherInput(entity: Entity, active: ActiveCameraData, pointerOverUi: bool, input: FrameInput)
      returns (g: Gathered)
      ensures g == Gate(entity, active, pointerOverUi, enabled, input, SensitivityOf())
      ensures g.orbitButtonChanged <==>
        !pointerOverUi && enabled && active.entity == Some(entity) && (input.orbitJustPressed || input.orbitJustReleased)
    {
      g := NoInput;
      if !pointerOverUi && enabled && active.entity == Some(entity) {
        g := Accumulated(input);
      }
    }

    /** The accumulation of step 1, for a camera that takes input: mouse
        motion, then the scroll, magnify and rotate events in order. */
    method Accumulated(input: FrameInput) returns (g: Gathered)
      ensures g == Accumulate(input, SensitivityOf())
    {
      ghost var s := SensitivityOf();
      var pan, rotation := MouseInput(input);
      var scrollLine;
      scrollLine, pan, rotation := ScrollInput(input.scroll, input.touchpadOrbitModifier, pan, rotation);
      assert pan == ScrolledPan(input, s, MousePan(input, s));
      assert rotation == ScrolledRotation(input, s, MouseRotation(input, s));
      var scrollPixel := MagnifyInput(input.magnify);
      rotation := RotateInput(input.rotate, rotation);
      var orbitButtonChanged := false;
      if input.orbitJustPressed || input.orbitJustReleased {
        orbitButtonChanged := true;
      }
      g := Gathered(pan, rotation, scrollLine, scrollPixel, orbitButtonChanged);
    }

    /** Mouse motion orbits while the orbit binding is held, and pans
        otherwise while the pan binding is held. */
    method MouseInput(input: FrameInput) returns (pan: Vec2, rotation: Vec2)
      ensures pan == MousePan(input, SensitivityOf()) && rotation == MouseRotation(input, SensitivityOf())
    {
      pan := Zero2;
      rotation := Zero2;
      if input.orbitPressed {
        AddToZero(Scale2(input.mouseDelta, orbitSensitivity));
        rotation := Add2(rotation, Scale2(input.mouseDelta, orbitSensitivity));
      } else if input.panPressed {
        AddToZero(Scale2(input.mouseDelta, panSensitivity));
        pan := Add2(pan, Scale2(input.mouseDelta, panSensitivity));
      }
    }

    /** The scroll events, in order: a line-based one adds its vertical
        amount to the line zoom amount; a pixel-based one adds its movement to
        rotation with the touchpad modifier held and to pan without it. */
    method ScrollInput(scroll: seq<ScrollEvent>, touchpadOrbit: bool, pan0: Vec2, rotation0: Vec2)
      returns (scrollLine: real, pan: Vec2, rotation: Vec2)
      ensures scrollLine == LineZoom(scroll, ZoomDirection(reversedZoom), zoomSensitivity)
      ensures pan == if touchpadOrbit then pan0 else Add2(pan0, PixelMove(scroll, panSensitivity))
      ensures rotation == if touchpadOrbit then Add2(rotation0, PixelMove(scroll, orbitSensitivity)) else rotation0
    {
      scrollLine := 0.0;
      pan := pan0;
      rotation := rotation0;
      var direction := ZoomDirection(reversedZoom);
      var zs, ps, os := zoomSensitivity, panSensitivity, orbitSensitivity;
      var i := 0;
      while i < |scroll|
        invariant 0 <= i <= |scroll|
        invariant scrollLine == LineZoom(scroll[..i], direction, zs)
        invariant pan == if touchpadOrbit then pan0 else Add2(pan0, PixelMove(scroll[..i], ps))
        invariant rotation == if touchpadOrbit then Add2(rotation0, PixelMove(scroll[..i], os)) else rotation0
      {
        var line, pan', rotation' := ScrollEventInput(scroll[i], touchpadOrbit, direction, zs, ps, os, scrollLine, pan, rotation);
        LineZoomStep(scroll, i, direction, zs, scrollLine, line);
        if touchpadOrbit {
          PixelMoveStep(scroll, i, os, rotation0, rotation, rotation');
        } else {
          PixelMoveStep(scroll, i, ps, pan0, pan, pan');
        }
        scrollLine, pan, rotation := line, pan', rotation';
        i := i + 1;
      }
      assert scroll[..i] == scroll;
    }

    /** One scroll event, dispatched on its unit, with the zoom, pan and orbit
        sensitivities `zs`, `ps` and `os`. */
    static method ScrollEventInput(ev: ScrollEvent, touchpadOrbit: bool, direction: real, zs: real, ps: real, os: real,
                            scrollLine: real, pan: Vec2, rotation: Vec2)
      returns (scrollLine': real, pan': Vec2, rotation': Vec2)
      ensures scrollLine' == scrollLine + LineStep(ev, direction, zs)
      ensures pan' == if touchpadOrbit then pan else Add2(pan, PixelStep(ev, ps))
      ensures rotation' == if touchpadOrbit then Add2(rotation, PixelStep(ev, os)) else rotation
    {
      scrollLine', pan', rotation' := scrollLine, pan, rotation;
      match ev.unit {
        case Line =>
          scrollLine' := scrollLine + ev.y * direction * zs;
        case Pixel =>
          if touchpadOrbit {
            rotation' := Add2(rotation, Scale2(Vec2(ev.x, ev.y), os));
          } else {
            pan' := Add2(pan, Scale2(Vec2(ev.x, ev.y), ps));
          }
      }
    }

    /** The pinch events: each adds twice its amount to the pixel zoom amount. */
    method MagnifyInput(magnify: seq<real>) returns (scrollPixel: real)
      ensures scrollPixel == Sum(magnify) * zoomSensitivity * 2.0
    {
      scrollPixel := 0.0;
      var j := 0;
      while j < |magnify|
        invariant 0 <= j <= |magnify|
        invariant scrollPixel == Sum(magnify[..j]) * zoomSensitivity * 2.0
      {
        SumStep(magnify, j);
        ScaledSumStep(Sum(magnify[..j]), magnify[j], zoomSensitivity, 2.0);
        scrollPixel := scrollPixel + magnify[j] * zoomSensitivity * 2.0;
        j := j + 1;
      }
      assert magnify[..j] == magnify;
    }

    /** The touchpad rotation events: each turns the horizontal rotation by
        three times its amount. */
    method RotateInput(rotate: seq<real>, rotation0: Vec2) returns (rotation: Vec2)
      ensures rotation == Rotated(rotate, orbitSensitivity, rotation0)
    {
      rotation := rotation0;
      var k := 0;
      while k < |rotate|
        invariant 0 <= k <= |rotate|
        invariant rotation == Vec2(rotation0.x + Sum(rotate[..k]) * orbitSensitivity * 3.0, rotation0.y)
      {
        SumStep(rotate, k);
        ScaledSumStep(Sum(rotate[..k]), rotate[k], orbitSensitivity, 3.0);
        rotation := rotation.(x := rotation.x + rotate[k] * orbitSensitivity * 3.0);
        k := k + 1;
      }
      assert rotate[..k] == rotate;
    }

    /** Step 2: the input moves the targets. The upside-down flag is
        re-evaluated only when the orbit binding was just pressed or released;
        rotation input takes precedence over pan input; scroll zooms the scale
        of an orthographic camera and the radius of any other. */
    method ProcessInput(g: Gathered, active: ActiveCameraData, projection: Projection, geometry: Geometry)
      returns (hasMoved: bool)
      requires SizesNonZero(active)
      modifies this`isUpsideDown, this`targetAlpha, this`targetBeta, this`targetFocus,
        this`targetRadius, this`radius, this`targetScale, this`scale
      ensures isUpsideDown == if g.orbitButtonChanged then IsUpsideDown(old(targetBeta)) else old(isUpsideDown)
      ensures (targetAlpha, targetBeta) == TurnedAngles(old(targetAlpha), old(targetBeta), g, active, isUpsideDown)
      ensures targetFocus == PannedFocus(old(targetFocus), g, active, projection, geometry, old(radius), FocusLimitsOf())
      ensures ZoomValues(targetRadius, radius)
           == Zoomed(projection.Perspective?, old(targetRadius), old(radius), g, zoomUpperLimit, zoomLowerLimit)
      ensures ZoomValues(targetScale, scale)
           == Zoomed(projection.Orthographic?, old(targetScale), old(scale), g, zoomUpperLimit, zoomLowerLimit)
      ensures hasMoved <==> MovedBy(g, active)
    {
      UpdateUpsideDown(g.orbitButtonChanged);
      hasMoved := RotateOrPan(g, active, projection, geometry);
      var zoomed := ZoomInput(g, projection);
      hasMoved := hasMoved || zoomed;
    }

    /** The upside-down flag is re-evaluated from the target beta when the
        orbit binding was just pressed or released. */
    method UpdateUpsideDown(orbitButtonChanged: bool)
      modifies this`isUpsideDown
      ensures isUpsideDown == if orbitButtonChanged then IsUpsideDown(targetBeta) else old(isUpsideDown)
    {
      if orbitButtonChanged {
        var wrappedBeta := Abs(TruncRem(targetBeta, TAU));
        isUpsideDown := TAU / 4.0 < wrappedBeta && wrappedBeta < 3.0 * TAU / 4.0;
      }
    }

    /** Rotation input turns the target angles; pan input, only in a frame
        without rotation input, moves the target focus. */
    method RotateOrPan(g: Gathered, active: ActiveCameraData, projection: Projection, geometry: Geometry)
      returns (moved: bool)
      requires SizesNonZero(active)
      modifies this`targetAlpha, this`targetBeta, this`targetFocus
      ensures Rotating(g, active) ==>
        (targetAlpha, targetBeta)
          == Rotate(old(targetAlpha), old(targetBeta), g.rotation, active.windowSize.value, isUpsideDown)
      ensures !Rotating(g, active) ==> targetAlpha == old(targetAlpha) && targetBeta == old(targetBeta)
      ensures Panning(g, active) ==>
        var world := PanToWorld(g.pan, projection, active.viewportSize.value, radius);
        targetFocus == Add3(old(targetFocus), PanTranslation(old(targetFocus), world.0, world.1,
                                                             geometry.right, geometry.up, FocusLimitsOf(), geometry.unit))
      ensures !Panning(g, active) ==> targetFocus == old(targetFocus)
      ensures moved <==> Rotating(g, active) || Panning(g, active)
    {
      moved := false;
      if g.rotation != Zero2 {
        if active.windowSize.Some? {
          var rotated := Rotate(targetAlpha, targetBeta, g.rotation, active.windowSize.value, isUpsideDown);
          targetAlpha := rotated.0;
          targetBeta := rotated.1;
          moved := true;
        }
      } else if g.pan != Zero2 {
        if active.viewportSize.Some? {
          var world := PanToWorld(g.pan, projection, active.viewportSize.value, radius);
          var translation := PanTranslation(targetFocus, world.0, world.1, geometry.right, geometry.up,
                                            FocusLimitsOf(), geometry.unit);
          targetFocus := Add3(targetFocus, translation);
          moved := true;
        }
      }
    }

    /** Scroll zooms the scale of an orthographic camera and the radius of
        any other. */
    method ZoomInput(g: Gathered, projection: Projection) returns (zoomed: bool)
      modifies this`targetRadius, this`radius, this`targetScale, this`scale
      ensures projection.Orthographic? ==>
        && ZoomValues(targetScale, scale)
             == Zoom(old(targetScale), old(scale), g.scrollLine, g.scrollPixel, zoomUpperLimit, zoomLowerLimit)
        && targetRadius == old(targetRadius) && radius == old(radius)
      ensures projection.Perspective? ==>
        && ZoomValues(targetRadius, radius)
             == Zoom(old(targetRadius), old(radius), g.scrollLine, g.scrollPixel, zoomUpperLimit, zoomLowerLimit)
        && targetScale == old(targetScale) && scale == old(scale)
      ensures zoomed <==> Abs(g.scrollLine + g.scrollPixel) > 0.0
    {
      zoomed := false;
      if Abs(g.scrollLine + g.scrollPixel) > 0.0 {
        if projection.Orthographic? {
          var z := Zoom(targetScale, scale, g.scrollLine, g.scrollPixel, zoomUpperLimit, zoomLowerLimit);
          targetScale := z.target;
          scale := z.current;
        } else {
          var z := Zoom(targetRadius, radius, g.scrollLine, g.scrollPixel, zoomUpperLimit, zoomLowerLimit);
          targetRadius := z.target;
          radius := z.current;
        }
        zoomed := true;
      }
    }

    /** Step 3: every target is clamped to its limits, the zoom targets to the
        floor as well, and beta to a quarter turn either side of level unless
        upside-down views are allowed. */
    method ApplyConstraints()
      modifies this`targetAlpha, this`targetBeta, this`targetRadius, this`targetScale, this`targetFocus
      ensures targetAlpha == ApplyLimits(old(targetAlpha), alphaUpperLimit, alphaLowerLimit)
      ensures allowUpsideDown ==> targetBeta == ApplyLimits(old(targetBeta), betaUpperLimit, betaLowerLimit)
      ensures !allowUpsideDown ==>
        targetBeta == ApplyLimits(ApplyLimits(old(targetBeta), betaUpperLimit, betaLowerLimit), Some(PI / 2.0), Some(-PI / 2.0))
      ensures targetRadius == ApplyZoomLimits(old(targetRadius), zoomUpperLimit, zoomLowerLimit)
      ensures targetScale == ApplyZoomLimits(old(targetScale), zoomUpperLimit, zoomLowerLimit)
      ensures targetFocus == ApplyFocusLimits(old(targetFocus), FocusLimitsOf())
      ensures TargetsConstrained()
    {
      targetAlpha := ApplyLimits(targetAlpha, alphaUpperLimit, alphaLowerLimit);
      targetBeta := ApplyLimits(targetBeta, betaUpperLimit, betaLowerLimit);
      targetRadius := ApplyZoomLimits(targetRadius, zoomUpperLimit, zoomLowerLimit);
      targetScale := ApplyZoomLimits(targetScale, zoomUpperLimit, zoomLowerLimit);
      targetFocus := ApplyFocusLimits(targetFocus, FocusLimitsOf());
      if !allowUpsideDown {
        targetBeta := ApplyLimits(targetBeta, Some(PI / 2.0), Some(-PI / 2.0));
      }
    }

    /** Step 4: when the commit gate is open, every current value moves towards
        its target, an orthographic projection takes the new scale, the
        transform is placed, and a forced update is cleared. Otherwise nothing
        changes. */
    method Commit(hasMoved: bool, projection: Projection, smoothing: Smoothing)
      returns (projectionOut: Projection, pose: Option<Pose>)
      modifies this`alpha, this`beta, this`radius, this`scale, this`focus, this`forceUpdate
      ensures old(CommitDue(hasMoved)) ==>
        && alpha == Some(smoothing.scalar(old(alpha).value, targetAlpha, orbitSmoothness))
        && beta == Some(smoothing.scalar(old(beta).value, targetBeta, orbitSmoothness))
        && radius == Some(smoothing.scalar(old(radius).value, targetRadius, zoomSmoothness))
        && scale == Some(smoothing.scalar(old(scale).GetOr(targetScale), targetScale, zoomSmoothness))
        && focus == smoothing.vector(old(focus), targetFocus, panSmoothness)
        && !forceUpdate
        && projectionOut == (if projection.Orthographic? then projection.(scale := scale.value) else projection)
        && pose == Some(Pose(alpha.value, beta.value, radius.value, focus))
      ensures !old(CommitDue(hasMoved)) ==>
        && alpha == old(alpha) && beta == old(beta) && radius == old(radius) && scale == old(scale)
        && focus == old(focus) && forceUpdate == old(forceUpdate)
        && projectionOut == projection && pose.None?
      ensures targetAlpha == old(targetAlpha) && targetBeta == old(targetBeta) && targetRadius == old(targetRadius)
      ensures targetScale == old(targetScale) && targetFocus == old(targetFocus)
      ensures pose.Some? == old(CommitDue(hasMoved))
      ensures projectionOut.Orthographic? == projection.Orthographic?
    {
      projectionOut := projection;
      pose := None;
      if alpha.Some? && beta.Some? && radius.Some? {
        if CommitDue(hasMoved) {
          var newAlpha := smoothing.scalar(alpha.value, targetAlpha, orbitSmoothness);
          var newBeta := smoothing.scalar(beta.value, targetBeta, orbitSmoothness);
          var newRadius := smoothing.scalar(radius.value, targetRadius, zoomSmoothness);
          var newScale := smoothing.scalar(scale.GetOr(targetScale), targetScale, zoomSmoothness);
          var newFocus := smoothing.vector(focus, targetFocus, panSmoothness);
          if projection.Orthographic? {
            projectionOut := projection.(scale := newScale);
          }
          pose := Some(Pose(newAlpha, newBeta, newRadius, newFocus));
          alpha := Some(newAlpha);
          beta := Some(newBeta);
          radius := Some(newRadius);
          scale := Some(newScale);
          focus := newFocus;
          forceUpdate := false;
        }
      }
    }

    /** One run of the frame update for this camera: initialisation on the
        first run, then the input, constraint and commit steps. Returns the
        camera's projection and the pose its transform is last placed with
        this frame, if any. */
    method Update(entity: Entity, active: ActiveCameraData, pointerOverUi: bool, input: FrameInput,
                  projection: Projection, geometry: Geometry, smoothing: Smoothing)
      returns (projectionOut: Projection, pose: Option<Pose>)
      requires SizesNonZero(active)
      modifies this`alpha, this`beta, this`radius, this`scale, this`focus, this`targetAlpha,
        this`targetBeta, this`targetRadius, this`targetScale, this`targetFocus, this`isUpsideDown,
        this`initialized, this`forceUpdate
      ensures initialized
      ensures !old(initialized) || (old(alpha).Some? && old(beta).Some? && old(radius).Some?) ==>
        alpha.Some? && beta.Some? && radius.Some?
      ensures TargetsConstrained()
      ensures projectionOut.Orthographic? == projection.Orthographic?
      ensures isUpsideDown != old(isUpsideDown) ==>
        !pointerOverUi && enabled && active.entity == Some(entity) && (input.orbitJustPressed || input.orbitJustReleased)
      ensures pose.Some? ==> !forceUpdate && scale.Some?
      // For a camera already initialised, the whole new state from the old one and the input.
      ensures var g := old(Gate(entity, active, pointerOverUi, enabled, input, SensitivityOf()));
        old(initialized) ==> AimOf() == ConstrainedAim(InputAim(old(Snapshot()), old(SettingsOf()), g, active, projection, geometry), old(SettingsOf()))
      ensures var g := old(Gate(entity, active, pointerOverUi, enabled, input, SensitivityOf()));
        old(initialized) ==>
          Committed(old(alpha), old(beta), old(RadiusZoomed(g, projection)).current,
                    old(ScaleZoomed(g, projection)).current, old(focus), old(forceUpdate), MovedBy(g, active),
                    projection, smoothing, None, projectionOut, pose)
    {
      var projectionNow := projection;
      var initialPose := None;
      if !initialized {
        var placed;
        projectionNow, placed := Initialize(geometry.fromTransform, projection);
        initialPose := Some(placed);
      }
      projectionOut, pose := Frame(entity, active, pointerOverUi, input, projectionNow, geometry, smoothing, initialPose);
    }

    /** Steps 1 to 4 of the frame update: the input is gathered, moves the
        targets, which are clamped, and the current values follow them when
        the commit gate is open. The pose is the commit's, else `initialPose`. */
    method Frame(entity: Entity, active: ActiveCameraData, pointerOverUi: bool, input: FrameInput,
                 projection: Projection, geometry: Geometry, smoothing: Smoothing, initialPose: Option<Pose>)
      returns (projectionOut: Projection, pose: Option<Pose>)
      requires SizesNonZero(active)
      modifies this`alpha, this`beta, this`radius, this`scale, this`focus, this`targetAlpha,
        this`targetBeta, this`targetRadius, this`targetScale, this`targetFocus, this`isUpsideDown,
        this`forceUpdate
      ensures var g := old(Gate(entity, active, pointerOverUi, enabled, input, SensitivityOf()));
        AimOf() == ConstrainedAim(InputAim(old(Snapshot()), old(SettingsOf()), g, active, projection, geometry),
                                  old(SettingsOf()))
      ensures var g := old(Gate(entity, active, pointerOverUi, enabled, input, SensitivityOf()));
        Committed(old(alpha), old(beta), old(RadiusZoomed(g, projection)).current,
                  old(ScaleZoomed(g, projection)).current, old(focus), old(forceUpdate), MovedBy(g, active),
                  projection, smoothing, initialPose, projectionOut, pose)
      ensures TargetsConstrained()
      ensures projectionOut.Orthographic? == projection.Orthographic?
      ensures old(alpha).Some? && old(beta).Some? && old(radius).Some? ==>
        alpha.Some? && beta.Some? && radius.Some? && scale.Some? && !forceUpdate
      ensures !(old(alpha).Some? && old(beta).Some? && old(radius).Some?) ==> pose == initialPose
      ensures isUpsideDown != old(isUpsideDown) ==>
        !pointerOverUi && enabled && active.entity == Some(entity) && (input.orbitJustPressed || input.orbitJustReleased)
    {
      var g := GatherInput(entity, active, pointerOverUi, input);
      projectionOut, pose := Advance(g, active, projection, geometry, smoothing, initialPose);
    }

    /** Steps 2 to 4 of the frame update, from the gathered input: it moves
        the targets, they are clamped, and the current values follow them when
        the commit gate is open. The pose is the commit's, else `initialPose`. */
    method Advance(g: Gathered, active: ActiveCameraData, projection: Projection, geometry: Geometry,
                   smoothing: Smoothing, initialPose: Option<Pose>)
      returns (projectionOut: Projection, pose: Option<Pose>)
      requires SizesNonZero(active)
      modifies this`alpha, this`beta, this`radius, this`scale, this`focus, this`targetAlpha,
        this`targetBeta, this`targetRadius, this`targetScale, this`targetFocus, this`isUpsideDown,
        this`forceUpdate
      ensures AimOf() == ConstrainedAim(InputAim(old(Snapshot()), old(SettingsOf()), g, active, projection, geometry),
                                        old(SettingsOf()))
      ensures Committed(old(alpha), old(beta), old(RadiusZoomed(g, projection)).current,
                        old(ScaleZoomed(g, projection)).current, old(focus), old(forceUpdate), MovedBy(g, active),
                        projection, smoothing, initialPose, projectionOut, pose)
      ensures TargetsConstrained()
      ensures projectionOut.Orthographic? == projection.Orthographic?
      ensures old(alpha).Some? && old(beta).Some? && old(radius).Some? ==>
        alpha.Some? && beta.Some? && radius.Some? && scale.Some? && !forceUpdate
      ensures !(old(alpha).Some? && old(beta).Some? && old(radius).Some?) ==> pose == initialPose
      ensures isUpsideDown != old(isUpsideDown) ==> g.orbitButtonChanged
    {
      var hasMoved := Steer(g, active, projection, geometry);
      ghost var aim := AimOf();
      projectionOut, pose := FinishFrame(hasMoved, projection, initialPose, smoothing);
      assert AimOf() == aim;
    }

    /** Step 4 of the frame update, with the pose of the frame: the commit's
        if it commits, else the one initialisation placed, if any. */
    method FinishFrame(hasMoved: bool, projection: Projection, initialPose: Option<Pose>, smoothing: Smoothing)
      returns (projectionOut: Projection, pose: Option<Pose>)
      requires TargetsConstrained()
      modifies this`alpha, this`beta, this`radius, this`scale, this`focus, this`forceUpdate
      ensures TargetsConstrained()
      ensures Committed(old(alpha), old(beta), old(radius), old(scale), old(focus), old(forceUpdate), hasMoved,
                        projection, smoothing, initialPose, projectionOut, pose)
      ensures projectionOut.Orthographic? == projection.Orthographic?
    {
      label BeforeCommit:
      var committed;
      projectionOut, committed := Commit(hasMoved, projection, smoothing);
      ConstrainedKept@BeforeCommit(this);
      pose := if committed.Some? then committed else initialPose;
    }

    /** The values the input step starts from. */
    function Snapshot(): Before
      reads this`targetAlpha, this`targetBeta, this`targetFocus, this`targetRadius, this`radius,
        this`targetScale, this`scale, this`isUpsideDown
    {
      Before(targetAlpha, targetBeta, targetFocus, targetRadius, radius, targetScale, scale, isUpsideDown)
    }

    /** The targets and the upside-down flag. */
    function AimOf(): Aim
      reads this`targetAlpha, this`targetBeta, this`targetFocus, this`targetRadius, this`targetScale,
        this`isUpsideDown
    {
      Aim(targetAlpha, targetBeta, targetFocus, targetRadius, targetScale, isUpsideDown)
    }

    /** The settings the input and constraint steps read. */
    function SettingsOf(): Settings
      reads this`enabled, this`allowUpsideDown, this`orbitSensitivity, this`panSensitivity,
        this`zoomSensitivity, this`reversedZoom, this`alphaUpperLimit, this`alphaLowerLimit,
        this`betaUpperLimit, this`betaLowerLimit, this`zoomUpperLimit, this`zoomLowerLimit,
        this`focusXUpperLimit, this`focusXLowerLimit, this`focusYUpperLimit, this`focusYLowerLimit,
        this`focusZUpperLimit, this`focusZLowerLimit
    {
      Settings(enabled, allowUpsideDown, SensitivityOf(), alphaUpperLimit, alphaLowerLimit,
               betaUpperLimit, betaLowerLimit, zoomUpperLimit, zoomLowerLimit, FocusLimitsOf())
    }

    /** What the commit step makes of the current values, from the current
        values before it and whether the input moved anything. The gate is
        open when the current angles and radius exist and something moved,
        some target differs from its current value, or an update is forced;
        then every current value is smoothed towards its target, an
        orthographic projection takes the new scale, the pose is placed and a
        forced update is cleared. Otherwise nothing changes and the pose is
        `initialPose`. */
    predicate Committed(alpha0: Option<real>, beta0: Option<real>, radius0: Option<real>, scale0: Option<real>,
                        focus0: Vec3, forceUpdate0: bool, moved: bool, projection: Projection,
                        smoothing: Smoothing, initialPose: Option<Pose>, projectionOut: Projection, pose: Option<Pose>)
      reads this`alpha, this`beta, this`radius, this`scale, this`focus, this`forceUpdate,
        this`targetAlpha, this`targetBeta, this`targetRadius, this`targetScale, this`targetFocus,
        this`orbitSmoothness, this`zoomSmoothness, this`panSmoothness
    {
      var due := alpha0.Some? && beta0.Some? && radius0.Some?
        && (|| moved
            || targetAlpha != alpha0.value || targetBeta != beta0.value || targetRadius != radius0.value
            || targetFocus != focus0 || Some(targetScale) != scale0 || forceUpdate0);
      && (due ==>
            && alpha == Some(smoothing.scalar(alpha0.value, targetAlpha, orbitSmoothness))
            && beta == Some(smoothing.scalar(beta0.value, targetBeta, orbitSmoothness))
            && radius == Some(smoothing.scalar(radius0.value, targetRadius, zoomSmoothness))
            && scale == Some(smoothing.scalar(scale0.GetOr(targetScale), targetScale, zoomSmoothness))
            && focus == smoothing.vector(focus0, targetFocus, panSmoothness)
            && !forceUpdate
            && projectionOut == (if projection.Orthographic? then projection.(scale := scale.value) else projection)
            && pose == Some(Pose(alpha.value, beta.value, radius.value, focus)))
      && (!due ==>
            && alpha == alpha0 && beta == beta0 && radius == radius0 && scale == scale0
            && focus == focus0 && forceUpdate == forceUpdate0
            && projectionOut == projection && pose == initialPose)
    }

    /** The radius pair the frame's scroll moves: only a perspective camera's. */
    function RadiusZoomed(g: Gathered, projection: Projection): ZoomValues
      reads this`targetRadius, this`radius, this`zoomUpperLimit, this`zoomLowerLimit
    {
      Zoomed(projection.Perspective?, targetRadius, radius, g, zoomUpperLimit, zoomLowerLimit)
    }

    /** The scale pair the frame's scroll moves: only an orthographic camera's. */
    function ScaleZoomed(g: Gathered, projection: Projection): ZoomValues
      reads this`targetScale, this`scale, this`zoomUpperLimit, this`zoomLowerLimit
    {
      Zoomed(projection.Orthographic?, targetScale, scale, g, zoomUpperLimit, zoomLowerLimit)
    }

    /** Whether the input step of the frame moved anything. */
    predicate MovedBy(g: Gathered, active: ActiveCameraData) {
      Rotating(g, active) || Panning(g, active) || Abs(g.scrollLine + g.scrollPixel) > 0.0
    }

    /** Steps 2 and 3: the gathered input moves the targets, which are then
        clamped, and the zoomed radius or scale, and nothing else. */
    method Steer(g: Gathered, active: ActiveCameraData, projection: Projection, geometry: Geometry)
      returns (hasMoved: bool)
      requires SizesNonZero(active)
      modifies this`isUpsideDown, this`targetAlpha, this`targetBeta, this`targetFocus,
        this`targetRadius, this`radius, this`targetScale, this`scale
      ensures AimOf() == ConstrainedAim(InputAim(old(Snapshot()), old(SettingsOf()), g, active, projection, geometry),
                                        old(SettingsOf()))
      ensures radius == old(RadiusZoomed(g, projection)).current && scale == old(ScaleZoomed(g, projection)).current
      ensures hasMoved <==> MovedBy(g, active)
      ensures TargetsConstrained()
      ensures radius.Some? == old(radius).Some? && scale.Some? == old(scale).Some?
      ensures isUpsideDown != old(isUpsideDown) ==> g.orbitButtonChanged
    {
      ghost var settings := SettingsOf();
      hasMoved := TakeInput(g, active, projection, geometry);
      ghost var aim := AimOf();
      assert SettingsOf() == settings;
      Constrain();
      assert AimOf() == ConstrainedAim(aim, settings);
    }

    /** Step 3, stated over the targets and the flag together. */
    method Constrain()
      modifies this`targetAlpha, this`targetBeta, this`targetRadius, this`targetScale, this`targetFocus
      ensures AimOf() == ConstrainedAim(old(AimOf()), SettingsOf())
      ensures TargetsConstrained()
    {
      ApplyConstraints();
    }

    /** Step 2, stated over the targets and the flag together. */
    method TakeInput(g: Gathered, active: ActiveCameraData, projection: Projection, geometry: Geometry)
      returns (hasMoved: bool)
      requires SizesNonZero(active)
      modifies this`isUpsideDown, this`targetAlpha, this`targetBeta, this`targetFocus,
        this`targetRadius, this`radius, this`targetScale, this`scale
      ensures AimOf() == InputAim(old(Snapshot()), old(SettingsOf()), g, active, projection, geometry)
      ensures radius == old(RadiusZoomed(g, projection)).current && scale == old(ScaleZoomed(g, projection)).current
      ensures hasMoved <==> MovedBy(g, active)
      ensures radius.Some? == old(radius).Some? && scale.Some? == old(scale).Some?
      ensures isUpsideDown != old(isUpsideDown) ==> g.orbitButtonChanged
    {
      hasMoved := ProcessInput(g, active, projection, geometry);
    }
  }

  /** The constraints on the targets depend on the targets and the camera's
      configuration only. */
  twostate lemma ConstrainedKept(c: PanOrbitCamera)
    requires old(c.TargetsConstrained())
    requires c.targetAlpha == old(c.targetAlpha) && c.targetBeta == old(c.targetBeta)
    requires c.targetRadius == old(c.targetRadius) && c.targetScale == old(c.targetScale)
    requires c.targetFocus == old(c.targetFocus)
    requires unchanged(c`allowUpsideDown, c`alphaUpperLimit, c`alphaLowerLimit, c`betaUpperLimit, c`betaLowerLimit,
      c`focusXUpperLimit, c`focusXLowerLimit, c`focusYUpperLimit, c`focusYLowerLimit,
      c`focusZUpperLimit, c`focusZLowerLimit)
    ensures c.TargetsConstrained()
  {}

  lemma ScaledSumStep(sum: real, x: real, d: real, k: real)
    ensures (sum + x) * d * k == sum * d * k + x * d * k
  {
  }
}
