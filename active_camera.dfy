/** The shared `ActiveCameraData` record and the `active_viewport_data` system
    that decides, once per frame, which orbit camera receives the input. */
module ActiveCamera {
  import opened Common

  /** An entity identifier of the host. */
  type Entity = nat

  /** Which camera handles input, with the viewport and window sizes used to
      scale pan and orbit motion. `manual` hands the record to external code. */
  datatype ActiveCameraData = ActiveCameraData(
    entity: Option<Entity>,
    viewportSize: Option<Vec2>,
    windowSize: Option<Vec2>,
    manual: bool)

  /** `ActiveCameraData::default()`. */
  const DefaultActiveCameraData: ActiveCameraData := ActiveCameraData(None, None, None, false)

  datatype WindowRef = Primary | WindowEntity(id: Entity)

  /** A window: its logical size and the cursor position, absent when the
      cursor is not over it. */
  datatype Window = Window(width: real, height: real, cursor: Option<Vec2>)

  datatype RenderTarget = WindowTarget(window: WindowRef) | OtherTarget

  datatype Rect = Rect(min: Vec2, max: Vec2)

  /** What the resolver reads of one orbit camera: its entity, render target,
      logical viewport rectangle and size, draw order, and whether its own orbit
      or pan binding was just pressed this frame. */
  datatype OrbitCamera = OrbitCamera(
    entity: Entity,
    target: RenderTarget,
    viewportRect: Option<Rect>,
    viewportSize: Option<Vec2>,
    order: int,
    orbitJustPressed: bool,
    panJustPressed: bool)

  /** The camera saw input that may activate it: its orbit or pan binding was
      just pressed, or any scroll event arrived this frame. */
  predicate Activated(c: OrbitCamera, anyScroll: bool) {
    c.orbitJustPressed || c.panJustPressed || anyScroll
  }

  predicate AnyActivated(cameras: seq<OrbitCamera>, anyScroll: bool) {
    exists i :: 0 <= i < |cameras| && Activated(cameras[i], anyScroll)
  }

  /** The host guarantees that a window a camera renders to exists; the
      resolver looks windows up only for activated cameras. */
  predicate WindowsResolve(cameras: seq<OrbitCamera>, windows: map<WindowRef, Window>, anyScroll: bool) {
    forall i :: 0 <= i < |cameras| && Activated(cameras[i], anyScroll) && cameras[i].target.WindowTarget? ==>
      cameras[i].target.window in windows
  }

  /** Strictly inside the rectangle, with no flip of the y axis. */
  predicate CursorInViewport(cursor: Vec2, rect: Rect) {
    rect.min.x < cursor.x < rect.max.x && rect.min.y < cursor.y < rect.max.y
  }

  /** The camera is activated, renders to a window that holds the cursor, and
      the cursor lies inside its viewport; only its order is still to compare. */
  predicate Hit(c: OrbitCamera, windows: map<WindowRef, Window>, anyScroll: bool) {
    && Activated(c, anyScroll)
    && c.target.WindowTarget?
    && c.target.window in windows
    && windows[c.target.window].cursor.Some?
    && c.viewportRect.Some?
    && CursorInViewport(windows[c.target.window].cursor.value, c.viewportRect.value)
  }

  /** The record written when camera `c` is chosen. */
  function RecordFor(c: OrbitCamera, windows: map<WindowRef, Window>): ActiveCameraData
    requires c.target.WindowTarget? && c.target.window in windows
  {
    var w := windows[c.target.window];
    ActiveCameraData(Some(c.entity), c.viewportSize, Some(Vec2(w.width, w.height)), false)
  }

  /** Camera `k` wins: it is hit, its order is not negative, no hit camera has a
      higher order, and every later hit camera has a strictly lower order. */
  ghost predicate IsWinner(cameras: seq<OrbitCamera>, windows: map<WindowRef, Window>, anyScroll: bool, k: int) {
    && 0 <= k < |cameras|
    && Hit(cameras[k], windows, anyScroll)
    && cameras[k].order >= 0
    && (forall j :: 0 <= j < |cameras| && Hit(cameras[j], windows, anyScroll) ==> cameras[j].order <= cameras[k].order)
    && (forall j :: k < j < |cameras| && Hit(cameras[j], windows, anyScroll) ==> cameras[j].order < cameras[k].order)
  }

  /** No hit camera has an order of at least zero. */
  ghost predicate NoWinner(cameras: seq<OrbitCamera>, windows: map<WindowRef, Window>, anyScroll: bool) {
    forall j :: 0 <= j < |cameras| && Hit(cameras[j], windows, anyScroll) ==> cameras[j].order < 0
  }

  /** `active_viewport_data`, together with its run condition `!manual`: the new
      record and whether `set_if_neq` changed the shared one. */
  method ActiveViewportData(
    active: ActiveCameraData, cameras: seq<OrbitCamera>, windows: map<WindowRef, Window>, anyScroll: bool)
    returns (next: ActiveCameraData, changed: bool)
    requires WindowsResolve(cameras, windows, anyScroll)
    ensures changed <==> next != active
    ensures active.manual || !AnyActivated(cameras, anyScroll) ==> next == active
    ensures !active.manual && AnyActivated(cameras, anyScroll) ==>
      || (exists k :: IsWinner(cameras, windows, anyScroll, k) && next == RecordFor(cameras[k], windows))
      || (NoWinner(cameras, windows, anyScroll) && next == DefaultActiveCameraData)
  {
    if active.manual {
      return active, false;
    }
    var newResource := DefaultActiveCameraData;
    var maxCamOrder := 0;
    var hasInput := false;
    ghost var chosen: Option<nat> := None;
    var i := 0;
    while i < |cameras|
      invariant 0 <= i <= |cameras|
      invariant hasInput <==> exists j :: 0 <= j < i && Activated(cameras[j], anyScroll)
      invariant chosen.None? ==> newResource == DefaultActiveCameraData && maxCamOrder == 0
      invariant chosen.None? ==> forall j :: 0 <= j < i && Hit(cameras[j], windows, anyScroll) ==> cameras[j].order < 0
      invariant chosen.Some? ==> chosen.value < i && Hit(cameras[chosen.value], windows, anyScroll)
      invariant chosen.Some? ==> maxCamOrder == cameras[chosen.value].order >= 0
      invariant chosen.Some? ==> newResource == RecordFor(cameras[chosen.value], windows)
      invariant forall j :: 0 <= j < i && Hit(cameras[j], windows, anyScroll) ==> cameras[j].order <= maxCamOrder
      invariant chosen.Some? ==>
        forall j :: chosen.value < j < i && Hit(cameras[j], windows, anyScroll) ==> cameras[j].order < maxCamOrder
    {
      var camera := cameras[i];
      if Activated(camera, anyScroll) {
        hasInput := true;
        if camera.target.WindowTarget? {
          var window := windows[camera.target.window];
          if window.cursor.Some? {
            if camera.viewportRect.Some? {
              var cursorInVp := CursorInViewport(window.cursor.value, camera.viewportRect.value);
              if cursorInVp && camera.order >= maxCamOrder {
                newResource := ActiveCameraData(
                  Some(camera.entity), camera.viewportSize, Some(Vec2(window.width, window.height)), false);
                maxCamOrder := camera.order;
                chosen := Some(i);
              }
            }
          }
        }
      }
      i := i + 1;
    }
    if hasInput {
      next := newResource;
    } else {
      next := active;
    }
    changed := next != active;
    if hasInput && chosen.Some? {
      assert IsWinner(cameras, windows, anyScroll, chosen.value);
    }
  }

  /** There is at most one winner, so the record the resolver writes is fully
      determined by the cameras, the windows and the input. */
  lemma WinnerUnique(cameras: seq<OrbitCamera>, windows: map<WindowRef, Window>, anyScroll: bool, k1: int, k2: int)
    requires IsWinner(cameras, windows, anyScroll, k1) && IsWinner(cameras, windows, anyScroll, k2)
    ensures k1 == k2
  {
  }

  /** Exactly one of the resolver's two outcomes is possible: when some hit
      camera has a non-negative order, a winner exists. */
  lemma {:induction false} WinnerExists(cameras: seq<OrbitCamera>, windows: map<WindowRef, Window>, anyScroll: bool)
    requires !NoWinner(cameras, windows, anyScroll)
    ensures exists k :: IsWinner(cameras, windows, anyScroll, k)
  {
    var n := |cameras| - 1;
    var last := cameras[n];
    var prefix := cameras[..n];
    assert forall j :: 0 <= j < n ==> prefix[j] == cameras[j];
    if NoWinner(prefix, windows, anyScroll) {
      // Every earlier hit is negative, so the last camera must be the non-negative hit.
      assert Hit(last, windows, anyScroll) && last.order >= 0;
      assert IsWinner(cameras, windows, anyScroll, n);
    } else {
      WinnerExists(prefix, windows, anyScroll);
      var k :| IsWinner(prefix, windows, anyScroll, k);
      if Hit(last, windows, anyScroll) && last.order >= cameras[k].order {
        assert IsWinner(cameras, windows, anyScroll, n);
      } else {
        assert IsWinner(cameras, windows, anyScroll, k);
      }
    }
  }

  /** Two overlapping viewports with orders 0 and 1 and the cursor in both: the
      order-1 camera wins, whichever comes first. */
  lemma OverlapPicksHigherOrder(
    low: OrbitCamera, high: OrbitCamera, windows: map<WindowRef, Window>, anyScroll: bool)
    requires Hit(low, windows, anyScroll) && Hit(high, windows, anyScroll)
    requires low.order == 0 && high.order == 1
    ensures IsWinner([low, high], windows, anyScroll, 1)
    ensures IsWinner([high, low], windows, anyScroll, 0)
    ensures !IsWinner([low, high], windows, anyScroll, 0) && !IsWinner([high, low], windows, anyScroll, 1)
  {
    assert [low, high][1] == high && [high, low][0] == high;
  }
}
