# bevy_panorbit_camera: per-frame camera logic in Dafny

This project models the per-frame logic of the `bevy_panorbit_camera` plugin's
`src/lib.rs` and proves properties about it. The plugin drives an orbit camera
that looks at a focus point. It has two systems.

- **The active-camera resolver** (`active_viewport_data`). When an orbit or pan
  binding was just pressed, or any scroll arrived, it picks the window-targeted
  camera whose viewport holds the cursor. Among those with order ≥ 0, the one
  with the highest order wins, and among equal orders the last one. It writes
  that camera's record (or the default record) into the shared
  `ActiveCameraData`, unless the record is under manual control.
- **The per-camera update** (`pan_orbit_camera`), a state machine over the
  `PanOrbitCamera` component. It runs these steps in order:
  1. On the first frame only, initialise alpha, beta, radius and the
     orthographic scale.
  2. Gather the frame's mouse, scroll, magnify and rotate input, but only for
     the enabled active camera while the pointer is not over the UI.
  3. Recompute the upside-down flag when orbiting starts or stops.
  4. Turn the input into new rotation, pan or zoom targets.
  5. Clamp every target.
  6. When something moved or a target differs from its current value, move the
     current values towards the targets and place the transform.

Files and modules:

| file | module | content |
|---|---|---|
| `common.dfy` | `Common` | option type, 2D/3D vectors, `abs`, f32 `signum`, the f32 values of π and τ |
| `limits.dfy` | `Limits` | the `apply_alpha_limits`, `apply_beta_limits`, `apply_zoom_limits` and `apply_focus_limits` closures |
| `active_camera.dfy` | `ActiveCamera` | the resolver, as a method looping over a sequence of camera descriptors |
| `motion.dfy` | `Motion` | the pure parts of one frame: input sums, upside-down test, rotation, pan and zoom steps |
| `pan_orbit_camera.dfy` | `PanOrbit` | the `PanOrbitCamera` class and the frame update as methods that change its fields |

Scalars are `real`. Helpers from the crate's `util` module, whose bodies are not
part of this model, are handled as follows:

- `apply_limits` has an assumed body: raise to the lower bound, then cut to the
  upper bound.
- `lerp_and_snap_f32` and `lerp_and_snap_vec3` are function values in
  `Smoothing`.
- The result of `calculate_from_translation_and_focus` is an input value.
- The call to `update_orbit_transform` becomes the returned `Pose`.
- The binding helpers (`orbit_pressed`, `pan_pressed`, `orbit_just_pressed`,
  `orbit_just_released`) are boolean fields of the frame input.

## Model

| member | source | states |
|---|---|---|
| Limits.ApplyLimits | src/lib.rs:394-403 | ASSUMED body of `util::apply_limits`. The result is never above a present upper bound. It lies within the bounds when they are not inverted. A value already within is unchanged. The result is the value or one of the bounds. A value above a present upper bound gives that bound. A value below a present lower bound gives that bound when the limits are not inverted. With inverted limits the result is always the upper bound. |
| Limits.ApplyZoomLimits | src/lib.rs:388-392 | The result is at least the 0.05 floor. It is either the floor or the limited value, and equals the limited value when that is at or above the floor. A value within its limits and at or above the floor is unchanged. |
| Limits.ApplyFocusLimits | src/lib.rs:406-423 | Each axis is clamped on its own: an axis within its own limits keeps its value whatever the other axes do. With consistent limits the result lies in the box. A focus already in the box is unchanged. Every present upper bound holds. `ApplyFocusLimitsToBound` gives the value an out-of-range axis takes. |
| Limits.ApplyFocusLimitsToBound | src/lib.rs:406-423 | An axis above its upper bound takes that bound. An axis below its lower bound takes the lower bound when that axis's limits are consistent. |
| ActiveCamera.ActiveViewportData | src/lib.rs:296-356 | Under `manual` (the run condition at src/lib.rs:35), or when no camera saw activating input, the record is unchanged. Otherwise the new record is the unique winner's record, or the default when no hit camera has order ≥ 0. `changed` holds exactly when the record differs, as `set_if_neq` reports. The loop invariants prove the winner is the last hit camera of maximal non-negative order. |
| ActiveCamera.WinnerUnique | src/lib.rs:317-346 | At most one camera satisfies the selection rule, so the written record is determined by the cameras, windows and input. |
| ActiveCamera.WinnerExists | src/lib.rs:317-346 | Whenever some hit camera has order ≥ 0, a winner exists. The resolver's two outcomes therefore cover every case (proved by induction over the camera list). |
| ActiveCamera.OverlapPicksHigherOrder | src/lib.rs:338-345 | With two overlapping viewports of order 0 and 1 and the cursor in both, the order-1 camera wins in either iteration order. |
| Motion.LineZoomFactors | src/lib.rs:484-494 | Adding each line event's `y * direction * sensitivity` gives the raw line-scroll sum scaled once by direction and sensitivity (by induction). |
| Motion.PixelMoveFactors | src/lib.rs:495-504 | Adding each pixel event's `(x, y) * sensitivity` gives the raw pixel-scroll sum scaled once (by induction). |
| Motion.LineScrollScalesSum | src/lib.rs:484-494 | A frame's line zoom amount is the raw line-scroll sum times ±1 (reversed zoom) times the zoom sensitivity. |
| Motion.PixelScrollPans | src/lib.rs:477-504 | With no binding and no touchpad-orbit modifier held, a frame's pan is the raw pixel-scroll sum times the pan sensitivity. |
| Motion.OrbitTakesPrecedence | src/lib.rs:477-482 | While the orbit binding is held, mouse motion adds to rotation only, whatever the pan binding says. |
| Motion.MousePansWithoutOrbit | src/lib.rs:477-482 | Without orbit and with the pan binding held, mouse motion adds to pan only. |
| Motion.UpsideDownIffWrappedInLowerHalf | src/lib.rs:525-530 | The test on the truncated remainder `abs(target_beta % τ)` holds exactly when beta wrapped into [0, τ) lies strictly between τ/4 and 3τ/4. |
| Motion.Rotate | src/lib.rs:532-550 | Zero motion on an axis leaves that angle. A drag across the whole window width turns alpha by a full turn, against the drag, or with it when upside down. A drag across the whole height tilts beta by half a turn. |
| Motion.RotateUndo | src/lib.rs:532-550 | Dragging back by the same amount restores both target angles. |
| Motion.RotateMirrors | src/lib.rs:532-550 | Upside down, the same drag turns alpha by the same amount the other way; beta turns the same either way. |
| Motion.RotateComposes | src/lib.rs:532-550 | Two rotation steps with the same upside-down flag equal one step by the summed drag, so a drag split over several frames turns the camera as far as one frame's drag. |
| Motion.PanToWorld | src/lib.rs:552-566 | The multiplier is the current radius for a perspective camera with a radius, else 1. A drag across the whole viewport covers the visible extent (field of view times aspect, or the orthographic area). Zero pan stays zero. `PanToWorldProportional` and `PanToWorldAdds` state the scaling for every drag. |
| Motion.PanToWorldProportional | src/lib.rs:555-565 | On each axis the world pan is the dragged fraction of the viewport size times the visible extent on that axis: field of view times aspect ratio, or field of view, for a perspective camera; the orthographic area's width or height otherwise. |
| Motion.PanToWorldAdds | src/lib.rs:555-565 | The scaling is additive: two drags pan as far as one drag of their sum. |
| Motion.PanNeverPushesPastBound | src/lib.rs:568-583 | For the corrected pan, on every axis, a focus sitting on a bound is never moved past it. This holds whatever the pan or the axes, given a normalisation that keeps signs. |
| Motion.PanAgreesAwayFromLimits | src/lib.rs:568-583 | When neither probe is bent by the limits, the corrected pan equals the translation as written. |
| Motion.ZoomTarget | src/lib.rs:588-601 | No scroll leaves the target. Otherwise the target is scaled by `1 - (line + pixel) / 5`. |
| Motion.Zoom | src/lib.rs:588-608 | The target moves as `ZoomTarget` says. The current value moves by the pixel part alone and is re-clamped to at least 0.05. It stays absent if it was absent and present if it was present. With no scroll it is unchanged. |
| Motion.ZoomInMovesCloser | src/lib.rs:596-601 | Scrolling in by less than 5 brings a positive target closer without reaching zero. |
| Motion.ZoomOutMovesAway | src/lib.rs:596-601 | Scrolling out moves a positive target further away. |
| Motion.ZoomIsRelative | src/lib.rs:596-601 | The same scroll scales the target by the same factor at any zoom level. |
| PanOrbit.PanOrbitCamera.constructor | src/lib.rs:223-267 | The `Default` values: zero focus, no preset values, unit targets, no limits, sensitivities 1, smoothness 0.8/0.6/0.8, enabled, not initialised. |
| PanOrbit.PanOrbitCamera.Initialize | src/lib.rs:425-463 | Preset alpha, beta and radius are kept, and missing ones are taken from the transform. All three are clamped. The targets are seeded from them and the focus target from the focus. An orthographic camera keeps its preset scale unclamped (else takes the projection's), while the projection and the scale target get the clamped value. `initialized` is set and the transform placed. |
| PanOrbit.PanOrbitCamera.InitializeOrbit | src/lib.rs:425-447 | The alpha, beta and radius part of initialisation, as above. |
| PanOrbit.PanOrbitCamera.InitializeScale | src/lib.rs:449-458 | The orthographic scale part of initialisation; a perspective camera is left alone. |
| PanOrbit.PanOrbitCamera.GatherInput | src/lib.rs:465-521 | Input is gathered only when the pointer is off the UI, the camera is enabled and it is the active entity; otherwise every accumulator is zero. `orbit_button_changed` holds exactly when gated and the orbit binding was just pressed or released. |
| PanOrbit.PanOrbitCamera.Accumulated | src/lib.rs:477-520 | The accumulating loops compute the input summary `Motion.Accumulate` defines. |
| PanOrbit.PanOrbitCamera.MouseInput | src/lib.rs:477-482 | Mouse motion goes to rotation when orbit is held, else to pan when pan is held. |
| PanOrbit.PanOrbitCamera.ScrollInput | src/lib.rs:484-506 | The loop over scroll events adds line events to the zoom amount. Pixel events go to rotation when the touchpad-orbit modifier is held, else to pan. The loop invariant ties each prefix to the per-event sums. |
| PanOrbit.PanOrbitCamera.ScrollEventInput | src/lib.rs:485-505 | One scroll event, by its unit: a line event adds `y * direction * zoom sensitivity` to the line zoom amount; a pixel event adds its `(x, y)` times the orbit sensitivity to rotation when the touchpad-orbit modifier is held, else times the pan sensitivity to pan. Nothing else changes. |
| PanOrbit.PanOrbitCamera.MagnifyInput | src/lib.rs:508-510 | The pixel zoom amount is the magnify sum times zoom sensitivity times 2. |
| PanOrbit.PanOrbitCamera.RotateInput | src/lib.rs:512-514 | Horizontal rotation gains the rotate sum times orbit sensitivity times 3; vertical is untouched. |
| PanOrbit.PanOrbitCamera.ProcessInput | src/lib.rs:523-608 | The upside-down flag is recomputed only on an orbit press or release. Rotation input moves the angle targets (when a window size is known) and suppresses pan. Pan moves the focus target by the corrected pan. Scroll zooms the radius, or the scale for orthographic cameras. `has_moved` holds exactly when one of these ran. |
| PanOrbit.PanOrbitCamera.UpdateUpsideDown | src/lib.rs:525-530 | The flag equals the upside-down test on the target beta when the orbit button changed, and is unchanged otherwise. |
| PanOrbit.PanOrbitCamera.RotateOrPan | src/lib.rs:532-586 | The rotation branch runs when there is rotation and a window size; the pan branch only when there is no rotation, some pan and a viewport size. Targets untouched by a branch are unchanged. |
| PanOrbit.PanOrbitCamera.ZoomInput | src/lib.rs:588-608 | The orthographic camera zooms scale and target scale, the perspective camera radius and target radius, as `Motion.Zoom` says; it reports a move exactly when there is scroll. |
| PanOrbit.PanOrbitCamera.ApplyConstraints | src/lib.rs:610-621 | Every target is clamped by its limits. Beta is clamped to [-π/2, π/2] unless upside-down views are allowed. Afterwards the radius and scale targets are at least 0.05, and beta is within a quarter turn of level when upside down is not allowed. Alpha and the focus lie within their limits when those are consistent, and so does beta when upside-down views are allowed. The radius and scale targets are not claimed to lie within their limits: an upper limit below 0.05 is exceeded, because the floor is applied after the limits. Beta may lie outside consistent limits when upside-down views are not allowed, because the quarter-turn clamp is applied after the limits. |
| PanOrbit.PanOrbitCamera.Commit | src/lib.rs:623-685 | When the current angles and radius exist and something moved, a target differs, or an update is forced: each current value is smoothed towards its target, the scale becomes present, an orthographic projection takes it, the transform is placed and `force_update` is cleared. Otherwise nothing changes. Targets are never changed. |
| PanOrbit.PanOrbitCamera.TakeInput | src/lib.rs:523-608 | Step 2 over the targets and the upside-down flag together. They become `InputAim` of the values before and the gathered input: the flag is recomputed from the target beta only on an orbit press or release, the angles turn by the rotation with the new flag, the focus pans by the corrected pan, and the zoom target of the camera's kind scrolls. The current radius or scale takes the zoomed value. `has_moved` holds exactly when rotation, pan or scroll ran. |
| PanOrbit.PanOrbitCamera.Constrain | src/lib.rs:610-621 | Step 3 over the targets together: they become `ConstrainedAim` of the targets before, each clamped by its limits and beta then to a quarter turn of level unless upside-down views are allowed; the flag is kept. The constraint guarantees hold afterwards. |
| PanOrbit.PanOrbitCamera.Steer | src/lib.rs:523-621 | Steps 2 and 3: the new targets and flag are the clamped image `ConstrainedAim(InputAim(..))` of the values before and the gathered input; the current radius or scale takes the zoomed value; `has_moved` holds exactly when something moved; the constraint guarantees hold; the flag changes only when the orbit button changed. |
| PanOrbit.PanOrbitCamera.FinishFrame | src/lib.rs:623-685 | Step 4 with the frame's pose (`Committed`): when the current angles and radius exist and something moved, a target differs from its current value or an update is forced, each current value is smoothed towards its target, an orthographic projection takes the new scale, the pose is placed and `force_update` is cleared; otherwise every current value and the projection are unchanged and the pose is the one initialisation placed, if any. The constraint guarantees are kept. |
| PanOrbit.PanOrbitCamera.Advance | src/lib.rs:523-685 | Steps 2 to 4 from the gathered input: the targets as `Steer` states, and the current values, projection and pose as `Committed` states over the current values before the frame, the zoomed radius or scale, and whether the input moved anything. |
| PanOrbit.PanOrbitCamera.Frame | src/lib.rs:465-685 | Steps 1 to 4: as `Advance`, with the input gathered only when the pointer is off the UI, the camera is enabled and it is the active entity. The flag changes only in such a frame with an orbit press or release. |
| PanOrbit.PanOrbitCamera.Update | src/lib.rs:386-686 | After a frame the camera is initialised and the clamp guarantees of the constraints step hold. The upside-down flag changes only in a gated frame with an orbit press or release. A commit clears `force_update` and leaves the scale present. The projection kind is kept. For a camera already initialised, the whole new state follows from the old one and the input: the targets and flag as `Frame` states, and the current values, projection and pose as `Committed` states with no initial pose. |

## Left out

- Bevy scheduling: the plugin, queries, event readers, resources and system ordering (src/lib.rs:28-46). The resolver's run condition `!manual` is kept, as an early return.
- egui pointer detection (src/lib.rs:368-382) is reduced to a boolean input.
- The button and key bindings and the `util` pressed helpers are resolved into per-camera boolean flags of the frame input. The touchpad-orbit modifier is one flag for the whole frame.
- The mouse motion events are given already summed, as src/lib.rs:384 sums them.
- Event consumption across cameras in one run is not modelled: each update is given its own frame input.
- Geometry: `calculate_from_translation_and_focus` is an input, the transform's right and up axes are inputs, and the unit vector inside `normalize_or_zero` is an abstract function. The pan lemmas assume of it only what they need, such as keeping signs. `update_orbit_transform` becomes the returned `Pose`.
- `lerp_and_snap_f32` and `lerp_and_snap_vec3` are abstract functions; no convergence or snapping is claimed.
- Limits.ApplyLimits: the body of `util::apply_limits` is not part of this model; it is assumed to raise to the lower bound and then cut to the upper bound.
- f32 arithmetic: values are exact reals. There is no rounding, NaN or infinity, and π and τ are the exact decimal values of their f32 constants.
- Division by a zero window or viewport size (infinity or NaN in f32) is excluded by the `SizesNonZero` requirement.
- `length_squared() > 0.0` is read as "the vector is not zero", which holds for reals.
- The window lookups that panic through `expect` (src/lib.rs:319-324) become the `WindowsResolve` requirement.
- The comment at src/lib.rs:329-330 mentions reversing Y, but the code does not, so no flip is modelled.
- The doc comments at src/lib.rs:154 and 159 give a zoom floor of 0.02; the model uses the code's 0.05 (src/lib.rs:391).
- The pan direction probe (src/lib.rs:568-583): the camera uses the corrected `Motion.PanTranslation` (see Findings). The code as written is kept as `Motion.PanTranslationAsWritten` and agrees with the corrected one away from the limits (`Motion.PanAgreesAwayFromLimits`).
- Commit, as written, sets `scale` to a value even for perspective cameras (src/lib.rs:654-681). The model does the same.

## Findings

| source | as written | input that shows it | evidently intended | confidence | as-written member | corrected member |
|---|---|---|---|---|---|---|
| src/lib.rs:568-583 | The right axis is probed against the limits in the direction `right * signum(pan.x)`. The focus then moves by `right * -pan.x * signum(pan.x)`, the opposite direction. The up axis probes in the direction it moves. | Focus x upper limit 1, focus at x = 1, right axis +x, up axis +y, multiplier 1. The pan (1, 0) should move the focus to -x, away from the bound, but its probe goes through the bound, so the translation is zero and the camera cannot leave the bound by panning. The pan (-1, 0) probes inwards and moves the focus to x = 2, past the bound; the constraints step then clamps it back. | Probe in the direction the focus moves (`-signum(pan.x)` for the right axis), as for the up axis. The focus is then never pushed past a bound it sits on, and panning away from a bound works. | not executed | Motion.PanTranslationAsWritten, Motion.AsWrittenBlocksPanAway, Motion.AsWrittenPansThroughBound | Motion.PanTranslation, Motion.CorrectedPansAway, Motion.CorrectedHoldsAtBound, Motion.PanNeverPushesPastBound |
