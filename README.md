# need_4_fruits input layer, in Dafny

This project models the gameplay logic of the input layer of the need_4_fruits
platformer (`src/controls.rs`). Each frame two systems update engine resources
in place:

- `keyboard_controls_system` turns the W/S/D/A keys into the player's movement
  intent (`Movement`). A fresh press of up requests a jump. Holding down starts
  a fast fall. Holding right and left sets the horizontal axis.
- `dash_direction_arrows` turns fresh presses of the arrow keys into four axis
  vectors. It folds them onto the currently stored dash direction with
  `DashDirection::add`. When the sum is not empty (`is_empty`), it stores the sum
  and raises `trying_to_dash`.

The resources start from their `Default` values.

Everything is in module `Controls` (`controls.dfy`):

- The values are datatypes: `DashDirection` (with `Add` and `IsEmpty`),
  `Movement`, `Dash`, `MouseCoordinates` and `Timer`.
- The resources are a class, `ControlsResources`. It has `movement`, `mouse` and
  `dash` fields and one method per system. Each method changes only its own
  field.
- Each method is proved equal to a closed-form step function (`KeyboardStep`,
  `DashStep`). The properties are proved about those functions. Some lemmas
  cover one frame. Others cover any sequence of frames (`RunKeyboard`,
  `RunDash`).
- The method `DashDirectionArrows` folds the four vectors exactly as the source
  does (`FoldAdd`). `FoldAdd` is proved equal to a reference sum. That sum is
  proved independent of the order of the vectors.

Assumptions:

- The `f32` fields of `Movement` and `DashDirection` are modelled as `int`.
  They only ever hold sums of 0 and ±1, which `f32` represents exactly while
  the magnitude stays below 2^24. The `f32` world-space cursor position of
  `MouseCoordinates` is modelled as `real`.
  The stored dash direction is not clamped: right pressed on two frames gives
  x = 2.
- The engine's keyboard (`Res<Input<KeyCode>>` read through
  `KeyboardControls::is_pressed` / `is_just_pressed`) is a parameter. For each
  binding it gives four "held" flags and four "just pressed" flags (`KeyInput`).
- `usize` counters are `nat`.

One behaviour worth knowing is proved in `IdleFrame` and `DashRun`. The
dash-direction routine never clears the stored direction. So a frame with no
arrow presses still raises `trying_to_dash` whenever the stored direction is
non-empty. Only when the stored direction is empty does an idle frame leave the
whole `Dash` state unchanged.

A related behaviour is proved in `CancellingPressIgnored`, `DashRun` and
`LeftThenRightIsStuck`. A press whose offset exactly cancels the stored
direction gives an empty sum, and an empty sum is ignored. So once the stored
direction is non-empty it never becomes empty again. With the stored direction
at (−1, 0), pressing right alone changes nothing, on every frame.

## Model

| member | source | states |
|---|---|---|
| `Controls.DashDirection.IsEmpty` | src/controls.rs:58-60 | a direction is empty exactly when it is the zero vector (0, 0) |
| `Controls.AddLaws` | src/controls.rs:52-57 | `add` is componentwise addition: commutative, associative, with the empty direction as identity; a sum is empty exactly when the operands are opposite |
| `Controls.FoldAdd` | src/controls.rs:271-275 | folding directions one by one onto an accumulator gives the accumulator plus the (reference) sum of all of them |
| `Controls.SumRemove` | src/controls.rs:271-275 | removing any one vector from a sequence and adding it back separately leaves the sum unchanged |
| `Controls.SumPermutation` | src/controls.rs:271-275 | the sum of a sequence of directions depends only on which directions occur (its multiset), not their order |
| `Controls.FoldOrderIndependent` | src/controls.rs:271-275 | the order in which the arrow vectors are folded onto the stored direction does not affect the result |
| `Controls.ToNum` | src/controls.rs:244-250 | the `to_num` closure yields 1 exactly for a pressed key and 0 otherwise |
| `Controls.Offset` | src/controls.rs:252-268 | one frame's arrow offset is (right − left, up − down): x is +1 exactly when only right is pressed and −1 exactly when only left is, y is +1 exactly when only up is pressed and −1 exactly when only down is, and each is 0 when both or neither opposite arrows are pressed |
| `Controls.DashStepCandidate` | src/controls.rs:243-285 | candidate = stored direction + (right − left, up − down); a non-empty candidate becomes the direction and sets `trying_to_dash`, an empty one leaves the whole `Dash` unchanged |
| `Controls.DashStepFrame` | src/controls.rs:226-288 | a dash frame never clears `trying_to_dash`, never changes `is_dashing`, `dashed` or `duration`, keeps "a request has a non-empty direction" true, and never turns a non-empty direction into an empty one |
| `Controls.CancellingPressIgnored` | src/controls.rs:270-285 | a press whose offset is the exact opposite of the stored direction sums to empty and leaves the whole `Dash` unchanged |
| `Controls.IdleFrame` | src/controls.rs:282-285 | a frame without arrow presses keeps the direction, and raises the request again whenever the stored direction is non-empty |
| `Controls.DashRun` | src/controls.rs:226-288 | over any sequence of frames: the request is never withdrawn, `is_dashing`/`dashed`/`duration` never change, consistency is kept, a non-empty direction never becomes empty; with no arrow presses the direction stays put |
| `Controls.DiagonalFromRest` | src/controls.rs:270-285 | right and up pressed together from an empty direction give (1, 1) and a request: diagonals are not scaled down |
| `Controls.RightTwiceAccumulates` | src/controls.rs:271-285 | right pressed on two frames moves a direction with x ≥ 0 by two steps (from rest to (2, 0)) and raises a request: the direction is not clamped |
| `Controls.LeftThenRightIsStuck` | src/controls.rs:270-285 | with the stored direction at (−1, 0), any number of frames with only right pressed leave the `Dash` unchanged: the direction cannot cancel back to empty |
| `Controls.Axis` | src/controls.rs:139-146 | the horizontal axis is in {−1, 0, 1}: +1 exactly when only right is held, −1 exactly when only left is held, 0 when both or neither are held |
| `Controls.AxisReplacesPrevious` | src/controls.rs:139-146 | the axis after a keyboard frame does not depend on the previous axis |
| `Controls.KeyboardRun` | src/controls.rs:122-149 | over any sequence of frames: the axis is the last frame's, `jump` is set iff it was set before or up was just pressed in some frame, fast-fall is set iff it was set before or down was held in some frame, `jumped` and `lock_x` never change |
| `Controls.DefaultDashDirection` | src/controls.rs:63-67 | the default direction is empty |
| `Controls.DefaultDash` | src/controls.rs:69-80 | the default dash has no request, is not dashing, has used no dash, has an empty direction, has the default timer as its duration, and satisfies the request/direction consistency |
| `Controls.DefaultMovement` | src/controls.rs:88-98 | the default movement has axis 0, no jump request, zero jumps, no fast fall and no axis lock |
| `Controls.DefaultsAreIdle` | src/controls.rs:63-104 | a frame with no key held or pressed leaves the default movement and the default dash unchanged |
| `Controls.ControlsResources.constructor` | src/controls.rs:112-114 | the resources start at their defaults (mouse at (0, 0), dash duration a zero timer), with axis in {−1, 0, 1} and a consistent dash |
| `Controls.ControlsResources.KeyboardControlsSystem` | src/controls.rs:122-149 | only `movement` changes: axis rebuilt from right/left held, `jump` set on a fresh up and never cleared, fast-fall set while down is held and never cleared, `jumped` and `lock_x` kept |
| `Controls.ControlsResources.DashDirectionArrows` | src/controls.rs:226-288 | only `dash` changes, to the closed-form step: the four vectors folded onto the stored direction equal stored + offset; a request is never withdrawn and `is_dashing`, `dashed` and `duration` are kept |

## Left out

- `cursor_system` (src/controls.rs:155-224): floating-point camera projection and inversion, spawning and despawning the aim entity, and window lookups that panic. Only the default `MouseCoordinates` is modelled.
- `Dash::apply_time` (src/controls.rs:83-85): it only forwards the frame time to the engine's `Timer::tick`, which is not part of this model. `Timer` keeps only the two zero quantities that `Timer::default` gives.
- `joystick_control_system` (src/controls.rs:151-153): its body is `todo!()`.
- `ControlsPlugin::build` (src/controls.rs:110-119): registering systems with the engine scheduler is not modelled. The default resources it inserts are what `ControlsResources.constructor` establishes.
- `KeyboardControls::is_pressed` / `is_just_pressed` and the key bindings (W/S/D/A and the arrows): these are defined outside `src/controls.rs` and are not part of this model. They are replaced by boolean inputs. As a result, edge detection ("just pressed" only on the frame of the press) is the engine's job and is not modelled.
- The commented-out `is_dashing` guard (src/controls.rs:231-233) and diagonal halving (src/controls.rs:277-280) are inactive, so they are not modelled as behaviour.
- Consuming the jump request, the dash request or the stored direction happens in code outside this file. It is not modelled.
