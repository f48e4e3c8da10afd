# PlayerMovement, modelled and verified in Dafny

A Dafny model of the per-frame character controller `PlayerMovement`
(`Assets/Scripts/PlayerMovement.cs`), a Unity `MonoBehaviour`. The controller
keeps a movement mode (WASD, Click or Mobile), moves and turns the player's
transform every frame according to that mode, pursues a click target in Click
mode, and has a trail detector that switches the trail renderer on while the
player moves.

Layout:

- `vectors.dfy` (module `Vectors`): `Vector2`/`Vector3` over the reals, with the
  operations the script uses. Unity's square root becomes a parameter `sqrt`,
  and `IsSqrt` says what it must compute. `Normalized` follows
  `Vector3.Normalize`: it divides by the magnitude, or gives the zero vector
  when the magnitude is at most `kEpsilon` (0.00001). The lemmas show that this
  scales a long-enough vector by a positive `k` with `k * k * sqrMagnitude == 1`.
  So the normalized vector times `len` lies along the input and has length `|len|`.
- `rotations.dfy` (module `Rotations`): `Quaternion` is kept symbolic.
  `LookRotation` and `RotateTowards` are constructors that are never evaluated.
  The model therefore knows whether, and by which call, the script assigned a
  rotation, but not the angle. `Turns` counts the `RotateTowards` calls.
  Throughout, "the rotation changes" means "the script assigns a new
  `RotateTowards` result".
- `movement.dfy` (module `Movement`): the specification. Each method of the
  script is a function on a value snapshot `PlayerState` of the fields it
  changes. A `FrameInput` holds what the engine supplies during one `Update`.
  `Frame` is one `Update`, `Run` a sequence of them, and `TrailStep` is
  `UpdateTrailStatus`.
- `player.dfy` (module `Player`): the class `PlayerMovement`. Its mutable
  fields are the script's fields, plus `position`, `rotation` and `emitting`,
  which stand for `transform.position`, `transform.rotation` and
  `trailRenderer.emitting`. Each method assigns the fields the script assigns,
  under the same guards and early returns. It is proved to leave the object in
  the state its `Movement` function gives (`State() == F(old(State()), ...)`).
- `properties.dfy` (module `MovementProperties`): properties over one or
  several frames, and worked scenarios with concrete numbers.

Behaviour of the code worth knowing, some of it at odds with the script's own
comments:

- `MoveToTarget` is called every frame, commented as "only for point-click
  movement" (lines 61, 130); it returns at once outside Click mode.
- The pointer-over-UI test is commented "do not move the player" (line 94),
  but its early return only skips target acquisition. `MoveToTarget`
  (line 61) still moves the player toward the stored target in that frame
  (`ClickFrameIsPursuit` holds whatever the UI flag).
- `targetPosition` is never cleared when the player leaves Click mode.
  Returning to Click mode resumes pursuit of the old target
  (`TargetKeptWithoutLandingClick`, `ClickModeReturnsToSpawn`).
- `UpdateTrailStatus` is defined, and commented as enabling the trail while
  moving (line 165), but it is never called from `Update`. `Frame` therefore
  leaves `previous` and `emitting` alone, and `TrailStep` is a separate
  operation (`Player.PlayerMovement.UpdateTrailStatus`).
- The initial target is the spawn position (line 32), not "no target".
  Entering Click mode before any click therefore moves nothing
  (`NoPursuitBeforeFirstClick`). A player that walked away first is pulled
  back to where it spawned (`ClickModeReturnsToSpawn`).
- Once outside the arrival distance, `MoveToTarget` always steps the full
  `speed * deltaTime`, however close the target is. With a step longer than
  the remaining distance, the player can swing past the target:
  `PursuitCanOvershoot` shows three frames after which the state is the one
  after the first frame except for the rotation, and `RotationDoesNotSteer`
  shows the rotation has no say in later frames, so the swing repeats. The
  end-to-end example with target (10, 0, 0) lands exactly (`PursuitScenario`).

## Model

| member | source | states |
|---|---|---|
| Vectors.Planar | Assets/Scripts/PlayerMovement.cs:81 | `new Vector3(x, 0, y)` has a zero vertical component and the same squared magnitude as the 2D input |
| Vectors.Normalized | Assets/Scripts/PlayerMovement.cs:85 | normalizing a vector with no vertical component gives one with no vertical component |
| Vectors.SqrtAbove | Assets/Scripts/PlayerMovement.cs:169 | for a true square root, a magnitude exceeds a bound exactly when the squared magnitude exceeds the squared bound |
| Vectors.NormFactorIsInverseLength | Assets/Scripts/PlayerMovement.cs:85 | `normalized` scales every vector longer than kEpsilon by a positive k with k*k*sqrMagnitude == 1 |
| Vectors.ScaledNormalGeometry | Assets/Scripts/PlayerMovement.cs:85 | `v.normalized * len` is parallel to v, points along v when len > 0 and against it when len < 0, and has squared length len*len |
| Rotations.TurnToward | Assets/Scripts/PlayerMovement.cs:86-87 | `RotateTowards(rotation, LookRotation(dir), maxDelta)` is recorded as an assignment: the result carries one more RotateTowards call than the rotation it started from, so it is never mistaken for "not assigned" |
| Movement.SwitchMode | Assets/Scripts/PlayerMovement.cs:65-75 | key 3 gives Mobile; otherwise key 2 gives Click; otherwise key 1 gives WASD; no key keeps the mode (the last key tested wins) |
| Movement.Displacement | Assets/Scripts/PlayerMovement.cs:85 | the step added to the position has no vertical component when the direction has none |
| Movement.Turn | Assets/Scripts/PlayerMovement.cs:86-87 | a handler's turn is always recorded as an assignment of the rotation |
| Movement.DisplacementIsSpeedStep | Assets/Scripts/PlayerMovement.cs:85 | for a gated horizontal direction, the new position is reached by a horizontal step of length \|speed*deltaTime\| parallel to the direction, forward for a positive and backward for a negative speed*deltaTime |
| Movement.WasdStep | Assets/Scripts/PlayerMovement.cs:78-89 | only position and rotation change; y is kept; at squared input <= 0.01 nothing changes; rotation is assigned exactly when squared input > 0.01 |
| Movement.WasdMovesAtSpeed | Assets/Scripts/PlayerMovement.cs:80-85 | when the WASD gate opens, the player steps \|speed*deltaTime\| along the input laid on the ground plane, backward when speed*deltaTime is negative |
| Movement.AcquireTarget | Assets/Scripts/PlayerMovement.cs:92-108 | only the target can change; it becomes the hit point exactly when the pointer is off the UI, the button went down and the ray hit; otherwise the state is unchanged |
| Movement.MobileStep | Assets/Scripts/PlayerMovement.cs:111-128 | only position and rotation change; y is kept; position changes only if the move stick exceeds 0.01; the rotation is assigned exactly when the look stick exceeds 0.1 |
| Movement.MobileSticksIndependent | Assets/Scripts/PlayerMovement.cs:113-127 | the look stick never affects the position and the move stick never affects the rotation |
| Movement.MobileMovesAtSpeed | Assets/Scripts/PlayerMovement.cs:113-118 | when the move-stick gate opens, the player steps \|speed*deltaTime\| along the stick direction on the ground plane, backward when speed*deltaTime is negative |
| Movement.MoveToTargetStep | Assets/Scripts/PlayerMovement.cs:131-145 | only position and rotation change; y is kept; a no-op outside Click mode and within squared horizontal distance 0.1; rotation is assigned exactly in Click mode beyond that distance |
| Movement.PursuitMovesAtSpeed | Assets/Scripts/PlayerMovement.cs:136-141 | beyond the arrival distance, each Click-mode step covers \|speed*deltaTime\| horizontally toward the target, or away from it when speed*deltaTime is negative |
| Movement.Frame | Assets/Scripts/PlayerMovement.cs:40-62 | the new mode is the switched mode; y, previousPosition and emitting are kept; the target changes only by a landing click in Click mode, and in Click mode a landing click always sets it to the hit point |
| Movement.Run | Assets/Scripts/PlayerMovement.cs:40-62 | over any number of frames, y, previousPosition and emitting are kept |
| Movement.TrailStep | Assets/Scripts/PlayerMovement.cs:166-173 | only previousPosition and emitting change, and previousPosition becomes the current position |
| Movement.TrailEmitsIffMoved | Assets/Scripts/PlayerMovement.cs:168-170 | the trail emits exactly when the squared distance moved since the last sample exceeds 0.0001 |
| Movement.TrailStopsWhenStill | Assets/Scripts/PlayerMovement.cs:166-173 | two samples with no movement in between leave the trail off |
| Player.PlayerMovement.constructor | Assets/Scripts/PlayerMovement.cs:26-38 | after Awake the mode is WASD and the target and previous position are both the spawn position |
| Player.PlayerMovement.HandleModeSwitching | Assets/Scripts/PlayerMovement.cs:65-75 | only the mode changes, to SwitchMode of the old mode and the key edges |
| Player.PlayerMovement.HandleWASDMovement | Assets/Scripts/PlayerMovement.cs:78-89 | the new state is WasdStep of the old one |
| Player.PlayerMovement.HandlePointClickMovement | Assets/Scripts/PlayerMovement.cs:92-108 | the new state is AcquireTarget of the old one |
| Player.PlayerMovement.HandleMobileMovement | Assets/Scripts/PlayerMovement.cs:111-128 | the new state is MobileStep of the old one |
| Player.PlayerMovement.MoveToTarget | Assets/Scripts/PlayerMovement.cs:131-145 | the new state is MoveToTargetStep of the old one |
| Player.PlayerMovement.Update | Assets/Scripts/PlayerMovement.cs:40-62 | the new state is Frame of the old state and the frame's inputs |
| Player.PlayerMovement.UpdateTrailStatus | Assets/Scripts/PlayerMovement.cs:166-173 | the new state is TrailStep of the old one |
| MovementProperties.OnlyActiveHandlerReadsInput | Assets/Scripts/PlayerMovement.cs:46-59 | two frames that agree on the keys, deltaTime and the active mode's inputs have the same effect, whatever the other modes' inputs |
| MovementProperties.WasdFrameIsWasdStep | Assets/Scripts/PlayerMovement.cs:46-61 | a frame ending in WASD mode is exactly the WASD handler; MoveToTarget does nothing |
| MovementProperties.ClickFrameIsPursuit | Assets/Scripts/PlayerMovement.cs:52-61 | a frame ending in Click mode without a landing click is exactly MoveToTarget toward the stored target |
| MovementProperties.MobileFrameIsMobileStep | Assets/Scripts/PlayerMovement.cs:46-61 | a frame ending in Mobile mode is exactly the Mobile handler; MoveToTarget does nothing |
| MovementProperties.LandingClickRetargets | Assets/Scripts/PlayerMovement.cs:52-61 | a frame ending in Click mode with a landing click is exactly MoveToTarget toward the hit point |
| MovementProperties.RotationDoesNotSteer | Assets/Scripts/PlayerMovement.cs:40-62 | apart from the rotation itself, a frame's outcome does not depend on the starting rotation |
| MovementProperties.TrueRootsAreExact | Assets/Scripts/PlayerMovement.cs:85 | every true square root is exact on 1, 4, 9, 25, 49 and 100, so the worked examples hold for any such routine |
| MovementProperties.AtMostOneTurnPerFrame | Assets/Scripts/PlayerMovement.cs:46-61 | each frame applies at most one RotateTowards |
| MovementProperties.TargetIgnoredOutsideClick | Assets/Scripts/PlayerMovement.cs:133-134 | in a frame that ends outside Click mode, the stored target does not influence the outcome and is kept |
| MovementProperties.TargetKeptWithoutLandingClick | Assets/Scripts/PlayerMovement.cs:92-108 | over any run with no landing click, the target is never changed or cleared, whatever the mode switches |
| MovementProperties.StaysAtTarget | Assets/Scripts/PlayerMovement.cs:133-144 | once in Click mode within squared distance 0.1, the player stays put for every run without key 1, key 3 or a landing click |
| MovementProperties.NoPursuitBeforeFirstClick | Assets/Scripts/PlayerMovement.cs:32 | from any state whose target is its own position, as Awake leaves it, a run that enters Click mode with no key 1 or 3 and no landing click changes only the mode |
| MovementProperties.ArrivedFrameKeepsPose | Assets/Scripts/PlayerMovement.cs:133-144 | a frame ending in Click mode within squared distance 0.1 of the target, without a landing click, changes nothing but the mode |
| MovementProperties.WasdUnitStep | Assets/Scripts/PlayerMovement.cs:80-87 | input (1, 0), speed 5, deltaTime 0.1: the WASD handler moves 0.5 along +x and turns toward +x by at most 72 degrees |
| MovementProperties.WasdScenario | Assets/Scripts/PlayerMovement.cs:46-61 | the same WASD input as a whole frame has the same effect |
| MovementProperties.WasdWalkStep | Assets/Scripts/PlayerMovement.cs:80-87 | input (1, 0), speed 5, deltaTime 1: the WASD handler moves 5 along +x and turns toward +x |
| MovementProperties.PursuitStepAlongX | Assets/Scripts/PlayerMovement.cs:136-143 | with speed 5 and deltaTime 1, a Click-mode step along the x axis moves exactly 5 toward the target for remaining distances 2, 3, 5, 7 and 10, including those shorter than the step |
| MovementProperties.PursuitFrameAlongX | Assets/Scripts/PlayerMovement.cs:52-61 | the same step as a whole idle frame |
| MovementProperties.PursuitScenario | Assets/Scripts/PlayerMovement.cs:131-145 | target (10, 0, 0), speed 5, deltaTime 1: the player reaches (5, 0, 0), then (10, 0, 0), then stays there |
| MovementProperties.PursuitCanOvershoot | Assets/Scripts/PlayerMovement.cs:139-141 | target (7, 0, 0), speed 5, deltaTime 1: the player goes to 5, 10, then 5 again; after the third frame the state equals the one after the first except for the rotation, still outside the arrival distance |
| MovementProperties.ClickModeReturnsToSpawn | Assets/Scripts/PlayerMovement.cs:32 | after a WASD step away from the spawn point, pressing 2 without clicking walks the player back to the spawn point |

## Left out

- `SetupTrailRenderer` (lines 148-163) only configures the trail's look: lifetime, widths, material and gradient. It has no logic to verify.
- Unity input plumbing: `PlayerInput`, `Keyboard.current`, `Input.GetMouseButtonDown`, `Input.mousePosition`, `EventSystem.current`, `Camera.main`, `ScreenPointToRay`, `Physics.Raycast` and the ground mask. Their results are fields of `FrameInput`. `pointerOverUI` stands for "an EventSystem exists and the pointer is over UI". `groundHit` is the raycast's hit point, or `None`.
- Component acquisition in `Awake`. The only values kept are the initial target and previous position. The trail's initial `emitting` is a constructor parameter.
- `speed` and `rotationSpeed` (defaults 5 and 720) are inspector fields. The model takes them as constructor parameters, which the script never changes.
- `currentMode` (line 9) is a serialized inspector field too. The model starts in its declared default, WASD; a scene that overrides it in the inspector starts in that mode instead.
- Missing engine objects: the model assumes a keyboard is attached (`Keyboard.current`, line 67), both joysticks are assigned (lines 113, 121) and `Camera.main` exists (line 100). When one is missing, the script throws, and the rest of that `Update` does not run. It also assumes `Awake` completes. The `actions["Move"]` lookup (line 30) throws before line 32 sets the target, and `SetupTrailRenderer` throws at line 150 when the object has no TrailRenderer (only PlayerInput is required, line 5), before line 37 sets `previousPosition`. Either leaves that field at the zero vector rather than the spawn position. The model has none of these paths.
- Quaternion math: `LookRotation` and `RotateTowards` are symbolic. No statement is made about angles, overshoot of the facing, or roll and pitch.
- Rotation equality: the model records every assignment of `RotateTowards` as a new rotation, even when the engine would compute the same quaternion again (the player already faces the direction, or deltaTime is 0).
- Floating point: everything is exact real arithmetic. `move.normalized * speed * Time.deltaTime` is computed as `normalized * (speed * deltaTime)`, which is equal on the reals.
- Square root: Unity's square root is a parameter. The general lemmas assume `IsSqrt`. The scenario lemmas assume only the exact roots they use.
- The model does not cover the engine calling `Update` once per frame, or any other scheduling.
- The worked scenarios are stated for speed 5 and concrete positions only. The general versions of those facts are `DisplacementIsSpeedStep`, `PursuitMovesAtSpeed` and `StaysAtTarget`.
