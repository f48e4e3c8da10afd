/** The per-frame behaviour of the PlayerMovement script as functions on a
    value snapshot of the controller's state.

    Each function here specifies one method of the script; the class in
    module Player performs the same updates on its fields and proves that it
    does so. The engine's inputs for a frame (digit-key edges, the "Move"
    action, the two joysticks, the mouse-button edge, the pointer-over-UI flag,
    the ground raycast and Time.deltaTime) arrive as a FrameInput. */
module Movement {
  import opened Vectors
  import opened Rotations

  datatype MovementMode = WASD | Click | Mobile

  datatype Option<T> = None | Some(value: T)

  /** Squared-magnitude gate of the WASD and joystick movement. */
  const MoveThreshold: real := 0.01
  /** Squared-magnitude gate of the look joystick. */
  const LookThreshold: real := 0.1
  /** Squared horizontal distance at which the click target counts as reached. */
  const ArrivalThreshold: real := 0.1
  /** Distance the player must cover in a frame for the trail to emit. */
  const TrailThreshold: real := 0.01

  /** The script's inspector settings, and the engine's square root. */
  datatype Settings = Settings(speed: real, rotationSpeed: real, sqrt: real -> real)

  /** Everything the script reads from the engine during one Update. */
  datatype FrameInput = FrameInput(
    digit1: bool, digit2: bool, digit3: bool,   // wasPressedThisFrame of keys 1, 2, 3
    move: Vec2,                                 // the "Move" input action
    moveJoystick: Vec2, lookJoystick: Vec2,     // VariableJoystick.Direction
    mouseDown: bool,                            // Input.GetMouseButtonDown(0)
    pointerOverUI: bool,                        // an EventSystem exists and the pointer is over UI
    groundHit: Option<Vec3>,                    // Physics.Raycast on the ground mask at the mouse
    deltaTime: real)                            // Time.deltaTime

  /** The fields of the script that change: the mode, the transform's pose,
      the click target, and the trail detector's state. */
  datatype PlayerState = PlayerState(
    mode: MovementMode,
    position: Vec3,
    rotation: Rotation,
    target: Vec3,
    previous: Vec3,
    emitting: bool)

  /** The state after Awake: the default mode, and both the click target and
      the trail's previous position at the spawn point. */
  function Awake(position: Vec3, rotation: Rotation, emitting: bool): PlayerState {
    PlayerState(WASD, position, rotation, position, position, emitting)
  }

  /** HandleModeSwitching: keys 1, 2 and 3 are tested in that order and each
      overwrites the mode, so the highest pressed key wins. */
  function SwitchMode(mode: MovementMode, digit1: bool, digit2: bool, digit3: bool): (m: MovementMode)
    ensures digit3 ==> m == Mobile
    ensures !digit3 && digit2 ==> m == Click
    ensures !digit3 && !digit2 && digit1 ==> m == WASD
    ensures !digit1 && !digit2 && !digit3 ==> m == mode
  {
    var afterKey1 := if digit1 then WASD else mode;
    var afterKey2 := if digit2 then Click else afterKey1;
    if digit3 then Mobile else afterKey2
  }

  /** `dir.normalized * speed * Time.deltaTime`, the displacement every
      movement handler adds to the position. */
  function Displacement(dir: Vec3, deltaTime: real, cfg: Settings): (d: Vec3)
    ensures dir.y == 0.0 ==> d.y == 0.0
  {
    Scale(Normalized(dir, cfg.sqrt), cfg.speed * deltaTime)
  }

  /** The rotation every handler assigns when it turns the player toward `dir`. */
  function Turn(rotation: Rotation, dir: Vec3, deltaTime: real, cfg: Settings): (r: Rotation)
    ensures r != rotation
  {
    TurnToward(rotation, dir, cfg.rotationSpeed * deltaTime)
  }

  /** Moving from p to q is a step of length |len| along the horizontal
      direction `dir`: no vertical change, parallel to `dir`, forward when len
      is positive and backward when it is negative (a negative speed). */
  ghost predicate StepsAlong(p: Vec3, q: Vec3, dir: Vec3, len: real) {
    var d := Sub(q, p);
    && d.y == 0.0
    && Cross(d, dir) == Zero
    && SqrMag(d) == len * len
    && (len > 0.0 ==> Dot(d, dir) > 0.0)
    && (len < 0.0 ==> Dot(d, dir) < 0.0)
  }

  /** Once a gate has let a horizontal direction through, the displacement is
      a step of speed * deltaTime along it. */
  lemma DisplacementIsSpeedStep(p: Vec3, dir: Vec3, deltaTime: real, cfg: Settings)
    requires IsSqrt(cfg.sqrt)
    requires dir.y == 0.0 && SqrMag(dir) > MoveThreshold
    ensures StepsAlong(p, Add(p, Displacement(dir, deltaTime, cfg)), dir, cfg.speed * deltaTime)
  {
    var d := Displacement(dir, deltaTime, cfg);
    assert Sub(Add(p, d), p) == d;
    ScaledNormalGeometry(dir, cfg.speed * deltaTime, cfg.sqrt);
  }

  /** HandleWASDMovement: a "Move" input whose squared magnitude is above 0.01
      moves and turns the player; anything smaller leaves the pose alone. */
  function WasdStep(s: PlayerState, moveInput: Vec2, deltaTime: real, cfg: Settings): (r: PlayerState)
    ensures r == s.(position := r.position, rotation := r.rotation)
    ensures r.position.y == s.position.y
    ensures SqrMag2(moveInput) <= MoveThreshold ==> r == s
    ensures r.rotation != s.rotation <==> SqrMag2(moveInput) > MoveThreshold
  {
    var move := Planar(moveInput);
    if SqrMag(move) > MoveThreshold then
      s.(position := Add(s.position, Displacement(move, deltaTime, cfg)),
         rotation := Turn(s.rotation, move, deltaTime, cfg))
    else
      s
  }

  /** When the WASD gate opens, the player steps speed * deltaTime along the
      input direction laid on the ground plane. */
  lemma WasdMovesAtSpeed(s: PlayerState, moveInput: Vec2, deltaTime: real, cfg: Settings)
    requires IsSqrt(cfg.sqrt)
    requires SqrMag2(moveInput) > MoveThreshold
    ensures StepsAlong(s.position, WasdStep(s, moveInput, deltaTime, cfg).position,
                       Planar(moveInput), cfg.speed * deltaTime)
  {
    DisplacementIsSpeedStep(s.position, Planar(moveInput), deltaTime, cfg);
  }

  /** A click lands when the pointer is not over UI, the left button went down
      this frame, and the ray hit the ground. */
  predicate ClickLands(pointerOverUI: bool, mouseDown: bool, groundHit: Option<Vec3>) {
    !pointerOverUI && mouseDown && groundHit.Some?
  }

  /** HandlePointClickMovement: the UI test short-circuits; otherwise a press
      whose ray hits the ground replaces the target with the hit point. */
  function AcquireTarget(s: PlayerState, pointerOverUI: bool, mouseDown: bool, groundHit: Option<Vec3>): (r: PlayerState)
    ensures r == s.(target := r.target)
    ensures ClickLands(pointerOverUI, mouseDown, groundHit) ==> r.target == groundHit.value
    ensures !ClickLands(pointerOverUI, mouseDown, groundHit) ==> r == s
  {
    if pointerOverUI then
      s
    else if mouseDown then
      match groundHit
      case Some(point) => s.(target := point)
      case None => s
    else
      s
  }

  /** HandleMobileMovement: the move stick (gate 0.01) moves without turning;
      the look stick (gate 0.1) turns without moving. */
  function MobileStep(s: PlayerState, moveStick: Vec2, lookStick: Vec2, deltaTime: real, cfg: Settings): (r: PlayerState)
    ensures r == s.(position := r.position, rotation := r.rotation)
    ensures r.position.y == s.position.y
    ensures r.position != s.position ==> SqrMag2(moveStick) > MoveThreshold
    ensures r.rotation != s.rotation <==> SqrMag2(lookStick) > LookThreshold
  {
    var move := Planar(moveStick);
    var moved :=
      if SqrMag(move) > MoveThreshold then Add(s.position, Displacement(move, deltaTime, cfg))
      else s.position;
    var turned :=
      if SqrMag2(lookStick) > LookThreshold then Turn(s.rotation, Planar(lookStick), deltaTime, cfg)
      else s.rotation;
    s.(position := moved, rotation := turned)
  }

  /** The two joysticks are decoupled: the look stick never affects the
      position and the move stick never affects the rotation. */
  lemma MobileSticksIndependent(s: PlayerState, move1: Vec2, move2: Vec2, look1: Vec2, look2: Vec2,
                                deltaTime: real, cfg: Settings)
    ensures MobileStep(s, move1, look1, deltaTime, cfg).position == MobileStep(s, move1, look2, deltaTime, cfg).position
    ensures MobileStep(s, move1, look1, deltaTime, cfg).rotation == MobileStep(s, move2, look1, deltaTime, cfg).rotation
  {
  }

  /** When the move stick's gate opens, the player steps speed * deltaTime
      along the stick direction laid on the ground plane. */
  lemma MobileMovesAtSpeed(s: PlayerState, moveStick: Vec2, lookStick: Vec2, deltaTime: real, cfg: Settings)
    requires IsSqrt(cfg.sqrt)
    requires SqrMag2(moveStick) > MoveThreshold
    ensures StepsAlong(s.position, MobileStep(s, moveStick, lookStick, deltaTime, cfg).position,
                       Planar(moveStick), cfg.speed * deltaTime)
  {
    DisplacementIsSpeedStep(s.position, Planar(moveStick), deltaTime, cfg);
  }

  /** The horizontal offset from the player to the click target
      (`targetPosition - transform.position` with `direction.y = 0`). */
  function PursuitDirection(s: PlayerState): Vec3 {
    Sub(s.target, s.position).(y := 0.0)
  }

  /** MoveToTarget: outside Click mode nothing happens; in Click mode the
      player steps toward the target until the squared horizontal distance is
      at most 0.1. */
  function MoveToTargetStep(s: PlayerState, deltaTime: real, cfg: Settings): (r: PlayerState)
    ensures r == s.(position := r.position, rotation := r.rotation)
    ensures r.position.y == s.position.y
    ensures s.mode != Click ==> r == s
    ensures SqrMag(PursuitDirection(s)) <= ArrivalThreshold ==> r == s
    ensures r.rotation != s.rotation <==> s.mode == Click && SqrMag(PursuitDirection(s)) > ArrivalThreshold
  {
    if s.mode != Click then
      s
    else
      var direction := PursuitDirection(s);
      if SqrMag(direction) > ArrivalThreshold then
        s.(position := Add(s.position, Displacement(direction, deltaTime, cfg)),
           rotation := Turn(s.rotation, direction, deltaTime, cfg))
      else
        s
  }

  /** While the target is out of reach, each Click-mode frame steps the
      player speed * deltaTime horizontally toward it. */
  lemma PursuitMovesAtSpeed(s: PlayerState, deltaTime: real, cfg: Settings)
    requires IsSqrt(cfg.sqrt)
    requires s.mode == Click && SqrMag(PursuitDirection(s)) > ArrivalThreshold
    ensures StepsAlong(s.position, MoveToTargetStep(s, deltaTime, cfg).position,
                       PursuitDirection(s), cfg.speed * deltaTime)
  {
    DisplacementIsSpeedStep(s.position, PursuitDirection(s), deltaTime, cfg);
  }

  /** Update: switch the mode, run exactly the active mode's handler, then
      MoveToTarget. The trail detector is not part of a frame. */
  function Frame(s: PlayerState, input: FrameInput, cfg: Settings): (r: PlayerState)
    ensures r.mode == SwitchMode(s.mode, input.digit1, input.digit2, input.digit3)
    ensures r.position.y == s.position.y
    ensures r.previous == s.previous && r.emitting == s.emitting
    ensures r.target != s.target ==>
              r.mode == Click && ClickLands(input.pointerOverUI, input.mouseDown, input.groundHit)
              && r.target == input.groundHit.value
    ensures r.mode == Click && ClickLands(input.pointerOverUI, input.mouseDown, input.groundHit) ==>
              r.target == input.groundHit.value
  {
    var switched := s.(mode := SwitchMode(s.mode, input.digit1, input.digit2, input.digit3));
    var handled :=
      match switched.mode
      case WASD => WasdStep(switched, input.move, input.deltaTime, cfg)
      case Click => AcquireTarget(switched, input.pointerOverUI, input.mouseDown, input.groundHit)
      case Mobile => MobileStep(switched, input.moveJoystick, input.lookJoystick, input.deltaTime, cfg);
    MoveToTargetStep(handled, input.deltaTime, cfg)
  }

  /** Consecutive Update calls, one per input. */
  function Run(s: PlayerState, inputs: seq<FrameInput>, cfg: Settings): (r: PlayerState)
    ensures r.position.y == s.position.y
    ensures r.previous == s.previous && r.emitting == s.emitting
    decreases |inputs|
  {
    if inputs == [] then s else Run(Frame(s, inputs[0], cfg), inputs[1..], cfg)
  }

  /** UpdateTrailStatus: the trail emits when the player covered more than
      0.01 since the previous sample, which then becomes the current position. */
  function TrailStep(s: PlayerState, sqrt: real -> real): (r: PlayerState)
    ensures r == s.(previous := r.previous, emitting := r.emitting)
    ensures r.previous == s.position
  {
    s.(emitting := Distance(s.position, s.previous, sqrt) > TrailThreshold, previous := s.position)
  }

  /** The trail emits exactly when the squared distance moved exceeds 0.0001. */
  lemma TrailEmitsIffMoved(s: PlayerState, sqrt: real -> real)
    requires IsSqrt(sqrt)
    ensures TrailStep(s, sqrt).emitting <==> SqrMag(Sub(s.position, s.previous)) > 0.0001
  {
    SqrtAbove(sqrt, SqrMag(Sub(s.position, s.previous)), TrailThreshold);
  }

  /** Sampling twice without moving in between turns the trail off. */
  lemma TrailStopsWhenStill(s: PlayerState, sqrt: real -> real)
    requires IsSqrt(sqrt)
    ensures !TrailStep(TrailStep(s, sqrt), sqrt).emitting
  {
    var t := TrailStep(s, sqrt);
    assert Sub(t.position, t.previous) == Zero;
    TrailEmitsIffMoved(t, sqrt);
  }
}
