/** Properties of the controller over one or several frames, and worked
    scenarios with concrete numbers. */
module MovementProperties {
  import opened Vectors
  import opened Rotations
  import opened Movement

  /** A frame in which no key, button or stick is touched. */
  function IdleInput(deltaTime: real): FrameInput {
    FrameInput(false, false, false, Vec2(0.0, 0.0), Vec2(0.0, 0.0), Vec2(0.0, 0.0),
               false, false, None, deltaTime)
  }

  /** A frame that neither presses key 1 or 3 nor lands a click: in Click
      mode it can only pursue the stored target. */
  predicate Undisturbed(input: FrameInput) {
    !input.digit1 && !input.digit3 && !ClickLands(input.pointerOverUI, input.mouseDown, input.groundHit)
  }

  /** Dispatch: a frame reads only the inputs of the mode it ends up in. Two
      frames that agree on the digit keys, on deltaTime and on the active
      mode's inputs have the same effect, whatever the other modes' inputs are. */
  lemma OnlyActiveHandlerReadsInput(s: PlayerState, a: FrameInput, b: FrameInput, cfg: Settings)
    requires a.digit1 == b.digit1 && a.digit2 == b.digit2 && a.digit3 == b.digit3
    requires a.deltaTime == b.deltaTime
    requires SwitchMode(s.mode, a.digit1, a.digit2, a.digit3) == WASD ==> a.move == b.move
    requires SwitchMode(s.mode, a.digit1, a.digit2, a.digit3) == Click ==>
               a.pointerOverUI == b.pointerOverUI && a.mouseDown == b.mouseDown && a.groundHit == b.groundHit
    requires SwitchMode(s.mode, a.digit1, a.digit2, a.digit3) == Mobile ==>
               a.moveJoystick == b.moveJoystick && a.lookJoystick == b.lookJoystick
    ensures Frame(s, a, cfg) == Frame(s, b, cfg)
  {
  }

  /** At most one RotateTowards per frame: the WASD and Mobile handlers turn
      the player only in frames where MoveToTarget is gated off, and the
      Click handler never turns it. */
  lemma AtMostOneTurnPerFrame(s: PlayerState, input: FrameInput, cfg: Settings)
    ensures Turns(Frame(s, input, cfg).rotation) <= Turns(s.rotation) + 1
  {
  }

  /** MoveToTarget is gated on Click mode: in a frame that ends in another
      mode the stored target has no influence on the player and is kept. */
  lemma TargetIgnoredOutsideClick(s: PlayerState, t: Vec3, input: FrameInput, cfg: Settings)
    requires SwitchMode(s.mode, input.digit1, input.digit2, input.digit3) != Click
    ensures Frame(s.(target := t), input, cfg) == Frame(s, input, cfg).(target := t)
  {
  }

  /** Nothing but a landing click in Click mode writes the target: leaving
      Click mode does not clear it, so returning to Click mode resumes the
      pursuit of the old target. */
  lemma {:induction false} TargetKeptWithoutLandingClick(s: PlayerState, inputs: seq<FrameInput>, cfg: Settings)
    requires forall i :: 0 <= i < |inputs| ==>
               !ClickLands(inputs[i].pointerOverUI, inputs[i].mouseDown, inputs[i].groundHit)
    ensures Run(s, inputs, cfg).target == s.target
    decreases |inputs|
  {
    if inputs != [] {
      TargetKeptWithoutLandingClick(Frame(s, inputs[0], cfg), inputs[1..], cfg);
    }
  }

  /** Arrival is stable: once in Click mode within the 0.1 squared horizontal
      distance of the target, the player stays put, position and rotation,
      for as many frames as no key 1 or 3 and no landing click occurs. */
  lemma {:induction false} StaysAtTarget(s: PlayerState, inputs: seq<FrameInput>, cfg: Settings)
    requires s.mode == Click
    requires SqrMag(PursuitDirection(s)) <= ArrivalThreshold
    requires forall i :: 0 <= i < |inputs| ==> Undisturbed(inputs[i])
    ensures Run(s, inputs, cfg) == s
    decreases |inputs|
  {
    if inputs != [] {
      assert Undisturbed(inputs[0]);
      assert s.(mode := Click) == s;
      StaysAtTarget(s, inputs[1..], cfg);
      ArrivedFrameKeepsPose(s, inputs[0], cfg);
    }
  }

  /** The target starts at the spawn point (Awake sets it to the position),
      so entering Click mode before any click lands moves nothing: from every
      state whose target is its position, a run that enters Click mode and
      then has no key 1 or 3 and no landing click changes only the mode. */
  lemma NoPursuitBeforeFirstClick(s: PlayerState, inputs: seq<FrameInput>, cfg: Settings)
    requires s.target == s.position
    requires |inputs| > 0 && SwitchMode(s.mode, inputs[0].digit1, inputs[0].digit2, inputs[0].digit3) == Click
    requires forall i :: 0 <= i < |inputs| ==> Undisturbed(inputs[i])
    ensures Run(s, inputs, cfg) == s.(mode := Click)
  {
    var clicked := s.(mode := Click);
    assert PursuitDirection(clicked) == Zero;
    assert SqrMag(Zero) == 0.0;
    assert forall i :: 0 <= i < |inputs[1..]| ==> Undisturbed(inputs[1..][i]);
    StaysAtTarget(clicked, inputs[1..], cfg);
    ArrivedFrameKeepsPose(s, inputs[0], cfg);
  }

  /** A frame that ends in Click mode without a landing click only runs
      MoveToTarget: the stored target is pursued as it stands. */
  lemma ClickFrameIsPursuit(s: PlayerState, input: FrameInput, cfg: Settings)
    requires SwitchMode(s.mode, input.digit1, input.digit2, input.digit3) == Click
    requires !ClickLands(input.pointerOverUI, input.mouseDown, input.groundHit)
    ensures Frame(s, input, cfg) == MoveToTargetStep(s.(mode := Click), input.deltaTime, cfg)
  {
  }

  /** A frame that ends in Click mode within the arrival distance, without a
      landing click, changes nothing but the mode. */
  lemma ArrivedFrameKeepsPose(s: PlayerState, input: FrameInput, cfg: Settings)
    requires SwitchMode(s.mode, input.digit1, input.digit2, input.digit3) == Click
    requires !ClickLands(input.pointerOverUI, input.mouseDown, input.groundHit)
    requires SqrMag(PursuitDirection(s)) <= ArrivalThreshold
    ensures Frame(s, input, cfg) == s.(mode := Click)
  {
    assert PursuitDirection(s.(mode := Click)) == PursuitDirection(s);
    ClickFrameIsPursuit(s, input, cfg);
  }

  /** A frame that ends in WASD mode only runs HandleWASDMovement: MoveToTarget
      is gated off. */
  lemma WasdFrameIsWasdStep(s: PlayerState, input: FrameInput, cfg: Settings)
    requires SwitchMode(s.mode, input.digit1, input.digit2, input.digit3) == WASD
    ensures Frame(s, input, cfg) == WasdStep(s.(mode := WASD), input.move, input.deltaTime, cfg)
  {
  }

  /** A frame that ends in Mobile mode only runs HandleMobileMovement:
      MoveToTarget is gated off. */
  lemma MobileFrameIsMobileStep(s: PlayerState, input: FrameInput, cfg: Settings)
    requires SwitchMode(s.mode, input.digit1, input.digit2, input.digit3) == Mobile
    ensures Frame(s, input, cfg)
            == MobileStep(s.(mode := Mobile), input.moveJoystick, input.lookJoystick, input.deltaTime, cfg)
  {
  }

  /** A landing click in a frame that ends in Click mode retargets first, and
      MoveToTarget then pursues the new target in the same frame. */
  lemma LandingClickRetargets(s: PlayerState, input: FrameInput, cfg: Settings)
    requires SwitchMode(s.mode, input.digit1, input.digit2, input.digit3) == Click
    requires ClickLands(input.pointerOverUI, input.mouseDown, input.groundHit)
    ensures Frame(s, input, cfg)
            == MoveToTargetStep(s.(mode := Click, target := input.groundHit.value), input.deltaTime, cfg)
  {
  }

  /** The rotation never steers: apart from the rotation itself, a frame's
      outcome is the same whatever rotation the player starts with. */
  lemma RotationDoesNotSteer(s: PlayerState, q: Rotation, input: FrameInput, cfg: Settings)
    ensures Frame(s.(rotation := q), input, cfg).(rotation := q) == Frame(s, input, cfg).(rotation := q)
  {
  }

  /** Every true square root is exact on the perfect squares the scenarios use,
      so their requirements on `cfg.sqrt` hold for any routine meeting IsSqrt. */
  lemma TrueRootsAreExact(sqrt: real -> real)
    requires IsSqrt(sqrt)
    ensures sqrt(1.0) == 1.0 && sqrt(4.0) == 2.0 && sqrt(9.0) == 3.0
    ensures sqrt(25.0) == 5.0 && sqrt(49.0) == 7.0 && sqrt(100.0) == 10.0
  {
    SqrtOfSquare(sqrt, 1.0);
    SqrtOfSquare(sqrt, 2.0);
    SqrtOfSquare(sqrt, 3.0);
    SqrtOfSquare(sqrt, 5.0);
    SqrtOfSquare(sqrt, 7.0);
    SqrtOfSquare(sqrt, 10.0);
  }

  /** A WASD frame with input (1, 0), speed 5 and deltaTime 0.1 moves the
      player 0.5 along +x and turns it toward +x by at most 72 degrees. Any
      square root that is exact on 1 will do (TrueRootsAreExact shows every
      IsSqrt routine is). */
  lemma WasdScenario(s: PlayerState, cfg: Settings)
    requires cfg.sqrt(1.0) == 1.0 && cfg.speed == 5.0 && cfg.rotationSpeed == 720.0
    requires s.mode == WASD
    ensures var r := Frame(s, IdleInput(0.1).(move := Vec2(1.0, 0.0)), cfg);
            r.position == Add(s.position, Vec3(0.5, 0.0, 0.0))
            && r.rotation == RotateTowards(s.rotation, LookRotation(Vec3(1.0, 0.0, 0.0)), 72.0)
  {
    var input := IdleInput(0.1).(move := Vec2(1.0, 0.0));
    WasdUnitStep(s, cfg);
    assert s.(mode := WASD) == s;
    WasdFrameIsWasdStep(s, input, cfg);
  }

  lemma WasdUnitStep(s: PlayerState, cfg: Settings)
    requires cfg.sqrt(1.0) == 1.0 && cfg.speed == 5.0 && cfg.rotationSpeed == 720.0
    ensures var r := WasdStep(s, Vec2(1.0, 0.0), 0.1, cfg);
            r.position == Add(s.position, Vec3(0.5, 0.0, 0.0))
            && r.rotation == RotateTowards(s.rotation, LookRotation(Vec3(1.0, 0.0, 0.0)), 72.0)
  {
    assert cfg.speed * 0.1 == 0.5 && cfg.rotationSpeed * 0.1 == 72.0;
    assert Normalized(Vec3(1.0, 0.0, 0.0), cfg.sqrt) == Vec3(1.0, 0.0, 0.0);
  }

  /** One Click-mode step of length 5 along the x axis, from `from` toward
      `target`, where `dist` is the distance between them: the step is taken
      in full whatever the distance left. */
  lemma PursuitStepAlongX(s: PlayerState, cfg: Settings, from: real, target: real, dist: real)
    requires s.mode == Click && s.position == Vec3(from, 0.0, 0.0) && s.target == Vec3(target, 0.0, 0.0)
    requires cfg.speed == 5.0
    requires dist == 2.0 || dist == 3.0 || dist == 5.0 || dist == 7.0 || dist == 10.0
    requires target - from == dist || from - target == dist
    requires cfg.sqrt(dist * dist) == dist
    ensures MoveToTargetStep(s, 1.0, cfg)
            == s.(position := Vec3(if from < target then from + 5.0 else from - 5.0, 0.0, 0.0),
                  rotation := Turn(s.rotation, Vec3(target - from, 0.0, 0.0), 1.0, cfg))
  {
    assert cfg.speed * 1.0 == 5.0;
    var dir := PursuitDirection(s);
    assert dir == Vec3(target - from, 0.0, 0.0);
    assert SqrMag(dir) == dist * dist;
    assert Normalized(dir, cfg.sqrt) == Vec3(if from < target then 1.0 else -1.0, 0.0, 0.0);
  }

  /** PursuitStepAlongX as a whole idle frame: the player steps and turns
      toward the target, and nothing else changes. */
  lemma PursuitFrameAlongX(s: PlayerState, cfg: Settings, from: real, target: real, dist: real)
    requires s.mode == Click && s.position == Vec3(from, 0.0, 0.0) && s.target == Vec3(target, 0.0, 0.0)
    requires cfg.speed == 5.0
    requires dist == 2.0 || dist == 3.0 || dist == 5.0 || dist == 7.0 || dist == 10.0
    requires target - from == dist || from - target == dist
    requires cfg.sqrt(dist * dist) == dist
    ensures Frame(s, IdleInput(1.0), cfg)
            == s.(position := Vec3(if from < target then from + 5.0 else from - 5.0, 0.0, 0.0),
                  rotation := Turn(s.rotation, Vec3(target - from, 0.0, 0.0), 1.0, cfg))
  {
    PursuitStepAlongX(s, cfg, from, target, dist);
    assert s.(mode := Click) == s;
    ClickFrameIsPursuit(s, IdleInput(1.0), cfg);
  }

  /** Click mode from the origin toward (10, 0, 0) with speed 5 and
      deltaTime 1: the player reaches (5, 0, 0), then (10, 0, 0), and then no
      frame without key 1, key 3 or a landing click moves it. Any square root
      exact on 100 and 25 will do. */
  lemma PursuitScenario(s0: PlayerState, cfg: Settings, rest: seq<FrameInput>)
    requires s0.mode == Click && s0.position == Zero && s0.target == Vec3(10.0, 0.0, 0.0)
    requires cfg.speed == 5.0 && cfg.sqrt(100.0) == 10.0 && cfg.sqrt(25.0) == 5.0
    requires forall i :: 0 <= i < |rest| ==> Undisturbed(rest[i])
    ensures var s1 := Frame(s0, IdleInput(1.0), cfg);
            var s2 := Frame(s1, IdleInput(1.0), cfg);
            s1.position == Vec3(5.0, 0.0, 0.0)
            && s2.position == Vec3(10.0, 0.0, 0.0)
            && Run(s2, rest, cfg) == s2
  {
    var s1 := s0.(position := Vec3(5.0, 0.0, 0.0), rotation := Turn(s0.rotation, Vec3(10.0, 0.0, 0.0), 1.0, cfg));
    var s2 := s1.(position := Vec3(10.0, 0.0, 0.0), rotation := Turn(s1.rotation, Vec3(5.0, 0.0, 0.0), 1.0, cfg));
    assert s1.mode == Click && s1.position == Vec3(5.0, 0.0, 0.0) && s1.target == Vec3(10.0, 0.0, 0.0);
    assert s2.mode == Click && SqrMag(PursuitDirection(s2)) <= ArrivalThreshold;
    StaysAtTarget(s2, rest, cfg);
    PursuitFrameAlongX(s0, cfg, 0.0, 10.0, 10.0);
    PursuitFrameAlongX(s1, cfg, 5.0, 10.0, 5.0);
  }

  /** MoveToTarget does not shorten the last step: from the origin toward
      (7, 0, 0) with speed 5 and deltaTime 1 the player goes to (5, 0, 0),
      overshoots to (10, 0, 0) and comes back to (5, 0, 0): after the third
      frame the state is the one after the first in everything but the
      rotation, which RotationDoesNotSteer shows has no say in the next frames,
      so the swing repeats and the player never arrives. Any square root exact
      on 49, 4 and 9 will do. */
  lemma PursuitCanOvershoot(s0: PlayerState, cfg: Settings)
    requires s0.mode == Click && s0.position == Zero && s0.target == Vec3(7.0, 0.0, 0.0)
    requires cfg.speed == 5.0 && cfg.sqrt(49.0) == 7.0 && cfg.sqrt(4.0) == 2.0 && cfg.sqrt(9.0) == 3.0
    ensures var s1 := Frame(s0, IdleInput(1.0), cfg);
            var s2 := Frame(s1, IdleInput(1.0), cfg);
            var s3 := Frame(s2, IdleInput(1.0), cfg);
            s1.position == Vec3(5.0, 0.0, 0.0)
            && s2.position == Vec3(10.0, 0.0, 0.0)
            && s3 == s1.(rotation := s3.rotation)
            && SqrMag(PursuitDirection(s3)) > ArrivalThreshold
  {
    var s1 := s0.(position := Vec3(5.0, 0.0, 0.0), rotation := Turn(s0.rotation, Vec3(7.0, 0.0, 0.0), 1.0, cfg));
    var s2 := s1.(position := Vec3(10.0, 0.0, 0.0), rotation := Turn(s1.rotation, Vec3(2.0, 0.0, 0.0), 1.0, cfg));
    var s3 := s2.(position := Vec3(5.0, 0.0, 0.0), rotation := Turn(s2.rotation, Vec3(-3.0, 0.0, 0.0), 1.0, cfg));
    assert s1.mode == Click && s1.position == Vec3(5.0, 0.0, 0.0) && s1.target == Vec3(7.0, 0.0, 0.0);
    assert s2.mode == Click && s2.position == Vec3(10.0, 0.0, 0.0) && s2.target == Vec3(7.0, 0.0, 0.0);
    assert SqrMag(PursuitDirection(s3)) > ArrivalThreshold;
    PursuitFrameAlongX(s0, cfg, 0.0, 7.0, 7.0);
    PursuitFrameAlongX(s1, cfg, 5.0, 7.0, 2.0);
    PursuitFrameAlongX(s2, cfg, 10.0, 7.0, 3.0);
  }

  /** The spawn point is a target too: walk away in WASD mode, press 2
      without clicking, and the player heads back to where it spawned. Any
      square root exact on 1 and 25 will do. */
  lemma ClickModeReturnsToSpawn(rotation: Rotation, emitting: bool, cfg: Settings)
    requires cfg.speed == 5.0 && cfg.sqrt(1.0) == 1.0 && cfg.sqrt(25.0) == 5.0
    ensures var s0 := Awake(Zero, rotation, emitting);
            var s1 := Frame(s0, IdleInput(1.0).(move := Vec2(1.0, 0.0)), cfg);
            var s2 := Frame(s1, IdleInput(1.0).(digit2 := true), cfg);
            s1.position == Vec3(5.0, 0.0, 0.0)
            && s2.mode == Click
            && s2.position == Zero
  {
    var s0 := Awake(Zero, rotation, emitting);
    var walk := IdleInput(1.0).(move := Vec2(1.0, 0.0));
    var s1 := s0.(position := Vec3(5.0, 0.0, 0.0), rotation := Turn(rotation, Vec3(1.0, 0.0, 0.0), 1.0, cfg));
    var press := IdleInput(1.0).(digit2 := true);
    assert s1.(mode := Click).position == Vec3(5.0, 0.0, 0.0) && s1.target == Zero;
    assert Add(s0.position, Vec3(5.0, 0.0, 0.0)) == s1.position;
    PursuitStepAlongX(s1.(mode := Click), cfg, 5.0, 0.0, 5.0);
    WasdWalkStep(s0, cfg);
    WasdFrameIsWasdStep(s0, walk, cfg);
    ClickFrameIsPursuit(s1, press, cfg);
  }

  /** One WASD step of a full second with input (1, 0) at speed 5. */
  lemma WasdWalkStep(s: PlayerState, cfg: Settings)
    requires cfg.sqrt(1.0) == 1.0 && cfg.speed == 5.0
    ensures WasdStep(s, Vec2(1.0, 0.0), 1.0, cfg)
            == s.(position := Add(s.position, Vec3(5.0, 0.0, 0.0)),
                  rotation := Turn(s.rotation, Vec3(1.0, 0.0, 0.0), 1.0, cfg))
  {
    assert cfg.speed * 1.0 == 5.0;
    assert Normalized(Vec3(1.0, 0.0, 0.0), cfg.sqrt) == Vec3(1.0, 0.0, 0.0);
  }
}
