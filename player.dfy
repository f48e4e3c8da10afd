/** The PlayerMovement component: its fields and the methods the engine calls
    on it, each proved to perform the update its Movement counterpart specifies. */
module Player {
  import opened Vectors
  import opened Rotations
  import opened Movement

  class PlayerMovement {
    var currentMode: MovementMode
    var position: Vec3          // transform.position
    var rotation: Rotation      // transform.rotation
    var targetPosition: Vec3
    var previousPosition: Vec3
    var emitting: bool          // trailRenderer.emitting

    const speed: real
    const rotationSpeed: real
    /** The engine's square root, used by Vector3.normalized and Vector3.Distance. */
    const sqrt: real -> real

    /** The component's changing fields as one value. */
    function State(): PlayerState
      reads this
    {
      PlayerState(currentMode, position, rotation, targetPosition, previousPosition, emitting)
    }

    function Config(): Settings {
      Settings(speed, rotationSpeed, sqrt)
    }

    /** The component as Awake leaves it on a transform at `position0`. */
    constructor (position0: Vec3, rotation0: Rotation, emitting0: bool,
                 speed: real, rotationSpeed: real, sqrt: real -> real)
      ensures State() == Awake(position0, rotation0, emitting0)
      ensures this.speed == speed && this.rotationSpeed == rotationSpeed && this.sqrt == sqrt
    {
      this.speed := speed;
      this.rotationSpeed := rotationSpeed;
      this.sqrt := sqrt;
      currentMode := WASD;
      position := position0;
      rotation := rotation0;
      emitting := emitting0;
      targetPosition := position0;
      previousPosition := position0;
    }

    method HandleModeSwitching(digit1: bool, digit2: bool, digit3: bool)
      modifies this`currentMode
      ensures State() == old(State()).(mode := SwitchMode(old(currentMode), digit1, digit2, digit3))
    {
      if digit1 {
        currentMode := WASD;
      }
      if digit2 {
        currentMode := Click;
      }
      if digit3 {
        currentMode := Mobile;
      }
    }

    method HandleWASDMovement(moveInput: Vec2, deltaTime: real)
      modifies this`position, this`rotation
      ensures State() == WasdStep(old(State()), moveInput, deltaTime, Config())
    {
      var move := Planar(moveInput);
      if SqrMag(move) > MoveThreshold {
        position := Add(position, Scale(Normalized(move, sqrt), speed * deltaTime));
        rotation := RotateTowards(rotation, LookRotation(move), rotationSpeed * deltaTime);
      }
    }

    method HandlePointClickMovement(pointerOverUI: bool, mouseDown: bool, groundHit: Option<Vec3>)
      modifies this`targetPosition
      ensures State() == AcquireTarget(old(State()), pointerOverUI, mouseDown, groundHit)
    {
      if pointerOverUI {
        return;
      }
      if mouseDown {
        if groundHit.Some? {
          targetPosition := groundHit.value;
        }
      }
    }

    method HandleMobileMovement(moveStick: Vec2, lookStick: Vec2, deltaTime: real)
      modifies this`position, this`rotation
      ensures State() == MobileStep(old(State()), moveStick, lookStick, deltaTime, Config())
    {
      var move := Planar(moveStick);
      if SqrMag(move) > MoveThreshold {
        position := Add(position, Scale(Normalized(move, sqrt), speed * deltaTime));
      }
      if SqrMag2(lookStick) > LookThreshold {
        var lookDirection := Planar(lookStick);
        rotation := RotateTowards(rotation, LookRotation(lookDirection), rotationSpeed * deltaTime);
      }
    }

    method MoveToTarget(deltaTime: real)
      modifies this`position, this`rotation
      ensures State() == MoveToTargetStep(old(State()), deltaTime, Config())
    {
      if currentMode != Click {
        return;
      }
      var direction := Sub(targetPosition, position);
      direction := direction.(y := 0.0);
      if SqrMag(direction) > ArrivalThreshold {
        position := Add(position, Scale(Normalized(direction, sqrt), speed * deltaTime));
        rotation := RotateTowards(rotation, LookRotation(direction), rotationSpeed * deltaTime);
      }
    }

    /** One frame: the engine calls Update once per rendered frame. */
    method Update(input: FrameInput)
      modifies this
      ensures State() == Frame(old(State()), input, Config())
    {
      HandleModeSwitching(input.digit1, input.digit2, input.digit3);
      match currentMode {
        case WASD =>
          HandleWASDMovement(input.move, input.deltaTime);
        case Click =>
          HandlePointClickMovement(input.pointerOverUI, input.mouseDown, input.groundHit);
        case Mobile =>
          HandleMobileMovement(input.moveJoystick, input.lookJoystick, input.deltaTime);
      }
      MoveToTarget(input.deltaTime);
    }

    /** Defined by the script but never called from Update. */
    method UpdateTrailStatus()
      modifies this`emitting, this`previousPosition
      ensures State() == TrailStep(old(State()), sqrt)
    {
      var isMoving := Distance(position, previousPosition, sqrt) > TrailThreshold;
      emitting := isMoving;
      previousPosition := position;
    }
  }
}
