/** The legacy PlayerMovementController, the earlier version of the
    controller: the same five-state machine, but with empty entry and exit
    actions, no jump subscription, and per-frame work only in Locomotion,
    where it classifies the input, eases the speed and velocity, classifies
    the gait and decides whether the character is stopped or turning in
    place. The frame inputs, the settings and the speed and velocity rules
    are the current controller's. */
module LegacyPlayerMovement {
  import opened UnityMath
  import opened LocomotionRules
  import opened Input
  import PM = PlayerMovement

  /** The values the legacy scene gives the settings (a stronger jump than
      the current controller's). */
  const LegacyDefaults := PM.Settings(true, 1.4, 2.5, 7.0, 10.0, 0.15, 10.0, 2.0)

  /** Every legacy controller field the modelled logic writes, with the
      input handler's movement-input duration. */
  datatype Vars = Vars(currentState: AnimationState, inputDuration: real, movementInput: InputFlags,
                       stance: PM.Stance, motion: PM.Motion, isStopped: bool, isTurningInPlace: bool)

  /** `SwitchState`: the exit actions and the entry actions of Locomotion,
      Jump, Fall and Crouch are empty, and Base's only samples the
      transform, so a switch records the target and nothing else. */
  function Switched(v: Vars, target: AnimationState): Vars
  {
    v.(currentState := target)
  }

  /** `Start`: strafe as the setting says, then enter Locomotion. */
  function Started(v: Vars, c: PM.Settings): Vars
  {
    Switched(v.(stance := v.stance.(isStrafing := c.alwaysStrafe)), Locomotion)
  }

  /** `CalculateInput`. */
  function InputStep(v: Vars, f: PM.Frame, c: PM.Settings): Vars
    requires f.Plausible()
  {
    v.(movementInput := ClassifyInput(f.movementDetected, v.inputDuration, c.buttonHoldThreshold, v.movementInput),
       inputDuration := NextInputDuration(f.movementDetected, v.inputDuration, f.deltaTime))
  }

  /** `CalculateMoveDirection`: the input, then the current controller's
      speed, velocity and gait rules. */
  function MoveDirection(v: Vars, f: PM.Frame, c: PM.Settings): Vars
    requires f.Plausible()
  {
    var w := InputStep(v, f, c);
    w.(motion := PM.MoveStep(w.motion, w.stance, f, c))
  }

  /** `ApplyGravity` (defined, though no state of the legacy controller
      calls it). */
  function Gravity(v: Vars, f: PM.Frame, c: PM.Settings): Vars
  {
    var vel := v.motion.velocity;
    v.(motion := v.motion.(velocity := vel.(y := GravityStep(vel.y, f.gravityY, c.gravityMultiplier, f.deltaTime))))
  }

  /** `UpdateLocomotionState`: ground check, move direction, stop check,
      the turning-in-place verdict of `FaceMoveDirection` (`CheckIfStarting`
      is empty). */
  function LocomotionFrame(v: Vars, f: PM.Frame, c: PM.Settings): Vars
    requires f.Plausible()
  {
    var moved := MoveDirection(v.(stance := v.stance.(isGrounded := f.sphereGrounded)), f, c);
    moved.(isStopped := IsStopped(f.moveMagnitude, moved.motion.speed2D),
           isTurningInPlace := moved.stance.isStrafing && f.moveMagnitude <= 0.01 && f.cameraOffsetBeyondTurnLimit)
  }

  /** `Update`: only Locomotion has work. */
  function FrameStep(v: Vars, f: PM.Frame, c: PM.Settings): Vars
    requires f.Plausible()
  {
    if v.currentState == Locomotion then LocomotionFrame(v, f, c) else v
  }

  /** `Start` always lands in Locomotion with the configured strafe flag;
      a switch changes the state and nothing else. */
  lemma StartAndSwitch(v: Vars, c: PM.Settings, target: AnimationState)
    ensures Started(v, c).currentState == Locomotion && Started(v, c).stance.isStrafing == c.alwaysStrafe
    ensures Started(v, c).(stance := v.stance, currentState := v.currentState) == v
    ensures Started(v, c).stance.(isStrafing := v.stance.isStrafing) == v.stance
    ensures Switched(v, target).currentState == target
    ensures Switched(v, target).(currentState := v.currentState) == v
  {
  }

  /** Only Locomotion does per-frame work and it never leaves itself; every
      frame keeps the input flags consistent with the input duration. */
  lemma FramesStayPut(v: Vars, f: PM.Frame, c: PM.Settings)
    requires f.Plausible()
    ensures v.currentState != Locomotion ==> FrameStep(v, f, c) == v
    ensures FrameStep(v, f, c).currentState == v.currentState
    ensures InputConsistent(v.inputDuration, c.buttonHoldThreshold, v.movementInput) ==>
      InputConsistent(FrameStep(v, f, c).inputDuration, c.buttonHoldThreshold, FrameStep(v, f, c).movementInput)
  {
    if InputConsistent(v.inputDuration, c.buttonHoldThreshold, v.movementInput) {
      ClassifyKeepsConsistent(f.movementDetected, v.inputDuration, c.buttonHoldThreshold, v.movementInput, f.deltaTime);
    }
  }

  /** Given the same fields and the same frame, a legacy Locomotion frame
      and a current one classify the input, choose and ease the speed,
      move the horizontal velocity and judge stopping and turning in place
      identically. The legacy steps are built from the same rule functions
      as the current ones, because the two sources' `CalculateInput`,
      speed selection, easing, `CheckIfStopped` and turning-in-place tests
      read the same; what this lemma checks is that the legacy frame runs
      those rules in its own order on its own fields (no start, gate or
      fall bookkeeping in between) without changing their outcome. */
  lemma AgreesWithCurrent(v: Vars, cur: PM.Vars, f: PM.Frame, c: PM.Settings)
    requires f.Plausible()
    requires cur.inputDuration == v.inputDuration && cur.movementInput == v.movementInput
    requires cur.stance == v.stance && cur.motion == v.motion
    ensures var l := LocomotionFrame(v, f, c);
      var r := PM.LocomotionFrame(cur, f, c);
      && l.inputDuration == r.inputDuration && l.movementInput == r.movementInput
      && l.motion.(velocity := l.motion.velocity.(y := 0.0)) == r.motion.(velocity := r.motion.velocity.(y := 0.0))
      && l.isStopped == r.footwork.isStopped && l.isTurningInPlace == r.footwork.isTurningInPlace
  {
  }

  class PlayerMovementController {
    const input: InputHandler
    const settings: PM.Settings

    var currentState: AnimationState
    var movementInput: InputFlags
    var stance: PM.Stance
    var motion: PM.Motion
    var isStopped: bool
    var isTurningInPlace: bool

    function State(): Vars
      reads this, input
    {
      Vars(currentState, input.movementInputDuration, movementInput, stance, motion, isStopped, isTurningInPlace)
    }

    /** A controller as the scene loads it, in state Base. */
    constructor (input: InputHandler, settings: PM.Settings)
      ensures this.input == input && this.settings == settings
      ensures State() == Vars(Base, input.movementInputDuration, NoInput, PM.InitialStance, PM.InitialMotion, true, false)
    {
      this.input := input;
      this.settings := settings;
      currentState := Base;
      movementInput := NoInput;
      stance := PM.InitialStance;
      motion := PM.InitialMotion;
      isStopped := true;
      isTurningInPlace := false;
    }

    /** `Start` (the engine lookups of `Init` are left out). */
    method Start()
      modifies this
      ensures State() == Started(old(State()), settings)
    {
      stance := stance.(isStrafing := settings.alwaysStrafe);
      SwitchState(Locomotion);
    }

    method SwitchState(target: AnimationState)
      modifies this
      ensures State() == Switched(old(State()), target)
    {
      ExitCurrentState();
      EnterState(target);
    }

    /** `EnterState`: every entry action is empty as far as the model goes. */
    method EnterState(target: AnimationState)
      modifies this
      ensures State() == Switched(old(State()), target)
    {
      currentState := target;
    }

    /** `ExitCurrentState`: leaving Locomotion, Jump or Crouch runs an
        empty action. */
    method ExitCurrentState()
      ensures State() == old(State())
    {
    }

    /** `LocomotionToJumpState` (no delegate subscribes it). */
    method LocomotionToJumpState()
      modifies this
      ensures State() == Switched(old(State()), Jump)
    {
      SwitchState(Jump);
    }

    method CalculateInput(f: PM.Frame)
      requires f.Plausible()
      modifies this, input
      ensures State() == InputStep(old(State()), f, settings)
    {
      if f.movementDetected {
        if input.movementInputDuration == 0.0 {
          movementInput := movementInput.(tapped := true);
        } else if input.movementInputDuration > 0.0 && input.movementInputDuration < settings.buttonHoldThreshold {
          movementInput := InputFlags(false, true, false);
        } else {
          movementInput := InputFlags(false, false, true);
        }
        input.movementInputDuration := input.movementInputDuration + f.deltaTime;
      } else {
        input.movementInputDuration := 0.0;
        movementInput := NoInput;
      }
    }

    method ApplyGravity(f: PM.Frame)
      modifies this
      ensures State() == Gravity(old(State()), f, settings)
    {
      var vy := GravityStep(motion.velocity.y, f.gravityY, settings.gravityMultiplier, f.deltaTime);
      motion := motion.(velocity := motion.velocity.(y := vy));
    }

    method CalculateMovementState()
      modifies this
      ensures State() == old(State()).(motion := PM.GaitStep(old(motion), settings))
    {
      var runThreshold := (settings.walkSpeed + settings.runSpeed) / 2.0;
      var sprintThreshold := (settings.runSpeed + settings.sprintSpeed) / 2.0;
      if motion.speed2D < 0.01 {
        motion := motion.(currentGait := Idle);
      } else if motion.speed2D < runThreshold {
        motion := motion.(currentGait := Walk);
      } else if motion.speed2D < sprintThreshold {
        motion := motion.(currentGait := Run);
      } else {
        motion := motion.(currentGait := Sprint);
      }
    }

    method CalculateMoveDirection(f: PM.Frame)
      requires f.Plausible()
      modifies this, input
      ensures State() == MoveDirection(old(State()), f, settings)
    {
      CalculateInput(f);
      if !stance.isGrounded {
        motion := motion.(targetMaxSpeed := motion.currentMaxSpeed);
      } else if stance.isCrouching {
        motion := motion.(targetMaxSpeed := settings.walkSpeed);
      } else if stance.isSprinting {
        motion := motion.(targetMaxSpeed := settings.sprintSpeed);
      } else if stance.isWalking {
        motion := motion.(targetMaxSpeed := settings.walkSpeed);
      } else {
        motion := motion.(targetMaxSpeed := settings.runSpeed);
      }
      motion := motion.(currentMaxSpeed := PM.EasedMaxSpeed(motion.currentMaxSpeed, motion.targetMaxSpeed, f.deltaTime));
      var maxSpeed := motion.currentMaxSpeed;
      var v := motion.velocity;
      v := v.(z := PM.EasedVelocity(v.z, f.moveZ, maxSpeed, settings.speedChangeDamping, f.deltaTime));
      v := v.(x := PM.EasedVelocity(v.x, f.moveX, maxSpeed, settings.speedChangeDamping, f.deltaTime));
      motion := motion.(velocity := v, speed2D := f.speed2D);
      CalculateMovementState();
    }

    method CheckIfStopped(f: PM.Frame)
      modifies this
      ensures State() == old(State()).(isStopped := IsStopped(f.moveMagnitude, old(motion).speed2D))
    {
      isStopped := f.moveMagnitude == 0.0 && motion.speed2D < 0.5;
    }

    /** The turning-in-place verdict of `FaceMoveDirection`. */
    method FaceMoveDirection(f: PM.Frame)
      modifies this
      ensures State() == old(State()).(isTurningInPlace := old(stance).isStrafing && f.moveMagnitude <= 0.01
                                                           && f.cameraOffsetBeyondTurnLimit)
    {
      isTurningInPlace := false;
      if stance.isStrafing && !(f.moveMagnitude > 0.01) && f.cameraOffsetBeyondTurnLimit {
        isTurningInPlace := true;
      }
    }

    method UpdateLocomotionState(f: PM.Frame)
      requires f.Plausible()
      modifies this, input
      ensures State() == LocomotionFrame(old(State()), f, settings)
    {
      stance := stance.(isGrounded := f.sphereGrounded);
      CalculateMoveDirection(f);
      CheckIfStopped(f);
      FaceMoveDirection(f);
    }

    method Update(f: PM.Frame)
      requires f.Plausible()
      modifies this, input
      ensures State() == FrameStep(old(State()), f, settings)
    {
      match currentState
      case Locomotion => UpdateLocomotionState(f);
      case Jump =>
      case Fall =>
      case Crouch =>
      case Base =>
    }
  }
}
