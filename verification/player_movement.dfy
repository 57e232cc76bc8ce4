/** The current PlayerMovementController: the locomotion state machine
    (Base, Locomotion, Jump, Fall, Crouch) with its exit and entry actions,
    the jump handler that Locomotion subscribes to the input handler's jump
    delegate, the sprint/walk/strafe flags, and the per-frame work of the
    Locomotion, Jump and Fall states as far as it is decision logic.

    What the engine computes — the ground sphere test, the character
    controller's own grounded flag, the camera-relative move direction, the
    horizontal speed, the signed angles — arrives as a `Frame`. */
module PlayerMovement {
  import opened UnityMath
  import opened LocomotionRules
  import opened Input

  /** `ANIMATION_DAMP_TIME`. */
  const AnimationDampTime: real := 5.0
  /** The `delayTime` a locomotion start puts on the lean, head and body
      timers and on the start timer. */
  const StartDelay: real := 0.2

  /** What the engine hands one frame of the controller. */
  datatype Frame = Frame(
    deltaTime: real,                  // Time.deltaTime
    time: real,                       // Time.time
    gravityY: real,                   // Physics.gravity.y
    sphereGrounded: bool,             // result of the ground sphere check
    controllerGrounded: bool,         // CharacterController.isGrounded
    movementDetected: bool,           // InputHandler.GetMovementInputDetected()
    moveX: real,                      // camera-relative moveDirection.x
    moveZ: real,                      // camera-relative moveDirection.z
    moveMagnitude: real,              // moveDirection.magnitude
    speed2D: real,                    // rounded horizontal speed after the velocity lerp
    directionAngle: real,             // newDirectionDifferenceAngle
    cameraOffsetBeyondTurnLimit: bool // |cameraRotationOffset| > 10 after its lerp
  )
  {
    /** The engine's guarantees: time does not run backwards, magnitudes are
        not negative, and the direction is zero exactly when its magnitude is. */
    predicate Plausible()
    {
      && deltaTime >= 0.0
      && moveMagnitude >= 0.0
      && speed2D >= 0.0
      && (moveMagnitude == 0.0 <==> moveX == 0.0 && moveZ == 0.0)
    }
  }

  // ---------------------------------------------------------------------
  // Delay timers

  /** `VariableOverrideDelayTimer`: a running timer counts down by the frame
      time and is kept within [0, 1]; one that is not running reads 0. */
  function DelayTimer(timer: real, deltaTime: real): (r: real)
    requires deltaTime >= 0.0
    ensures 0.0 <= r <= 1.0
    ensures timer <= 0.0 ==> r == 0.0
    ensures timer > 0.0 ==> r <= timer
  {
    if timer > 0.0 then Clamp(timer - deltaTime, 0.0, 1.0) else 0.0
  }

  /** The timer after `n` frames of equal length. */
  function TimerAfter(timer: real, deltaTime: real, n: nat): real
    requires deltaTime >= 0.0
    decreases n
  {
    if n == 0 then timer else TimerAfter(DelayTimer(timer, deltaTime), deltaTime, n - 1)
  }

  /** A timer started anywhere in [0, 1] reads `timer - n * deltaTime` after
      `n` frames, until it bottoms out at 0: a gate held shut by it reopens
      exactly when the frames have covered the delay. */
  lemma {:induction false} TimerRunsOut(timer: real, deltaTime: real, n: nat)
    requires deltaTime >= 0.0
    requires 0.0 <= timer <= 1.0
    ensures TimerAfter(timer, deltaTime, n) == if timer - (n as real) * deltaTime > 0.0 then timer - (n as real) * deltaTime else 0.0
    decreases n
  {
    if n > 0 {
      var next := DelayTimer(timer, deltaTime);
      TimerRunsOut(next, deltaTime, n - 1);
      var k := (n - 1) as real;
      assert (n as real) * deltaTime == k * deltaTime + deltaTime;
      assert 0.0 <= k * deltaTime;
      if timer - deltaTime <= 0.0 {
        assert next == 0.0;
      } else {
        assert next == timer - deltaTime;
      }
    }
  }

  /** `CheckIfStarting`'s test for a new locomotion start, on the start timer
      after this frame's countdown. */
  predicate StartBegins(tickedTimer: real, moveMagnitude: real, speed2D: real, strafing: bool)
  {
    tickedTimer <= 0.0 && moveMagnitude > 0.01 && speed2D < 1.0 && !strafing
  }

  // ---------------------------------------------------------------------
  // The jump handler subscription

  /** How many times the jump handler must be subscribed in a state. */
  function JumpHandlers(s: AnimationState): nat
  {
    if s == Locomotion then 1 else 0
  }

  /** The subscription count after `SwitchState`: leaving Locomotion removes
      one handler (removing from an empty delegate changes nothing), entering
      Locomotion adds one. */
  function SubscriptionsAfterSwitch(from: AnimationState, subscriptions: nat, to: AnimationState): nat
  {
    var afterExit := if from == Locomotion && subscriptions > 0 then subscriptions - 1 else subscriptions;
    if to == Locomotion then afterExit + 1 else afterExit
  }

  /** The state machine as far as the subscription goes. */
  datatype Machine = Machine(state: AnimationState, subscriptions: nat)

  function SwitchAll(m: Machine, targets: seq<AnimationState>): Machine
    decreases |targets|
  {
    if targets == [] then m
    else SwitchAll(Machine(targets[0], SubscriptionsAfterSwitch(m.state, m.subscriptions, targets[0])), targets[1..])
  }

  /** Any sequence of switches from a machine whose subscription matches its
      state ends in the last target, subscribed exactly once if that is
      Locomotion and not at all otherwise. */
  lemma {:induction false} SwitchesKeepOneHandler(m: Machine, targets: seq<AnimationState>)
    requires m.subscriptions == JumpHandlers(m.state)
    ensures SwitchAll(m, targets).subscriptions == JumpHandlers(SwitchAll(m, targets).state)
    ensures SwitchAll(m, targets).state == if targets == [] then m.state else targets[|targets| - 1]
    decreases |targets|
  {
    if targets != [] {
      var next := Machine(targets[0], SubscriptionsAfterSwitch(m.state, m.subscriptions, targets[0]));
      SwitchesKeepOneHandler(next, targets[1..]);
      if |targets| > 1 {
        assert targets[1..][|targets[1..]| - 1] == targets[|targets| - 1];
      }
    }
  }

  /** The controller's starting point, Base with no handler, is such a
      machine. */
  lemma FromBaseOneHandler(targets: seq<AnimationState>)
    ensures SwitchAll(Machine(Base, 0), targets).subscriptions
            == if targets != [] && targets[|targets| - 1] == Locomotion then 1 else 0
  {
    SwitchesKeepOneHandler(Machine(Base, 0), targets);
  }

  /** The maximum speed eased towards the target at `ANIMATION_DAMP_TIME`. */
  function EasedMaxSpeed(current: real, target: real, deltaTime: real): real
  {
    Lerp(current, target, AnimationDampTime * deltaTime)
  }

  /** A velocity component eased towards the move direction component scaled
      by the maximum speed, at `speedChangeDamping`. */
  function EasedVelocity(current: real, move: real, maxSpeed: real, damping: real, deltaTime: real): real
  {
    Lerp(current, move * maxSpeed, damping * deltaTime)
  }

  /** An eased velocity component lies between where it was and its goal. */
  lemma EasedVelocityBetween(current: real, move: real, maxSpeed: real, damping: real, deltaTime: real)
    ensures Between(EasedVelocity(current, move, maxSpeed, damping, deltaTime), current, move * maxSpeed)
  {
    LerpBetween(current, move * maxSpeed, damping * deltaTime);
  }

  /** `x` lies between `a` and `b`, in either order. */
  predicate Between(x: real, a: real, b: real)
  {
    (a <= b ==> a <= x <= b) && (b <= a ==> b <= x <= a)
  }


  // ---------------------------------------------------------------------
  // The controller's state as a value

  /** The serialized game settings the modelled logic reads. */
  datatype Settings = Settings(alwaysStrafe: bool, walkSpeed: real, runSpeed: real, sprintSpeed: real,
                               speedChangeDamping: real, buttonHoldThreshold: real,
                               jumpForce: real, gravityMultiplier: real)

  /** The values the scene gives the settings. */
  const DefaultSettings := Settings(true, 1.4, 2.5, 7.0, 10.0, 0.15, 0.1, 2.0)

  /** The stance flags. */
  datatype Stance = Stance(isAiming: bool, isCrouching: bool, isGrounded: bool, isSliding: bool,
                           isSprinting: bool, isStrafing: bool, isWalking: bool)

  /** Speeds and velocity. */
  datatype Motion = Motion(currentMaxSpeed: real, targetMaxSpeed: real, velocity: Vector3, speed2D: real,
                           currentGait: MovementState)

  /** The in-air clock. */
  datatype FallClock = FallClock(fallStartTime: real, fallingDuration: real)

  /** The head-look, body-look and lean delays and the gates they hold. */
  datatype LookGates = LookGates(headLookDelay: real, enableHeadTurn: bool, bodyLookDelay: real,
                                 enableBodyTurn: bool, leanDelay: real, enableLean: bool)

  /** The start, stop and turn-in-place verdicts and the start timer. */
  datatype Footwork = Footwork(isStarting: bool, isStopped: bool, isTurningInPlace: bool,
                               locomotionStartTimer: real, locomotionStartDirection: real)

  /** Every controller field the modelled logic writes, with the input
      handler's movement-input duration and jump subscriptions. */
  datatype Vars = Vars(currentState: AnimationState, jumpSubscriptions: nat,
                       inputDuration: real, movementInput: InputFlags,
                       stance: Stance, motion: Motion, fall: FallClock, gates: LookGates, footwork: Footwork)

  /** What the controller keeps true between calls: the jump handler is
      subscribed once in Locomotion and never elsewhere, the input flags
      agree with the input duration, and the character never walks and
      sprints at once. */
  predicate Inv(v: Vars, c: Settings)
  {
    && v.jumpSubscriptions == JumpHandlers(v.currentState)
    && InputConsistent(v.inputDuration, c.buttonHoldThreshold, v.movementInput)
    && !(v.stance.isWalking && v.stance.isSprinting)
  }

  /** The field initialisers: grounded, stopped, the turn gates open,
      everything else false or zero. */
  const InitialStance := Stance(false, false, true, false, false, false, false)
  const InitialMotion := Motion(0.0, 0.0, Zero3, 0.0, Idle)
  const InitialGates := LookGates(0.0, true, 0.0, true, 0.0, true)
  const InitialFootwork := Footwork(false, true, false, 0.0, 0.0)

  // ---------------------------------------------------------------------
  // Walking and sprinting

  /** `EnableWalk`. */
  function WithWalk(s: Stance, enable: bool): Stance
  {
    s.(isWalking := enable && s.isGrounded && !s.isSprinting)
  }

  /** `ActivateSprint`. */
  function SprintOn(s: Stance): Stance
  {
    if s.isCrouching then s
    else WithWalk(s, false).(isSprinting := true, isStrafing := false)
  }

  /** `DeactivateSprint`. */
  function SprintOff(s: Stance, c: Settings): Stance
  {
    s.(isSprinting := false, isStrafing := if c.alwaysStrafe || s.isAiming then true else s.isStrafing)
  }

  /** Walking is only ever granted on the ground and never while sprinting;
      sprinting, unless crouched, drops walking and strafing; a crouching
      character ignores the sprint request; leaving sprint strafes again
      exactly when strafing is forced or the player aims. None of them lets
      the character walk and sprint at once. */
  lemma WalkAndSprint(s: Stance, c: Settings, enable: bool)
    requires !(s.isWalking && s.isSprinting)
    ensures WithWalk(s, enable).isWalking <==> enable && s.isGrounded && !s.isSprinting
    ensures !s.isCrouching ==> SprintOn(s).isSprinting && !SprintOn(s).isWalking && !SprintOn(s).isStrafing
    ensures s.isCrouching ==> SprintOn(s) == s
    ensures !SprintOff(s, c).isSprinting
    ensures SprintOff(s, c).isStrafing <==> c.alwaysStrafe || s.isAiming || s.isStrafing
    ensures !(WithWalk(s, enable).isWalking && WithWalk(s, enable).isSprinting)
    ensures !(SprintOn(s).isWalking && SprintOn(s).isSprinting)
    ensures !(SprintOff(s, c).isWalking && SprintOff(s, c).isSprinting)
  {
  }

  // ---------------------------------------------------------------------
  // Entering and leaving states

  /** `ExitCurrentState`: leaving Locomotion unsubscribes the jump handler
      (an absent handler is not removed); leaving Jump only resets an
      animator flag. */
  function Exited(v: Vars): Vars
  {
    if v.currentState == Locomotion && v.jumpSubscriptions > 0
    then v.(jumpSubscriptions := v.jumpSubscriptions - 1)
    else v
  }

  /** `EnterState`: record the target and run its entry action. Base only
      samples the transform and Crouch has none. */
  function Entered(v: Vars, target: AnimationState, now: real, c: Settings): Vars
  {
    var w := v.(currentState := target);
    match target
    case Locomotion => w.(jumpSubscriptions := w.jumpSubscriptions + 1)
    case Jump =>
      w.(stance := w.stance.(isSliding := false),
         motion := w.motion.(velocity := w.motion.velocity.(y := c.jumpForce)))
    case Fall =>
      w.(fall := FallClock(now, 0.0),
         motion := w.motion.(velocity := w.motion.velocity.(y := 0.0)),
         stance := w.stance.(isSliding := false))
    case _ => w
  }

  /** `SwitchState`: exit, then enter. */
  function Switched(v: Vars, target: AnimationState, now: real, c: Settings): Vars
  {
    Entered(Exited(v), target, now, c)
  }

  /** A switch lands in its target and counts the subscriptions as
      `SubscriptionsAfterSwitch` does, so it keeps the invariant; it
      launches a jump with `jumpForce`, starts a fall at the current time
      with no vertical speed, and leaves the horizontal velocity, the input
      and the walk and sprint flags alone. */
  lemma SwitchFacts(v: Vars, target: AnimationState, now: real, c: Settings)
    ensures var r := Switched(v, target, now, c);
      && r.currentState == target
      && r.jumpSubscriptions == SubscriptionsAfterSwitch(v.currentState, v.jumpSubscriptions, target)
      && (Inv(v, c) ==> Inv(r, c))
      && (target == Jump ==> !r.stance.isSliding && r.motion.velocity == Vector3(v.motion.velocity.x, c.jumpForce, v.motion.velocity.z))
      && (target == Fall ==> !r.stance.isSliding && r.motion.velocity == v.motion.velocity.(y := 0.0)
                             && r.fall == FallClock(now, 0.0))
      && (target != Jump && target != Fall ==> r.motion == v.motion && r.stance == v.stance)
      && (target != Fall ==> r.fall == v.fall)
      && r.movementInput == v.movementInput && r.inputDuration == v.inputDuration
      && r.stance.isWalking == v.stance.isWalking && r.stance.isSprinting == v.stance.isSprinting
      && r.gates == v.gates && r.footwork == v.footwork
  {
  }

  /** `OnNetworkSpawn` on the owner: enter Locomotion, then leave sprint. */
  function Spawned(v: Vars, now: real, c: Settings): Vars
  {
    var w := Switched(v, Locomotion, now, c);
    w.(stance := SprintOff(w.stance, c))
  }

  /** Whatever state the controller was in, spawning leaves it in
      Locomotion with exactly one jump handler, not sprinting. */
  lemma SpawnLocomotion(v: Vars, now: real, c: Settings)
    requires Inv(v, c)
    ensures var r := Spawned(v, now, c);
      r.currentState == Locomotion && r.jumpSubscriptions == 1 && !r.stance.isSprinting && Inv(r, c)
  {
    SwitchFacts(v, Locomotion, now, c);
  }

  /** The input handler firing `onJumpPerformed`: the subscribed handler,
      `LocomotionToJumpState`, switches to Jump; with no handler nothing
      happens. */
  function Jumped(v: Vars, now: real, c: Settings): Vars
  {
    if v.jumpSubscriptions > 0 then Switched(v, Jump, now, c) else v
  }

  /** The character jumps exactly from Locomotion: there it ends in Jump
      with the jump force as vertical speed and no handler left; in any
      other state the jump input changes nothing. */
  lemma JumpOnlyFromLocomotion(v: Vars, now: real, c: Settings)
    requires Inv(v, c)
    ensures v.currentState == Locomotion ==>
      var r := Jumped(v, now, c);
      r.currentState == Jump && r.motion.velocity.y == c.jumpForce && r.jumpSubscriptions == 0 && !r.stance.isSliding
    ensures v.currentState != Locomotion ==> Jumped(v, now, c) == v
    ensures Inv(Jumped(v, now, c), c)
  {
    SwitchFacts(v, Jump, now, c);
  }

  // ---------------------------------------------------------------------
  // The pieces of a frame

  /** `GroundedCheck` (the incline check is empty). */
  function Grounded(v: Vars, f: Frame): Vars
  {
    v.(stance := v.stance.(isGrounded := f.sphereGrounded))
  }

  /** `ApplyGravity`. */
  function Gravity(v: Vars, f: Frame, c: Settings): Vars
  {
    var vel := v.motion.velocity;
    v.(motion := v.motion.(velocity := vel.(y := GravityStep(vel.y, f.gravityY, c.gravityMultiplier, f.deltaTime))))
  }

  /** `CheckEnableTurns`: the head turns only once its timer has run out and
      no start is under way; the body also not while turning in place. */
  function TurnGates(g: LookGates, w: Footwork, f: Frame): LookGates
    requires f.Plausible()
  {
    var head := DelayTimer(g.headLookDelay, f.deltaTime);
    var body := DelayTimer(g.bodyLookDelay, f.deltaTime);
    g.(headLookDelay := head, enableHeadTurn := head == 0.0 && !w.isStarting,
       bodyLookDelay := body, enableBodyTurn := body == 0.0 && !(w.isStarting || w.isTurningInPlace))
  }

  /** `CheckEnableLean`. */
  function LeanGate(g: LookGates, w: Footwork, f: Frame): LookGates
    requires f.Plausible()
  {
    var lean := DelayTimer(g.leanDelay, f.deltaTime);
    g.(leanDelay := lean, enableLean := lean == 0.0 && !(w.isStarting || w.isTurningInPlace))
  }

  /** `CalculateInput`: classify the movement input and advance its
      duration. */
  function InputStep(v: Vars, f: Frame, c: Settings): Vars
    requires f.Plausible()
  {
    v.(movementInput := ClassifyInput(f.movementDetected, v.inputDuration, c.buttonHoldThreshold, v.movementInput),
       inputDuration := NextInputDuration(f.movementDetected, v.inputDuration, f.deltaTime))
  }

  /** `CalculateMovementState`. */
  function GaitStep(m: Motion, c: Settings): Motion
  {
    m.(currentGait := GaitFor(m.speed2D, c.walkSpeed, c.runSpeed, c.sprintSpeed))
  }

  /** `CalculateMoveDirection`, after `CalculateInput`: choose the target
      speed, ease the maximum speed towards it at `ANIMATION_DAMP_TIME`, ease
      the horizontal velocity (z, then x) towards the move direction at that
      speed, take the measured horizontal speed and classify its gait. */
  function MoveStep(m: Motion, s: Stance, f: Frame, c: Settings): Motion
    requires f.Plausible()
  {
    var target := TargetMaxSpeed(s.isGrounded, s.isCrouching, s.isSprinting, s.isWalking, m.currentMaxSpeed,
                                 c.walkSpeed, c.runSpeed, c.sprintSpeed);
    var maxSpeed := EasedMaxSpeed(m.currentMaxSpeed, target, f.deltaTime);
    var velocity := Vector3(EasedVelocity(m.velocity.x, f.moveX, maxSpeed, c.speedChangeDamping, f.deltaTime),
                            m.velocity.y,
                            EasedVelocity(m.velocity.z, f.moveZ, maxSpeed, c.speedChangeDamping, f.deltaTime));
    GaitStep(Motion(maxSpeed, target, velocity, f.speed2D, m.currentGait), c)
  }

  /** The whole of `CalculateMoveDirection`. */
  function MoveDirection(v: Vars, f: Frame, c: Settings): Vars
    requires f.Plausible()
  {
    var w := InputStep(v, f, c);
    w.(motion := MoveStep(w.motion, w.stance, f, c))
  }

  /** `CheckIfStarting`: the start timer counts down; once it has run out a
      slow, non-strafing move begins a start, which sets the lean, head and
      body timers and the start timer to the start delay and, if no start
      was under way, records the direction; while the timer runs the
      character counts as starting. */
  function Starting(v: Vars, f: Frame): Vars
    requires f.Plausible()
  {
    var w := v.footwork;
    var ticked := DelayTimer(w.locomotionStartTimer, f.deltaTime);
    if StartBegins(ticked, f.moveMagnitude, v.motion.speed2D, v.stance.isStrafing) then
      v.(footwork := w.(locomotionStartTimer := StartDelay, isStarting := true,
                        locomotionStartDirection := if w.isStarting then w.locomotionStartDirection else f.directionAngle),
         gates := v.gates.(leanDelay := StartDelay, headLookDelay := StartDelay, bodyLookDelay := StartDelay))
    else
      v.(footwork := w.(locomotionStartTimer := ticked, isStarting := ticked > 0.0))
  }

  /** `CheckIfStopped`. */
  function Stopped(w: Footwork, m: Motion, f: Frame): Footwork
  {
    w.(isStopped := IsStopped(f.moveMagnitude, m.speed2D))
  }

  /** The turning-in-place verdict of `FaceMoveDirection`. */
  function Facing(v: Vars, f: Frame): Vars
  {
    v.(footwork := v.footwork.(isTurningInPlace := v.stance.isStrafing && f.moveMagnitude <= 0.01
                                                  && f.cameraOffsetBeyondTurnLimit))
  }

  // ---------------------------------------------------------------------
  // Whole frames

  /** `UpdateLocomotionState`. */
  function LocomotionFrame(v: Vars, f: Frame, c: Settings): Vars
    requires f.Plausible()
  {
    var pulled := Gravity(Grounded(v, f), f, c);
    var gated := pulled.(gates := LeanGate(TurnGates(pulled.gates, pulled.footwork, f), pulled.footwork, f));
    var started := Starting(MoveDirection(gated, f, c), f);
    Facing(started.(footwork := Stopped(started.footwork, started.motion, f)), f)
  }

  /** `UpdateJumpState`: gravity first, a fall once the vertical velocity is
      no longer positive, then the rest of the frame either way. */
  function JumpFrame(v: Vars, f: Frame, c: Settings): Vars
    requires f.Plausible()
  {
    var pulled := Gravity(v, f, c);
    var next := if pulled.motion.velocity.y <= 0.0 then Switched(pulled, Fall, f.time, c) else pulled;
    Facing(MoveDirection(Grounded(next, f), f, c), f)
  }

  /** `UpdateFallState`: the movement and gravity of the frame, back to
      Locomotion once the character controller reports ground, the falling
      duration brought up to date last. */
  function FallFrame(v: Vars, f: Frame, c: Settings): Vars
    requires f.Plausible()
  {
    var pulled := Gravity(Facing(MoveDirection(Grounded(v, f), f, c), f), f, c);
    var next := if f.controllerGrounded then Switched(pulled, Locomotion, f.time, c) else pulled;
    next.(fall := next.fall.(fallingDuration := f.time - next.fall.fallStartTime))
  }

  /** `Update`: the current state's frame; Base and Crouch do nothing. */
  function FrameStep(v: Vars, f: Frame, c: Settings): Vars
    requires f.Plausible()
  {
    match v.currentState
    case Locomotion => LocomotionFrame(v, f, c)
    case Jump => JumpFrame(v, f, c)
    case Fall => FallFrame(v, f, c)
    case _ => v
  }

  // ---------------------------------------------------------------------
  // What a frame guarantees

  /** `CalculateMoveDirection` keeps the input consistent and touches
      nothing but the input and the motion. */
  lemma MoveDirectionKeepsInv(v: Vars, f: Frame, c: Settings)
    requires f.Plausible()
    requires Inv(v, c)
    ensures var r := MoveDirection(v, f, c);
      && Inv(r, c)
      && r.(motion := v.motion, movementInput := v.movementInput, inputDuration := v.inputDuration) == v
      && r.motion.velocity.y == v.motion.velocity.y
  {
    ClassifyKeepsConsistent(f.movementDetected, v.inputDuration, c.buttonHoldThreshold, v.movementInput, f.deltaTime);
  }

  /** Every frame, in every state, keeps the invariant. */
  lemma FrameKeepsInv(v: Vars, f: Frame, c: Settings)
    requires f.Plausible()
    requires Inv(v, c)
    ensures Inv(FrameStep(v, f, c), c)
  {
    match v.currentState
    case Locomotion => LocomotionKeepsInv(v, f, c);
    case Jump => JumpKeepsInv(v, f, c);
    case Fall => FallKeepsInv(v, f, c);
    case _ =>
  }

  lemma LocomotionKeepsInv(v: Vars, f: Frame, c: Settings)
    requires f.Plausible()
    requires Inv(v, c)
    ensures Inv(LocomotionFrame(v, f, c), c)
  {
    var pulled := Gravity(Grounded(v, f), f, c);
    var gated := pulled.(gates := LeanGate(TurnGates(pulled.gates, pulled.footwork, f), pulled.footwork, f));
    MoveDirectionKeepsInv(gated, f, c);
  }

  lemma JumpKeepsInv(v: Vars, f: Frame, c: Settings)
    requires f.Plausible()
    requires Inv(v, c)
    ensures Inv(JumpFrame(v, f, c), c)
  {
    var pulled := Gravity(v, f, c);
    var next := if pulled.motion.velocity.y <= 0.0 then Switched(pulled, Fall, f.time, c) else pulled;
    SwitchFacts(pulled, Fall, f.time, c);
    MoveDirectionKeepsInv(Grounded(next, f), f, c);
  }

  lemma FallKeepsInv(v: Vars, f: Frame, c: Settings)
    requires f.Plausible()
    requires Inv(v, c)
    ensures Inv(FallFrame(v, f, c), c)
  {
    var moved := MoveDirection(Grounded(v, f), f, c);
    MoveDirectionKeepsInv(Grounded(v, f), f, c);
    SwitchFacts(Gravity(Facing(moved, f), f, c), Locomotion, f.time, c);
  }

  /** Locomotion never leaves itself within a frame; Base and Crouch do not
      change at all. */
  lemma LocomotionAndInertStates(v: Vars, f: Frame, c: Settings)
    requires f.Plausible()
    ensures v.currentState == Locomotion ==>
      FrameStep(v, f, c).currentState == Locomotion && FrameStep(v, f, c).jumpSubscriptions == v.jumpSubscriptions
    ensures v.currentState == Base || v.currentState == Crouch ==> FrameStep(v, f, c) == v
  {
  }

  /** A jump turns into a fall exactly on the frame whose gravity step
      leaves no upward speed; the fall then starts at that frame's time with
      no vertical speed. */
  lemma JumpTurnsIntoFall(v: Vars, f: Frame, c: Settings)
    requires f.Plausible()
    requires v.currentState == Jump
    ensures var vy := GravityStep(v.motion.velocity.y, f.gravityY, c.gravityMultiplier, f.deltaTime);
      var r := FrameStep(v, f, c);
      && r.currentState == (if vy <= 0.0 then Fall else Jump)
      && r.motion.velocity.y == (if vy <= 0.0 then 0.0 else vy)
      && r.fall == (if vy <= 0.0 then FallClock(f.time, 0.0) else v.fall)
      && (vy <= 0.0 ==> !r.stance.isSliding)
  {
    var pulled := Gravity(v, f, c);
    var next := if pulled.motion.velocity.y <= 0.0 then Switched(pulled, Fall, f.time, c) else pulled;
    SwitchFacts(pulled, Fall, f.time, c);
  }

  /** A fall lands in Locomotion exactly when the character controller
      reports ground, with the jump handler subscribed again; the fall's
      start time is kept and its duration is the time since. */
  lemma FallLands(v: Vars, f: Frame, c: Settings)
    requires f.Plausible()
    requires Inv(v, c)
    requires v.currentState == Fall
    ensures var r := FrameStep(v, f, c);
      && r.currentState == (if f.controllerGrounded then Locomotion else Fall)
      && r.jumpSubscriptions == (if f.controllerGrounded then 1 else 0)
      && r.fall == FallClock(v.fall.fallStartTime, f.time - v.fall.fallStartTime)
  {
    var moved := MoveDirection(Grounded(v, f), f, c);
    SwitchFacts(Gravity(Facing(moved, f), f, c), Locomotion, f.time, c);
  }

  /** No frame leads into Jump: a character in Jump after a frame was in
      Jump before it, so the jump handler is the only way in. */
  lemma NoFrameEntersJump(v: Vars, f: Frame, c: Settings)
    requires f.Plausible()
    ensures FrameStep(v, f, c).currentState == Jump ==> v.currentState == Jump
  {
    if v.currentState == Fall {
      var moved := MoveDirection(Grounded(v, f), f, c);
      SwitchFacts(Gravity(Facing(moved, f), f, c), Locomotion, f.time, c);
    }
  }

  /** In a Locomotion frame the head turns exactly when its timer has run
      out and the previous frame left no start under way; the body and the
      lean also wait for the character to stop turning in place. */
  lemma GatesWaitForStart(v: Vars, f: Frame, c: Settings)
    requires f.Plausible()
    ensures var r := LocomotionFrame(v, f, c);
      var busy := v.footwork.isStarting || v.footwork.isTurningInPlace;
      && (r.gates.enableHeadTurn <==> DelayTimer(v.gates.headLookDelay, f.deltaTime) == 0.0 && !v.footwork.isStarting)
      && (r.gates.enableBodyTurn <==> DelayTimer(v.gates.bodyLookDelay, f.deltaTime) == 0.0 && !busy)
      && (r.gates.enableLean <==> DelayTimer(v.gates.leanDelay, f.deltaTime) == 0.0 && !busy)
  {
  }

  /** So a Locomotion frame that leaves the character starting shuts the
      head, body and lean gates on the next one. */
  lemma StartShutsGates(v: Vars, f1: Frame, f2: Frame, c: Settings)
    requires f1.Plausible() && f2.Plausible()
    ensures var w := LocomotionFrame(v, f1, c);
      var r := LocomotionFrame(w, f2, c);
      w.footwork.isStarting ==> !r.gates.enableHeadTurn && !r.gates.enableBodyTurn && !r.gates.enableLean
  {
    GatesWaitForStart(LocomotionFrame(v, f1, c), f2, c);
  }

  /** The maximum speed eases towards the target without overshooting it;
      in the air, where the target is the current maximum, it stays put. */
  lemma MaxSpeedEases(m: Motion, s: Stance, f: Frame, c: Settings)
    requires f.Plausible()
    ensures var r := MoveStep(m, s, f, c);
      && (!s.isGrounded ==> r.currentMaxSpeed == m.currentMaxSpeed)
      && Between(r.currentMaxSpeed, m.currentMaxSpeed, r.targetMaxSpeed)
  {
    var r := MoveStep(m, s, f, c);
    LerpBetween(m.currentMaxSpeed, r.targetMaxSpeed, AnimationDampTime * f.deltaTime);
  }

  /** Each horizontal velocity component eases towards the move direction
      scaled by the new maximum speed without overshooting it; the vertical
      component is left alone. */
  lemma VelocityEases(m: Motion, s: Stance, f: Frame, c: Settings)
    requires f.Plausible()
    ensures var r := MoveStep(m, s, f, c);
      && Between(r.velocity.x, m.velocity.x, f.moveX * r.currentMaxSpeed)
      && Between(r.velocity.z, m.velocity.z, f.moveZ * r.currentMaxSpeed)
      && r.velocity.y == m.velocity.y
  {
    var r := MoveStep(m, s, f, c);
    EasedVelocityBetween(m.velocity.x, f.moveX, r.currentMaxSpeed, c.speedChangeDamping, f.deltaTime);
    EasedVelocityBetween(m.velocity.z, f.moveZ, r.currentMaxSpeed, c.speedChangeDamping, f.deltaTime);
  }

  /** With ordered speeds, a maximum speed between the walk and sprint
      speeds stays there, on the ground and in the air. */
  lemma MaxSpeedStaysInRange(m: Motion, s: Stance, f: Frame, c: Settings)
    requires f.Plausible()
    requires c.walkSpeed <= c.runSpeed <= c.sprintSpeed
    requires c.walkSpeed <= m.currentMaxSpeed <= c.sprintSpeed
    ensures c.walkSpeed <= MoveStep(m, s, f, c).currentMaxSpeed <= c.sprintSpeed
  {
    MaxSpeedEases(m, s, f, c);
    TargetSpeedChoice(s.isGrounded, s.isCrouching, s.isSprinting, s.isWalking, m.currentMaxSpeed,
                      c.walkSpeed, c.runSpeed, c.sprintSpeed);
  }

  // ---------------------------------------------------------------------
  // The controller

  /** The controller's fields are grouped into the records above by the
      concern that writes them; the serialized settings form one constant. */
  class PlayerMovementController {
    const input: InputHandler
    const settings: Settings

    var currentState: AnimationState
    var movementInput: InputFlags
    var stance: Stance
    var motion: Motion
    var fall: FallClock
    var gates: LookGates
    var footwork: Footwork

    /** The fields as one value. */
    function State(): Vars
      reads this, input
    {
      Vars(currentState, input.jumpSubscriptions, input.movementInputDuration, movementInput,
           stance, motion, fall, gates, footwork)
    }

    ghost predicate Valid()
      reads this, input
    {
      Inv(State(), settings)
    }

    /** A controller as the scene loads it, in state Base. */
    constructor (input: InputHandler, settings: Settings)
      ensures this.input == input && this.settings == settings
      ensures State() == Vars(Base, input.jumpSubscriptions, input.movementInputDuration, NoInput,
                              InitialStance, InitialMotion, FallClock(0.0, 0.0), InitialGates, InitialFootwork)
      ensures input.jumpSubscriptions == 0 && input.movementInputDuration == 0.0 ==> Valid()
    {
      this.input := input;
      this.settings := settings;
      currentState := Base;
      movementInput := NoInput;
      stance := InitialStance;
      motion := InitialMotion;
      fall := FallClock(0.0, 0.0);
      gates := InitialGates;
      footwork := InitialFootwork;
    }

    /** `Start`: strafing starts as the `alwaysStrafe` setting says. */
    method Start()
      requires Valid()
      modifies this
      ensures Valid()
      ensures State() == old(State()).(stance := old(stance).(isStrafing := settings.alwaysStrafe))
    {
      stance := stance.(isStrafing := settings.alwaysStrafe);
    }

    /** `OnNetworkSpawn` on the owner: enter Locomotion, then leave sprint. */
    method OnNetworkSpawn(now: real)
      requires Valid()
      modifies this, input
      ensures Valid()
      ensures State() == Spawned(old(State()), now, settings)
    {
      SpawnLocomotion(State(), now, settings);
      SwitchState(Locomotion, now);
      DeactivateSprint();
    }

    // -------------------------------------------------------------------
    // Walking and sprinting

    method EnableWalk(enable: bool)
      modifies this
      ensures State() == old(State()).(stance := WithWalk(old(stance), enable))
    {
      stance := stance.(isWalking := enable && stance.isGrounded && !stance.isSprinting);
    }

    /** `ToggleWalk`: ask for the opposite of the current walk flag. */
    method ToggleWalk()
      modifies this
      ensures State() == old(State()).(stance := WithWalk(old(stance), !old(stance).isWalking))
    {
      EnableWalk(!stance.isWalking);
    }

    method ActivateSprint()
      modifies this
      ensures State() == old(State()).(stance := SprintOn(old(stance)))
    {
      if !stance.isCrouching {
        EnableWalk(false);
        stance := stance.(isSprinting := true);
        stance := stance.(isStrafing := false);
      }
    }

    method DeactivateSprint()
      modifies this
      ensures State() == old(State()).(stance := SprintOff(old(stance), settings))
    {
      stance := stance.(isSprinting := false);
      if settings.alwaysStrafe || stance.isAiming {
        stance := stance.(isStrafing := true);
      }
    }

    // -------------------------------------------------------------------
    // State change

    /** `EnterLocomotionState`: subscribe the jump handler. */
    method EnterLocomotionState()
      modifies input
      ensures State() == old(State()).(jumpSubscriptions := old(input.jumpSubscriptions) + 1)
    {
      input.jumpSubscriptions := input.jumpSubscriptions + 1;
    }

    /** `ExitLocomotionState`: unsubscribe the jump handler. */
    method ExitLocomotionState()
      modifies input
      ensures State() == old(State()).(jumpSubscriptions := if old(input.jumpSubscriptions) > 0
                                                          then old(input.jumpSubscriptions) - 1 else 0)
    {
      if input.jumpSubscriptions > 0 {
        input.jumpSubscriptions := input.jumpSubscriptions - 1;
      }
    }

    /** `EnterJumpState`. */
    method EnterJumpState()
      modifies this
      ensures State() == old(State()).(stance := old(stance).(isSliding := false),
                                       motion := old(motion).(velocity := old(motion).velocity.(y := settings.jumpForce)))
    {
      stance := stance.(isSliding := false);
      motion := motion.(velocity := Vector3(motion.velocity.x, settings.jumpForce, motion.velocity.z));
    }

    /** `ResetFallingDuration`: the fall starts now. */
    method ResetFallingDuration(now: real)
      modifies this
      ensures State() == old(State()).(fall := FallClock(now, 0.0))
    {
      fall := fall.(fallStartTime := now);
      fall := fall.(fallingDuration := 0.0);
    }

    /** `UpdateFallingDuration`. */
    method UpdateFallingDuration(now: real)
      modifies this
      ensures State() == old(State()).(fall := old(fall).(fallingDuration := now - old(fall).fallStartTime))
    {
      fall := fall.(fallingDuration := now - fall.fallStartTime);
    }

    /** `EnterFallState`. */
    method EnterFallState(now: real)
      modifies this
      ensures State() == old(State()).(fall := FallClock(now, 0.0),
                                       motion := old(motion).(velocity := old(motion).velocity.(y := 0.0)),
                                       stance := old(stance).(isSliding := false))
    {
      ResetFallingDuration(now);
      motion := motion.(velocity := motion.velocity.(y := 0.0));
      stance := stance.(isSliding := false);
    }

    method EnterState(target: AnimationState, now: real)
      modifies this, input
      ensures State() == Entered(old(State()), target, now, settings)
    {
      currentState := target;
      match target
      case Base =>
      case Locomotion => EnterLocomotionState();
      case Jump => EnterJumpState();
      case Fall => EnterFallState(now);
      case Crouch =>
    }

    method ExitCurrentState()
      modifies input
      ensures State() == Exited(old(State()))
    {
      if currentState == Locomotion {
        ExitLocomotionState();
      }
    }

    method SwitchState(target: AnimationState, now: real)
      modifies this, input
      ensures State() == Switched(old(State()), target, now, settings)
    {
      ExitCurrentState();
      EnterState(target, now);
    }

    /** `LocomotionToJumpState`, the handler Locomotion subscribes. */
    method LocomotionToJumpState(now: real)
      modifies this, input
      ensures State() == Switched(old(State()), Jump, now, settings)
    {
      SwitchState(Jump, now);
    }

    /** The input handler's `OnJump` invoking `onJumpPerformed`: each
        subscribed handler runs; the invariant leaves at most one. */
    method JumpPerformed(now: real)
      requires Valid()
      modifies this, input
      ensures Valid()
      ensures State() == Jumped(old(State()), now, settings)
    {
      JumpOnlyFromLocomotion(State(), now, settings);
      if input.jumpSubscriptions > 0 {
        LocomotionToJumpState(now);
      }
    }

    // -------------------------------------------------------------------
    // Per-frame pieces

    method GroundedCheck(f: Frame)
      modifies this
      ensures State() == Grounded(old(State()), f)
    {
      stance := stance.(isGrounded := f.sphereGrounded);
    }

    method ApplyGravity(f: Frame)
      modifies this
      ensures State() == Gravity(old(State()), f, settings)
    {
      var vy := GravityStep(motion.velocity.y, f.gravityY, settings.gravityMultiplier, f.deltaTime);
      motion := motion.(velocity := motion.velocity.(y := vy));
    }

    method CalculateInput(f: Frame)
      requires f.Plausible()
      modifies this, input
      ensures State() == InputStep(old(State()), f, settings)
    {
      if f.movementDetected {
        if input.movementInputDuration == 0.0 {
          movementInput := movementInput.(tapped := true);
        } else if input.movementInputDuration > 0.0 && input.movementInputDuration < settings.buttonHoldThreshold {
          movementInput := InputFlags(false, true, false);
        } else {
          movementInput := InputFlags(false, false, true);
        }
        input.movementInputDuration := input.movementInputDuration + f.deltaTime;
      } else {
        input.movementInputDuration := 0.0;
        movementInput := NoInput;
      }
    }

    method CalculateMovementState()
      modifies this
      ensures State() == old(State()).(motion := GaitStep(old(motion), settings))
    {
      var runThreshold := (settings.walkSpeed + settings.runSpeed) / 2.0;
      var sprintThreshold := (settings.runSpeed + settings.sprintSpeed) / 2.0;
      if motion.speed2D < 0.01 {
        motion := motion.(currentGait := Idle);
      } else if motion.speed2D < runThreshold {
        motion := motion.(currentGait := Walk);
      } else if motion.speed2D < sprintThreshold {
        motion := motion.(currentGait := Run);
      } else {
        motion := motion.(currentGait := Sprint);
      }
    }

    method CalculateMoveDirection(f: Frame)
      requires f.Plausible()
      modifies this, input
      ensures State() == MoveDirection(old(State()), f, settings)
    {
      CalculateInput(f);
      if !stance.isGrounded {
        motion := motion.(targetMaxSpeed := motion.currentMaxSpeed);
      } else if stance.isCrouching {
        motion := motion.(targetMaxSpeed := settings.walkSpeed);
      } else if stance.isSprinting {
        motion := motion.(targetMaxSpeed := settings.sprintSpeed);
      } else if stance.isWalking {
        motion := motion.(targetMaxSpeed := settings.walkSpeed);
      } else {
        motion := motion.(targetMaxSpeed := settings.runSpeed);
      }
      motion := motion.(currentMaxSpeed := EasedMaxSpeed(motion.currentMaxSpeed, motion.targetMaxSpeed, f.deltaTime));
      var maxSpeed := motion.currentMaxSpeed;
      var v := motion.velocity;
      v := v.(z := EasedVelocity(v.z, f.moveZ, maxSpeed, settings.speedChangeDamping, f.deltaTime));
      v := v.(x := EasedVelocity(v.x, f.moveX, maxSpeed, settings.speedChangeDamping, f.deltaTime));
      motion := motion.(velocity := v, speed2D := f.speed2D);
      CalculateMovementState();
    }

    method CheckIfStopped(f: Frame)
      modifies this
      ensures State() == old(State()).(footwork := Stopped(old(footwork), old(motion), f))
    {
      footwork := footwork.(isStopped := f.moveMagnitude == 0.0 && motion.speed2D < 0.5);
    }

    method CheckIfStarting(f: Frame)
      requires f.Plausible()
      modifies this
      ensures State() == Starting(old(State()), f)
    {
      footwork := footwork.(locomotionStartTimer := DelayTimer(footwork.locomotionStartTimer, f.deltaTime));
      var isStartingCheck := false;
      if footwork.locomotionStartTimer <= 0.0 {
        if f.moveMagnitude > 0.01 && motion.speed2D < 1.0 && !stance.isStrafing {
          isStartingCheck := true;
        }
        if isStartingCheck {
          if !footwork.isStarting {
            footwork := footwork.(locomotionStartDirection := f.directionAngle);
          }
          var delayTime := StartDelay;
          gates := gates.(leanDelay := delayTime, headLookDelay := delayTime, bodyLookDelay := delayTime);
          footwork := footwork.(locomotionStartTimer := delayTime);
        }
      } else {
        isStartingCheck := true;
      }
      footwork := footwork.(isStarting := isStartingCheck);
    }

    method CheckEnableTurns(f: Frame)
      requires f.Plausible()
      modifies this
      ensures State() == old(State()).(gates := TurnGates(old(gates), old(footwork), f))
    {
      gates := gates.(headLookDelay := DelayTimer(gates.headLookDelay, f.deltaTime));
      gates := gates.(enableHeadTurn := gates.headLookDelay == 0.0 && !footwork.isStarting);
      gates := gates.(bodyLookDelay := DelayTimer(gates.bodyLookDelay, f.deltaTime));
      gates := gates.(enableBodyTurn := gates.bodyLookDelay == 0.0 && !(footwork.isStarting || footwork.isTurningInPlace));
    }

    method CheckEnableLean(f: Frame)
      requires f.Plausible()
      modifies this
      ensures State() == old(State()).(gates := LeanGate(old(gates), old(footwork), f))
    {
      gates := gates.(leanDelay := DelayTimer(gates.leanDelay, f.deltaTime));
      gates := gates.(enableLean := gates.leanDelay == 0.0 && !(footwork.isStarting || footwork.isTurningInPlace));
    }

    /** The turning-in-place verdict of `FaceMoveDirection` (the rotations
        themselves are engine work). */
    method FaceMoveDirection(f: Frame)
      modifies this
      ensures State() == Facing(old(State()), f)
    {
      footwork := footwork.(isTurningInPlace := false);
      if stance.isStrafing && !(f.moveMagnitude > 0.01) && f.cameraOffsetBeyondTurnLimit {
        footwork := footwork.(isTurningInPlace := true);
      }
    }

    // -------------------------------------------------------------------
    // States

    method UpdateLocomotionState(f: Frame)
      requires f.Plausible()
      modifies this, input
      ensures State() == LocomotionFrame(old(State()), f, settings)
    {
      GroundedCheck(f);
      ApplyGravity(f);
      CheckEnableTurns(f);
      CheckEnableLean(f);
      CalculateMoveDirection(f);
      CheckIfStarting(f);
      CheckIfStopped(f);
      FaceMoveDirection(f);
    }

    method UpdateJumpState(f: Frame)
      requires f.Plausible()
      modifies this, input
      ensures State() == JumpFrame(old(State()), f, settings)
    {
      ApplyGravity(f);
      if motion.velocity.y <= 0.0 {
        SwitchState(Fall, f.time);
      }
      GroundedCheck(f);
      CalculateMoveDirection(f);
      FaceMoveDirection(f);
    }

    method UpdateFallState(f: Frame)
      requires f.Plausible()
      modifies this, input
      ensures State() == FallFrame(old(State()), f, settings)
    {
      GroundedCheck(f);
      CalculateMoveDirection(f);
      FaceMoveDirection(f);
      ApplyGravity(f);
      if f.controllerGrounded {
        SwitchState(Locomotion, f.time);
      }
      UpdateFallingDuration(f.time);
    }

    /** `Update`: run the current state's frame; the invariant holds after
        every frame. */
    method Update(f: Frame)
      requires Valid() && f.Plausible()
      modifies this, input
      ensures Valid()
      ensures State() == FrameStep(old(State()), f, settings)
    {
      FrameKeepsInv(State(), f, settings);
      match currentState
      case Base =>
      case Locomotion => UpdateLocomotionState(f);
      case Jump => UpdateJumpState(f);
      case Fall => UpdateFallState(f);
      case Crouch =>
    }
  }
}
