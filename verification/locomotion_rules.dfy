/** Decision rules that both versions of PlayerMovementController share word
    for word: how a movement input is classified as tapped, pressed or held,
    which maximum speed the character aims for, which gait a speed belongs
    to, when the character counts as stopped, and how gravity bends the
    vertical velocity. The controllers' methods write the results into their
    fields; the rules and what they guarantee live here. */
module LocomotionRules {
  import opened UnityMath

  /** The controller's `AnimationState`: the locomotion state machine. */
  datatype AnimationState = Base | Locomotion | Jump | Fall | Crouch

  /** The controller's `MovementState`: the gait pushed to the animator. */
  datatype MovementState = Idle | Walk | Run | Sprint

  // ---------------------------------------------------------------------
  // Movement input: tapped, pressed or held

  /** The three animator flags `movementInputTapped`, `movementInputPressed`
      and `movementInputHeld`. */
  datatype InputFlags = InputFlags(tapped: bool, pressed: bool, held: bool)

  const NoInput := InputFlags(false, false, false)

  /** The flags `CalculateInput` leaves, from whether movement input is
      detected, the duration held so far and the hold threshold. A first
      frame of input (duration still 0) raises `tapped` and leaves the other
      two flags as they were. */
  function ClassifyInput(detected: bool, duration: real, threshold: real, flags: InputFlags): InputFlags
  {
    if !detected then NoInput
    else if duration == 0.0 then flags.(tapped := true)
    else if 0.0 < duration < threshold then InputFlags(false, true, false)
    else InputFlags(false, false, true)
  }

  /** The input duration after `CalculateInput`: it grows by the frame time
      while input continues and drops to 0 when it stops. */
  function NextInputDuration(detected: bool, duration: real, deltaTime: real): (d: real)
    requires deltaTime >= 0.0
    ensures detected ==> d >= duration
    ensures !detected ==> d == 0.0
  {
    if detected then duration + deltaTime else 0.0
  }

  /** At most one of the three flags is raised. */
  predicate AtMostOne(flags: InputFlags)
  {
    !(flags.tapped && flags.pressed) && !(flags.tapped && flags.held) && !(flags.pressed && flags.held)
  }

  /** What the duration and the flags keep true together: the duration is
      never negative, at most one flag is up, and `pressed` and `held` are
      only ever raised after some time has passed, `held` once the threshold
      is reached. */
  predicate InputConsistent(duration: real, threshold: real, flags: InputFlags)
  {
    && 0.0 <= duration
    && AtMostOne(flags)
    && (flags.pressed ==> 0.0 < duration)
    && (flags.held ==> 0.0 < duration && threshold <= duration)
  }

  /** One frame of `CalculateInput` keeps the flags and duration consistent. */
  lemma ClassifyKeepsConsistent(detected: bool, duration: real, threshold: real, flags: InputFlags, deltaTime: real)
    requires deltaTime >= 0.0
    requires InputConsistent(duration, threshold, flags)
    ensures InputConsistent(NextInputDuration(detected, duration, deltaTime), threshold,
                            ClassifyInput(detected, duration, threshold, flags))
  {
  }

  /** From a consistent state the classification is exact: with no input
      every flag is down, and with input exactly one is up — `tapped` on the
      first frame, `pressed` while under the threshold, `held` from then on. */
  lemma ClassifyMeaning(detected: bool, duration: real, threshold: real, flags: InputFlags)
    requires InputConsistent(duration, threshold, flags)
    ensures var r := ClassifyInput(detected, duration, threshold, flags);
      && (r.tapped <==> detected && duration == 0.0)
      && (r.pressed <==> detected && 0.0 < duration < threshold)
      && (r.held <==> detected && 0.0 < duration && threshold <= duration)
  {
  }

  /** Duration and flags together, as they stand between frames. */
  datatype InputReading = InputReading(duration: real, flags: InputFlags)

  /** Frames of uninterrupted movement input, one frame time each. */
  function HoldInput(r: InputReading, threshold: real, frames: seq<real>): InputReading
    requires forall i :: 0 <= i < |frames| ==> frames[i] >= 0.0
    decreases |frames|
  {
    if frames == [] then r
    else HoldInput(InputReading(NextInputDuration(true, r.duration, frames[0]),
                                ClassifyInput(true, r.duration, threshold, r.flags)),
                   threshold, frames[1..])
  }

  function Sum(frames: seq<real>): real
  {
    if frames == [] then 0.0 else frames[0] + Sum(frames[1..])
  }

  /** While input continues the duration is the sum of the frame times, and
      the flags stay consistent with it. */
  lemma {:induction false} HoldingAccumulates(r: InputReading, threshold: real, frames: seq<real>)
    requires forall i :: 0 <= i < |frames| ==> frames[i] >= 0.0
    requires InputConsistent(r.duration, threshold, r.flags)
    ensures HoldInput(r, threshold, frames).duration == r.duration + Sum(frames)
    ensures InputConsistent(HoldInput(r, threshold, frames).duration, threshold, HoldInput(r, threshold, frames).flags)
    decreases |frames|
  {
    if frames != [] {
      var next := InputReading(NextInputDuration(true, r.duration, frames[0]),
                               ClassifyInput(true, r.duration, threshold, r.flags));
      ClassifyKeepsConsistent(true, r.duration, threshold, r.flags, frames[0]);
      HoldingAccumulates(next, threshold, frames[1..]);
    }
  }

  /** Once the input counts as held it stays held for as long as it
      continues. */
  lemma {:induction false} HeldPersists(r: InputReading, threshold: real, frames: seq<real>)
    requires forall i :: 0 <= i < |frames| ==> frames[i] >= 0.0
    requires InputConsistent(r.duration, threshold, r.flags)
    requires r.flags.held
    ensures HoldInput(r, threshold, frames).flags.held
    decreases |frames|
  {
    if frames != [] {
      var next := InputReading(NextInputDuration(true, r.duration, frames[0]),
                               ClassifyInput(true, r.duration, threshold, r.flags));
      ClassifyKeepsConsistent(true, r.duration, threshold, r.flags, frames[0]);
      HeldPersists(next, threshold, frames[1..]);
    }
  }

  // ---------------------------------------------------------------------
  // Target speed and gait

  /** The target maximum speed chosen in `CalculateMoveDirection`: in the air
      the current maximum is kept; on the ground crouching beats sprinting,
      sprinting beats walking, and running is the default. */
  function TargetMaxSpeed(grounded: bool, crouching: bool, sprinting: bool, walking: bool,
                          currentMax: real, walkSpeed: real, runSpeed: real, sprintSpeed: real): real
  {
    if !grounded then currentMax
    else if crouching then walkSpeed
    else if sprinting then sprintSpeed
    else if walking then walkSpeed
    else runSpeed
  }

  /** On the ground the target is always one of the configured speeds, and
      with ordered speeds it never exceeds the sprint speed; crouching always
      slows to walking pace whatever the sprint and walk flags say. */
  lemma TargetSpeedChoice(grounded: bool, crouching: bool, sprinting: bool, walking: bool,
                          currentMax: real, walkSpeed: real, runSpeed: real, sprintSpeed: real)
    ensures var r := TargetMaxSpeed(grounded, crouching, sprinting, walking, currentMax, walkSpeed, runSpeed, sprintSpeed);
      && (!grounded ==> r == currentMax)
      && (grounded ==> r == walkSpeed || r == runSpeed || r == sprintSpeed)
      && (grounded && crouching ==> r == walkSpeed)
      && (grounded && !crouching && sprinting ==> r == sprintSpeed)
      && (grounded && walkSpeed <= runSpeed <= sprintSpeed ==> walkSpeed <= r <= sprintSpeed)
  {
  }

  /** The gait of a horizontal speed, `CalculateMovementState`: below 0.01 the
      character idles; the walk/run and run/sprint boundaries lie halfway
      between the configured speeds. */
  function GaitFor(speed: real, walkSpeed: real, runSpeed: real, sprintSpeed: real): MovementState
  {
    var runThreshold := (walkSpeed + runSpeed) / 2.0;
    var sprintThreshold := (runSpeed + sprintSpeed) / 2.0;
    if speed < 0.01 then Idle
    else if speed < runThreshold then Walk
    else if speed < sprintThreshold then Run
    else Sprint
  }

  /** The animator's integer for a gait (Idle = 0, …, Sprint = 3). */
  function GaitRank(g: MovementState): nat
  {
    match g
    case Idle => 0
    case Walk => 1
    case Run => 2
    case Sprint => 3
  }

  /** A faster character never has a lower gait, whatever the configured
      speeds. */
  lemma GaitMonotone(s1: real, s2: real, walkSpeed: real, runSpeed: real, sprintSpeed: real)
    requires s1 <= s2
    ensures GaitRank(GaitFor(s1, walkSpeed, runSpeed, sprintSpeed)) <= GaitRank(GaitFor(s2, walkSpeed, runSpeed, sprintSpeed))
  {
  }

  /** Moving at exactly one of the configured speeds (strictly ordered, walk
      speed not negligible) is classified as that gait. */
  lemma GaitAtConfiguredSpeeds(walkSpeed: real, runSpeed: real, sprintSpeed: real)
    requires 0.01 <= walkSpeed < runSpeed < sprintSpeed
    ensures GaitFor(walkSpeed, walkSpeed, runSpeed, sprintSpeed) == Walk
    ensures GaitFor(runSpeed, walkSpeed, runSpeed, sprintSpeed) == Run
    ensures GaitFor(sprintSpeed, walkSpeed, runSpeed, sprintSpeed) == Sprint
  {
  }

  /** `CheckIfStopped`: no movement direction and a horizontal speed under
      0.5. */
  predicate IsStopped(moveMagnitude: real, speed2D: real)
  {
    moveMagnitude == 0.0 && speed2D < 0.5
  }

  // ---------------------------------------------------------------------
  // Gravity

  /** `ApplyGravity` on the vertical velocity: while it is above the world
      gravity's y it gains `gravityY * multiplier * deltaTime`; at or below
      that value it is left alone. */
  function GravityStep(vy: real, gravityY: real, multiplier: real, deltaTime: real): (r: real)
    ensures vy <= gravityY ==> r == vy
    ensures gravityY <= 0.0 && multiplier >= 0.0 && deltaTime >= 0.0 ==> r <= vy
  {
    if vy > gravityY then
      var pull := gravityY * multiplier * deltaTime;
      assert gravityY <= 0.0 && multiplier >= 0.0 && deltaTime >= 0.0 ==> pull <= 0.0 by {
        if gravityY <= 0.0 && multiplier >= 0.0 && deltaTime >= 0.0 {
          assert 0.0 <= (-gravityY) * multiplier;
          assert 0.0 <= ((-gravityY) * multiplier) * deltaTime;
        }
      }
      vy + pull
    else vy
  }
}
