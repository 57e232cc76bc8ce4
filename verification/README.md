# TPS-Project core, modelled in Dafny

This project models the decision logic of a Unity third-person shooter
package:

- **Player movement.** Both versions of `PlayerMovementController` are
  modelled.
  - The current controller has a five-state locomotion machine: Base,
    Locomotion, Jump, Fall and Crouch. Entering Locomotion subscribes a jump
    handler to the input handler's `onJumpPerformed` delegate, and leaving
    Locomotion unsubscribes it.
  - It also has the sprint, walk and strafe flag rules, and the tapped,
    pressed or held classification of movement input.
  - Speed selection picks a target speed by priority. Gait is classified at
    the thresholds halfway between the configured speeds.
  - Delay timers gate head turn, body turn and lean.
  - The per-frame work of the Locomotion, Jump and Fall states is modelled,
    including gravity, the Jump-to-Fall switch and the landing switch back
    to Locomotion.
  - The legacy controller runs the same machine with empty entry and exit
    actions. Only its Locomotion state does per-frame work.
- **Camera rig.** The current `CameraController` covers:
  - the aim-down-sights (ADS) profile table, built from a serialized list;
  - starting and stopping ADS, and the aim handlers;
  - lock-on;
  - the camera-inversion sign set by `Init`;
  - `LateUpdate`, which clamps the pitch to the tilt bounds and eases the
    pitch, yaw, rig position and camera placement towards their targets.
- **Crosshair.** `AdvancedCrosshairSystem` covers:
  - the built-in spread providers and their registration;
  - the clamped spread total;
  - generating the crosshair elements from the segment count and shape;
  - the base transform arrays;
  - choosing the default profile (the last match wins);
  - the resize rule and the state/timer rule.
- **Event manager.** `EventManager` keeps five independent string-keyed
  tables, one per payload type. Each table maps an event name to its
  listener list. `StartListening`, `StopListening` and `TriggerEvent` work on
  these tables, and the lazily located singleton creates them in `Init`.

Each component that updates fields in place is a Dafny `class`. Its methods
are proved against a specification function of the fields taken as one
value, through `State()`. The properties of those functions are proved as
lemmas. Engine work comes into the model as parameters: physics queries,
character-controller moves, quaternion arithmetic, `SmoothDamp`, animation
curves and the input devices. Examples are a `Frame` per player update and
a `CameraFrame` per camera update. C# `float` is modelled as `real`.
`Mathf.Clamp` tests its lower bound first, and `Mathf.Lerp` clamps its
parameter to [0, 1].

Files:

- `unity_math.dfy` (`UnityMath`): `Option`, `Vector3`, `Clamp`, `Lerp`.
- `input_handler.dfy` (`Input`): the input handler's movement-input duration
  and jump-delegate count.
- `locomotion_rules.dfy` (`LocomotionRules`): rules both controllers share
  word for word.
- `player_movement.dfy` (`PlayerMovement`): the current controller.
- `legacy_player_movement.dfy` (`LegacyPlayerMovement`): the legacy
  controller.
- `camera_controller.dfy` (`CameraRig`): the camera rig.
- `crosshair.dfy` (`Crosshair`): the crosshair.
- `event_manager.dfy` (`Events`): the event manager.

## Model

| member | source | states |
|---|---|---|
| Input.InputHandler.constructor | Assets/_FXnRXn/_Scripts/Input/InputHandler.cs:29-33 | A fresh input handler has held no movement input and has no jump handler subscribed. |
| LocomotionRules.NextInputDuration | Assets/_FXnRXn/_Scripts/Player/PlayerMovementController.cs:402-406 | While input continues, the input duration never shrinks. When input stops, the duration drops to 0. |
| LocomotionRules.ClassifyKeepsConsistent | Assets/_FXnRXn/_Scripts/Player/PlayerMovementController.cs:380-410 | One `CalculateInput` step keeps three things true: the duration is non-negative, at most one of tapped, pressed and held is raised, and pressed or held are raised only after time has passed. |
| LocomotionRules.ClassifyMeaning | Assets/_FXnRXn/_Scripts/Player/PlayerMovementController.cs:383-410 | From a consistent state, each flag is set iff its condition holds. Tapped: input with duration 0. Pressed: input with 0 < duration < threshold. Held: input with duration at or above the threshold. With no input, every flag is down. |
| LocomotionRules.HoldingAccumulates | Assets/_FXnRXn/_Scripts/Player/PlayerMovementController.cs:402 | Over any run of frames with continued input, the duration is the starting duration plus the sum of the frame times, and the flags stay consistent. |
| LocomotionRules.HeldPersists | Assets/_FXnRXn/_Scripts/Player/PlayerMovementController.cs:395-400 | Once the input counts as held, it stays held for as long as the input continues. |
| LocomotionRules.TargetSpeedChoice | Assets/_FXnRXn/_Scripts/Player/PlayerMovementController.cs:437-456 | In the air the target speed is the current maximum. On the ground it is one of the walk, run or sprint speeds. Crouching gives walk speed whatever the other flags say, and sprinting without crouching gives sprint speed. With ordered speeds the target lies between walk and sprint speed. |
| LocomotionRules.GaitMonotone | Assets/_FXnRXn/_Scripts/Player/PlayerMovementController.cs:479-500 | A faster speed never gets a lower gait (Idle < Walk < Run < Sprint), for any configured speeds. |
| LocomotionRules.GaitAtConfiguredSpeeds | Assets/_FXnRXn/_Scripts/Player/PlayerMovementController.cs:481-499 | With strictly ordered speeds, moving at exactly the walk, run or sprint speed is classified as that gait. |
| LocomotionRules.GravityStep | Assets/_FXnRXn/_Scripts/Player/PlayerMovementController.cs:426-432 | A vertical velocity at or below gravity's y is left alone. With downward gravity, a non-negative multiplier and a non-negative frame time, the velocity never increases. |
| PlayerMovement.DelayTimer | Assets/_FXnRXn/_Scripts/Player/PlayerMovementController.cs:774-787 | `VariableOverrideDelayTimer` returns a value in [0, 1]. It returns 0 for a timer that is not running and never exceeds a running timer's value. |
| PlayerMovement.TimerRunsOut | Assets/_FXnRXn/_Scripts/Player/PlayerMovementController.cs:774-787 | A timer started in [0, 1] reads `timer - n * deltaTime` after n equal frames, until it bottoms out at 0. So a gate held by the timer reopens exactly when the frames have covered the delay. |
| PlayerMovement.SwitchesKeepOneHandler | Assets/_FXnRXn/_Scripts/Player/PlayerMovementController.cs:256-299 | Start from a subscription count that matches the state. After any sequence of `SwitchState` calls, the state is the last target, with exactly one jump handler if that is Locomotion and none otherwise. |
| PlayerMovement.FromBaseOneHandler | Assets/_FXnRXn/_Scripts/Player/PlayerMovementController.cs:812-850 | Start from Base with no subscription. After any sequence of switches, the jump handler is subscribed once if the state is Locomotion and zero times otherwise. |
| PlayerMovement.EasedVelocityBetween | Assets/_FXnRXn/_Scripts/Player/PlayerMovementController.cs:463-464 | An eased velocity component lands between its old value and the move direction scaled by the maximum speed. |
| PlayerMovement.WalkAndSprint | Assets/_FXnRXn/_Scripts/Player/PlayerMovementController.cs:220-250 | `EnableWalk` grants walking iff it is asked, the character is grounded and not sprinting. `ActivateSprint`, when not crouching, leaves sprinting on and walking and strafing off; when crouching it changes nothing. `DeactivateSprint` clears sprinting and strafes iff strafing is forced, the player aims, or strafing was already on. None of them lets the character walk and sprint at once. |
| PlayerMovement.SwitchFacts | Assets/_FXnRXn/_Scripts/Player/PlayerMovementController.cs:256-299 | A switch lands in its target, counts subscriptions as leave-then-enter does, and keeps the controller invariant. Entering Jump sets the vertical speed to `jumpForce`, keeps x and z, and clears sliding. Entering Fall zeroes the vertical speed, records the fall start at the current time with duration 0, and clears sliding. The input, the walk and sprint flags, the gates and the footwork are untouched. |
| PlayerMovement.SpawnLocomotion | Assets/_FXnRXn/_Scripts/Player/PlayerMovementController.cs:199-212 | From any valid state, spawning leaves the controller in Locomotion with exactly one jump handler, not sprinting, and still valid. |
| PlayerMovement.JumpOnlyFromLocomotion | Assets/_FXnRXn/_Scripts/Player/PlayerMovementController.cs:852-866 | The jump input in Locomotion leads to Jump with `jumpForce` as the vertical speed, no handler left and sliding cleared. In any other state it changes nothing. The invariant holds either way. |
| PlayerMovement.NoFrameEntersJump | Assets/_FXnRXn/_Scripts/Player/PlayerMovementController.cs:304-324 | No per-frame update leads into Jump: a character in Jump after a frame was already in Jump, so the jump handler is the only way in. |
| PlayerMovement.MoveDirectionKeepsInv | Assets/_FXnRXn/_Scripts/Player/PlayerMovementController.cs:434-476 | `CalculateMoveDirection` keeps the invariant. It changes only the input flags, the input duration and the motion, and leaves the vertical velocity alone. |
| PlayerMovement.FrameKeepsInv | Assets/_FXnRXn/_Scripts/Player/PlayerMovementController.cs:304-324 | Every frame, in every state, keeps the invariant: one jump handler in Locomotion and none elsewhere, input flags consistent with the duration, and never walking and sprinting at once. |
| PlayerMovement.LocomotionKeepsInv | Assets/_FXnRXn/_Scripts/Player/PlayerMovementController.cs:817-845 | A Locomotion frame keeps the invariant. |
| PlayerMovement.JumpKeepsInv | Assets/_FXnRXn/_Scripts/Player/PlayerMovementController.cs:868-885 | A Jump frame, including its switch to Fall, keeps the invariant. |
| PlayerMovement.FallKeepsInv | Assets/_FXnRXn/_Scripts/Player/PlayerMovementController.cs:905-923 | A Fall frame, including its landing switch, keeps the invariant. |
| PlayerMovement.LocomotionAndInertStates | Assets/_FXnRXn/_Scripts/Player/PlayerMovementController.cs:311-324 | A Locomotion frame stays in Locomotion with the same subscriptions. Base and Crouch frames change nothing at all. |
| PlayerMovement.JumpTurnsIntoFall | Assets/_FXnRXn/_Scripts/Player/PlayerMovementController.cs:868-875 | In Jump, apply this frame's gravity step to the vertical speed. The frame switches to Fall iff the result is at most 0. The fall then starts at the frame's time with no vertical speed and sliding cleared; otherwise the jump keeps the new speed. |
| PlayerMovement.FallLands | Assets/_FXnRXn/_Scripts/Player/PlayerMovementController.cs:905-923 | A Fall frame returns to Locomotion iff the character controller reports ground, with the jump handler subscribed again. The fall start is kept, and the falling duration is the time since it. |
| PlayerMovement.GatesWaitForStart | Assets/_FXnRXn/_Scripts/Player/PlayerMovementController.cs:665-677 | In a Locomotion frame, head turn is enabled iff its timer has run out and no start is under way. Body turn and lean are enabled iff their timer has run out and the character is neither starting nor turning in place. |
| PlayerMovement.StartShutsGates | Assets/_FXnRXn/_Scripts/Player/PlayerMovementController.cs:588-623 | A Locomotion frame that leaves the character starting keeps the head, body and lean gates shut on the next frame. |
| PlayerMovement.MaxSpeedEases | Assets/_FXnRXn/_Scripts/Player/PlayerMovementController.cs:458 | The maximum speed moves towards the target without overshooting it. In the air it stays put. |
| PlayerMovement.VelocityEases | Assets/_FXnRXn/_Scripts/Player/PlayerMovementController.cs:460-464 | Each horizontal velocity component moves towards the move direction times the new maximum speed without overshooting it. The vertical component is untouched. |
| PlayerMovement.MaxSpeedStaysInRange | Assets/_FXnRXn/_Scripts/Player/PlayerMovementController.cs:437-458 | With ordered speeds, a maximum speed between walk and sprint speed stays there after a frame, on the ground and in the air. |
| PlayerMovement.PlayerMovementController.constructor | Assets/_FXnRXn/_Scripts/Player/PlayerMovementController.cs:90-173 | A loaded controller is in Base, grounded and stopped, with its turn gates open and every other field false or zero. With a fresh input handler it satisfies the invariant. |
| PlayerMovement.PlayerMovementController.Start | Assets/_FXnRXn/_Scripts/Player/PlayerMovementController.cs:192-196 | Strafing becomes `alwaysStrafe`. Nothing else changes, and the invariant holds. |
| PlayerMovement.PlayerMovementController.OnNetworkSpawn | Assets/_FXnRXn/_Scripts/Player/PlayerMovementController.cs:199-212 | The new state is the spawn step: switch to Locomotion, then leave sprint. The invariant is kept. |
| PlayerMovement.PlayerMovementController.EnableWalk | Assets/_FXnRXn/_Scripts/Player/PlayerMovementController.cs:224-227 | Only the walk flag changes, as `WalkAndSprint` characterises. |
| PlayerMovement.PlayerMovementController.ToggleWalk | Assets/_FXnRXn/_Scripts/Player/PlayerMovementController.cs:220-223 | The walk flag is requested as the opposite of its old value. It is granted only on the ground and not while sprinting. |
| PlayerMovement.PlayerMovementController.ActivateSprint | Assets/_FXnRXn/_Scripts/Player/PlayerMovementController.cs:233-241 | Only the stance changes, as `SprintOn` gives it. It ignores the request while crouching. |
| PlayerMovement.PlayerMovementController.DeactivateSprint | Assets/_FXnRXn/_Scripts/Player/PlayerMovementController.cs:242-250 | Only the sprint and strafe flags change, as `SprintOff` gives them. |
| PlayerMovement.PlayerMovementController.EnterLocomotionState | Assets/_FXnRXn/_Scripts/Player/PlayerMovementController.cs:812-815 | The jump handler is subscribed once more. Nothing else changes. |
| PlayerMovement.PlayerMovementController.ExitLocomotionState | Assets/_FXnRXn/_Scripts/Player/PlayerMovementController.cs:847-850 | One subscription is removed. Removing from an empty delegate changes nothing. |
| PlayerMovement.PlayerMovementController.EnterJumpState | Assets/_FXnRXn/_Scripts/Player/PlayerMovementController.cs:861-866 | The vertical speed becomes `jumpForce`, the horizontal speed is kept and sliding is cleared. Nothing else changes. |
| PlayerMovement.PlayerMovementController.ResetFallingDuration | Assets/_FXnRXn/_Scripts/Player/PlayerMovementController.cs:793-797 | The fall starts at the given time with duration 0. |
| PlayerMovement.PlayerMovementController.UpdateFallingDuration | Assets/_FXnRXn/_Scripts/Player/PlayerMovementController.cs:799-802 | The falling duration becomes the time since the fall started. |
| PlayerMovement.PlayerMovementController.EnterFallState | Assets/_FXnRXn/_Scripts/Player/PlayerMovementController.cs:896-903 | The fall clock restarts now, the vertical speed is zeroed and sliding is cleared. Nothing else changes. |
| PlayerMovement.PlayerMovementController.EnterState | Assets/_FXnRXn/_Scripts/Player/PlayerMovementController.cs:262-283 | The state becomes the target and the target's entry action runs. Base and Crouch have none that the model tracks. |
| PlayerMovement.PlayerMovementController.ExitCurrentState | Assets/_FXnRXn/_Scripts/Player/PlayerMovementController.cs:285-299 | Leaving Locomotion drops one jump subscription. Leaving any other state changes nothing. |
| PlayerMovement.PlayerMovementController.SwitchState | Assets/_FXnRXn/_Scripts/Player/PlayerMovementController.cs:256-260 | The new state is the exit-then-enter step, whose effects `SwitchFacts` states. |
| PlayerMovement.PlayerMovementController.LocomotionToJumpState | Assets/_FXnRXn/_Scripts/Player/PlayerMovementController.cs:852-855 | The controller switches to Jump. |
| PlayerMovement.PlayerMovementController.JumpPerformed | Assets/_FXnRXn/_Scripts/Input/InputHandler.cs:80-82 | The jump input runs the subscribed handler, if any. From a valid state the result is `JumpOnlyFromLocomotion`'s, and the invariant is kept. |
| PlayerMovement.PlayerMovementController.GroundedCheck | Assets/_FXnRXn/_Scripts/Player/PlayerMovementController.cs:639-650 | The grounded flag takes the ground sphere's verdict. Nothing else changes. |
| PlayerMovement.PlayerMovementController.ApplyGravity | Assets/_FXnRXn/_Scripts/Player/PlayerMovementController.cs:426-432 | Only the vertical velocity changes, by the gravity step. |
| PlayerMovement.PlayerMovementController.CalculateInput | Assets/_FXnRXn/_Scripts/Player/PlayerMovementController.cs:380-410 | The flags and duration become the classification of this frame, as `ClassifyMeaning` characterises it. |
| PlayerMovement.PlayerMovementController.CalculateMovementState | Assets/_FXnRXn/_Scripts/Player/PlayerMovementController.cs:479-500 | Only the gait changes, to the class of the current speed, which `GaitMonotone` orders. |
| PlayerMovement.PlayerMovementController.CalculateMoveDirection | Assets/_FXnRXn/_Scripts/Player/PlayerMovementController.cs:434-476 | In order: classify the input, choose the target speed, ease the maximum speed and the horizontal velocity, take the measured speed and classify the gait. `MaxSpeedEases`, `VelocityEases` and `MoveDirectionKeepsInv` state what this guarantees. |
| PlayerMovement.PlayerMovementController.CheckIfStopped | Assets/_FXnRXn/_Scripts/Player/PlayerMovementController.cs:582-585 | The character counts as stopped iff there is no move direction and the horizontal speed is under 0.5. |
| PlayerMovement.PlayerMovementController.CheckIfStarting | Assets/_FXnRXn/_Scripts/Player/PlayerMovementController.cs:588-623 | The start timer counts down. Once it has run out, a slow, non-strafing move begins a start: it sets the lean, head, body and start timers to 0.2, and records the direction only if no start was under way. While the timer runs, the character counts as starting. |
| PlayerMovement.PlayerMovementController.CheckEnableTurns | Assets/_FXnRXn/_Scripts/Player/PlayerMovementController.cs:665-671 | The head and body timers count down. Each gate opens only at zero delay, and the body gate also not while starting or turning in place. |
| PlayerMovement.PlayerMovementController.CheckEnableLean | Assets/_FXnRXn/_Scripts/Player/PlayerMovementController.cs:673-677 | The lean timer counts down. Lean is enabled only at zero delay while neither starting nor turning in place. |
| PlayerMovement.PlayerMovementController.FaceMoveDirection | Assets/_FXnRXn/_Scripts/Player/PlayerMovementController.cs:515-562 | The character turns in place iff it strafes without moving and the camera offset is beyond the turn limit. |
| PlayerMovement.PlayerMovementController.UpdateLocomotionState | Assets/_FXnRXn/_Scripts/Player/PlayerMovementController.cs:817-845 | The new state is the Locomotion frame, which `LocomotionKeepsInv` and `GatesWaitForStart` characterise. |
| PlayerMovement.PlayerMovementController.UpdateJumpState | Assets/_FXnRXn/_Scripts/Player/PlayerMovementController.cs:868-885 | The new state is the Jump frame, which `JumpTurnsIntoFall` characterises. |
| PlayerMovement.PlayerMovementController.UpdateFallState | Assets/_FXnRXn/_Scripts/Player/PlayerMovementController.cs:905-923 | The new state is the Fall frame, which `FallLands` characterises. |
| PlayerMovement.PlayerMovementController.Update | Assets/_FXnRXn/_Scripts/Player/PlayerMovementController.cs:304-324 | The current state's frame runs, and the controller invariant holds after every frame. |
| LegacyPlayerMovement.StartAndSwitch | Assets/FXnRXn/_Scripts/Player/PlayerMovementController.cs:121-167 | `Start` always ends in Locomotion with strafing equal to `alwaysStrafe`. Nothing else changes, including every other stance flag. `SwitchState(s)` leaves the state `s` and changes nothing else. |
| LegacyPlayerMovement.FramesStayPut | Assets/FXnRXn/_Scripts/Player/PlayerMovementController.cs:187-202 | Only Locomotion does per-frame work: Base, Jump, Fall and Crouch frames change nothing. No frame changes the state, and every frame keeps the input flags consistent. |
| LegacyPlayerMovement.AgreesWithCurrent | Assets/FXnRXn/_Scripts/Player/PlayerMovementController.cs:223-343 | Start the legacy and current Locomotion frames from the same fields. They agree on the input classification and duration, the speeds, the horizontal velocity, the gait, the stopped verdict and the turning-in-place verdict. So the legacy controller obeys the same classification, speed-priority, gait and stop rules. |
| LegacyPlayerMovement.PlayerMovementController.constructor | Assets/FXnRXn/_Scripts/Player/PlayerMovementController.cs:48-112 | A loaded legacy controller is in Base, stopped and grounded, with every other field false or zero. |
| LegacyPlayerMovement.PlayerMovementController.Start | Assets/FXnRXn/_Scripts/Player/PlayerMovementController.cs:121-127 | The new state is `Started`: strafe as configured, then Locomotion. |
| LegacyPlayerMovement.PlayerMovementController.SwitchState | Assets/FXnRXn/_Scripts/Player/PlayerMovementController.cs:142-146 | Only the state changes, to the target. |
| LegacyPlayerMovement.PlayerMovementController.EnterState | Assets/FXnRXn/_Scripts/Player/PlayerMovementController.cs:148-167 | Only the state changes, to the target. The entry actions are empty. |
| LegacyPlayerMovement.PlayerMovementController.ExitCurrentState | Assets/FXnRXn/_Scripts/Player/PlayerMovementController.cs:169-182 | Nothing changes. |
| LegacyPlayerMovement.PlayerMovementController.LocomotionToJumpState | Assets/FXnRXn/_Scripts/Player/PlayerMovementController.cs:512-515 | Only the state changes, to Jump. |
| LegacyPlayerMovement.PlayerMovementController.CalculateInput | Assets/FXnRXn/_Scripts/Player/PlayerMovementController.cs:223-253 | The flags and duration become the shared classification, as `ClassifyMeaning` characterises it. |
| LegacyPlayerMovement.PlayerMovementController.ApplyGravity | Assets/FXnRXn/_Scripts/Player/PlayerMovementController.cs:269-275 | Only the vertical velocity changes, by the gravity step that `GravityStep`'s contract bounds. |
| LegacyPlayerMovement.PlayerMovementController.CalculateMovementState | Assets/FXnRXn/_Scripts/Player/PlayerMovementController.cs:322-343 | Only the gait changes, by the shared thresholds. |
| LegacyPlayerMovement.PlayerMovementController.CalculateMoveDirection | Assets/FXnRXn/_Scripts/Player/PlayerMovementController.cs:277-318 | Classify the input, then apply the current controller's speed-priority, easing and gait rules. |
| LegacyPlayerMovement.PlayerMovementController.CheckIfStopped | Assets/FXnRXn/_Scripts/Player/PlayerMovementController.cs:424-427 | The character counts as stopped iff there is no move direction and the horizontal speed is under 0.5. |
| LegacyPlayerMovement.PlayerMovementController.FaceMoveDirection | Assets/FXnRXn/_Scripts/Player/PlayerMovementController.cs:358-405 | The character turns in place iff it strafes without moving and the camera offset is beyond the turn limit. |
| LegacyPlayerMovement.PlayerMovementController.UpdateLocomotionState | Assets/FXnRXn/_Scripts/Player/PlayerMovementController.cs:482-505 | The new state is the legacy Locomotion frame: ground check, move direction, stop check, turning verdict. |
| LegacyPlayerMovement.PlayerMovementController.Update | Assets/FXnRXn/_Scripts/Player/PlayerMovementController.cs:187-202 | The state's frame runs, and only Locomotion has one. |
| CameraRig.AddAllMeaning | Assets/_FXnRXn/_Scripts/Camera/CameraController.cs:84-87 | The table build completes iff every entry is non-null, no two share a weapon type and none is already present. It never overwrites an existing key. When it completes, the keys are the old ones plus the listed types, and each listed type maps to its own profile. |
| CameraRig.AimWithCases | Assets/_FXnRXn/_Scripts/Camera/CameraController.cs:215-233 | `StartAimDownSights` never changes the aiming flag. An unknown weapon type changes nothing. A registered non-null profile's position offset, rotation offset and sensitivity multiplier are copied. A registered entry that reads null resets to zero offsets and multiplier 1. |
| CameraRig.AimToggles | Assets/_FXnRXn/_Scripts/Camera/CameraController.cs:235-251 | After `EnableAim` the camera aims, with the Rifle profile's values when one is registered and its old values when Rifle is unregistered. Stopping leads to the not-aiming state: no aiming, zero offsets and multiplier 1. |
| CameraRig.AimedPlacement | Assets/_FXnRXn/_Scripts/Camera/CameraController.cs:180-189 | After `StopAimDownSights` or `DisableAim` the camera heads for its base placement and tilt. After `EnableAim` with a registered Rifle profile, it heads for the base placement moved by that profile's camera offset and turned by its rotation offset. With a null Rifle entry it heads for the base placement. Starting ADS without aiming never moves it. |
| CameraRig.CameraApproaches | Assets/_FXnRXn/_Scripts/Camera/CameraController.cs:192-194 | For a transition parameter t = `adsTransitionSpeed * deltaTime` in [0, 1], what remains between the camera and its target placement after a frame is the old distance scaled by 1 − t. This holds for the position and for the angles, so the camera closes on the placement the aim state selects. |
| CameraRig.PitchStaysInBounds | Assets/_FXnRXn/_Scripts/Camera/CameraController.cs:153-155 | If the last pitch lies within the tilt bounds, the new pitch does too, whatever the look input, lag or frame time. |
| CameraRig.FollowFacts | Assets/_FXnRXn/_Scripts/Camera/CameraController.cs:157-199 | After a followed frame, the last angles and position equal the new ones. While locked on, the yaw is the lock-on rotation's. With no effective positional lag, the rig sits on the target. |
| CameraRig.CameraSettles | Assets/_FXnRXn/_Scripts/Camera/CameraController.cs:192-194 | A transition fast enough for one frame puts the camera exactly on its aimed or unaimed placement. |
| CameraRig.InversionSteersPitch | Assets/_FXnRXn/_Scripts/Camera/CameraController.cs:132-153 | With the sign `Init` stores, upward look input at a positive sensitivity turns the pitch up iff `invertCamera` is set. The clamped pitch `LateUpdate` heads for then does not fall below the previous pitch; without inversion it does not rise above it. |
| CameraRig.LateUpdateFacts | Assets/_FXnRXn/_Scripts/Camera/CameraController.cs:145-212 | With the input reader, player target or lock-on target missing, `LateUpdate` changes nothing. It only ever changes the pose, and it keeps the pitch within bounds. `LockOn` always sets the lock flag but replaces the target only with a non-null one, so a target, once set, never becomes null. |
| CameraRig.CameraController.constructor | Assets/_FXnRXn/_Scripts/Camera/CameraController.cs:27-61 | A loaded camera has an empty ADS table, is not aiming, has no input reader and no subscriptions, and starts from a zero pose. |
| CameraRig.CameraController.OnNetworkSpawn | Assets/_FXnRXn/_Scripts/Camera/CameraController.cs:82-107 | The table becomes the `AddAll` build of the serialized list, which `AddAllMeaning` characterises. The method completes iff the build does. Only then does it pick up an existing input handler and subscribe the aim handlers. |
| CameraRig.CameraController.OnNetworkDespawn | Assets/_FXnRXn/_Scripts/Camera/CameraController.cs:109-116 | With an input reader, one aim subscription is removed (none when there is none). Nothing else changes. |
| CameraRig.CameraController.Init | Assets/_FXnRXn/_Scripts/Camera/CameraController.cs:119-140 | The targets and inversion sign are always set. With a player target, the rig's last position becomes the target's, and the camera takes its base local position and tilt. A null target stops the method with an error after the targets and sign are set. |
| CameraRig.CameraController.LateUpdate | Assets/_FXnRXn/_Scripts/Camera/CameraController.cs:143-201 | The new state is `LateUpdated`: the guarded follow step, which `LateUpdateFacts`, `PitchStaysInBounds`, `FollowFacts` and `CameraSettles` characterise. |
| CameraRig.CameraController.LockOn | Assets/_FXnRXn/_Scripts/Camera/CameraController.cs:205-212 | The lock flag follows `enable`. The target is replaced only by a non-null one. Nothing else changes. |
| CameraRig.CameraController.StartAimDownSights | Assets/_FXnRXn/_Scripts/Camera/CameraController.cs:215-233 | Only the ADS offsets and multiplier change, by the three cases of `AimWithCases`. |
| CameraRig.CameraController.StopAimDownSights | Assets/_FXnRXn/_Scripts/Camera/CameraController.cs:235-241 | The camera ends in the not-aiming state, with zero offsets and multiplier 1. Nothing else changes. |
| CameraRig.CameraController.EnableAim | Assets/_FXnRXn/_Scripts/Camera/CameraController.cs:242-246 | The camera aims with the Rifle profile, as `AimToggles` characterises. |
| CameraRig.CameraController.DisableAim | Assets/_FXnRXn/_Scripts/Camera/CameraController.cs:247-251 | The camera ends in the same state as after `StopAimDownSights`. |
| Crosshair.RegisteredSpread | Assets/_FXnRXn/_Scripts/Weapon/Crosshair/AdvancedCrosshairSystem.cs:18-30 | Registering for Moving adds 5 to the total spread while a stick moves and nothing otherwise, so the spread `Start` registers from no providers is 5 or 0. Registering for Shooting adds 3, and Default adds nothing. |
| Crosshair.ProviderBounds | Assets/_FXnRXn/_Scripts/Weapon/Crosshair/AdvancedCrosshairSystem.cs:18-30 | A provider's current spread is non-negative, at most its impulse spread (10 or 15), and below its maximum (20 or 30). |
| Crosshair.RegisteredAppends | Assets/_FXnRXn/_Scripts/Weapon/Crosshair/AdvancedCrosshairSystem.cs:224-243 | Registering keeps the existing providers as a prefix. Shooting appends exactly one shooting provider and Moving exactly one movement provider, whose spread joins the total. Default and Hit add nothing. |
| Crosshair.TotalSpreadBounds | Assets/_FXnRXn/_Scripts/Weapon/Crosshair/AdvancedCrosshairSystem.cs:367-371 | The summed spread of built-in providers lies between 0 and 5 per provider. |
| Crosshair.ClampedSpread | Assets/_FXnRXn/_Scripts/Weapon/Crosshair/AdvancedCrosshairSystem.cs:372 | The clamped spread lies in [0, maxSize]. It is the total when the total is in range, and maxSize when the total is above. |
| Crosshair.PrimarySize | Assets/_FXnRXn/_Scripts/Weapon/Crosshair/AdvancedCrosshairSystem.cs:297 | The corrected primary size shares the crosshair size exactly between the drawn profile's segments (size times segments gives the crosshair size back), and is positive for a positive size. |
| Crosshair.OneOver | Assets/_FXnRXn/_Scripts/Weapon/Crosshair/AdvancedCrosshairSystem.cs:297 | C#'s integer `1 / n` truncates towards zero. It is non-zero iff n is 1 or -1. |
| Crosshair.PrimarySizeAsWritten | Assets/_FXnRXn/_Scripts/Weapon/Crosshair/AdvancedCrosshairSystem.cs:297 | As written, the size throws iff the default profile has 0 segments. It is the full crosshair size for exactly 1 segment, and 0 for more than 1. |
| Crosshair.IntegerDivisionVanishes | Assets/_FXnRXn/_Scripts/Weapon/Crosshair/AdvancedCrosshairSystem.cs:297 | With more than one segment, every primary element as written has size 0 where the shared size is positive. For example, 8 segments of size 10 give 0 instead of 1.25. |
| Crosshair.DefaultDivisorThrows | Assets/_FXnRXn/_Scripts/Weapon/Crosshair/AdvancedCrosshairSystem.cs:297 | A default profile without segments makes the size throw, even when the drawn profile has 4 segments and each could take a quarter. |
| Crosshair.Ring | Assets/_FXnRXn/_Scripts/Weapon/Crosshair/AdvancedCrosshairSystem.cs:257-266 | The first n segments give exactly n primary elements of the given size, element i on segment i. |
| Crosshair.ElementCount | Assets/_FXnRXn/_Scripts/Weapon/Crosshair/AdvancedCrosshairSystem.cs:257-308 | As written, drawing gives no elements for Classic or a profile without segments. Otherwise there is one element per segment, each on its own segment with no rotation and the as-written size: 0 whenever the default profile has more than one segment. Drawing throws iff there are elements to draw and the default profile has no segments, and then lists nothing. Dots exist only for DotCircle, one per listed element. |
| Crosshair.DefaultDrawing | Assets/_FXnRXn/_Scripts/Weapon/Crosshair/AdvancedCrosshairSystem.cs:122-128 | `Start` draws the default profile by its own segment count, so it never throws. A single segment gets the full crosshair size, and with more than one segment every element has size 0. |
| Crosshair.IntendedElementCount | Assets/_FXnRXn/_Scripts/Weapon/Crosshair/AdvancedCrosshairSystem.cs:297 | With the shared size, each of the segments' elements gets an equal share: size times segment count gives the crosshair size back, and a positive crosshair size gives positive, square elements. It never throws. |
| Crosshair.DrawnVersusIntended | Assets/_FXnRXn/_Scripts/Weapon/Crosshair/AdvancedCrosshairSystem.cs:288-308 | For a profile drawn by its own segment count with a positive size, the as-written and intended drawings have the same number of elements, the same positions, rotations and dots. They are equal iff there is a single segment. |
| Crosshair.Resized | Assets/_FXnRXn/_Scripts/Weapon/Crosshair/AdvancedCrosshairSystem.cs:380-403 | Resizing keeps the element count, positions and rotations. It leaves the elements as they are unless the shape is Circle or DotCircle. |
| Crosshair.ZeroSpreadRestores | Assets/_FXnRXn/_Scripts/Weapon/Crosshair/AdvancedCrosshairSystem.cs:387-397 | With zero evaluated spread, every resized element gets exactly its base scale. |
| Crosshair.LastMatch | Assets/_FXnRXn/_Scripts/Weapon/Crosshair/AdvancedCrosshairSystem.cs:144-167 | The index found is the last profile of the shape. None is found iff no profile has the shape. |
| Crosshair.AssignedMeaning | Assets/_FXnRXn/_Scripts/Weapon/Crosshair/AdvancedCrosshairSystem.cs:137-222 | For any shape but Classic with a matching profile, the default profile becomes the last listed profile of that shape. It is left unchanged for Classic or when no profile matches. Assigning twice is assigning once. |
| Crosshair.SetStateIdempotent | Assets/_FXnRXn/_Scripts/Weapon/Crosshair/AdvancedCrosshairSystem.cs:421-428 | After `SetState` the state is the new one. The animation timer resets only when the state actually changed, so repeating the call changes nothing. |
| Crosshair.AdvancedCrosshairSystem.constructor | Assets/_FXnRXn/_Scripts/Weapon/Crosshair/AdvancedCrosshairSystem.cs:81-101 | A loaded system has no elements, no providers, zero spread, state Default, and base arrays matching the empty element list. |
| Crosshair.AdvancedCrosshairSystem.Awake | Assets/_FXnRXn/_Scripts/Weapon/Crosshair/AdvancedCrosshairSystem.cs:68-120 | Only the default profile changes, to the assignment for the target shape. |
| Crosshair.AdvancedCrosshairSystem.Start | Assets/_FXnRXn/_Scripts/Weapon/Crosshair/AdvancedCrosshairSystem.cs:122-128 | The system draws the default profile as written, which `DefaultDrawing` characterises, and registers one movement provider. It enters Moving, resetting the timer only if it was not already Moving. The base arrays are fresh, as long as the element list, and hold each drawn element's position, size and rotation at its index. |
| Crosshair.AdvancedCrosshairSystem.Update | Assets/_FXnRXn/_Scripts/Weapon/Crosshair/AdvancedCrosshairSystem.cs:130-134 | The spread state and the resized elements change, as `UpdateCrosshairState` and `UpdateVisuals` give them. The base arrays and their contents are untouched, so every frame resizes from the same base scales. |
| Crosshair.AdvancedCrosshairSystem.AssignCrosshairShapeDefaultData | Assets/_FXnRXn/_Scripts/Weapon/Crosshair/AdvancedCrosshairSystem.cs:137-222 | The loop leaves the default profile as `Assigned` gives it, which `AssignedMeaning` characterises: the last match wins. Nothing else changes. |
| Crosshair.AdvancedCrosshairSystem.RegisterCoreProviders | Assets/_FXnRXn/_Scripts/Weapon/Crosshair/AdvancedCrosshairSystem.cs:224-243 | Only the provider list changes, as `RegisteredAppends` characterises. |
| Crosshair.AdvancedCrosshairSystem.GenerateCrosshair | Assets/_FXnRXn/_Scripts/Weapon/Crosshair/AdvancedCrosshairSystem.cs:246-252 | The list is cleared and becomes the as-written drawing of the profile, with the default profile's segment count as divisor. It returns ok iff the drawing does not throw. When it completes, fresh base arrays copy the elements index by index. When it throws, the list stays empty and the base arrays stay as they were. |
| Crosshair.AdvancedCrosshairSystem.CreateCrosshair | Assets/_FXnRXn/_Scripts/Weapon/Crosshair/AdvancedCrosshairSystem.cs:257-266 | The current profile's as-written elements are appended and its dots counted. It stops with ok false at the first element when the default profile has no segments. |
| Crosshair.AdvancedCrosshairSystem.CreateCrosshairElement | Assets/_FXnRXn/_Scripts/Weapon/Crosshair/AdvancedCrosshairSystem.cs:267-285 | Every shape except Classic appends the segment's primary element at the as-written size. DotCircle then makes one unlisted dot. When the size throws, nothing is appended, no dot is made and ok is false. |
| Crosshair.AdvancedCrosshairSystem.CreatePrimaryCrosshair | Assets/_FXnRXn/_Scripts/Weapon/Crosshair/AdvancedCrosshairSystem.cs:288-308 | One element is appended on the segment's point of the ring, sized `crosshairSize * (1 / defaultProfile.crosshairSegments)` with integer division. A default profile without segments throws (ok false) and appends nothing. |
| Crosshair.AdvancedCrosshairSystem.CreateSecondaryCrosshair | Assets/_FXnRXn/_Scripts/Weapon/Crosshair/AdvancedCrosshairSystem.cs:310-326 | A dot is made but not added to the element list. |
| Crosshair.AdvancedCrosshairSystem.ClearCrosshair | Assets/_FXnRXn/_Scripts/Weapon/Crosshair/AdvancedCrosshairSystem.cs:327-334 | The element list becomes empty. Nothing else changes. |
| Crosshair.AdvancedCrosshairSystem.StoreBaseTransforms | Assets/_FXnRXn/_Scripts/Weapon/Crosshair/AdvancedCrosshairSystem.cs:336-348 | Three fresh arrays, exactly as long as the element list, hold each element's position, size and rotation at its index. |
| Crosshair.AdvancedCrosshairSystem.UpdateCrosshairState | Assets/_FXnRXn/_Scripts/Weapon/Crosshair/AdvancedCrosshairSystem.cs:354-363 | The target spread is the clamped provider total. The current spread is the smoothed value clamped into [0, maxSize]. |
| Crosshair.AdvancedCrosshairSystem.CalculateSpread | Assets/_FXnRXn/_Scripts/Weapon/Crosshair/AdvancedCrosshairSystem.cs:365-373 | The accumulator loop returns the providers' summed spread clamped to [0, maxSize], without changing anything. |
| Crosshair.AdvancedCrosshairSystem.UpdateVisuals | Assets/_FXnRXn/_Scripts/Weapon/Crosshair/AdvancedCrosshairSystem.cs:380-419 | Circle and DotCircle elements take their base scale grown by the evaluated spread. Other shapes are untouched. Only the element sizes change. |
| Crosshair.AdvancedCrosshairSystem.SetState | Assets/_FXnRXn/_Scripts/Weapon/Crosshair/AdvancedCrosshairSystem.cs:421-428 | Only the state and timer change, as `SetStateIdempotent` characterises. |
| Events.Without | Assets/_FXnRXn/_Scripts/Utility/EventManager.cs:98 | Removing a listener drops every registration of it and keeps every registration of every other listener, as often as it occurs. A list without it is unchanged. |
| Events.WithoutAppended | Assets/_FXnRXn/_Scripts/Utility/EventManager.cs:82-98 | Removing a listener from a list with one more listener appended gives the old list without it, plus the appended one unless it is the removed listener. Removing twice is removing once. |
| Events.TriggerSeesListeners | Assets/_FXnRXn/_Scripts/Utility/EventManager.cs:77-109 | After `StartListening`, triggering the name calls every earlier listener in order and then the new one, with the payload. After `StopListening`, no call for that name goes to the removed listener. Other names trigger exactly as before. |
| Events.ListenedMeaning | Assets/_FXnRXn/_Scripts/Utility/EventManager.cs:77-90 | After `StartListening` the name is present, with the listener appended to its old list (or an empty one), and every other name is unchanged. |
| Events.UnlistenedMeaning | Assets/_FXnRXn/_Scripts/Utility/EventManager.cs:92-100 | `StopListening` never adds or removes a name. It changes nothing on an unknown name, leaves no registration of the listener on a known one while keeping all others, and touches no other name. |
| Events.StartThenStop | Assets/_FXnRXn/_Scripts/Utility/EventManager.cs:77-100 | Starting and then stopping the same listener keeps the name. On a fresh name its list is empty, and on an existing name the result is as if the listener had just been removed. |
| Events.Dictionaries.Set | Assets/_FXnRXn/_Scripts/Utility/EventManager.cs:10-14 | Replacing one payload type's dictionary leaves the other four unchanged. |
| Events.InitMeaning | Assets/_FXnRXn/_Scripts/Utility/EventManager.cs:41-67 | `Init` leaves all five dictionaries present. It never replaces an existing one, creates only the missing ones empty, and is idempotent. |
| Events.Instanced | Assets/_FXnRXn/_Scripts/Utility/EventManager.cs:18-38 | The instance getter locates a manager iff one was already located or the scene holds one. Locating keeps the manager valid. |
| Events.StartIsIndependent | Assets/_FXnRXn/_Scripts/Utility/EventManager.cs:77-90 | Starting changes nothing when no manager exists. Otherwise it appends to its own dictionary's entry and leaves every other existing dictionary unchanged. |
| Events.StopIsIndependent | Assets/_FXnRXn/_Scripts/Utility/EventManager.cs:92-100 | Stopping touches no other dictionary and keeps the manager valid. Without a located manager, or on an unknown name, it changes nothing. Otherwise its own dictionary's entry loses every registration of the listener. |
| Events.EventManager.constructor | Assets/_FXnRXn/_Scripts/Utility/EventManager.cs:10-16 | A scene starts with no manager located and every dictionary null. |
| Events.EventManager.Init | Assets/_FXnRXn/_Scripts/Utility/EventManager.cs:41-67 | The dictionaries become `Initialised`, which `InitMeaning` characterises. |
| Events.EventManager.Instance | Assets/_FXnRXn/_Scripts/Utility/EventManager.cs:18-38 | The getter's result is non-null iff a manager is located afterwards. The state becomes `Instanced`. |
| Events.EventManager.StartListening | Assets/_FXnRXn/_Scripts/Utility/EventManager.cs:77-90 | The state becomes `StartedListening`, which `StartIsIndependent` characterises. The call fails iff no manager can be located. |
| Events.EventManager.StopListening | Assets/_FXnRXn/_Scripts/Utility/EventManager.cs:92-100 | The state becomes `StoppedListening`, which `StopIsIndependent` characterises. |
| Events.EventManager.TriggerEvent | Assets/_FXnRXn/_Scripts/Utility/EventManager.cs:102-109 | The calls made are exactly `Invocations` on the payload type's dictionary, so each listener of the name is called once, in order. Triggering registers and removes nothing: the state only goes through the instance getter. The call fails iff no manager can be located. |

## Left out

- Netcode is not modelled: the `SyncMove` RPCs, the `IsOwner` and `IsClient` checks, the camera activation in the camera's `OnNetworkSpawn`, and ClientNetworkTransform.cs. They belong to a third-party transport.
- The player controller's own call of the camera's `Init` during `OnNetworkSpawn` is not composed with the camera model. The two components are modelled separately.
- Physics is not modelled.
  - The ground sphere test and `CharacterController.isGrounded` enter as booleans of the frame.
  - `CharacterController.Move` is left out.
  - The legacy `GroundedCheck` reads x where y is meant. Its verdict enters as the same boolean.
- The vector and quaternion work is left out:
  - the move direction built from the camera's axes, the horizontal speed's magnitude and 3-decimal rounding, and the signed direction angle;
  - the rotations, strafe directions, shuffle values and `forwardStrafe` smoothing of `FaceMoveDirection`;
  - the camera-offset lerp, whose "beyond 10 degrees" verdict enters as a boolean.
- Animator pushes are left out: `UpdateAnimatorController`, every `SetBool`/`SetFloat`, `CalculateRotationalAdditives` and `CalculateSmoothedValue`. `ExitJumpState` only resets an animator flag, so it is modelled as changing nothing.
- `EnterBaseState` only samples the transform's forward vector and is not modelled. The legacy `Init` and both controllers' `Awake` are engine lookups and singleton bookkeeping.
- Floats are modelled as reals: there is no rounding, NaN or infinity. A camera lag of 0 divides by zero. The model treats the resulting infinite follow speed as snapping to the target, and does not model 0 × infinity = NaN when the frame time is also 0.
- `CameraRig.CameraController.Init` and `CameraRig.CameraController.LateUpdate` assume `mainCamera` is left unassigned in the inspector, so `Awake` (CameraController.cs:69-73) sets `gameCamera` to the rig's first child. With a camera assigned there, `gameCamera` stays null and the model does not capture what follows:
  - `Init` throws at line 138, after setting the targets, the sign, the rig position and `lastPosition`.
  - Every `LateUpdate` then updates the new angles, position and rig (lines 153-174) and throws at line 192, before lines 197-199 store the last position and angles. Each frame therefore eases from stale last values.
- Camera parts not modelled:
  - `Awake` and cursor hiding;
  - the `mainCharacter` assignment, where a null player with no character set would throw first;
  - the rig's rotation copy in `Init`;
  - Unity's normalisation of `localEulerAngles` into [0, 360);
  - the getters at the end of the file.
- The lock-on yaw comes from quaternion interpolation and enters as a number of the frame. `currentAdsSensitivityMultiplier` is kept but nothing in the source reads it.
- A destroyed ADS asset reads as null to Unity even though its dictionary entry exists. The table models such entries as `None`.
- Crosshair parts not modelled:
  - GameObject creation, `Destroy`, sprites and colours;
  - the secondary dots' size and position, which are counted but never listed;
  - the cosine and sine of each segment's direction: an element's anchor is kept as its angle and radius.
- The crosshair's `SmoothDamp` result and the spread curve's value enter as numbers of the frame. The commented-out rotation, wobble and timer code is not modelled.
- The crosshair's profile list is modelled as a list of profiles. A null entry, which would throw, is not represented.
- The `ArgumentOutOfRangeException` branches cannot be reached with the declared enum values and are not modelled.
- The event manager:
  - `FindObjectOfType` is a constant of the scene;
  - the listeners' own bodies are not run: a trigger yields the ordered list of calls it makes;
  - `Debug.LogError` and a manager destroyed after being located are not modelled.
- Input, the old camera and glue files are not part of this model:
  - InputHandler.cs is reduced to the movement-input duration and the number of jump handlers subscribed to `onJumpPerformed`;
  - Assets/FXnRXn/_Scripts/CameraController.cs, UIOverlapDetector.cs, SprintDetectUI.cs, UIInputManager.cs and both GameManager.cs files are not part of this model.

## Findings

| source | as written | input that shows it | evidently intended | confidence | as-written member | corrected member |
|---|---|---|---|---|---|---|
| Assets/_FXnRXn/_Scripts/Weapon/Crosshair/AdvancedCrosshairSystem.cs:297 | The primary element size is `crosshairSize * (1 / crosshairSegments)` with an integer `1 / n`, which is 0 for every segment count above 1 | crosshairSize 10 with 8 segments: size 0 | each element takes an equal share of the crosshair size, 10 / 8 = 1.25 | not executed; high | Crosshair.IntegerDivisionVanishes | Crosshair.IntendedElementCount |
| Assets/_FXnRXn/_Scripts/Weapon/Crosshair/AdvancedCrosshairSystem.cs:297 | The divisor is the default profile's segment count, whichever profile is being drawn | `GenerateCrosshair` of a 4-segment profile while the default profile has 0 segments: `DivideByZeroException` | divide by the drawn profile's own segment count | not executed; medium | Crosshair.DefaultDivisorThrows | Crosshair.PrimarySize |

The `AdvancedCrosshairSystem` class draws as written, through `Crosshair.Drawn` and `Crosshair.PrimarySizeAsWritten`, so its contracts describe what the component actually shows. The corrected definitions are `Crosshair.PrimarySize` and `Crosshair.IntendedDrawing`. `Crosshair.DrawnVersusIntended` compares the two drawings.
