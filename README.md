# First-person player controller, modelled in Dafny

This project models the decision logic of `PlayerController`, the
first-person locomotion controller of a Unity project. Once per frame the
controller turns look input into yaw and pitch and movement input into a
target velocity. It also runs a gravity accumulator. Five input actions
(jump, crouch, prone, sprint press, sprint release) move the player between
the Stand, Crouch and Prone stances and set or clear the sprint flag. Some
of these stance changes first ask the physics engine whether a capsule of
the new height would be obstructed.

Files:

- `models.dfy` (module `Models`): vectors, the stance enumeration, the
  player settings record and the per-stance profile.
- `rules.dfy` (module `ControllerRules`): one pure function per operation,
  on a `MotionState` value holding the controller's mutable fields. Each
  contract says which guard accepts or rejects, what changes and what stays
  the same. The headroom test is built from the capsule end points and an
  engine-supplied overlap query.
- `properties.dfy` (module `ControllerProperties`): what holds across
  several calls. Every sequence of operations keeps "sprinting only while
  standing". After a view update the pitch stays in its clamp range. The
  gravity accumulator is bounded over any number of frames. There are also
  pair properties of the actions.
- `player_controller.dfy` (module `PlayerControl`): the `PlayerController`
  class. Its fields are the controller's state, and its methods follow the
  source's guarded assignments and early returns. Each method is proved to
  produce exactly the state its rule describes.

Engine inputs are parameters: the grounded flag, the feet position, the
collider radius, the frame time (`Time.deltaTime`) and the capsule overlap
query (`Physics.CheckCapsule` with the player mask). Unity `float` values
are `real`, and the constants 0.2, -0.1 and 0.05 are taken as exact.

Two points about the gravity update:

- The code decrements the gravity accumulator whenever it is above the
  minimum, grounded or not, and only then snaps it up to -0.1 on the
  ground.
- The minimum is not a hard floor. The last decrement can take the value up
  to one frame's fall below it, and `FallBounded` states that bound.

## Model

| member | source | states |
|---|---|---|
| ControllerRules.Clamp | Assets/Scripts/Player/PlayerController.cs:76 | pitch clamp: the result lies in [min, max] whenever min <= max; a value already in range is kept; a value below min becomes min, and a value not below min but above max becomes max |
| ControllerRules.StandCheck | Assets/Scripts/Player/PlayerController.cs:200-205 | the headroom test is true exactly when the engine query reports an obstruction for the capsule of the body's radius between the end points given by CapsuleEnds for the tested height |
| ControllerRules.CapsuleEnds | Assets/Scripts/Player/PlayerController.cs:200-204 | the headroom capsule is vertical above the feet; with its caps it spans from the error margin above the feet to the error margin below the tested height |
| ControllerRules.Jump | Assets/Scripts/Player/PlayerController.cs:133-155 | airborne: no change; crouching and blocked: no change; crouching and clear, or prone: stance becomes Stand and nothing else changes; standing and grounded: jump force becomes up times jump height and gravity 0, nothing else changes; force or gravity change only in that case; keeps sprinting-only-while-standing |
| ControllerRules.ToggleCrouch | Assets/Scripts/Player/PlayerController.cs:175-192 | from Crouch: stance becomes Stand exactly when the stand-height check is clear, otherwise no change, sprint flag untouched; from Stand or Prone: blocked at crouch height means no change, else stance Crouch and sprint cleared; keeps the invariant |
| ControllerRules.GoProne | Assets/Scripts/Player/PlayerController.cs:194-198 | stance becomes Prone and sprint is cleared with no headroom test; nothing else changes |
| ControllerRules.ToggleSprint | Assets/Scripts/Player/PlayerController.cs:207-218 | afterwards the stance is always Stand with no headroom test; forward input <= 0.2 clears sprint, otherwise sprint is negated; nothing else changes |
| ControllerRules.StopSprint | Assets/Scripts/Player/PlayerController.cs:220-225 | with hold-to-sprint the sprint flag is cleared, otherwise nothing changes; the stance never changes |
| ControllerRules.YawDelta | Assets/Scripts/Player/PlayerController.cs:73 | the yaw change is sensitivity times x times dt, negated when X is inverted |
| ControllerRules.PitchDelta | Assets/Scripts/Player/PlayerController.cs:75 | the pitch change uses the opposite convention: sensitivity times y times dt when Y is inverted, its negation when not |
| ControllerRules.CalculateView | Assets/Scripts/Player/PlayerController.cs:71-77 | yaw moves by the yaw delta; pitch becomes the clamp of old pitch plus pitch delta, so it lies in [min, max] when min <= max and an overshoot lands on the bound it crossed; nothing else changes |
| ControllerRules.BaseSpeeds | Assets/Scripts/Player/PlayerController.cs:86-93 | run forward and strafe speeds when sprinting, walk forward and strafe speeds otherwise |
| ControllerRules.SpeedEffector | Assets/Scripts/Player/PlayerController.cs:95-107 | airborne gives the falling multiplier whatever the stance; grounded gives the crouch multiplier when crouching, the prone multiplier when prone and 1 when standing |
| ControllerRules.MovementTarget | Assets/Scripts/Player/PlayerController.cs:86-111 | the movement target has no vertical part, and zero stick input gives a zero target |
| ControllerRules.GravityStep | Assets/Scripts/Player/PlayerController.cs:114-122 | airborne: decrement by gravity times dt exactly when above the minimum; grounded: the decremented value (or the unchanged value when at or below the minimum) raised to at least -0.1, so grounded implies >= -0.1 and a value at or below the minimum is never decremented; never below min(old value, minimum - one frame's fall); airborne with non-negative fall never rises |
| ControllerRules.ActiveStance | Assets/Scripts/Player/PlayerController.cs:159-167 | the profile of the current stance: stand, crouch or prone |
| ControllerRules.CalculateMovement | Assets/Scripts/Player/PlayerController.cs:80-122 | forward input <= 0.2 leaves sprint cleared, otherwise sprint is unchanged; grounded implies gravity >= -0.1; only sprint and gravity change; keeps the invariant |
| ControllerProperties.Apply | Assets/Scripts/Player/PlayerController.cs:49-55 | dispatching any input sample, action or update keeps sprinting-only-while-standing; a view update puts pitch in range; nothing else moves the pitch |
| ControllerProperties.RunKeepsSprintOnlyStanding | Assets/Scripts/Player/PlayerController.cs:175-225 | over any sequence of samples, actions and updates, the player sprints only while standing |
| ControllerProperties.RunKeepsPitchInRange | Assets/Scripts/Player/PlayerController.cs:71-77 | after any sequence containing a view update, or starting in range, the pitch lies within the clamp range |
| ControllerProperties.GravityStepFloor | Assets/Scripts/Player/PlayerController.cs:114-122 | one frame no longer than maxDt cannot take gravity below min(old value, minimum - gravity times maxDt) |
| ControllerProperties.GroundedIsSnappedFall | Assets/Scripts/Player/PlayerController.cs:114-122 | a grounded frame gives the airborne frame's value raised to at least -0.1 |
| ControllerProperties.FallBounded | Assets/Scripts/Player/PlayerController.cs:114-122 | over any frames no longer than maxDt, grounded or not, gravity stays at or above min(start, minimum - gravity times maxDt) |
| ControllerProperties.FallNeverRisesAirborne | Assets/Scripts/Player/PlayerController.cs:114-118 | over airborne frames with non-negative fall, gravity never rises |
| ControllerProperties.FallStopsAtMinimum | Assets/Scripts/Player/PlayerController.cs:114-118 | a value at or below the minimum is never decremented further while airborne |
| ControllerProperties.FallScenario | Assets/Scripts/Player/PlayerController.cs:114-118 | gravity 10, minimum -20, dt 1, from 0: -10, -20, -20 |
| ControllerProperties.ToggleSprintTwice | Assets/Scripts/Player/PlayerController.cs:207-218 | with forward input above 0.2, two sprint presses restore the sprint flag and leave the player standing |
| ControllerProperties.CrouchThenStand | Assets/Scripts/Player/PlayerController.cs:175-192 | with headroom for both heights, crouch then crouch again from Stand returns to Stand with sprint cleared |
| ControllerProperties.CrouchChecksDestination | Assets/Scripts/Player/PlayerController.cs:157-192 | a crouch-toggle stance change happens only when the capsule of the entered stance's profile height is clear |
| ControllerProperties.JumpFromProneIgnoresHeadroom | Assets/Scripts/Player/PlayerController.cs:139-152 | with the stand height blocked, jumping stands a prone player up but leaves a crouching player crouched |
| ControllerProperties.BackwardSpeedUnused | Assets/Scripts/Player/PlayerController.cs:86-93 | the walking-backward speed never affects the chosen base speeds |
| ControllerProperties.InversionReverses | Assets/Scripts/Player/PlayerController.cs:73-75 | flipping an inversion flag negates that axis's rotation change |
| ControllerProperties.TargetFollowsInput | Assets/Scripts/Player/PlayerController.cs:86-111 | with positive speeds, multipliers and dt, each axis of the movement target has the sign of the stick on that axis |
| PlayerControl.PlayerController.constructor | Assets/Scripts/Player/PlayerController.cs:57-58 | a new controller takes the given stance and rotations, is not sprinting, and has zero gravity, jump force and inputs |
| PlayerControl.PlayerController.MovementPerformed | Assets/Scripts/Player/PlayerController.cs:49 | a movement sample replaces the stored movement input and nothing else |
| PlayerControl.PlayerController.ViewPerformed | Assets/Scripts/Player/PlayerController.cs:50 | a look sample replaces the stored look input and nothing else |
| PlayerControl.PlayerController.CalculateView | Assets/Scripts/Player/PlayerController.cs:71-77 | the new fields are those of ControllerRules.CalculateView; pitch lies in the clamp range when min <= max |
| PlayerControl.PlayerController.CalculateMovement | Assets/Scripts/Player/PlayerController.cs:80-122 | the new fields are those of ControllerRules.CalculateMovement; the returned multiplier is SpeedEffector for the grounded flag and stance; the returned target is MovementTarget for the updated sprint flag |
| PlayerControl.PlayerController.Jump | Assets/Scripts/Player/PlayerController.cs:133-155 | the new fields are those of ControllerRules.Jump |
| PlayerControl.PlayerController.CalculateStance | Assets/Scripts/Player/PlayerController.cs:157-167 | the profile chosen is the one of the current stance |
| PlayerControl.PlayerController.Crouch | Assets/Scripts/Player/PlayerController.cs:175-192 | the new fields are those of ControllerRules.ToggleCrouch |
| PlayerControl.PlayerController.Prone | Assets/Scripts/Player/PlayerController.cs:194-198 | the new fields are those of ControllerRules.GoProne |
| PlayerControl.PlayerController.ToggleSprint | Assets/Scripts/Player/PlayerController.cs:207-218 | the new fields are those of ControllerRules.ToggleSprint |
| PlayerControl.PlayerController.StopSprint | Assets/Scripts/Player/PlayerController.cs:220-225 | the new fields are those of ControllerRules.StopSprint |

## Left out

- `Vector3.SmoothDamp` and `Mathf.SmoothDamp` (PlayerController.cs:111, 130, 169-172) are Unity's floating-point smoothing, and their bodies are not available. With them go the smoothing times they are given: `movementSmoothing` when grounded or `fallingSmoothing` when airborne (line 111), `jumpingFallof` (line 130) and the stance smoothing time. The model returns the target each smoothing heads for (the movement target, the stance profile) and not the smoothed value.
- `CalculateJump` (PlayerController.cs:128-131) is only a jump-force smoothing, so it is not modelled.
- `Update` (PlayerController.cs:63-69) calls `CalculateJump`, so it is not modelled as one operation. Its other three steps are modelled one by one. `ControllerProperties.Run` composes view and movement updates with input samples and actions in any order; `CalculateStance` has no step there because it changes no modelled field.
- `Quaternion.Euler`, `transform.TransformDirection` and `characterController.Move` (PlayerController.cs:74, 77, 112, 123-125) are engine rotation and collision-resolved movement. The final displacement (smoothed velocity in world space plus gravity plus jump force times dt) is therefore not modelled.
- `Physics.CheckCapsule` is an engine query. It is the `CapsuleQuery` parameter, with the player mask folded into it.
- `Awake` (PlayerController.cs:46-61) binds input events and looks up engine components. Only the two input samples it stores and the starting rotations it reads are modelled.
- The write-back of the speed multiplier into the shared settings object (PlayerController.cs:97-106) is returned from `CalculateMovement` instead. The `speedEffector` field is therefore absent from the settings datatype.
- The model does not cover float rounding, including how 0.2f, -0.1f and 0.05f are represented.
- Stance smoothing time, camera height and collider state are not modelled. Only the smoothing above reads them.
- ControllerRules.MovementTarget: its contract states only the vertical part and the zero-input case. The direction property is the separate lemma `TargetFollowsInput`, because it needs positive configured speeds.
