/** The decision logic of the first-person player controller, one function per
    operation, on a value that holds the controller's mutable fields. Each
    function's contract states the outcome the controller promises: which
    guard accepts or rejects, what changes and what stays the same. */
module ControllerRules {
  import opened Models

  /** The inspector-configured values the controller reads but never writes. */
  datatype Config = Config(
    settings: PlayerSettings,
    viewClampYMin: real,
    viewClampYMax: real,
    gravityAmount: real,
    gravityMin: real,
    playerStandStance: CharacterStance,
    playerCrouchStance: CharacterStance,
    playerProneStance: CharacterStance)

  /** The controller's mutable fields. */
  datatype MotionState = MotionState(
    playerStance: PlayerStance,
    isSprinting: bool,
    playerGravity: real,
    jumpingForce: Vec3,
    newPlayerRotation: Vec3,
    newCameraRotation: Vec3,
    inputMovement: Vec2,
    inputView: Vec2)

  /** What the engine reports about the character body when an action is handled. */
  datatype Body = Body(isGrounded: bool, feet: Vec3, radius: real)

  /** The engine's capsule overlap test (start, end, radius), with the
      obstruction mask already applied: true when something is in the way. */
  type CapsuleQuery = (Vec3, Vec3, real) -> bool

  /** Forward input at or below this value cannot sustain a sprint. */
  const SprintThreshold: real := 0.2
  /** The small downward speed kept while grounded. */
  const GroundedGravity: real := -0.1
  /** Gap between the feet and the bottom of the headroom capsule. */
  const StanceCheckErrorMargin: real := 0.05

  function Min(a: real, b: real): real {
    if a <= b then a else b
  }

  function Max(a: real, b: real): real {
    if a >= b then a else b
  }

  /** Unity's `Mathf.Clamp`: the lower bound is tested first. */
  function Clamp(value: real, min: real, max: real): (r: real)
    ensures min <= max ==> min <= r <= max
    ensures min <= value <= max ==> r == value
    ensures value < min ==> r == min
    ensures min <= value && max < value ==> r == max
  {
    if value < min then min
    else if value > max then max
    else value
  }

  /** The invariant every operation keeps: the player only sprints while standing. */
  predicate SprintOnlyStanding(s: MotionState) {
    s.isSprinting ==> s.playerStance == Stand
  }

  // ---------------------------------------------------------------- headroom

  /** End points of the capsule swept upwards from the feet for a target height.
      The capsule, caps included, covers exactly the vertical band from the
      error margin above the feet to the error margin below the target height. */
  function CapsuleEnds(feet: Vec3, radius: real, height: real): (ends: (Vec3, Vec3))
    ensures ends.0.x == feet.x && ends.1.x == feet.x
    ensures ends.0.z == feet.z && ends.1.z == feet.z
    ensures ends.0.y - radius == feet.y + StanceCheckErrorMargin
    ensures ends.1.y + radius == feet.y + height - StanceCheckErrorMargin
  {
    (Vec3(feet.x, feet.y + radius + StanceCheckErrorMargin, feet.z),
     Vec3(feet.x, feet.y - radius - StanceCheckErrorMargin + height, feet.z))
  }

  /** True when a body of the given height would be obstructed: the engine
      is asked about the capsule of the body's radius swept from just above
      the feet to just below that height. */
  function StandCheck(body: Body, height: real, checkCapsule: CapsuleQuery): (blocked: bool)
    ensures blocked <==> checkCapsule(CapsuleEnds(body.feet, body.radius, height).0,
                                      CapsuleEnds(body.feet, body.radius, height).1, body.radius)
  {
    var ends := CapsuleEnds(body.feet, body.radius, height);
    checkCapsule(ends.0, ends.1, body.radius)
  }

  function StandHeight(cfg: Config): real {
    cfg.playerStandStance.stanceCollider.height
  }

  function CrouchHeight(cfg: Config): real {
    cfg.playerCrouchStance.stanceCollider.height
  }

  // ---------------------------------------------------------------- actions

  /** The jump action. */
  function Jump(cfg: Config, s: MotionState, body: Body, checkCapsule: CapsuleQuery): (r: MotionState)
    ensures !body.isGrounded ==> r == s
    ensures s.playerStance == Crouch && StandCheck(body, StandHeight(cfg), checkCapsule) ==> r == s
    ensures body.isGrounded && s.playerStance == Crouch && !StandCheck(body, StandHeight(cfg), checkCapsule) ==>
                  r == s.(playerStance := Stand)
    ensures body.isGrounded && s.playerStance == Prone ==> r == s.(playerStance := Stand)
    ensures body.isGrounded && s.playerStance == Stand ==>
                  r.jumpingForce == Vec3(0.0, cfg.settings.jumpingHeight, 0.0) && r.playerGravity == 0.0
                  && r.(jumpingForce := s.jumpingForce, playerGravity := s.playerGravity) == s
    ensures r.jumpingForce != s.jumpingForce || r.playerGravity != s.playerGravity ==>
                  body.isGrounded && s.playerStance == Stand
    ensures SprintOnlyStanding(s) ==> SprintOnlyStanding(r)
  {
    if !body.isGrounded then s
    else match s.playerStance
      case Crouch =>
        if StandCheck(body, StandHeight(cfg), checkCapsule) then s
        else s.(playerStance := Stand)
      case Prone => s.(playerStance := Stand)
      case Stand => s.(jumpingForce := Scale(Up, cfg.settings.jumpingHeight), playerGravity := 0.0)
  }

  /** The crouch toggle. */
  function ToggleCrouch(cfg: Config, s: MotionState, body: Body, checkCapsule: CapsuleQuery): (r: MotionState)
    ensures s.playerStance == Crouch ==>
                  (r.playerStance == Stand <==> !StandCheck(body, StandHeight(cfg), checkCapsule))
                  && (r.playerStance != Stand ==> r == s)
                  && r == s.(playerStance := r.playerStance)
    ensures s.playerStance != Crouch && StandCheck(body, CrouchHeight(cfg), checkCapsule) ==> r == s
    ensures s.playerStance != Crouch && !StandCheck(body, CrouchHeight(cfg), checkCapsule) ==>
                  r == s.(playerStance := Crouch, isSprinting := false)
    ensures SprintOnlyStanding(s) ==> SprintOnlyStanding(r)
  {
    if s.playerStance == Crouch then
      if StandCheck(body, StandHeight(cfg), checkCapsule) then s
      else s.(playerStance := Stand)
    else if StandCheck(body, CrouchHeight(cfg), checkCapsule) then s
    else s.(playerStance := Crouch, isSprinting := false)
  }

  /** The prone action: no headroom test at all. */
  function GoProne(s: MotionState): (r: MotionState)
    ensures r.playerStance == Prone && !r.isSprinting
    ensures r.(playerStance := s.playerStance, isSprinting := s.isSprinting) == s
    ensures SprintOnlyStanding(r)
  {
    s.(playerStance := Prone, isSprinting := false)
  }

  /** The sprint press: forces the player up without a headroom test, then
      toggles the sprint flag unless forward input is too small. */
  function ToggleSprint(s: MotionState): (r: MotionState)
    ensures r.playerStance == Stand
    ensures s.inputMovement.y <= SprintThreshold ==> !r.isSprinting
    ensures s.inputMovement.y > SprintThreshold ==> r.isSprinting == !s.isSprinting
    ensures r == s.(playerStance := Stand, isSprinting := r.isSprinting)
    ensures SprintOnlyStanding(r)
  {
    var up := if s.playerStance.Prone? || s.playerStance.Crouch? then s.(playerStance := Stand) else s;
    if up.inputMovement.y <= SprintThreshold then up.(isSprinting := false)
    else up.(isSprinting := !up.isSprinting)
  }

  /** The sprint release: only matters under hold-to-sprint. */
  function StopSprint(settings: PlayerSettings, s: MotionState): (r: MotionState)
    ensures settings.sprintingHold ==> r == s.(isSprinting := false)
    ensures !settings.sprintingHold ==> r == s
    ensures r.playerStance == s.playerStance
    ensures SprintOnlyStanding(s) ==> SprintOnlyStanding(r)
  {
    if settings.sprintingHold then s.(isSprinting := false) else s
  }

  // ---------------------------------------------------------------- per frame

  /** Signed yaw change for one frame. */
  function YawDelta(settings: PlayerSettings, view: Vec2, dt: real): (d: real)
    ensures settings.viewXInverted ==> d == -(settings.viewXSensitivity * view.x * dt)
    ensures !settings.viewXInverted ==> d == settings.viewXSensitivity * view.x * dt
  {
    settings.viewXSensitivity * (if settings.viewXInverted then -view.x else view.x) * dt
  }

  /** Signed pitch change for one frame: the opposite convention to yaw,
      so an upward stick tilts the camera up unless inverted. */
  function PitchDelta(settings: PlayerSettings, view: Vec2, dt: real): (d: real)
    ensures settings.viewYInverted ==> d == settings.viewYSensitivity * view.y * dt
    ensures !settings.viewYInverted ==> d == -(settings.viewYSensitivity * view.y * dt)
  {
    settings.viewYSensitivity * (if settings.viewYInverted then view.y else -view.y) * dt
  }

  /** The view update. */
  function CalculateView(cfg: Config, s: MotionState, dt: real): (r: MotionState)
    ensures cfg.viewClampYMin <= cfg.viewClampYMax ==>
                  cfg.viewClampYMin <= r.newCameraRotation.x <= cfg.viewClampYMax
    ensures r.newPlayerRotation
              == s.newPlayerRotation.(y := s.newPlayerRotation.y + YawDelta(cfg.settings, s.inputView, dt))
    ensures r.newCameraRotation.y == s.newCameraRotation.y && r.newCameraRotation.z == s.newCameraRotation.z
    ensures r.newCameraRotation.x
              == Clamp(s.newCameraRotation.x + PitchDelta(cfg.settings, s.inputView, dt), cfg.viewClampYMin, cfg.viewClampYMax)
    ensures r == s.(newPlayerRotation := r.newPlayerRotation, newCameraRotation := r.newCameraRotation)
  {
    var yawed := s.newPlayerRotation.(y := s.newPlayerRotation.y + YawDelta(cfg.settings, s.inputView, dt));
    var pitch := s.newCameraRotation.x + PitchDelta(cfg.settings, s.inputView, dt);
    s.(newPlayerRotation := yawed,
       newCameraRotation := s.newCameraRotation.(x := Clamp(pitch, cfg.viewClampYMin, cfg.viewClampYMax)))
  }

  /** Base forward and strafe speeds. */
  datatype Speeds = Speeds(forward: real, strafe: real)

  /** Run speeds exactly when sprinting, walk speeds otherwise; there is no
      backward running speed and the backward walking speed is never chosen. */
  function BaseSpeeds(settings: PlayerSettings, sprinting: bool): (speeds: Speeds)
    ensures sprinting ==> speeds == Speeds(settings.runningForwardSpeed, settings.runningStrafeSpeed)
    ensures !sprinting ==> speeds == Speeds(settings.walkingForwardSpeed, settings.walkingStrafeSpeed)
  {
    if sprinting then Speeds(settings.runningForwardSpeed, settings.runningStrafeSpeed)
    else Speeds(settings.walkingForwardSpeed, settings.walkingStrafeSpeed)
  }

  /** The multiplier applied to the base speeds: the falling multiplier
      while airborne, whatever the stance; otherwise the stance's own. */
  function SpeedEffector(settings: PlayerSettings, isGrounded: bool, stance: PlayerStance): (e: real)
    ensures !isGrounded ==> e == settings.fallingSpeedEffector
    ensures isGrounded && stance == Crouch ==> e == settings.crouchSpeedEffector
    ensures isGrounded && stance == Prone ==> e == settings.proneSpeedEffector
    ensures isGrounded && stance == Stand ==> e == 1.0
  {
    if !isGrounded then settings.fallingSpeedEffector
    else match stance
      case Crouch => settings.crouchSpeedEffector
      case Prone => settings.proneSpeedEffector
      case Stand => 1.0
  }

  /** The local-space velocity the movement smoothing heads for this frame. */
  function MovementTarget(settings: PlayerSettings, sprinting: bool, isGrounded: bool, stance: PlayerStance,
                          movement: Vec2, dt: real): (t: Vec3)
    ensures t.y == 0.0
    ensures movement == Zero2 ==> t == Zero3
  {
    var speeds := BaseSpeeds(settings, sprinting);
    var effector := SpeedEffector(settings, isGrounded, stance);
    Vec3(speeds.strafe * effector * movement.x * dt, 0.0, speeds.forward * effector * movement.y * dt)
  }

  /** The gravity accumulator for one frame: decrease while above the minimum,
      then snap up to the grounded value when grounded. */
  function GravityStep(cfg: Config, g: real, isGrounded: bool, dt: real): (g': real)
    ensures !isGrounded && g > cfg.gravityMin ==> g' == g - cfg.gravityAmount * dt
    ensures !isGrounded && g <= cfg.gravityMin ==> g' == g
    ensures isGrounded ==> g' >= GroundedGravity
    ensures isGrounded && g > cfg.gravityMin ==> g' == Max(g - cfg.gravityAmount * dt, GroundedGravity)
    ensures isGrounded && g <= cfg.gravityMin ==> g' == Max(g, GroundedGravity)
    ensures g' >= Min(g, cfg.gravityMin - cfg.gravityAmount * dt)
    ensures !isGrounded && cfg.gravityAmount * dt >= 0.0 ==> g' <= g
  {
    var fallen := if g > cfg.gravityMin then g - cfg.gravityAmount * dt else g;
    if fallen < GroundedGravity && isGrounded then GroundedGravity else fallen
  }

  /** The movement update's effect on the controller's fields: the sprint flag
      is cleared without enough forward input, and gravity accumulates. */
  function CalculateMovement(cfg: Config, s: MotionState, isGrounded: bool, dt: real): (r: MotionState)
    ensures s.inputMovement.y <= SprintThreshold ==> !r.isSprinting
    ensures s.inputMovement.y > SprintThreshold ==> r.isSprinting == s.isSprinting
    ensures isGrounded ==> r.playerGravity >= GroundedGravity
    ensures r.playerGravity == GravityStep(cfg, s.playerGravity, isGrounded, dt)
    ensures r == s.(isSprinting := r.isSprinting, playerGravity := r.playerGravity)
    ensures SprintOnlyStanding(s) ==> SprintOnlyStanding(r)
  {
    var sprinting := if s.inputMovement.y <= SprintThreshold then false else s.isSprinting;
    s.(isSprinting := sprinting, playerGravity := GravityStep(cfg, s.playerGravity, isGrounded, dt))
  }

  /** The stance profile whose targets the envelope smoothing heads for. */
  function ActiveStance(cfg: Config, stance: PlayerStance): (profile: CharacterStance)
    ensures stance == Stand ==> profile == cfg.playerStandStance
    ensures stance == Crouch ==> profile == cfg.playerCrouchStance
    ensures stance == Prone ==> profile == cfg.playerProneStance
  {
    match stance
    case Stand => cfg.playerStandStance
    case Crouch => cfg.playerCrouchStance
    case Prone => cfg.playerProneStance
  }
}
