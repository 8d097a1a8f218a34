/** Properties of the controller's rules that relate several calls:
    invariants over any sequence of operations (the sprint/stance invariant,
    the pitch range), bounds of the gravity accumulator over many frames,
    and pairs of actions. */
module ControllerProperties {
  import opened Models
  import opened ControllerRules

  /** The five discrete input actions. */
  datatype Action = JumpPressed | CrouchPressed | PronePressed | SprintPressed | SprintReleased

  /** One thing that can happen to the controller: an input sample arrives,
      an action fires, or one of the per-frame updates runs. */
  datatype Step =
    | MovementPerformed(movement: Vec2)
    | ViewPerformed(view: Vec2)
    | Performed(action: Action, body: Body)
    | ViewUpdate(dt: real)
    | MovementUpdate(isGrounded: bool, dt: real)

  function Apply(cfg: Config, s: MotionState, step: Step, checkCapsule: CapsuleQuery): (r: MotionState)
    ensures SprintOnlyStanding(s) ==> SprintOnlyStanding(r)
    ensures step.ViewUpdate? && cfg.viewClampYMin <= cfg.viewClampYMax ==> PitchInRange(cfg, r)
    ensures !step.ViewUpdate? ==> r.newCameraRotation == s.newCameraRotation
  {
    match step
    case MovementPerformed(movement) => s.(inputMovement := movement)
    case ViewPerformed(view) => s.(inputView := view)
    case Performed(action, body) =>
      (match action
       case JumpPressed => Jump(cfg, s, body, checkCapsule)
       case CrouchPressed => ToggleCrouch(cfg, s, body, checkCapsule)
       case PronePressed => GoProne(s)
       case SprintPressed => ToggleSprint(s)
       case SprintReleased => StopSprint(cfg.settings, s))
    case ViewUpdate(dt) => CalculateView(cfg, s, dt)
    case MovementUpdate(isGrounded, dt) => CalculateMovement(cfg, s, isGrounded, dt)
  }

  function Run(cfg: Config, s: MotionState, steps: seq<Step>, checkCapsule: CapsuleQuery): MotionState
    decreases |steps|
  {
    if steps == [] then s
    else Run(cfg, Apply(cfg, s, steps[0], checkCapsule), steps[1..], checkCapsule)
  }

  ghost predicate PitchInRange(cfg: Config, s: MotionState) {
    cfg.viewClampYMin <= s.newCameraRotation.x <= cfg.viewClampYMax
  }

  /** Whatever happens, the player never sprints unless standing. */
  lemma {:induction false} RunKeepsSprintOnlyStanding(cfg: Config, s: MotionState, steps: seq<Step>,
                                                      checkCapsule: CapsuleQuery)
    requires SprintOnlyStanding(s)
    ensures SprintOnlyStanding(Run(cfg, s, steps, checkCapsule))
    decreases |steps|
  {
    if steps != [] {
      RunKeepsSprintOnlyStanding(cfg, Apply(cfg, s, steps[0], checkCapsule), steps[1..], checkCapsule);
    }
  }

  /** Once a view update has run, the pitch stays within the clamp range,
      whatever the look input and the frame times. */
  lemma {:induction false} RunKeepsPitchInRange(cfg: Config, s: MotionState, steps: seq<Step>,
                                                checkCapsule: CapsuleQuery)
    requires cfg.viewClampYMin <= cfg.viewClampYMax
    requires PitchInRange(cfg, s) || exists i :: 0 <= i < |steps| && steps[i].ViewUpdate?
    ensures PitchInRange(cfg, Run(cfg, s, steps, checkCapsule))
    decreases |steps|
  {
    if steps != [] {
      var next := Apply(cfg, s, steps[0], checkCapsule);
      if !PitchInRange(cfg, next) {
        var i :| 0 <= i < |steps| && steps[i].ViewUpdate?;
        assert i != 0;
        assert steps[1..][i - 1].ViewUpdate?;
      }
      RunKeepsPitchInRange(cfg, next, steps[1..], checkCapsule);
    }
  }

  // ---------------------------------------------------------------- gravity over frames

  /** Grounded flag and frame time of one movement update. */
  datatype Frame = Frame(isGrounded: bool, dt: real)

  /** The gravity accumulator after a sequence of movement updates. */
  function Fall(cfg: Config, g: real, frames: seq<Frame>): real
    decreases |frames|
  {
    if frames == [] then g
    else Fall(cfg, GravityStep(cfg, g, frames[0].isGrounded, frames[0].dt), frames[1..])
  }

  /** One frame cannot take the accumulator below the lesser of its value and
      the fall of a longest frame beneath the minimum. */
  lemma GravityStepFloor(cfg: Config, g: real, isGrounded: bool, dt: real, maxDt: real)
    requires cfg.gravityAmount >= 0.0 && dt <= maxDt
    ensures GravityStep(cfg, g, isGrounded, dt) >= Min(g, cfg.gravityMin - cfg.gravityAmount * maxDt)
  {
    var fall, maxFall := cfg.gravityAmount * dt, cfg.gravityAmount * maxDt;
    assert maxFall - fall == cfg.gravityAmount * (maxDt - dt) >= 0.0;
    assert GravityStep(cfg, g, isGrounded, dt) >= Min(g, cfg.gravityMin - fall);
  }

  /** Terminal speed: with a non-negative gravity amount and frame times of at
      most `maxDt`, the accumulator never falls below the lesser of its start
      and one frame's fall beneath the minimum, grounded or not. */
  lemma {:induction false} FallBounded(cfg: Config, g: real, frames: seq<Frame>, maxDt: real)
    requires cfg.gravityAmount >= 0.0
    requires forall i :: 0 <= i < |frames| ==> frames[i].dt <= maxDt
    ensures Fall(cfg, g, frames) >= Min(g, cfg.gravityMin - cfg.gravityAmount * maxDt)
    decreases |frames|
  {
    if frames != [] {
      var g1 := GravityStep(cfg, g, frames[0].isGrounded, frames[0].dt);
      GravityStepFloor(cfg, g, frames[0].isGrounded, frames[0].dt, maxDt);
      FallBounded(cfg, g1, frames[1..], maxDt);
    }
  }

  /** A grounded frame is the airborne frame followed by the snap up to the
      grounded value. */
  lemma GroundedIsSnappedFall(cfg: Config, g: real, dt: real)
    ensures GravityStep(cfg, g, true, dt) == Max(GravityStep(cfg, g, false, dt), GroundedGravity)
  {
  }

  /** While airborne with non-negative frame times, the accumulator never rises. */
  lemma {:induction false} FallNeverRisesAirborne(cfg: Config, g: real, frames: seq<Frame>)
    requires cfg.gravityAmount >= 0.0
    requires forall i :: 0 <= i < |frames| ==> !frames[i].isGrounded && frames[i].dt >= 0.0
    ensures Fall(cfg, g, frames) <= g
    decreases |frames|
  {
    if frames != [] {
      var g1 := GravityStep(cfg, g, false, frames[0].dt);
      assert cfg.gravityAmount * frames[0].dt >= 0.0;
      FallNeverRisesAirborne(cfg, g1, frames[1..]);
    }
  }

  /** A value at or below the minimum is never decremented further while airborne. */
  lemma {:induction false} FallStopsAtMinimum(cfg: Config, g: real, frames: seq<Frame>)
    requires g <= cfg.gravityMin
    requires forall i :: 0 <= i < |frames| ==> !frames[i].isGrounded
    ensures Fall(cfg, g, frames) == g
    decreases |frames|
  {
    if frames != [] {
      FallStopsAtMinimum(cfg, g, frames[1..]);
    }
  }

  /** Three airborne one-second frames with gravity 10 and minimum -20,
      starting from rest: -10, then -20, then still -20. */
  lemma FallScenario(cfg: Config)
    requires cfg.gravityAmount == 10.0 && cfg.gravityMin == -20.0
    ensures Fall(cfg, 0.0, [Frame(false, 1.0)]) == -10.0
    ensures Fall(cfg, 0.0, [Frame(false, 1.0), Frame(false, 1.0)]) == -20.0
    ensures Fall(cfg, 0.0, [Frame(false, 1.0), Frame(false, 1.0), Frame(false, 1.0)]) == -20.0
  {
  }

  // ---------------------------------------------------------------- action pairs

  /** Two sprint presses with enough forward input restore the sprint flag;
      the player ends standing either way. */
  lemma ToggleSprintTwice(s: MotionState)
    requires s.inputMovement.y > SprintThreshold
    ensures ToggleSprint(ToggleSprint(s)) == s.(playerStance := Stand)
  {
  }

  /** Crouching and standing back up with headroom for both returns the
      player to standing, with sprint cancelled. */
  lemma CrouchThenStand(cfg: Config, s: MotionState, body: Body, checkCapsule: CapsuleQuery)
    requires s.playerStance == Stand
    requires !StandCheck(body, CrouchHeight(cfg), checkCapsule)
    requires !StandCheck(body, StandHeight(cfg), checkCapsule)
    ensures ToggleCrouch(cfg, ToggleCrouch(cfg, s, body, checkCapsule), body, checkCapsule)
              == s.(isSprinting := false)
  {
  }

  /** Every crouch-toggle transition tested the headroom of the stance it
      enters, as given by that stance's profile. */
  lemma CrouchChecksDestination(cfg: Config, s: MotionState, body: Body, checkCapsule: CapsuleQuery)
    ensures var r := ToggleCrouch(cfg, s, body, checkCapsule);
            r.playerStance != s.playerStance ==>
              !StandCheck(body, ActiveStance(cfg, r.playerStance).stanceCollider.height, checkCapsule)
  {
  }

  /** Getting up from prone by jumping ignores the headroom test that
      getting up from a crouch by jumping respects. */
  lemma JumpFromProneIgnoresHeadroom(cfg: Config, s: MotionState, body: Body, checkCapsule: CapsuleQuery)
    requires body.isGrounded && s.playerStance == Prone
    requires StandCheck(body, StandHeight(cfg), checkCapsule)
    ensures Jump(cfg, s, body, checkCapsule).playerStance == Stand
    ensures Jump(cfg, s.(playerStance := Crouch), body, checkCapsule).playerStance == Crouch
  {
  }

  /** The backward walking speed never influences the chosen base speeds. */
  lemma BackwardSpeedUnused(settings: PlayerSettings, sprinting: bool, backward: real)
    ensures BaseSpeeds(settings.(walkingBackwardSpeed := backward), sprinting) == BaseSpeeds(settings, sprinting)
  {
  }

  /** Flipping an inversion flag reverses the direction of that axis. */
  lemma InversionReverses(settings: PlayerSettings, view: Vec2, dt: real)
    ensures YawDelta(settings.(viewXInverted := !settings.viewXInverted), view, dt) == -YawDelta(settings, view, dt)
    ensures PitchDelta(settings.(viewYInverted := !settings.viewYInverted), view, dt) == -PitchDelta(settings, view, dt)
  {
  }

  /** With positive speeds, multipliers and frame time, the movement target
      points where the stick points, on each axis. */
  lemma TargetFollowsInput(settings: PlayerSettings, sprinting: bool, isGrounded: bool, stance: PlayerStance,
                           movement: Vec2, dt: real)
    requires dt > 0.0
    requires settings.walkingForwardSpeed > 0.0 && settings.walkingStrafeSpeed > 0.0
    requires settings.runningForwardSpeed > 0.0 && settings.runningStrafeSpeed > 0.0
    requires settings.crouchSpeedEffector > 0.0 && settings.proneSpeedEffector > 0.0
    requires settings.fallingSpeedEffector > 0.0
    ensures var t := MovementTarget(settings, sprinting, isGrounded, stance, movement, dt);
            (t.z > 0.0 <==> movement.y > 0.0) && (t.z < 0.0 <==> movement.y < 0.0) &&
            (t.x > 0.0 <==> movement.x > 0.0) && (t.x < 0.0 <==> movement.x < 0.0)
  {
  }
}
