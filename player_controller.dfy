/** The first-person player controller: its fields are updated in place by the
    input actions and by the per-frame view and movement updates. Each method
    follows the controller's own sequence of guarded assignments and early
    returns, and is proved to produce the state its rule in `ControllerRules`
    describes. Engine inputs (grounded flag, feet position, collider radius,
    frame time, the capsule overlap test) are parameters. */
module PlayerControl {
  import opened Models
  import opened ControllerRules

  class PlayerController {
    const config: Config

    var playerStance: PlayerStance
    var isSprinting: bool
    var playerGravity: real
    var jumpingForce: Vec3
    var newPlayerRotation: Vec3
    var newCameraRotation: Vec3
    var inputMovement: Vec2
    var inputView: Vec2

    /** The controller's fields as one value. */
    function State(): MotionState
      reads this
    {
      MotionState(playerStance, isSprinting, playerGravity, jumpingForce,
                  newPlayerRotation, newCameraRotation, inputMovement, inputView)
    }

    /** A controller as the engine hands it over: the starting stance and the
        body and camera rotations read from their transforms. */
    constructor (config: Config, stance: PlayerStance, playerRotation: Vec3, cameraRotation: Vec3)
      ensures this.config == config
      ensures State() == MotionState(stance, false, 0.0, Zero3, playerRotation, cameraRotation, Zero2, Zero2)
      ensures SprintOnlyStanding(State())
    {
      this.config := config;
      playerStance := stance;
      isSprinting := false;
      playerGravity := 0.0;
      jumpingForce := Zero3;
      newPlayerRotation := playerRotation;
      newCameraRotation := cameraRotation;
      inputMovement := Zero2;
      inputView := Zero2;
    }

    /** A new movement-axis sample arrives. */
    method MovementPerformed(movement: Vec2)
      modifies this
      ensures State() == old(State()).(inputMovement := movement)
    {
      inputMovement := movement;
    }

    /** A new look-delta sample arrives. */
    method ViewPerformed(view: Vec2)
      modifies this
      ensures State() == old(State()).(inputView := view)
    {
      inputView := view;
    }

    method CalculateView(dt: real)
      modifies this
      ensures State() == ControllerRules.CalculateView(config, old(State()), dt)
      ensures config.viewClampYMin <= config.viewClampYMax ==>
                config.viewClampYMin <= newCameraRotation.x <= config.viewClampYMax
    {
      var settings := config.settings;
      newPlayerRotation := newPlayerRotation.(y := newPlayerRotation.y
        + settings.viewXSensitivity * (if settings.viewXInverted then -inputView.x else inputView.x) * dt);
      newCameraRotation := newCameraRotation.(x := newCameraRotation.x
        + settings.viewYSensitivity * (if settings.viewYInverted then inputView.y else -inputView.y) * dt);
      newCameraRotation := newCameraRotation.(x := Clamp(newCameraRotation.x, config.viewClampYMin, config.viewClampYMax));
    }

    /** The movement update: returns the speed multiplier it chose and the
        local-space velocity the movement smoothing heads for. */
    method CalculateMovement(isGrounded: bool, dt: real) returns (speedEffector: real, target: Vec3)
      modifies this
      ensures State() == ControllerRules.CalculateMovement(config, old(State()), isGrounded, dt)
      ensures inputMovement.y <= SprintThreshold ==> !isSprinting
      ensures isGrounded ==> playerGravity >= GroundedGravity
      ensures speedEffector == SpeedEffector(config.settings, isGrounded, playerStance)
      ensures target == MovementTarget(config.settings, isSprinting, isGrounded, playerStance, inputMovement, dt)
    {
      var settings := config.settings;
      if inputMovement.y <= SprintThreshold {
        isSprinting := false;
      }
      var verticalSpeed := settings.walkingForwardSpeed;
      var horizontalSpeed := settings.walkingStrafeSpeed;
      if isSprinting {
        verticalSpeed := settings.runningForwardSpeed;
        horizontalSpeed := settings.runningStrafeSpeed;
      }
      assert Speeds(verticalSpeed, horizontalSpeed) == BaseSpeeds(settings, isSprinting);

      if !isGrounded {
        speedEffector := settings.fallingSpeedEffector;
      } else if playerStance == PlayerStance.Crouch {
        speedEffector := settings.crouchSpeedEffector;
      } else if playerStance == PlayerStance.Prone {
        speedEffector := settings.proneSpeedEffector;
      } else {
        speedEffector := 1.0;
      }
      assert speedEffector == SpeedEffector(settings, isGrounded, playerStance);
      verticalSpeed := verticalSpeed * speedEffector;
      horizontalSpeed := horizontalSpeed * speedEffector;
      target := Vec3(horizontalSpeed * inputMovement.x * dt, 0.0, verticalSpeed * inputMovement.y * dt);

      if playerGravity > config.gravityMin {
        playerGravity := playerGravity - config.gravityAmount * dt;
      }
      if playerGravity < GroundedGravity && isGrounded {
        playerGravity := GroundedGravity;
      }
    }

    method Jump(body: Body, checkCapsule: CapsuleQuery)
      modifies this
      ensures State() == ControllerRules.Jump(config, old(State()), body, checkCapsule)
    {
      if !body.isGrounded {
        return;
      } else if playerStance == PlayerStance.Crouch {
        if StandCheck(body, config.playerStandStance.stanceCollider.height, checkCapsule) {
          return;
        }
        playerStance := Stand;
        return;
      } else if playerStance == PlayerStance.Prone {
        playerStance := Stand;
        return;
      }
      jumpingForce := Scale(Up, config.settings.jumpingHeight);
      playerGravity := 0.0;
    }

    /** The stance profile the envelope smoothing heads for this frame. */
    method CalculateStance() returns (currentStance: CharacterStance)
      ensures currentStance == ActiveStance(config, playerStance)
    {
      currentStance := config.playerStandStance;
      if playerStance == PlayerStance.Crouch {
        currentStance := config.playerCrouchStance;
      } else if playerStance == PlayerStance.Prone {
        currentStance := config.playerProneStance;
      }
    }

    method Crouch(body: Body, checkCapsule: CapsuleQuery)
      modifies this
      ensures State() == ToggleCrouch(config, old(State()), body, checkCapsule)
    {
      if playerStance == PlayerStance.Crouch {
        if StandCheck(body, config.playerStandStance.stanceCollider.height, checkCapsule) {
          return;
        }
        playerStance := Stand;
        return;
      }
      if StandCheck(body, config.playerCrouchStance.stanceCollider.height, checkCapsule) {
        return;
      }
      playerStance := PlayerStance.Crouch;
      isSprinting := false;
    }

    method Prone()
      modifies this
      ensures State() == GoProne(old(State()))
    {
      playerStance := PlayerStance.Prone;
      isSprinting := false;
    }

    method ToggleSprint()
      modifies this
      ensures State() == ControllerRules.ToggleSprint(old(State()))
    {
      if playerStance == PlayerStance.Prone || playerStance == PlayerStance.Crouch {
        playerStance := Stand;
      }
      if inputMovement.y <= SprintThreshold {
        isSprinting := false;
        return;
      }
      isSprinting := !isSprinting;
    }

    method StopSprint()
      modifies this
      ensures State() == ControllerRules.StopSprint(config.settings, old(State()))
    {
      if config.settings.sprintingHold {
        isSprinting := false;
      }
    }
  }
}
