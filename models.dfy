/** Plain data of the locomotion controller: vectors, the stance enumeration,
    the per-player settings record and the per-stance profile.
    Unity's `float` is modelled as `real`. */
module Models {

  datatype Vec2 = Vec2(x: real, y: real)

  datatype Vec3 = Vec3(x: real, y: real, z: real)

  const Zero2: Vec2 := Vec2(0.0, 0.0)
  const Zero3: Vec3 := Vec3(0.0, 0.0, 0.0)

  /** Unity's `Vector3.up`. */
  const Up: Vec3 := Vec3(0.0, 1.0, 0.0)

  function Scale(v: Vec3, k: real): Vec3 {
    Vec3(v.x * k, v.y * k, v.z * k)
  }

  /** The body posture; exactly one is active at any time. */
  datatype PlayerStance = Stand | Crouch | Prone

  /** The settings record the controller reads. The `speedEffector` field of the
      original record is not here: the controller recomputes it every frame, so
      it is modelled as a value returned by the movement update. */
  datatype PlayerSettings = PlayerSettings(
    viewXSensitivity: real,
    viewYSensitivity: real,
    viewXInverted: bool,
    viewYInverted: bool,
    sprintingHold: bool,
    movementSmoothing: real,
    runningForwardSpeed: real,
    runningStrafeSpeed: real,
    walkingForwardSpeed: real,
    walkingBackwardSpeed: real,
    walkingStrafeSpeed: real,
    jumpingHeight: real,
    jumpingFallof: real,
    fallingSmoothing: real,
    crouchSpeedEffector: real,
    proneSpeedEffector: real,
    fallingSpeedEffector: real)

  /** The part of a `CapsuleCollider` a stance profile is read for. */
  datatype Capsule = Capsule(height: real, center: Vec3)

  /** Target eye height and collision envelope of one stance. */
  datatype CharacterStance = CharacterStance(cameraHeight: real, stanceCollider: Capsule)
}
