/** The engine as the platforming character sees it: the facts it reads
    (sweep hits, movement modes, animation results) and the requests it
    issues (jumps, launches, timers, movement input). The engine's own
    physics, animation and timer implementations are not modelled; they
    appear only as the values passed in and the effects recorded. */
module Engine {

  datatype Option<+T> = None | Some(value: T)

  /** A world-space vector in centimetres (or cm/s for velocities). */
  datatype Vec = Vec(x: real, y: real, z: real)

  /** A two-axis input action value (FVector2D). */
  datatype Vec2 = Vec2(x: real, y: real)

  const Zero: Vec := Vec(0.0, 0.0, 0.0)
  const Up: Vec := Vec(0.0, 0.0, 1.0)

  function Add(a: Vec, b: Vec): Vec {
    Vec(a.x + b.x, a.y + b.y, a.z + b.z)
  }

  function Scale(a: Vec, k: real): Vec {
    Vec(a.x * k, a.y * k, a.z * k)
  }

  /** What a blocking sweep reports; only the impact normal is used. */
  datatype Hit = Hit(impactNormal: Vec)

  /** EMovementMode of the character movement component. */
  datatype MovementMode =
    | ModeNone | Walking | NavWalking | Falling | Swimming | Flying | Custom

  /** The two yaw-only basis axes of the controller rotation. */
  datatype Axis = ControlForward | ControlRight

  /** What the animation instance does when the dash montage is requested:
      there is no animation instance, the montage is already playing, or
      Montage_Play was called and returned this length (0 when it failed). */
  datatype DashAnimation =
    | NoAnimInstance
    | DashAlreadyPlaying
    | PlayedFor(length: real)

  /** A request the character makes of an engine collaborator, in the
      order it makes it. */
  datatype Effect =
    | Jump                                   // ACharacter::Jump, the movement component's own jump
    | StopJumping                            // ACharacter::StopJumping
    | WallSweep(distance: real, radius: real)  // sphere sweep ahead of the actor, ignoring itself
    | FaceAwayFromWall(normal: Vec)          // SetActorRotation to the normal's orientation, pitch = roll = 0
    | Launch(velocity: Vec, xyOverride: bool, zOverride: bool)
    | WallJumpTimerSet(delay: real)          // one-shot timer that calls ResetWallJump
    | MovementInput(axis: Axis, scale: real)
    | ControllerYawInput(yaw: real)
    | ControllerPitchInput(pitch: real)
    | VelocitySet(velocity: Vec)             // direct write of the movement component's velocity
    | DashMontagePlayed                      // Montage_Play on the dash montage
    | DashEndCallbackBound                   // Montage_SetEndDelegate(OnDashMontageEnded)
}
