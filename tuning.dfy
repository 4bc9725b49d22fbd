/** The designer-editable tuning values of the platforming character, with
    the defaults and editor clamp ranges its header declares. The engine
    stores them as 32-bit floats; here they are exact reals. */
module Tuning {

  datatype Settings = Settings(
    wallJumpTraceDistance: real,    // cm, how far ahead the wall sweep reaches
    wallJumpTraceRadius: real,      // cm, radius of the wall sweep sphere
    wallJumpBounceImpulse: real,    // cm/s, launch away from the wall
    wallJumpVerticalImpulse: real,  // cm/s, launch upwards
    delayBetweenWallJumps: real,    // s, until the wall-jump lock is released
    maxCoyoteTime: real,            // s, how long after starting to fall a jump still counts as grounded
    sprintSpeed: real               // cm/s, walk speed while sprint is held
  )

  /** The ranges the editor clamps each value to. The sprint speed is
      declared without a clamp. */
  predicate InEditorRange(t: Settings) {
    && 0.0 <= t.wallJumpTraceDistance <= 1000.0
    && 0.0 <= t.wallJumpTraceRadius <= 100.0
    && 0.0 <= t.wallJumpBounceImpulse <= 10000.0
    && 0.0 <= t.wallJumpVerticalImpulse <= 10000.0
    && 0.0 <= t.delayBetweenWallJumps <= 5.0
    && 0.0 <= t.maxCoyoteTime <= 5.0
  }

  /** The header's default values; each lies inside its editor range, and
      the coyote window is open (positive) by default. */
  function Defaults(): (t: Settings)
    ensures InEditorRange(t)
    ensures 0.0 < t.maxCoyoteTime && 0.0 < t.delayBetweenWallJumps
  {
    Settings(
      wallJumpTraceDistance := 50.0,
      wallJumpTraceRadius := 50.0,
      wallJumpBounceImpulse := 800.0,
      wallJumpVerticalImpulse := 900.0,
      delayBetweenWallJumps := 0.1,
      maxCoyoteTime := 0.16,
      sprintSpeed := 800.0)
  }
}
