/** The platforming character's ability state machine as pure transitions.
    Each function takes the state before one of the character's methods
    runs, plus the engine facts that method reads, and gives the state
    after it and the engine requests it made (a Step). The class in
    module Platforming is proved to follow these functions. */
module Abilities {
  import opened Engine
  import Tuning

  /** Gravity scale the constructor gives the movement component and the
      value the end of a dash restores. */
  const DefaultGravityScale: real := 2.5
  /** Gravity scale while a dash is in progress. */
  const DashGravityScale: real := 0.0
  /** MaxWalkSpeed the constructor gives the movement component. */
  const InitialMaxWalkSpeed: real := 750.0

  /** The character's own mutable state: the four single-bit movement
      flags, the time it last started falling, and the two movement
      component settings it writes (gravity scale, max walk speed) with the
      walk speed captured at the start of play. */
  datatype AbilityState = AbilityState(
    hasWallJumped: bool,
    hasDoubleJumped: bool,
    hasDashed: bool,
    isDashing: bool,
    lastFallTime: real,
    gravityScale: real,
    maxWalkSpeed: real,
    defaultMaxWalkSpeed: real)

  /** The outcome of one method call: the new state and the requests made,
      oldest first. */
  datatype Step = Step(next: AbilityState, effects: seq<Effect>)

  /** Gravity is suspended exactly while a dash is in progress. */
  predicate GravityFollowsDash(s: AbilityState) {
    s.gravityScale == if s.isDashing then DashGravityScale else DefaultGravityScale
  }

  /** The state right after construction. The default walk speed has no
      initializer and reads as zero until BeginPlay captures it. */
  function Initial(): (s: AbilityState)
    ensures !s.hasWallJumped && !s.hasDoubleJumped && !s.hasDashed && !s.isDashing
    ensures s.lastFallTime == 0.0
    ensures GravityFollowsDash(s)
  {
    AbilityState(
      hasWallJumped := false,
      hasDoubleJumped := false,
      hasDashed := false,
      isDashing := false,
      lastFallTime := 0.0,
      gravityScale := DefaultGravityScale,
      maxWalkSpeed := InitialMaxWalkSpeed,
      defaultMaxWalkSpeed := 0.0)
  }

  // ---------------------------------------------------------------------
  // Jumping

  /** The one outcome a jump request resolves to. */
  datatype JumpKind =
    | GroundJump           // not falling: a plain jump
    | WallLocked           // falling, and a wall jump is still locking jumps out
    | WallJump(normal: Vec)  // falling, and the wall sweep hit a surface with this normal
    | CoyoteJump           // falling, no wall, still inside the coyote window
    | DoubleJump           // falling, no wall, past the window, double jump still available
    | NoJumpLeft           // falling, no wall, past the window, double jump already spent

  /** Which outcome a jump request has. The wall sweep is only consulted
      when the character is falling and not wall-locked; the coyote window
      is the strict comparison now - lastFallTime < maxCoyoteTime. */
  function JumpKindOf(s: AbilityState, t: Tuning.Settings, falling: bool, now: real, wallHit: Option<Hit>): JumpKind {
    if !falling then GroundJump
    else if s.hasWallJumped then WallLocked
    else if wallHit.Some? then WallJump(wallHit.value.impactNormal)
    else if now - s.lastFallTime < t.maxCoyoteTime then CoyoteJump
    else if !s.hasDoubleJumped then DoubleJump
    else NoJumpLeft
  }

  /** The launch applied by a wall jump: away from the wall along its
      normal, plus straight up. */
  function WallJumpImpulse(normal: Vec, t: Tuning.Settings): Vec {
    Add(Scale(normal, t.wallJumpBounceImpulse), Scale(Up, t.wallJumpVerticalImpulse))
  }

  function Sweep(t: Tuning.Settings): Effect {
    WallSweep(t.wallJumpTraceDistance, t.wallJumpTraceRadius)
  }

  /** MultiJump: what a jump press does, by outcome. A request raises at most
      one of the two jump flags and changes nothing else; the wall is swept
      exactly when falling and not wall-locked; and a wall jump launches
      instead of jumping. */
  function MultiJump(s: AbilityState, t: Tuning.Settings, falling: bool, now: real, wallHit: Option<Hit>): (r: Step)
    ensures r.next == s || r.next == s.(hasWallJumped := true) || r.next == s.(hasDoubleJumped := true)
    ensures Sweep(t) in r.effects <==> falling && !s.hasWallJumped
    ensures r.next.hasWallJumped != s.hasWallJumped ==> Jump !in r.effects
    ensures (exists e :: e in r.effects && e.Launch?) <==> r.next.hasWallJumped != s.hasWallJumped
  {
    match JumpKindOf(s, t, falling, now, wallHit)
    case GroundJump => Step(s, [Jump])
    case WallLocked => Step(s, [])
    case WallJump(n) =>
      var launch := Launch(WallJumpImpulse(n, t), true, true);
      var fx := [Sweep(t), FaceAwayFromWall(n), launch, WallJumpTimerSet(t.delayBetweenWallJumps)];
      assert fx[2] in fx;
      Step(s.(hasWallJumped := true), fx)
    case CoyoteJump => Step(s, [Sweep(t), Jump])
    case DoubleJump => Step(s.(hasDoubleJumped := true), [Sweep(t), Jump])
    case NoJumpLeft => Step(s, [Sweep(t)])
  }

  /** ResetWallJump, the wall-jump timer firing: releases the lock and
      nothing else. */
  function ResetWallJump(s: AbilityState): (r: Step)
    ensures !r.next.hasWallJumped && r.effects == []
    ensures r.next.(hasWallJumped := s.hasWallJumped) == s
  {
    Step(s.(hasWallJumped := false), [])
  }

  /** DoJumpEnd: releasing jump stops the held jump; no state changes. */
  function DoJumpEnd(s: AbilityState): (r: Step)
    ensures r.next == s && |r.effects| == 1 && r.effects[0].StopJumping?
  {
    Step(s, [StopJumping])
  }

  // ---------------------------------------------------------------------
  // Movement and looking

  /** DoMove: with a controller and no wall-jump lock, adds the forward
      input then the right input along the controller's yaw basis;
      otherwise the input is dropped. State never changes. */
  function DoMove(s: AbilityState, hasController: bool, right: real, forward: real): (r: Step)
    ensures r.next == s
    ensures r.effects != [] <==> hasController && !s.hasWallJumped
    ensures r.effects != [] ==>
      r.effects == [MovementInput(ControlForward, forward), MovementInput(ControlRight, right)]
  {
    if hasController && !s.hasWallJumped then
      Step(s, [MovementInput(ControlForward, forward), MovementInput(ControlRight, right)])
    else
      Step(s, [])
  }

  /** DoLook: with a controller, adds yaw then pitch input to it; not gated
      by the wall-jump lock. */
  function DoLook(s: AbilityState, hasController: bool, yaw: real, pitch: real): (r: Step)
    ensures r.next == s
    ensures r.effects != [] <==> hasController
    ensures r.effects != [] ==> r.effects == [ControllerYawInput(yaw), ControllerPitchInput(pitch)]
  {
    if hasController then Step(s, [ControllerYawInput(yaw), ControllerPitchInput(pitch)])
    else Step(s, [])
  }

  // ---------------------------------------------------------------------
  // Dashing

  /** DoDash: ignored while a dash is spent or in progress. Otherwise it
      raises both dash flags, suspends gravity and stops the character
      whatever the animation does; the montage is played unless it is
      already playing or there is no animation instance, and the end
      callback is bound only when the montage reports a positive length. */
  function DoDash(s: AbilityState, anim: DashAnimation): (r: Step)
    ensures s.hasDashed || s.isDashing ==> r == Step(s, [])
    ensures !(s.hasDashed || s.isDashing) ==>
      && r.next == s.(hasDashed := true, isDashing := true, gravityScale := DashGravityScale)
      && r.effects != [] && r.effects[0] == VelocitySet(Zero)
    ensures DashMontagePlayed in r.effects <==> !(s.hasDashed || s.isDashing) && anim.PlayedFor?
    ensures DashEndCallbackBound in r.effects <==>
      !(s.hasDashed || s.isDashing) && anim.PlayedFor? && anim.length > 0.0
    ensures forall e :: e in r.effects ==>
      e == VelocitySet(Zero) || e == DashMontagePlayed || e == DashEndCallbackBound
    ensures !(s.hasDashed || s.isDashing) && anim.PlayedFor? ==>
      r.effects == [VelocitySet(Zero), DashMontagePlayed] + (if anim.length > 0.0 then [DashEndCallbackBound] else [])
    ensures !(s.hasDashed || s.isDashing) && !anim.PlayedFor? ==> r.effects == [VelocitySet(Zero)]
  {
    if s.hasDashed || s.isDashing then Step(s, [])
    else
      var armed := s.(hasDashed := true, isDashing := true, gravityScale := DashGravityScale);
      var stop := [VelocitySet(Zero)];
      match anim
      case NoAnimInstance => Step(armed, stop)
      case DashAlreadyPlaying => Step(armed, stop)
      case PlayedFor(length) =>
        Step(armed, stop + [DashMontagePlayed] + (if length > 0.0 then [DashEndCallbackBound] else []))
  }

  /** EndDash: restores the default gravity, ends the dash, and re-arms
      the dash only when the character is not falling. */
  function EndDash(s: AbilityState, falling: bool): (r: Step)
    ensures r.next.gravityScale == DefaultGravityScale && !r.next.isDashing
    ensures r.next.hasDashed <==> s.hasDashed && falling
    ensures r.next.(gravityScale := s.gravityScale, isDashing := s.isDashing, hasDashed := s.hasDashed) == s
    ensures r.effects == []
  {
    Step(s.(gravityScale := DefaultGravityScale, isDashing := false,
            hasDashed := s.hasDashed && falling), [])
  }

  /** DashMontageEnded: ends the dash whether the montage completed or
      was interrupted. */
  function DashMontageEnded(s: AbilityState, interrupted: bool, falling: bool): (r: Step)
    ensures r == EndDash(s, falling)
  {
    EndDash(s, falling)
  }

  // ---------------------------------------------------------------------
  // Landing and falling

  /** Landed: resets the double jump and the dash; the wall-jump lock and
      an ongoing dash are left alone. */
  function Landed(s: AbilityState): (r: Step)
    ensures !r.next.hasDoubleJumped && !r.next.hasDashed
    ensures r.next.(hasDoubleJumped := s.hasDoubleJumped, hasDashed := s.hasDashed) == s
    ensures r.effects == []
  {
    Step(s.(hasDoubleJumped := false, hasDashed := false), [])
  }

  /** OnMovementModeChanged: records the time the character started
      falling; any other new mode leaves the state alone. */
  function OnMovementModeChanged(s: AbilityState, newMode: MovementMode, now: real): (r: Step)
    ensures r.next.(lastFallTime := s.lastFallTime) == s && r.effects == []
    ensures r.next.lastFallTime != s.lastFallTime ==> newMode == Falling && r.next.lastFallTime == now
    ensures newMode == Falling ==> r.next.lastFallTime == now
  {
    if newMode == Falling then Step(s.(lastFallTime := now), []) else Step(s, [])
  }

  // ---------------------------------------------------------------------
  // Sprinting

  /** BeginPlay: remembers the walk speed in force at the start of play. */
  function BeginPlay(s: AbilityState): (r: Step)
    ensures r.next.defaultMaxWalkSpeed == s.maxWalkSpeed
    ensures r.next.(defaultMaxWalkSpeed := s.defaultMaxWalkSpeed) == s && r.effects == []
  {
    Step(s.(defaultMaxWalkSpeed := s.maxWalkSpeed), [])
  }

  /** DoSprint: the walk speed becomes the sprint speed. */
  function DoSprint(s: AbilityState, t: Tuning.Settings): (r: Step)
    ensures r.next.maxWalkSpeed == t.sprintSpeed
    ensures r.next.(maxWalkSpeed := s.maxWalkSpeed) == s && r.effects == []
  {
    Step(s.(maxWalkSpeed := t.sprintSpeed), [])
  }

  /** StopSprint: the walk speed goes back to the one captured at the
      start of play. */
  function StopSprint(s: AbilityState): (r: Step)
    ensures r.next.maxWalkSpeed == s.defaultMaxWalkSpeed
    ensures r.next.(maxWalkSpeed := s.maxWalkSpeed) == s && r.effects == []
  {
    Step(s.(maxWalkSpeed := s.defaultMaxWalkSpeed), [])
  }

  // ---------------------------------------------------------------------
  // What one jump request does, case by case

  /** On the ground a request is a plain jump and changes no flag. */
  lemma GroundedRequestJumps(s: AbilityState, t: Tuning.Settings, now: real, wallHit: Option<Hit>)
    ensures MultiJump(s, t, false, now, wallHit) == Step(s, [Jump])
  {
  }

  /** In the air with the wall-jump lock set, a request does nothing: no
      sweep, no jump, no flag change. */
  lemma WallLockedRequestIsIgnored(s: AbilityState, t: Tuning.Settings, now: real, wallHit: Option<Hit>)
    requires s.hasWallJumped
    ensures MultiJump(s, t, true, now, wallHit) == Step(s, [])
  {
  }

  /** A wall hit turns the character away from the wall, launches it along
      normal * bounce + up * vertical with both velocity components
      overridden, sets the lock and schedules its release; it does not also
      jump, and the double jump is not spent. */
  lemma WallHitWallJumps(s: AbilityState, t: Tuning.Settings, now: real, hit: Hit)
    requires !s.hasWallJumped
    ensures MultiJump(s, t, true, now, Some(hit)).next == s.(hasWallJumped := true)
    ensures MultiJump(s, t, true, now, Some(hit)).effects ==
      [Sweep(t), FaceAwayFromWall(hit.impactNormal), Launch(WallJumpImpulse(hit.impactNormal, t), true, true),
       WallJumpTimerSet(t.delayBetweenWallJumps)]
    ensures var n := hit.impactNormal;
      WallJumpImpulse(n, t) == Vec(n.x * t.wallJumpBounceImpulse, n.y * t.wallJumpBounceImpulse,
                                   n.z * t.wallJumpBounceImpulse + t.wallJumpVerticalImpulse)
    ensures Jump !in MultiJump(s, t, true, now, Some(hit)).effects
  {
  }

  /** No wall, inside the coyote window (strictly): a plain jump that keeps
      the double jump available. */
  lemma CoyoteJumpKeepsDoubleJump(s: AbilityState, t: Tuning.Settings, now: real)
    requires !s.hasWallJumped
    requires now - s.lastFallTime < t.maxCoyoteTime
    ensures MultiJump(s, t, true, now, None) == Step(s, [Sweep(t), Jump])
  {
  }

  /** No wall, past the coyote window: a jump happens exactly when the double
      jump was still available, and afterwards it is spent. */
  lemma DoubleJumpPastCoyoteWindow(s: AbilityState, t: Tuning.Settings, now: real)
    requires !s.hasWallJumped
    requires now - s.lastFallTime >= t.maxCoyoteTime
    ensures var r := MultiJump(s, t, true, now, None);
      && (Jump in r.effects <==> !s.hasDoubleJumped)
      && r.next == s.(hasDoubleJumped := true)
  {
  }
}
