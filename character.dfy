/** The platforming character: the object whose methods the engine calls on
    input, landing, movement-mode changes, timers and animation ends. Its
    fields are the ones those methods update in place; `effects` records,
    in order, the requests they make of the engine. Each method states its
    whole new state through the matching function of module Abilities. */
module Platforming {
  import opened Engine
  import Tuning
  import Abilities

  class Character {
    /** Designer tuning; never written by the character's own code. */
    const tuning: Tuning.Settings

    // movement state flags (single bits in the engine object)
    var hasWallJumped: bool
    var hasDoubleJumped: bool
    var hasDashed: bool
    var isDashing: bool

    /** World time at which the character last started falling. */
    var lastFallTime: real

    // movement component settings the character writes
    var gravityScale: real
    var maxWalkSpeed: real

    /** Walk speed captured by BeginPlay, restored by StopSprint. */
    var defaultMaxWalkSpeed: real

    /** Engine requests made so far, oldest first. */
    var effects: seq<Effect>

    /** The abstract state the methods are specified against. */
    function State(): Abilities.AbilityState
      reads this
    {
      Abilities.AbilityState(
        hasWallJumped, hasDoubleJumped, hasDashed, isDashing,
        lastFallTime, gravityScale, maxWalkSpeed, defaultMaxWalkSpeed)
    }

    /** Object invariant: gravity is suspended exactly while dashing. */
    ghost predicate Valid()
      reads this
    {
      Abilities.GravityFollowsDash(State())
    }

    /** The constructor clears the four flags and sets the movement
        component's gravity scale and walk speed. */
    constructor (tuning: Tuning.Settings)
      ensures Valid()
      ensures this.tuning == tuning && State() == Abilities.Initial() && effects == []
    {
      this.tuning := tuning;
      hasWallJumped := false;
      hasDoubleJumped := false;
      hasDashed := false;
      isDashing := false;
      lastFallTime := 0.0;
      gravityScale := Abilities.DefaultGravityScale;
      maxWalkSpeed := Abilities.InitialMaxWalkSpeed;
      defaultMaxWalkSpeed := 0.0;
      effects := [];
    }

    // -------------------------------------------------------------------
    // Jumping

    /** Resolves a jump press. `falling` is the movement component's
        IsFalling(), `now` the world time, `wallHit` what the wall sweep
        would report (read only when the sweep is made). */
    method MultiJump(falling: bool, now: real, wallHit: Option<Hit>)
      requires Valid()
      modifies this
      ensures Valid()
      ensures var r := Abilities.MultiJump(old(State()), tuning, falling, now, wallHit);
        State() == r.next && effects == old(effects) + r.effects
      ensures !falling ==> State() == old(State()) && effects == old(effects) + [Jump]
      ensures falling && old(hasWallJumped) ==> State() == old(State()) && effects == old(effects)
    {
      if falling {
        if !hasWallJumped {
          effects := effects + [WallSweep(tuning.wallJumpTraceDistance, tuning.wallJumpTraceRadius)];
          if wallHit.Some? {
            var normal := wallHit.value.impactNormal;
            effects := effects + [FaceAwayFromWall(normal)];
            var impulse := Add(Scale(normal, tuning.wallJumpBounceImpulse), Scale(Up, tuning.wallJumpVerticalImpulse));
            effects := effects + [Launch(impulse, true, true)];
            hasWallJumped := true;
            effects := effects + [WallJumpTimerSet(tuning.delayBetweenWallJumps)];
          }
          if !hasWallJumped {
            if now - lastFallTime < tuning.maxCoyoteTime {
              effects := effects + [Jump];
            } else {
              if !hasDoubleJumped {
                hasDoubleJumped := true;
                effects := effects + [Jump];
              }
            }
          }
        }
      } else {
        effects := effects + [Jump];
      }
    }

    /** The wall-jump timer's callback: releases the wall-jump lock. */
    method ResetWallJump()
      requires Valid()
      modifies this
      ensures Valid()
      ensures State() == Abilities.ResetWallJump(old(State())).next && effects == old(effects)
    {
      hasWallJumped := false;
    }

    /** Jump pressed: routed to MultiJump. */
    method DoJumpStart(falling: bool, now: real, wallHit: Option<Hit>)
      requires Valid()
      modifies this
      ensures Valid()
      ensures var r := Abilities.MultiJump(old(State()), tuning, falling, now, wallHit);
        State() == r.next && effects == old(effects) + r.effects
    {
      MultiJump(falling, now, wallHit);
    }

    /** Jump released: stops the held jump. */
    method DoJumpEnd()
      requires Valid()
      modifies this
      ensures Valid()
      ensures var r := Abilities.DoJumpEnd(old(State()));
        State() == r.next && effects == old(effects) + r.effects
    {
      effects := effects + [StopJumping];
    }

    // -------------------------------------------------------------------
    // Movement and looking

    /** Movement input routed from the input action's 2D value. */
    method Move(value: Vec2, hasController: bool)
      requires Valid()
      modifies this
      ensures Valid()
      ensures var r := Abilities.DoMove(old(State()), hasController, value.x, value.y);
        State() == r.next && effects == old(effects) + r.effects
    {
      DoMove(value.x, value.y, hasController);
    }

    /** Adds camera-relative movement input unless there is no controller
        or a wall jump has just locked movement out. */
    method DoMove(right: real, forward: real, hasController: bool)
      requires Valid()
      modifies this
      ensures Valid()
      ensures var r := Abilities.DoMove(old(State()), hasController, right, forward);
        State() == r.next && effects == old(effects) + r.effects
      ensures old(hasWallJumped) ==> effects == old(effects)
    {
      if hasController {
        if !hasWallJumped {
          effects := effects + [MovementInput(ControlForward, forward)];
          effects := effects + [MovementInput(ControlRight, right)];
        }
      }
    }

    /** Look input routed from the input action's 2D value. */
    method Look(value: Vec2, hasController: bool)
      requires Valid()
      modifies this
      ensures Valid()
      ensures var r := Abilities.DoLook(old(State()), hasController, value.x, value.y);
        State() == r.next && effects == old(effects) + r.effects
    {
      DoLook(value.x, value.y, hasController);
    }

    /** Adds yaw and pitch input to the controller, if there is one. */
    method DoLook(yaw: real, pitch: real, hasController: bool)
      requires Valid()
      modifies this
      ensures Valid()
      ensures var r := Abilities.DoLook(old(State()), hasController, yaw, pitch);
        State() == r.next && effects == old(effects) + r.effects
    {
      if hasController {
        effects := effects + [ControllerYawInput(yaw)];
        effects := effects + [ControllerPitchInput(pitch)];
      }
    }

    // -------------------------------------------------------------------
    // Dashing

    /** Dash input: routed to DoDash. */
    method Dash(anim: DashAnimation)
      requires Valid()
      modifies this
      ensures Valid()
      ensures var r := Abilities.DoDash(old(State()), anim);
        State() == r.next && effects == old(effects) + r.effects
    {
      DoDash(anim);
    }

    /** Starts a dash unless one is spent or in progress. `anim` is what the
        animation instance does when asked to play the dash montage. */
    method DoDash(anim: DashAnimation)
      requires Valid()
      modifies this
      ensures Valid()
      ensures var r := Abilities.DoDash(old(State()), anim);
        State() == r.next && effects == old(effects) + r.effects
      ensures !old(hasDashed || isDashing) ==> hasDashed && isDashing && gravityScale == 0.0
    {
      if hasDashed || isDashing {
        return;
      }
      isDashing := true;
      hasDashed := true;
      gravityScale := Abilities.DashGravityScale;
      effects := effects + [VelocitySet(Zero)];
      if !anim.NoAnimInstance? {
        if anim.DashAlreadyPlaying? {
          return;
        }
        effects := effects + [DashMontagePlayed];
        if anim.length > 0.0 {
          effects := effects + [DashEndCallbackBound];
        }
      }
    }

    /** The dash montage's end callback, interrupted or not. */
    method DashMontageEnded(interrupted: bool, falling: bool)
      requires Valid()
      modifies this
      ensures Valid()
      ensures var r := Abilities.DashMontageEnded(old(State()), interrupted, falling);
        State() == r.next && effects == old(effects) + r.effects
    {
      EndDash(falling);
    }

    /** Restores gravity, ends the dash, and re-arms it when grounded. */
    method EndDash(falling: bool)
      requires Valid()
      modifies this
      ensures Valid()
      ensures var r := Abilities.EndDash(old(State()), falling);
        State() == r.next && effects == old(effects) + r.effects
      ensures gravityScale == 2.5 && !isDashing && (hasDashed <==> old(hasDashed) && falling)
    {
      gravityScale := Abilities.DefaultGravityScale;
      isDashing := false;
      if !falling {
        hasDashed := false;
      }
    }

    // -------------------------------------------------------------------
    // Landing and falling

    /** Landing resets the double jump and the dash. */
    method Landed()
      requires Valid()
      modifies this
      ensures Valid()
      ensures var r := Abilities.Landed(old(State()));
        State() == r.next && effects == old(effects) + r.effects
      ensures !hasDoubleJumped && !hasDashed
      ensures hasWallJumped == old(hasWallJumped) && isDashing == old(isDashing)
    {
      hasDoubleJumped := false;
      hasDashed := false;
    }

    /** Called after the movement component changes mode; `newMode` is its
        mode now, `prevMode` the one it left. */
    method OnMovementModeChanged(prevMode: MovementMode, newMode: MovementMode, now: real)
      requires Valid()
      modifies this
      ensures Valid()
      ensures var r := Abilities.OnMovementModeChanged(old(State()), newMode, now);
        State() == r.next && effects == old(effects) + r.effects
    {
      if newMode == Falling {
        lastFallTime := now;
      }
    }

    // -------------------------------------------------------------------
    // Sprinting

    /** Start of play: captures the walk speed to return to after sprinting. */
    method BeginPlay()
      requires Valid()
      modifies this
      ensures Valid()
      ensures var r := Abilities.BeginPlay(old(State()));
        State() == r.next && effects == old(effects) + r.effects
    {
      defaultMaxWalkSpeed := maxWalkSpeed;
    }

    /** Sprint input: routed to DoSprint. */
    method Sprint()
      requires Valid()
      modifies this
      ensures Valid()
      ensures var r := Abilities.DoSprint(old(State()), tuning);
        State() == r.next && effects == old(effects) + r.effects
    {
      DoSprint();
    }

    method DoSprint()
      requires Valid()
      modifies this
      ensures Valid()
      ensures var r := Abilities.DoSprint(old(State()), tuning);
        State() == r.next && effects == old(effects) + r.effects
    {
      maxWalkSpeed := tuning.sprintSpeed;
    }

    method StopSprint()
      requires Valid()
      modifies this
      ensures Valid()
      ensures var r := Abilities.StopSprint(old(State()));
        State() == r.next && effects == old(effects) + r.effects
    {
      maxWalkSpeed := defaultMaxWalkSpeed;
    }

    // -------------------------------------------------------------------
    // Read-only accessors

    /** Whether the character has double jumped since it last landed. */
    function HasDoubleJumped(): (r: bool)
      reads this
      ensures r <==> State().hasDoubleJumped
    {
      hasDoubleJumped
    }

    /** Whether the wall-jump lock is set. */
    function HasWallJumped(): (r: bool)
      reads this
      ensures r <==> State().hasWallJumped
    {
      hasWallJumped
    }
  }
}
