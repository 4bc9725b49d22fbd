/** Sequences of engine events delivered to one character, and what the
    ability state machine guarantees across them: the dash is re-armed only
    by landing or by a dash ending on the ground, the wall-jump lock holds
    until its timer fires, the double jump is spent until landing, gravity
    stays tied to the dash, the sprint speed is undone by the speed captured
    at the start of play, and the fall time is the latest fall's. */
module AbilityTraces {
  import opened Engine
  import Tuning
  import opened Abilities

  /** One call the engine makes on the character, with the facts that
      call reads. */
  datatype Event =
    | JumpPressed(falling: bool, now: real, wallHit: Option<Hit>)
    | JumpReleased
    | WallJumpTimerFired
    | MoveInput(hasController: bool, right: real, forward: real)
    | LookInput(hasController: bool, yaw: real, pitch: real)
    | DashPressed(anim: DashAnimation)
    | DashEnded(interrupted: bool, falling: bool)
    | LandedOnGround
    | ModeChanged(newMode: MovementMode, now: real)
    | PlayStarted
    | SprintPressed
    | SprintReleased

  /** The character method each event runs. */
  function Apply(s: AbilityState, t: Tuning.Settings, e: Event): Step {
    match e
    case JumpPressed(falling, now, hit) => MultiJump(s, t, falling, now, hit)
    case JumpReleased => DoJumpEnd(s)
    case WallJumpTimerFired => ResetWallJump(s)
    case MoveInput(c, right, forward) => DoMove(s, c, right, forward)
    case LookInput(c, yaw, pitch) => DoLook(s, c, yaw, pitch)
    case DashPressed(anim) => DoDash(s, anim)
    case DashEnded(interrupted, falling) => DashMontageEnded(s, interrupted, falling)
    case LandedOnGround => Landed(s)
    case ModeChanged(mode, now) => OnMovementModeChanged(s, mode, now)
    case PlayStarted => BeginPlay(s)
    case SprintPressed => DoSprint(s, t)
    case SprintReleased => StopSprint(s)
  }

  /** The events in order: the final state and every request made. */
  function Run(s: AbilityState, t: Tuning.Settings, evs: seq<Event>): Step
    decreases |evs|
  {
    if evs == [] then Step(s, [])
    else
      var first := Apply(s, t, evs[0]);
      var rest := Run(first.next, t, evs[1..]);
      Step(rest.next, first.effects + rest.effects)
  }

  /** Running one more event continues from where the run left off. */
  lemma {:induction false} RunSnoc(s: AbilityState, t: Tuning.Settings, evs: seq<Event>, e: Event)
    ensures var r := Run(s, t, evs); var last := Apply(r.next, t, e);
      Run(s, t, evs + [e]) == Step(last.next, r.effects + last.effects)
    decreases |evs|
  {
    if evs == [] {
      assert evs + [e] == [e];
      assert [e][1..] == [];
    } else {
      var first := Apply(s, t, evs[0]);
      assert (evs + [e])[0] == evs[0];
      assert (evs + [e])[1..] == evs[1..] + [e];
      RunSnoc(first.next, t, evs[1..], e);
      var rest := Run(first.next, t, evs[1..]);
      var last := Apply(rest.next, t, e);
      assert first.effects + (rest.effects + last.effects) == (first.effects + rest.effects) + last.effects;
    }
  }

  // ---------------------------------------------------------------------
  // Gravity follows the dash

  lemma ApplyKeepsGravityFollowsDash(s: AbilityState, t: Tuning.Settings, e: Event)
    requires GravityFollowsDash(s)
    ensures GravityFollowsDash(Apply(s, t, e).next)
  {
  }

  /** Whatever the events, gravity is suspended exactly while dashing: the
      dash sets scale 0 as it starts and its end restores 2.5. */
  lemma {:induction false} GravityFollowsDashAlways(s: AbilityState, t: Tuning.Settings, evs: seq<Event>)
    requires GravityFollowsDash(s)
    ensures GravityFollowsDash(Run(s, t, evs).next)
    decreases |evs|
  {
    if evs != [] {
      ApplyKeepsGravityFollowsDash(s, t, evs[0]);
      GravityFollowsDashAlways(Apply(s, t, evs[0]).next, t, evs[1..]);
    }
  }

  // ---------------------------------------------------------------------
  // The dash is re-armed only by landing or by ending on the ground

  /** The events that can clear the dash-spent flag. */
  predicate RearmsDash(e: Event) {
    e.LandedOnGround? || (e.DashEnded? && !e.falling)
  }

  /** Once spent, the dash stays spent through any events other than a
      landing or a dash ending while not falling. */
  lemma {:induction false} DashStaysSpent(s: AbilityState, t: Tuning.Settings, evs: seq<Event>)
    requires s.hasDashed
    requires forall e :: e in evs ==> !RearmsDash(e)
    ensures Run(s, t, evs).next.hasDashed
    decreases |evs|
  {
    if evs != [] {
      assert evs[0] in evs;
      forall e | e in evs[1..] ensures !RearmsDash(e) {
        assert e in evs;
      }
      DashStaysSpent(Apply(s, t, evs[0]).next, t, evs[1..]);
    }
  }

  /** Hence, after a successful dash, seeing the dash available again means
      one of the events was a landing or a grounded dash end. */
  lemma DashRearmNeedsLandingOrGroundedEnd(s: AbilityState, t: Tuning.Settings, anim: DashAnimation, evs: seq<Event>)
    requires !s.hasDashed && !s.isDashing
    requires !Run(DoDash(s, anim).next, t, evs).next.hasDashed
    ensures exists e :: e in evs && RearmsDash(e)
  {
    if forall e :: e in evs ==> !RearmsDash(e) {
      DashStaysSpent(DoDash(s, anim).next, t, evs);
    }
  }

  /** A dash is ended only by its montage's end callback: without one, the
      character stays dashing with gravity suspended, whatever else
      happens. The callback is bound only when the montage reported a
      positive length (see DoDash), so a montage that is missing or fails
      to play leaves the dash running. */
  lemma {:induction false} DashEndsOnlyByMontageEnd(s: AbilityState, t: Tuning.Settings, evs: seq<Event>)
    requires s.isDashing
    requires forall e :: e in evs ==> !e.DashEnded?
    ensures Run(s, t, evs).next.isDashing
    ensures Run(s, t, evs).next.gravityScale == s.gravityScale
    decreases |evs|
  {
    if evs != [] {
      assert evs[0] in evs;
      forall e | e in evs[1..] ensures !e.DashEnded? {
        assert e in evs;
      }
      DashEndsOnlyByMontageEnd(Apply(s, t, evs[0]).next, t, evs[1..]);
    }
  }

  // ---------------------------------------------------------------------
  // The wall-jump lock

  /** Requests that the wall-jump lock rules out: another wall sweep or
      launch, a new lock timer, and movement input. */
  predicate BlockedByWallLock(e: Effect) {
    e.WallSweep? || e.Launch? || e.WallJumpTimerSet? || e.MovementInput?
  }

  /** Until the wall-jump timer fires, the lock stays set: no jump request
      sweeps for a wall or launches again, and movement input is dropped. */
  lemma {:induction false} WallLockHoldsUntilTimer(s: AbilityState, t: Tuning.Settings, evs: seq<Event>)
    requires s.hasWallJumped
    requires WallJumpTimerFired !in evs
    ensures Run(s, t, evs).next.hasWallJumped
    ensures forall e :: e in Run(s, t, evs).effects ==> !BlockedByWallLock(e)
    decreases |evs|
  {
    if evs != [] {
      assert evs[0] in evs;
      assert evs == [evs[0]] + evs[1..];
      var first := Apply(s, t, evs[0]);
      WallLockHoldsUntilTimer(first.next, t, evs[1..]);
    }
  }

  /** A wall jump sets the lock, so every airborne jump request before the
      timer fires does nothing at all. */
  lemma WallJumpLocksOutJumps(s: AbilityState, t: Tuning.Settings, now: real, hit: Hit,
                              evs: seq<Event>, later: real, laterHit: Option<Hit>)
    requires !s.hasWallJumped
    requires WallJumpTimerFired !in evs
    ensures var mid := Run(MultiJump(s, t, true, now, Some(hit)).next, t, evs).next;
      MultiJump(mid, t, true, later, laterHit) == Step(mid, [])
  {
    WallLockHoldsUntilTimer(MultiJump(s, t, true, now, Some(hit)).next, t, evs);
  }

  // ---------------------------------------------------------------------
  // One double jump per landing

  /** The double jump stays spent until the character lands. */
  lemma {:induction false} DoubleJumpSpentUntilLanded(s: AbilityState, t: Tuning.Settings, evs: seq<Event>)
    requires s.hasDoubleJumped
    requires LandedOnGround !in evs
    ensures Run(s, t, evs).next.hasDoubleJumped
    decreases |evs|
  {
    if evs != [] {
      assert evs[0] in evs;
      assert evs == [evs[0]] + evs[1..];
      DoubleJumpSpentUntilLanded(Apply(s, t, evs[0]).next, t, evs[1..]);
    }
  }

  /** After a double jump, a request that again finds no wall and is past
      the coyote window produces no jump until the character lands. */
  lemma NoSecondDoubleJump(s: AbilityState, t: Tuning.Settings, now: real, evs: seq<Event>, later: real)
    requires JumpKindOf(s, t, true, now, None) == DoubleJump
    requires LandedOnGround !in evs
    requires var mid := Run(MultiJump(s, t, true, now, None).next, t, evs).next;
      later - mid.lastFallTime >= t.maxCoyoteTime
    ensures var mid := Run(MultiJump(s, t, true, now, None).next, t, evs).next;
      Jump !in MultiJump(mid, t, true, later, None).effects
  {
    DoubleJumpSpentUntilLanded(MultiJump(s, t, true, now, None).next, t, evs);
  }

  // ---------------------------------------------------------------------
  // Sprinting

  /** The walk speed is either the speed captured at the start of play or
      the sprint speed. */
  predicate WalkSpeedSettled(s: AbilityState, t: Tuning.Settings) {
    s.maxWalkSpeed == s.defaultMaxWalkSpeed || s.maxWalkSpeed == t.sprintSpeed
  }

  /** After the start of play the walk speed only ever switches between the
      captured speed and the sprint speed, and the captured speed is not
      changed by anything but the start of play. */
  lemma {:induction false} SprintOnlySwitchesSpeeds(s: AbilityState, t: Tuning.Settings, evs: seq<Event>)
    requires WalkSpeedSettled(s, t)
    requires PlayStarted !in evs
    ensures WalkSpeedSettled(Run(s, t, evs).next, t)
    ensures Run(s, t, evs).next.defaultMaxWalkSpeed == s.defaultMaxWalkSpeed
    decreases |evs|
  {
    if evs != [] {
      assert evs[0] in evs;
      assert evs == [evs[0]] + evs[1..];
      SprintOnlySwitchesSpeeds(Apply(s, t, evs[0]).next, t, evs[1..]);
    }
  }

  /** Releasing sprint, at any point after the start of play, restores the
      walk speed the start of play captured. */
  lemma SprintReleaseRestoresCapturedSpeed(s: AbilityState, t: Tuning.Settings, evs: seq<Event>)
    requires PlayStarted !in evs
    ensures Run(s, t, [PlayStarted] + evs + [SprintReleased]).next.maxWalkSpeed == s.maxWalkSpeed
  {
    var started := BeginPlay(s).next;
    assert WalkSpeedSettled(started, t);
    SprintOnlySwitchesSpeeds(started, t, evs);
    RunSnoc(s, t, [PlayStarted] + evs, SprintReleased);
    assert ([PlayStarted] + evs)[1..] == evs;
  }

  // ---------------------------------------------------------------------
  // The fall time is the latest fall's

  predicate StartsFall(e: Event) {
    e.ModeChanged? && e.newMode == Falling
  }

  /** evs[i] is the last event that starts a fall. */
  predicate LatestFallAt(evs: seq<Event>, i: int) {
    0 <= i < |evs| && StartsFall(evs[i]) && forall j :: i < j < |evs| ==> !StartsFall(evs[j])
  }

  /** The recorded fall time is the time of the latest change into the
      falling mode, or the initial one when there was none. */
  lemma {:induction false} FallTimeIsLatestFall(s: AbilityState, t: Tuning.Settings, evs: seq<Event>)
    ensures (forall i :: 0 <= i < |evs| ==> !StartsFall(evs[i])) ==>
      Run(s, t, evs).next.lastFallTime == s.lastFallTime
    ensures forall i :: LatestFallAt(evs, i) ==> Run(s, t, evs).next.lastFallTime == evs[i].now
    decreases |evs|
  {
    if evs != [] {
      var first := Apply(s, t, evs[0]);
      var tail := evs[1..];
      FallTimeIsLatestFall(first.next, t, tail);
      var final := Run(s, t, evs).next;
      assert final == Run(first.next, t, tail).next;
      if forall i :: 0 <= i < |evs| ==> !StartsFall(evs[i]) {
        assert !StartsFall(evs[0]);
        assert forall i :: 0 <= i < |tail| ==> !StartsFall(tail[i]) by {
          forall i | 0 <= i < |tail| ensures !StartsFall(tail[i]) {
            assert tail[i] == evs[i + 1];
          }
        }
      }
      forall i | LatestFallAt(evs, i)
        ensures final.lastFallTime == evs[i].now
      {
        if i == 0 {
          assert forall k :: 0 <= k < |tail| ==> !StartsFall(tail[k]) by {
            forall k | 0 <= k < |tail| ensures !StartsFall(tail[k]) {
              assert tail[k] == evs[k + 1];
            }
          }
        } else {
          assert tail[i - 1] == evs[i];
          assert forall j :: i - 1 < j < |tail| ==> !StartsFall(tail[j]) by {
            forall j | i - 1 < j < |tail| ensures !StartsFall(tail[j]) {
              assert tail[j] == evs[j + 1];
            }
          }
        }
      }
    }
  }

  // ---------------------------------------------------------------------
  // Scenarios with the default tuning

  /** Airborne 0.10 s after starting to fall (window 0.16 s): a plain jump
      that keeps the double jump; airborne 0.20 s: the double jump. */
  lemma CoyoteWindowScenarios(s: AbilityState)
    requires !s.hasWallJumped && !s.hasDoubleJumped
    ensures var r := MultiJump(s, Tuning.Defaults(), true, s.lastFallTime + 0.10, None);
      Jump in r.effects && !r.next.hasDoubleJumped
    ensures var r := MultiJump(s, Tuning.Defaults(), true, s.lastFallTime + 0.20, None);
      Jump in r.effects && r.next.hasDoubleJumped
  {
    CoyoteJumpKeepsDoubleJump(s, Tuning.Defaults(), s.lastFallTime + 0.10);
    DoubleJumpPastCoyoteWindow(s, Tuning.Defaults(), s.lastFallTime + 0.20);
  }

  /** Leaving the ground by jumping also changes the mode to falling and so
      opens the coyote window: a second press within it is another plain
      jump, and the double jump is still available afterwards. Three jumps
      are requested in one airborne phase. */
  lemma JumpOpensCoyoteWindow(s: AbilityState, t0: real)
    requires !s.hasWallJumped && !s.hasDoubleJumped
    ensures var t := Tuning.Defaults();
      var evs := [JumpPressed(false, t0, None), ModeChanged(Falling, t0),
                  JumpPressed(true, t0 + 0.1, None), JumpPressed(true, t0 + 0.5, None)];
      Run(s, t, evs).effects == [Jump, Sweep(t), Jump, Sweep(t), Jump]
      && Run(s, t, evs).next.hasDoubleJumped
  {
    var t := Tuning.Defaults();
    var e1, e2 := JumpPressed(false, t0, None), ModeChanged(Falling, t0);
    var e3, e4 := JumpPressed(true, t0 + 0.1, None), JumpPressed(true, t0 + 0.5, None);
    var s1 := MultiJump(s, t, false, t0, None).next;
    var s2 := OnMovementModeChanged(s1, Falling, t0).next;
    CoyoteJumpKeepsDoubleJump(s2, t, t0 + 0.1);
    DoubleJumpPastCoyoteWindow(s2, t, t0 + 0.5);
    var s4 := s2.(hasDoubleJumped := true);
    assert [e4][1..] == [];
    assert Run(s2, t, [e4]) == Step(s4, [Sweep(t), Jump]);
    assert [e3, e4][1..] == [e4];
    assert Run(s2, t, [e3, e4]) == Step(s4, [Sweep(t), Jump, Sweep(t), Jump]);
    assert [e2, e3, e4][1..] == [e3, e4];
    assert Run(s1, t, [e2, e3, e4]) == Step(s4, [Sweep(t), Jump, Sweep(t), Jump]);
    assert [e1, e2, e3, e4][1..] == [e2, e3, e4];
  }
}
