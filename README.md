# Platforming character ability state machine

A Dafny model of the movement abilities of the platforming character of the
TriangleGameJam game module, and of its game mode's spawn-point choice.

The character keeps four single-bit flags (wall jumped, double jumped, dash
spent, dashing), the time it last started falling, and the gravity scale and
walk speeds it writes into its movement component. Engine callbacks change
them: a jump press resolves to exactly one of a grounded jump, a wall jump, a
coyote-time jump, a double jump or nothing; the wall-jump timer releases the
wall-jump lock; movement input is dropped while that lock is set or without a
controller; a dash suspends gravity until its montage ends and is re-armed only
on the ground; landing resets the double jump and the dash; entering the
falling mode stamps the fall time; sprinting swaps the walk speed and releasing
it restores the speed captured at the start of play.

The game mode spawns the player at the first actor carrying the tag the game
instance remembers across level loads, or falls back to the engine's default
player start.

Files:

- `engine.dfy` (module `Engine`): the engine facts the character reads (sweep
  hits, movement modes, what the dash montage does) and the requests it makes
  (`Effect`: jump, sweep, launch, timer, movement input, ...).
- `tuning.dfy` (module `Tuning`): the designer tuning values, their defaults
  and their editor clamp ranges.
- `abilities.dfy` (module `Abilities`): each character method as a pure
  transition from the state before to the state after plus the requests made,
  and what one jump request does, case by case.
- `character.dfy` (module `Platforming`): the character as a class whose
  fields are updated in place, each method proved to follow its transition
  and to keep gravity tied to the dash.
- `ability_traces.dfy` (module `AbilityTraces`): sequences of engine events
  and the properties that hold across them.
- `game_mode.dfy` (module `GameMode`): the spawn-point choice.

Engine facts are parameters: whether the character is falling, the world time,
what the wall sweep would hit, whether there is a controller, what the
animation instance does with the dash montage, and the new movement mode.
Engine requests are appended to the `effects` field in the order the code
makes them.

Some behaviours of the code, as modelled: `DoDash` reads only the two dash
flags, so a dash is allowed while mantling; `DoMove` checks only the
controller and the wall-jump lock, with no mantle or side-scroll handling;
the end of a dash writes the literal gravity scale 2.5; and the last fall
time starts at 0.0.

## Model

| member | source | states |
|---|---|---|
| Tuning.Defaults | Source/TriangleGameJam/Variant_Platforming/PlatformingCharacter.h:208-252 | The header's defaults (trace 50/50 cm, impulses 800/900, wall-jump delay 0.1 s, coyote 0.16 s, sprint 800) lie inside the editor clamp ranges, and the coyote window and the wall-jump delay are positive. |
| Abilities.Initial | Source/TriangleGameJam/Variant_Platforming/PlatformingCharacter.cpp:16-48 | After construction the four flags are clear, the fall time is 0.0, and gravity is the non-dashing 2.5. |
| Abilities.MultiJump | Source/TriangleGameJam/Variant_Platforming/PlatformingCharacter.cpp:109-187 | A jump request raises at most one of the two jump flags and changes nothing else; it sweeps for a wall exactly when falling and not wall-locked; it launches exactly when it sets the wall-jump lock, and then does not also jump. |
| Abilities.GroundedRequestJumps | Source/TriangleGameJam/Variant_Platforming/PlatformingCharacter.cpp:182-186 | Not falling: exactly one Jump and no state change. |
| Abilities.WallLockedRequestIsIgnored | Source/TriangleGameJam/Variant_Platforming/PlatformingCharacter.cpp:116-120 | Falling with the wall-jump lock set: no sweep, no jump, no change. |
| Abilities.WallHitWallJumps | Source/TriangleGameJam/Variant_Platforming/PlatformingCharacter.cpp:132-156 | On a wall hit: face away from the wall, launch with normal * bounce + up * vertical (both components overridden), set the lock, schedule its release after the wall-jump delay; no Jump, double-jump flag unchanged. |
| Abilities.CoyoteJumpKeepsDoubleJump | Source/TriangleGameJam/Variant_Platforming/PlatformingCharacter.cpp:156-165 | No wall hit and now - lastFallTime < maxCoyoteTime (strict): a Jump with no state change, so the double jump stays available. |
| Abilities.DoubleJumpPastCoyoteWindow | Source/TriangleGameJam/Variant_Platforming/PlatformingCharacter.cpp:166-177 | No wall hit outside the window: a Jump happens iff the double jump was unspent, and afterwards it is spent. |
| Abilities.ResetWallJump | Source/TriangleGameJam/Variant_Platforming/PlatformingCharacter.cpp:189-193 | The timer callback clears the wall-jump lock and nothing else. |
| Abilities.DoJumpEnd | Source/TriangleGameJam/Variant_Platforming/PlatformingCharacter.cpp:278-282 | Releasing jump requests StopJumping and changes no state. |
| Abilities.DoMove | Source/TriangleGameJam/Variant_Platforming/PlatformingCharacter.cpp:195-217 | Movement input is added (forward, then right) iff there is a controller and no wall-jump lock; state never changes. |
| Abilities.DoLook | Source/TriangleGameJam/Variant_Platforming/PlatformingCharacter.cpp:219-227 | Yaw then pitch input is added iff there is a controller; state never changes. |
| Abilities.DoDash | Source/TriangleGameJam/Variant_Platforming/PlatformingCharacter.cpp:229-263 | Ignored while the dash is spent or in progress; otherwise both dash flags are raised, gravity is 0 and velocity is zeroed whatever the animation does; the montage is played iff the dash started and there is an animation instance not already playing it; the end callback is bound iff, in addition, the montage reported a positive length; the requests come in that order (velocity, play, callback) and no other request is made. |
| Abilities.EndDash | Source/TriangleGameJam/Variant_Platforming/PlatformingCharacter.cpp:290-303 | Gravity back to 2.5, dashing cleared, and the dash stays spent iff it was spent and the character is falling; nothing else changes. |
| Abilities.DashMontageEnded | Source/TriangleGameJam/Variant_Platforming/PlatformingCharacter.cpp:284-288 | Ends the dash the same way whether the montage was interrupted or not. |
| Abilities.Landed | Source/TriangleGameJam/Variant_Platforming/PlatformingCharacter.cpp:349-359 | Clears the double-jump and dash-spent flags and nothing else (wall-jump lock and dashing untouched). |
| Abilities.OnMovementModeChanged | Source/TriangleGameJam/Variant_Platforming/PlatformingCharacter.cpp:361-371 | The fall time changes only when the new mode is Falling, and then becomes now; nothing else changes. |
| Abilities.BeginPlay | Source/TriangleGameJam/Variant_Platforming/PlatformingCharacter.cpp:373-379 | Captures the current walk speed as the default; nothing else changes. |
| Abilities.DoSprint | Source/TriangleGameJam/Variant_Platforming/PlatformingCharacter.cpp:265-270 | The walk speed becomes the sprint speed; nothing else changes. |
| Abilities.StopSprint | Source/TriangleGameJam/Variant_Platforming/PlatformingCharacter.cpp:383-388 | The walk speed becomes the captured default; nothing else changes. |
| Platforming.Character.constructor | Source/TriangleGameJam/Variant_Platforming/PlatformingCharacter.cpp:16-48 | The new object holds the initial state, no requests, and the gravity invariant. |
| Platforming.Character.MultiJump | Source/TriangleGameJam/Variant_Platforming/PlatformingCharacter.cpp:109-187 | The nested branches of the jump press produce exactly the state and requests of Abilities.MultiJump; grounded it only appends Jump, wall-locked in the air it does nothing. |
| Platforming.Character.ResetWallJump | Source/TriangleGameJam/Variant_Platforming/PlatformingCharacter.cpp:189-193 | Clears the wall-jump lock, leaves every other field and the request log unchanged (Abilities.ResetWallJump), and keeps the gravity invariant. |
| Platforming.Character.DoJumpStart | Source/TriangleGameJam/Variant_Platforming/PlatformingCharacter.cpp:272-276 | Routes to MultiJump. |
| Platforming.Character.DoJumpEnd | Source/TriangleGameJam/Variant_Platforming/PlatformingCharacter.cpp:278-282 | Appends StopJumping and changes no field (Abilities.DoJumpEnd). |
| Platforming.Character.Move | Source/TriangleGameJam/Variant_Platforming/PlatformingCharacter.cpp:80-86 | Routes X to right and Y to forward of DoMove. |
| Platforming.Character.DoMove | Source/TriangleGameJam/Variant_Platforming/PlatformingCharacter.cpp:195-217 | Appends forward then right movement input iff there is a controller and no wall-jump lock, changing no field (Abilities.DoMove); with the lock set the log is unchanged. |
| Platforming.Character.Look | Source/TriangleGameJam/Variant_Platforming/PlatformingCharacter.cpp:88-94 | Routes X to yaw and Y to pitch of DoLook. |
| Platforming.Character.DoLook | Source/TriangleGameJam/Variant_Platforming/PlatformingCharacter.cpp:219-227 | Appends yaw then pitch controller input iff there is a controller, changing no field (Abilities.DoLook). |
| Platforming.Character.Dash | Source/TriangleGameJam/Variant_Platforming/PlatformingCharacter.cpp:103-107 | Routes to DoDash. |
| Platforming.Character.DoDash | Source/TriangleGameJam/Variant_Platforming/PlatformingCharacter.cpp:229-263 | Follows Abilities.DoDash, including the early return when the montage is already playing; a started dash leaves both flags set and gravity 0. |
| Platforming.Character.DashMontageEnded | Source/TriangleGameJam/Variant_Platforming/PlatformingCharacter.cpp:284-288 | Calls EndDash whatever the interrupted flag. |
| Platforming.Character.EndDash | Source/TriangleGameJam/Variant_Platforming/PlatformingCharacter.cpp:290-303 | Gravity 2.5, not dashing, dash spent iff it was and the character is falling. |
| Platforming.Character.Landed | Source/TriangleGameJam/Variant_Platforming/PlatformingCharacter.cpp:349-359 | Clears double-jump and dash-spent flags, leaves the wall-jump lock and dashing flag. |
| Platforming.Character.OnMovementModeChanged | Source/TriangleGameJam/Variant_Platforming/PlatformingCharacter.cpp:361-371 | Sets the fall time to now iff the new mode (not the previous one) is Falling; nothing else changes (Abilities.OnMovementModeChanged). |
| Platforming.Character.BeginPlay | Source/TriangleGameJam/Variant_Platforming/PlatformingCharacter.cpp:373-379 | Captures the current walk speed as the default; nothing else changes (Abilities.BeginPlay). |
| Platforming.Character.Sprint | Source/TriangleGameJam/Variant_Platforming/PlatformingCharacter.cpp:96-99 | Routes to DoSprint. |
| Platforming.Character.DoSprint | Source/TriangleGameJam/Variant_Platforming/PlatformingCharacter.cpp:265-270 | Sets the walk speed to the tuned sprint speed; nothing else changes (Abilities.DoSprint). |
| Platforming.Character.StopSprint | Source/TriangleGameJam/Variant_Platforming/PlatformingCharacter.cpp:383-388 | Sets the walk speed back to the captured default; nothing else changes (Abilities.StopSprint). |
| Platforming.Character.HasDoubleJumped | Source/TriangleGameJam/Variant_Platforming/PlatformingCharacter.cpp:305-308 | A read-only accessor (a function: it cannot change state) giving the double-jump flag. |
| Platforming.Character.HasWallJumped | Source/TriangleGameJam/Variant_Platforming/PlatformingCharacter.cpp:310-313 | A read-only accessor giving the wall-jump lock. |
| AbilityTraces.ApplyKeepsGravityFollowsDash | Source/TriangleGameJam/Variant_Platforming/PlatformingCharacter.cpp:229-303 | Every single event keeps gravity 0 exactly while dashing and 2.5 otherwise. |
| AbilityTraces.GravityFollowsDashAlways | Source/TriangleGameJam/Variant_Platforming/PlatformingCharacter.cpp:229-303 | Over any sequence of events gravity is 0 exactly while dashing and 2.5 otherwise. |
| AbilityTraces.DashStaysSpent | Source/TriangleGameJam/Variant_Platforming/PlatformingCharacter.cpp:290-303 | A spent dash stays spent through any events other than landing or a dash ending on the ground. |
| AbilityTraces.DashRearmNeedsLandingOrGroundedEnd | Source/TriangleGameJam/Variant_Platforming/PlatformingCharacter.cpp:229-303 | After a successful dash, the dash is available again only if a landing or a grounded dash end occurred, never merely in mid-air. |
| AbilityTraces.DashEndsOnlyByMontageEnd | Source/TriangleGameJam/Variant_Platforming/PlatformingCharacter.cpp:284-303 | Without a montage end callback the character stays dashing with gravity unchanged, whatever else happens. |
| AbilityTraces.WallLockHoldsUntilTimer | Source/TriangleGameJam/Variant_Platforming/PlatformingCharacter.cpp:116-217 | Until the wall-jump timer fires the lock stays set and no sweep, launch, new timer or movement input is requested. |
| AbilityTraces.WallJumpLocksOutJumps | Source/TriangleGameJam/Variant_Platforming/PlatformingCharacter.cpp:116-156 | After a wall jump, every airborne jump request before the timer fires does nothing at all. |
| AbilityTraces.DoubleJumpSpentUntilLanded | Source/TriangleGameJam/Variant_Platforming/PlatformingCharacter.cpp:166-176 | Once spent, the double jump stays spent until a landing. |
| AbilityTraces.NoSecondDoubleJump | Source/TriangleGameJam/Variant_Platforming/PlatformingCharacter.cpp:166-177 | After a double jump, a later request with no wall hit outside the coyote window makes no Jump until the character lands. |
| AbilityTraces.SprintOnlySwitchesSpeeds | Source/TriangleGameJam/Variant_Platforming/PlatformingCharacter.cpp:373-388 | After the start of play the walk speed is always the captured or the sprint speed, and only the start of play changes the captured speed. |
| AbilityTraces.SprintReleaseRestoresCapturedSpeed | Source/TriangleGameJam/Variant_Platforming/PlatformingCharacter.cpp:373-388 | Releasing sprint at any point after the start of play restores the walk speed that the start of play captured. |
| AbilityTraces.FallTimeIsLatestFall | Source/TriangleGameJam/Variant_Platforming/PlatformingCharacter.cpp:361-371 | The recorded fall time is the time of the latest change into Falling, or the initial one if there was none. |
| AbilityTraces.CoyoteWindowScenarios | Source/TriangleGameJam/Variant_Platforming/PlatformingCharacter.cpp:156-177 | With the default 0.16 s window: a press 0.10 s into a fall jumps and keeps the double jump; at 0.20 s it spends it. |
| AbilityTraces.JumpOpensCoyoteWindow | Source/TriangleGameJam/Variant_Platforming/PlatformingCharacter.cpp:156-177 | A grounded jump followed by the mode change to Falling opens the coyote window, so three Jumps can be requested in one airborne phase. |
| GameMode.ActorsWithTag | Source/TriangleGameJam/Variant_Platforming/PlatformingGameMode.cpp:21-23 | The found list holds exactly the actors carrying the tag, and its head is the first such actor in iteration order. |
| GameMode.ChoosePlayerStart | Source/TriangleGameJam/Variant_Platforming/PlatformingGameMode.cpp:13-33 | Default choice when there is no jam game instance or the tag is None; otherwise a tagged actor is chosen iff some actor carries the tag, and then it is the first one, so a non-default result always carries the tag. |

## Left out

- Mantle and ledge grab, health and respawn, checkpoints, the side-scroll
  toggle, GetIs2D/SetIs2D and Tick: PlatformingCharacter.cpp does not define
  them (PlatformingCharacter.h:79, 104-116, 144-148, 288-289, 329-343); they
  are not part of this model.
- The flags `bIsSprinting`, `bIs2D` and `bIsMantled`
  (PlatformingCharacter.h:194-200): no method defined in
  PlatformingCharacter.cpp reads or writes them.
- The engine's side of every request: the physics sweep (its result is a
  parameter), LaunchCharacter, the movement component's own jump counting
  (JumpMaxCount 3, JumpMaxHoldTime 0.4 s), AddMovementInput, the montage API.
  They are recorded as requests, not simulated.
- Rotation and vector geometry: the facing computed from the wall normal is
  recorded as `FaceAwayFromWall(normal)` (pitch and roll zero); the
  controller's yaw basis in DoMove is recorded as the two axes it names.
- Velocity is engine state; DoDash's zeroing of it is a `VelocitySet(Zero)`
  request, and later integration is not modelled.
- The timer manager: the timer firing is the explicit `ResetWallJump` call or
  `WallJumpTimerFired` event. Timer replacement, EndPlay's ClearTimer, and what
  the engine does with a zero delay (which the clamp range allows) are not
  modelled.
- Event delivery order and conditions are not constrained: the trace model
  accepts any sequence, including a montage end with no callback bound.
- The null checks on the movement component in DoDash and EndDash: a
  character always has one, so the model assumes it is present.
- Floating point: times, speeds and impulses are exact reals, not 32-bit
  floats, and the world time is not rounded when stored as the fall time.
- The constructor's capsule, camera boom, camera and other movement tuning,
  SetupPlayerInputComponent's bindings (modelled only as the routing methods),
  and UE_LOG output.
- Name comparison folds only ASCII letters; the engine's wider case folding
  and name number suffixes are not modelled. The default player start chosen
  by the base game mode is the marker `DefaultSpawn`.
- The camera transition triggers, the game instance beyond its two fields, the
  empty base game mode and the build rules: engine glue or data without
  behaviour.
