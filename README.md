# Hero horizontal movement and camera profile selection

A Dafny model of two small state machines of a 2D platformer (SuperSquareLand):

- **The hero's horizontal movement** (`HeroEntity`, file `hero_entity.dfy`, module
  `HeroMovement`). The hero holds an unsigned horizontal speed, the latest horizontal
  intent set by its controller and a facing of +1 or -1. Each fixed physics tick either
  turns back (intent opposite to facing: the speed bleeds off by the turn-back friction and
  the facing flips only once the speed would go strictly below zero), or accelerates (any
  other non-zero intent, clipped to `speedMax`) or decelerates (no intent, clipped to zero)
  and then faces the intent. The tick ends by writing `speed * facing` into the x component
  of the rigid body's velocity, keeping its y.
- **The camera manager** (`CameraManager`, file `camera_manager.dfy`, module
  `CameraProfiles`). A current profile with a fixed default: entering a profile overwrites
  the current one, exiting a profile reverts to the default only when that profile is the
  current one, start-up installs and shows the default, and every frame copies the current
  profile's x, y and size onto the camera, keeping the camera's z.

Each module has two layers. Values and pure functions (`Tick` and `Run` for the hero,
`Entered`, `Exited`, `Updated`, `InitializedToDefault` for the camera) are the
specification, and the lemmas state the properties of the design about them. A class with
the source's fields (`HeroEntity`, `CameraManager`) then updates those fields in place,
method by method as the game objects do. Each method is proved to produce exactly the new
state the specification function gives.

Modelling choices:

- Floats are `real`: the clamping logic is exact, IEEE rounding is not modelled.
- The engine's fixed time step is a parameter `dt` of the tick methods. `FixedUpdate`
  requires `dt > 0`, which the engine guarantees.
- The tuning record `HorizontalSettings` stands for the engine-authored movement settings
  (acceleration, deceleration, turn-back friction, maximum speed). The invariant holds when
  all four are non-negative.
- The intent is any real, as `SetMoveDirX` accepts any value. The engine's sign function is
  modelled exactly: zero and positive give +1, negative gives -1. The keyboard controller
  only ever supplies -1, 0 or 1 (`IsIntent`), and the lemmas that use this say so.
- Camera profiles are opaque identities (`ProfileId`). Their position and size are live
  engine data, passed in as a function `views` from profile to what it shows at that moment.
- The camera manager's current profile is unset (`None`) until start-up, as the field is
  null until `Start` runs. `Update` requires a current profile. The engine runs `Start`
  before the first frame, and the source dereferences the field unguarded. This holds only
  when a default profile is configured (see the Left out section below).
- One might expect the facing to flip on the tick the turn-back speed gets to zero. The
  code compares with a strict `< 0` (HeroEntity.cs:33), and the model follows the code: a
  turn-back that lands exactly on zero keeps the old facing, and the flip comes on the next
  tick, provided that tick's friction step is positive (`TurnBackLandingOnZeroDefersFlip`).
  With a turn-back friction of zero, a hero at rest facing away from the intent therefore
  never turns.

## Model

| member | source | states |
|---|---|---|
| `HeroMovement.Sign` | Assets/SSL/Runtime/Scripts/Hero/HeroEntity.cs:106 | the sign is always +1 or -1, and +1 exactly for non-negative input |
| `HeroMovement.AreOrientAndMovementOpposite` | Assets/SSL/Runtime/Scripts/Hero/HeroEntity.cs:39-42 | the product test holds exactly when intent and facing have strictly opposite signs |
| `HeroMovement.AcceleratedSpeed` | Assets/SSL/Runtime/Scripts/Hero/HeroEntity.cs:21-28 | the speed after accelerating is at most speedMax; it is old speed + acceleration*dt unless that sum exceeds speedMax, in which case it is speedMax exactly |
| `HeroMovement.DeceleratedSpeed` | Assets/SSL/Runtime/Scripts/Hero/HeroEntity.cs:43-50 | the speed after decelerating is never negative; it is old speed - deceleration*dt unless that goes below zero, in which case it is exactly 0 |
| `HeroMovement.OrientFromMovement` | Assets/SSL/Runtime/Scripts/Hero/HeroEntity.cs:103-107 | zero intent keeps the facing; positive intent faces +1, negative intent faces -1 |
| `HeroMovement.TurnBackStep` | Assets/SSL/Runtime/Scripts/Hero/HeroEntity.cs:30-38 | turn-back subtracts turnBackFrictions*dt and keeps the facing, unless the result is strictly negative: then the speed is 0 and the facing follows the intent; the intent is unchanged and the speed never negative |
| `HeroMovement.Tick` | Assets/SSL/Runtime/Scripts/Hero/HeroEntity.cs:75-89 | a tick never changes the intent and, with non-negative settings and dt, preserves 0 <= speed <= speedMax with facing in {-1, 1} |
| `HeroMovement.Run` | Assets/SSL/Runtime/Scripts/Hero/HeroEntity.cs:75-89 | any number of consecutive ticks keeps the intent that was set |
| `HeroMovement.HorizontalVelocity` | Assets/SSL/Runtime/Scripts/Hero/HeroEntity.cs:68-73 | the written x velocity is +speed when facing right and -speed when facing left |
| `HeroMovement.InitialMotionSatisfiesInvariant` | Assets/SSL/Runtime/Scripts/Hero/HeroEntity.cs:11-16 | the initial state (speed 0, facing +1) satisfies the invariant for non-negative settings |
| `HeroMovement.RunPreservesInvariant` | Assets/SSL/Runtime/Scripts/Hero/HeroEntity.cs:75-89 | the speed bound and the ±1 facing hold after any number of ticks from a state that has them |
| `HeroMovement.TickByIntent` | Assets/SSL/Runtime/Scripts/Hero/HeroEntity.cs:75-85 | for controller intents, the tick turns back exactly when intent = -facing; accelerates, facing kept, when intent = facing; decelerates, facing kept, when intent = 0 |
| `HeroMovement.TurnBackIgnoresOtherTuning` | Assets/SSL/Runtime/Scripts/Hero/HeroEntity.cs:30-38 | turn-back depends on the friction alone: changing acceleration or deceleration does not change its result |
| `HeroMovement.TurnBackLandingOnZeroDefersFlip` | Assets/SSL/Runtime/Scripts/Hero/HeroEntity.cs:33-37 | a turn-back landing exactly on 0 keeps the facing; the next tick flips it to the intent when the friction step is positive |
| `HeroMovement.TickWithAgreeingIntent` | Assets/SSL/Runtime/Scripts/Hero/HeroEntity.cs:81-85 | with a non-zero intent matching the facing, a tick accelerates and changes nothing else |
| `HeroMovement.RunHoldingIntentAccelerates` | Assets/SSL/Runtime/Scripts/Hero/HeroEntity.cs:21-28 | holding an agreeing intent for n ticks gives min(speed + n steps of acceleration*dt, speedMax), facing and intent kept |
| `HeroMovement.FromRestReachesSpeedMax` | Assets/SSL/Runtime/Scripts/Hero/HeroEntity.cs:21-28 | from rest, n ticks with n*acceleration*dt >= speedMax end at speedMax exactly, facing the intent |
| `HeroMovement.AccelerationIsMonotone` | Assets/SSL/Runtime/Scripts/Hero/HeroEntity.cs:21-28 | under an agreeing intent the speed never decreases with more ticks and never exceeds speedMax |
| `HeroMovement.RunWithoutIntentDecelerates` | Assets/SSL/Runtime/Scripts/Hero/HeroEntity.cs:43-50 | with no intent, n ticks give max(speed - n steps of deceleration*dt, 0), facing kept |
| `HeroMovement.ReleasedIntentStopsExactly` | Assets/SSL/Runtime/Scripts/Hero/HeroEntity.cs:43-50 | with no intent and n*deceleration*dt >= speed, the hero ends at speed exactly 0 with its facing kept |
| `HeroMovement.RunTurningBack` | Assets/SSL/Runtime/Scripts/Hero/HeroEntity.cs:30-38 | while n friction steps do not overshoot zero, turning back for n ticks subtracts exactly n steps and keeps the facing |
| `HeroMovement.TurnBackPivot` | Assets/SSL/Runtime/Scripts/Hero/HeroEntity.cs:30-38 | on the first tick whose friction step would overshoot zero, the speed becomes 0 and the facing becomes the intent's sign |
| `HeroMovement.VelocityFollowsFacing` | Assets/SSL/Runtime/Scripts/Hero/HeroEntity.cs:68-73 | under the invariant the x velocity lies in [-speedMax, speedMax] and its sign is the facing |
| `HeroMovement.HeroEntity.constructor` | Assets/SSL/Runtime/Scripts/Hero/HeroEntity.cs:11-16 | fields start at speed 0, intent 0, facing +1; valid when the settings are non-negative |
| `HeroMovement.HeroEntity.Accelerate` | Assets/SSL/Runtime/Scripts/Hero/HeroEntity.cs:21-28 | updates only the speed, to the accelerated speed |
| `HeroMovement.HeroEntity.TurnBack` | Assets/SSL/Runtime/Scripts/Hero/HeroEntity.cs:30-38 | updates speed and facing to the turn-back step, intent untouched |
| `HeroMovement.HeroEntity.Decelerate` | Assets/SSL/Runtime/Scripts/Hero/HeroEntity.cs:43-50 | updates only the speed, to the decelerated speed |
| `HeroMovement.HeroEntity.UpdateHorizontalSpeed` | Assets/SSL/Runtime/Scripts/Hero/HeroEntity.cs:52-62 | accelerates when the intent is non-zero, decelerates otherwise; only the speed changes |
| `HeroMovement.HeroEntity.SetMoveDirX` | Assets/SSL/Runtime/Scripts/Hero/HeroEntity.cs:63-66 | overwrites the intent; speed, facing and velocity are untouched |
| `HeroMovement.HeroEntity.ApplyHorizontalSpeed` | Assets/SSL/Runtime/Scripts/Hero/HeroEntity.cs:68-73 | velocity.x becomes speed*facing, velocity.y is kept |
| `HeroMovement.HeroEntity.ChangeOrientFromHorizontalMovement` | Assets/SSL/Runtime/Scripts/Hero/HeroEntity.cs:103-107 | only the facing changes, to the re-oriented facing |
| `HeroMovement.HeroEntity.FixedUpdate` | Assets/SSL/Runtime/Scripts/Hero/HeroEntity.cs:75-89 | the new state is `Tick` of the old one, velocity.x is speed*facing with y kept, and validity is preserved |
| `CameraProfiles.WithPosition` | Assets/SSL/Runtime/Scripts/Camera/CameraManager.cs:36-42 | the camera takes the position's x and y and keeps its own z and size |
| `CameraProfiles.WithSize` | Assets/SSL/Runtime/Scripts/Camera/CameraManager.cs:44-47 | the camera takes the size and keeps its position |
| `CameraProfiles.Showing` | Assets/SSL/Runtime/Scripts/Camera/CameraManager.cs:16-17 | after position then size, the camera frames the view (x, y, size) and keeps its z |
| `CameraProfiles.Entered` | Assets/SSL/Runtime/Scripts/Camera/CameraManager.cs:21-24 | the current profile becomes the entered one, unconditionally; camera and default untouched |
| `CameraProfiles.Exited` | Assets/SSL/Runtime/Scripts/Camera/CameraManager.cs:26-30 | exiting a profile that is not current changes nothing; exiting the current one makes the default current; the camera is untouched |
| `CameraProfiles.InitializedToDefault` | Assets/SSL/Runtime/Scripts/Camera/CameraManager.cs:49-54 | the default becomes current and the camera frames the default's x, y and size, keeping its z |
| `CameraProfiles.Updated` | Assets/SSL/Runtime/Scripts/Camera/CameraManager.cs:14-19 | a frame makes the camera frame the current profile (x, y, size), keeping its z and the current profile |
| `CameraProfiles.LastEntryWins` | Assets/SSL/Runtime/Scripts/Camera/CameraManager.cs:21-24 | entering p then q is the same as entering q: nothing is stacked |
| `CameraProfiles.EnterThenExitGivesDefault` | Assets/SSL/Runtime/Scripts/Camera/CameraManager.cs:21-30 | entering then exiting the same profile leaves the default current, whatever the prior state |
| `CameraProfiles.ExitOfSupersededProfileIsIgnored` | Assets/SSL/Runtime/Scripts/Camera/CameraManager.cs:26-28 | exiting p after q superseded it is a no-op: q stays current |
| `CameraProfiles.ExitIsIdempotent` | Assets/SSL/Runtime/Scripts/Camera/CameraManager.cs:26-30 | exiting the same profile twice equals exiting it once |
| `CameraProfiles.ExitKeepsAProfile` | Assets/SSL/Runtime/Scripts/Camera/CameraManager.cs:26-30 | once a profile is current, exiting never leaves none current |
| `CameraProfiles.UpdateIsIdempotent` | Assets/SSL/Runtime/Scripts/Camera/CameraManager.cs:14-19 | two frames over unchanged profiles equal one |
| `CameraProfiles.UpdateAfterInitializationIsStill` | Assets/SSL/Runtime/Scripts/Camera/CameraManager.cs:49-58 | the first frame after start-up, over unchanged profiles, moves nothing |
| `CameraProfiles.UpdateReadsOnlyCurrentProfile` | Assets/SSL/Runtime/Scripts/Camera/CameraManager.cs:14-19 | a frame depends only on the current profile's view |
| `CameraProfiles.CameraManager.constructor` | Assets/SSL/Runtime/Scripts/Camera/CameraManager.cs:8-12 | a new manager has its default profile and camera, and no current profile |
| `CameraProfiles.CameraManager.Update` | Assets/SSL/Runtime/Scripts/Camera/CameraManager.cs:14-19 | the new state is `Updated` of the old one; only the camera changes |
| `CameraProfiles.CameraManager.EnterProfile` | Assets/SSL/Runtime/Scripts/Camera/CameraManager.cs:21-24 | the new state is `Entered` of the old one; only the current profile changes |
| `CameraProfiles.CameraManager.ExitProfile` | Assets/SSL/Runtime/Scripts/Camera/CameraManager.cs:26-30 | the new state is `Exited` of the old one; only the current profile changes |
| `CameraProfiles.CameraManager.SetCameraPosition` | Assets/SSL/Runtime/Scripts/Camera/CameraManager.cs:36-42 | the camera becomes `WithPosition` of the old camera |
| `CameraProfiles.CameraManager.SetCameraSize` | Assets/SSL/Runtime/Scripts/Camera/CameraManager.cs:44-47 | the camera becomes `WithSize` of the old camera |
| `CameraProfiles.CameraManager.InitToDefaultProfile` | Assets/SSL/Runtime/Scripts/Camera/CameraManager.cs:49-54 | the new state is `InitializedToDefault` of the old one |
| `CameraProfiles.CameraManager.Start` | Assets/SSL/Runtime/Scripts/Camera/CameraManager.cs:55-58 | start-up installs and shows the default profile, after which a profile is current |

## Left out

- Rigid body, transforms and cameras as engine objects: only the values the core reads and writes are modelled, as plain records (`Vec2`, `Vec3`, `CameraView`, `ProfileView`).
- IEEE single-precision rounding: all quantities are exact reals.
- `HeroEntity.Update` and `_UpdateOrientVisual` (HeroEntity.cs:92-102): they copy the facing into a visual transform's scale, presentation only.
- The `OnGUI` debug overlays of the hero entity and its controller: UI output.
- `HeroController.cs`: keyboard polling; its only contribution, an intent in {-1, 0, 1}, appears as `IsIntent`. Its jump gate calls members that the hero entity does not define, so jump, dash, wall contact and multi-jump are not modelled.
- `WallDetector.cs`: a loop over the engine's raycast, a foreign call with no logic of its own beyond "any probe hit".
- `CameraProfile.cs` and `CameraAutoScroll.cs`: serialised data and getters over an engine camera; their values enter the model only through `views`.
- The `CameraManager.Instance` singleton set in `Awake`: lifecycle plumbing.
- Passing a null profile to `EnterProfile` or `ExitProfile`, or leaving the default profile unset: profile identities are never null in the model. With no default configured, the source fails when start-up reads the default (CameraManager.cs:52). It also fails when exiting the current profile installs the null default (line 29) and the next `Update` reads it (line 16). That is a configuration error and is not modelled.
