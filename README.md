# Ball controller lifecycle, in Dafny

This project models the player-control component `BallControl` of a mobile
ball-rolling game (`Assets/Scripts/BallControl.cs`). The component is driven
by a 3D physics engine. The model covers the component's discrete lifecycle:

- the lives counter;
- the `isRespawning` gate, which blocks all player input during a respawn;
- the `isGrounded` flag, kept up to date from collision contact normals;
- the rigid body's `isKinematic` flag, position and velocities, as far as the
  controller reads and writes them;
- the rules that decide when tilt, swipe and jump input take effect.

The model has four modules:

- `Vectors` (`vectors.dfy`): the engine's 2D and 3D vectors over the reals, with
  squared magnitudes. Every `magnitude > limit` test of the source is decided
  by comparing squares, so no square root is needed.
- `Lifecycle` (`lifecycle.dfy`): the component's state as a value `BallState`.
  Each callback is a transition function on it. `Inv` is the invariant that
  holds between callbacks. `Run` plays a sequence of engine events, following
  the engine's delivery rules (`Delivered`).
- `BallComponent` (`ball_control.dfy`): the component itself, the class
  `BallControl`. Its fields are the source's fields, and each Unity callback is
  a method. Each method is proved to keep `Inv` and to change the object from
  `old(State())` to exactly the state its `Lifecycle` transition gives.
  `OnCollisionStay` keeps the source's loop over contacts with an early return.
- `LifecycleProperties` (`lifecycle_properties.dfy`): what holds over whole
  runs, and why the squared thresholds agree with the source's magnitude
  thresholds.

Forces and impulses are not simulated. Each call into the rigid body, the
scheduling of `EnableBall`, and the game-over announcement is appended to an
`effects` sequence, in order. Physics integration between callbacks is an
event of its own (`Simulated`; the method `Simulate`, the function
`PhysicsStep`). It is an assumption about the engine, not something the
controller does: the simulation never moves a kinematic body, and it may move
any other body anywhere and give it any velocities.

The constants are those of the source:

- a contact is ground when its normal's y is above 0.5;
- a swipe flicks the ball when it is longer than 50, i.e. its squared length is above 2500;
- a ball below y = -5 is respawned;
- the fall-zone tag is `"FallZone"`.

The lives rule follows the code. Lives are decremented on every fall-zone entry
outside a respawn, and the ball respawns while the new count is `>= 0`. With
`maxLives = 3` the ball therefore respawns after three falls (lives 2, 1, 0),
and the game ends on the fourth. A description of the game that ends it on the
third fall does not match the code; `FourthFallIsGameOver` states what the
code does. Game over does not stop later entries. Each one costs a further life
and announces game over again.

## Model

| member | source | states |
|---|---|---|
| `BallComponent.BallControl.constructor` | Assets/Scripts/BallControl.cs:16-21 | The component before Start: lives 0, not grounded, not respawning, body not kinematic and at rest, enabled; the invariant holds. |
| `BallComponent.BallControl.Start` | Assets/Scripts/BallControl.cs:23-47 | Without a start point, the component only disables itself; lives stay uninitialised. Otherwise lives become maxLives and the ball ends respawning. The invariant is kept. |
| `BallComponent.BallControl.FixedUpdate` | Assets/Scripts/BallControl.cs:49-76 | Follows `Lifecycle.FixedUpdate` exactly and keeps the invariant. |
| `BallComponent.BallControl.Update` | Assets/Scripts/BallControl.cs:78-103 | Follows `Lifecycle.Update` exactly and keeps the invariant. |
| `BallComponent.BallControl.Jump` | Assets/Scripts/BallControl.cs:105-112 | Follows `Lifecycle.Jump` exactly, including the press before Start that fails at the unset body, and keeps the invariant. |
| `BallComponent.BallControl.OnCollisionStay` | Assets/Scripts/BallControl.cs:114-124 | The loop over contacts sets isGrounded to true iff some contact normal has y > 0.5; otherwise isGrounded keeps its old value. Nothing else changes. |
| `BallComponent.BallControl.OnCollisionExit` | Assets/Scripts/BallControl.cs:126-129 | Follows `Lifecycle.CollisionExit` exactly and keeps the invariant. |
| `BallComponent.BallControl.OnTriggerEnter` | Assets/Scripts/BallControl.cs:131-145 | Follows `Lifecycle.TriggerEnter` exactly and keeps the invariant. |
| `BallComponent.BallControl.ResetBall` | Assets/Scripts/BallControl.cs:147-165 | Follows `Lifecycle.ResetBall` exactly. Called outside a respawn, it keeps the invariant. |
| `BallComponent.BallControl.EnableBall` | Assets/Scripts/BallControl.cs:167-174 | Follows `Lifecycle.EnableBall` exactly. Run while an EnableBall is pending, it keeps the invariant. |
| `Lifecycle.Attached` | Assets/Scripts/BallControl.cs:16-21 | Before Start: not started, enabled, lives 0, not grounded, not respawning, not kinematic, nothing pending, no effects. |
| `Lifecycle.Start` | Assets/Scripts/BallControl.cs:37-46 | A missing start point gives exactly "started and disabled", with lives untouched. Otherwise the whole new state is given: started, lives == maxLives, respawning, kinematic, at the respawn point, both velocities zero, one EnableBall scheduled; isGrounded, enabled and the touch positions unchanged. |
| `Lifecycle.FixedUpdate` | Assets/Scripts/BallControl.cs:49-76 | While respawning, nothing changes. Otherwise the effects grow by exactly the tilt force, then a velocity cap iff the velocity exceeds maxVelocity, then an EnableBall iff y < -5. Below -5 the ball respawns: kinematic, at the respawn point, velocities zero, one EnableBall pending. Otherwise nothing but the effects changes. Lives, isGrounded and the touch positions never change. |
| `Lifecycle.Update` | Assets/Scripts/BallControl.cs:78-103 | While respawning, nothing changes. A Began touch records startTouch; an Ended touch records endTouch and keeps startTouch; other phases record nothing. A flick impulse along the swipe from startTouch is added iff a touch ends with a swipe longer than 50. Only the touch positions and effects can change. |
| `Lifecycle.Jump` | Assets/Scripts/BallControl.cs:105-112 | Changes nothing unless started, grounded and not respawning; before Start the body reference is unset, so a press that passes the guard fails at the impulse and leaves the ball grounded. When it acts: exactly one upward impulse of jumpForce, isGrounded false, nothing else changed. |
| `Lifecycle.HasGroundContact` | Assets/Scripts/BallControl.cs:116-123 | True iff some contact normal has y > 0.5. |
| `Lifecycle.CollisionStay` | Assets/Scripts/BallControl.cs:114-124 | isGrounded afterwards is `old isGrounded || some normal.y > 0.5`. It is never cleared, and no other field changes. |
| `Lifecycle.CollisionExit` | Assets/Scripts/BallControl.cs:126-129 | isGrounded is false afterwards, whatever it was; no other field changes. |
| `Lifecycle.TriggerEnter` | Assets/Scripts/BallControl.cs:131-145 | Any other tag, or any entry while respawning, changes nothing. A fall-zone entry costs exactly one life. If the new lives are >= 0, the whole new state is given: respawning, kinematic, at the respawn point, velocities zero, one EnableBall scheduled, isGrounded and touches unchanged. Otherwise only game over is announced, and isRespawning stays false. |
| `Lifecycle.ResetBall` | Assets/Scripts/BallControl.cs:147-165 | Respawning and kinematic. Position is startPoint + (0, respawnHeight, 0). Both velocities are zero. One EnableBall is scheduled. Lives, isGrounded and the touch positions are unchanged. |
| `Lifecycle.EnableBall` | Assets/Scripts/BallControl.cs:167-174 | Not respawning, not kinematic, both velocities zero, body woken. Lives, isGrounded and the position are unchanged. One pending EnableBall is used up. |
| `Lifecycle.Step` | Assets/Scripts/BallControl.cs:23-174 | Every callback the engine delivers keeps the invariant: kinematic iff respawning; exactly one EnableBall pending iff respawning; a respawning ball sits still at the respawn point; lives never exceed maxLives (0 before Start or without a start point). |
| `Lifecycle.Run` | Assets/Scripts/BallControl.cs:23-174 | The invariant holds after any sequence of delivered callbacks. |
| `LifecycleProperties.FlickMatchesMagnitude` | Assets/Scripts/BallControl.cs:95 | The squared-length test is the same as `swipe.magnitude > 50`. |
| `LifecycleProperties.CapMatchesMagnitude` | Assets/Scripts/BallControl.cs:59-63 | The velocity-cap test is the same as `magnitude > maxVelocity`, including a negative cap, which always fires. |
| `LifecycleProperties.SwipeFromGestureStart` | Assets/Scripts/BallControl.cs:86-100 | Outside a respawn, a touch that begins at p and ends at q in the next frame records p and q and adds a flick along q - p iff that swipe is longer than 50, and no other effect. |
| `LifecycleProperties.NoContactNoGround` | Assets/Scripts/BallControl.cs:105-129 | Over any run with no persisting-contact event, an ungrounded ball stays ungrounded: only OnCollisionStay sets isGrounded. |
| `LifecycleProperties.JumpBeforeStartAborts` | Assets/Scripts/BallControl.cs:105-112 | A ground contact and then a press before Start: no impulse, the ball stays grounded, Start has not run. |
| `LifecycleProperties.JumpNeedsLanding` | Assets/Scripts/BallControl.cs:105-112 | After a jump that acts (after Start, grounded, not respawning), any later press before a new persisting contact does nothing, whatever ticks, frames, triggers or simulation steps come in between. |
| `LifecycleProperties.RespawnHoldsUntilEnable` | Assets/Scripts/BallControl.cs:49-145 | From a ResetBall until EnableBall runs, no sequence of callbacks or simulation steps changes anything but isGrounded. In particular it adds no force, impulse or position change, and lives stay the same. |
| `LifecycleProperties.LivesAccounted` | Assets/Scripts/BallControl.cs:131-145 | After Start, lives never rise. Over any run they fall by at most the number of fall-zone entries. |
| `LifecycleProperties.FourthFallIsGameOver` | Assets/Scripts/BallControl.cs:131-145 | With maxLives = 3: after Start and three falls, each followed by a respawn, lives == 0 and the ball is respawning. The fourth fall gives lives -1, no respawn, and a game-over announcement. |
| `LifecycleProperties.RunAppend` | Assets/Scripts/BallControl.cs:23-174 | Running two event sequences one after the other is the same as running their concatenation. |

## Left out

- Rigid-body dynamics: what a force or impulse does to the velocity, gravity, damping. They are engine internals, so effects are recorded, not simulated.
- The Rigidbody set-up in Start (constraints, mass, damping, interpolation, collision detection, gravity) is engine configuration. The model assumes `GetComponent` finds the Rigidbody and that it starts non-kinematic. The `rb` field is unset until Start, and the model keeps that: `started` stands for it being assigned.
- `Lifecycle.FixedUpdate`: records `VelocityCapped(maxVelocity)` instead of rescaling the linear velocity. The rescale needs a square root (`normalized`), so the linear velocity is left as it was.
- `BallComponent.BallControl.FixedUpdate`: the same; the clamp is recorded, not applied to `linearVelocity`.
- `Lifecycle.Update`: records the flick as `FlickImpulse(direction, flickSpeed)` with the direction unnormalised, because normalising needs a square root.
- `lastValidPosition` tracking in FixedUpdate: the field is written there and never read.
- Input polling (accelerometer, touches, gyro enable) becomes parameters of the callbacks: the tilt vector and the first touch, if any.
- Log output is left out, except the game-over notice, which is recorded as the `GameOver` effect.
- The 0.1 s delay before EnableBall is engine scheduling. The model counts pending EnableBall calls, and the scheduler runs `EnableBall` as a separate event.
- The start point's position is taken as fixed. The source reads it anew at each respawn.
- Floating-point arithmetic: vectors and thresholds are over the reals.
- `Assets/Scripts/CameraFollow.cs`: it is one interpolation and one look-at call of the engine, with no logic of its own.
- The engine's delivery rules are assumed, not modelled inside the engine. Start runs once. FixedUpdate and Update run only after Start and while the component is enabled. Collision and trigger callbacks and the Jump button reach the component even when it is disabled, and even before Start. The class methods' preconditions state these rules.
- Lives are unbounded integers. In the source `lives` is a 32-bit `int`, and each fall-zone entry after game over decrements it again; after about 2^31 such entries it would wrap to a large positive value and the ball would respawn. The model never wraps, so `Inv`'s bound on lives and `LivesAccounted` (lives never rise) rely on that.
- `Lifecycle.Jump` and `BallComponent.BallControl.Jump`: a grounded press before Start throws a null-reference exception at the impulse in the source. The model gives the outcome, an abandoned callback with nothing changed, but not the exception or its error log.
