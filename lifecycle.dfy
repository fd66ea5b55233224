/**
 The ball controller's discrete state and each of its callbacks as a
 transition on that state. The engine-facing class in BallComponent is proved
 to follow these transitions exactly; the properties of whole runs are in
 LifecycleProperties.

 Forces and impulses are not simulated: each call into the rigid body is
 recorded, in order, in `effects`. The position and velocities are whatever
 the engine last reported or the controller last wrote.
 */
module Lifecycle {
  import opened Vectors

  datatype Option<T> = None | Some(value: T)

  /** A contact is ground when the y component of its normal is above this. */
  const GroundNormalMin: real := 0.5
  /** A swipe flicks the ball when it is longer than this, in screen units. */
  const MinSwipe: real := 50.0
  /** Below this height the ball is put back above the start point. */
  const FallHeight: real := -5.0
  /** The tag of the trigger regions that cost a life. */
  const FallZoneTag: string := "FallZone"

  /** The inspector settings; `startPoint` is None when no start point object is assigned. */
  datatype Settings = Settings(
    tiltSpeed: real,
    flickSpeed: real,
    jumpForce: real,
    maxVelocity: real,
    maxLives: int,
    startPoint: Option<Vec3>,
    respawnHeight: real)

  /** A request the controller makes of the rigid body, the scheduler or the game. */
  datatype Effect =
    | Force(force: Vec3)                          // a continuous force for this physics step
    | Impulse(impulse: Vec3)                      // an instantaneous impulse
    | FlickImpulse(direction: Vec3, speed: real)  // an impulse of length `speed` along `direction`, normalised
    | VelocityCapped(maxVelocity: real)           // linear velocity rescaled to length `maxVelocity`
    | EnableBallScheduled                         // EnableBall queued to run after a short delay
    | WokenUp                                     // the rigid body woken up
    | GameOver                                    // the game is announced lost

  datatype TouchPhase = Began | Moved | Stationary | Ended | Canceled

  /** The first touch of a frame, when there is one. */
  datatype Touch = Touch(phase: TouchPhase, position: Vec2)

  datatype BallState = BallState(
    started: bool,           // Start has run
    enabled: bool,           // the component still receives FixedUpdate and Update
    lives: int,
    isGrounded: bool,
    isRespawning: bool,
    isKinematic: bool,       // the body is moved only by the controller, not by the simulation
    position: Vec3,
    linearVelocity: Vec3,
    angularVelocity: Vec3,
    startTouch: Vec2,
    endTouch: Vec2,
    pendingEnables: nat,     // EnableBall calls scheduled and not yet run
    effects: seq<Effect>)

  /** The component as the scene loads it: nothing initialised, the body resting at `position`. */
  function Attached(position: Vec3): (s: BallState)
    ensures !s.started && s.enabled && s.lives == 0
    ensures !s.isGrounded && !s.isRespawning && !s.isKinematic
    ensures s.pendingEnables == 0 && s.effects == []
  {
    BallState(false, true, 0, false, false, false, position, Zero3, Zero3,
              Vec2(0.0, 0.0), Vec2(0.0, 0.0), 0, [])
  }

  /** Where a respawned ball is put: `respawnHeight` above the start point. */
  function RespawnPoint(c: Settings): Vec3
    requires c.startPoint.Some?
  {
    Plus3(c.startPoint.value, Vec3(0.0, c.respawnHeight, 0.0))
  }

  /** The most lives the ball can have: the configured maximum once Start has set it, else the initial 0. */
  function LivesCap(c: Settings, s: BallState): int
  {
    if s.started && c.startPoint.Some? then c.maxLives else 0
  }

  /**
   What holds between any two callbacks: the body is kinematic exactly while
   respawning, exactly one EnableBall is pending then, and the ball sits
   motionless at the respawn point; the per-tick callbacks only run when
   there is a start point; lives never exceed their cap.
   */
  predicate Inv(c: Settings, s: BallState)
  {
    && s.isKinematic == s.isRespawning
    && s.pendingEnables == (if s.isRespawning then 1 else 0)
    && (s.isRespawning ==>
          && s.started && c.startPoint.Some?
          && s.position == RespawnPoint(c)
          && s.linearVelocity == Zero3 && s.angularVelocity == Zero3)
    && (s.started && s.enabled ==> c.startPoint.Some?)
    && s.lives <= LivesCap(c, s)
  }

  /** True when a swipe is long enough to flick the ball (its length is above MinSwipe). */
  predicate IsFlick(swipe: Vec2)
  {
    SqMagnitude2(swipe) > MinSwipe * MinSwipe
  }

  /** True when a velocity is faster than `maxVelocity` (always, for a negative cap). */
  predicate ExceedsCap(v: Vec3, maxVelocity: real)
  {
    maxVelocity < 0.0 || SqMagnitude3(v) > maxVelocity * maxVelocity
  }

  /** True when some contact normal points up steeply enough to stand on. */
  function HasGroundContact(normals: seq<Vec3>): (r: bool)
    ensures r <==> exists i :: 0 <= i < |normals| && normals[i].y > GroundNormalMin
  {
    if normals == [] then false
    else normals[0].y > GroundNormalMin || HasGroundContact(normals[1..])
  }

  /** The tilt force of one physics step: the device's x and y acceleration on the ground plane, scaled. */
  function TiltForce(c: Settings, tilt: Vec3): Vec3
  {
    Scale3(Vec3(tilt.x, 0.0, tilt.y), c.tiltSpeed)
  }

  /** The upward impulse of a jump. */
  function JumpImpulse(c: Settings): Vec3
  {
    Vec3(0.0, c.jumpForce, 0.0)
  }

  /** Puts the ball, frozen, above the start point and schedules EnableBall. */
  function ResetBall(c: Settings, s: BallState): (r: BallState)
    requires c.startPoint.Some?
    ensures r.isRespawning && r.isKinematic
    ensures r.position == RespawnPoint(c)
    ensures r.linearVelocity == Zero3 && r.angularVelocity == Zero3
    ensures r.pendingEnables == s.pendingEnables + 1
    ensures r.effects == s.effects + [EnableBallScheduled]
    ensures r.lives == s.lives && r.isGrounded == s.isGrounded
    ensures r.started == s.started && r.enabled == s.enabled
    ensures r.startTouch == s.startTouch && r.endTouch == s.endTouch
  {
    s.(isRespawning := true, isKinematic := true, position := RespawnPoint(c),
       linearVelocity := Zero3, angularVelocity := Zero3,
       pendingEnables := s.pendingEnables + 1,
       effects := s.effects + [EnableBallScheduled])
  }

  /** The scheduled end of a respawn: physics back on, the ball still at rest. */
  function EnableBall(s: BallState): (r: BallState)
    requires s.pendingEnables > 0
    ensures !r.isRespawning && !r.isKinematic
    ensures r.linearVelocity == Zero3 && r.angularVelocity == Zero3
    ensures r.pendingEnables == s.pendingEnables - 1
    ensures r.effects == s.effects + [WokenUp]
    ensures r.lives == s.lives && r.isGrounded == s.isGrounded && r.position == s.position
    ensures r.started == s.started && r.enabled == s.enabled
    ensures r.startTouch == s.startTouch && r.endTouch == s.endTouch
  {
    s.(isKinematic := false, linearVelocity := Zero3, angularVelocity := Zero3,
       effects := s.effects + [WokenUp], isRespawning := false,
       pendingEnables := s.pendingEnables - 1)
  }

  /**
   Without a start point the component switches itself off and leaves
   `lives` as it was; otherwise it fills up the lives and respawns.
   */
  function Start(c: Settings, s: BallState): (r: BallState)
    ensures r.started
    ensures c.startPoint.None? ==> r == s.(started := true, enabled := false)
    ensures c.startPoint.Some? ==>
      r == s.(started := true, lives := c.maxLives,
              isRespawning := true, isKinematic := true, position := RespawnPoint(c),
              linearVelocity := Zero3, angularVelocity := Zero3,
              pendingEnables := s.pendingEnables + 1,
              effects := s.effects + [EnableBallScheduled])
  {
    if c.startPoint.None? then s.(started := true, enabled := false)
    else ResetBall(c, s.(started := true, lives := c.maxLives))
  }

  /**
   One physics step: while respawning nothing happens; otherwise the tilt
   force is applied, a too-fast ball is capped, and a ball below FallHeight
   is respawned without losing a life.
   */
  function FixedUpdate(c: Settings, s: BallState, tilt: Vec3): (r: BallState)
    requires c.startPoint.Some?
    ensures s.isRespawning ==> r == s
    ensures r.lives == s.lives && r.isGrounded == s.isGrounded
    ensures !s.isRespawning ==>
      && r.effects ==
           s.effects + [Force(TiltForce(c, tilt))]
           + (if ExceedsCap(s.linearVelocity, c.maxVelocity) then [VelocityCapped(c.maxVelocity)] else [])
           + (if s.position.y < FallHeight then [EnableBallScheduled] else [])
      && (r.isRespawning <==> s.position.y < FallHeight)
    ensures !s.isRespawning && s.position.y < FallHeight ==>
      r == s.(isRespawning := true, isKinematic := true, position := RespawnPoint(c),
              linearVelocity := Zero3, angularVelocity := Zero3,
              pendingEnables := s.pendingEnables + 1, effects := r.effects)
    ensures !s.isRespawning && s.position.y >= FallHeight ==>
      r == s.(effects := r.effects)
  {
    if s.isRespawning then s
    else
      var pushed := s.(effects := s.effects + [Force(TiltForce(c, tilt))]);
      var capped :=
        if ExceedsCap(s.linearVelocity, c.maxVelocity)
        then pushed.(effects := pushed.effects + [VelocityCapped(c.maxVelocity)])
        else pushed;
      if s.position.y < FallHeight then ResetBall(c, capped) else capped
  }

  /**
   One frame: while respawning nothing happens; a touch that begins is
   remembered, and one that ends flicks the ball along the swipe exactly when
   the swipe is longer than MinSwipe.
   */
  function Update(c: Settings, s: BallState, touch: Option<Touch>): (r: BallState)
    ensures s.isRespawning ==> r == s
    ensures r.(startTouch := s.startTouch, endTouch := s.endTouch, effects := s.effects) == s
    ensures r.effects != s.effects <==>
      && !s.isRespawning && touch.Some? && touch.value.phase == Ended
      && IsFlick(Minus2(touch.value.position, s.startTouch))
    ensures r.effects != s.effects ==>
      var swipe := Minus2(touch.value.position, s.startTouch);
      r.effects == s.effects + [FlickImpulse(Vec3(swipe.x, 0.0, swipe.y), c.flickSpeed)]
    ensures r.startTouch ==
      if !s.isRespawning && touch.Some? && touch.value.phase == Began then touch.value.position else s.startTouch
    ensures r.endTouch ==
      if !s.isRespawning && touch.Some? && touch.value.phase == Ended then touch.value.position else s.endTouch
  {
    if s.isRespawning || touch.None? then s
    else
      match touch.value.phase
      case Began => s.(startTouch := touch.value.position)
      case Ended =>
        var swipe := Minus2(touch.value.position, s.startTouch);
        var ended := s.(endTouch := touch.value.position);
        if IsFlick(swipe)
        then ended.(effects := s.effects + [FlickImpulse(Vec3(swipe.x, 0.0, swipe.y), c.flickSpeed)])
        else ended
      case _ => s
  }

  /**
   A jump acts only on the ground and outside a respawn: one upward impulse,
   and the ball is airborne. Before Start the body reference is still unset,
   so a press that passes the guard fails at the impulse and the callback is
   abandoned before it clears the ground flag: nothing changes.
   */
  function Jump(c: Settings, s: BallState): (r: BallState)
    ensures r == s || (s.started && s.isGrounded && !s.isRespawning)
    ensures s.started && s.isGrounded && !s.isRespawning ==>
      && !r.isGrounded
      && r.effects == s.effects + [Impulse(JumpImpulse(c))]
      && r.(isGrounded := s.isGrounded, effects := s.effects) == s
  {
    if s.isGrounded && !s.isRespawning then
      if !s.started then s
      else s.(effects := s.effects + [Impulse(JumpImpulse(c))], isGrounded := false)
    else s
  }

  /** A persisting collision grounds the ball when some contact is ground; otherwise it changes nothing. */
  function CollisionStay(s: BallState, normals: seq<Vec3>): (r: BallState)
    ensures r.isGrounded == (s.isGrounded || HasGroundContact(normals))
    ensures r.(isGrounded := s.isGrounded) == s
  {
    if HasGroundContact(normals) then s.(isGrounded := true) else s
  }

  /** Losing a collision always leaves the ball ungrounded, and nothing else. */
  function CollisionExit(s: BallState): (r: BallState)
    ensures !r.isGrounded
    ensures r.(isGrounded := s.isGrounded) == s
  {
    s.(isGrounded := false)
  }

  /**
   Entering a fall zone outside a respawn costs one life; the ball respawns
   while lives stay at or above zero, and otherwise the game is announced
   lost and the ball is left where it is, not respawning. Any other trigger,
   or any trigger during a respawn, changes nothing.
   */
  function TriggerEnter(c: Settings, s: BallState, tag: string): (r: BallState)
    requires s.lives <= LivesCap(c, s)
    ensures tag != FallZoneTag || s.isRespawning ==> r == s
    ensures tag == FallZoneTag && !s.isRespawning ==> r.lives == s.lives - 1
    ensures tag == FallZoneTag && !s.isRespawning && s.lives - 1 >= 0 ==>
      r == s.(lives := s.lives - 1,
              isRespawning := true, isKinematic := true, position := RespawnPoint(c),
              linearVelocity := Zero3, angularVelocity := Zero3,
              pendingEnables := s.pendingEnables + 1,
              effects := s.effects + [EnableBallScheduled])
    ensures tag == FallZoneTag && !s.isRespawning && s.lives - 1 < 0 ==>
      r == s.(lives := s.lives - 1, effects := s.effects + [GameOver])
  {
    if tag == FallZoneTag && !s.isRespawning then
      var s' := s.(lives := s.lives - 1);
      if s'.lives >= 0 then ResetBall(c, s') else s'.(effects := s'.effects + [GameOver])
    else s
  }

  /**
   The engine's integration between callbacks: a body that is not kinematic
   ends up at some new position and velocities; a kinematic one stays put.
   */
  function PhysicsStep(s: BallState, position: Vec3, linearVelocity: Vec3, angularVelocity: Vec3): BallState
  {
    if s.isKinematic then s
    else s.(position := position, linearVelocity := linearVelocity, angularVelocity := angularVelocity)
  }

  /** What the engine can deliver to the component. */
  datatype Event =
    | StartCalled
    | FixedTick(tilt: Vec3)
    | FrameTick(touch: Option<Touch>)
    | JumpPressed
    | CollisionStayed(normals: seq<Vec3>)
    | CollisionExited
    | TriggerEntered(tag: string)
    | EnableBallFired
    | Simulated(position: Vec3, linearVelocity: Vec3, angularVelocity: Vec3)

  /**
   The engine's delivery rules: Start runs once; the per-tick callbacks run
   only after Start and while the component is enabled; EnableBall runs only
   when scheduled. Collision and trigger callbacks, the Jump button and the
   simulation reach the component always, enabled or not.
   */
  predicate Delivered(s: BallState, e: Event)
  {
    match e
    case StartCalled => !s.started
    case FixedTick(_) => s.started && s.enabled
    case FrameTick(_) => s.started && s.enabled
    case EnableBallFired => s.pendingEnables > 0
    case _ => true
  }

  function Step(c: Settings, s: BallState, e: Event): (r: BallState)
    requires Inv(c, s) && Delivered(s, e)
    ensures Inv(c, r)
  {
    match e
    case StartCalled => Start(c, s)
    case FixedTick(tilt) => FixedUpdate(c, s, tilt)
    case FrameTick(touch) => Update(c, s, touch)
    case JumpPressed => Jump(c, s)
    case CollisionStayed(normals) => CollisionStay(s, normals)
    case CollisionExited => CollisionExit(s)
    case TriggerEntered(tag) => TriggerEnter(c, s, tag)
    case EnableBallFired => EnableBall(s)
    case Simulated(p, v, w) => PhysicsStep(s, p, v, w)
  }

  /** An event the engine would not deliver leaves the state as it is. */
  function Deliver(c: Settings, s: BallState, e: Event): (r: BallState)
    requires Inv(c, s)
    ensures Inv(c, r)
    ensures !Delivered(s, e) ==> r == s
  {
    if Delivered(s, e) then Step(c, s, e) else s
  }

  /** The state after a sequence of events; every state on the way keeps Inv. */
  function Run(c: Settings, s: BallState, es: seq<Event>): (r: BallState)
    requires Inv(c, s)
    ensures Inv(c, r)
    decreases |es|
  {
    if es == [] then s else Run(c, Deliver(c, s, es[0]), es[1..])
  }
}
