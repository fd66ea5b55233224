/**
 Properties of the ball controller's lifecycle: that the squared-length tests
 decide the same as the engine's magnitude tests, and what holds over whole
 runs of engine callbacks.
 */
module LifecycleProperties {
  import opened Vectors
  import opened Lifecycle

  /** A swipe flicks the ball exactly when its length is above MinSwipe. */
  lemma FlickMatchesMagnitude(swipe: Vec2, magnitude: real)
    requires IsMagnitude2(swipe, magnitude)
    ensures IsFlick(swipe) <==> magnitude > MinSwipe
  {
    SquareOrder(magnitude, MinSwipe);
  }

  /** The velocity cap fires exactly when the speed is above `maxVelocity`. */
  lemma CapMatchesMagnitude(v: Vec3, speed: real, maxVelocity: real)
    requires IsMagnitude3(v, speed)
    ensures ExceedsCap(v, maxVelocity) <==> speed > maxVelocity
  {
    if maxVelocity >= 0.0 {
      SquareOrder(speed, maxVelocity);
    }
  }

  /**
   The ground flag is set again only by a persisting contact: a run with no
   CollisionStayed event leaves an airborne ball airborne.
   */
  lemma {:induction false} NoContactNoGround(c: Settings, s: BallState, es: seq<Event>)
    requires Inv(c, s) && !s.isGrounded
    requires forall i :: 0 <= i < |es| ==> !es[i].CollisionStayed?
    ensures !Run(c, s, es).isGrounded
    decreases |es|
  {
    if es != [] {
      NoContactNoGround(c, Deliver(c, s, es[0]), es[1..]);
    }
  }

  /**
   After a jump that acts, a second press does nothing until a new contact
   grounds the ball, whatever ticks, frames, triggers or simulation steps
   come in between.
   */
  lemma JumpNeedsLanding(c: Settings, s: BallState, es: seq<Event>)
    requires Inv(c, s) && s.started && s.isGrounded && !s.isRespawning
    requires forall i :: 0 <= i < |es| ==> !es[i].CollisionStayed?
    ensures var t := Run(c, Jump(c, s), es); Jump(c, t) == t
  {
    NoContactNoGround(c, Jump(c, s), es);
  }

  /**
   A grounded press that reaches the component before Start fails at the
   unset body reference: no impulse, and the ball stays grounded.
   */
  lemma JumpBeforeStartAborts(c: Settings, p: Vec3)
    ensures
      var s := Run(c, Attached(p), [CollisionStayed([Vec3(0.0, 1.0, 0.0)]), JumpPressed]);
      && s.isGrounded && s.effects == [] && !s.started
  {
  }

  /** One unfolding of Run, for the step-by-step scenario below. */
  lemma RunCons(c: Settings, s: BallState, e: Event, es: seq<Event>)
    requires Inv(c, s)
    ensures Run(c, s, [e] + es) == Run(c, Deliver(c, s, e), es)
  {
  }

  /**
   A gesture is measured from where it began: a touch that begins at `p` and
   ends at `q` in the next frame flicks the ball along q - p exactly when
   that swipe is longer than MinSwipe, whatever touch came before.
   */
  lemma SwipeFromGestureStart(c: Settings, s: BallState, p: Vec2, q: Vec2)
    requires Inv(c, s) && s.started && s.enabled && !s.isRespawning
    ensures
      var r := Run(c, s, [FrameTick(Some(Touch(Began, p))), FrameTick(Some(Touch(Ended, q)))]);
      var swipe := Minus2(q, p);
      && r.startTouch == p && r.endTouch == q
      && r.effects == s.effects + (if IsFlick(swipe) then [FlickImpulse(Vec3(swipe.x, 0.0, swipe.y), c.flickSpeed)] else [])
  {
    var began, ended := FrameTick(Some(Touch(Began, p))), FrameTick(Some(Touch(Ended, q)));
    RunCons(c, s, began, [ended]);
    RunCons(c, Deliver(c, s, began), ended, []);
  }

  /** Running two sequences one after the other is running their concatenation. */
  lemma {:induction false} RunAppend(c: Settings, s: BallState, xs: seq<Event>, ys: seq<Event>)
    requires Inv(c, s)
    ensures Run(c, s, xs + ys) == Run(c, Run(c, s, xs), ys)
    decreases |xs|
  {
    if xs != [] {
      assert (xs + ys)[1..] == xs[1..] + ys;
      RunAppend(c, Deliver(c, s, xs[0]), xs[1..], ys);
    } else {
      assert xs + ys == ys;
    }
  }

  /**
   From a ResetBall until the scheduled EnableBall runs, no callback and no
   simulation step applies a force or impulse, moves the ball, changes its
   velocities or its lives, or ends the respawn: only the ground flag can
   change.
   */
  lemma {:induction false} RespawnHoldsUntilEnable(c: Settings, s: BallState, es: seq<Event>)
    requires Inv(c, s) && s.isRespawning
    requires forall i :: 0 <= i < |es| ==> !es[i].EnableBallFired?
    ensures Run(c, s, es) == s.(isGrounded := Run(c, s, es).isGrounded)
    decreases |es|
  {
    if es != [] {
      var next := Deliver(c, s, es[0]);
      assert next == s.(isGrounded := next.isGrounded);
      RespawnHoldsUntilEnable(c, next, es[1..]);
    }
  }

  /** The number of fall-zone entries among the events. */
  function FallZoneEntries(es: seq<Event>): nat
  {
    if es == [] then 0
    else (if es[0] == TriggerEntered(FallZoneTag) then 1 else 0) + FallZoneEntries(es[1..])
  }

  /**
   After Start, lives never go up, and they go down by at most one per
   fall-zone entry: nothing else costs a life.
   */
  lemma {:induction false} LivesAccounted(c: Settings, s: BallState, es: seq<Event>)
    requires Inv(c, s) && s.started
    ensures Run(c, s, es).started
    ensures s.lives - FallZoneEntries(es) <= Run(c, s, es).lives <= s.lives
    decreases |es|
  {
    if es != [] {
      var next := Deliver(c, s, es[0]);
      assert next.started;
      assert s.lives - (if es[0] == TriggerEntered(FallZoneTag) then 1 else 0) <= next.lives <= s.lives;
      LivesAccounted(c, next, es[1..]);
    }
  }

  /**
   With three lives the ball respawns after the first three falls into a
   fall zone (lives 2, 1, 0) and the fourth ends the game: lives -1, no
   respawn, game over announced.
   */
  lemma FourthFallIsGameOver(c: Settings, p: Vec3)
    requires c.maxLives == 3 && c.startPoint.Some?
    ensures
      var fall := [EnableBallFired, TriggerEntered(FallZoneTag)];
      var afterThree := Run(c, Attached(p), [StartCalled] + fall + fall + fall);
      var afterFour := Run(c, afterThree, fall);
      && afterThree.lives == 0 && afterThree.isRespawning
      && afterFour.lives == -1 && !afterFour.isRespawning
      && afterFour.effects == afterThree.effects + [WokenUp, GameOver]
  {
    var fall := [EnableBallFired, TriggerEntered(FallZoneTag)];
    var s0 := Attached(p);
    var s1 := Run(c, s0, [StartCalled]);
    assert s1 == Start(c, s0) by { RunCons(c, s0, StartCalled, []); }
    var s2 := Run(c, s1, fall);
    assert s2.lives == 2 && s2.isRespawning by { RunCons(c, s1, EnableBallFired, [TriggerEntered(FallZoneTag)]); }
    var s3 := Run(c, s2, fall);
    assert s3.lives == 1 && s3.isRespawning by { RunCons(c, s2, EnableBallFired, [TriggerEntered(FallZoneTag)]); }
    var s4 := Run(c, s3, fall);
    assert s4.lives == 0 && s4.isRespawning by { RunCons(c, s3, EnableBallFired, [TriggerEntered(FallZoneTag)]); }
    var s5 := Run(c, s4, fall);
    assert s5.lives == -1 && !s5.isRespawning && s5.effects == s4.effects + [WokenUp, GameOver] by {
      RunCons(c, s4, EnableBallFired, [TriggerEntered(FallZoneTag)]);
    }
    RunAppend(c, s0, [StartCalled], fall);
    RunAppend(c, s0, [StartCalled] + fall, fall);
    RunAppend(c, s0, [StartCalled] + fall + fall, fall);
  }
}
