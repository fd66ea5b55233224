/**
 The ball controller component: its private fields and the rigid body's
 kinematic flag, position and velocities as mutable fields, and each engine
 callback as a method. Every method is proved to move the object from
 `old(State())` to exactly the state the matching Lifecycle transition
 gives, and to keep the object invariant Lifecycle.Inv.
 */
module BallComponent {
  import opened Vectors
  import Lifecycle

  class BallControl {
    const settings: Lifecycle.Settings

    var started: bool
    var enabled: bool
    var lives: int
    var isGrounded: bool
    var isRespawning: bool
    var startTouch: Vec2
    var endTouch: Vec2

    // the rigid body, as far as the controller reads and writes it
    var isKinematic: bool
    var position: Vec3
    var linearVelocity: Vec3
    var angularVelocity: Vec3

    // EnableBall calls scheduled and not yet run
    var pendingEnables: nat
    // the forces, impulses and announcements requested so far, in order
    var effects: seq<Lifecycle.Effect>

    function State(): Lifecycle.BallState
      reads this
    {
      Lifecycle.BallState(started, enabled, lives, isGrounded, isRespawning, isKinematic,
                          position, linearVelocity, angularVelocity, startTouch, endTouch,
                          pendingEnables, effects)
    }

    ghost predicate Valid()
      reads this
    {
      Lifecycle.Inv(settings, State())
    }

    /** The component as attached to a ball resting at `position`, before Start. */
    constructor (settings: Lifecycle.Settings, position: Vec3)
      ensures this.settings == settings
      ensures State() == Lifecycle.Attached(position)
      ensures Valid()
    {
      this.settings := settings;
      started, enabled := false, true;
      lives := 0;
      isGrounded, isRespawning := false, false;
      startTouch, endTouch := Vec2(0.0, 0.0), Vec2(0.0, 0.0);
      isKinematic := false;
      this.position := position;
      linearVelocity, angularVelocity := Zero3, Zero3;
      pendingEnables := 0;
      effects := [];
    }

    method Start()
      requires Valid() && !started
      modifies this
      ensures Valid()
      ensures State() == Lifecycle.Start(settings, old(State()))
    {
      started := true;
      if settings.startPoint.None? {
        enabled := false;
        return;
      }
      lives := settings.maxLives;
      ResetBall();
    }

    method FixedUpdate(tilt: Vec3)
      requires Valid() && started && enabled
      modifies this
      ensures Valid()
      ensures State() == Lifecycle.FixedUpdate(settings, old(State()), tilt)
    {
      if isRespawning {
        return;
      }
      effects := effects + [Lifecycle.Force(Lifecycle.TiltForce(settings, tilt))];
      if Lifecycle.ExceedsCap(linearVelocity, settings.maxVelocity) {
        effects := effects + [Lifecycle.VelocityCapped(settings.maxVelocity)];
      }
      if position.y < Lifecycle.FallHeight {
        ResetBall();
      }
    }

    method Update(touch: Lifecycle.Option<Lifecycle.Touch>)
      requires Valid() && started && enabled
      modifies this
      ensures Valid()
      ensures State() == Lifecycle.Update(settings, old(State()), touch)
    {
      if isRespawning || touch.None? {
        return;
      }
      match touch.value.phase {
        case Began =>
          startTouch := touch.value.position;
        case Ended =>
          endTouch := touch.value.position;
          var swipe := Minus2(endTouch, startTouch);
          if Lifecycle.IsFlick(swipe) {
            effects := effects + [Lifecycle.FlickImpulse(Vec3(swipe.x, 0.0, swipe.y), settings.flickSpeed)];
          }
        case _ =>
      }
    }

    method Jump()
      requires Valid()
      modifies this
      ensures Valid()
      ensures State() == Lifecycle.Jump(settings, old(State()))
    {
      if isGrounded && !isRespawning {
        if !started {
          // the body reference is assigned in Start: the impulse fails and the callback ends here
          return;
        }
        effects := effects + [Lifecycle.Impulse(Lifecycle.JumpImpulse(settings))];
        isGrounded := false;
      }
    }

    /** Looks through the contacts in order and stops at the first ground contact. */
    method OnCollisionStay(normals: seq<Vec3>)
      requires Valid()
      modifies this
      ensures Valid()
      ensures isGrounded == (old(isGrounded) || Lifecycle.HasGroundContact(normals))
      ensures State() == Lifecycle.CollisionStay(old(State()), normals)
    {
      var i := 0;
      while i < |normals|
        invariant 0 <= i <= |normals|
        invariant forall j :: 0 <= j < i ==> normals[j].y <= Lifecycle.GroundNormalMin
        invariant State() == old(State())
      {
        if normals[i].y > Lifecycle.GroundNormalMin {
          isGrounded := true;
          return;
        }
        i := i + 1;
      }
    }

    method OnCollisionExit()
      requires Valid()
      modifies this
      ensures Valid()
      ensures State() == Lifecycle.CollisionExit(old(State()))
    {
      isGrounded := false;
    }

    method OnTriggerEnter(tag: string)
      requires Valid()
      modifies this
      ensures Valid()
      ensures State() == Lifecycle.TriggerEnter(settings, old(State()), tag)
    {
      if tag == Lifecycle.FallZoneTag && !isRespawning {
        lives := lives - 1;
        if lives >= 0 {
          ResetBall();
        } else {
          effects := effects + [Lifecycle.GameOver];
        }
      }
    }

    /** Called only outside a respawn, after Start has found the start point. */
    method ResetBall()
      requires Valid() && started && !isRespawning && settings.startPoint.Some?
      modifies this
      ensures Valid()
      ensures State() == Lifecycle.ResetBall(settings, old(State()))
    {
      isRespawning := true;
      isKinematic := true;
      position := Lifecycle.RespawnPoint(settings);
      linearVelocity := Zero3;
      angularVelocity := Zero3;
      pendingEnables := pendingEnables + 1;
      effects := effects + [Lifecycle.EnableBallScheduled];
    }

    /** Run by the scheduler, once per earlier ResetBall. */
    method EnableBall()
      requires Valid() && pendingEnables > 0
      modifies this
      ensures Valid()
      ensures State() == Lifecycle.EnableBall(old(State()))
    {
      isKinematic := false;
      linearVelocity := Zero3;
      angularVelocity := Zero3;
      effects := effects + [Lifecycle.WokenUp];
      isRespawning := false;
      pendingEnables := pendingEnables - 1;
    }

    /** The engine's simulation between callbacks; it does not move a kinematic body. */
    method Simulate(newPosition: Vec3, newLinearVelocity: Vec3, newAngularVelocity: Vec3)
      requires Valid()
      modifies this
      ensures Valid()
      ensures State() == Lifecycle.PhysicsStep(old(State()), newPosition, newLinearVelocity, newAngularVelocity)
    {
      if !isKinematic {
        position, linearVelocity, angularVelocity := newPosition, newLinearVelocity, newAngularVelocity;
      }
    }
  }
}
