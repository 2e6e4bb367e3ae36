/** The shoot button: a tap fires at once, and holding it keeps firing one
    projectile per cooldown, the first repeat coming after one and a half
    cooldowns. */
module ShootButtonControl {
  import opened Wrappers
  import opened ProjectileEntity
  import opened PlaneEntity

  /** The shot from the plane's nose: half its width ahead of its centre and
      a quarter of its height below, flying right. */
  function Muzzle(p: Plane): Shot
    reads p
  {
    Shot(p.projectile, p.x + p.displayWidth / 2.0, p.y + p.displayHeight / 4.0, "right")
  }

  /** One frame of a held button's timer: the elapsed time and whether it
      fires. */
  function Tick(elapsed: real, delta: real, cooldown: real): (r: (real, bool))
    ensures r.1 <==> elapsed + delta >= cooldown
    ensures r.1 ==> r.0 == 0.0
    ensures !r.1 ==> r.0 == elapsed + delta && r.0 < cooldown
  {
    var e := elapsed + delta;
    if e >= cooldown then (0.0, true) else (e, false)
  }

  /** Shots fired by `n` frames of `delta` each from a held button whose
      timer stands at `elapsed`. */
  function ShotsOver(elapsed: real, delta: real, cooldown: real, n: nat): nat
    decreases n
  {
    if n == 0 then 0
    else
      var (e, fired) := Tick(elapsed, delta, cooldown);
      (if fired then 1 else 0) + ShotsOver(e, delta, cooldown, n - 1)
  }

  /** Holding fires at most once per frame, and when a frame lasts at least
      the cooldown a held button whose timer is not behind fires on every
      frame. */
  lemma {:induction false} ShotsBounded(elapsed: real, delta: real, cooldown: real, n: nat)
    decreases n
    ensures ShotsOver(elapsed, delta, cooldown, n) <= n
    ensures 0.0 < cooldown <= delta && elapsed >= 0.0 ==> ShotsOver(elapsed, delta, cooldown, n) == n
  {
    if n > 0 {
      var (e, fired) := Tick(elapsed, delta, cooldown);
      ShotsBounded(e, delta, cooldown, n - 1);
    }
  }

  class ShootButton {
    const plane: Plane
    /** The plane's shooting rate, in milliseconds. */
    const shootCooldown: real
    var isHeld: bool
    var elapsed: real

    /** Between frames a positive cooldown has not yet run out. */
    ghost predicate Valid()
      reads this
    {
      shootCooldown > 0.0 ==> elapsed < shootCooldown
    }

    constructor(plane: Plane)
      requires plane.shootingRate >= 0.0
      ensures this.plane == plane && shootCooldown == plane.shootingRate
      ensures !isHeld && elapsed == 0.0 && Valid()
    {
      this.plane := plane;
      shootCooldown := plane.shootingRate;
      isHeld := false;
      elapsed := 0.0;
    }

    /** The `pointerdown` handler: unless already held, switch the plane to
        its shooting animation, fire once and set the timer back by half a
        cooldown. */
    method PointerDown() returns (shot: Option<Shot>)
      requires Valid() && shootCooldown >= 0.0
      modifies this, plane
      ensures Valid()
      ensures old(isHeld) ==> shot.None? && isHeld && elapsed == old(elapsed)
      ensures old(isHeld) ==> plane.currentAnimation == old(plane.currentAnimation)
      ensures !old(isHeld) ==> isHeld && elapsed == -shootCooldown / 2.0
      ensures !old(isHeld) ==> plane.currentAnimation == plane.shootingAnimation
      ensures !old(isHeld) ==> shot == Some(Muzzle(plane))
      ensures plane.x == old(plane.x) && plane.y == old(plane.y) && plane.baseY == old(plane.baseY)
      ensures plane.bobbing == old(plane.bobbing) && plane.numberOfHits == old(plane.numberOfHits)
      ensures plane.isInvincible == old(plane.isInvincible)
    {
      shot := None;
      if !isHeld {
        isHeld := true;
        var _ := plane.SetAnimation(plane.shootingAnimation);
        shot := Some(Muzzle(plane));
        elapsed := -shootCooldown / 2.0;
      }
    }

    /** The `pointerup`, `pointerout` and `pointerupoutside` handler. */
    method StopShooting()
      modifies this, plane
      ensures !isHeld && elapsed == old(elapsed)
      ensures old(isHeld) ==> plane.currentAnimation == plane.idleAnimation
      ensures !old(isHeld) ==> plane.currentAnimation == old(plane.currentAnimation)
      ensures plane.x == old(plane.x) && plane.y == old(plane.y) && plane.baseY == old(plane.baseY)
      ensures plane.bobbing == old(plane.bobbing) && plane.numberOfHits == old(plane.numberOfHits)
      ensures plane.isInvincible == old(plane.isInvincible)
    {
      if isHeld {
        isHeld := false;
        var _ := plane.SetAnimation(plane.idleAnimation);
      }
    }

    /** One frame: a held button advances its timer by `delta` and fires
        when the cooldown has run out. */
    method Update(delta: real) returns (shot: Option<Shot>)
      requires Valid()
      modifies this
      ensures Valid() && isHeld == old(isHeld)
      ensures !isHeld ==> shot.None? && elapsed == old(elapsed)
      ensures isHeld ==> (elapsed, shot.Some?) == Tick(old(elapsed), delta, shootCooldown)
      ensures shot.Some? ==> shot.value == Muzzle(plane)
    {
      shot := None;
      if !isHeld {
        return;
      }
      elapsed := elapsed + delta;
      if elapsed >= shootCooldown {
        elapsed := 0.0;
        shot := Some(Muzzle(plane));
      }
    }
  }
}
