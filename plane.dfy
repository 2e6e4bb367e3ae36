/** The player's plane: animation, position, the idle bob, hits taken and
    the invincibility window after a hit. */
module PlaneEntity {
  import opened Wrappers
  import opened Catalog
  import opened Sprites
  import opened JoystickControl

  /** One entry of the plane catalog. */
  datatype PlaneData = PlaneData(
    name: string,
    height: real,
    imageWidth: real,
    imageHeight: real,
    startingAnimation: string,
    idleAnimation: string,
    shootingAnimation: string,
    deathAnimation: string,
    maxNumberOfHits: int,
    shootingRate: real,
    projectile: string,
    invincibilityDuration: real)

  function PlaneName(d: PlaneData): string { d.name }

  /** The tint tween runs `repeat + 1` cycles of 100 ms (50 ms each way). */
  function InvincibilityRepeat(duration: real): int
  {
    (duration / 100.0).Floor - 1
  }

  /** From 100 ms on, the blink tween covers the invincibility duration
      rounded down to whole 100 ms cycles: it ends less than one cycle early,
      never late. Below 100 ms the repeat count is −1, which the tween
      library reads as "repeat forever". */
  lemma InvincibilityCoversDuration(duration: real)
    requires duration >= 100.0
    ensures var cycles := InvincibilityRepeat(duration) + 1;
      (cycles as real) * 100.0 <= duration < (cycles as real) * 100.0 + 100.0
  {
  }

  /** `((screenWidth / 3) * delta) / 1000`: a third of the screen height a
      second. */
  function VerticalStep(screenWidth: real, delta: real): real
  {
    ((screenWidth / 3.0) * delta) / 1000.0
  }

  /** Where a frame's move leaves the plane before clamping: moving stops
      the bob first, and stopping a running bob puts the plane back on its
      base line, so that frame's step is lost. */
  function MovedY(state: JoystickState, y: real, baseY: real, bobbing: bool, step: real): real
  {
    match state
    case Up => if bobbing then baseY else y - step
    case Down => if bobbing then baseY else y + step
    case Idle => y
  }

  class Plane {
    const name: string
    const displayWidth: real
    const displayHeight: real
    const startingAnimation: string
    const idleAnimation: string
    const shootingAnimation: string
    const deathAnimation: string
    const maxNumberOfHits: int
    const shootingRate: real
    const projectile: string
    const invincibilityDuration: real
    var currentAnimation: string
    var numberOfHits: int
    var isInvincible: bool
    var x: real
    var y: real
    /** The line the bob tween oscillates above; the last position set. */
    var baseY: real
    /** Whether the bob tween is running. */
    var bobbing: bool

    constructor(d: PlaneData, screenWidth: real)
      requires d.height != 0.0 && d.imageHeight != 0.0
      ensures name == d.name && maxNumberOfHits == d.maxNumberOfHits
      ensures displayWidth == DisplayWidth(screenWidth, d.height, d.imageWidth, d.imageHeight)
      ensures displayHeight == screenWidth / d.height
      ensures startingAnimation == d.startingAnimation && idleAnimation == d.idleAnimation
      ensures shootingAnimation == d.shootingAnimation && deathAnimation == d.deathAnimation
      ensures shootingRate == d.shootingRate && projectile == d.projectile
      ensures invincibilityDuration == d.invincibilityDuration
      ensures currentAnimation == d.startingAnimation
      ensures numberOfHits == 0 && !isInvincible && !bobbing
      ensures x == 0.0 && y == 0.0
    {
      name := d.name;
      displayWidth := DisplayWidth(screenWidth, d.height, d.imageWidth, d.imageHeight);
      displayHeight := screenWidth / d.height;
      startingAnimation := d.startingAnimation;
      idleAnimation := d.idleAnimation;
      shootingAnimation := d.shootingAnimation;
      deathAnimation := d.deathAnimation;
      currentAnimation := d.startingAnimation;
      maxNumberOfHits := d.maxNumberOfHits;
      numberOfHits := 0;
      shootingRate := d.shootingRate;
      projectile := d.projectile;
      isInvincible := false;
      invincibilityDuration := d.invincibilityDuration;
      x, y, baseY := 0.0, 0.0, 0.0;
      bobbing := false;
    }

    /** Plays `animationName` unless it is already the current one;
        `played` says whether the sprite was asked to play it. */
    method SetAnimation(animationName: string) returns (played: bool)
      modifies this
      ensures currentAnimation == animationName
      ensures played <==> old(currentAnimation) != animationName
      ensures x == old(x) && y == old(y) && baseY == old(baseY) && bobbing == old(bobbing)
      ensures numberOfHits == old(numberOfHits) && isInvincible == old(isInvincible)
    {
      played := false;
      if currentAnimation != animationName {
        played := true;
        currentAnimation := animationName;
      }
    }

    /** Moves the plane and makes the new height the bob's base line. */
    method SetPosition(newX: real, newY: real)
      modifies this
      ensures x == newX && y == newY && baseY == newY
      ensures bobbing == old(bobbing) && currentAnimation == old(currentAnimation)
      ensures numberOfHits == old(numberOfHits) && isInvincible == old(isInvincible)
    {
      x, y, baseY := newX, newY, newY;
    }

    /** Starts the bob tween unless one is running already. */
    method StartBobbing()
      modifies this
      ensures bobbing
      ensures x == old(x) && y == old(y) && baseY == old(baseY)
      ensures currentAnimation == old(currentAnimation)
      ensures numberOfHits == old(numberOfHits) && isInvincible == old(isInvincible)
    {
      if !bobbing {
        bobbing := true;
      }
    }

    /** Stops a running bob tween and puts the plane back on its base line. */
    method StopBobbing()
      modifies this
      ensures !bobbing
      ensures y == (if old(bobbing) then baseY else old(y))
      ensures x == old(x) && baseY == old(baseY)
      ensures currentAnimation == old(currentAnimation)
      ensures numberOfHits == old(numberOfHits) && isInvincible == old(isInvincible)
    {
      if bobbing {
        bobbing := false;
        y := baseY;
      }
    }

    /** Makes the plane invincible; `repeat` is the tint tween's repeat count,
        whose completion calls `StopInvincibility`. */
    method StartInvincibility() returns (repeat: int)
      modifies this
      ensures isInvincible
      ensures repeat == InvincibilityRepeat(invincibilityDuration)
      ensures x == old(x) && y == old(y) && baseY == old(baseY) && bobbing == old(bobbing)
      ensures currentAnimation == old(currentAnimation) && numberOfHits == old(numberOfHits)
    {
      var cycleDuration := 50.0 * 2.0;
      repeat := (invincibilityDuration / cycleDuration).Floor - 1;
      isInvincible := true;
    }

    method StopInvincibility()
      modifies this
      ensures !isInvincible
      ensures x == old(x) && y == old(y) && baseY == old(baseY) && bobbing == old(bobbing)
      ensures currentAnimation == old(currentAnimation) && numberOfHits == old(numberOfHits)
    {
      isInvincible := false;
    }

    /** `5 + displayHeight / 2`: the highest the plane's centre may go. */
    function TopBound(): real
      reads this
    {
      5.0 + displayHeight / 2.0
    }

    /** One frame of vertical control. `bottomBound` is the joystick base's
        `y - displayHeight / 1.15`. */
    method Update(state: JoystickState, delta: real, screenWidth: real, bottomBound: real)
      modifies this
      ensures y == Clamp(MovedY(state, old(y), old(baseY), old(bobbing), VerticalStep(screenWidth, delta)), TopBound(), bottomBound)
      ensures TopBound() <= bottomBound ==> TopBound() <= y <= bottomBound
      ensures bobbing <==> state == Idle
      ensures baseY == (if state == Idle then old(baseY) else y)
      ensures x == old(x)
      ensures currentAnimation == old(currentAnimation)
      ensures numberOfHits == old(numberOfHits) && isInvincible == old(isInvincible)
    {
      var verticalSpeed := VerticalStep(screenWidth, delta);
      if state == Up {
        y := y - verticalSpeed;
        StopBobbing();
      } else if state == Down {
        y := y + verticalSpeed;
        StopBobbing();
      } else {
        StartBobbing();
      }
      var planeTopBound := 5.0 + displayHeight / 2.0;
      y := Clamp(y, planeTopBound, bottomBound);
      if state == Up || state == Down {
        SetPosition(x, y);
      }
    }
  }

  /** Looks the plane type up in the catalog and builds it; `None` where the
      lookup misses and the constructor throws reading the missing entry. */
  method Create(catalog: seq<PlaneData>, planeType: string, screenWidth: real) returns (p: Option<Plane>)
    requires forall d :: d in catalog ==> d.height != 0.0 && d.imageHeight != 0.0
    ensures p.None? <==> Find(catalog, PlaneName, planeType).None?
    ensures p.Some? ==> fresh(p.value) && p.value.name == planeType && p.value.numberOfHits == 0
  {
    var found := Find(catalog, PlaneName, planeType);
    if found.None? {
      return None;
    }
    var plane := new Plane(found.value, screenWidth);
    return Some(plane);
  }
}
