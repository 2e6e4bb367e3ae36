/** The earlier version of the enemy: the same movement, hits and shoot
    timer, no death sound, and an unguarded shooting sound. */
module EarlyEnemyEntity {
  import opened Wrappers
  import opened Catalog
  import opened Sprites
  import opened SoundEffects
  import opened ProjectileEntity
  import opened EnemyEntity

  class EarlyEnemy {
    const name: string
    const speed: real
    const displayWidth: real
    const shootingAnimation: string
    const maxNumberOfHits: int
    const score: int
    const projectile: Option<string>
    const shootingSound: Option<SoundEffect>
    var x: real
    var y: real
    var numberOfHits: int
    var active: bool
    var hasShootTimer: bool
    var animation: string

    constructor(d: EnemyData, x0: real, y0: real, screenWidth: real)
      requires DrawableEnemy(d)
      ensures name == d.name && score == d.score && maxNumberOfHits == d.maxNumberOfHits
      ensures projectile == d.projectile && shootingAnimation == d.shootingAnimation
      ensures speed == Speed(screenWidth, d.speed)
      ensures displayWidth == DisplayWidth(screenWidth, d.height, d.imageWidth, d.imageHeight)
      ensures shootingSound == FindSound(d.soundEffects, "shoot")
      ensures x == x0 && y == y0 && numberOfHits == 0 && active
      ensures animation == d.startingAnimation
      ensures hasShootTimer <==> Shoots(d)
    {
      name := d.name;
      displayWidth := DisplayWidth(screenWidth, d.height, d.imageWidth, d.imageHeight);
      shootingAnimation := d.shootingAnimation;
      speed := Speed(screenWidth, d.speed);
      maxNumberOfHits := d.maxNumberOfHits;
      projectile := d.projectile;
      numberOfHits := 0;
      score := d.score;
      shootingSound := FindSound(d.soundEffects, "shoot");
      x, y := x0, y0;
      active := true;
      animation := d.startingAnimation;
      hasShootTimer := d.projectile.Some? && d.shootingRate.Some?;
    }

    /** Destroys the sprite, removing the shoot timer when the caller passes
        it; no sound is played. */
    method Destroy(passTimer: bool)
      modifies this
      ensures !active
      ensures hasShootTimer == (old(hasShootTimer) && !passTimer)
      ensures x == old(x) && y == old(y) && numberOfHits == old(numberOfHits) && animation == old(animation)
    {
      if passTimer && hasShootTimer {
        hasShootTimer := false;
      }
      active := false;
    }

    /** Fires like the later version, then plays the shooting sound with no
        guard: the projectile is already out when an enemy without a
        "shoot" sound throws the TypeError. */
    method FireProjectile() returns (shot: Option<Shot>, sound: Option<Result<string, TypeError>>)
      modifies this
      ensures !old(active) ==> shot.None? && sound.None? && animation == old(animation)
      ensures old(active) && projectile.Some? ==> shot == Some(Shot(projectile.value, x - displayWidth / 2.0, y, "left"))
      ensures old(active) ==> sound == Some(UnguardedKey(FoundValue(shootingSound))) && animation == shootingAnimation
      ensures old(active) ==> (sound.value.Err? <==> shootingSound.None?)
      ensures x == old(x) && y == old(y) && active == old(active)
      ensures numberOfHits == old(numberOfHits) && hasShootTimer == old(hasShootTimer)
    {
      if !active {
        return None, None;
      }
      animation := shootingAnimation;
      shot := None;
      if projectile.Some? {
        shot := Some(Shot(projectile.value, x - displayWidth / 2.0, y, "left"));
      }
      sound := Some(UnguardedKey(FoundValue(shootingSound)));
    }

    predicate IsOffScreen()
      reads this
    {
      PastLeftEdge(x, displayWidth)
    }

    method Update(delta: real)
      modifies this
      ensures x == MoveLeft(old(x), speed, delta)
      ensures y == old(y) && active == old(active) && numberOfHits == old(numberOfHits)
      ensures hasShootTimer == old(hasShootTimer) && animation == old(animation)
    {
      x := x - (speed * delta) / 1000.0;
    }
  }

  /** Looks the enemy type up and builds it; on a miss the "No data found
      for enemy." error is logged and the constructor then throws reading
      the missing entry, here `None`. */
  method Spawn(catalog: seq<EnemyData>, enemyType: string, x0: real, y0: real, screenWidth: real) returns (e: Option<EarlyEnemy>)
    requires forall d :: d in catalog ==> DrawableEnemy(d)
    ensures e.None? <==> Find(catalog, EnemyName, enemyType).None?
    ensures e.Some? ==> fresh(e.value) && e.value.name == enemyType && e.value.active
    ensures e.Some? ==> e.value.numberOfHits == 0 && e.value.x == x0 && e.value.y == y0
  {
    var found := Find(catalog, EnemyName, enemyType);
    if found.None? {
      return None;
    }
    var enemy := new EarlyEnemy(found.value, x0, y0, screenWidth);
    return Some(enemy);
  }
}
