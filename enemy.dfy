/** Enemies: they drift left, may fire projectiles on a looping timer, take
    hits and are destroyed. This is the later of the two versions of the
    enemy, the one whose sound plays are guarded. */
module EnemyEntity {
  import opened Wrappers
  import opened Catalog
  import opened Sprites
  import opened SoundEffects
  import opened ProjectileEntity

  /** One entry of the enemy catalog; `projectile` and `shootingRate` are
      `null` for an enemy that does not shoot. */
  datatype EnemyData = EnemyData(
    name: string,
    height: real,
    speed: real,
    imageWidth: real,
    imageHeight: real,
    startingAnimation: string,
    shootingAnimation: string,
    deathAnimation: string,
    maxNumberOfHits: int,
    score: int,
    projectile: Option<string>,
    shootingRate: Option<real>,
    soundEffects: seq<SoundEffect>)

  function EnemyName(d: EnemyData): string { d.name }

  predicate DrawableEnemy(d: EnemyData)
  {
    Drawable(d.height, d.speed, d.imageHeight)
  }

  /** An enemy gets a shoot timer exactly when its entry names both a
      projectile and a shooting rate. */
  predicate Shoots(d: EnemyData)
  {
    d.projectile.Some? && d.shootingRate.Some?
  }

  class Enemy {
    const name: string
    const speed: real
    const displayWidth: real
    const startingAnimation: string
    const shootingAnimation: string
    const maxNumberOfHits: int
    /** Points awarded when a projectile destroys it. */
    const score: int
    const projectile: Option<string>
    const hitSound: Option<SoundEffect>
    const shootingSound: Option<SoundEffect>
    const deathSound: Option<SoundEffect>
    var x: real
    var y: real
    var numberOfHits: int
    /** The sprite's `active` flag, cleared by destroying it. */
    var active: bool
    /** Whether a looping shoot timer exists and has not been removed. */
    var hasShootTimer: bool
    var animation: string

    constructor(d: EnemyData, x0: real, y0: real, screenWidth: real)
      requires DrawableEnemy(d)
      ensures name == d.name && score == d.score && maxNumberOfHits == d.maxNumberOfHits
      ensures projectile == d.projectile
      ensures speed == Speed(screenWidth, d.speed)
      ensures displayWidth == DisplayWidth(screenWidth, d.height, d.imageWidth, d.imageHeight)
      ensures hitSound == FindSound(d.soundEffects, "hit")
      ensures shootingSound == FindSound(d.soundEffects, "shoot")
      ensures deathSound == FindSound(d.soundEffects, "death")
      ensures startingAnimation == d.startingAnimation && shootingAnimation == d.shootingAnimation
      ensures x == x0 && y == y0 && numberOfHits == 0 && active
      ensures animation == d.startingAnimation
      ensures hasShootTimer <==> Shoots(d)
    {
      name := d.name;
      displayWidth := DisplayWidth(screenWidth, d.height, d.imageWidth, d.imageHeight);
      startingAnimation := d.startingAnimation;
      shootingAnimation := d.shootingAnimation;
      speed := Speed(screenWidth, d.speed);
      maxNumberOfHits := d.maxNumberOfHits;
      projectile := d.projectile;
      numberOfHits := 0;
      score := d.score;
      hitSound := FindSound(d.soundEffects, "hit");
      shootingSound := FindSound(d.soundEffects, "shoot");
      deathSound := FindSound(d.soundEffects, "death");
      x, y := x0, y0;
      active := true;
      animation := d.startingAnimation;
      hasShootTimer := d.projectile.Some? && d.shootingRate.Some?;
    }

    /** Destroys the sprite. `passTimer` says the caller passed the enemy's
        own shoot timer, which is then removed; without it the timer keeps
        running. `sound` is the death sound played. */
    method Destroy(passTimer: bool) returns (sound: Option<string>)
      modifies this
      ensures !active
      ensures hasShootTimer == (old(hasShootTimer) && !passTimer)
      ensures sound == SoundToPlay(deathSound)
      ensures x == old(x) && y == old(y) && numberOfHits == old(numberOfHits) && animation == old(animation)
    {
      if passTimer && hasShootTimer {
        hasShootTimer := false;
      }
      active := false;
      sound := SoundToPlay(deathSound);
    }

    /** The shoot timer's callback: a destroyed enemy does nothing; a live
        one plays its shooting animation and fires to the left from its
        front edge. */
    method FireProjectile() returns (shot: Option<Shot>, sound: Option<string>)
      modifies this
      ensures !old(active) ==> shot.None? && sound.None? && animation == old(animation)
      ensures old(active) && projectile.Some? ==> shot == Some(Shot(projectile.value, x - displayWidth / 2.0, y, "left"))
      ensures old(active) ==> sound == SoundToPlay(shootingSound) && animation == shootingAnimation
      ensures x == old(x) && y == old(y) && active == old(active)
      ensures numberOfHits == old(numberOfHits) && hasShootTimer == old(hasShootTimer)
    {
      if !active {
        return None, None;
      }
      animation := shootingAnimation;
      shot := None;
      if projectile.Some? {
        shot := Some(Shot(projectile.value, x - displayWidth / 2.0, y, "left"));
      }
      sound := SoundToPlay(shootingSound);
    }

    predicate IsOffScreen()
      reads this
    {
      PastLeftEdge(x, displayWidth)
    }

    method Update(delta: real)
      modifies this
      ensures x == MoveLeft(old(x), speed, delta)
      ensures y == old(y) && active == old(active) && numberOfHits == old(numberOfHits)
      ensures hasShootTimer == old(hasShootTimer) && animation == old(animation)
    {
      x := x - (speed * delta) / 1000.0;
    }
  }

  /** Looks the enemy type up and builds it; `None` where the lookup misses
      and the constructor throws reading the missing entry. */
  method Spawn(catalog: seq<EnemyData>, enemyType: string, x0: real, y0: real, screenWidth: real) returns (e: Option<Enemy>)
    requires forall d :: d in catalog ==> DrawableEnemy(d)
    ensures e.None? <==> Find(catalog, EnemyName, enemyType).None?
    ensures e.Some? ==> fresh(e.value) && e.value.name == enemyType && e.value.active
    ensures e.Some? ==> e.value.numberOfHits == 0 && e.value.x == x0 && e.value.y == y0
    ensures e.Some? ==> e.value.score == Find(catalog, EnemyName, enemyType).value.score
    ensures e.Some? ==> e.value.maxNumberOfHits == Find(catalog, EnemyName, enemyType).value.maxNumberOfHits
  {
    var found := Find(catalog, EnemyName, enemyType);
    if found.None? {
      return None;
    }
    var enemy := new Enemy(found.value, x0, y0, screenWidth);
    return Some(enemy);
  }
}
