/** Projectiles fired by the plane (to the right) and by enemies (to the
    left). */
module ProjectileEntity {
  import opened Wrappers
  import opened Catalog
  import opened Sprites

  /** One entry of the projectile catalog. */
  datatype ProjectileData = ProjectileData(name: string, height: real, speed: real, imageWidth: real, imageHeight: real)

  function ProjectileName(d: ProjectileData): string { d.name }

  predicate DrawableProjectile(d: ProjectileData)
  {
    Drawable(d.height, d.speed, d.imageHeight)
  }

  /** A request to spawn a projectile of catalog type `kind` at (x, y)
      flying in `direction`, as the shoot button and enemies issue it. */
  datatype Shot = Shot(kind: string, x: real, y: real, direction: string)

  /** Whether a direction is the one `update` moves to the right; any
      other direction flies left. */
  predicate IsRight(direction: string)
  {
    direction == "right"
  }

  /** One frame of flight, to the right when `right` holds and to the left
      otherwise. */
  function Fly(x: real, speed: real, delta: real, right: bool): real
  {
    if right then MoveRight(x, speed, delta) else MoveLeft(x, speed, delta)
  }

  /** Off screen at the edge the projectile flies towards. */
  predicate OffScreenTowards(x: real, displayWidth: real, screenHeight: real, right: bool)
  {
    if right then PastRightEdge(x, displayWidth, screenHeight)
    else PastLeftEdge(x, displayWidth)
  }

  /** A projectile that has left the screen on its side stays gone: flying
      on can never bring it back, so it is removed at most once. */
  lemma GoneProjectileStaysGone(x: real, speed: real, delta: real, displayWidth: real, screenHeight: real, right: bool)
    requires speed >= 0.0 && delta >= 0.0
    requires OffScreenTowards(x, displayWidth, screenHeight, right)
    ensures OffScreenTowards(Fly(x, speed, delta, right), displayWidth, screenHeight, right)
  {
    if right {
      MoveRightIsMonotone(x, speed, delta, displayWidth, screenHeight);
    } else {
      MoveLeftIsMonotone(x, speed, delta, displayWidth);
    }
  }

  class Projectile {
    const name: string
    const speed: real
    const direction: string
    /** `direction === 'right'`, fixed with the direction. */
    const fliesRight: bool
    const displayWidth: real
    var x: real
    var y: real
    /** Cleared once the sprite is destroyed. */
    var active: bool

    constructor(d: ProjectileData, shot: Shot, screenWidth: real)
      requires DrawableProjectile(d)
      ensures name == d.name && direction == shot.direction && fliesRight == IsRight(shot.direction)
      ensures speed == Speed(screenWidth, d.speed)
      ensures displayWidth == DisplayWidth(screenWidth, d.height, d.imageWidth, d.imageHeight)
      ensures x == shot.x && y == shot.y && active
    {
      name := d.name;
      speed := Speed(screenWidth, d.speed);
      direction := shot.direction;
      fliesRight := IsRight(shot.direction);
      displayWidth := DisplayWidth(screenWidth, d.height, d.imageWidth, d.imageHeight);
      x, y := shot.x, shot.y;
      active := true;
    }

    method Destroy()
      modifies this
      ensures !active && x == old(x) && y == old(y)
    {
      active := false;
    }

    /** Whether the projectile has left the screen on the side it flies to. */
    predicate IsOffScreen(screenHeight: real)
      reads this
    {
      OffScreenTowards(x, displayWidth, screenHeight, fliesRight)
    }

    method Update(delta: real)
      modifies this
      ensures x == Fly(old(x), speed, delta, fliesRight)
      ensures y == old(y) && active == old(active)
    {
      if fliesRight {
        x := x + (speed * delta) / 1000.0;
      } else {
        x := x - (speed * delta) / 1000.0;
      }
    }
  }

  /** Looks the shot's type up in the catalog and builds the projectile;
      `None` where the lookup misses and the constructor throws reading the
      missing entry. */
  method Spawn(catalog: seq<ProjectileData>, shot: Shot, screenWidth: real) returns (p: Option<Projectile>)
    requires forall d :: d in catalog ==> DrawableProjectile(d)
    ensures p.None? <==> Find(catalog, ProjectileName, shot.kind).None?
    ensures p.Some? ==> fresh(p.value) && p.value.name == shot.kind && p.value.active
    ensures p.Some? ==> p.value.x == shot.x && p.value.y == shot.y && p.value.direction == shot.direction
    ensures p.Some? ==> p.value.fliesRight == IsRight(shot.direction)
  {
    var found := Find(catalog, ProjectileName, shot.kind);
    if found.None? {
      return None;
    }
    var projectile := new Projectile(found.value, shot, screenWidth);
    return Some(projectile);
  }
}
