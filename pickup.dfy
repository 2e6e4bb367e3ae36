/** Pickups: score items drifting left across the screen. */
module PickupEntity {
  import opened Wrappers
  import opened Catalog
  import opened Sprites

  /** One entry of the pickup catalog. */
  datatype PickupData = PickupData(name: string, height: real, speed: real, imageWidth: real, imageHeight: real, score: int)

  function PickupName(d: PickupData): string { d.name }

  predicate DrawablePickup(d: PickupData)
  {
    Drawable(d.height, d.speed, d.imageHeight)
  }

  class Pickup {
    const name: string
    const speed: real
    const displayWidth: real
    /** Points awarded when the plane collects it. */
    const score: int
    var x: real
    var y: real
    var active: bool

    constructor(d: PickupData, x0: real, y0: real, screenWidth: real)
      requires DrawablePickup(d)
      ensures name == d.name && score == d.score
      ensures speed == Speed(screenWidth, d.speed)
      ensures displayWidth == DisplayWidth(screenWidth, d.height, d.imageWidth, d.imageHeight)
      ensures x == x0 && y == y0 && active
    {
      name := d.name;
      speed := Speed(screenWidth, d.speed);
      displayWidth := DisplayWidth(screenWidth, d.height, d.imageWidth, d.imageHeight);
      score := d.score;
      x, y := x0, y0;
      active := true;
    }

    method Destroy()
      modifies this
      ensures !active && x == old(x) && y == old(y)
    {
      active := false;
    }

    predicate IsOffScreen()
      reads this
    {
      PastLeftEdge(x, displayWidth)
    }

    method Update(delta: real)
      modifies this
      ensures x == MoveLeft(old(x), speed, delta)
      ensures y == old(y) && active == old(active)
    {
      x := x - (speed * delta) / 1000.0;
    }
  }

  /** Looks the pickup type up and builds it; `None` where the lookup
      misses and the constructor throws reading the missing entry. */
  method Spawn(catalog: seq<PickupData>, pickupType: string, x0: real, y0: real, screenWidth: real) returns (p: Option<Pickup>)
    requires forall d :: d in catalog ==> DrawablePickup(d)
    ensures p.None? <==> Find(catalog, PickupName, pickupType).None?
    ensures p.Some? ==> fresh(p.value) && p.value.name == pickupType && p.value.active
    ensures p.Some? ==> p.value.score == Find(catalog, PickupName, pickupType).value.score
    ensures p.Some? ==> p.value.x == x0 && p.value.y == y0
  {
    var found := Find(catalog, PickupName, pickupType);
    if found.None? {
      return None;
    }
    var pickup := new Pickup(found.value, x0, y0, screenWidth);
    return Some(pickup);
  }
}
