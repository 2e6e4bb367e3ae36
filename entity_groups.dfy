/** The scene's physics groups of live enemies, pickups and projectiles, and
    the per-frame pass over each: move every member, then destroy and remove
    the members that have left the screen. */
module EntityGroups {
  import opened Sprites
  import opened ProjectileEntity
  import opened PickupEntity
  import opened EnemyEntity

  /** No object is in the sequence twice. */
  ghost predicate Distinct<T>(s: seq<T>)
  {
    forall i, j :: 0 <= i < j < |s| ==> s[i] != s[j]
  }

  /** What a distinct sequence adds after a prefix is not in that prefix. */
  lemma AddedAreNew<T>(before: seq<T>, all: seq<T>)
    requires Distinct(all) && |before| <= |all| && all[..|before|] == before
    ensures all == before + all[|before|..]
    ensures forall x :: x in all[|before|..] ==> x !in before
  {
    assert all == all[..|before|] + all[|before|..];
    forall x | x in all[|before|..]
      ensures x !in before
    {
      var j :| 0 <= j < |all| - |before| && all[|before|..][j] == x;
      assert forall i :: 0 <= i < |before| ==> before[i] == all[i] != all[|before| + j];
    }
  }

  lemma DistinctAppend<T>(s: seq<T>, x: T)
    requires Distinct(s) && x !in s
    ensures Distinct(s + [x])
  {
  }

  lemma DistinctRemove<T>(s: seq<T>, i: nat)
    requires Distinct(s) && i < |s|
    ensures Distinct(s[..i] + s[i + 1..])
    ensures forall x :: x in s[..i] + s[i + 1..] <==> x in s && x != s[i]
  {
    var r := s[..i] + s[i + 1..];
    forall x | x in s && x != s[i] ensures x in r {
      var k :| 0 <= k < |s| && s[k] == x;
      if k < i { assert r[k] == x; } else { assert r[k - 1] == x; }
    }
  }

  /** The enemies of `s` on screen now, in order. */
  function EnemiesOnScreen(s: seq<Enemy>): seq<Enemy>
    reads set e | e in s
  {
    if |s| == 0 then []
    else EnemiesOnScreen(s[..|s| - 1]) + (if s[|s| - 1].IsOffScreen() then [] else [s[|s| - 1]])
  }

  /** The enemies kept are members on screen, each kept once. */
  lemma {:induction false} EnemiesOnScreenKeeps(s: seq<Enemy>)
    requires Distinct(s)
    ensures Distinct(EnemiesOnScreen(s))
    ensures forall e :: e in EnemiesOnScreen(s) ==> e in s && !e.IsOffScreen()
  {
    if |s| > 0 {
      EnemiesOnScreenKeeps(s[..|s| - 1]);
      assert s[|s| - 1] !in s[..|s| - 1];
    }
  }

  /** The enemies kept depend only on the enemies themselves. */
  twostate lemma EnemiesOnScreenFramed(s: seq<Enemy>)
    requires unchanged(set e | e in s)
    ensures EnemiesOnScreen(s) == old(EnemiesOnScreen(s))
  {
  }

  /** `countActive(true)` over a group of enemies. */
  function ActiveEnemies(s: seq<Enemy>): nat
    reads set e | e in s
  {
    if |s| == 0 then 0 else ActiveEnemies(s[..|s| - 1]) + (if s[|s| - 1].active then 1 else 0)
  }

  /** No active enemy is counted exactly when none is active. */
  lemma {:induction false} NoActiveEnemies(s: seq<Enemy>)
    ensures ActiveEnemies(s) == 0 <==> forall e :: e in s ==> !e.active
  {
    if |s| > 0 {
      NoActiveEnemies(s[..|s| - 1]);
      assert forall e :: e in s <==> e in s[..|s| - 1] || e == s[|s| - 1];
    }
  }

  function PickupsOnScreen(s: seq<Pickup>): seq<Pickup>
    reads set p | p in s
  {
    if |s| == 0 then []
    else PickupsOnScreen(s[..|s| - 1]) + (if s[|s| - 1].IsOffScreen() then [] else [s[|s| - 1]])
  }

  /** The pickups kept are members on screen, each kept once. */
  lemma {:induction false} PickupsOnScreenKeeps(s: seq<Pickup>)
    requires Distinct(s)
    ensures Distinct(PickupsOnScreen(s))
    ensures forall p :: p in PickupsOnScreen(s) ==> p in s && !p.IsOffScreen()
  {
    if |s| > 0 {
      PickupsOnScreenKeeps(s[..|s| - 1]);
      assert s[|s| - 1] !in s[..|s| - 1];
    }
  }

  /** The pickups kept depend only on the pickups themselves. */
  twostate lemma PickupsOnScreenFramed(s: seq<Pickup>)
    requires unchanged(set p | p in s)
    ensures PickupsOnScreen(s) == old(PickupsOnScreen(s))
  {
  }

  function ActivePickups(s: seq<Pickup>): nat
    reads set p | p in s
  {
    if |s| == 0 then 0 else ActivePickups(s[..|s| - 1]) + (if s[|s| - 1].active then 1 else 0)
  }

  lemma {:induction false} NoActivePickups(s: seq<Pickup>)
    ensures ActivePickups(s) == 0 <==> forall p :: p in s ==> !p.active
  {
    if |s| > 0 {
      NoActivePickups(s[..|s| - 1]);
      assert forall p :: p in s <==> p in s[..|s| - 1] || p == s[|s| - 1];
    }
  }

  function ProjectilesOnScreen(s: seq<Projectile>, screenHeight: real): seq<Projectile>
    reads set p | p in s
  {
    if |s| == 0 then []
    else
      var last := s[|s| - 1];
      ProjectilesOnScreen(s[..|s| - 1], screenHeight) + (if last.IsOffScreen(screenHeight) then [] else [last])
  }

  /** The projectiles kept depend only on the projectiles themselves. */
  twostate lemma ProjectilesOnScreenFramed(s: seq<Projectile>)
    requires unchanged(set p | p in s)
    ensures forall height :: ProjectilesOnScreen(s, height) == old(ProjectilesOnScreen(s, height))
  {
  }

  /** The projectiles kept are members on screen, each kept once. */
  lemma {:induction false} ProjectilesOnScreenKeeps(s: seq<Projectile>, screenHeight: real)
    requires Distinct(s)
    ensures Distinct(ProjectilesOnScreen(s, screenHeight))
    ensures forall p :: p in ProjectilesOnScreen(s, screenHeight) ==> p in s && !p.IsOffScreen(screenHeight)
  {
    if |s| > 0 {
      ProjectilesOnScreenKeeps(s[..|s| - 1], screenHeight);
      assert s[|s| - 1] !in s[..|s| - 1];
    }
  }

  class EnemyGroup {
    var members: seq<Enemy>

    constructor()
      ensures members == []
    {
      members := [];
    }

    method Add(e: Enemy)
      modifies this
      ensures members == old(members) + [e]
    {
      members := members + [e];
    }

    /** `remove(sprite, true, true)` of the member at `i`. */
    method RemoveAt(i: nat)
      requires i < |members|
      modifies this
      ensures members == old(members)[..i] + old(members)[i + 1..]
    {
      members := members[..i] + members[i + 1..];
    }

    function CountActive(): nat
      reads this, set e | e in members
    {
      ActiveEnemies(members)
    }

    /** The pass of `updateEnemies`: each enemy moves left, and one now off
        screen is destroyed with its shoot timer and removed. */
    method UpdateMembers(delta: real)
      requires Distinct(members)
      modifies this, set e | e in members
      ensures members == EnemiesOnScreen(old(members))
      ensures Distinct(members) && forall e :: e in members ==> e in old(members) && !e.IsOffScreen()
      ensures forall e :: e in old(members) ==> EnemyStepped(e, delta)
    {
      var all := members;
      var kept := MoveEnemies(all, delta);
      EnemiesOnScreenKeeps(all);
      members := kept;
    }
  }

  /** The loop of `updateEnemies` over the members `all`: each enemy moves,
      and `kept` collects, in order, those still on screen. */
  method MoveEnemies(all: seq<Enemy>, delta: real) returns (kept: seq<Enemy>)
    requires Distinct(all)
    modifies set e | e in all
    ensures kept == EnemiesOnScreen(all)
    ensures forall e :: e in all ==> EnemyStepped(e, delta)
  {
    kept := [];
    for i := 0 to |all|
      invariant kept == EnemiesOnScreen(all[..i])
      invariant forall j :: 0 <= j < i ==> EnemyStepped(all[j], delta)
      invariant forall j :: i <= j < |all| ==> EnemyUntouched(all[j])
    {
      var e := all[i];
      assert all[..i + 1][..i] == all[..i];
      assert forall j :: 0 <= j < |all| && j != i ==> all[j] != e;
      var onScreen := MoveEnemy(e, delta);
      assert kept == EnemiesOnScreen(all[..i]);
      if onScreen {
        kept := kept + [e];
      }
    }
    assert all[..|all|] == all;
  }

  /** What one frame's pass does to an enemy: it moved left, and if that
      took it off screen it is destroyed and its shoot timer removed. */
  twostate predicate EnemyStepped(e: Enemy, delta: real)
    reads e
  {
    e.x == MoveLeft(old(e.x), e.speed, delta) && e.y == old(e.y) && e.numberOfHits == old(e.numberOfHits)
    && (if e.IsOffScreen() then !e.active && !e.hasShootTimer
        else e.active == old(e.active) && e.hasShootTimer == old(e.hasShootTimer))
  }

  twostate predicate EnemyUntouched(e: Enemy)
    reads e
  {
    e.x == old(e.x) && e.y == old(e.y) && e.numberOfHits == old(e.numberOfHits)
    && e.active == old(e.active) && e.hasShootTimer == old(e.hasShootTimer)
  }

  /** One enemy's turn in the pass: move, then destroy it with its timer if
      it is now off screen; `onScreen` says it stays in the group. */
  method MoveEnemy(e: Enemy, delta: real) returns (onScreen: bool)
    modifies e
    ensures onScreen <==> !e.IsOffScreen()
    ensures EnemyStepped(e, delta)
  {
    e.Update(delta);
    onScreen := !e.IsOffScreen();
    if !onScreen {
      var _ := e.Destroy(e.hasShootTimer);
    }
  }

  class PickupGroup {
    var members: seq<Pickup>

    constructor()
      ensures members == []
    {
      members := [];
    }

    method Add(p: Pickup)
      modifies this
      ensures members == old(members) + [p]
    {
      members := members + [p];
    }

    method RemoveAt(i: nat)
      requires i < |members|
      modifies this
      ensures members == old(members)[..i] + old(members)[i + 1..]
    {
      members := members[..i] + members[i + 1..];
    }

    function CountActive(): nat
      reads this, set p | p in members
    {
      ActivePickups(members)
    }

    /** The pass of `updatePickups`: each pickup moves left, and one now off
        screen is destroyed and removed. */
    method UpdateMembers(delta: real)
      requires Distinct(members)
      modifies this, set p | p in members
      ensures members == PickupsOnScreen(old(members))
      ensures Distinct(members) && forall p :: p in members ==> p in old(members) && !p.IsOffScreen()
      ensures forall p :: p in old(members) ==> PickupStepped(p, delta)
    {
      var all := members;
      var kept := MovePickups(all, delta);
      PickupsOnScreenKeeps(all);
      members := kept;
    }
  }

  /** The loop of `updatePickups` over the members `all`: each pickup moves,
      and `kept` collects, in order, those still on screen. */
  method MovePickups(all: seq<Pickup>, delta: real) returns (kept: seq<Pickup>)
    requires Distinct(all)
    modifies set p | p in all
    ensures kept == PickupsOnScreen(all)
    ensures forall p :: p in all ==> PickupStepped(p, delta)
  {
    kept := [];
    for i := 0 to |all|
      invariant kept == PickupsOnScreen(all[..i])
      invariant forall j :: 0 <= j < i ==> PickupStepped(all[j], delta)
      invariant forall j :: i <= j < |all| ==> PickupUntouched(all[j])
    {
      var p := all[i];
      assert all[..i + 1][..i] == all[..i];
      assert forall j :: 0 <= j < |all| && j != i ==> all[j] != p;
      var onScreen := MovePickup(p, delta);
      assert kept == PickupsOnScreen(all[..i]);
      if onScreen {
        kept := kept + [p];
      }
    }
    assert all[..|all|] == all;
  }

  /** What one frame's pass does to a pickup: it moved left, and if that
      took it off screen it is destroyed. */
  twostate predicate PickupStepped(p: Pickup, delta: real)
    reads p
  {
    p.x == MoveLeft(old(p.x), p.speed, delta) && p.y == old(p.y)
    && p.active == (old(p.active) && !p.IsOffScreen())
  }

  twostate predicate PickupUntouched(p: Pickup)
    reads p
  {
    p.x == old(p.x) && p.y == old(p.y) && p.active == old(p.active)
  }

  /** One pickup's turn in the pass: move, then destroy it if it is now off
      screen; `onScreen` says it stays in the group. */
  method MovePickup(p: Pickup, delta: real) returns (onScreen: bool)
    modifies p
    ensures onScreen <==> !p.IsOffScreen()
    ensures PickupStepped(p, delta)
  {
    p.Update(delta);
    onScreen := !p.IsOffScreen();
    if !onScreen {
      p.Destroy();
    }
  }

  class ProjectileGroup {
    var members: seq<Projectile>

    constructor()
      ensures members == []
    {
      members := [];
    }

    method Add(p: Projectile)
      modifies this
      ensures members == old(members) + [p]
    {
      members := members + [p];
    }

    method RemoveAt(i: nat)
      requires i < |members|
      modifies this
      ensures members == old(members)[..i] + old(members)[i + 1..]
    {
      members := members[..i] + members[i + 1..];
    }

    /** The pass of `updateProjectiles` over one group: each projectile
        flies in its direction, and one now off screen on that side is
        destroyed and removed. */
    method UpdateMembers(delta: real, screenHeight: real)
      requires Distinct(members)
      modifies this, set p | p in members
      ensures members == ProjectilesOnScreen(old(members), screenHeight)
      ensures Distinct(members) && forall p :: p in members ==> p in old(members) && !p.IsOffScreen(screenHeight)
      ensures forall p :: p in old(members) ==> ProjectileStepped(p, delta, screenHeight)
    {
      var all := members;
      var kept := MoveProjectiles(all, delta, screenHeight);
      ProjectilesOnScreenKeeps(all, screenHeight);
      members := kept;
    }
  }

  /** The loop of `updateProjectiles` over one group's members `all`: each
      projectile flies, and `kept` collects, in order, those still on
      screen. */
  method MoveProjectiles(all: seq<Projectile>, delta: real, screenHeight: real) returns (kept: seq<Projectile>)
    requires Distinct(all)
    modifies set p | p in all
    ensures kept == ProjectilesOnScreen(all, screenHeight)
    ensures forall p :: p in all ==> ProjectileStepped(p, delta, screenHeight)
  {
    kept := [];
    for i := 0 to |all|
      invariant kept == ProjectilesOnScreen(all[..i], screenHeight)
      invariant forall j :: 0 <= j < i ==> ProjectileStepped(all[j], delta, screenHeight)
      invariant forall j :: i <= j < |all| ==> ProjectileUntouched(all[j])
    {
      var p := all[i];
      assert all[..i + 1][..i] == all[..i];
      assert forall j :: 0 <= j < |all| && j != i ==> all[j] != p;
      var onScreen := MoveProjectile(p, delta, screenHeight);
      assert kept == ProjectilesOnScreen(all[..i], screenHeight);
      if onScreen {
        kept := kept + [p];
      }
    }
    assert all[..|all|] == all;
  }

  /** What one frame's pass does to a projectile: it flew in its direction,
      and if that took it off screen it is destroyed. */
  twostate predicate ProjectileStepped(p: Projectile, delta: real, screenHeight: real)
    reads p
  {
    p.x == Fly(old(p.x), p.speed, delta, p.fliesRight) && p.y == old(p.y)
    && p.active == (old(p.active) && !p.IsOffScreen(screenHeight))
  }

  twostate predicate ProjectileUntouched(p: Projectile)
    reads p
  {
    p.x == old(p.x) && p.y == old(p.y) && p.active == old(p.active)
  }

  /** One projectile's turn in the pass: fly, then destroy it if it is now
      off screen; `onScreen` says it stays in the group. */
  method MoveProjectile(p: Projectile, delta: real, screenHeight: real) returns (onScreen: bool)
    modifies p
    ensures onScreen <==> !p.IsOffScreen(screenHeight)
    ensures ProjectileStepped(p, delta, screenHeight)
  {
    p.Update(delta);
    onScreen := !p.IsOffScreen(screenHeight);
    if !onScreen {
      p.Destroy();
    }
  }
}
