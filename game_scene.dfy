/** `GameScene`: one play session of a level. The level's spawn timelines
    are sorted into queues and drained as time passes, collisions (given
    here as explicit events) move the hit counters and the score, and once
    everything has been spawned and cleared the session ends with a star
    count that is saved as level progress. */
module GameSession {
  import opened Wrappers
  import opened Catalog
  import opened SaveData
  import opened SpawnTimeline
  import opened Levels
  import opened Sprites
  import opened JoystickControl
  import opened PlaneEntity
  import opened ProjectileEntity
  import opened PickupEntity
  import opened EnemyEntity
  import opened HudDisplay
  import opened ShootButtonControl
  import opened EntityGroups
  import opened SoundEffects

  /** The star ladder of `gameOver('alive')`: the three-, then the two-,
      then the one-star threshold, the first one reached deciding. */
  function StarCount(score: int, level: Level): (stars: nat)
    ensures stars <= 3
    ensures AscendingThresholds(level) ==>
      (stars == (if score >= level.oneStarScore then 1 else 0)
                + (if score >= level.twoStarScore then 1 else 0)
                + (if score >= level.threeStarScore then 1 else 0))
  {
    if score >= level.threeStarScore then 3
    else if score >= level.twoStarScore then 2
    else if score >= level.oneStarScore then 1
    else 0
  }

  /** A higher score never earns fewer stars. */
  lemma StarCountMonotone(level: Level, a: int, b: int)
    requires a <= b
    ensures StarCount(a, level) <= StarCount(b, level)
  {
  }

  predicate AscendingThresholds(level: Level)
  {
    level.oneStarScore <= level.twoStarScore <= level.threeStarScore
  }

  /** The `addLevelProgress` calls made once a level is passed: none for
      zero stars; otherwise the level itself with its stars and score,
      unlocked, then the next level unlocked with no stars and no score when
      there is one. */
  function CompletionCalls(id: int, score: int, stars: nat, levelCount: nat): seq<ProgressCall>
  {
    var next := if levelCount > 0 && id + 1 <= levelCount then [ProgressCall(id + 1, 0, true, 0)] else [];
    if stars == 0 then [] else [ProgressCall(id, stars, true, score)] + next
  }

  /** What passing a level does to the stored progress: the level is
      unlocked and keeps its best stars and best score, the next level (if
      the catalog has one) is unlocked and keeps its stars, and no other
      level's record changes. */
  lemma CompletionRecordsProgress(records: seq<ProgressRecord>, id: int, score: int, stars: nat, levelCount: nat)
    requires stars > 0
    ensures var after := ApplyAll(records, CompletionCalls(id, score, stars, levelCount));
      UnlockedFor(Some(after), id)
      && StarsFor(Some(after), id) == Max(StarsFor(Some(records), id), stars)
      && RecordFor(after, id).value.score >= score
      && (RecordFor(records, id).Some? ==> RecordFor(after, id).value.score >= RecordFor(records, id).value.score)
    ensures var after := ApplyAll(records, CompletionCalls(id, score, stars, levelCount));
      levelCount > 0 && id + 1 <= levelCount ==>
        UnlockedFor(Some(after), id + 1) && StarsFor(Some(after), id + 1) == Max(StarsFor(Some(records), id + 1), 0)
    ensures var after := ApplyAll(records, CompletionCalls(id, score, stars, levelCount));
      forall other :: other != id && (other == id + 1 ==> !(levelCount > 0 && id + 1 <= levelCount)) ==>
        RecordFor(after, other) == RecordFor(records, other)
  {
    var c1 := ProgressCall(id, stars, true, score);
    var r1 := AddProgress(records, c1);
    PassedLevelRecord(records, id, score, stars);
    if levelCount > 0 && id + 1 <= levelCount {
      var c2 := ProgressCall(id + 1, 0, true, 0);
      assert CompletionCalls(id, score, stars, levelCount) == [c1, c2];
      ApplyTwo(records, c1, c2);
      NextLevelRecord(r1, id);
    } else {
      assert CompletionCalls(id, score, stars, levelCount) == [c1];
      assert ApplyAll(records, [c1]) == r1 by {
        assert ApplyAll(r1, [c1][1..]) == r1;
      }
    }
  }

  /** The first completion call: the level is unlocked, keeps its best stars
      and best score, and no other level's record changes. */
  lemma PassedLevelRecord(records: seq<ProgressRecord>, id: int, score: int, stars: nat)
    ensures var r1 := AddProgress(records, ProgressCall(id, stars, true, score));
      UnlockedFor(Some(r1), id)
      && StarsFor(Some(r1), id) == Max(StarsFor(Some(records), id), stars)
      && RecordFor(r1, id).value.score >= score
      && (RecordFor(records, id).Some? ==> RecordFor(r1, id).value.score >= RecordFor(records, id).value.score)
      && forall other :: other != id ==> RecordFor(r1, other) == RecordFor(records, other)
  {
    var c1 := ProgressCall(id, stars, true, score);
    AddProgressLookup(records, c1, id);
    forall other | other != id
      ensures RecordFor(AddProgress(records, c1), other) == RecordFor(records, other)
    {
      AddProgressLookup(records, c1, other);
    }
  }

  /** The second completion call: the next level is unlocked and keeps its
      stars, and no other level's record changes. */
  lemma NextLevelRecord(r1: seq<ProgressRecord>, id: int)
    ensures var r2 := AddProgress(r1, ProgressCall(id + 1, 0, true, 0));
      UnlockedFor(Some(r2), id + 1)
      && StarsFor(Some(r2), id + 1) == Max(StarsFor(Some(r1), id + 1), 0)
      && forall other :: other != id + 1 ==> RecordFor(r2, other) == RecordFor(r1, other)
  {
    var c2 := ProgressCall(id + 1, 0, true, 0);
    AddProgressLookup(r1, c2, id + 1);
    forall other | other != id + 1
      ensures RecordFor(AddProgress(r1, c2), other) == RecordFor(r1, other)
    {
      AddProgressLookup(r1, c2, other);
    }
  }

  /** Two calls applied in order. */
  lemma ApplyTwo(records: seq<ProgressRecord>, c1: ProgressCall, c2: ProgressCall)
    ensures ApplyAll(records, [c1, c2]) == AddProgress(AddProgress(records, c1), c2)
  {
    var r1 := AddProgress(records, c1);
    assert [c1, c2][1..] == [c2];
    assert ApplyAll(r1, [c2]) == ApplyAll(AddProgress(r1, c2), [c2][1..]);
  }

  /** `after` is `before` followed by one enemy per event of `events`, of
      that event's type. */
  ghost predicate EnemiesSpawned(before: seq<Enemy>, after: seq<Enemy>, events: seq<SpawnEvent>)
  {
    |after| == |before| + |events| && after[..|before|] == before
    && forall j :: 0 <= j < |events| ==> after[|before| + j].name == events[j].kind
  }

  lemma SpawnedOneMore(before: seq<Enemy>, mid: seq<Enemy>, after: seq<Enemy>, events: seq<SpawnEvent>, e: SpawnEvent)
    requires EnemiesSpawned(before, mid, events)
    requires |after| == |mid| + 1 && after[..|mid|] == mid && after[|mid|].name == e.kind
    ensures EnemiesSpawned(before, after, events + [e])
  {
    assert after[..|before|] == mid[..|before|];
    forall j | 0 <= j < |events| + 1
      ensures after[|before| + j].name == (events + [e])[j].kind
    {
      if j < |events| {
        assert after[|before| + j] == mid[|before| + j];
      }
    }
  }

  ghost predicate PickupsSpawned(before: seq<Pickup>, after: seq<Pickup>, events: seq<SpawnEvent>)
  {
    |after| == |before| + |events| && after[..|before|] == before
    && forall j :: 0 <= j < |events| ==> after[|before| + j].name == events[j].kind
  }

  lemma PickupSpawnedOneMore(before: seq<Pickup>, mid: seq<Pickup>, after: seq<Pickup>, events: seq<SpawnEvent>, e: SpawnEvent)
    requires PickupsSpawned(before, mid, events)
    requires |after| == |mid| + 1 && after[..|mid|] == mid && after[|mid|].name == e.kind
    ensures PickupsSpawned(before, after, events + [e])
  {
    assert after[..|before|] == mid[..|before|];
    forall j | 0 <= j < |events| + 1
      ensures after[|before| + j].name == (events + [e])[j].kind
    {
      if j < |events| {
        assert after[|before| + j] == mid[|before| + j];
      }
    }
  }

  class GameScene {
    const level: Level
    /** The device's shorter side: the height of the landscape screen. */
    const screenWidth: real
    /** The device's longer side: the width of the landscape screen. */
    const screenHeight: real
    const plane: Plane
    const hud: HUD
    const shootButton: ShootButton
    const enemyCatalog: seq<EnemyData>
    const pickupCatalog: seq<PickupData>
    /** The projectile entries the plane and this level's enemies use. */
    const projectileCatalog: seq<ProjectileData>
    const enemies: EnemyGroup
    const pickups: PickupGroup
    const projectiles: ProjectileGroup
    const enemyProjectiles: ProjectileGroup
    var enemySpawnQueue: seq<SpawnEvent>
    var pickupSpawnQueue: seq<SpawnEvent>
    /** Milliseconds since the session started. */
    var elapsedTime: real
    var score: int
    var levelComplete: bool
    /** Scores of enemies shot down whose death effect is still playing. */
    var pendingScores: seq<int>

    /** The scene's parts are wired to one plane, and every catalog entry
        can be drawn. */
    predicate Wired()
    {
      hud.plane == plane && shootButton.plane == plane && shootButton.shootCooldown >= 0.0
      && projectiles != enemyProjectiles
      && (forall d :: d in enemyCatalog ==> DrawableEnemy(d))
      && (forall d :: d in pickupCatalog ==> DrawablePickup(d))
      && (forall d :: d in projectileCatalog ==> DrawableProjectile(d))
    }

    /** No group holds an object twice, and no projectile is in both
        projectile groups. */
    ghost predicate GroupsDistinct()
      reads enemies, pickups, projectiles, enemyProjectiles
    {
      Distinct(enemies.members) && Distinct(pickups.members)
      && Distinct(projectiles.members) && Distinct(enemyProjectiles.members)
      && (forall p :: p in projectiles.members ==> p !in enemyProjectiles.members)
    }

    ghost predicate QueuesSorted()
      reads this
    {
      SortedByTime(enemySpawnQueue) && SortedByTime(pickupSpawnQueue)
    }

    ghost predicate Valid()
      reads this, enemies, pickups, projectiles, enemyProjectiles
    {
      Wired() && GroupsDistinct() && QueuesSorted()
    }

    /** `create`: the spawn queues are sorted copies of the level's lists,
        the counters start at zero, the groups empty, and the plane is put
        at the left edge, a little above the middle. */
    constructor(level: Level, plane: Plane, hud: HUD, shootButton: ShootButton,
                enemyCatalog: seq<EnemyData>, pickupCatalog: seq<PickupData>, projectileCatalog: seq<ProjectileData>,
                screenWidth: real, screenHeight: real)
      requires hud.plane == plane && shootButton.plane == plane && shootButton.shootCooldown >= 0.0
      requires forall d :: d in enemyCatalog ==> DrawableEnemy(d)
      requires forall d :: d in pickupCatalog ==> DrawablePickup(d)
      requires forall d :: d in projectileCatalog ==> DrawableProjectile(d)
      modifies plane
      ensures Valid()
      ensures this.level == level && this.plane == plane && this.hud == hud && this.shootButton == shootButton
      ensures this.screenWidth == screenWidth && this.screenHeight == screenHeight
      ensures this.enemyCatalog == enemyCatalog && this.pickupCatalog == pickupCatalog
      ensures this.projectileCatalog == projectileCatalog
      ensures enemySpawnQueue == SortBySpawnTime(level.enemies)
      ensures pickupSpawnQueue == SortBySpawnTime(level.pickups)
      ensures elapsedTime == 0.0 && score == 0 && !levelComplete && pendingScores == []
      ensures fresh(enemies) && fresh(pickups) && fresh(projectiles) && fresh(enemyProjectiles)
      ensures enemies.members == [] && pickups.members == []
      ensures projectiles.members == [] && enemyProjectiles.members == []
      ensures plane.x == 20.0 + plane.displayWidth / 2.0
      ensures plane.y == screenWidth / 2.0 - screenWidth / 12.0 && plane.baseY == plane.y
      ensures plane.numberOfHits == old(plane.numberOfHits) && plane.isInvincible == old(plane.isInvincible)
      ensures plane.currentAnimation == old(plane.currentAnimation) && plane.bobbing == old(plane.bobbing)
    {
      this.level := level;
      this.plane := plane;
      this.hud := hud;
      this.shootButton := shootButton;
      this.enemyCatalog := enemyCatalog;
      this.pickupCatalog := pickupCatalog;
      this.projectileCatalog := projectileCatalog;
      this.screenWidth := screenWidth;
      this.screenHeight := screenHeight;
      elapsedTime := 0.0;
      score := 0;
      levelComplete := false;
      pendingScores := [];
      enemies := new EnemyGroup();
      pickups := new PickupGroup();
      projectiles := new ProjectileGroup();
      enemyProjectiles := new ProjectileGroup();
      SortIsSortedPermutation(level.enemies);
      SortIsSortedPermutation(level.pickups);
      enemySpawnQueue := SortBySpawnTime(level.enemies);
      pickupSpawnQueue := SortBySpawnTime(level.pickups);
      new;
      plane.SetPosition(20.0 + plane.displayWidth / 2.0, screenWidth / 2.0 - screenWidth / 12.0);
    }

    /** `checkForLevelComplete`. */
    predicate CheckForLevelComplete()
      reads this, enemies, pickups, plane, set e | e in enemies.members, set p | p in pickups.members
    {
      |enemySpawnQueue| == 0 && |pickupSpawnQueue| == 0
      && enemies.CountActive() == 0 && pickups.CountActive() == 0
      && plane.currentAnimation != plane.deathAnimation
    }

    /** `updateScore`. */
    method UpdateScore(amount: int)
      modifies this
      ensures score == old(score) + amount
      ensures enemySpawnQueue == old(enemySpawnQueue) && pickupSpawnQueue == old(pickupSpawnQueue)
      ensures elapsedTime == old(elapsedTime) && levelComplete == old(levelComplete)
      ensures pendingScores == old(pendingScores)
    {
      score := score + amount;
    }

    /** `checkForPlaneDeath`: a plane whose hits reach exactly its maximum
        dies (`gameOver('death')` switches it to its death animation; the
        rest of that ending is sound and dialogs); otherwise a vulnerable
        plane only flashes. */
    method CheckForPlaneDeath() returns (dead: bool)
      modifies plane
      ensures dead <==> plane.numberOfHits == plane.maxNumberOfHits
      ensures dead ==> plane.currentAnimation == plane.deathAnimation
      ensures !dead ==> plane.currentAnimation == old(plane.currentAnimation)
      ensures plane.numberOfHits == old(plane.numberOfHits) && plane.isInvincible == old(plane.isInvincible)
      ensures plane.x == old(plane.x) && plane.y == old(plane.y)
      ensures plane.baseY == old(plane.baseY) && plane.bobbing == old(plane.bobbing)
    {
      dead := plane.numberOfHits == plane.maxNumberOfHits;
      if dead {
        var _ := plane.SetAnimation(plane.deathAnimation);
      }
    }

    /** Only the enemy queue and the enemy group may have changed. */
    twostate predicate OnlyEnemySpawning()
      reads this
    {
      pickupSpawnQueue == old(pickupSpawnQueue) && elapsedTime == old(elapsedTime)
      && score == old(score) && levelComplete == old(levelComplete) && pendingScores == old(pendingScores)
    }

    /** Only the pickup queue and the pickup group may have changed. */
    twostate predicate OnlyPickupSpawning()
      reads this
    {
      enemySpawnQueue == old(enemySpawnQueue) && elapsedTime == old(elapsedTime)
      && score == old(score) && levelComplete == old(levelComplete) && pendingScores == old(pendingScores)
    }

    /** A new enemy of the event's type, untouched, at the event's spawn
        point. */
    ghost predicate EnemyPlaced(e: Enemy, event: SpawnEvent, draw: real)
      reads e
    {
      var at := SpawnPoint(event, draw, screenWidth, screenHeight);
      e.name == event.kind && e.active && e.numberOfHits == 0 && e.x == at.x && e.y == at.y
    }

    ghost predicate PickupPlaced(p: Pickup, event: SpawnEvent, draw: real)
      reads p
    {
      var at := SpawnPoint(event, draw, screenWidth, screenHeight);
      p.name == event.kind && p.active && p.x == at.x && p.y == at.y
    }

    /** Drain progress: the first `k` events of `queue` are due, have left
        the queue and have each spawned one enemy after `before`. */
    ghost predicate EnemiesDrainedTo(queue: seq<SpawnEvent>, before: seq<Enemy>, k: nat)
      reads this, enemies
    {
      k <= |queue| && enemySpawnQueue == queue[k..]
      && (forall j :: 0 <= j < k ==> queue[j].spawnTime <= elapsedTime)
      && EnemiesSpawned(before, enemies.members, queue[..k]) && Distinct(enemies.members)
    }

    ghost predicate PickupsDrainedTo(queue: seq<SpawnEvent>, before: seq<Pickup>, k: nat)
      reads this, pickups
    {
      k <= |queue| && pickupSpawnQueue == queue[k..]
      && (forall j :: 0 <= j < k ==> queue[j].spawnTime <= elapsedTime)
      && PickupsSpawned(before, pickups.members, queue[..k]) && Distinct(pickups.members)
    }

    /** `spawnEnemy`: take the head of the enemy queue and build its enemy at
        the right edge, at the event's height (`draw` is the random number
        a -1 position uses). `ok` is false where the enemy type is not in
        the catalog and construction throws; the event is consumed anyway. */
    method SpawnEnemy(draw: real) returns (ok: bool)
      requires Wired() && Distinct(enemies.members) && |enemySpawnQueue| > 0
      modifies this, enemies
      ensures Distinct(enemies.members)
      ensures enemySpawnQueue == old(enemySpawnQueue)[1..]
      ensures ok <==> Find(enemyCatalog, EnemyName, old(enemySpawnQueue)[0].kind).Some?
      ensures !ok ==> enemies.members == old(enemies.members)
      ensures ok ==> (|enemies.members| == |old(enemies.members)| + 1
        && enemies.members[..|old(enemies.members)|] == old(enemies.members))
      ensures ok ==> fresh(enemies.members[|old(enemies.members)|])
      ensures ok ==> EnemyPlaced(enemies.members[|old(enemies.members)|], old(enemySpawnQueue)[0], draw)
      ensures OnlyEnemySpawning()
    {
      var event := enemySpawnQueue[0];
      enemySpawnQueue := enemySpawnQueue[1..];
      var at := SpawnPoint(event, draw, screenWidth, screenHeight);
      var enemy := EnemyEntity.Spawn(enemyCatalog, event.kind, at.x, at.y, screenWidth);
      if enemy.None? {
        return false;
      }
      DistinctAppend(enemies.members, enemy.value);
      enemies.Add(enemy.value);
      ok := true;
    }

    /** `spawnPickup`, the same for the pickup queue. */
    method SpawnPickup(draw: real) returns (ok: bool)
      requires Wired() && Distinct(pickups.members) && |pickupSpawnQueue| > 0
      modifies this, pickups
      ensures Distinct(pickups.members)
      ensures pickupSpawnQueue == old(pickupSpawnQueue)[1..]
      ensures ok <==> Find(pickupCatalog, PickupName, old(pickupSpawnQueue)[0].kind).Some?
      ensures !ok ==> pickups.members == old(pickups.members)
      ensures ok ==> (|pickups.members| == |old(pickups.members)| + 1
        && pickups.members[..|old(pickups.members)|] == old(pickups.members))
      ensures ok ==> fresh(pickups.members[|old(pickups.members)|])
      ensures ok ==> PickupPlaced(pickups.members[|old(pickups.members)|], old(pickupSpawnQueue)[0], draw)
      ensures OnlyPickupSpawning()
    {
      var event := pickupSpawnQueue[0];
      pickupSpawnQueue := pickupSpawnQueue[1..];
      var at := SpawnPoint(event, draw, screenWidth, screenHeight);
      var pickup := PickupEntity.Spawn(pickupCatalog, event.kind, at.x, at.y, screenWidth);
      if pickup.None? {
        return false;
      }
      DistinctAppend(pickups.members, pickup.value);
      pickups.Add(pickup.value);
      ok := true;
    }

    /** One turn of the `updateEnemies` loop: spawn the due event at `k`. */
    method SpawnNextEnemy(ghost queue: seq<SpawnEvent>, ghost before: seq<Enemy>, k: nat, draw: real) returns (ok: bool)
      requires Wired() && EnemiesDrainedTo(queue, before, k) && |enemySpawnQueue| > 0 && elapsedTime >= enemySpawnQueue[0].spawnTime
      modifies this, enemies
      ensures ok ==> EnemiesDrainedTo(queue, before, k + 1)
      ensures !ok ==> k < |queue| && enemySpawnQueue == queue[k + 1..] && Distinct(enemies.members)
      ensures !ok ==> EnemiesSpawned(before, enemies.members, queue[..k])
      ensures !ok ==> Find(enemyCatalog, EnemyName, queue[k].kind).None?
      ensures forall x :: x in enemies.members ==> x in old(enemies.members) || fresh(x)
      ensures OnlyEnemySpawning()
    {
      ghost var members := enemies.members;
      assert queue[k..][0] == queue[k] && queue[k..][1..] == queue[k + 1..];
      ok := SpawnEnemy(draw);
      if ok {
        assert queue[..k + 1] == queue[..k] + [queue[k]];
        SpawnedOneMore(before, members, enemies.members, queue[..k], queue[k]);
      }
    }

    /** The `while` loop of `updateEnemies`: spawn from the front of the
        queue while its head is due. On success exactly the due prefix is
        spawned, in order, each event once (`draws(k)` is the random number
        of the k-th spawn); a spawn that throws ends the frame after
        consuming its event. */
    method DrainEnemyQueue(draws: nat -> real) returns (ok: bool)
      requires Wired() && Distinct(enemies.members) && SortedByTime(enemySpawnQueue)
      modifies this, enemies
      ensures Distinct(enemies.members) && SortedByTime(enemySpawnQueue)
      ensures ok ==> enemySpawnQueue == old(enemySpawnQueue)[DueCount(old(enemySpawnQueue), elapsedTime)..]
      ensures ok ==> EnemiesSpawned(old(enemies.members), enemies.members, old(enemySpawnQueue)[..DueCount(old(enemySpawnQueue), elapsedTime)])
      ensures !ok ==> exists k :: (0 <= k < DueCount(old(enemySpawnQueue), elapsedTime)
        && enemySpawnQueue == old(enemySpawnQueue)[k + 1..]
        && EnemiesSpawned(old(enemies.members), enemies.members, old(enemySpawnQueue)[..k])
        && Find(enemyCatalog, EnemyName, old(enemySpawnQueue)[k].kind).None?)
      ensures forall e :: e in enemies.members ==> e in old(enemies.members) || fresh(e)
      ensures OnlyEnemySpawning()
    {
      ghost var queue := enemySpawnQueue;
      ghost var before := enemies.members;
      assert enemies.members[..|before|] == before && queue[..0] == [] && queue[0..] == queue;
      var k;
      ok, k := EnemyDrainSteps(queue, before, draws);
      if ok {
        DueCountIs(queue, elapsedTime, k);
        SortedSuffix(queue, k);
      } else {
        DueCountAbove(queue, elapsedTime, k);
        SortedSuffix(queue, k + 1);
      }
    }

    /** The loop itself: spawn the due events one by one from the `k`-th
        on, stopping at the first event not yet due or at a spawn that
        throws. */
    method EnemyDrainSteps(ghost queue: seq<SpawnEvent>, ghost before: seq<Enemy>, draws: nat -> real) returns (ok: bool, k: nat)
      requires Wired() && EnemiesDrainedTo(queue, before, 0)
      modifies this, enemies
      ensures ok ==> EnemiesDrainedTo(queue, before, k) && (k == |queue| || queue[k].spawnTime > elapsedTime)
      ensures !ok ==> k < |queue| && (forall j :: 0 <= j <= k ==> queue[j].spawnTime <= elapsedTime)
      ensures !ok ==> enemySpawnQueue == queue[k + 1..] && Distinct(enemies.members)
      ensures !ok ==> EnemiesSpawned(before, enemies.members, queue[..k])
      ensures !ok ==> Find(enemyCatalog, EnemyName, queue[k].kind).None?
      ensures forall x :: x in enemies.members ==> x in old(enemies.members) || fresh(x)
      ensures OnlyEnemySpawning()
    {
      k := 0;
      ok := true;
      while |enemySpawnQueue| > 0 && elapsedTime >= enemySpawnQueue[0].spawnTime
        invariant EnemiesDrainedTo(queue, before, k)
        invariant forall x :: x in enemies.members ==> x in old(enemies.members) || fresh(x)
        invariant OnlyEnemySpawning()
        decreases |enemySpawnQueue|
      {
        ok := SpawnNextEnemy(queue, before, k, draws(k));
        if !ok {
          return;
        }
        k := k + 1;
      }
    }

    /** One turn of the `updatePickups` loop: spawn the due event at `k`. */
    method SpawnNextPickup(ghost queue: seq<SpawnEvent>, ghost before: seq<Pickup>, k: nat, draw: real) returns (ok: bool)
      requires Wired() && PickupsDrainedTo(queue, before, k) && |pickupSpawnQueue| > 0 && elapsedTime >= pickupSpawnQueue[0].spawnTime
      modifies this, pickups
      ensures ok ==> PickupsDrainedTo(queue, before, k + 1)
      ensures !ok ==> k < |queue| && pickupSpawnQueue == queue[k + 1..] && Distinct(pickups.members)
      ensures !ok ==> PickupsSpawned(before, pickups.members, queue[..k])
      ensures !ok ==> Find(pickupCatalog, PickupName, queue[k].kind).None?
      ensures forall x :: x in pickups.members ==> x in old(pickups.members) || fresh(x)
      ensures OnlyPickupSpawning()
    {
      ghost var members := pickups.members;
      assert queue[k..][0] == queue[k] && queue[k..][1..] == queue[k + 1..];
      ok := SpawnPickup(draw);
      if ok {
        assert queue[..k + 1] == queue[..k] + [queue[k]];
        PickupSpawnedOneMore(before, members, pickups.members, queue[..k], queue[k]);
      }
    }

    /** The `while` loop of `updatePickups`. */
    method DrainPickupQueue(draws: nat -> real) returns (ok: bool)
      requires Wired() && Distinct(pickups.members) && SortedByTime(pickupSpawnQueue)
      modifies this, pickups
      ensures Distinct(pickups.members) && SortedByTime(pickupSpawnQueue)
      ensures ok ==> pickupSpawnQueue == old(pickupSpawnQueue)[DueCount(old(pickupSpawnQueue), elapsedTime)..]
      ensures ok ==> PickupsSpawned(old(pickups.members), pickups.members, old(pickupSpawnQueue)[..DueCount(old(pickupSpawnQueue), elapsedTime)])
      ensures !ok ==> exists k :: (0 <= k < DueCount(old(pickupSpawnQueue), elapsedTime)
        && pickupSpawnQueue == old(pickupSpawnQueue)[k + 1..]
        && PickupsSpawned(old(pickups.members), pickups.members, old(pickupSpawnQueue)[..k])
        && Find(pickupCatalog, PickupName, old(pickupSpawnQueue)[k].kind).None?)
      ensures forall p :: p in pickups.members ==> p in old(pickups.members) || fresh(p)
      ensures OnlyPickupSpawning()
    {
      ghost var queue := pickupSpawnQueue;
      ghost var before := pickups.members;
      assert pickups.members[..|before|] == before && queue[..0] == [] && queue[0..] == queue;
      var k;
      ok, k := PickupDrainSteps(queue, before, draws);
      if ok {
        DueCountIs(queue, elapsedTime, k);
        SortedSuffix(queue, k);
      } else {
        DueCountAbove(queue, elapsedTime, k);
        SortedSuffix(queue, k + 1);
      }
    }

    /** The loop itself: spawn the due events one by one from the `k`-th
        on, stopping at the first event not yet due or at a spawn that
        throws. */
    method PickupDrainSteps(ghost queue: seq<SpawnEvent>, ghost before: seq<Pickup>, draws: nat -> real) returns (ok: bool, k: nat)
      requires Wired() && PickupsDrainedTo(queue, before, 0)
      modifies this, pickups
      ensures ok ==> PickupsDrainedTo(queue, before, k) && (k == |queue| || queue[k].spawnTime > elapsedTime)
      ensures !ok ==> k < |queue| && (forall j :: 0 <= j <= k ==> queue[j].spawnTime <= elapsedTime)
      ensures !ok ==> pickupSpawnQueue == queue[k + 1..] && Distinct(pickups.members)
      ensures !ok ==> PickupsSpawned(before, pickups.members, queue[..k])
      ensures !ok ==> Find(pickupCatalog, PickupName, queue[k].kind).None?
      ensures forall x :: x in pickups.members ==> x in old(pickups.members) || fresh(x)
      ensures OnlyPickupSpawning()
    {
      k := 0;
      ok := true;
      while |pickupSpawnQueue| > 0 && elapsedTime >= pickupSpawnQueue[0].spawnTime
        invariant PickupsDrainedTo(queue, before, k)
        invariant forall x :: x in pickups.members ==> x in old(pickups.members) || fresh(x)
        invariant OnlyPickupSpawning()
        decreases |pickupSpawnQueue|
      {
        ok := SpawnNextPickup(queue, before, k, draws(k));
        if !ok {
          return;
        }
        k := k + 1;
      }
    }

    /** `updateEnemies`: spawn what is due, then move every enemy and drop
        the ones now off screen. A spawn that throws ends the frame.
        `spawned` are the new enemies, one per due event, in queue order. */
    method UpdateEnemies(delta: real, draws: nat -> real) returns (ok: bool, ghost spawned: seq<Enemy>)
      requires Valid()
      modifies this, enemies, set e | e in enemies.members
      ensures Valid()
      ensures ok ==> enemySpawnQueue == old(enemySpawnQueue)[DueCount(old(enemySpawnQueue), elapsedTime)..]
      ensures ok ==> |enemySpawnQueue| == 0 || enemySpawnQueue[0].spawnTime > elapsedTime
      ensures ok ==> EnemiesSpawned(old(enemies.members), old(enemies.members) + spawned,
                                    old(enemySpawnQueue)[..DueCount(old(enemySpawnQueue), elapsedTime)])
      ensures ok ==> forall e :: e in spawned ==> fresh(e)
      ensures ok ==> enemies.members == EnemiesOnScreen(old(enemies.members) + spawned)
      ensures ok ==> forall e :: e in enemies.members ==> !e.IsOffScreen() && (e in old(enemies.members) || fresh(e))
      ensures ok ==> forall e :: e in old(enemies.members) ==> EnemyStepped(e, delta)
      ensures pickupSpawnQueue == old(pickupSpawnQueue) && elapsedTime == old(elapsedTime)
      ensures score == old(score) && levelComplete == old(levelComplete) && pendingScores == old(pendingScores)
    {
      ghost var before := enemies.members;
      ok := DrainEnemyQueue(draws);
      spawned := [];
      if ok {
        spawned := enemies.members[|before|..];
        AddedAreNew(before, enemies.members);
        assert forall e :: e in before ==> e in enemies.members;
        enemies.UpdateMembers(delta);
      }
    }

    /** `updatePickups`, the same for pickups. */
    method UpdatePickups(delta: real, draws: nat -> real) returns (ok: bool, ghost spawned: seq<Pickup>)
      requires Valid()
      modifies this, pickups, set p | p in pickups.members
      ensures Valid()
      ensures ok ==> pickupSpawnQueue == old(pickupSpawnQueue)[DueCount(old(pickupSpawnQueue), elapsedTime)..]
      ensures ok ==> |pickupSpawnQueue| == 0 || pickupSpawnQueue[0].spawnTime > elapsedTime
      ensures ok ==> PickupsSpawned(old(pickups.members), old(pickups.members) + spawned,
                                    old(pickupSpawnQueue)[..DueCount(old(pickupSpawnQueue), elapsedTime)])
      ensures ok ==> forall p :: p in spawned ==> fresh(p)
      ensures ok ==> pickups.members == PickupsOnScreen(old(pickups.members) + spawned)
      ensures ok ==> forall p :: p in pickups.members ==> !p.IsOffScreen() && (p in old(pickups.members) || fresh(p))
      ensures ok ==> forall p :: p in old(pickups.members) ==> PickupStepped(p, delta)
      ensures enemySpawnQueue == old(enemySpawnQueue) && elapsedTime == old(elapsedTime)
      ensures score == old(score) && levelComplete == old(levelComplete) && pendingScores == old(pendingScores)
    {
      ghost var before := pickups.members;
      ok := DrainPickupQueue(draws);
      spawned := [];
      if ok {
        spawned := pickups.members[|before|..];
        AddedAreNew(before, pickups.members);
        assert forall p :: p in before ==> p in pickups.members;
        pickups.UpdateMembers(delta);
      }
    }

    /** `updateProjectiles`: both projectile groups fly on and lose the
        projectiles past the edge they fly towards. */
    method UpdateProjectiles(delta: real)
      requires Valid()
      modifies projectiles, enemyProjectiles, set p | p in projectiles.members, set p | p in enemyProjectiles.members
      ensures Valid()
      ensures forall p :: p in projectiles.members ==> p in old(projectiles.members) && !p.IsOffScreen(screenHeight)
      ensures forall p :: p in enemyProjectiles.members ==> p in old(enemyProjectiles.members) && !p.IsOffScreen(screenHeight)
      ensures forall p :: p in old(projectiles.members) ==> ProjectileStepped(p, delta, screenHeight)
      ensures forall p :: p in old(enemyProjectiles.members) ==> ProjectileStepped(p, delta, screenHeight)
      ensures projectiles.members == ProjectilesOnScreen(old(projectiles.members), screenHeight)
      ensures enemyProjectiles.members == ProjectilesOnScreen(old(enemyProjectiles.members), screenHeight)
    {
      ghost var mine := projectiles.members;
      ghost var theirs := enemyProjectiles.members;
      projectiles.UpdateMembers(delta, screenHeight);
      ghost var kept := projectiles.members;
      assert kept == ProjectilesOnScreen(mine, screenHeight);
      assert forall p :: p in projectiles.members ==> p !in theirs;
      assert forall p :: p in mine ==>
        (p.x == Fly(old(p.x), p.speed, delta, p.fliesRight) && p.y == old(p.y)
         && p.active == (old(p.active) && !p.IsOffScreen(screenHeight)));
      enemyProjectiles.UpdateMembers(delta, screenHeight);
      assert kept == ProjectilesOnScreen(mine, screenHeight);
      assert forall p :: p in mine ==>
        (p.x == Fly(old(p.x), p.speed, delta, p.fliesRight) && p.y == old(p.y)
         && p.active == (old(p.active) && !p.IsOffScreen(screenHeight)));
    }

    /** A new projectile for `shot` from the projectile catalog, added to
        `group`; `ok` is false where the lookup misses and the constructor
        throws. */
    method Launch(shot: Shot, group: ProjectileGroup) returns (ok: bool)
      requires Valid() && (group == projectiles || group == enemyProjectiles)
      modifies group
      ensures Valid()
      ensures ok <==> Find(projectileCatalog, ProjectileName, shot.kind).Some?
      ensures !ok ==> group.members == old(group.members)
      ensures ok ==> |group.members| == |old(group.members)| + 1 && group.members[..|old(group.members)|] == old(group.members)
      ensures ok ==> var p := group.members[|old(group.members)|];
        fresh(p) && p.name == shot.kind && p.active && p.x == shot.x && p.y == shot.y && p.direction == shot.direction
        && p.fliesRight == IsRight(shot.direction)
    {
      var projectile := ProjectileEntity.Spawn(projectileCatalog, shot, screenWidth);
      if projectile.None? {
        return false;
      }
      DistinctAppend(group.members, projectile.value);
      group.Add(projectile.value);
      assert group.members[..|old(group.members)|] == old(group.members);
      ok := true;
    }

    /** Whether each heart shows, full or dimmed, the hits the plane has
        left. */
    ghost predicate HeartsMatchHits()
      reads hud, hud.hearts, plane
    {
      forall j :: 0 <= j < hud.hearts.Length ==> (IsFull(hud.hearts[j]) <==> j < plane.maxNumberOfHits - plane.numberOfHits)
    }

    /** The overlap of an enemy projectile with the plane: the projectile is
        destroyed and removed, a plane that is not invincible takes a hit,
        the hearts are redrawn and the death check runs. */
    method EnemyProjectileHitsPlane(i: nat) returns (dead: bool)
      requires Valid() && i < |enemyProjectiles.members|
      modifies enemyProjectiles, enemyProjectiles.members[i], plane, hud.hearts
      ensures Valid()
      ensures enemyProjectiles.members == old(enemyProjectiles.members[..i] + enemyProjectiles.members[i + 1..])
      ensures !old(enemyProjectiles.members[i]).active
      ensures plane.numberOfHits == old(plane.numberOfHits) + (if old(plane.isInvincible) then 0 else 1)
      ensures plane.isInvincible == old(plane.isInvincible) && HeartsMatchHits()
      ensures dead <==> plane.numberOfHits == plane.maxNumberOfHits
      ensures dead ==> plane.currentAnimation == plane.deathAnimation
      ensures !dead ==> plane.currentAnimation == old(plane.currentAnimation)
    {
      var hit := enemyProjectiles.members[i];
      hit.Destroy();
      DistinctRemove(enemyProjectiles.members, i);
      enemyProjectiles.RemoveAt(i);
      if !plane.isInvincible {
        plane.numberOfHits := plane.numberOfHits + 1;
      }
      hud.UpdateHearts();
      dead := CheckForPlaneDeath();
    }

    /** The overlap of the plane with an enemy: a plane that is not
        invincible takes a hit, and the enemy is destroyed together with its
        shoot timer and removed. Reading the key of a missing hit sound
        throws before the death check and the hearts are reached. */
    method PlaneHitsEnemy(i: nat) returns (hitSound: Result<string, TypeError>, dead: bool)
      requires Valid() && i < |enemies.members|
      modifies enemies, enemies.members[i], plane, hud.hearts
      ensures Valid()
      ensures enemies.members == old(enemies.members[..i] + enemies.members[i + 1..])
      ensures var e := old(enemies.members[i]); !e.active && !e.hasShootTimer && e.numberOfHits == old(e.numberOfHits)
      ensures plane.numberOfHits == old(plane.numberOfHits) + (if old(plane.isInvincible) then 0 else 1)
      ensures plane.isInvincible == old(plane.isInvincible)
      ensures hitSound == UnguardedKey(FoundValue(old(enemies.members[i]).hitSound))
      ensures hitSound.Err? ==> !dead && plane.currentAnimation == old(plane.currentAnimation)
      ensures hitSound.Err? ==> hud.hearts[..] == old(hud.hearts[..])
      ensures hitSound.Ok? ==> HeartsMatchHits() && (dead <==> plane.numberOfHits == plane.maxNumberOfHits)
      ensures hitSound.Ok? && dead ==> plane.currentAnimation == plane.deathAnimation
      ensures hitSound.Ok? && !dead ==> plane.currentAnimation == old(plane.currentAnimation)
    {
      if !plane.isInvincible {
        plane.numberOfHits := plane.numberOfHits + 1;
      }
      var enemy := enemies.members[i];
      var _ := enemy.Destroy(enemy.hasShootTimer);
      DistinctRemove(enemies.members, i);
      enemies.RemoveAt(i);
      hitSound := UnguardedKey(FoundValue(enemy.hitSound));
      dead := false;
      if hitSound.Err? {
        return;
      }
      dead := CheckForPlaneDeath();
      hud.UpdateHearts();
    }

    /** The overlap of the plane with a pickup: the pickup is destroyed and
        removed and its score added; a `heal` pickup takes one hit back
        (never below zero) and redraws the hearts, an `invincible` one makes
        the plane invincible. */
    method PlaneHitsPickup(i: nat)
      requires Valid() && i < |pickups.members|
      modifies this, pickups, pickups.members[i], plane, hud.hearts
      ensures Valid()
      ensures pickups.members == old(pickups.members[..i] + pickups.members[i + 1..])
      ensures var p := old(pickups.members[i]); !p.active && score == old(score) + p.score
      ensures var p := old(pickups.members[i]);
        plane.numberOfHits == if p.name == "heal" && old(plane.numberOfHits) != 0 then old(plane.numberOfHits) - 1 else old(plane.numberOfHits)
      ensures old(pickups.members[i]).name == "heal" ==> HeartsMatchHits()
      ensures plane.isInvincible == (old(plane.isInvincible) || old(pickups.members[i]).name == "invincible")
      ensures plane.currentAnimation == old(plane.currentAnimation)
      ensures enemySpawnQueue == old(enemySpawnQueue) && pickupSpawnQueue == old(pickupSpawnQueue)
      ensures elapsedTime == old(elapsedTime) && levelComplete == old(levelComplete) && pendingScores == old(pendingScores)
    {
      var pickup := pickups.members[i];
      pickup.Destroy();
      DistinctRemove(pickups.members, i);
      pickups.RemoveAt(i);
      UpdateScore(pickup.score);
      if pickup.name == "heal" {
        if plane.numberOfHits != 0 {
          plane.numberOfHits := plane.numberOfHits - 1;
        }
        hud.UpdateHearts();
      }
      if pickup.name == "invincible" {
        var _ := plane.StartInvincibility();
      }
    }

    /** The overlap of one of the plane's projectiles with an enemy: the
        enemy takes a hit and the projectile is destroyed and removed; an
        enemy whose hits reach exactly its maximum is destroyed (its shoot
        timer is not passed along and keeps running) and removed, and its
        score waits for its death effect to end. Reading the key of a
        missing hit sound throws before that check. */
    method ProjectileHitsEnemy(pi: nat, ei: nat) returns (hitSound: Result<string, TypeError>, killed: bool)
      requires Valid() && pi < |projectiles.members| && ei < |enemies.members|
      modifies this, projectiles, projectiles.members[pi], enemies, enemies.members[ei]
      ensures Valid()
      ensures projectiles.members == old(projectiles.members[..pi] + projectiles.members[pi + 1..])
      ensures !old(projectiles.members[pi]).active
      ensures var e := old(enemies.members[ei]);
        e.numberOfHits == old(e.numberOfHits) + 1
        && e.hasShootTimer == old(e.hasShootTimer)
        && hitSound == UnguardedKey(FoundValue(e.hitSound))
        && (killed <==> hitSound.Ok? && e.numberOfHits == e.maxNumberOfHits)
      ensures var e := old(enemies.members[ei]); killed ==>
        !e.active && enemies.members == old(enemies.members[..ei] + enemies.members[ei + 1..])
        && pendingScores == old(pendingScores) + [e.score]
      ensures var e := old(enemies.members[ei]); !killed ==>
        e.active == old(e.active) && enemies.members == old(enemies.members) && pendingScores == old(pendingScores)
      ensures score == old(score) && enemySpawnQueue == old(enemySpawnQueue) && pickupSpawnQueue == old(pickupSpawnQueue)
      ensures elapsedTime == old(elapsedTime) && levelComplete == old(levelComplete)
    {
      var enemy := enemies.members[ei];
      enemy.numberOfHits := enemy.numberOfHits + 1;
      var shot := projectiles.members[pi];
      shot.Destroy();
      DistinctRemove(projectiles.members, pi);
      projectiles.RemoveAt(pi);
      hitSound := UnguardedKey(FoundValue(enemy.hitSound));
      killed := false;
      if hitSound.Err? {
        return;
      }
      if enemy.numberOfHits == enemy.maxNumberOfHits {
        var _ := enemy.Destroy(false);
        DistinctRemove(enemies.members, ei);
        enemies.RemoveAt(ei);
        pendingScores := pendingScores + [enemy.score];
        killed := true;
      }
    }

    /** The end of a shot-down enemy's death effect: its score is added. */
    method DeathEffectCompletes(i: nat)
      requires i < |pendingScores|
      modifies this
      ensures score == old(score) + old(pendingScores[i])
      ensures pendingScores == old(pendingScores[..i] + pendingScores[i + 1..])
      ensures enemySpawnQueue == old(enemySpawnQueue) && pickupSpawnQueue == old(pickupSpawnQueue)
      ensures elapsedTime == old(elapsedTime) && levelComplete == old(levelComplete)
    {
      var amount := pendingScores[i];
      pendingScores := pendingScores[..i] + pendingScores[i + 1..];
      UpdateScore(amount);
    }

    /** An enemy's shoot timer fires: an enemy still on the field switches
        to its shooting animation and launches a left-flying projectile
        from its nose into the enemy projectile group; `sound` is the shoot
        sound it then plays. A destroyed enemy whose timer survived does
        nothing. */
    method EnemyTimerFires(e: Enemy) returns (ok: bool, sound: Option<string>)
      requires Valid() && e.hasShootTimer && e.projectile.Some?
      modifies e, enemyProjectiles
      ensures Valid()
      ensures !old(e.active) ==> ok && sound.None? && enemyProjectiles.members == old(enemyProjectiles.members)
      ensures old(e.active) ==> (ok <==> Find(projectileCatalog, ProjectileName, e.projectile.value).Some?)
      ensures old(e.active) && ok ==>
        |enemyProjectiles.members| == |old(enemyProjectiles.members)| + 1
        && enemyProjectiles.members[..|old(enemyProjectiles.members)|] == old(enemyProjectiles.members)
        && var p := enemyProjectiles.members[|old(enemyProjectiles.members)|];
          fresh(p) && p.name == e.projectile.value && p.direction == "left"
          && p.x == e.x - e.displayWidth / 2.0 && p.y == e.y
      ensures old(e.active) && ok ==> sound == SoundToPlay(e.shootingSound)
      ensures !ok ==> sound.None? && enemyProjectiles.members == old(enemyProjectiles.members)
      ensures e.x == old(e.x) && e.y == old(e.y) && e.active == old(e.active)
      ensures e.numberOfHits == old(e.numberOfHits) && e.hasShootTimer == old(e.hasShootTimer)
    {
      var shot, shootSound := e.FireProjectile();
      ok := true;
      sound := None;
      if shot.Some? {
        ok := Launch(shot.value, enemyProjectiles);
        if ok {
          sound := shootSound;
        }
      }
    }

    /** A press on the shoot button; when it fires, the projectile joins the
        plane's group. */
    method ShootButtonPressed() returns (ok: bool)
      requires Valid() && shootButton.Valid()
      modifies shootButton, plane, projectiles
      ensures Valid() && shootButton.Valid()
      ensures old(shootButton.isHeld) ==> ok && projectiles.members == old(projectiles.members)
      ensures !old(shootButton.isHeld) ==> (ok <==> Find(projectileCatalog, ProjectileName, plane.projectile).Some?)
      ensures !old(shootButton.isHeld) && ok ==>
        |projectiles.members| == |old(projectiles.members)| + 1
        && projectiles.members[..|old(projectiles.members)|] == old(projectiles.members)
        && var p := projectiles.members[|old(projectiles.members)|];
          fresh(p) && p.name == plane.projectile && p.direction == "right"
          && p.x == plane.x + plane.displayWidth / 2.0 && p.y == plane.y + plane.displayHeight / 4.0
      ensures !ok ==> projectiles.members == old(projectiles.members)
      ensures shootButton.isHeld
      ensures plane.numberOfHits == old(plane.numberOfHits) && plane.isInvincible == old(plane.isInvincible)
    {
      var shot := shootButton.PointerDown();
      ok := true;
      if shot.Some? {
        ok := Launch(shot.value, projectiles);
      }
    }

    /** `update`: one frame of `delta` milliseconds. The clock advances, the
        plane follows the joystick state `stick` between its top bound and
        `bottomBound` (the joystick's top edge), a held shoot button may
        fire, the enemies, pickups and projectiles are updated, and the
        first frame that finds the level complete ends it. `ok` is false
        where a projectile or a spawn throws and ends the frame early. */
    method Update(delta: real, stick: JoystickState, bottomBound: real, enemyDraws: nat -> real, pickupDraws: nat -> real)
      returns (ok: bool, finished: bool, ghost fired: seq<Projectile>,
               ghost spawnedEnemies: seq<Enemy>, ghost spawnedPickups: seq<Pickup>)
      requires Valid() && shootButton.Valid()
      modifies this, plane, shootButton, enemies, pickups, projectiles, enemyProjectiles
      modifies set e | e in enemies.members, set p | p in pickups.members
      modifies set p | p in projectiles.members, set p | p in enemyProjectiles.members
      ensures Valid() && shootButton.Valid()
      ensures elapsedTime == old(elapsedTime) + delta
      ensures score == old(score) && pendingScores == old(pendingScores)
      ensures plane.numberOfHits == old(plane.numberOfHits) && plane.isInvincible == old(plane.isInvincible)
      ensures old(levelComplete) ==> levelComplete && !finished
      ensures !ok ==> levelComplete == old(levelComplete) && !finished
      ensures finished ==> levelComplete && CheckForLevelComplete()
      ensures ok && CheckForLevelComplete() ==> levelComplete
      ensures !finished ==> levelComplete == old(levelComplete)
      ensures plane.y == Clamp(MovedY(stick, old(plane.y), old(plane.baseY), old(plane.bobbing), VerticalStep(screenWidth, delta)),
                               plane.TopBound(), bottomBound)
      ensures plane.bobbing <==> stick == Idle
      ensures plane.baseY == (if stick == Idle then old(plane.baseY) else plane.y)
      ensures plane.x == old(plane.x)
      ensures ok ==> |fired| == if old(shootButton.isHeld) && Tick(old(shootButton.elapsed), delta, shootButton.shootCooldown).1 then 1 else 0
      ensures ok ==> forall p :: p in fired ==> fresh(p) && p.name == plane.projectile && p.direction == "right"
      ensures ok ==> enemySpawnQueue == old(enemySpawnQueue)[DueCount(old(enemySpawnQueue), elapsedTime)..]
      ensures ok ==> pickupSpawnQueue == old(pickupSpawnQueue)[DueCount(old(pickupSpawnQueue), elapsedTime)..]
      ensures ok ==> |enemySpawnQueue| == 0 || enemySpawnQueue[0].spawnTime > elapsedTime
      ensures ok ==> |pickupSpawnQueue| == 0 || pickupSpawnQueue[0].spawnTime > elapsedTime
      ensures ok ==> EnemiesSpawned(old(enemies.members), old(enemies.members) + spawnedEnemies,
                                    old(enemySpawnQueue)[..DueCount(old(enemySpawnQueue), elapsedTime)])
      ensures ok ==> PickupsSpawned(old(pickups.members), old(pickups.members) + spawnedPickups,
                                    old(pickupSpawnQueue)[..DueCount(old(pickupSpawnQueue), elapsedTime)])
      ensures ok ==> (forall e :: e in spawnedEnemies ==> fresh(e)) && (forall p :: p in spawnedPickups ==> fresh(p))
      ensures ok ==> enemies.members == EnemiesOnScreen(old(enemies.members) + spawnedEnemies)
      ensures ok ==> pickups.members == PickupsOnScreen(old(pickups.members) + spawnedPickups)
      ensures ok ==> projectiles.members == ProjectilesOnScreen(old(projectiles.members) + fired, screenHeight)
      ensures ok ==> enemyProjectiles.members == ProjectilesOnScreen(old(enemyProjectiles.members), screenHeight)
    {
      elapsedTime := elapsedTime + delta;
      finished := false;
      ok, fired, spawnedEnemies, spawnedPickups := UpdateEntities(delta, stick, bottomBound, enemyDraws, pickupDraws);
      if !ok {
        return;
      }
      label EntitiesUpdated:
      if CheckForLevelComplete() && !levelComplete {
        levelComplete := true;
        finished := true;
      }
      EnemiesOnScreenFramed@EntitiesUpdated(old(enemies.members) + spawnedEnemies);
      PickupsOnScreenFramed@EntitiesUpdated(old(pickups.members) + spawnedPickups);
      ProjectilesOnScreenFramed@EntitiesUpdated(old(projectiles.members) + fired);
      ProjectilesOnScreenFramed@EntitiesUpdated(old(enemyProjectiles.members));
      assert unchanged@EntitiesUpdated(plane);
    }

    /** The entities' share of a frame, after the clock: the controls, then
        the groups; `ok` is false where a projectile or a spawn throws. */
    method UpdateEntities(delta: real, stick: JoystickState, bottomBound: real, enemyDraws: nat -> real, pickupDraws: nat -> real)
      returns (ok: bool, ghost fired: seq<Projectile>,
               ghost spawnedEnemies: seq<Enemy>, ghost spawnedPickups: seq<Pickup>)
      requires Valid() && shootButton.Valid()
      modifies this, plane, shootButton, enemies, pickups, projectiles, enemyProjectiles
      modifies set e | e in enemies.members, set p | p in pickups.members
      modifies set p | p in projectiles.members, set p | p in enemyProjectiles.members
      ensures Valid() && shootButton.Valid()
      ensures elapsedTime == old(elapsedTime) && levelComplete == old(levelComplete)
      ensures score == old(score) && pendingScores == old(pendingScores)
      ensures plane.numberOfHits == old(plane.numberOfHits) && plane.isInvincible == old(plane.isInvincible)
      ensures plane.y == Clamp(MovedY(stick, old(plane.y), old(plane.baseY), old(plane.bobbing), VerticalStep(screenWidth, delta)),
                               plane.TopBound(), bottomBound)
      ensures plane.bobbing <==> stick == Idle
      ensures plane.baseY == (if stick == Idle then old(plane.baseY) else plane.y)
      ensures plane.x == old(plane.x)
      ensures ok ==> |fired| == if old(shootButton.isHeld) && Tick(old(shootButton.elapsed), delta, shootButton.shootCooldown).1 then 1 else 0
      ensures ok ==> forall p :: p in fired ==> fresh(p) && p.name == plane.projectile && p.direction == "right"
      ensures ok ==> enemySpawnQueue == old(enemySpawnQueue)[DueCount(old(enemySpawnQueue), elapsedTime)..]
      ensures ok ==> pickupSpawnQueue == old(pickupSpawnQueue)[DueCount(old(pickupSpawnQueue), elapsedTime)..]
      ensures ok ==> |enemySpawnQueue| == 0 || enemySpawnQueue[0].spawnTime > elapsedTime
      ensures ok ==> |pickupSpawnQueue| == 0 || pickupSpawnQueue[0].spawnTime > elapsedTime
      ensures ok ==> EnemiesSpawned(old(enemies.members), old(enemies.members) + spawnedEnemies,
                                    old(enemySpawnQueue)[..DueCount(old(enemySpawnQueue), elapsedTime)])
      ensures ok ==> PickupsSpawned(old(pickups.members), old(pickups.members) + spawnedPickups,
                                    old(pickupSpawnQueue)[..DueCount(old(pickupSpawnQueue), elapsedTime)])
      ensures ok ==> (forall e :: e in spawnedEnemies ==> fresh(e)) && (forall p :: p in spawnedPickups ==> fresh(p))
      ensures ok ==> enemies.members == EnemiesOnScreen(old(enemies.members) + spawnedEnemies)
      ensures ok ==> pickups.members == PickupsOnScreen(old(pickups.members) + spawnedPickups)
      ensures ok ==> projectiles.members == ProjectilesOnScreen(old(projectiles.members) + fired, screenHeight)
      ensures ok ==> enemyProjectiles.members == ProjectilesOnScreen(old(enemyProjectiles.members), screenHeight)
    {
      spawnedEnemies, spawnedPickups := [], [];
      ok, fired := UpdateControls(delta, stick, bottomBound);
      if !ok {
        return;
      }
      label ControlsUpdated:
      ok, spawnedEnemies, spawnedPickups := UpdateGroups(delta, enemyDraws, pickupDraws);
      assert unchanged@ControlsUpdated(plane);
    }

    /** The controls' share of a frame: the plane follows the joystick and a
        held shoot button may fire into the plane's group. */
    method UpdateControls(delta: real, stick: JoystickState, bottomBound: real) returns (ok: bool, ghost fired: seq<Projectile>)
      requires Valid() && shootButton.Valid()
      modifies plane, shootButton, projectiles
      ensures Valid() && shootButton.Valid()
      ensures plane.numberOfHits == old(plane.numberOfHits) && plane.isInvincible == old(plane.isInvincible)
      ensures plane.y == Clamp(MovedY(stick, old(plane.y), old(plane.baseY), old(plane.bobbing), VerticalStep(screenWidth, delta)),
                               plane.TopBound(), bottomBound)
      ensures plane.bobbing <==> stick == Idle
      ensures plane.baseY == (if stick == Idle then old(plane.baseY) else plane.y)
      ensures plane.x == old(plane.x)
      ensures projectiles.members == old(projectiles.members) + fired
      ensures ok ==> |fired| == if old(shootButton.isHeld) && Tick(old(shootButton.elapsed), delta, shootButton.shootCooldown).1 then 1 else 0
      ensures forall p :: p in fired ==> fresh(p) && p.name == plane.projectile && p.direction == "right"
    {
      plane.Update(stick, delta, screenWidth, bottomBound);
      label PlaneMoved:
      ok, fired := FireHeldButton(delta);
      assert unchanged@PlaneMoved(plane);
    }

    /** The shoot button's share of a frame: a held button may fire into
        the plane's group. */
    method FireHeldButton(delta: real) returns (ok: bool, ghost fired: seq<Projectile>)
      requires Valid() && shootButton.Valid()
      modifies shootButton, projectiles
      ensures Valid() && shootButton.Valid() && shootButton.isHeld == old(shootButton.isHeld)
      ensures !old(shootButton.isHeld) ==> ok && projectiles.members == old(projectiles.members)
      ensures old(shootButton.isHeld) ==> shootButton.elapsed == Tick(old(shootButton.elapsed), delta, shootButton.shootCooldown).0
      ensures !Tick(old(shootButton.elapsed), delta, shootButton.shootCooldown).1 ==> ok && projectiles.members == old(projectiles.members)
      ensures old(shootButton.isHeld) && Tick(old(shootButton.elapsed), delta, shootButton.shootCooldown).1 ==>
        (ok <==> Find(projectileCatalog, ProjectileName, plane.projectile).Some?)
      ensures ok ==> forall p :: p in projectiles.members ==> p in old(projectiles.members) || fresh(p)
      ensures projectiles.members == old(projectiles.members) + fired
      ensures |fired| == if ok && old(shootButton.isHeld) && Tick(old(shootButton.elapsed), delta, shootButton.shootCooldown).1 then 1 else 0
      ensures forall p :: p in fired ==> fresh(p) && p.name == plane.projectile && p.direction == "right"
    {
      var shot := shootButton.Update(delta);
      ok := true;
      fired := [];
      if shot.Some? {
        ok := Launch(shot.value, projectiles);
        if ok {
          fired := projectiles.members[|old(projectiles.members)|..];
          assert projectiles.members == old(projectiles.members) + fired;
        }
      }
    }

    /** The groups' share of a frame: `updateEnemies`, `updatePickups` and
        `updateProjectiles`, in that order, a throwing spawn ending it. */
    method UpdateGroups(delta: real, enemyDraws: nat -> real, pickupDraws: nat -> real)
      returns (ok: bool, ghost spawnedEnemies: seq<Enemy>, ghost spawnedPickups: seq<Pickup>)
      requires Valid()
      modifies this, enemies, pickups, projectiles, enemyProjectiles
      modifies set e | e in enemies.members, set p | p in pickups.members
      modifies set p | p in projectiles.members, set p | p in enemyProjectiles.members
      ensures Valid()
      ensures elapsedTime == old(elapsedTime) && levelComplete == old(levelComplete)
      ensures score == old(score) && pendingScores == old(pendingScores)
      ensures ok ==> enemySpawnQueue == old(enemySpawnQueue)[DueCount(old(enemySpawnQueue), elapsedTime)..]
      ensures ok ==> pickupSpawnQueue == old(pickupSpawnQueue)[DueCount(old(pickupSpawnQueue), elapsedTime)..]
      ensures ok ==> |enemySpawnQueue| == 0 || enemySpawnQueue[0].spawnTime > elapsedTime
      ensures ok ==> |pickupSpawnQueue| == 0 || pickupSpawnQueue[0].spawnTime > elapsedTime
      ensures ok ==> EnemiesSpawned(old(enemies.members), old(enemies.members) + spawnedEnemies,
                                    old(enemySpawnQueue)[..DueCount(old(enemySpawnQueue), elapsedTime)])
      ensures ok ==> PickupsSpawned(old(pickups.members), old(pickups.members) + spawnedPickups,
                                    old(pickupSpawnQueue)[..DueCount(old(pickupSpawnQueue), elapsedTime)])
      ensures ok ==> (forall e :: e in spawnedEnemies ==> fresh(e)) && (forall p :: p in spawnedPickups ==> fresh(p))
      ensures ok ==> enemies.members == EnemiesOnScreen(old(enemies.members) + spawnedEnemies)
      ensures ok ==> pickups.members == PickupsOnScreen(old(pickups.members) + spawnedPickups)
      ensures ok ==> projectiles.members == ProjectilesOnScreen(old(projectiles.members), screenHeight)
      ensures ok ==> enemyProjectiles.members == ProjectilesOnScreen(old(enemyProjectiles.members), screenHeight)
    {
      ok, spawnedEnemies, spawnedPickups := UpdateEnemiesAndPickups(delta, enemyDraws, pickupDraws);
      if !ok {
        return;
      }
      label SpawnsUpdated:
      UpdateProjectiles(delta);
      assert unchanged@SpawnsUpdated(enemies) && unchanged@SpawnsUpdated(set e | e in old(enemies.members) + spawnedEnemies);
      EnemiesOnScreenFramed@SpawnsUpdated(old(enemies.members) + spawnedEnemies);
      assert unchanged@SpawnsUpdated(pickups) && unchanged@SpawnsUpdated(set p | p in old(pickups.members) + spawnedPickups);
      PickupsOnScreenFramed@SpawnsUpdated(old(pickups.members) + spawnedPickups);
    }

    /** The spawning groups' share of a frame: `updateEnemies`, then
        `updatePickups`, a throwing spawn ending it. */
    method UpdateEnemiesAndPickups(delta: real, enemyDraws: nat -> real, pickupDraws: nat -> real)
      returns (ok: bool, ghost spawnedEnemies: seq<Enemy>, ghost spawnedPickups: seq<Pickup>)
      requires Valid()
      modifies this, enemies, pickups, set e | e in enemies.members, set p | p in pickups.members
      ensures Valid()
      ensures elapsedTime == old(elapsedTime) && levelComplete == old(levelComplete)
      ensures score == old(score) && pendingScores == old(pendingScores)
      ensures ok ==> enemySpawnQueue == old(enemySpawnQueue)[DueCount(old(enemySpawnQueue), elapsedTime)..]
      ensures ok ==> pickupSpawnQueue == old(pickupSpawnQueue)[DueCount(old(pickupSpawnQueue), elapsedTime)..]
      ensures ok ==> |enemySpawnQueue| == 0 || enemySpawnQueue[0].spawnTime > elapsedTime
      ensures ok ==> |pickupSpawnQueue| == 0 || pickupSpawnQueue[0].spawnTime > elapsedTime
      ensures ok ==> EnemiesSpawned(old(enemies.members), old(enemies.members) + spawnedEnemies,
                                    old(enemySpawnQueue)[..DueCount(old(enemySpawnQueue), elapsedTime)])
      ensures ok ==> PickupsSpawned(old(pickups.members), old(pickups.members) + spawnedPickups,
                                    old(pickupSpawnQueue)[..DueCount(old(pickupSpawnQueue), elapsedTime)])
      ensures ok ==> (forall e :: e in spawnedEnemies ==> fresh(e)) && (forall p :: p in spawnedPickups ==> fresh(p))
      ensures ok ==> enemies.members == EnemiesOnScreen(old(enemies.members) + spawnedEnemies)
      ensures ok ==> pickups.members == PickupsOnScreen(old(pickups.members) + spawnedPickups)
      ensures ok ==> forall e :: e in enemies.members ==> !e.IsOffScreen()
      ensures ok ==> forall p :: p in pickups.members ==> !p.IsOffScreen()
    {
      spawnedPickups := [];
      ok, spawnedEnemies := UpdateEnemies(delta, enemyDraws);
      if !ok {
        return;
      }
      label EnemiesUpdated:
      ok, spawnedPickups := UpdatePickups(delta, pickupDraws);
      if ok {
        assert unchanged@EnemiesUpdated(enemies) && unchanged@EnemiesUpdated(set e | e in old(enemies.members) + spawnedEnemies);
        EnemiesOnScreenFramed@EnemiesUpdated(old(enemies.members) + spawnedEnemies);
      }
    }

    /** The delayed part of `gameOver('alive')`: the stars the score earns
        and, for at least one star, the progress saved for this level and
        the unlock of the next one; `first` and `second` say how the storage
        calls of each save fare. */
    method CompleteLevel(levels: LevelManager, first: StorageFaults, second: StorageFaults) returns (stars: nat)
      requires levelComplete && levels.currentLevel == Some(level) && level.id.Some?
      requires WellTyped(levels.saveData.storage)
      modifies levels.saveData
      ensures stars == StarCount(score, level)
      ensures var calls := CompletionCalls(level.id.value, score, stars, levels.LevelCount());
        levels.saveData.storage == ProgressAfterAll(old(levels.saveData.storage), calls, [first, second][..|calls|])
      ensures WellTyped(levels.saveData.storage)
    {
      ghost var st := levels.saveData.storage;
      stars := StarCount(score, level);
      if stars == 0 {
        assert [first, second][..0] == [];
        return;
      }
      var id := levels.currentLevel.value.id.value;
      var c1 := ProgressCall(id, stars, true, score);
      levels.AddLevelProgress(c1, first);
      ghost var st1 := levels.saveData.storage;
      var levelCount := levels.LevelCount();
      var nextLevelId := id + 1;
      if levelCount > 0 && nextLevelId <= levelCount {
        var c2 := ProgressCall(nextLevelId, 0, true, 0);
        levels.AddLevelProgress(c2, second);
        assert CompletionCalls(id, score, stars, levelCount) == [c1, c2];
        assert [first, second][..2] == [first, second];
        assert ProgressAfterAll(st1, [c2], [second]) == levels.saveData.storage;
        assert ProgressAfterAll(st, [c1, c2], [first, second]) == ProgressAfterAll(st1, [c2], [second]);
      } else {
        assert CompletionCalls(id, score, stars, levelCount) == [c1];
        assert [first, second][..1] == [first];
        assert ProgressAfterAll(st, [c1], [first]) == ProgressAfterAll(st1, [], []);
      }
    }
  }

  /** `checkForLevelComplete` holds exactly when both queues are empty, no
      enemy and no pickup is still active and the plane is not dying. */
  lemma LevelCompleteMeans(s: GameScene)
    ensures s.CheckForLevelComplete() <==>
      |s.enemySpawnQueue| == 0 && |s.pickupSpawnQueue| == 0
      && (forall e :: e in s.enemies.members ==> !e.active)
      && (forall p :: p in s.pickups.members ==> !p.active)
      && s.plane.currentAnimation != s.plane.deathAnimation
  {
    NoActiveEnemies(s.enemies.members);
    NoActivePickups(s.pickups.members);
  }

  /** With no storage failure, passing a level with stars leaves this
      level unlocked with its best stars, and unlocks the next level when
      the catalog has one. */
  lemma PassUnlocksLevels(st: map<string, Value>, id: int, score: int, stars: nat, levelCount: nat)
    requires WellTyped(st) && stars > 0
    ensures var calls := CompletionCalls(id, score, stars, levelCount);
      var stored := ProgressOf(Loaded(st, LevelProgressKey, false));
      var after := ProgressOf(Loaded(ProgressAfterAll(st, calls, seq(|calls|, _ => StorageFaults(false, false))), LevelProgressKey, false));
      UnlockedFor(after, id) && StarsFor(after, id) == Max(StarsFor(Some(StoredOrEmpty(stored)), id), stars)
      && (levelCount > 0 && id + 1 <= levelCount ==> UnlockedFor(after, id + 1))
  {
    var calls := CompletionCalls(id, score, stars, levelCount);
    var records := StoredOrEmpty(ProgressOf(Loaded(st, LevelProgressKey, false)));
    ProgressAfterAllApplies(st, calls, seq(|calls|, _ => StorageFaults(false, false)));
    CompletionRecordsProgress(records, id, score, stars, levelCount);
  }
}
