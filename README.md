# Flyboy game rules, modelled in Dafny

Flyboy is a side-scrolling plane game written in JavaScript on Phaser. This
project models the game-rules layer under the rendering. That layer covers:

- **Level progress.** Per-level stars, unlock flag and best score are kept in
  the local key-value save data. `addLevelProgress` merges into them: best
  stars and best score win, and an unlock is never taken back.
- **Level catalog.** `LevelManager` loads the catalog, selects a level and
  counts the levels.
- **Settings.** The single-record settings store, including its first-write
  quirk.
- **Play session (`GameScene`).**
  - The level's enemy and pickup timelines are copied and stably sorted by
    `spawnTime`, then drained greedily every frame.
  - Spawn points are chosen at the right edge.
  - Collisions, given as explicit events, move the plane's and the enemies'
    hit counters and the score.
  - A session ends when both queues are empty, nothing is left on screen and
    the plane is alive. The score is then turned into 0–3 stars, and a pass
    saves progress and unlocks the next level.
- **Entities.** The plane, enemies (both versions of the class), pickups and
  projectiles: linear horizontal motion, the off-screen tests, invincibility,
  the bob and the vertical clamp.
- **Controls.** The shoot button's hold-and-cooldown state machine, the
  joystick's clamp and dead zone, and the HUD's row of hearts.
- **Bug report.** Input checks on the bug-report page: the blank test built on
  `String.prototype.trim`, the email regular expression, and the
  first-failure-wins order of a submission.

How the model is built:

- Stateful objects are Dafny classes with `modifies` clauses. The game's
  loops are methods with loop invariants.
- Each method is proved against specification functions, and lemmas state
  the properties of those functions.
- Positions and times are `real`, standing in for JavaScript doubles.
- The local store is a `map<string, Value>`. Storage failures are explicit
  parameters.
- `Math.random()` results are parameters: a draw per spawn.

## Model

| member | source | states |
|---|---|---|
| `Catalog.FirstMatch` | Source/Flyboy.swiftpm/Resources/levels.js:84 | `find`'s index: the element found has the key and no earlier one does; there is none exactly when no element has the key |
| `Catalog.FirstMatchAt` | Source/Flyboy.swiftpm/Resources/levels.js:139 | an index holding the key with no earlier match is the one `find` stops at |
| `Catalog.Find` | Source/Flyboy.swiftpm/Resources/levels.js:166 | `find` returns an element of the array holding the key, and `undefined` (None) exactly when no element holds it |
| `SaveData.StorageKeysDistinct` | Source/Flyboy/Flyboy/Resources/save-data.js:15-19 | the level-progress and settings keys differ |
| `SaveData.LoadAfterSave` | Source/Flyboy/Flyboy/Resources/save-data.js:57-76 | a successful save is loaded back unchanged, and no other key's load changes |
| `SaveData.LoadAfterRemove` | Source/Flyboy/Flyboy/Resources/save-data.js:85-90 | after a successful remove the key loads as null, and other keys are unchanged |
| `SaveData.KeysDoNotInterfere` | Source/Flyboy/Flyboy/Resources/save-data.js:15-19 | a settings write never changes what a progress read returns, and the reverse, even when the write fails |
| `SaveData.SaveDataManager.constructor` | Source/Flyboy/Flyboy/Resources/save-data.js:13-39 | the manager starts over the store as it finds it; creating it writes nothing |
| `SaveData.SaveDataManager.Save` | Source/Flyboy/Flyboy/Resources/save-data.js:53-63 | on success the key holds the data and no other key appears or disappears; a caught failure leaves the store unchanged |
| `SaveData.SaveDataManager.Load` | Source/Flyboy/Flyboy/Resources/save-data.js:69-79 | returns the stored value; returns nothing for a key never written, for unparsable text and on a caught failure |
| `SaveData.SaveDataManager.Remove` | Source/Flyboy/Flyboy/Resources/save-data.js:85-90 | on success the key is gone; a caught failure leaves the store unchanged |
| `UserSettings.SoundToWrite` | Source/Flyboy/Flyboy/Resources/user-settings.js:43-45 | with nothing stored the written `soundOn` is true whatever the argument; otherwise it is the argument |
| `UserSettings.SoundRead` | Source/Flyboy/Flyboy/Resources/user-settings.js:55-57 | reads the stored `soundOn`, false when nothing is stored |
| `UserSettings.FirstWriteTurnsSoundOn` | Source/Flyboy/Flyboy/Resources/user-settings.js:43-46 | on an empty store a first `addSettings(false)` reads back as sound on; only a second call stores false |
| `UserSettings.SettingsManager.constructor` | Source/Flyboy/Flyboy/Resources/user-settings.js:12-27 | the manager works over the given save-data manager |
| `UserSettings.SettingsManager.AddSettings` | Source/Flyboy/Flyboy/Resources/user-settings.js:40-47 | writes under the settings key only: the record `SoundToWrite` gives, and every other key keeps its value |
| `UserSettings.SettingsManager.GetSettings` | Source/Flyboy/Flyboy/Resources/user-settings.js:53-58 | returns the stored `soundOn`, false when absent or unreadable, and changes nothing |
| `Levels.AddProgressLookup` | Source/Flyboy.swiftpm/Resources/levels.js:84-91 | the call's own record is merged or created; every other id reads the same record as before; the collection grows by one exactly when the id was new, and no other record changes position or value |
| `Levels.SameKeysSameMatch` | Source/Flyboy.swiftpm/Resources/levels.js:84 | two collections with the same ids in the same places find the same record for every id |
| `Levels.AddProgressIdempotent` | Source/Flyboy.swiftpm/Resources/levels.js:84-91 | repeating an identical `addLevelProgress` call leaves the collection unchanged |
| `Levels.AddProgressKeepsIdsUnique` | Source/Flyboy.swiftpm/Resources/levels.js:84-91 | unique ids stay unique |
| `Levels.AddProgressMonotone` | Source/Flyboy.swiftpm/Resources/levels.js:87-89 | an existing record never loses stars, score or its unlock |
| `Levels.ApplyAllFollowsHistory` | Source/Flyboy.swiftpm/Resources/levels.js:84-91 | after any sequence of calls a level's record depends only on the calls for that id |
| `Levels.HistoryKeepsBest` | Source/Flyboy.swiftpm/Resources/levels.js:87-89 | over any sequence of calls the record ends with the best stars and best score it had or was given, stars taken from one of them, and is unlocked iff it was or some call for it passed `unlocked` |
| `Levels.HistoryFromAbsent` | Source/Flyboy.swiftpm/Resources/levels.js:84-91 | a level with no record gets one iff some call names it; it then holds the best stars and best score of the calls for it, each equal to one call's, and is unlocked iff one of them passed `unlocked` |
| `Levels.StarsFor` | Source/Flyboy.swiftpm/Resources/levels.js:112-115 | `getStarsForLevel` is 0 without data or without a record, else the record's stars |
| `Levels.UnlockedFor` | Source/Flyboy.swiftpm/Resources/levels.js:136-140 | `isLevelUnlocked` is true iff data exists, a record exists and it is unlocked |
| `Levels.UnlockIsPermanent` | Source/Flyboy.swiftpm/Resources/levels.js:84-91 | once stored as unlocked a level stays unlocked, and its stars never go down |
| `Levels.Identified` | Source/Flyboy.swiftpm/Resources/levels.js:150-155 | the levels `load` keeps are exactly the object entries with a non-null id, none added |
| `Levels.ProgressAfterAllApplies` | Source/Flyboy.swiftpm/Resources/levels.js:81-92 | without storage failures a run of calls stores the merge of all of them, starting from the stored collection or from an empty one, and leaves every other key unchanged |
| `Levels.LevelManager.constructor` | Source/Flyboy.swiftpm/Resources/levels.js:14-38 | no levels loaded and no level selected |
| `Levels.LevelManager.AddLevelProgress` | Source/Flyboy.swiftpm/Resources/levels.js:74-93 | the store becomes the collection read (empty when absent or unreadable) with the call merged in, written back under the progress key unless the write fails |
| `Levels.LevelManager.Clear` | Source/Flyboy.swiftpm/Resources/levels.js:98-102 | no levels loaded and no level selected |
| `Levels.LevelManager.GetStarsForLevel` | Source/Flyboy.swiftpm/Resources/levels.js:109-116 | returns `StarsFor` of what the progress key loads |
| `Levels.LevelManager.IsLevelUnlocked` | Source/Flyboy.swiftpm/Resources/levels.js:132-141 | returns `UnlockedFor` of what the progress key loads |
| `Levels.LevelManager.Load` | Source/Flyboy.swiftpm/Resources/levels.js:147-157 | the loaded levels are `Identified(raw)` in input order, at most as many as given; the selection is cleared |
| `Levels.LevelManager.SelectLevel` | Source/Flyboy.swiftpm/Resources/levels.js:163-169 | the selection is the first loaded level with the id; an error is reported iff no level has it; the catalog is unchanged |
| `Sprites.MoveLeftIsMonotone` | Source/Flyboy.swiftpm/Resources/enemy.js:120-133 | moving left never increases x, and a sprite past the left edge stays past it |
| `Sprites.MoveRightIsMonotone` | Source/Flyboy.swiftpm/Resources/projectile.js:78-91 | moving right never decreases x, and a sprite past the right edge stays past it |
| `JoystickControl.Clamp` | Source/Flyboy.swiftpm/Resources/joystick.js:45 | the result lies in the range; a value inside is unchanged, and one below or above is moved to the nearer end |
| `JoystickControl.Classify` | Source/Flyboy.swiftpm/Resources/joystick.js:47-50 | up iff the offset is below −10, down iff above 10, idle iff within ±10 |
| `JoystickControl.NarrowRangeStaysIdle` | Source/Flyboy.swiftpm/Resources/joystick.js:45-50 | a drag range of at most 10 can never leave idle |
| `JoystickControl.Joystick.constructor` | Source/Flyboy.swiftpm/Resources/joystick.js:20-41 | starts idle with the stick at the base's centre; centre and drag range come from the base size |
| `JoystickControl.Joystick.Drag` | Source/Flyboy.swiftpm/Resources/joystick.js:43-52 | stick x is the fixed home x; stick y is the clamped drag y, inside the range; the state classifies the offset from the centre |
| `JoystickControl.Joystick.DragEnd` | Source/Flyboy.swiftpm/Resources/joystick.js:54-58 | the stick returns to the centre and the state to idle |
| `PlaneEntity.InvincibilityCoversDuration` | Source/Flyboy.swiftpm/Resources/plane.js:112-113 | from 100 ms on, the blink tween's `repeat + 1` cycles of 100 ms cover the duration to less than one cycle, never longer |
| `PlaneEntity.Plane.constructor` | Source/Flyboy.swiftpm/Resources/plane.js:36-65 | fields copied from the catalog entry; no hits, not invincible, current animation the starting one |
| `PlaneEntity.Plane.SetAnimation` | Source/Flyboy.swiftpm/Resources/plane.js:71-79 | the current animation becomes the name; the sprite plays it iff it differed; nothing else changes |
| `PlaneEntity.Plane.SetPosition` | Source/Flyboy.swiftpm/Resources/plane.js:86-92 | moves the plane and sets the bob base line to the new y |
| `PlaneEntity.Plane.StartBobbing` | Source/Flyboy.swiftpm/Resources/plane.js:95-107 | a bob is running afterwards, and a running one is left alone; nothing else changes |
| `PlaneEntity.Plane.StopBobbing` | Source/Flyboy.swiftpm/Resources/plane.js:128-136 | no bob afterwards; y goes back to the base line only when a bob was running |
| `PlaneEntity.Plane.StartInvincibility` | Source/Flyboy.swiftpm/Resources/plane.js:110-125 | the plane is invincible, with tween repeat count ⌊duration/100⌋ − 1 |
| `PlaneEntity.Plane.StopInvincibility` | Source/Flyboy.swiftpm/Resources/plane.js:139-144 | the plane is no longer invincible; nothing else changes |
| `PlaneEntity.Plane.Update` | Source/Flyboy.swiftpm/Resources/plane.js:151-173 | y is the moved y clamped into [top bound, bottom bound], inside it whenever the bounds are ordered; bobbing iff idle; the base line follows y only when moving; hits and invincibility are untouched |
| `PlaneEntity.Create` | Source/Flyboy.swiftpm/Resources/plane.js:39-42 | a plane exists iff the type is in the catalog, with that name and no hits |
| `HudDisplay.CountFullOfPrefix` | Source/Flyboy/Flyboy/Resources/hud.js:93-107 | a row whose full hearts are exactly those below `left` shows `left` full hearts, cut to 0 and to the row length |
| `HudDisplay.HeartRowFits` | Source/Flyboy/Flyboy/Resources/hud.js:64-69 | with two or more hearts the centres never span more than the available width |
| `HudDisplay.HUD.constructor` | Source/Flyboy/Flyboy/Resources/hud.js:58-85 | exactly `maxNumberOfHits` hearts at evenly spaced x; heart i is full iff i < max − hits |
| `HudDisplay.HUD.UpdateHearts` | Source/Flyboy/Flyboy/Resources/hud.js:89-108 | heart i is full iff i < max − hits, dimmed otherwise; the number of full hearts is max − hits cut to the row; the plane is only read |
| `ShootButtonControl.Tick` | Source/Flyboy/Flyboy/Resources/shoot-button.js:87-90 | fires iff the elapsed time plus delta reaches the cooldown, resetting to 0; otherwise it accumulates and stays below the cooldown |
| `ShootButtonControl.ShotsBounded` | Source/Flyboy/Flyboy/Resources/shoot-button.js:83-98 | holding fires at most one shot per frame, and exactly one per frame when frames last at least a positive cooldown |
| `ShootButtonControl.ShootButton.constructor` | Source/Flyboy/Flyboy/Resources/shoot-button.js:35-40 | not held, elapsed 0, cooldown the plane's shooting rate |
| `ShootButtonControl.ShootButton.PointerDown` | Source/Flyboy/Flyboy/Resources/shoot-button.js:47-61 | a press while not held holds, sets the shooting animation, fires one shot from the plane's nose and sets elapsed to −cooldown/2; a press while held changes nothing |
| `ShootButtonControl.ShootButton.StopShooting` | Source/Flyboy/Flyboy/Resources/shoot-button.js:70-77 | not held afterwards; the idle animation is set only if it was held; calling it again changes nothing |
| `ShootButtonControl.ShootButton.Update` | Source/Flyboy/Flyboy/Resources/shoot-button.js:83-98 | not held: nothing changes and no shot; held: timer and shot follow `Tick`, one shot at most, from the plane's nose |
| `SoundEffects.FindSound` | Source/Flyboy.swiftpm/Resources/enemy.js:49-51 | the effect found has a key containing the word; none exactly when no key contains it |
| `SoundEffects.FoundValue` | Source/Flyboy.swiftpm/Resources/enemy.js:49-51 | `find` yields the element or `undefined`, never `null` |
| `SoundEffects.NullGuardLetsMissThrough` | Source/Flyboy.swiftpm/Resources/enemy.js:69-76 | when no key contains the word, the `!== null` guarded play throws |
| `SoundEffects.NullGuardThrowsWithoutDeathSound` | Source/Flyboy.swiftpm/Resources/enemy.js:69-71 | an enemy whose only sound is keyed "hit" throws when destroyed |
| `SoundEffects.SoundToPlay` | Source/Flyboy.swiftpm/Resources/enemy.js:106-113 | the intended guard: a key is played iff an effect was found, and it is that effect's key |
| `SoundEffects.GuardedSoundPlaysIffPresent` | Source/Flyboy.swiftpm/Resources/enemy.js:69-76 | with the intended guard a sound plays iff some key contains the word, and the key played contains it |
| `SoundEffects.NullGuardAgreesOnHit` | Source/Flyboy.swiftpm/Resources/enemy.js:106-113 | the guard as written and the intended one agree whenever the lookup succeeds |
| `ProjectileEntity.GoneProjectileStaysGone` | Source/Flyboy.swiftpm/Resources/projectile.js:76-93 | a projectile off screen on its own side stays off screen as it flies on |
| `ProjectileEntity.Projectile.constructor` | Source/Flyboy.swiftpm/Resources/projectile.js:56-62 | name, speed and size come from the entry; position and direction are stored unchanged; it flies right iff the direction is `'right'` |
| `ProjectileEntity.Projectile.Destroy` | Source/Flyboy.swiftpm/Resources/projectile.js:66-69 | the sprite is inactive and stays where it was |
| `ProjectileEntity.Projectile.Update` | Source/Flyboy.swiftpm/Resources/projectile.js:88-93 | x moves by speed·delta/1000: right for `'right'`, left for any other direction; y is unchanged |
| `ProjectileEntity.Spawn` | Source/Flyboy.swiftpm/Resources/projectile.js:48-62 | a projectile exists iff the type is in the catalog, at the shot's position and direction |
| `PickupEntity.Pickup.constructor` | Source/Flyboy/Flyboy/Resources/pickup.js:59-63 | name, score, speed and size from the entry, at the given position, active |
| `PickupEntity.Pickup.Destroy` | Source/Flyboy/Flyboy/Resources/pickup.js:69-72 | the sprite is inactive; position, score and name are unchanged |
| `PickupEntity.Pickup.Update` | Source/Flyboy/Flyboy/Resources/pickup.js:87-91 | x decreases by speed·delta/1000; y is unchanged |
| `PickupEntity.Spawn` | Source/Flyboy/Flyboy/Resources/pickup.js:49-63 | a pickup exists iff the type is in the catalog, with the first match's score |
| `EnemyEntity.Enemy.constructor` | Source/Flyboy.swiftpm/Resources/enemy.js:29-62 | no hits; hits allowed and score from the entry; sounds found by key word; a shoot timer iff both `projectile` and `shootingRate` are non-null |
| `EnemyEntity.Enemy.Destroy` | Source/Flyboy.swiftpm/Resources/enemy.js:65-77 | the sprite is inactive; the timer is removed only when passed; the death sound plays iff one was found |
| `EnemyEntity.Enemy.FireProjectile` | Source/Flyboy.swiftpm/Resources/enemy.js:80-114 | an inactive enemy does nothing; an active one plays its shooting animation and fires one left-flying shot from x − displayWidth/2 |
| `EnemyEntity.Enemy.Update` | Source/Flyboy.swiftpm/Resources/enemy.js:129-133 | x decreases by speed·delta/1000; nothing else changes |
| `EnemyEntity.Spawn` | Source/Flyboy.swiftpm/Resources/enemy.js:32-47 | an enemy exists iff the type is in the catalog, with the first match's score and hit limit, no hits, at the given point |
| `EarlyEnemyEntity.EarlyEnemy.constructor` | Source/Flyboy/Flyboy/Resources/enemy.js:75-102 | the same state as the later enemy: no hits, fields from the entry, a timer iff `projectile` and `shootingRate` are non-null |
| `EarlyEnemyEntity.EarlyEnemy.Destroy` | Source/Flyboy/Flyboy/Resources/enemy.js:106-110 | the sprite is inactive and the timer is removed only when passed; no sound |
| `EarlyEnemyEntity.EarlyEnemy.FireProjectile` | Source/Flyboy/Flyboy/Resources/enemy.js:112-139 | no-op on an inactive sprite; otherwise fires left, then the unguarded sound throws iff no "shoot" sound exists |
| `EarlyEnemyEntity.EarlyEnemy.Update` | Source/Flyboy/Flyboy/Resources/enemy.js:154-158 | x decreases by speed·delta/1000 |
| `EarlyEnemyEntity.Spawn` | Source/Flyboy/Flyboy/Resources/enemy.js:59-63 | an enemy exists iff the type is in the catalog; a miss logs and then throws |
| `EntityGroups.DistinctRemove` | Source/Flyboy.swiftpm/Resources/game-scene.js:459 | removing one member keeps the rest distinct and loses only that member |
| `EntityGroups.EnemiesOnScreenKeeps` | Source/Flyboy.swiftpm/Resources/game-scene.js:594-598 | the enemies kept by a pass are distinct members still on screen |
| `EntityGroups.NoActiveEnemies` | Source/Flyboy.swiftpm/Resources/game-scene.js:44 | `countActive(true)` of the enemies is 0 iff none is active |
| `EntityGroups.PickupsOnScreenKeeps` | Source/Flyboy.swiftpm/Resources/game-scene.js:612-616 | the pickups kept by a pass are distinct members still on screen |
| `EntityGroups.NoActivePickups` | Source/Flyboy.swiftpm/Resources/game-scene.js:45 | `countActive(true)` of the pickups is 0 iff none is active |
| `EntityGroups.ProjectilesOnScreenKeeps` | Source/Flyboy.swiftpm/Resources/game-scene.js:641-645 | the projectiles kept by a pass are distinct members still on screen |
| `EntityGroups.EnemyGroup.UpdateMembers` | Source/Flyboy.swiftpm/Resources/game-scene.js:589-599 | every enemy moved left and was destroyed with its timer iff now off screen; the group keeps, in order, exactly those on screen |
| `EntityGroups.MoveEnemies` | Source/Flyboy.swiftpm/Resources/game-scene.js:589-599 | the loop over the enemies: each is stepped once, and those still on screen are collected in order |
| `EntityGroups.MoveEnemy` | Source/Flyboy.swiftpm/Resources/game-scene.js:591-598 | one enemy moved, and destroyed with its timer iff off screen |
| `EntityGroups.PickupGroup.UpdateMembers` | Source/Flyboy.swiftpm/Resources/game-scene.js:607-617 | every pickup moved left and was destroyed iff now off screen; the group keeps, in order, exactly those on screen |
| `EntityGroups.MovePickups` | Source/Flyboy.swiftpm/Resources/game-scene.js:607-617 | the loop over the pickups: each is stepped once, and those still on screen are collected in order |
| `EntityGroups.MovePickup` | Source/Flyboy.swiftpm/Resources/game-scene.js:609-616 | one pickup moved, and destroyed iff off screen |
| `EntityGroups.ProjectileGroup.UpdateMembers` | Source/Flyboy.swiftpm/Resources/game-scene.js:633-646 | every projectile flew in its direction and was destroyed iff now off screen on its side; the group keeps, in order, exactly those on screen |
| `EntityGroups.MoveProjectiles` | Source/Flyboy.swiftpm/Resources/game-scene.js:633-661 | the loop over a projectile group: each is stepped once, and those still on screen are collected in order |
| `EntityGroups.MoveProjectile` | Source/Flyboy.swiftpm/Resources/game-scene.js:640-645 | one projectile flown, and destroyed iff off screen on its side |
| `EntityGroups.EnemyGroup.RemoveAt` | Source/Flyboy.swiftpm/Resources/game-scene.js:504 | the member is removed and the others keep their order |
| `EntityGroups.PickupGroup.RemoveAt` | Source/Flyboy.swiftpm/Resources/game-scene.js:476 | the pickup is removed and the others keep their order |
| `EntityGroups.ProjectileGroup.RemoveAt` | Source/Flyboy.swiftpm/Resources/game-scene.js:498 | the projectile is removed and the others keep their order |
| `EntityGroups.EnemyGroup.Add` | Source/Flyboy.swiftpm/Resources/game-scene.js:532 | the enemy joins at the end and the earlier members are unchanged |
| `EntityGroups.PickupGroup.Add` | Source/Flyboy.swiftpm/Resources/game-scene.js:549 | the pickup joins at the end and the earlier members are unchanged |
| `EntityGroups.ProjectileGroup.Add` | Source/Flyboy/Flyboy/Resources/shoot-button.js:57 | the projectile joins at the end and the earlier members are unchanged |
| `SpawnTimeline.InsertPermutes` | Source/Flyboy.swiftpm/Resources/game-scene.js:96 | one insertion step of the sort adds exactly the one event |
| `SpawnTimeline.InsertKeepsSorted` | Source/Flyboy.swiftpm/Resources/game-scene.js:96 | inserting into a sorted queue keeps it sorted |
| `SpawnTimeline.SortIsSortedPermutation` | Source/Flyboy.swiftpm/Resources/game-scene.js:96-97 | each spawn queue is sorted ascending by `spawnTime` and is a permutation of the level's list |
| `SpawnTimeline.InsertAtTime` | Source/Flyboy.swiftpm/Resources/game-scene.js:96 | among events due at the same time, the inserted one goes first |
| `SpawnTimeline.SortIsStable` | Source/Flyboy.swiftpm/Resources/game-scene.js:96-97 | events with equal `spawnTime` keep the level's order |
| `SpawnTimeline.DueCount` | Source/Flyboy.swiftpm/Resources/game-scene.js:588 | the drain takes a due prefix and stops at the first event not yet due |
| `SpawnTimeline.DrainTakesExactlyDue` | Source/Flyboy.swiftpm/Resources/game-scene.js:588 | on a sorted queue the drained prefix is exactly the events due by `elapsedTime`, and every event left is later |
| `SpawnTimeline.SortedSuffix` | Source/Flyboy.swiftpm/Resources/game-scene.js:524 | shifting events off a sorted queue leaves it sorted |
| `SpawnTimeline.RandomFractionRange` | Source/Flyboy.swiftpm/Resources/game-scene.js:528 | a random spawn fraction is a whole number of hundredths in [0.20, 0.74] |
| `SpawnTimeline.SpawnPoint` | Source/Flyboy.swiftpm/Resources/game-scene.js:525-530 | x is `device.screenHeight` (the landscape right edge); y is `device.screenWidth` × the event's `spawnPosition` when that is not −1 |
| `SpawnTimeline.RandomSpawnHeight` | Source/Flyboy.swiftpm/Resources/game-scene.js:542-547 | a −1 spawn lands between 0.20 and 0.74 times `device.screenWidth` (the landscape height) |
| `GameSession.StarCount` | Source/Flyboy.swiftpm/Resources/game-scene.js:163-167 | at most 3 stars; with ascending thresholds, the stars are the number of thresholds the score reaches |
| `GameSession.StarCountMonotone` | Source/Flyboy.swiftpm/Resources/game-scene.js:163-167 | a higher score never earns fewer stars |
| `GameSession.CompletionRecordsProgress` | Source/Flyboy.swiftpm/Resources/game-scene.js:180-184 | passing with stars unlocks the level with its best stars and a score at least the new one; unlocks the next level when id+1 ≤ levelCount; changes no other record |
| `GameSession.PassedLevelRecord` | Source/Flyboy.swiftpm/Resources/game-scene.js:180 | the first save unlocks the level, keeps its best stars and score, and leaves every other record alone |
| `GameSession.NextLevelRecord` | Source/Flyboy.swiftpm/Resources/game-scene.js:184 | the second save unlocks the next level, keeps its stars, and leaves every other record alone |
| `GameSession.SpawnedOneMore` | Source/Flyboy.swiftpm/Resources/game-scene.js:532-533 | one more spawned enemy extends the spawned prefix by its event |
| `GameSession.PickupSpawnedOneMore` | Source/Flyboy.swiftpm/Resources/game-scene.js:549-550 | one more spawned pickup extends the spawned prefix by its event |
| `GameSession.GameScene.constructor` | Source/Flyboy.swiftpm/Resources/game-scene.js:80-100 | queues are the sorted copies of the level's lists; time, score and completion start at zero/false; empty groups; the plane is placed at the left edge |
| `GameSession.GameScene.UpdateScore` | Source/Flyboy.swiftpm/Resources/game-scene.js:621-626 | the score increases by exactly the amount |
| `GameSession.GameScene.CheckForPlaneDeath` | Source/Flyboy.swiftpm/Resources/game-scene.js:52-64 | dead iff hits equal the maximum, and then the plane shows its death animation |
| `GameSession.GameScene.SpawnEnemy` | Source/Flyboy.swiftpm/Resources/game-scene.js:522-536 | the head event is consumed; an enemy of its type is appended at the spawn point iff the type is in the catalog |
| `GameSession.GameScene.SpawnPickup` | Source/Flyboy.swiftpm/Resources/game-scene.js:539-554 | the head event is consumed; a pickup of its type is appended at the spawn point iff the type is in the catalog |
| `GameSession.GameScene.SpawnNextEnemy` | Source/Flyboy.swiftpm/Resources/game-scene.js:588 | one turn of the enemy drain advances the drained prefix by one, or stops on a catalog miss |
| `GameSession.GameScene.DrainEnemyQueue` | Source/Flyboy.swiftpm/Resources/game-scene.js:588 | the queue loses exactly its due prefix, and one enemy per drained event is appended in order; a catalog miss stops the drain right after the event that caused it |
| `GameSession.GameScene.EnemyDrainSteps` | Source/Flyboy.swiftpm/Resources/game-scene.js:588 | the drain loop stops at the first event not yet due, or right after a catalog miss |
| `GameSession.GameScene.SpawnNextPickup` | Source/Flyboy.swiftpm/Resources/game-scene.js:606 | one turn of the pickup drain advances the drained prefix by one, or stops on a catalog miss |
| `GameSession.GameScene.DrainPickupQueue` | Source/Flyboy.swiftpm/Resources/game-scene.js:606 | the queue loses exactly its due prefix, and one pickup per drained event is appended in order |
| `GameSession.GameScene.PickupDrainSteps` | Source/Flyboy.swiftpm/Resources/game-scene.js:606 | the drain loop stops at the first event not yet due, or right after a catalog miss |
| `GameSession.GameScene.UpdateEnemies` | Source/Flyboy.swiftpm/Resources/game-scene.js:585-600 | the due events leave the queue, whose head is then not yet due, and each spawns one fresh enemy, in queue order; every old enemy moved; the group is exactly, in order, the old and spawned enemies still on screen |
| `GameSession.GameScene.UpdatePickups` | Source/Flyboy.swiftpm/Resources/game-scene.js:603-618 | the due events leave the queue, whose head is then not yet due, and each spawns one fresh pickup, in queue order; every old pickup moved; the group is exactly, in order, the old and spawned pickups still on screen |
| `GameSession.GameScene.UpdateProjectiles` | Source/Flyboy.swiftpm/Resources/game-scene.js:629-662 | both groups flew one frame, and each is exactly, in order, its own old members still on screen |
| `GameSession.GameScene.Launch` | Source/Flyboy.swiftpm/Resources/game-scene.js:104-105 | a projectile for the shot joins the group iff its type is in the projectile catalog |
| `GameSession.GameScene.EnemyProjectileHitsPlane` | Source/Flyboy.swiftpm/Resources/game-scene.js:437-448 | the projectile is destroyed and removed; the plane gains a hit unless invincible; the hearts match the hits; the death check runs |
| `GameSession.GameScene.PlaneHitsEnemy` | Source/Flyboy.swiftpm/Resources/game-scene.js:451-466 | the plane gains a hit unless invincible; the enemy is destroyed with its timer and removed; a missing hit sound throws before the death check and the hearts |
| `GameSession.GameScene.PlaneHitsPickup` | Source/Flyboy.swiftpm/Resources/game-scene.js:469-488 | the pickup is removed and its score added; `heal` takes one hit back, never below 0; `invincible` starts invincibility |
| `GameSession.GameScene.ProjectileHitsEnemy` | Source/Flyboy.swiftpm/Resources/game-scene.js:491-519 | the enemy gains one hit and the projectile is removed; an enemy without a hit sound throws before the kill test; otherwise it is killed iff its hits reach exactly the maximum, and then its score is only queued for when the death effect completes |
| `GameSession.GameScene.DeathEffectCompletes` | Source/Flyboy.swiftpm/Resources/game-scene.js:507-511 | a completed death effect adds the enemy's score |
| `GameSession.GameScene.EnemyTimerFires` | Source/Flyboy.swiftpm/Resources/enemy.js:80-105 | a destroyed enemy's surviving timer does nothing; a live enemy adds one left-flying projectile at its nose to the enemy projectile group iff the projectile type is in the catalog, and plays its shooting sound only if one was found |
| `GameSession.GameScene.ShootButtonPressed` | Source/Flyboy/Flyboy/Resources/shoot-button.js:47-61 | a press while not held adds one right-flying projectile at the plane's nose to the plane's group |
| `GameSession.GameScene.Update` | Source/Flyboy.swiftpm/Resources/game-scene.js:557-571 | time advances by exactly delta; score and hits are untouched; the plane moves as `Plane.Update` says; a held button fires at most one shot, of the plane's projectile type flying right; each group is exactly, in order, its old members plus what the frame spawned or fired, kept while on screen; the level completes on the first frame that finds it complete, and at most once |
| `GameSession.GameScene.UpdateControls` | Source/Flyboy.swiftpm/Resources/game-scene.js:563-564 | the plane moves as `Plane.Update` says and keeps its hits; the plane's group gains exactly the shots the held button fires |
| `GameSession.GameScene.UpdateEntities` | Source/Flyboy.swiftpm/Resources/game-scene.js:563-568 | the controls, then the groups: the plane moves, and each group is exactly, in order, its old members plus what was spawned or fired, kept while on screen; clock and completion are unchanged |
| `GameSession.GameScene.FireHeldButton` | Source/Flyboy.swiftpm/Resources/game-scene.js:564 | a held button's timer follows `Tick`; the plane's group gains exactly the shots fired: one when a held button's tick fires and the catalog has the plane's projectile, of that type and flying right, none otherwise |
| `GameSession.GameScene.UpdateGroups` | Source/Flyboy.swiftpm/Resources/game-scene.js:566-568 | both queues lose exactly their due events and each spawns one fresh entity, in queue order; each group is exactly, in order, its old members plus the spawned ones, kept while on screen; time, score and completion are unchanged |
| `GameSession.GameScene.UpdateEnemiesAndPickups` | Source/Flyboy.swiftpm/Resources/game-scene.js:566-567 | both queues lose exactly their due events and each spawns one fresh entity, in queue order; the enemies and pickups are exactly, in order, the old and spawned ones still on screen |
| `GameSession.GameScene.CompleteLevel` | Source/Flyboy.swiftpm/Resources/game-scene.js:163-185 | the stars follow the ladder; 0 stars saves nothing; otherwise the store receives the level's save and then, if id+1 ≤ levelCount, the next level's unlock |
| `GameSession.LevelCompleteMeans` | Source/Flyboy.swiftpm/Resources/game-scene.js:41-49 | `checkForLevelComplete` holds iff both queues are empty, no enemy or pickup is active, and the plane is not on its death animation |
| `GameSession.PassUnlocksLevels` | Source/Flyboy.swiftpm/Resources/game-scene.js:169-184 | without storage failures, a pass with stars stores this level unlocked with its best stars, and the next level unlocked when the catalog has one |
| `BugReport.TrimStart` | Source/Flyboy.swiftpm/Resources/report-a-bug-page.js:18 | removes exactly a leading run of white space, leaving a suffix that does not start with white space |
| `BugReport.TrimEnd` | Source/Flyboy.swiftpm/Resources/report-a-bug-page.js:18 | removes exactly a trailing run of white space, leaving a prefix that does not end with white space |
| `BugReport.TrimKeepsMiddle` | Source/Flyboy.swiftpm/Resources/report-a-bug-page.js:18 | `trim` keeps a contiguous middle piece and drops only white space around it |
| `BugReport.TrimmedEndsNotWhitespace` | Source/Flyboy.swiftpm/Resources/report-a-bug-page.js:18 | a non-empty trimmed string neither starts nor ends with white space |
| `BugReport.IsStringEmptyIffAllWhitespace` | Source/Flyboy.swiftpm/Resources/report-a-bug-page.js:16-19 | `isStringEmpty` holds iff the string is all white space, the empty string included |
| `BugReport.IsValidEmailMatchesPattern` | Source/Flyboy.swiftpm/Resources/report-a-bug-page.js:22-26 | the matcher accepts exactly the strings the pattern matches: a non-empty name without white space or `@`, one `@`, a domain with a `.` that has such text on both sides |
| `BugReport.AcceptedEmailMatchesPattern` | Source/Flyboy.swiftpm/Resources/report-a-bug-page.js:24-25 | what the matcher accepts matches the pattern |
| `BugReport.PatternEmailAccepted` | Source/Flyboy.swiftpm/Resources/report-a-bug-page.js:24-25 | what the pattern matches, the matcher accepts |
| `BugReport.SubmitBugReport` | Source/Flyboy.swiftpm/Resources/report-a-bug-page.js:95-122 | the title is checked, then the description, then the email, and the first failure decides the message; an issue is filed iff all pass, titled `"[Reported In App] " + title` and labelled `["bug"]` |

## Left out

- Rendering is not modelled: scaling, animation playback, tweens, tints, confetti and the dialogs. The game-scene asset loading (`preload`, `load*`) and `updateBackground` are also left out. These are Phaser plumbing.
- Audio playback is not modelled. What is kept is which key a sound call would play and whether reading it throws. The earlier enemy's shooting sound and the scene's enemy hit-sound reads throw on a miss. The later enemy's death and shooting sounds follow the corrected guard of the Findings row (the lines below name the members this affects). The plane's sound effects, the pickup's `soundEffect` and the background music are left out.
- Physics overlap detection is left out. Each collision callback is a method of `GameScene` called with the colliding members.
- Timers and delayed calls become separate steps: `DeathEffectCompletes` and `EnemyTimerFires`. The delayed part of `gameOver('death')` (game-scene.js:119-139) stops the sounds, pauses the scene and shows the failure dialog; it is not modelled. The 2-second delay of `gameOver('alive')` becomes `CompleteLevel`, called after the frame that finishes the level.
- Randomness, the clock and the screen are parameters: `Math.random()` draws, `delta` and the device screen size.
- `JSON.stringify`/`JSON.parse` are the identity on the stored records. `localStorage` exceptions are boolean parameters, and text that does not parse is the `Unparsable` value.
- The type checks that only log (`typeChecker.check` → `console.error`) are not modelled. Dafny's types enforce the types those checks test.
- Singleton enforcement (`#instance`, `getInstance`) is left out. The managers are explicit objects.
- The `fetch` to the issue tracker, the loading modal and the alerts of the bug-report page are network I/O and UI. `app.coreVersion` and the release date are parameters.
- Numbers are modelled as `real` and `int`, with no floating-point rounding. Scores and stars are integers in the level and catalog data.
- The `currentLevel` getter of levels.js is not modelled. The instance field of the same name shadows it, so its warning never runs.
- `Levels.LevelManager.Load` takes a sequence. Passing something that is not an array makes `for…of` throw, and that case is not modelled.
- Catalog entries are taken to carry explicit `null` for an enemy that does not shoot. A missing field would be `undefined`, which passes the `!== null` test.
- A missing catalog entry throws. Each entity constructor reads a field of the `find` result right away, and reading a field of `undefined` throws. The earlier enemy (Flyboy/Flyboy/Resources/enemy.js:60-61), the pickup (pickup.js:49-50) and the projectile (projectile.js:48-49) first log `dataNotFoundError`. The later enemy (Flyboy.swiftpm/Resources/enemy.js:32-33) logs nothing. The model's `Spawn` returns `None`, and a spawn or launch that hits a missing entry ends the frame (`ok` is false).
- `SpawnTimeline.RandomFractionRange` states the range of the expression at game-scene.js:527 as written. The expression looks written for [0.2, 0.75), but `Math.floor(… * 100) / 100` truncates to hundredths, so a random height fraction lies in [0.20, 0.74].
- A spawn that throws has already shifted its event off the queue, so the event is lost. `SpawnEnemy` and `SpawnPickup` model this.
- `EntityGroups.EnemyGroup.UpdateMembers`, `EntityGroups.PickupGroup.UpdateMembers`, `EntityGroups.ProjectileGroup.UpdateMembers`, `EntityGroups.MoveEnemies`, `EntityGroups.MovePickups`, `EntityGroups.MoveProjectiles`, `GameSession.GameScene.UpdateEnemies`, `GameSession.GameScene.UpdatePickups`, `GameSession.GameScene.UpdateProjectiles`, `GameSession.GameScene.UpdateEnemiesAndPickups`, `GameSession.GameScene.UpdateGroups`, `GameSession.GameScene.UpdateEntities` and `GameSession.GameScene.Update` move every member once per frame. Phaser's `Actions.Call` walks the live children array while members are removed, so the member right after a removed one is skipped that frame. This model does not capture Phaser's iteration.
- `EnemyEntity.Enemy.Destroy` uses the corrected death-sound guard (`SoundEffects.SoundToPlay`): with no death sound it plays nothing and succeeds. As written, the `!== null` guard at enemy.js:69 lets `undefined` through, and line 71 throws (`SoundEffects.NullGuardThrowsWithoutDeathSound`).
- `EnemyEntity.Enemy.FireProjectile` uses the corrected shooting-sound guard: with no shooting sound it fires and succeeds. As written, enemy.js:108 throws after the projectile is added.
- `EntityGroups.MoveEnemy` destroys an off-screen enemy through the corrected `Destroy`. As written, an enemy with no death sound throws at game-scene.js:596.
- `EntityGroups.MoveEnemies` and `EntityGroups.EnemyGroup.UpdateMembers` go on past an off-screen enemy with no death sound. As written, that throw ends the pass and the frame.
- `GameSession.GameScene.UpdateEnemies` has no failure from a death sound. Its `ok` is false only for a catalog miss in the drain, while as written game-scene.js:596 can also throw.
- `GameSession.GameScene.UpdateEnemiesAndPickups`, `GameSession.GameScene.UpdateGroups`, `GameSession.GameScene.UpdateEntities` and `GameSession.GameScene.Update` inherit that gap from `UpdateEnemies`: a frame that would throw on an off-screen enemy's missing death sound completes in the model.
- `GameSession.GameScene.PlaneHitsEnemy` stops on a missing hit sound but not on a missing death sound. As written, `destroy` at game-scene.js:458 throws first, before the `remove` at 459, the hit sound at 462, `checkForPlaneDeath` at 463 and `updateHearts` at 464.
- `GameSession.GameScene.ProjectileHitsEnemy` still removes a killed enemy and queues its score when it has no death sound. As written, `destroy` at game-scene.js:503 throws before the `remove` at 504 and the score at 506-511.
- `GameSession.GameScene.EnemyTimerFires` returns the shooting sound the corrected guard gives. As written, a live enemy with no shooting sound throws at enemy.js:108, after the projectile has been added.
- `GameSession.GameScene.EnemyProjectileHitsPlane` destroys and removes the projectile. The source names the callback's arguments `(projectileSprite, planeSprite)` and destroys `planeSprite`. Phaser passes the sprite-versus-group pair in swapped order, so that argument is in fact the projectile. Phaser's argument order is not part of this model.
- `GameSession.GameScene.ShootButtonPressed` sets the timer to −cooldown/2 even when the plane's projectile type is missing from the catalog. In the source the throw at shoot-button.js:55 happens before line 59 resets `elapsed`.
- `GameSession.GameScene.CheckForPlaneDeath` does not model the hit sound, the red tint or `gameOver('death')`'s delayed sound, dialog and pause. Of `gameOver('death')` it keeps only the death animation.
- A projectile kill leaves the enemy's shoot timer running: `destroy()` is called without `shootTimer`. `EnemyTimerFires` then does nothing, because the sprite is inactive.
- `PlaneEntity.InvincibilityCoversDuration` holds only from 100 ms on. For a shorter duration plane.js:113 computes a repeat count of −1 (less for a negative one), which Phaser reads as repeating forever, so the `onComplete` at plane.js:121 never calls `stopInvincibility` and the plane stays invincible.
- `GameSession.GameScene.CompleteLevel` can be called whatever happens after the finishing frame. `checkForLevelComplete` ignores enemy projectiles still in flight (game-scene.js:41-49), so one can kill the plane during the 2-second delay. Then `gameOver('death')` pauses the scene (game-scene.js:136), the delayed save of `gameOver('alive')` (game-scene.js:145-185) never runs and nothing is saved; the model does not rule that call out.
- `PlaneEntity.Plane.Update` keeps a quirk of the code. On the first frame of a move the running bob is stopped after the step, so y returns to the base line and that frame's step is lost.
- `Projectile.fliesRight` is the `direction === 'right'` test, done once at construction. The source repeats the test every frame on the unchanged `direction`.
- `EarlyEnemyEntity.Spawn` does not model the field type checks of the earlier enemy (enemy.js:63-73). They only log.
- `HudDisplay.HUD.constructor` keeps only the hearts' x positions and state. Their size, y and the pause button and score text layout are geometry.

## Findings

| source | as written | input that shows it | evidently intended | confidence | as-written member | corrected member |
|---|---|---|---|---|---|---|
| Source/Flyboy.swiftpm/Resources/enemy.js:69-76 | `if(this.deathSoundEffect !== null)` guards `sound.play(this.deathSoundEffect.key, …)`, but `deathSoundEffect` comes from `Array.prototype.find`, which yields `undefined` on a miss, never `null`; the same guard is at lines 106-113 for the shooting sound | an enemy whose `soundEffects` is `[{ key: "hit", … }]`, destroyed: the guard passes and reading `.key` of `undefined` throws | play the sound only when one was found (`if (this.deathSoundEffect)`), otherwise play nothing | not executed | `SoundEffects.NullGuardThrowsWithoutDeathSound` | `SoundEffects.GuardedSoundPlaysIffPresent` |
