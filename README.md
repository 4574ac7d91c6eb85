# Starfighter combat AI, controller handoff and player cache — a Dafny model

This project models three sequential, state-keeping parts of the Ion game-server plugin:

- **The AI starfighter combat controller** (`StarfighterCombatController`). Each tick it
  re-checks its target through a decision ladder over world identity, aggressiveness and
  distance. It then either disengages or sets its state (`COMBAT` or `FOCUS_LOCATION`) and
  runs exactly one loop. The navigation loop closes in on the location objective. The combat
  loop holds a standoff point on one of the four cardinal axes around the target and fires.
  Disengaging either retargets onto the first non-AI ship in range or falls back to the
  previous controller.
- **The combat-mode handoff** (`CombatModeModule`). On the first accepted nearby target it
  installs a new combat controller in the ship's single controller slot. That controller
  remembers the controller it replaced; its `fallback` puts it back.
- **The player metadata cache** (`AbstractPlayerCache`). It is a UUID-keyed table of
  `PlayerData` records. Login, quit, the player change stream and role changes update it in
  place.

Files:

- `wrappers.dfy`: `Option`, `Result` and `Outcome`.
- `vectors.dfy`: a real-valued 3D vector, standing in for the engine's vector type.
- `starfighter_combat.dfy`: the controller.
  - Standoff distance, closest axis point, the target assessment `Assess`, and the commands
    each loop issues, all as functions.
  - `Starship`, which holds the controller slot, and `StarfighterCombatController`, whose
    methods update `state`, `locationObjective`, `target`, the ship's slot and the list of
    issued commands.
- `combat_mode.dfy`: the combat-mode module and the switch-then-fallback round trip.
- `player_cache.dfy`: entries as values, the `PlayerData` and `PlayerCache` classes, and
  lemmas about loading and retagging.

Modelling choices:

- Distances are `real`.
  - The target check takes the ship-to-target distance as a parameter.
  - The navigation loop's "distance ≥ 500" becomes "squared distance ≥ 500²". This is exact
    for a Euclidean distance.
  - The closest axis point compares squared distances, which gives the same minimiser and the
    same ties.
- Commands to the host engine are not executed. Each tick appends them to the controller's
  `intents`, in the order the loop issues them:
  - combat loop (`CombatIntents`): face, shift-fly, stop cruising, shoot twice (one per trigger);
  - navigation loop (`NavigationIntents`): lift the speed cap, start or stop cruising, shift-fly.
- The cardinal directions are north (0,0,−1), east (1,0,0), south (0,0,1) and west (−1,0,0),
  in that order. The definition of the direction list is not part of this model.
- An aggressiveness level is its ordinal plus its engagement distance. The enum is not part
  of this model. Its ordinal for HIGH is an assumption (`HighOrdinal`, taken as 2). The code
  only compares a level's ordinal with HIGH's (`ordinal >= HighOrdinal`), and each level's own
  ordinal is a free parameter.

Notes on the code's behaviour:

- The out-of-range test (StarfighterCombatController.kt:96) comes before the 500..1500 band
  (:109). So a controller that does not pursue and is beyond its engagement distance
  disengages even inside the band (`OutOfRangePrecedesBand`).
- Nothing guards against a ship without shields or a zero mean shield ratio (:41, :64). The
  standoff distance is only defined for a positive mean ratio (`StandoffDefined`).
- `findNextTarget` returns the first eligible ship in the order of the spatial query (:144),
  not the nearest one.

## Model

| member | source | states |
|---|---|---|
| `StarfighterCombat.AverageHealth` | server/src/main/kotlin/net/horizonsend/ion/server/features/starship/control/controllers/ai/StarfighterCombatController.kt:39-41 | The mean shield ratio times the shield count is the sum of the ratios; the standoff distance is defined exactly when this mean is positive |
| `StarfighterCombat.StandoffForAverage` | server/src/main/kotlin/net/horizonsend/ion/server/features/starship/control/controllers/ai/StarfighterCombatController.kt:59-65 | The standoff distance for mean ratio avg is 25 + 10/avg and strictly above 25 |
| `StarfighterCombat.StandoffDistance` | server/src/main/kotlin/net/horizonsend/ion/server/features/starship/control/controllers/ai/StarfighterCombatController.kt:59-65 | For any shield set with a positive mean ratio, the standoff distance exceeds the 25-block minimum |
| `StarfighterCombat.StandoffStrictlyDecreasing` | server/src/main/kotlin/net/horizonsend/ion/server/features/starship/control/controllers/ai/StarfighterCombatController.kt:59-65 | Healthier shields (larger mean ratio) give a strictly smaller standoff distance |
| `StarfighterCombat.StandoffExamples` | server/src/main/kotlin/net/horizonsend/ion/server/features/starship/control/controllers/ai/StarfighterCombatController.kt:59-65 | Mean ratio 1 gives 35, mean ratio 0.1 gives 125 |
| `StarfighterCombat.SumOfRatios` | server/src/main/kotlin/net/horizonsend/ion/server/features/starship/control/controllers/ai/StarfighterCombatController.kt:41 | When every ratio lies in (0, 1], their sum lies in [0, n], and it is positive when there is at least one shield |
| `StarfighterCombat.ShieldRatiosBoundStandoff` | server/src/main/kotlin/net/horizonsend/ion/server/features/starship/control/controllers/ai/StarfighterCombatController.kt:59-65 | With at least one shield and all ratios in (0, 1], the mean lies in (0, 1] and the standoff distance is at least 35 |
| `StarfighterCombat.CardinalDirections` | server/src/main/kotlin/net/horizonsend/ion/server/features/starship/control/controllers/ai/StarfighterCombatController.kt:168 | Exactly four directions to offset the target by |
| `StarfighterCombat.CardinalDirectionsHorizontalUnit` | server/src/main/kotlin/net/horizonsend/ion/server/features/starship/control/controllers/ai/StarfighterCombatController.kt:168 | The four directions are distinct horizontal unit vectors, each along the x or the z axis |
| `StarfighterCombat.AxisPoints` | server/src/main/kotlin/net/horizonsend/ion/server/features/starship/control/controllers/ai/StarfighterCombatController.kt:164-169 | Exactly four candidate points, the target shifted by the standoff distance along each cardinal direction (positions on the ring are stated by `AxisPointsOnRing`) |
| `StarfighterCombat.FirstMinIndex` | server/src/main/kotlin/net/horizonsend/ion/server/features/starship/control/controllers/ai/StarfighterCombatController.kt:171 | The chosen index holds a smallest key, and every earlier key is strictly larger (first minimum, as `minBy` picks it) |
| `StarfighterCombat.ClosestAxisIndex` | server/src/main/kotlin/net/horizonsend/ion/server/features/starship/control/controllers/ai/StarfighterCombatController.kt:164-172 | The chosen candidate is no farther from the ship than any of the four, and every earlier candidate is strictly farther |
| `StarfighterCombat.ClosestAxisPoint` | server/src/main/kotlin/net/horizonsend/ion/server/features/starship/control/controllers/ai/StarfighterCombatController.kt:164-172 | The point is one of the four target + standoff·direction candidates, and no candidate is strictly closer to the ship |
| `StarfighterCombat.AxisPointsOnRing` | server/src/main/kotlin/net/horizonsend/ion/server/features/starship/control/controllers/ai/StarfighterCombatController.kt:168-169 | Every candidate is level with the target at exactly the standoff distance from it |
| `StarfighterCombat.AxisOffsetIsCardinal` | server/src/main/kotlin/net/horizonsend/ion/server/features/starship/control/controllers/ai/StarfighterCombatController.kt:154-161 | The vector from the chosen point to the target is minus the standoff distance times one cardinal direction |
| `StarfighterCombat.Assess` | server/src/main/kotlin/net/horizonsend/ion/server/features/starship/control/controllers/ai/StarfighterCombatController.kt:72-122 | Cross-world: the target is lost iff no planet is cached or the level does not pursue; otherwise the objective is the planet. Same world: lost iff out of range and not pursuing; a pursuit targets the target's position; fighting iff in range and outside the inclusive 500..1500 band |
| `StarfighterCombat.OutOfRangePrecedesBand` | server/src/main/kotlin/net/horizonsend/ion/server/features/starship/control/controllers/ai/StarfighterCombatController.kt:94-113 | A distance beyond the engagement range is handled by the out-of-range branch even when it lies in the 500..1500 band |
| `StarfighterCombat.ApproachBandExample` | server/src/main/kotlin/net/horizonsend/ion/server/features/starship/control/controllers/ai/StarfighterCombatController.kt:108-113 | Engagement distance 600 at distance 550 closes in on the target instead of fighting |
| `StarfighterCombat.NavigationIntents` | server/src/main/kotlin/net/horizonsend/ion/server/features/starship/control/controllers/ai/StarfighterCombatController.kt:214-235 | The navigation commands in issue order: lift the speed cap, start cruising towards a far objective or stop cruising near one, shift-fly to the objective (properties in `NavigationIntentsFacts`) |
| `StarfighterCombat.CombatIntents` | server/src/main/kotlin/net/horizonsend/ion/server/features/starship/control/controllers/ai/StarfighterCombatController.kt:197-211 | The combat commands in issue order: face along the axis, shift-fly to the closest axis point, stop cruising, shoot with each trigger (properties in `CombatIntentsFacts`) |
| `StarfighterCombat.NavigationIntentsFacts` | server/src/main/kotlin/net/horizonsend/ion/server/features/starship/control/controllers/ai/StarfighterCombatController.kt:214-235 | Navigation never fires or turns, ends by shift-flying to the objective, starts cruising iff the objective is at least 500 away, and stops cruising otherwise |
| `StarfighterCombat.CombatIntentsFacts` | server/src/main/kotlin/net/horizonsend/ion/server/features/starship/control/controllers/ai/StarfighterCombatController.kt:197-211 | Combat shift-flies to an axis point in the ship's own world at the standoff distance from the target, never cruises, and fires both triggers at the target |
| `StarfighterCombat.NextTarget` | server/src/main/kotlin/net/horizonsend/ion/server/features/starship/control/controllers/ai/StarfighterCombatController.kt:137-145 | None iff no sighted ship is within 0..engagement distance with a non-AI controller; otherwise the first such ship in query order |
| `StarfighterCombat.StarfighterCombatController.constructor` | server/src/main/kotlin/net/horizonsend/ion/server/features/starship/control/controllers/ai/StarfighterCombatController.kt:29-47 | A new controller starts in `FOCUS_LOCATION` with the target's position as its objective and keeps the previous controller it was given |
| `StarfighterCombat.StarfighterCombatController.CheckOnTarget` | server/src/main/kotlin/net/horizonsend/ion/server/features/starship/control/controllers/ai/StarfighterCombatController.kt:72-122 | Returns false exactly when `Assess` says lost, and then leaves state and objective unchanged; a pursuit sets `FOCUS_LOCATION` and the assessed objective; fighting sets `COMBAT` and keeps the objective |
| `StarfighterCombat.StarfighterCombatController.Fallback` | server/src/main/kotlin/net/horizonsend/ion/server/features/starship/control/controllers/ai/StarfighterCombatController.kt:148-151 | The ship's controller slot holds exactly the previous controller, whatever it held before |
| `StarfighterCombat.StarfighterCombatController.Disengage` | server/src/main/kotlin/net/horizonsend/ion/server/features/starship/control/controllers/ai/StarfighterCombatController.kt:124-135 | A pursuing controller with a next target retargets and leaves the slot alone; in every other case the target is kept and the slot gets the previous controller |
| `StarfighterCombat.StarfighterCombatController.GetImmediateLocation` | server/src/main/kotlin/net/horizonsend/ion/server/features/starship/control/controllers/ai/StarfighterCombatController.kt:154-161 | The objective becomes the closest axis point in the ship's world; the result is target centre minus that point |
| `StarfighterCombat.StarfighterCombatController.CombatLoop` | server/src/main/kotlin/net/horizonsend/ion/server/features/starship/control/controllers/ai/StarfighterCombatController.kt:197-211 | The objective becomes the closest axis point and exactly the combat commands are appended |
| `StarfighterCombat.StarfighterCombatController.NavigationLoop` | server/src/main/kotlin/net/horizonsend/ion/server/features/starship/control/controllers/ai/StarfighterCombatController.kt:214-235 | Exactly the navigation commands for the current position and objective are appended |
| `StarfighterCombat.StarfighterCombatController.Tick` | server/src/main/kotlin/net/horizonsend/ion/server/features/starship/control/controllers/ai/StarfighterCombatController.kt:183-195 | A lost target only disengages (no state, objective or command change); otherwise target and slot are kept and exactly the loop the new state selects runs |
| `CombatMode.FirstTarget` | server/src/main/kotlin/net/horizonsend/ion/server/features/starship/active/ai/module/misc/CombatModeModule.kt:18 | None iff no sighting lies within 0..minRange and passes the filter; otherwise the first one that does |
| `CombatMode.CombatModeModule.constructor` | server/src/main/kotlin/net/horizonsend/ion/server/features/starship/active/ai/module/misc/CombatModeModule.kt:11-16 | The module holds exactly the owning controller, ship, combat level, range and filter it is built with |
| `CombatMode.CombatModeModule.SwitchToCombatMode` | server/src/main/kotlin/net/horizonsend/ion/server/features/starship/active/ai/module/misc/CombatModeModule.kt:23-35 | The slot holds a fresh combat controller for the target whose previous controller is the module's controller, with pilot name and both weapon-set lists carried over |
| `CombatMode.CombatModeModule.Tick` | server/src/main/kotlin/net/horizonsend/ion/server/features/starship/active/ai/module/misc/CombatModeModule.kt:17-21 | With no target the slot is unchanged; otherwise the slot holds a fresh controller for this ship at the module's combat level, engaging the first target in `FOCUS_LOCATION` with no commands yet, recording the module's controller and carrying its pilot name and weapon sets |
| `CombatMode.SwitchThenFallback` | server/src/main/kotlin/net/horizonsend/ion/server/features/starship/active/ai/module/misc/CombatModeModule.kt:23-35 | A switch followed by the new controller's fallback leaves the module's controller in the slot, whatever the slot held before; so when that controller was active, the slot is restored |
| `NationsPlayerCache.NewEntry` | common/src/main/kotlin/net/horizonsend/ion/common/database/cache/nations/PlayerCache.kt:107-124 | The entry carries the record's settlement and nation; a tag is looked up only for a membership and is null otherwise |
| `NationsPlayerCache.WithSettlement` | common/src/main/kotlin/net/horizonsend/ion/common/database/cache/nations/PlayerCache.kt:57-66 | New settlement, null settlement tag, nation fields untouched, tag consistency kept |
| `NationsPlayerCache.WithNation` | common/src/main/kotlin/net/horizonsend/ion/common/database/cache/nations/PlayerCache.kt:68-77 | New nation, null nation tag, settlement fields untouched, tag consistency kept |
| `NationsPlayerCache.Retagged` | common/src/main/kotlin/net/horizonsend/ion/common/database/cache/nations/PlayerCache.kt:84-88 | Oids and id unchanged; a tag is refreshed exactly when its oid is set; tag consistency kept |
| `NationsPlayerCache.RetaggedAll` | common/src/main/kotlin/net/horizonsend/ion/common/database/cache/nations/PlayerCache.kt:83-89 | Same key set, every entry retagged |
| `NationsPlayerCache.CachedRecords` | common/src/main/kotlin/net/horizonsend/ion/common/database/cache/nations/PlayerCache.kt:45-51 | The table caching the records one after another builds, later records of a player overwriting earlier ones (keys and entries stated by `CachedRecordsKeys` and `CachedRecordsLastWins`) |
| `NationsPlayerCache.CachedRecordsKeys` | common/src/main/kotlin/net/horizonsend/ion/common/database/cache/nations/PlayerCache.kt:45-51 | After loading, the keys are exactly the UUIDs of the loaded records, each entry under its own UUID with consistent tags |
| `NationsPlayerCache.CachedRecordsLastWins` | common/src/main/kotlin/net/horizonsend/ion/common/database/cache/nations/PlayerCache.kt:48-51 | A player's entry after loading is the one built from that player's last record |
| `NationsPlayerCache.PlayerData.constructor` | common/src/main/kotlin/net/horizonsend/ion/common/database/cache/nations/PlayerCache.kt:14-20 | A new record holds exactly the given values |
| `NationsPlayerCache.PlayerData.Retag` | common/src/main/kotlin/net/horizonsend/ion/common/database/cache/nations/PlayerCache.kt:86-87 | The record becomes its retagged value |
| `NationsPlayerCache.PlayerCache.constructor` | common/src/main/kotlin/net/horizonsend/ion/common/database/cache/nations/PlayerCache.kt:22 | The table starts empty and valid |
| `NationsPlayerCache.PlayerCache.Cache` | common/src/main/kotlin/net/horizonsend/ion/common/database/cache/nations/PlayerCache.kt:107-124 | The table maps id.uuid to a fresh record equal to the new entry, overwriting any previous one; other keys keep their records |
| `NationsPlayerCache.PlayerCache.CallOnPreLogin` | common/src/main/kotlin/net/horizonsend/ion/common/database/cache/nations/PlayerCache.kt:28-30 | A missing stored record fails and changes nothing; otherwise the record is cached under the player's UUID |
| `NationsPlayerCache.PlayerCache.CallOnLoginLow` | common/src/main/kotlin/net/horizonsend/ion/common/database/cache/nations/PlayerCache.kt:35-39 | Kicks iff the UUID is not cached; changes nothing |
| `NationsPlayerCache.PlayerCache.CallOnQuit` | common/src/main/kotlin/net/horizonsend/ion/common/database/cache/nations/PlayerCache.kt:41-43 | Exactly the quitting player's key is removed; every other entry is unchanged |
| `NationsPlayerCache.PlayerCache.Get` | common/src/main/kotlin/net/horizonsend/ion/common/database/cache/nations/PlayerCache.kt:125-126 | Succeeds with the stored record iff the UUID is cached, otherwise fails with "not cached" |
| `NationsPlayerCache.PlayerCache.GetById` | common/src/main/kotlin/net/horizonsend/ion/common/database/cache/nations/PlayerCache.kt:128-129 | Agrees with the UUID lookup on the id's UUID |
| `NationsPlayerCache.PlayerCache.OnSettlementChange` | common/src/main/kotlin/net/horizonsend/ion/common/database/cache/nations/PlayerCache.kt:57-66 | For a cached player only that entry changes, by `WithSettlement`; for an uncached player nothing changes |
| `NationsPlayerCache.PlayerCache.OnNationChange` | common/src/main/kotlin/net/horizonsend/ion/common/database/cache/nations/PlayerCache.kt:68-77 | For a cached player only that entry changes, by `WithNation`; for an uncached player nothing changes |
| `NationsPlayerCache.PlayerCache.OnPlayerUpdate` | common/src/main/kotlin/net/horizonsend/ion/common/database/cache/nations/PlayerCache.kt:54-78 | Applies the settlement field, then the nation field, each only when present in the update, to a cached player only |
| `NationsPlayerCache.PlayerCache.RecalculateTags` | common/src/main/kotlin/net/horizonsend/ion/common/database/cache/nations/PlayerCache.kt:83-89 | The same records stay under the same keys and the contents become `RetaggedAll` of the old contents |
| `NationsPlayerCache.PlayerCache.OnRoleEvent` | common/src/main/kotlin/net/horizonsend/ion/common/database/cache/nations/PlayerCache.kt:91-101 | A role update touching members, or a role deletion, retags everything; any other role update changes nothing |
| `NationsPlayerCache.PlayerCache.Load` | common/src/main/kotlin/net/horizonsend/ion/common/database/cache/nations/PlayerCache.kt:45-51 | After emptying the table, the contents are those of caching the records in order, and the keys are exactly their UUIDs |

## Left out

- Scheduling and locking are modelled as plain sequential calls. This covers `Tasks.async`/`Tasks.sync`, `ConcurrentHashMap`, `synchronized(mutex)` and `synced {}`. Stale asynchronous writes are therefore not modelled.
- Host-engine effects are recorded as intents and not carried out. These are `faceDirection`, `shiftFlyToLocation`, `shootInDirection`, start/stop cruising and `speedLimit = -1`. `vectorToBlockFace` is not modelled: the face intent carries the direction vector.
- The spatial queries `getNearbyShips` and `getNearbyTargetsInRadius` are inputs. Each is a sequence of sightings in query order, with distances. The range [min, max] is taken as inclusive.
- The planet world cache is an input map. A planet whose space world is unloaded makes `planet.spaceWorld!!` throw. The model assumes the space world is loaded.
- `getCenter()` is taken to be the ship's centre of mass.
- StarfighterCombatController.CheckOnTarget: the distance is a parameter and is not tied to the two positions.
- Zero shields, or a zero mean shield ratio, give NaN or infinity in the source. These cases are excluded by `StandoffDefined` and are not modelled. IEEE double rounding is replaced by exact reals.
- Text is not modelled: `pilotName` formatting with " [AGGRESSIVE]", `getDisplayName` and components.
- The controller factory (`AIControllerFactory.createController`) is not part of this model.
  - It is modelled as building a starfighter combat controller at a fixed level.
  - The new controller keeps the pilot name and weapon sets it is passed.
  - The `null` destination argument is dropped.
- `AITarget` is modelled as the targeted `Starship`. How the factory turns an `AITarget` into the controller's `ActiveStarship` target is not shown.
- Controller kinds other than the starfighter combat controller are opaque values. Each has a name, an AI flag, a pilot name and weapon sets.
- Database access is replaced by inputs and parameters.
  - `SLPlayer[uuid]` and `SLPlayer.find` are inputs.
  - `SettlementRole.getTag` and `NationRole.getTag` are function parameters.
  - `onlinePlayerIds()` is folded into the records that `Load` receives.
  - The `watchUpdates`/`watchDeletes` subscriptions are replaced by the handler methods they would call.
- `kickUUID` is not performed. `CallOnLoginLow` returns whether to kick.
- Aliasing of `PlayerData` objects held by callers after `get` is not tracked beyond the table's own invariant.
- `CombatNPCs.kt` (event glue for combat NPCs) and `ExplorerConvoySpawner.kt` (weighted-random template choice) are not part of this model.
