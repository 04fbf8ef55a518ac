# Starfall game rules in Dafny

This project models the rule layer of the Starfall space game. It covers the
game-play bookkeeping in `assets/js/game.module.js` and the module and
research tree in `assets/js/module-tech.js`. Rendering and physics are not
part of it. The modelled rules are:

- the player's ship: resource gauges, damage with shield absorption, rocket
  stages with timed fuel boosts, and the landing state machine;
- the enemy bots and the mega ship: spawn scaling, cooldowns, shields and
  health;
- the colossal derelict: keeping the ship inside it and its loot chests;
- missions and the one-shot achievement and mission rewards;
- the world's bookkeeping:
  - the bounded event journal;
  - once-per-sector feature gating;
  - paired jump gates and artifact pickup;
  - the territory recount;
  - civilization assaults, empire power, the rival search, the galactic
    leaderboard and the raid tier;
- the shop:
  - upgrade, dynamic and skin prices;
  - crafting and mineral sales;
  - the station items a planet base adds;
  - `buyItem` with its ladder of refusals and per-item effects, and
    `buyUpgrade`;
- ship modules and the research tree;
- the save-game codec, on in-memory records.

The layout follows the source:

| file | module | what it holds |
|---|---|---|
| `numeric.dfy` | `Numeric` | JavaScript coercions, `Math.ceil`, `clamp`, vectors |
| `civ.dfy` | `Civilization` | planets, civilizations and the empire rules |
| `ship.dfy` | `ShipModel` | class `Ship` |
| `combat.dfy` | `Combat` | classes `EnemyBot` and `MegaShip` |
| `missions.dfy` | `Missions` | class `Mission` |
| `world.dfy` | `World` | class `GameWorld` and class `JumpGate` |
| `derelict.dfy` | `Derelict` | classes `ColossalDerelict` and `Chest` |
| `shop.dfy` | `Shop` | the shop, written as methods over a `GameWorld` and a `Ship` |
| `tech.dfy` | `Tech` | `module-tech.js` |
| `persistence.dfy` | `Persistence` | the save codec |

Where the source changes objects in place, the model does too. The ship, the
enemies, missions, gates, chests and the world are classes whose methods
modify their fields. Planets are values held in the world's `planets`
sequence, which the methods reassign.

Each method is proved against pure functions, and the game's promises are
proved as lemmas about those functions. For example:

- `AssaultOutcome` specifies `ResolveCivAssault`.
- `Verdict` (built on `RefusalFor`) and `PlanetAfter` specify `BuyItem`.
- `ModuleEffect` and `TechEffect` specify `BuyModule` and `ResearchTech`.
- `RestorePlanet` and `LoadShip` specify the loaders.

Inputs the model does not compute are method parameters:

- `Date.now()` is `now`;
- `Math.random()` draws are `roll`, `failRoll`, the `Draws` record and the
  reward seeds;
- distances and speeds are `dists` and `speed`;
- the clock text of journal entries is `stamp`;
- the key held at takeoff is `takeoff`.

JavaScript numbers are `real`. Whole-number counters such as score, minerals
and upgrade points are `int`. A value that may be missing or non-numeric in a
save is an `Option`. `Number(v) || d` treats both `NaN` and `0` as falsy, and
`Numeric.OrElse` models that rule.

A failed assault does not always lower the defender's stability: it sets it
to `max(12, (s || 50) - k)`. A stability at or below 12 therefore does not
drop, and a stability of exactly 0 rises to between 39 and 46.
`Civilization.RepelledStability` proves all three cases.

The bob of an artifact, `Math.sin(age * 0.003) * 4`, is the input curve
`wave`, since the sine is not modelled; the pickup distance is measured from
the lifted mesh point (`World.MeshPoint`), as `Artifact.update` places it.

## Model

| member | source | states |
|---|---|---|
| Numeric.Ceil | assets/js/game.module.js:2424 | `Math.ceil`: the result is the least whole number at or above `x` |
| Numeric.OrElse | assets/js/game.module.js:314-343 | `Number(v) \|\| d`: a missing or zero value gives the default; any other value is kept |
| Numeric.Or | assets/js/game.module.js:3972 | `x \|\| d` on a number: only zero falls back on the default |
| Numeric.OrInt | assets/js/game.module.js:4001 | `x \|\| d` on a whole number: only zero falls back on the default |
| Numeric.NonNegFloor | assets/js/game.module.js:198-202 | `Math.max(0, Math.floor(Number(v) \|\| 0))`: never negative; the floor of a non-negative value, 0 for a negative one |
| Numeric.Clamp | assets/js/game.module.js:24-28 | `clamp`: a non-finite value gives `min`; otherwise the result lies in `[min, max]`; an in-range value is kept, one below gives `min`, one above gives `max` |
| Civilization.PlanetById | assets/js/game.module.js:371 | `planets.find` by id: `None` exactly when no planet carries the id; otherwise a planet of the list carrying it |
| Civilization.EmpirePower | assets/js/game.module.js:3927-3935 | empire power is 0 for an owner with no founded planet; non-negative over bounded civilizations; positive once the owner holds one |
| Civilization.EmpirePowerAppend | assets/js/game.module.js:3927-3935 | empire power adds up over a split of the planet list |
| Civilization.ZeroStabilityCountsAsFifty | assets/js/game.module.js:3932-3972 | `(stability \|\| 50)` reads a stability of 0 as 50, in empire power and in defender power |
| Civilization.DefenderPowerPositive | assets/js/game.module.js:3972 | a bounded defender has positive power: its tiers weighted 26/16/13 plus its stability (0 read as 50) |
| Civilization.FirstRival | assets/js/game.module.js:3938 | the first founded, undestroyed planet of another owner; `None` exactly when there is none |
| Civilization.NearestRival | assets/js/game.module.js:3939-3941 | among rivals, one at the least distance, the earliest of equally near ones; `None` exactly when there is no rival |
| Civilization.FindRivalCivilizedPlanet | assets/js/game.module.js:3937-3942 | `findRivalCivilizedPlanet`: `None` exactly when no rival exists; otherwise a rival, the first one without an origin and a nearest one with an origin |
| Civilization.AiRows | assets/js/game.module.js:3945-3956 | one leaderboard row per AI civilization |
| Civilization.InsertIndex | assets/js/game.module.js:3965 | where the stable descending sort places a row: after every strictly higher row and before the first row that is not higher |
| Civilization.InsertSorted | assets/js/game.module.js:3965 | inserting a row keeps the rows sorted by descending score |
| Civilization.InsertMultiset | assets/js/game.module.js:3965 | inserting a row adds exactly that row |
| Civilization.SortByScoreCorrect | assets/js/game.module.js:3965 | `sort((a, b) => b.score - a.score)` yields a sorted permutation of its input |
| Civilization.AiRowsNonNegative | assets/js/game.module.js:3952-3954 | AI rows never show a negative score and are not the player's |
| Civilization.LeaderboardSorted | assets/js/game.module.js:3944-3966 | `getGalacticLeaderboard` is sorted best first, is a permutation of the player row and the AI rows, and shows no negative score |
| Civilization.LeaderboardPlayerRank | assets/js/game.module.js:3959-3965 | the player's row is on the board, and only rows scoring strictly more come before it |
| Civilization.AssaultOutcome | assets/js/game.module.js:3968-4014 | `resolveCivAssault`, one case per assault kind, with `s` the stability read as `s \|\| 50`. An unfounded target is untouched. A conquest hands the planet to the attacker, razes the base and atmosphere and sets stability `max(10, s - 25)`. A claim hands it over with stability `max(28, s - 8)` and civ score `max(100, floor(0.9 × (cs \|\| 800)))`. A repelled assault only sets stability `max(12, s - ceil(4 + 7r))`. Id, position, engineering and shop never change |
| Civilization.AssaultOwnership | assets/js/game.module.js:3972-4013 | success (conquest or claim) holds exactly when the target is founded and attack > 0.95 × defence; otherwise the owner and the base stay |
| Civilization.RepelledStability | assets/js/game.module.js:4012 | a failed assault lowers a stability above 12, holds one in (0, 12] at 12, and lifts 0 (read as 50) to between 39 and 46 |
| Civilization.AssaultWithoutEmpireFails | assets/js/game.module.js:3969-3973 | an attacker that holds no founded planet has no power, so its assault on a bounded defender is always repelled |
| Civilization.OwnerCounts | assets/js/game.module.js:4054-4060 | `ownerCounts`: the keys are exactly the owners (`'neutral'` for none) of founded, undestroyed planets, each mapped to its number of such planets, at least 1 |
| Civilization.RaidTier | assets/js/game.module.js:4096-4097 | the raid tier lies in [0, 10] for a non-negative score |
| Civilization.RaidTierMonotone | assets/js/game.module.js:4096-4097 | the raid tier never falls as time passes or the score grows |
| Civilization.RaidBounds | assets/js/game.module.js:4098-4102 | within the tier range, raids come every 10 to 22 s with a 35% to 85% chance and bring 2 to 18 ships |
| Civilization.RaidPoolGrows | assets/js/game.module.js:4103-4107 | a higher tier's raid pool contains the lower tier's pool |
| ShipModel.ShieldAbsorbed | assets/js/game.module.js:2445-2449 | the shield takes `min(shield, amount / 2)`, and nothing when it is down |
| ShipModel.DamageSplit | assets/js/game.module.js:2443-2451 | shield and hull share a hit exactly; the hull takes at least half of it, and all of it with the shield down |
| ShipModel.RefillRateBounds | assets/js/game.module.js:2397-2404 | the landed refuel rate lies in [0.05, 0.4], is at least 0.25 on a base, grows with the base tier and reaches 0.4 from tier 4; the repair rate is positive and at most 0.34 |
| ShipModel.CrashDamageBounds | assets/js/game.module.js:2424 | crash damage is `ceil((speed - 5) × 2)`: at least twice the excess, less than that plus one, and growing with speed |
| ShipModel.ArgMin | assets/js/game.module.js:2366-2371 | the nearest planet is the first one at the least distance; `None` only for no planets |
| ShipModel.NearestPlanet | assets/js/game.module.js:2366-2372 | the `forEach` with a running minimum finds `ArgMin` |
| ShipModel.Unexpired | assets/js/game.module.js:2480-2487 | the boosts left are those not yet expired |
| ShipModel.DrainExpiredTotal | assets/js/game.module.js:2480-2487 | withdrawing expired boosts one by one with a floor of 0 equals withdrawing their total with that floor |
| ShipModel.DrainExpiredBounds | assets/js/game.module.js:2480-2487 | expiring boosts never makes fuel negative and never adds fuel |
| ShipModel.UnexpiredAmounts | assets/js/game.module.js:2480-2487 | the boosts kept have non-negative amounts |
| ShipModel.DrainStep | assets/js/game.module.js:2480-2487 | one step of the reverse `splice` walk extends the result from the suffix after `i` to the suffix from `i` |
| ShipModel.Ship.constructor | assets/js/game.module.js:1903-2040 | a new ship's gauges are full (fuel 100, ammo 999, hull from the configuration), its shield empty, with no stages or boosts; it is not landed, and it satisfies `Valid` |
| ShipModel.Ship.RefillFuel | assets/js/game.module.js:2457-2460 | fuel becomes `min(maxFuel, fuel + amount)`, so it never exceeds the maximum |
| ShipModel.Ship.AddShield | assets/js/game.module.js:2461-2464 | the shield becomes `min(maxShield, shield + amount)` |
| ShipModel.Ship.AddAmmo | assets/js/game.module.js:2465-2468 | ammo becomes `min(maxAmmo, ammo + amount)` |
| ShipModel.Ship.ReloadAmmo | assets/js/game.module.js:2469-2476 | a reload happens exactly when the ship is forced or off cooldown and ammo is below the maximum; otherwise nothing changes; a reload adds up to 220 ammo, capped, and sets the cooldown to 22 |
| ShipModel.Ship.Shoot | assets/js/game.module.js:2439-2442 | firing restarts the cooldown at the weapon's fire rate |
| ShipModel.Ship.TakeDamage | assets/js/game.module.js:2443-2456 | the shield loses its share; health becomes `max(0, health - rest)`; the shield and health never rise |
| ShipModel.Ship.AddRocketStage | assets/js/game.module.js:2132-2143 | one more stage and 45 more tank capacity (floored); a 35-unit fuel boost, capped, is queued to expire in 180 s; speed ×1.035 and thrust ×1.02; fuel stays within the maximum |
| ShipModel.Ship.SeparateStage | assets/js/game.module.js:2144-2176 | refused, with nothing changed, exactly when there is no stage; otherwise one stage and the oldest boost go, `maxFuel = max(100, floor(maxFuel - 28))`, fuel is capped and refilled by 18, and speed and thrust grow |
| ShipModel.Ship.UpdateStageFuelBoosts | assets/js/game.module.js:2477-2489 | fuel is `DrainExpired` of the old fuel, and the boost list is `Unexpired` of the old list |
| ShipModel.Ship.UpdateResources | assets/js/game.module.js:2046-2096 | boosts expire; a landed ship changes nothing else; a flying ship counts its cooldowns down, gains 4 ammo every 60th tick and regenerates its shield up to the maximum |
| ShipModel.Ship.CheckLanding | assets/js/game.module.js:2365-2434 | With no planets nothing happens. Landed with KeyR: takeoff, un-landed, velocity (0,0,2). Landed otherwise: refuel (faster on a base), repair on a base, un-land beyond 1.5 radii. Flying within the radius below speed 5: landed on that planet, velocity zero. Flying within the radius at speed 5 or more: crash, health falls by exactly `ceil((speed - 5) × 2)`, nothing else moves |
| ShipModel.Ship.LandedTick | assets/js/game.module.js:2396-2410 | the landed branch: fuel `min(maxFuel, fuel + rate)`, hull repaired up to `maxHealth` on a base, un-landed exactly beyond 1.5 radii |
| ShipModel.IsShipBuilderComplete | assets/js/game.module.js:410-414 | the builder is complete exactly when body, tank, engine and class are all chosen |
| ShipModel.BuilderNeedsEveryPart | assets/js/game.module.js:412-414 | a missing part makes the builder incomplete |
| Combat.EnemyConfigFor | assets/js/game.module.js:1291-1301 | every enemy type has positive stats; only the shielded type has a shield; an unknown type gets the standard configuration |
| Combat.ProgressionRange | assets/js/game.module.js:1302 | enemy progression lies in [0, 1.2] and grows with score |
| Combat.EnemyScalingBounds | assets/js/game.module.js:1303-1317 | a spawned enemy has at least 8 health and 2 damage, and between 82% and 130% of its base health |
| Combat.EnemyScalingMonotone | assets/js/game.module.js:1303-1317 | an enemy spawned at a higher score is never weaker |
| Combat.MaxEnemiesGrows | assets/js/game.module.js:3186 | `5 + floor(score / 500)`: at least 5, growing, one more per 500 score |
| Combat.EnemyAbsorbed | assets/js/game.module.js:1448-1452 | an enemy shield takes `min(shield, floor(0.7 × amount))` |
| Combat.EnemyHitSplit | assets/js/game.module.js:1446-1455 | an enemy shield never goes negative, shield and hull lose exactly the hit together, and the hull takes at least 30% of it |
| Combat.EnemyBot.constructor | assets/js/game.module.js:1289-1363 | a new enemy has its type's configuration, with health, damage and speed scaled by score progression |
| Combat.EnemyBot.TakeDamage | assets/js/game.module.js:1446-1456 | the shield absorbs first and the hull takes the rest, unclamped; the total loss equals the hit; the result is `health > 0` |
| Combat.EnemyBot.Shoot | assets/js/game.module.js:1457-1464 | firing restarts the cooldown, so the enemy cannot fire again at once |
| Combat.EnemyBot.Update | assets/js/game.module.js:1364-1375 | the cooldown counts down; an attached enemy drains 5 health from the ship at most once per second, without a clamp |
| Combat.MegaShip.constructor | assets/js/game.module.js:1471-1507 | a mega ship starts with 2200 health, a 140-frame gun interval and a 6000 ms alien interval |
| Combat.MegaShip.Update | assets/js/game.module.js:1508-1524 | the gun cooldown counts down one frame; the alien cooldown counts down 16 ms and never goes below 0 |
| Combat.MegaShip.Shoot | assets/js/game.module.js:1529-1532 | firing restarts the gun cooldown |
| Combat.MegaShip.SpawnedAliens | assets/js/game.module.js:1537-1540 | spawning restarts the alien cooldown at 6000 ms |
| Combat.MegaShip.TakeDamage | assets/js/game.module.js:1541-1545 | health drops by the hit; the result is `health > 0` |
| Combat.AlienCooldownAfter | assets/js/game.module.js:1522 | the alien cooldown after n updates: `start - 16n`, floored at 0 |
| Combat.AlienBayReopens | assets/js/game.module.js:1522-1538 | the alien bay reopens after exactly 375 updates |
| Missions.KindOf | assets/js/game.module.js:2507 | the four mission kinds, with every other type unknown |
| Missions.CaptureBaseline | assets/js/game.module.js:2533-2539 | the baseline records the time, kills and power-ups, and health 0 without a ship |
| Missions.Measure | assets/js/game.module.js:2543-2552 | `current` for destroy and collect is the non-negative gain over the baseline; for survive, the whole seconds elapsed; for noDamage, 1 exactly when health is at least the baseline's; unknown kinds keep it |
| Missions.DestroyMeasureMonotone | assets/js/game.module.js:2544 | destroy progress never falls as kills grow |
| Missions.SurviveMeasureMonotone | assets/js/game.module.js:2548 | survive progress never falls as time passes |
| Missions.Progress | assets/js/game.module.js:2558-2560 | `getProgress` is at most 100, and non-negative for non-negative progress |
| Missions.ProgressFullIffReached | assets/js/game.module.js:2558-2560 | progress is 100 exactly when the target is reached |
| Missions.Mission.constructor | assets/js/game.module.js:2506-2532 | a new mission has its target, zero progress, reward `100 + 20 × target`, and a baseline captured from the world (all zero without one) |
| Missions.Mission.GetProgress | assets/js/game.module.js:2558-2561 | at most 100, and 100 exactly when `current >= target` |
| Missions.Mission.Update | assets/js/game.module.js:2540-2557 | a completed mission does nothing; otherwise `current` is re-measured and the mission completes exactly when `current >= target` |
| World.Pushed | assets/js/game.module.js:3073-3074 | `unshift` then truncate to 40: the entry first, then the newest earlier entries |
| World.PushAll | assets/js/game.module.js:3068-3076 | repeated pushes never grow the journal past 40 |
| World.PushAllKeepsRecent | assets/js/game.module.js:3068-3076 | after any run of pushes the journal holds the last 40 entries, newest first |
| World.SectorOf | assets/js/game.module.js:2892-2895 | the sector is the 3200-unit cube (1920 units vertically) containing the position |
| World.Neighbourhood | assets/js/game.module.js:2897-2899 | the nested loops visit 27 sectors |
| World.NeighbourhoodIsBlock | assets/js/game.module.js:2897-2902 | the visited sectors are exactly the 3×3×3 block around the ship's sector |
| World.FirstVisits | assets/js/game.module.js:2904-2905 | the sectors first met are exactly those visited and not already seen, each listed once |
| World.AllSeenNothingNew | assets/js/game.module.js:2904 | a block already seen yields no new sector |
| World.WalkSeen | assets/js/game.module.js:2897-2905 | the walk marks every visited sector as seen |
| World.WalkVisits | assets/js/game.module.js:2897-2905 | the walk lists the sectors it meets for the first time, in visiting order |
| World.WalkBlock | assets/js/game.module.js:2897-2905 | the three nested loops compute the walk over the whole block |
| World.JumpGate.constructor | assets/js/game.module.js:1149-1154 | a new gate is unlinked and has no cooldown |
| World.ArrivalInPartnerRange | assets/js/game.module.js:3106-3107 | a jump lands the ship within 24 units of the gate it arrives at |
| World.Remaining | assets/js/game.module.js:3118-3123 | the artifacts left are all out of reach of the ship, measured from each one's bobbing mesh point |
| World.PickupPartition | assets/js/game.module.js:3118-3133 | every artifact is either picked up or kept, and a second pass from the same spot picks up nothing |
| World.PickupStep | assets/js/game.module.js:3118-3124 | one step of the reverse `splice` walk extends the result from the suffix after `i` to the suffix from `i` |
| World.NothingOwed | assets/js/game.module.js:4295-4301 | nothing is owed once every completed mission is rewarded |
| World.NewlyMetStep | assets/js/game.module.js:4282-4284 | walking the achievements adds the id of each met one |
| World.AchievementsPayOnce | assets/js/game.module.js:4282-4292 | a second pass with the same conditions pays nothing |
| World.AchievementGainBound | assets/js/game.module.js:4282-4292 | an achievement pass never takes points away, and pays nothing when every id is already unlocked |
| World.ScoreBonus | assets/js/game.module.js:4304-4306 | the score bonus adds 25 points or nothing |
| World.ScoreBonusIff | assets/js/game.module.js:4304-4306 | 25 points are added exactly when the points lag 50 per 500 score |
| World.GameWorld.constructor | assets/js/game.module.js:2594-2660 | a new world has zero counters, no planets, journal, gates, artifacts or missions, no upgrades, modules or tech, and no return target |
| World.GameWorld.LogEvent | assets/js/game.module.js:3068-3076 | within 120 ms of the last entry nothing changes; otherwise the stamped entry is pushed and the clock reset |
| World.GameWorld.SpawnDynamicFeatures | assets/js/game.module.js:2885-2905 | without a ship, or within 1.8 s, nothing changes; otherwise every sector of the block is marked seen, and the sectors not seen before are returned in visiting order |
| World.GameWorld.SpawnJumpGatePair | assets/js/game.module.js:3078-3096 | two new gates linked to each other are appended, and the discovery is logged |
| World.GameWorld.GateStep | assets/js/game.module.js:3103-3115 | a gate fires exactly when the ship is within 24 units, the gate is linked and off cooldown; then the ship moves next to the partner at a fifth of its speed, both gates cool down 2.2 s, the jump is logged, and neither gate can fire at once again; across any set of gates, links stay and a cooldown only changes to `now + 2200`, together with its partner's |
| World.GameWorld.UpdateGates | assets/js/game.module.js:3102-3116 | links never change; every changed cooldown is `now + 2200`, together with its partner's; each jump multiplies the velocity by 0.2 (`Damped`); without a jump the ship and the journal stay; the pass adds at most one journal entry |
| World.GameWorld.CollectArtifacts | assets/js/game.module.js:3118-3133 | exactly the artifacts whose bobbing mesh point is within 12 units of the ship are removed, each paying 600 score and 90 upgrade points and counting as collected; the journal gains at most the first pickup's entry |
| World.GameWorld.PickArtifact | assets/js/game.module.js:3124-3131 | the picked artifact leaves the list at its index, counters and rewards grow by one pickup, and the lore entry is logged only outside the throttle window |
| World.GameWorld.UpdateArtifactsAndGates | assets/js/game.module.js:3098-3134 | gate links never change, and every changed cooldown is `now + 2200` together with its partner's; after the gate pass, the artifacts whose bobbing mesh point is in reach of where the ship ended are removed, counted, and pay 600 score and 90 upgrade points each; the journal is unchanged or gains one entry |
| World.GameWorld.AwardAchievements | assets/js/game.module.js:4282-4292 | the achievements that are met and not yet unlocked are unlocked, and their rewards paid, each once |
| World.GameWorld.RewardMissions | assets/js/game.module.js:4295-4301 | every completed, unrewarded mission pays its reward once and is marked rewarded; nothing is owed afterwards |
| World.GameWorld.UpdateMissions | assets/js/game.module.js:4275 | each mission is updated as `Mission.Update` says, against the world's counters |
| World.GameWorld.RecountTerritories | assets/js/game.module.js:4054-4063 | every founded, undestroyed planet's territory count becomes the number of such planets with its owner; other planets are untouched |
| World.GameWorld.ResolveCivAssault | assets/js/game.module.js:3968-4014 | a missing target changes nothing; otherwise the target becomes `AssaultOutcome` for the attacker's empire power × roll × force; success means conquest or claim; a claim on a player world is logged |
| Derelict.ClampAxis | assets/js/game.module.js:1703-1707 | the clamped coordinate lies in [-h, h], and equals the input exactly when the input does |
| Derelict.Chest.constructor | assets/js/game.module.js:1622-1632 | a new chest is closed, holding its reward draw |
| Derelict.ChestLoot | assets/js/game.module.js:1727-1731 | a chest pays 350-849 score, 35-109 minerals, 20-64 salvage and 20-54 upgrade points |
| Derelict.ChestLootMonotone | assets/js/game.module.js:1727-1731 | a higher seed never pays less |
| Derelict.ColossalDerelict.constructor | assets/js/game.module.js:1552-1640 | the interior lies 2600 units below, holding three distinct, closed chests with their draws |
| Derelict.ColossalDerelict.ConstrainInside | assets/js/game.module.js:1694-1719 | the ship ends inside the padded box; inside, nothing changes; outside, it is clamped onto the box and its velocity zeroed on each axis where it was out |
| Derelict.ColossalDerelict.GetNearbyChest | assets/js/game.module.js:1659-1666 | the first closed chest within 14 units; `None` exactly when there is none |
| Derelict.ColossalDerelict.OpenChest | assets/js/game.module.js:1720-1747 | an opened chest pays nothing and changes nothing; a closed one opens and pays its loot (a zero seed is redrawn), then tops up 80 ammo, 20 fuel and 25 shield, each capped |
| Shop.UpgradeConfigOf | assets/js/game.module.js:2581-2587 | exactly five upgrades, each with 3-5 levels, a cost of at least 500 and a multiplier above 1 |
| Shop.UpgradeCostExact | assets/js/game.module.js:2589-2591 | `floor(cost × (1 + 0.4 × owned))` is `cost + floor(2 × cost × owned / 5)` |
| Shop.UpgradeCostIncreasing | assets/js/game.module.js:2589-2591 | each level costs strictly more than the one before |
| Shop.BuyUpgrade | assets/js/game.module.js:5425-5450 | a purchase happens exactly for a known, unmaxed, affordable upgrade; otherwise nothing changes; a purchase pays `getUpgradeCost`, raises the level by one and multiplies the ship's stat, leaving the other four stats as they were; levels stay within their maxima |
| Shop.UpgradeShip | assets/js/game.module.js:5440-5444 | the configured stat is scaled by the configured multiplier (hull and damage rounded down, a zero regeneration rate counting as 0.1), the other four stats stay, and a valid ship stays valid |
| Shop.DynamicShopCost | assets/js/game.module.js:4516-4526 | a price is at least 1 |
| Shop.OwnScaleMonotone | assets/js/game.module.js:4519-4522 | the repeat-purchase factor is at least 1 and grows with purchases |
| Shop.EconomyScaleRange | assets/js/game.module.js:4523 | the wealth surcharge factor lies in [1, 1.35] |
| Shop.ShopCostBounds | assets/js/game.module.js:4516-4526 | a price is at least its base price and at most 1.35 times the repeat-purchase price |
| Shop.ShopCostFirstPurchase | assets/js/game.module.js:4516-4526 | a first purchase at score 0 costs exactly the base price |
| Shop.ShopCostMonotone | assets/js/game.module.js:4516-4526 | buying more, or gaining score, never makes an item cheaper |
| Shop.SkinCostExact | assets/js/game.module.js:4536-4541 | a skin costs `base + floor(base × owned / 5)`, with the base at least 1 |
| Shop.SkinCostMonotone | assets/js/game.module.js:4536-4541 | owning more skins never makes the next one cheaper |
| Shop.RecipeFor | assets/js/game.module.js:4829-4837 | exactly five recipes, each costing positive minerals and salvage |
| Shop.CraftItem | assets/js/game.module.js:4889-4913 | crafting happens exactly with a ship, a known recipe and enough of both stocks; otherwise nothing changes; it pays both stocks (never below 0) and the ship's gauges become `Crafted` of the old ones |
| Shop.ApplyRecipe | assets/js/game.module.js:4902-4906 | a recipe's effect: the gauges become `Crafted` (250 ammo, 80 shield, 80 fuel or 60 health up to the maximum, or a rocket stage), every other gauge staying; a valid ship stays valid |
| Shop.CraftKeepsGauges | assets/js/game.module.js:4902-4906 | every recipe keeps fuel and shield between 0 and their maxima and health at most its maximum |
| Shop.SalePriceExact | assets/js/game.module.js:4947-4949 | a sale pays 5 per mineral, or `floor(26n / 5)` from 50 up, never less than 5 each |
| Shop.SalePriceMonotone | assets/js/game.module.js:4947-4949 | selling more never pays less |
| Shop.SellMinerals | assets/js/game.module.js:4939-4955 | sells the request capped at the minerals held (all of them for "all"); nothing when that is 0; minerals fall and score rises by exactly the sale |
| Shop.AddMissingShape | assets/js/game.module.js:4957-4983 | the shop keeps its items in front; every station item's type is on sale afterwards; each appended item is a station item whose type was missing; no type is appended twice |
| Shop.AddMissingIdempotent | assets/js/game.module.js:4957-4983 | adding the station items a second time changes nothing |
| Shop.AllPresentUnchanged | assets/js/game.module.js:4978-4982 | a shop already offering every type is left alone |
| Shop.Offers | assets/js/game.module.js:4979 | `shop.some(existing => existing.type === t)` |
| Shop.PushMissing | assets/js/game.module.js:4978-4982 | the `forEach` with its conditional `push` computes `AddMissing` |
| Shop.EnsureBaseShopUpgrades | assets/js/game.module.js:4957-4983 | the base shop gains the missing station items, as `AddMissing` |
| Shop.OpenPlanetShop | assets/js/game.module.js:4986-4990 | a planet with a base gets its station items; other planets are untouched |
| Shop.StocksStation | assets/js/game.module.js:4957-4983 | after `ensurePlanetBaseShopUpgrades`, the old items stay in front and all 17 station items are on sale |
| Shop.ItemOf | assets/js/game.module.js:5005-5309 | how `buyItem` reads the type string: satellite tiers 1-3, base tiers 2-4, the `eng_` and `civ_` families, and unlisted types |
| Shop.LadderGates | assets/js/game.module.js:5005-5089 | a purchase the ladder lets through needs its prerequisites. Satellite tiers go in order and no second faction war starts. Station upgrades go one tier at a time. Planet items need a base, and atmosphere needs an unterraformed planet. Engineering and civic items must be under their caps, and only the player's founded civilization is managed. Wars respect the 28 s cooldown, and an invasion needs a rival |
| Shop.PlanetAfterWithinCaps | assets/js/game.module.js:5133-5270 | a permitted purchase keeps every engineering and civic level within its cap |
| Shop.PlanetAfterSteps | assets/js/game.module.js:5148-5269 | each permitted development raises its level by exactly one, with station tiers going 1 → 2 → 3 → 4 |
| Shop.AssaultKeepsCaps | assets/js/game.module.js:3968-4014 | an assault never raises a level past its cap |
| Shop.BaseStocksStation | assets/js/game.module.js:5132-5147 | a first base makes a tier-1 station whose shop keeps the old items in front and offers all 17 station items |
| Shop.SupplyShip | assets/js/game.module.js:5096-5106 | the gauges become `AboardGauges`: ammo adds `amount` with no cap; fuel, shield and health add it capped at their maxima; a stage adds a rocket stage; every other gauge stays |
| Shop.Invade | assets/js/game.module.js:5287-5305 | the planets become `Invaded`: the nearest rival assaulted with the invader's force, then the invader credited or its stability lowered; at most one journal entry; levels stay within caps |
| Shop.InvadedKeepsCaps | assets/js/game.module.js:5287-5305 | an invasion keeps every planet's levels within their caps |
| Shop.LogDevelopment | assets/js/game.module.js:5222-5286 | civic purchases add at most one journal entry, and other purchases none |
| Shop.ShipPerk | assets/js/game.module.js:5201-5259 | the gauges become `PerkGauges`: moving a moon adds 10 shield capacity and 18 shield; the legal system 6 and 10; rings 10 tank capacity; nothing else changes |
| Shop.BuildBase | assets/js/game.module.js:5132-5147 | a first base turns the planet into `PlanetAfter(base)` and grants its upgrade points |
| Shop.DevelopPlanet | assets/js/game.module.js:5132-5270 | the planet becomes `PlanetAfter` (a first base included); score and points move by `Income` and `PointsFor`; economy adds 20 minerals and 8 salvage per tier |
| Shop.DevelopWorld | assets/js/game.module.js:5132-5286 | the planet becomes `PlanetAfter`; score and points move by `Income` and `PointsFor`; economy adds 20 minerals and 8 salvage per tier; at most one journal entry |
| Shop.Develop | assets/js/game.module.js:5132-5270 | `DevelopWorld`'s effects, and the ship's gauges become `PerkGauges` of the old ones; the ship stays valid |
| Shop.DeliverAboard | assets/js/game.module.js:5096-5178 | the fleet counters become `FleetAfter` (one more satellite of the tier, one more drone of the kind, war mode on with the bot timer at `now - 9000`) and the gauges `AboardGauges` (supplies, refuelling to a full tank with +25 shield, +120 ammo for a craft), nothing else aboard changing; a craft adds 25 minerals for 10 salvage, and no other item touches the stocks |
| Shop.PurchaseKeepsGauges | assets/js/game.module.js:5096-5178 | no purchase of a non-negative amount takes fuel or shield outside 0 and their maxima, or health above its maximum |
| Shop.SatelliteCountKept | assets/js/game.module.js:5106-5117 | the satellite count stays the sum of the three tier counts |
| Shop.DeliverPlanet | assets/js/game.module.js:5132-5305 | a planet purchase is either an invasion (`Invaded`) or a development (`PlanetAfter`), with the score, points, stock and journal effects; the ship's gauges become `PerkGauges` of the old ones |
| Shop.Fulfil | assets/js/game.module.js:5096-5305 | a paid purchase moves score and points by `Income` and `PointsFor`, changes the planets as `PlanetAfter` or `Invaded` say, the fleet counters as `FleetAfter` and the gauges as `GaugesAfter`; a craft adds 25 minerals for 10 salvage, the economy 20 minerals and 8 salvage per tier, and nothing else touches the stocks; at most one journal entry |
| Shop.FulfilAboard | assets/js/game.module.js:5096-5178 | `Fulfil` for the items aboard: the planets stay, fleet and gauges as `FleetAfter` and `GaugesAfter` |
| Shop.FulfilPlanet | assets/js/game.module.js:5132-5305 | `Fulfil` for the planet items: the fleet counters stay, the gauges move by `GaugesAfter` |
| Shop.Checkout | assets/js/game.module.js:5094-5309 | the price is paid, the purchase counted, and every effect of `Fulfil` applied |
| Shop.BoughtReady | assets/js/game.module.js:4995-5093 | a purchase the ladder allows has a planet when it needs one, a player-owned world for an invasion, salvage for a craft, and keeps the shop's planet within its caps |
| Shop.BuyPriced | assets/js/game.module.js:4995-5309 | with the price known, the outcome is `Verdict`; anything but a purchase changes nothing; a purchase does all that `Checkout` states |
| Shop.BuyItem | assets/js/game.module.js:4995-5309 | The outcome is `Verdict` on the price `getDynamicShopCost`. Anything but a purchase changes nothing. A purchase pays the price, gains `Income` and `PointsFor`, counts the purchase, and applies the planet effect (`PlanetAfter` or `Invaded`), the fleet effect (`FleetAfter`), the gauge effect (`GaugesAfter`) and the stock effects of crafting and the economy. Levels stay within caps, at most one journal entry is added, and the ship stays valid |
| Tech.ModuleOf | assets/js/module-tech.js:3-12 | `MODULES[id]`: a key finds the module carrying it, and an unknown key finds none |
| Tech.ModuleOfId | assets/js/module-tech.js:3-12 | every module's key finds that module |
| Tech.ModuleIdsDistinct | assets/js/module-tech.js:3-12 | no two modules share a key |
| Tech.TechOf | assets/js/module-tech.js:14-31 | `TECH_NODES.find` by id: the node carrying it, or none |
| Tech.TechOfId | assets/js/module-tech.js:14-31 | every node's id finds that node |
| Tech.TechIdsDistinct | assets/js/module-tech.js:14-31 | no two nodes share an id |
| Tech.ReqOneTierBelow | assets/js/module-tech.js:14-31 | every `req` names a node exactly one tier lower; the first tier is exactly the nodes without one |
| Tech.Root | assets/js/module-tech.js:14-31 | every prerequisite chain ends at a first-tier node |
| Tech.ResearchKeepsClosed | assets/js/module-tech.js:181-189 | unlocking a researchable node keeps every unlocked node's prerequisite unlocked |
| Tech.RootUnlocked | assets/js/module-tech.js:181 | in a closed tree, an unlocked node's whole chain is unlocked down to its root |
| Tech.GrownMax | assets/js/module-tech.js:43-79 | `floor((x \|\| d) × f)` is whole, and not below a whole `x` for `f >= 1` |
| Tech.ScaledDamage | assets/js/module-tech.js:46-84 | a damage boost never lowers the damage |
| Tech.FasterFire | assets/js/module-tech.js:83-88 | `max(60, floor((fireRate \|\| 200) × f))` is at least 60, and a factor of at most 1 never lengthens an interval already at or above 60 |
| Tech.Heal | assets/js/module-tech.js:48-68 | a capped heal: at most the cap, and either the cap or the full heal |
| Tech.ModuleKeepsGauges | assets/js/module-tech.js:37-51 | no module pushes fuel or shield past its maximum, for every fuel capacity the game can hold (at least 50, or whole), including the fractional ones left by ×1.15 fuel upgrades |
| Tech.ModuleEffects | assets/js/module-tech.js:37-51 | `repair_gel` heals 35, up to `maxHealth \|\| 100`, and no other module changes health; only `ammo_rack` changes ammo, adding 300 with no cap; only the sensor lattice changes upgrade points, adding 35; no module changes minerals, salvage or fuel |
| Tech.TechKeepsGauges | assets/js/module-tech.js:53-91 | no research pushes fuel or shield past its maximum |
| Tech.TechFireRate | assets/js/module-tech.js:82-90 | `hypervelocity` and `combat_ai` never take the fire interval below 60, nor lengthen one at or above 60; other nodes leave it alone |
| Tech.TechHull | assets/js/module-tech.js:58-81 | `nanorepair` sets health to the new `maxHealth`; `hull_plating` and `reinforced_bulkheads` heal at most to it |
| Tech.TechNeverWeakens | assets/js/module-tech.js:53-91 | research never lowers speed, thrust, hull and shield maxima, regeneration, damage or stocks, and never touches upgrade points |
| Tech.ApplyModuleEffect | assets/js/module-tech.js:37-51 | without a ship nothing changes; with one, the ship and world fields become `ModuleEffect` of their old values, and a valid ship whose fuel capacity is at least 50 (or whole) stays valid |
| Tech.ApplyTechEffect | assets/js/module-tech.js:53-91 | without a ship nothing changes; with one, the ship and world fields become `TechEffect` of their old values |
| Tech.ApplyEngineTech | assets/js/module-tech.js:57-73 | the engine nodes, as `TechEffect` says |
| Tech.ApplyStockTech | assets/js/module-tech.js:63-86 | the stock nodes, as `TechEffect` says |
| Tech.ApplyWeaponTech | assets/js/module-tech.js:71-90 | the weapon nodes, as `TechEffect` says |
| Tech.ApplyHullTech | assets/js/module-tech.js:58-81 | the hull and shield nodes, as `TechEffect` says |
| Tech.BuyModule | assets/js/module-tech.js:117-139 | An unknown or installed key changes nothing, and so does an unaffordable module. Minerals pay when they suffice (only minerals drop); otherwise score pays (only score drops). A paid module is listed once and takes effect, and no key is ever listed twice. A valid ship whose fuel capacity is at least 50 (or whole) stays valid |
| Tech.ResearchTech | assets/js/module-tech.js:176-195 | An unknown, unlocked, blocked or unaffordable node changes nothing. Otherwise upgrade points drop by exactly the cost, the node is unlocked and takes effect. The tree stays closed under prerequisites |
| Persistence.IntOrElse | assets/js/game.module.js:314-327 | `Number(v) \|\| d` on a whole number |
| Persistence.NonNeg | assets/js/game.module.js:315 | `Math.max(0, Number(v) \|\| 0)`: never negative, and a non-negative value is kept |
| Persistence.RestoreEngineering | assets/js/game.module.js:183-189 | restored engineering levels lie in their ranges |
| Persistence.RestoreCiv | assets/js/game.module.js:192-211 | restored levels, scores, territories and population are non-negative, defence is at least 1 and stability lies in [0, 100], a missing or zero stability giving 35; the owner is never empty; founded and destroyed are kept |
| Persistence.RestorePlanet | assets/js/game.module.js:172-246 | a record without a position is skipped; otherwise the planet keeps the saved id (or a fresh one), satisfies the loader's bounds, has its civilization restored, and has a base only when one was saved |
| Persistence.Placed | assets/js/game.module.js:172-211 | a planet built from a save starts without a base, at level 0, with the merchant's stock |
| Persistence.WithBase | assets/js/game.module.js:212-217 | a saved base comes back at level 1 or more, with the station items |
| Persistence.Razed | assets/js/game.module.js:235-244 | a destroyed civilization keeps no base, no level and no atmosphere |
| Persistence.RestoredBaseStocked | assets/js/game.module.js:212-217 | a restored base offers all 17 station items |
| Persistence.CountRoundTrip | assets/js/game.module.js:131-208 | a whole, non-negative count survives a save and load |
| Persistence.EngineeringRoundTrip | assets/js/game.module.js:120-189 | engineering levels within range survive a save and load |
| Persistence.CivRoundTrip | assets/js/game.module.js:128-211 | a bounded civilization with an owner and non-zero stability survives a save and load |
| Persistence.PlanetRoundTrip | assets/js/game.module.js:107-246 | a planet within the loader's ranges comes back unchanged, apart from its rebuilt shop |
| Persistence.StabilityZeroReturnsAs35 | assets/js/game.module.js:146-210 | a stability of 0 is saved as 0 (`\|\| 0`) and loaded as 35 (`\|\| 35`) |
| Persistence.NearbySaved | assets/js/game.module.js:151-162 | at most one record per planet, each with a position; when every planet is within 24000 units, exactly the planets serialized in order |
| Persistence.RestoredPlanets | assets/js/game.module.js:164-250 | every restored planet satisfies the loader's bounds, and all records with a position are restored |
| Persistence.Reloaded | assets/js/game.module.js:107-250 | what a load gives back: the same planets with their shops rebuilt |
| Persistence.WorldRoundTrip | assets/js/game.module.js:151-250 | saving a world whose planets are all near the ship and loading it gives the same planets in order, shops rebuilt |
| Persistence.TargetAmong | assets/js/game.module.js:252 | the return target is a restored planet carrying the saved id, or none |
| Persistence.RestoreWorldState | assets/js/game.module.js:164-253 | without saved planets nothing changes; otherwise the planets are `RestoredPlanets` and the target resolves among them; the counters are untouched |
| Persistence.RestorePlanets | assets/js/game.module.js:170-251 | the loop restores the planets in order and indexes each non-empty id to a planet carrying it |
| Persistence.IdIndexSound | assets/js/game.module.js:247-249 | `restoredById` holds exactly the non-empty ids, each mapped to a planet carrying it |
| Persistence.Claimed | assets/js/game.module.js:374-380 | only the owner can change; a founded civilization with a base ends with an owner that is neither empty nor neutral; an already owned planet is unchanged |
| Persistence.ClaimedIdempotent | assets/js/game.module.js:374-380 | claiming twice is claiming once |
| Persistence.ClaimFoundedBases | assets/js/game.module.js:374-380 | every planet becomes `Claimed` of itself; the counters are untouched |
| Persistence.LoadShip | assets/js/game.module.js:329-343 | loaded ship values: maxFuel ≥ 50 and fuel in [0, maxFuel]; maxHealth ≥ 20 and health in [1, maxHealth]; shield in [0, maxShield]; maxAmmo ≥ 300 and ammo in [0, maxAmmo]; speed, thrust and consumption floors; stages ≥ 0 |
| Persistence.ShipRoundTrip | assets/js/game.module.js:285-343 | ship values within the loader's ranges, with non-zero ammo and shield capacity, come back unchanged |
| Persistence.EmptyAmmoNotRestored | assets/js/game.module.js:290-336 | a saved ammo count of 0 falls back on the loading ship's ammunition |
| Persistence.LoadCounters | assets/js/game.module.js:313-327 | loaded counters are non-negative; missing tables fall back on empty ones, and the upgrade levels on the current ones |
| Persistence.CountersRoundTrip | assets/js/game.module.js:260-327 | non-negative counters survive a save and load |
| Persistence.ProgressSnapshot | assets/js/game.module.js:255-299 | the snapshot saves the counters and ship values; resume is allowed exactly when the game has started, is not over, did not end by death, and health is positive |
| Persistence.LoadCounterFields | assets/js/game.module.js:313-327 | the world's counters become `LoadCounters` of their old values |
| Persistence.LoadShipFields | assets/js/game.module.js:329-343 | the ship's values become `LoadShip` of their old values; the ship stays valid |
| Persistence.RestoreCheckpoint | assets/js/game.module.js:349-371 | position, velocity, `landed` and the landed planet become `PlacedBy` the checkpoint: coordinates from the save where saved, with the `\|\|` fallbacks, `landed` as saved, and the landed planet exactly when it is landed and the saved planet exists; ship values and validity stay |
| Persistence.RestoreSession | assets/js/game.module.js:345-381 | `SessionRestored`: the restored planets (or the old ones) are claimed; the return-base target is the saved id among the restored planets when planets are restored, else unchanged; position, velocity, `landed` and landed planet are `PlacedBy` the checkpoint when one is restored, else unchanged; counters and ship values stay |
| Persistence.ApplyLoadedProgress | assets/js/game.module.js:309-388 | counters become `LoadCounters`, ship values `LoadShip` (when saved); planets, return-base target and the ship's placement are as in `SessionRestored`; the ship stays valid |
| Persistence.LoadValues | assets/js/game.module.js:309-344 | counters become `LoadCounters` and ship values `LoadShip` (when saved), leaving planets, return-base target and the ship's placement untouched; the ship stays valid |

## Left out

- Rendering is not modelled: meshes, materials, skins, particles, trails, the HUD, the DOM, the minimap, the camera, audio, floating texts and the `landingZone` indicator.
- Steering physics is not modelled: thrust, friction, gravity, enemy and helper steering, and the speed clamp. Distances and speeds are method inputs, and `Vec3` only carries positions and velocities.
- `Date.now()`, `Math.random()` and the locale clock text are parameters, as listed above. The random spawners (enemy spawns, alien waves, faction wars, planets, cosmic events and the feature rolls of `spawnDynamicFeatures`) are left out; only their deterministic formulas are kept.
- `localStorage` and `JSON` I/O are left out (`loadProgressData`, `saveProgressNow`, settings, skin ownership). The codec works on in-memory records, with `None` standing for a missing or non-numeric field.
- The AI civilizations are left out: `aiCivilizations`, `ensureAICivilizations`, their evolution, expansion and wars. The leaderboard takes their rows as input, and the raid tier keeps only its formula.
- Colours, names and government labels are display-only. The model neither saves nor restores them.
- Shop.LogDevelopment: does not state the journal texts of civic purchases, only that at most one entry is added.
- Persistence.LoadCounters: a fractional saved score is kept as is by `Math.max(0, Number(score) || 0)`, but the model's integer score cannot hold it.
- Shop.BuyUpgrade: assumes a ship always has a weapon configuration; the source skips the weapon upgrade when `weaponConfig` is missing.
- Shop.UpgradeShip: same assumption; the weapon is always scaled when the damage upgrade is bought.
- Several source functions return early when there is no ship. The model passes the ship in where the source uses one, so those early returns are not modelled (except in `buyUpgrade`, `craftItem` and `module-tech.js`, where `null` is an input).
- World.GameWorld.UpdateGates: states that the pass adds at most one journal entry, but not which gate's entry it is; it does not state the ship's final position as a formula of the gates that fired.
- Missions.Progress: JavaScript's double rounding is not modelled, so `Math.floor(29 / 100 * 100)` is 28 in the game and 29 here (survive targets run from 30 to 119, game.module.js:2769); the stated bounds hold either way.
- World.GameWorld.CollectArtifacts: one `now` serves the whole pass, where each `Artifact.update` reads the clock again.
- World.GameWorld.UpdateArtifactsAndGates: states the journal only as unchanged or one entry longer, and the ship's position and velocity only through the artifacts it reaches.
- Shop.DeliverAboard: the helper bots that `spawnHelperBot` launches for a combat drone, a harvester drone and the faction war (game.module.js:5120, 5124, 5129) are not modelled; only the counters, the war flag and the bot timer are.
- ShipModel.Ship.UpdateResources: the flight fuel burn `fuel = max(0, fuel - 0.1 * |velocity| / maxSpeed)` and the slowdown on an empty tank (game.module.js:2071-2076) belong to the steering physics and are not modelled.
- Tech.ApplyModuleEffect: assumes the ship has a weapon configuration; the source changes the weapon (`weapon_coil`) only when `ship.weaponConfig` exists (module-tech.js:46).
- Tech.ApplyTechEffect: same assumption; the source's weapon nodes change the weapon only when `ship.weaponConfig` exists (module-tech.js:71, 82, 87).
- ShipModel.Ship.CheckLanding: the landed planet is kept as an id (`landedPlanet`) that `PlanetById` looks up; the source keeps a reference to the planet object (game.module.js:2416). ShipModel.Ship.LandedTick reads it through the same lookup.
- `buyItem` refunds the price of a station service it cannot perform: refuel, craft or trade without a base, or crafting with under 10 salvage. The model treats this as the service declining (`Declines`), which leaves the state unchanged.
- Ammo can exceed `maxAmmo` (ammo purchases, `base_craft`, `ammo_rack`), and health can fall below 0 (crash damage, attachment drain). The model keeps both, as the source does, and asserts no invariant that excludes them.
- `ACHIEVEMENT_POINT` and `ACHIEVEMENT_CAP` (game.module.js:4278-4279) are declared but never read, so no cap on achievement points is modelled. The achievements' conditions are the `met` input.
- The `MODULES` table is keyed by strings in a JavaScript object; the model assumes no prototype keys such as `toString`.
