/** The bookkeeping of `GameWorld` (assets/js/game.module.js:2593-4330) that
    is not rendering: the bounded event journal, the once-per-sector gating of
    procedural features, paired jump gates and artifact pickup, the reward
    bookkeeping of the frame update, the territory recount and civilization
    assaults. Random draws, `Date.now()` and the clock text of journal entries
    are parameters. */
module World {
  import opened Numeric
  import opened Civilization
  import opened Missions
  import opened ShipModel

  // ---------------------------------------------------------------- journal

  const JournalLimit := 40
  const JournalThrottleMs := 120

  /** The text `logEvent` stores: the clock stamp in brackets, then the message. */
  function Entry(stamp: string, text: string): string {
    "[" + stamp + "] " + text
  }

  /** `journal.unshift(entry)` followed by truncation to 40 entries: the newest
      entry first, then the most recent earlier ones. */
  function Pushed(journal: seq<string>, entry: string): (r: seq<string>)
    ensures |r| == MinInt(|journal| + 1, JournalLimit)
    ensures r[0] == entry && r[1..] == journal[..|r| - 1]
  {
    var j := [entry] + journal;
    if |j| > JournalLimit then j[..JournalLimit] else j
  }

  /** Pushing entries one after another, as repeated `logEvent` calls do. */
  function PushAll(journal: seq<string>, entries: seq<string>): (r: seq<string>)
    ensures entries != [] ==> |r| <= JournalLimit
  {
    if entries == [] then journal
    else Pushed(PushAll(journal, entries[..|entries| - 1]), entries[|entries| - 1])
  }

  /** After any run of pushes the journal holds the last 40 entries pushed,
      newest first. */
  lemma {:induction false} PushAllKeepsRecent(journal: seq<string>, entries: seq<string>, k: int)
    requires 0 <= k < |entries| && |entries| - 1 - k < JournalLimit
    ensures |PushAll(journal, entries)| > |entries| - 1 - k
    ensures PushAll(journal, entries)[|entries| - 1 - k] == entries[k]
  {
    var n := |entries|;
    var init := entries[..n - 1];
    if k < n - 1 {
      PushAllKeepsRecent(journal, init, k);
    }
  }

  // ---------------------------------------------------------------- sectors

  /** A sector of the procedural universe; the source keys it by the string
      `cx|cy|cz`, which is a one-to-one encoding of these three integers. */
  datatype Sector = Sector(x: int, y: int, z: int)

  const SectorSize := 3200.0
  const FeatureTickMs := 1800

  /** The sector containing a position: cubes of 3200 units, flattened to
      1920 units vertically. */
  function SectorOf(p: Vec3): (c: Sector)
    ensures c.x as real * SectorSize <= p.x < (c.x + 1) as real * SectorSize
    ensures c.y as real * (SectorSize * 0.6) <= p.y < (c.y + 1) as real * (SectorSize * 0.6)
    ensures c.z as real * SectorSize <= p.z < (c.z + 1) as real * SectorSize
  {
    Sector((p.x / SectorSize).Floor, (p.y / (SectorSize * 0.6)).Floor, (p.z / SectorSize).Floor)
  }

  /** The `k`-th sector visited by the three nested loops of
      `spawnDynamicFeatures`: `dx`, then `dy`, then `dz`, each from -1 to 1. */
  function Neighbour(c: Sector, k: int): Sector
    requires 0 <= k < 27
  {
    Sector(c.x + k / 9 - 1, c.y + (k / 3) % 3 - 1, c.z + k % 3 - 1)
  }

  function Neighbourhood(c: Sector): (r: seq<Sector>)
    ensures |r| == 27
  {
    seq(27, k requires 0 <= k < 27 => Neighbour(c, k))
  }

  /** The visited sectors are exactly the 3x3x3 block around the ship's sector. */
  lemma NeighbourhoodIsBlock(c: Sector, s: Sector)
    ensures s in Neighbourhood(c) <==>
      c.x - 1 <= s.x <= c.x + 1 && c.y - 1 <= s.y <= c.y + 1 && c.z - 1 <= s.z <= c.z + 1
  {
    var n := Neighbourhood(c);
    if c.x - 1 <= s.x <= c.x + 1 && c.y - 1 <= s.y <= c.y + 1 && c.z - 1 <= s.z <= c.z + 1 {
      var a, b, d := s.x - c.x + 1, s.y - c.y + 1, s.z - c.z + 1;
      NeighbourIndex(c, a, b, d);
      assert n[9 * a + 3 * b + d] == s;
    }
  }

  lemma NeighbourIndex(c: Sector, a: int, b: int, d: int)
    requires 0 <= a < 3 && 0 <= b < 3 && 0 <= d < 3
    ensures 0 <= 9 * a + 3 * b + d < 27
    ensures Neighbour(c, 9 * a + 3 * b + d) == Sector(c.x + a - 1, c.y + b - 1, c.z + d - 1)
  {
    var k := 9 * a + 3 * b + d;
    assert k / 9 == a && (k / 3) % 3 == b && k % 3 == d;
  }

  /** The sectors of `keys` that a walk starting from `seen` meets for the
      first time, in the order it meets them. */
  function FirstVisits(keys: seq<Sector>, seen: set<Sector>): (r: seq<Sector>)
    ensures forall s :: s in r <==> s in keys && s !in seen
    ensures forall i, j | 0 <= i < j < |r| :: r[i] != r[j]
  {
    if keys == [] then []
    else
      var init, last := keys[..|keys| - 1], keys[|keys| - 1];
      FirstVisits(init, seen) + (if last in seen || last in init then [] else [last])
  }

  /** A walk over sectors that were all seen meets nothing new. */
  lemma AllSeenNothingNew(keys: seq<Sector>, seen: set<Sector>)
    requires forall s | s in keys :: s in seen
    ensures FirstVisits(keys, seen) == []
  {
  }

  function SetOf(keys: seq<Sector>): set<Sector> {
    set s | s in keys
  }

  /** The seen set and the list of first visits after the nested loops of
      `spawnDynamicFeatures` have handled the first `k` sectors of the block
      around `c`, starting from the seen set `seen0`. */
  function Walk(c: Sector, k: int, seen0: set<Sector>): (set<Sector>, seq<Sector>)
    requires 0 <= k <= 27
  {
    if k == 0 then (seen0, [])
    else
      var (seen, unseen) := Walk(c, k - 1, seen0);
      var x := Neighbour(c, k - 1);
      if x in seen then (seen, unseen) else (seen + {x}, unseen + [x])
  }

  /** The walk marks every visited sector seen. */
  lemma {:induction false} WalkSeen(c: Sector, k: int, seen0: set<Sector>)
    requires 0 <= k <= 27
    ensures Walk(c, k, seen0).0 == seen0 + SetOf(Neighbourhood(c)[..k])
  {
    var n := Neighbourhood(c);
    if k == 0 {
      assert n[..0] == [] && SetOf([]) == {};
    } else {
      WalkSeen(c, k - 1, seen0);
      NeighbourhoodPrefix(c, k);
      SetOfStep(n[..k - 1], Neighbour(c, k - 1));
    }
  }

  /** The walk lists, in visiting order, the sectors it meets that were not
      seen before, each once. */
  lemma {:induction false} WalkVisits(c: Sector, k: int, seen0: set<Sector>)
    requires 0 <= k <= 27
    ensures Walk(c, k, seen0).1 == FirstVisits(Neighbourhood(c)[..k], seen0)
  {
    var n := Neighbourhood(c);
    if k == 0 {
      assert n[..0] == [];
    } else {
      WalkVisits(c, k - 1, seen0);
      WalkSeen(c, k - 1, seen0);
      NeighbourhoodPrefix(c, k);
      VisitStep(Walk(c, k - 1, seen0), n[..k - 1], Neighbour(c, k - 1), seen0);
    }
  }

  lemma NeighbourhoodPrefix(c: Sector, k: int)
    requires 0 < k <= 27
    ensures Neighbourhood(c)[..k] == Neighbourhood(c)[..k - 1] + [Neighbour(c, k - 1)]
  {
    var n := Neighbourhood(c);
    assert n[k - 1] == Neighbour(c, k - 1);
    assert n[..k] == n[..k - 1] + [n[k - 1]];
  }

  lemma VisitStep(prev: (set<Sector>, seq<Sector>), keys: seq<Sector>, x: Sector, seen0: set<Sector>)
    requires prev.0 == seen0 + SetOf(keys) && prev.1 == FirstVisits(keys, seen0)
    ensures (if x in prev.0 then prev.1 else prev.1 + [x]) == FirstVisits(keys + [x], seen0)
  {
    SetOfStep(keys, x);
    FirstVisitsStep(keys, x, seen0);
  }

  lemma SetOfStep(keys: seq<Sector>, x: Sector)
    ensures SetOf(keys + [x]) == SetOf(keys) + {x}
    ensures x in SetOf(keys) <==> x in keys
  {
  }

  lemma FirstVisitsStep(keys: seq<Sector>, x: Sector, seen: set<Sector>)
    ensures FirstVisits(keys + [x], seen) ==
      FirstVisits(keys, seen) + (if x in seen || x in keys then [] else [x])
  {
    assert (keys + [x])[..|keys|] == keys;
  }

  /** The three nested loops of `spawnDynamicFeatures` over the block around
      sector `c`: each sector not yet seen is added to the seen set and to
      the returned list. */
  method WalkBlock(c: Sector, seen0: set<Sector>) returns (seen: set<Sector>, unseen: seq<Sector>)
    ensures (seen, unseen) == Walk(c, 27, seen0)
  {
    seen, unseen := seen0, [];
    ghost var k := 0;
    var dx := -1;
    while dx <= 1
      invariant -1 <= dx <= 2 && k == 9 * (dx + 1)
      invariant (seen, unseen) == Walk(c, k, seen0)
    {
      var dy := -1;
      while dy <= 1
        invariant -1 <= dy <= 2 && dx <= 1 && k == 9 * (dx + 1) + 3 * (dy + 1)
        invariant (seen, unseen) == Walk(c, k, seen0)
      {
        var dz := -1;
        while dz <= 1
          invariant -1 <= dz <= 2 && dx <= 1 && dy <= 1 && k == 9 * (dx + 1) + 3 * (dy + 1) + (dz + 1)
          invariant (seen, unseen) == Walk(c, k, seen0)
        {
          var key := Sector(c.x + dx, c.y + dy, c.z + dz);
          NeighbourIndex(c, dx + 1, dy + 1, dz + 1);
          assert Neighbour(c, k) == key;
          if key !in seen {
            seen := seen + {key};
            unseen := unseen + [key];
          }
          k := k + 1;
          dz := dz + 1;
        }
        dy := dy + 1;
      }
      dx := dx + 1;
    }
  }

  // ---------------------------------------------------------------- jump gates

  /** A jump gate; gates are created in pairs linked to each other. */
  class JumpGate {
    var position: Vec3
    var pairId: string
    var linkedGate: JumpGate?
    var cooldownUntil: int

    constructor(position: Vec3, pairId: string)
      ensures this.position == position && this.pairId == pairId
      ensures linkedGate == null && cooldownUntil == 0
    {
      this.position := position;
      this.pairId := pairId;
      linkedGate := null;
      cooldownUntil := 0;
    }
  }

  /** A gate fires when the ship is within 24 units (squared distance below
      576), it has a partner, and its cooldown has passed. */
  const GateRange2 := 576.0
  const GateCooldownMs := 2200
  const JumpOffset := Vec3(0.0, 10.0, 20.0)

  predicate InRange2(a: Vec3, b: Vec3, r2: real) { a.Sub(b).Norm2() < r2 }

  /** Gates are linked in pairs: a gate's partner is another gate linked
      back to it. */
  predicate Linked(g: JumpGate)
    reads g`linkedGate, {g.linkedGate}`linkedGate
  {
    g.linkedGate != null ==> g.linkedGate != g && g.linkedGate.linkedGate == g
  }

  /** Whether gate `g` can send a ship at `shipPos` through at time `now`. */
  predicate CanFire(g: JumpGate, shipPos: Vec3, now: int)
    reads g
  {
    InRange2(g.position, shipPos, GateRange2) && g.linkedGate != null && now > g.cooldownUntil
  }

  /** A jump puts the ship inside the range of the gate it arrives at, so
      only that gate's cooldown keeps it from jumping straight back. */
  lemma ArrivalInPartnerRange(p: Vec3)
    ensures InRange2(p, p.Add(JumpOffset), GateRange2)
  {
    assert p.Sub(p.Add(JumpOffset)).Norm2() == 500.0;
  }

  /** The ship's velocity after `n` jumps, each multiplying it by 0.2. */
  function Damped(v: Vec3, n: nat): Vec3 {
    if n == 0 then v else Damped(v, n - 1).Scale(0.2)
  }

  // ---------------------------------------------------------------- artifacts

  /** An artifact is picked up when the ship is within 12 units of it. */
  const ArtifactRange2 := 144.0
  const ArtifactScore := 600
  const ArtifactPoints := 90

  /** An artifact: the point it was dropped at and the time it appeared. */
  datatype Artifact = Artifact(position: Vec3, spawnTime: int)

  /** One artifact pass: where the ship is, the frame time, and the bob
      curve, which maps an artifact's age to how far its mesh rises above
      its position (`Math.sin(age * 0.003) * 4` in the game, between -4
      and 4; the sine is not modelled, so the curve is an input). */
  datatype Sweep = Sweep(shipPos: Vec3, now: int, wave: int -> real)

  /** Where `Artifact.update` puts the mesh, the point the pickup distance
      is measured from: the position lifted by the bob of its age. */
  function MeshPoint(a: Artifact, sw: Sweep): Vec3 {
    a.position.Add(Vec3(0.0, sw.wave(sw.now - a.spawnTime), 0.0))
  }

  predicate Reachable(a: Artifact, sw: Sweep) { InRange2(MeshPoint(a, sw), sw.shipPos, ArtifactRange2) }

  /** The artifacts left after a pass, in their original order. */
  function Remaining(s: seq<Artifact>, sw: Sweep): (r: seq<Artifact>)
    ensures forall a | a in r :: a in s && !Reachable(a, sw)
  {
    if s == [] then []
    else (if Reachable(s[0], sw) then [] else [s[0]]) + Remaining(s[1..], sw)
  }

  /** How many artifacts a pass picks up. */
  function Picked(s: seq<Artifact>, sw: Sweep): nat {
    if s == [] then 0
    else (if Reachable(s[0], sw) then 1 else 0) + Picked(s[1..], sw)
  }

  /** The journal and its throttle stamp after a pass that logged the same
      event `events` times: the first one adds `entry` unless the throttle
      holds it back, and the rest fall inside the throttle window. */
  predicate ThrottledOnce(j0: seq<string>, t0: int, j: seq<string>, t: int, events: nat, now: int, entry: string) {
    if events == 0 || now - t0 < JournalThrottleMs then j == j0 && t == t0
    else t == now && j == Pushed(j0, entry)
  }

  /** Every artifact is either picked up or kept, and a second pass with
      the ship at the same spot at the same time finds nothing more. */
  lemma {:induction false} PickupPartition(s: seq<Artifact>, sw: Sweep)
    ensures |Remaining(s, sw)| + Picked(s, sw) == |s|
    ensures Picked(Remaining(s, sw), sw) == 0
    ensures Remaining(Remaining(s, sw), sw) == Remaining(s, sw)
  {
    if s != [] {
      PickupPartition(s[1..], sw);
      var rest := Remaining(s[1..], sw);
      if !Reachable(s[0], sw) {
        var r := [s[0]] + rest;
        assert Remaining(s, sw) == r;
        assert r[0] == s[0] && r[1..] == rest;
        assert Picked(r, sw) == Picked(rest, sw);
        assert Remaining(r, sw) == [s[0]] + Remaining(rest, sw);
      } else {
        assert Remaining(s, sw) == [] + rest == rest;
      }
    }
  }

  /** One step of the reverse walk: with the artifacts after `i` handled,
      handling artifact `i` extends the result to the suffix from `i`. */
  lemma PickupStep(s: seq<Artifact>, i: nat, sw: Sweep, arts: seq<Artifact>)
    requires i < |s|
    requires arts == s[..i + 1] + Remaining(s[i + 1..], sw)
    ensures i < |arts| && arts[i] == s[i]
    ensures Reachable(s[i], sw) ==>
      arts[..i] + arts[i + 1..] == s[..i] + Remaining(s[i..], sw) &&
      Picked(s[i..], sw) == 1 + Picked(s[i + 1..], sw)
    ensures !Reachable(s[i], sw) ==>
      arts == s[..i] + Remaining(s[i..], sw) &&
      Picked(s[i..], sw) == Picked(s[i + 1..], sw)
  {
    assert s[i..][1..] == s[i + 1..];
    assert s[..i + 1] == s[..i] + [s[i]];
    if Reachable(s[i], sw) {
      RemoveAt(s[..i], s[i], Remaining(s[i + 1..], sw));
    }
  }

  // ---------------------------------------------------------------- rewards

  /** Mission rewards still owed: completed missions not yet rewarded. */
  function Owed(ms: seq<Mission>): int
    reads set m | m in ms
  {
    if ms == [] then 0
    else
      var m := ms[|ms| - 1];
      Owed(ms[..|ms| - 1]) + (if m.completed && !m.rewarded then m.reward else 0)
  }

  predicate Distinct<T(==)>(s: seq<T>) {
    forall i, j | 0 <= i < j < |s| :: s[i] != s[j]
  }

  /** Nothing is owed once every completed mission is rewarded. */
  lemma {:induction false} NothingOwed(ms: seq<Mission>)
    requires forall m | m in ms :: m.completed ==> m.rewarded
    ensures Owed(ms) == 0
  {
    if ms != [] {
      NothingOwed(ms[..|ms| - 1]);
    }
  }

  /** A reward-bearing achievement: its id and the upgrade points it pays. */
  datatype Achievement = Achievement(id: string, reward: int)

  /** The upgrade points the achievement pass pays out, walking `achs` in
      order from the unlocked set `unlocked`; `met[i]` is whether the
      condition of `achs[i]` holds. */
  function AchievementGain(achs: seq<Achievement>, met: seq<bool>, unlocked: set<string>): int
    requires |met| == |achs|
  {
    if achs == [] then 0
    else if achs[0].id !in unlocked && met[0] then
      achs[0].reward + AchievementGain(achs[1..], met[1..], unlocked + {achs[0].id})
    else AchievementGain(achs[1..], met[1..], unlocked)
  }

  /** The ids the achievement pass adds to the unlocked set. */
  function NewlyMet(achs: seq<Achievement>, met: seq<bool>): set<string>
    requires |met| == |achs|
  {
    set i | 0 <= i < |achs| && met[i] :: achs[i].id
  }

  lemma NewlyMetStep(achs: seq<Achievement>, met: seq<bool>, i: int)
    requires |met| == |achs| && 0 <= i < |achs|
    ensures NewlyMet(achs[..i + 1], met[..i + 1]) ==
      NewlyMet(achs[..i], met[..i]) + (if met[i] then {achs[i].id} else {})
  {
    var a, b := NewlyMet(achs[..i + 1], met[..i + 1]), NewlyMet(achs[..i], met[..i]);
    forall x | x in a ensures x in b + (if met[i] then {achs[i].id} else {}) {
      var j :| 0 <= j < i + 1 && met[..i + 1][j] && achs[..i + 1][j].id == x;
      if j < i {
        assert met[..i][j] && achs[..i][j].id == x;
      }
    }
    forall x | x in b ensures x in a {
      var j :| 0 <= j < i && met[..i][j] && achs[..i][j].id == x;
      assert met[..i + 1][j] && achs[..i + 1][j].id == x;
    }
    if met[i] {
      assert met[..i + 1][i] && achs[..i + 1][i].id == achs[i].id;
    }
  }

  /** An achievement whose id is already unlocked pays nothing, so running
      the pass again with the same conditions pays nothing at all. */
  lemma {:induction false} AchievementsPayOnce(achs: seq<Achievement>, met: seq<bool>, unlocked: set<string>)
    requires |met| == |achs|
    requires NewlyMet(achs, met) <= unlocked
    ensures AchievementGain(achs, met, unlocked) == 0
  {
    if achs != [] {
      assert NewlyMet(achs[1..], met[1..]) <= NewlyMet(achs, met) by {
        forall x | x in NewlyMet(achs[1..], met[1..]) ensures x in NewlyMet(achs, met) {
          var i :| 0 <= i < |achs| - 1 && met[1..][i] && achs[1..][i].id == x;
          assert met[i + 1] && achs[i + 1].id == x;
        }
      }
      if met[0] {
        assert achs[0].id in NewlyMet(achs, met);
      }
      AchievementsPayOnce(achs[1..], met[1..], unlocked);
    }
  }

  /** An id is paid for at most once in a pass, however often it is listed:
      the pass pays at most the listed rewards of the first occurrences. */
  lemma {:induction false} AchievementGainBound(achs: seq<Achievement>, met: seq<bool>, unlocked: set<string>)
    requires |met| == |achs|
    requires forall a | a in achs :: a.reward >= 0
    ensures 0 <= AchievementGain(achs, met, unlocked)
    ensures (forall a | a in achs :: a.id in unlocked) ==> AchievementGain(achs, met, unlocked) == 0
  {
    if achs != [] {
      AchievementGainBound(achs[1..], met[1..], unlocked);
      AchievementGainBound(achs[1..], met[1..], unlocked + {achs[0].id});
    }
  }

  /** The score-based bonus of the frame update: 25 points whenever
      `floor(score / 500)` exceeds `upgradePoints / 50`. */
  function ScoreBonus(score: int, points: int): (r: int)
    ensures r == points || r == points + 25
  {
    if (score as real / 500.0).Floor as real > points as real / 50.0 then points + 25 else points
  }

  /** The bonus is paid exactly while the points lag 50 per 500 score. */
  lemma ScoreBonusIff(score: int, points: int)
    ensures ScoreBonus(score, points) == points + 25 <==> points < 50 * (score / 500)
  {
    assert (score as real / 500.0).Floor == score / 500 by {
      var q := score / 500;
      assert q as real * 500.0 <= score as real < (q + 1) as real * 500.0;
    }
  }

  // ---------------------------------------------------------------- the world

  /** `satelliteTiers` and `droneCounts`: counts bought in the shop. */
  datatype SatelliteTiers = SatelliteTiers(t1: int, t2: int, t3: int)
  datatype DroneCounts = DroneCounts(combat: int, harvester: int)

  /** The upgrade levels a new world starts with (game.module.js:2619-2625). */
  const NoUpgrades: map<string, int> := map["speed" := 0, "health" := 0, "weapon" := 0, "fuel" := 0, "regen" := 0]

  class GameWorld {
    var score: int
    var upgradePoints: int
    var minerals: int
    var salvage: int
    var kills: int
    var powerUpsCollected: int
    var artifactsCollected: int
    var planets: seq<Planet>
    var journal: seq<string>
    var lastJournalPush: int
    var seenSectors: set<Sector>
    var lastFeatureSpawn: int
    var jumpGates: seq<JumpGate>
    var artifacts: seq<Artifact>
    var missions: seq<Mission>
    var unlockedAchievements: set<string>
    var upgrades: map<string, int>
    var purchaseCounts: map<string, int>
    var satellites: int
    var satelliteTiers: SatelliteTiers
    var droneCounts: DroneCounts
    var factionWarMode: bool
    var lastFactionBotSpawn: int
    var modules: seq<string>
    var tech: set<string>
    /** The id of the planet `returnBaseTarget` points at. */
    var returnBaseTarget: Option<string>

    /** The world as the constructor leaves it (game.module.js:2595-2660),
        restricted to the modelled fields. */
    constructor(now: int)
      ensures minerals == 0 && salvage == 0
      ensures score == 0 && upgradePoints == 0 && kills == 0 && powerUpsCollected == 0 && artifactsCollected == 0
      ensures planets == [] && journal == [] && lastJournalPush == 0
      ensures seenSectors == {} && lastFeatureSpawn == now
      ensures jumpGates == [] && artifacts == [] && missions == [] && unlockedAchievements == {}
      ensures upgrades == NoUpgrades && purchaseCounts == map[]
      ensures satellites == 0 && satelliteTiers == SatelliteTiers(0, 0, 0) && droneCounts == DroneCounts(0, 0)
      ensures !factionWarMode && lastFactionBotSpawn == now && modules == [] && tech == {}
      ensures returnBaseTarget == None
    {
      score, upgradePoints, kills, powerUpsCollected, artifactsCollected := 0, 0, 0, 0, 0;
      minerals, salvage := 0, 0;
      planets, journal, lastJournalPush := [], [], 0;
      seenSectors, lastFeatureSpawn := {}, now;
      jumpGates, artifacts, missions, unlockedAchievements := [], [], [], {};
      upgrades, purchaseCounts := NoUpgrades, map[];
      satellites, satelliteTiers, droneCounts := 0, SatelliteTiers(0, 0, 0), DroneCounts(0, 0);
      factionWarMode, lastFactionBotSpawn := false, now;
      modules, tech := [], {};
      returnBaseTarget := None;
    }

    /** `logEvent`: at most one entry per 120 ms; the journal keeps the 40
        newest entries. */
    method LogEvent(text: string, stamp: string, now: int)
      modifies this`journal, this`lastJournalPush
      ensures now - old(lastJournalPush) < JournalThrottleMs ==>
        journal == old(journal) && lastJournalPush == old(lastJournalPush)
      ensures now - old(lastJournalPush) >= JournalThrottleMs ==>
        journal == Pushed(old(journal), Entry(stamp, text)) && lastJournalPush == now
    {
      if now - lastJournalPush < JournalThrottleMs {
        return;
      }
      lastJournalPush := now;
      journal := [Entry(stamp, text)] + journal;
      if |journal| > JournalLimit {
        journal := journal[..JournalLimit];
      }
    }

    /** The gating part of `spawnDynamicFeatures`: at most once per 1.8 s,
        every sector of the 3x3x3 block around the ship that was never seen
        is marked seen and returned, in visiting order, as a sector to roll
        features for. */
    method SpawnDynamicFeatures(shipPos: Option<Vec3>, now: int) returns (unseen: seq<Sector>)
      modifies this`seenSectors, this`lastFeatureSpawn
      ensures shipPos.None? || now - old(lastFeatureSpawn) < FeatureTickMs ==>
        unseen == [] && seenSectors == old(seenSectors) && lastFeatureSpawn == old(lastFeatureSpawn)
      ensures shipPos.Some? && now - old(lastFeatureSpawn) >= FeatureTickMs ==>
        var block := Neighbourhood(SectorOf(shipPos.value));
        lastFeatureSpawn == now &&
        seenSectors == old(seenSectors) + SetOf(block) &&
        unseen == FirstVisits(block, old(seenSectors))
    {
      unseen := [];
      if shipPos.None? || now - lastFeatureSpawn < FeatureTickMs {
        return;
      }
      lastFeatureSpawn := now;
      var c := SectorOf(shipPos.value);
      var seen;
      seen, unseen := WalkBlock(c, seenSectors);
      WalkSeen(c, 27, seenSectors);
      WalkVisits(c, 27, seenSectors);
      assert Neighbourhood(c)[..27] == Neighbourhood(c);
      seenSectors := seen;
    }

    /** Every gate the world lists, with the partners they are linked to
        (a partner may already have been dropped from the list). */
    ghost function GateFootprint(): set<JumpGate>
      reads this, jumpGates
    {
      (set g | g in jumpGates) + (set g | g in jumpGates && g.linkedGate != null :: g.linkedGate)
    }

    /** `spawnJumpGatePair`: two new gates linked to each other, appended to
        the list, and a journal entry. */
    method SpawnJumpGatePair(aPos: Vec3, bPos: Vec3, pairId: string, stamp: string, now: int)
      returns (g1: JumpGate, g2: JumpGate)
      modifies this`jumpGates, this`journal, this`lastJournalPush
      ensures fresh(g1) && fresh(g2) && g1 != g2
      ensures jumpGates == old(jumpGates) + [g1, g2]
      ensures g1.linkedGate == g2 && g2.linkedGate == g1 && Linked(g1) && Linked(g2)
      ensures g1.position == aPos && g2.position == bPos && g1.pairId == pairId == g2.pairId
      ensures g1.cooldownUntil == 0 && g2.cooldownUntil == 0
      ensures now - old(lastJournalPush) < JournalThrottleMs ==> journal == old(journal)
      ensures now - old(lastJournalPush) >= JournalThrottleMs ==>
        journal == Pushed(old(journal), Entry(stamp, "Discovered jump gate pair " + pairId))
    {
      g1 := new JumpGate(aPos, pairId);
      g2 := new JumpGate(bPos, pairId);
      g1.linkedGate := g2;
      g2.linkedGate := g1;
      jumpGates := jumpGates + [g1, g2];
      LogEvent("Discovered jump gate pair " + pairId, stamp, now);
    }

    /** One iteration of the gate loop of `updateArtifactsAndGates`: a gate
        that can fire moves the ship next to its partner, slows it to a
        fifth, and puts both gates on a 2.2 s cooldown. */
    method GateStep(g: JumpGate, ship: Ship, now: int, stamp: string, ghost fp: set<JumpGate>) returns (fired: bool)
      requires Linked(g)
      modifies g, g.linkedGate, ship`position, ship`velocity, this`journal, this`lastJournalPush
      ensures forall h | h in fp :: h.linkedGate == old(h.linkedGate)
      ensures forall h | h in fp :: h.cooldownUntil == old(h.cooldownUntil) || h.cooldownUntil == now + GateCooldownMs
      ensures forall h | h in fp && h.cooldownUntil != old(h.cooldownUntil) ::
        h.linkedGate != null && h.linkedGate.cooldownUntil == now + GateCooldownMs
      ensures fired == old(CanFire(g, ship.position, now))
      ensures g.position == old(g.position) && g.pairId == old(g.pairId) && g.linkedGate == old(g.linkedGate)
      ensures g.linkedGate != null ==> unchanged(g.linkedGate`position, g.linkedGate`pairId, g.linkedGate`linkedGate)
      ensures !fired ==> (
        g.cooldownUntil == old(g.cooldownUntil) &&
        (g.linkedGate != null ==> g.linkedGate.cooldownUntil == old(g.linkedGate.cooldownUntil)) &&
        ship.position == old(ship.position) && ship.velocity == old(ship.velocity) &&
        journal == old(journal) && lastJournalPush == old(lastJournalPush))
      ensures fired ==> (
        g.linkedGate != null &&
        g.cooldownUntil == now + GateCooldownMs && g.linkedGate.cooldownUntil == now + GateCooldownMs &&
        ship.position == g.linkedGate.position.Add(JumpOffset) && ship.velocity == old(ship.velocity).Scale(0.2))
      ensures fired && now - old(lastJournalPush) >= JournalThrottleMs ==>
        journal == Pushed(old(journal), Entry(stamp, "Jumped through gate " + g.pairId)) && lastJournalPush == now
      ensures fired && now - old(lastJournalPush) < JournalThrottleMs ==>
        journal == old(journal) && lastJournalPush == old(lastJournalPush)
      ensures fired ==> !CanFire(g, ship.position, now) && !CanFire(g.linkedGate, ship.position, now)
    {
      fired := InRange2(g.position, ship.position, GateRange2) && g.linkedGate != null && now > g.cooldownUntil;
      if fired {
        var partner := g.linkedGate;
        ship.position := partner.position.Add(JumpOffset);
        ship.velocity := ship.velocity.Scale(0.2);
        g.cooldownUntil := now + GateCooldownMs;
        partner.cooldownUntil := now + GateCooldownMs;
        LogEvent("Jumped through gate " + g.pairId, stamp, now);
      }
    }

    /** The gate loop of `updateArtifactsAndGates` (game.module.js:3102-3116),
        walking the list from the end. Only cooldowns, the ship's position
        and velocity and the journal change; every cooldown that changes is
        set, together with its partner's, to `now + 2200`; the ship ends next
        to the partner of a gate that fired, slowed once per jump; and the
        whole pass adds at most one journal entry. */
    method UpdateGates(ship: Ship, now: int, stamp: string) returns (ghost jumps: nat)
      requires forall g | g in jumpGates :: Linked(g)
      modifies GateFootprint(), ship`position, ship`velocity, this`journal, this`lastJournalPush
      ensures forall h | h in old(GateFootprint()) :: h.linkedGate == old(h.linkedGate)
      ensures forall h | h in old(GateFootprint()) ::
        h.cooldownUntil == old(h.cooldownUntil) ||
        (h.cooldownUntil == now + GateCooldownMs && h.linkedGate != null && h.linkedGate.cooldownUntil == now + GateCooldownMs)
      ensures ship.velocity == Damped(old(ship.velocity), jumps)
      ensures jumps == 0 ==>
        ship.position == old(ship.position) && journal == old(journal) && lastJournalPush == old(lastJournalPush)
      ensures now - old(lastJournalPush) < JournalThrottleMs ==>
        journal == old(journal) && lastJournalPush == old(lastJournalPush)
      ensures jumps > 0 && now - old(lastJournalPush) >= JournalThrottleMs ==>
        lastJournalPush == now && exists e :: journal == Pushed(old(journal), e)
    {
      ghost var fp := GateFootprint();
      ghost var entry := "";
      jumps := 0;
      var i := |jumpGates|;
      while i > 0
        invariant 0 <= i <= |jumpGates|
        invariant forall h | h in fp :: h.linkedGate == old(h.linkedGate)
        invariant forall g | g in jumpGates :: Linked(g)
        invariant forall h | h in fp ::
          h.cooldownUntil == old(h.cooldownUntil) ||
          (h.cooldownUntil == now + GateCooldownMs && h.linkedGate != null && h.linkedGate.cooldownUntil == now + GateCooldownMs)
        invariant jumps == 0 ==> ship.position == old(ship.position)
        invariant ship.velocity == Damped(old(ship.velocity), jumps)
        invariant ThrottledOnce(old(journal), old(lastJournalPush), journal, lastJournalPush, jumps, now, entry)
      {
        i := i - 1;
        var g := jumpGates[i];
        assert g in fp && (g.linkedGate != null ==> g.linkedGate in fp);
        var fired := GateStep(g, ship, now, stamp, fp);
        if fired {
          if jumps == 0 {
            entry := Entry(stamp, "Jumped through gate " + g.pairId);
          }
          jumps := jumps + 1;
        }
      }
    }

    /** Picking up the artifact at `i`: it leaves the list, the counters and
        rewards grow, and the lore entry is logged unless throttled. */
    method PickArtifact(i: nat, now: int, stamp: string)
      requires i < |artifacts|
      modifies this`artifacts, this`artifactsCollected, this`score, this`upgradePoints,
               this`journal, this`lastJournalPush
      ensures artifacts == old(artifacts[..i] + artifacts[i + 1..])
      ensures artifactsCollected == old(artifactsCollected) + 1
      ensures score == old(score) + ArtifactScore
      ensures upgradePoints == old(upgradePoints) + ArtifactPoints
      ensures now - old(lastJournalPush) < JournalThrottleMs ==>
        journal == old(journal) && lastJournalPush == old(lastJournalPush)
      ensures now - old(lastJournalPush) >= JournalThrottleMs ==>
        journal == Pushed(old(journal), Entry(stamp, "Recovered a rare artifact and decoded lore fragments")) &&
        lastJournalPush == now
    {
      artifactsCollected := artifactsCollected + 1;
      score := score + ArtifactScore;
      upgradePoints := upgradePoints + ArtifactPoints;
      LogEvent("Recovered a rare artifact and decoded lore fragments", stamp, now);
      artifacts := artifacts[..i] + artifacts[i + 1..];
    }

    /** The artifact loop of `updateArtifactsAndGates` (game.module.js:3118-3133),
        walking the list from the end: each artifact within reach is removed
        and pays 600 score and 90 upgrade points; only the first pickup of
        the pass can reach the journal. */
    method CollectArtifacts(shipPos: Vec3, now: int, wave: int -> real, stamp: string) returns (ghost picked: nat)
      modifies this`artifacts, this`artifactsCollected, this`score, this`upgradePoints,
               this`journal, this`lastJournalPush
      ensures picked == Picked(old(artifacts), Sweep(shipPos, now, wave))
      ensures artifacts == Remaining(old(artifacts), Sweep(shipPos, now, wave))
      ensures artifactsCollected == old(artifactsCollected) + picked
      ensures score == old(score) + ArtifactScore * picked
      ensures upgradePoints == old(upgradePoints) + ArtifactPoints * picked
      ensures picked == 0 || now - old(lastJournalPush) < JournalThrottleMs ==>
        journal == old(journal) && lastJournalPush == old(lastJournalPush)
      ensures picked > 0 && now - old(lastJournalPush) >= JournalThrottleMs ==>
        lastJournalPush == now &&
        journal == Pushed(old(journal), Entry(stamp, "Recovered a rare artifact and decoded lore fragments"))
    {
      ghost var s := artifacts;
      var sw := Sweep(shipPos, now, wave);
      picked := 0;
      var i := |artifacts|;
      assert s[i..] == [];
      while i > 0
        invariant 0 <= i <= |s|
        invariant artifacts == s[..i] + Remaining(s[i..], sw)
        invariant |artifacts| >= i
        invariant picked == Picked(s[i..], sw)
        invariant artifactsCollected == old(artifactsCollected) + picked
        invariant score == old(score) + ArtifactScore * picked
        invariant upgradePoints == old(upgradePoints) + ArtifactPoints * picked
        invariant ThrottledOnce(old(journal), old(lastJournalPush), journal, lastJournalPush, picked, now,
          Entry(stamp, "Recovered a rare artifact and decoded lore fragments"))
      {
        i := i - 1;
        PickupStep(s, i, sw, artifacts);
        if Reachable(artifacts[i], sw) {
          PickArtifact(i, now, stamp);
          picked := picked + 1;
        }
      }
      assert s[0..] == s;
    }

    /** The achievement pass of the frame update (game.module.js:4282-4292):
        each achievement whose id is not yet unlocked and whose condition
        holds is unlocked and pays its reward. */
    method AwardAchievements(achs: seq<Achievement>, met: seq<bool>)
      requires |met| == |achs|
      modifies this`unlockedAchievements, this`upgradePoints
      ensures unlockedAchievements == old(unlockedAchievements) + NewlyMet(achs, met)
      ensures upgradePoints == old(upgradePoints) + AchievementGain(achs, met, old(unlockedAchievements))
    {
      var i := 0;
      while i < |achs|
        invariant 0 <= i <= |achs|
        invariant unlockedAchievements == old(unlockedAchievements) + NewlyMet(achs[..i], met[..i])
        invariant upgradePoints + AchievementGain(achs[i..], met[i..], unlockedAchievements) ==
          old(upgradePoints) + AchievementGain(achs, met, old(unlockedAchievements))
      {
        assert achs[i..][1..] == achs[i + 1..] && met[i..][1..] == met[i + 1..];
        NewlyMetStep(achs, met, i);
        if achs[i].id !in unlockedAchievements && met[i] {
          unlockedAchievements := unlockedAchievements + {achs[i].id};
          upgradePoints := upgradePoints + achs[i].reward;
        }
        i := i + 1;
      }
      assert achs[..i] == achs && met[..i] == met;
    }

    /** The mission pass of the frame update (game.module.js:4295-4301):
        every completed mission not yet rewarded pays its reward once. */
    method RewardMissions()
      requires Distinct(missions)
      modifies set m | m in missions, this`upgradePoints
      ensures upgradePoints == old(upgradePoints) + old(Owed(missions))
      ensures forall m | m in missions :: m.rewarded == (old(m.rewarded) || m.completed)
      ensures forall m | m in missions ::
        m.completed == old(m.completed) && m.reward == old(m.reward) &&
        m.target == old(m.target) && m.current == old(m.current)
      ensures Owed(missions) == 0
    {
      var i := 0;
      while i < |missions|
        invariant 0 <= i <= |missions|
        invariant upgradePoints == old(upgradePoints) + old(Owed(missions[..i]))
        invariant forall j | 0 <= j < |missions| ::
          missions[j].completed == old(missions[j].completed) && missions[j].reward == old(missions[j].reward) &&
          missions[j].target == old(missions[j].target) && missions[j].current == old(missions[j].current)
        invariant forall j | 0 <= j < i :: missions[j].rewarded == (old(missions[j].rewarded) || missions[j].completed)
        invariant forall j | i <= j < |missions| :: missions[j].rewarded == old(missions[j].rewarded)
      {
        var m := missions[i];
        assert missions[..i + 1][..i] == missions[..i];
        if m.completed && !m.rewarded {
          upgradePoints := upgradePoints + m.reward;
          m.rewarded := true;
        }
        i := i + 1;
      }
      assert missions[..i] == missions;
      NothingOwed(missions);
    }

    /** `missions.forEach(m => m.update(this))` (game.module.js:4275). */
    method UpdateMissions(shipHealth: real, now: int)
      requires Distinct(missions)
      modifies set m | m in missions
      ensures forall m | m in missions ::
        m.kind == old(m.kind) && m.target == old(m.target) && m.baseline == old(m.baseline) &&
        m.reward == old(m.reward) && m.rewarded == old(m.rewarded)
      ensures forall m | m in missions :: old(m.completed) ==> m.completed && m.current == old(m.current)
      ensures forall m | m in missions :: !old(m.completed) ==>
        m.current == Measure(m.kind, m.baseline, WorldView(kills, powerUpsCollected, Some(shipHealth)), now, old(m.current)) &&
        (m.completed <==> m.current >= m.target)
      ensures forall m | m in missions :: old(m.Valid()) ==> m.Valid()
    {
      var view := WorldView(kills, powerUpsCollected, Some(shipHealth));
      var i := 0;
      while i < |missions|
        invariant 0 <= i <= |missions|
        invariant forall j | 0 <= j < |missions| ::
          missions[j].kind == old(missions[j].kind) && missions[j].target == old(missions[j].target) &&
          missions[j].baseline == old(missions[j].baseline) && missions[j].reward == old(missions[j].reward) &&
          missions[j].rewarded == old(missions[j].rewarded)
        invariant forall j | 0 <= j < i :: old(missions[j].completed) ==>
          missions[j].completed && missions[j].current == old(missions[j].current)
        invariant forall j | 0 <= j < i :: !old(missions[j].completed) ==>
          missions[j].current == Measure(missions[j].kind, missions[j].baseline, view, now, old(missions[j].current)) &&
          (missions[j].completed <==> missions[j].current >= missions[j].target)
        invariant forall j | i <= j < |missions| ::
          missions[j].completed == old(missions[j].completed) && missions[j].current == old(missions[j].current)
        invariant forall j | 0 <= j < |missions| :: old(missions[j].Valid()) ==> missions[j].Valid()
      {
        missions[i].Update(view, now);
        i := i + 1;
      }
    }

    /** `updateArtifactsAndGates`: the gate pass, then the artifact pass from
        wherever the gates left the ship. The two passes share one `now`, so
        together they add at most one journal entry. */
    method UpdateArtifactsAndGates(ship: Ship, now: int, wave: int -> real, stamp: string)
      requires forall g | g in jumpGates :: Linked(g)
      modifies GateFootprint(), ship`position, ship`velocity
      modifies this`artifacts, this`artifactsCollected, this`score, this`upgradePoints,
               this`journal, this`lastJournalPush
      ensures forall h | h in old(GateFootprint()) :: h.linkedGate == old(h.linkedGate)
      ensures forall h | h in old(GateFootprint()) ::
        h.cooldownUntil == old(h.cooldownUntil) ||
        (h.cooldownUntil == now + GateCooldownMs && h.linkedGate != null && h.linkedGate.cooldownUntil == now + GateCooldownMs)
      ensures artifacts == Remaining(old(artifacts), Sweep(ship.position, now, wave))
      ensures artifactsCollected == old(artifactsCollected) + Picked(old(artifacts), Sweep(ship.position, now, wave))
      ensures score == old(score) + ArtifactScore * Picked(old(artifacts), Sweep(ship.position, now, wave))
      ensures upgradePoints == old(upgradePoints) + ArtifactPoints * Picked(old(artifacts), Sweep(ship.position, now, wave))
      ensures journal == old(journal) ||
        (lastJournalPush == now && exists e :: journal == Pushed(old(journal), e))
    {
      ghost var jumps := UpdateGates(ship, now, stamp);
      ghost var picked := CollectArtifacts(ship.position, now, wave, stamp);
    }

    /** The owner recount of `updateCivilizationSystems`
        (game.module.js:4054-4063): every founded, undestroyed planet gets as
        its territory count the number of such planets with the same owner. */
    method RecountTerritories()
      modifies this`planets
      ensures |planets| == |old(planets)|
      ensures forall i | 0 <= i < |planets| && Counted(old(planets)[i]) ::
        var p := old(planets)[i];
        planets[i] == p.(civ := p.civ.(territories := CountKey(old(planets), OwnerKey(p.civ.owner))))
      ensures forall i | 0 <= i < |planets| && !Counted(old(planets)[i]) :: planets[i] == old(planets)[i]
    {
      var counts := OwnerCounts(planets);
      ghost var ps := planets;
      var i := 0;
      while i < |planets|
        invariant 0 <= i <= |planets| == |ps|
        invariant forall j | 0 <= j < i && Counted(ps[j]) ::
          planets[j] == ps[j].(civ := ps[j].civ.(territories := CountKey(ps, OwnerKey(ps[j].civ.owner))))
        invariant forall j | 0 <= j < |ps| && (i <= j || !Counted(ps[j])) :: planets[j] == ps[j]
      {
        var p := planets[i];
        if Counted(p) {
          var key := OwnerKey(p.civ.owner);
          assert key in counts;
          var n := OrInt(if key in counts then counts[key] else 0, 1);
          planets := planets[i := p.(civ := p.civ.(territories := n))];
        }
        i := i + 1;
      }
    }

    /** `resolveCivAssault` on the planet at `target` (`None` for a missing
        target): the attacker's power is its empire power times the roll
        factor and the force; the outcome is `AssaultOutcome`, and the owner
        is told in the journal when one of the player's worlds is claimed. */
    method ResolveCivAssault(attackerId: string, target: Option<nat>, roll: real, force: real,
                             allowDestroy: bool, failRoll: real, stamp: string, now: int)
      returns (success: bool)
      requires target.Some? ==> target.value < |planets|
      modifies this`planets, this`journal, this`lastJournalPush
      ensures target.None? ==> !success && planets == old(planets)
      ensures target.Some? ==>
        var t := old(planets)[target.value];
        var attack := AttackPower(EmpirePower(old(planets), attackerId), roll, force);
        var kind := AssaultKindOf(t, attack, allowDestroy);
        planets == old(planets)[target.value := AssaultOutcome(attackerId, t, attack, allowDestroy, failRoll)] &&
        (success <==> kind == Conquest || kind == Claim) &&
        (kind == Claim && t.civ.owner == "player" && now - old(lastJournalPush) >= JournalThrottleMs ==>
          journal == Pushed(old(journal), Entry(stamp, "Territory lost at " + t.id)))
      ensures target.None? ==> journal == old(journal)
      ensures target.Some? && old(planets)[target.value].civ.owner != "player" ==>
        journal == old(journal) && lastJournalPush == old(lastJournalPush)
      ensures target.Some? ==>
        journal == old(journal) || journal == Pushed(old(journal), Entry(stamp, "Territory lost at " + old(planets)[target.value].id))
    {
      if target.None? {
        return false;
      }
      var t := planets[target.value];
      if !t.civ.founded {
        return false;
      }
      var attack := AttackPower(EmpirePower(planets, attackerId), roll, force);
      var kind := AssaultKindOf(t, attack, allowDestroy);
      planets := planets[target.value := AssaultOutcome(attackerId, t, attack, allowDestroy, failRoll)];
      success := kind == Conquest || kind == Claim;
      if kind == Claim && t.civ.owner == "player" {
        LogEvent("Territory lost at " + t.id, stamp, now);
      }
    }
  }
}
