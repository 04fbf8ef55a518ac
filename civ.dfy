/** Planets, their civilization records and the empire rules of
    `GameWorld` (assets/js/game.module.js:3927-4099): empire power, the search
    for a rival world, the galactic leaderboard, the outcome of an assault,
    the per-owner territory count and the AI raid tier. */
module Civilization {
  import opened Numeric

  datatype Engineering = Engineering(
    atmosphere: int, movedMoons: int, artificialRings: int,
    starDetonated: int, dysonSwarms: int)

  /** A planet's civilization record. Display names and the government label
      are not part of the model. */
  datatype Civ = Civ(
    founded: bool,
    owner: string,
    governmentLevel: int,
    legalLevel: int,
    economyTier: int,
    civScore: int,
    territories: int,
    defenseRating: real,
    destroyed: bool,
    atWar: bool,
    lastWarAt: real,
    warEndsAt: real,
    lastWarWaveAt: real,
    population: int,
    stability: real)

  datatype ShopItem = ShopItem(name: string, itemType: string, price: int, amount: int)

  datatype Planet = Planet(
    id: string,
    position: Vec3,
    radius: real,
    hasBase: bool,
    baseLevel: int,
    terraformed: bool,
    engineering: Engineering,
    civ: Civ,
    shop: seq<ShopItem>)

  /** What a freshly constructed `Planet` carries (game.module.js:721-769). */
  const NoEngineering := Engineering(0, 0, 0, 0, 0)
  const UnfoundedCiv := Civ(false, "neutral", 0, 0, 0, 0, 0, 1.0, false, false, 0.0, 0.0, 0.0, 0, 35.0)
  const DefaultShop := [
    ShopItem("Extra Rocket Stage", "stage", 500, 0),
    ShopItem("Satellite T1", "satellite_t1", 800, 0),
    ShopItem("Satellite T2", "satellite_t2", 1800, 0),
    ShopItem("Satellite T3", "satellite_t3", 3200, 0),
    ShopItem("Form Base", "base", 2000, 0),
    ShopItem("Ammo Pack", "ammo", 50, 100),
    ShopItem("Fuel Canister", "fuel", 75, 50),
    ShopItem("Shield Module", "shield", 100, 100),
    ShopItem("Health Repair", "health", 150, 100)
  ]

  function NewPlanet(id: string, position: Vec3, radius: real): Planet {
    Planet(id, position, radius, false, 0, false, NoEngineering, UnfoundedCiv, DefaultShop)
  }

  /** `planets.find(p => p.id === id)`: the first planet carrying the id. */
  function PlanetById(ps: seq<Planet>, id: string): (r: Option<Planet>)
    ensures r.None? <==> forall i | 0 <= i < |ps| :: ps[i].id != id
    ensures r.Some? ==> r.value.id == id && r.value in ps
  {
    if ps == [] then None
    else if ps[0].id == id then Some(ps[0])
    else PlanetById(ps[1..], id)
  }

  /** The ranges the persistence codec guarantees for a civilization record. */
  predicate CivBounded(c: Civ) {
    c.governmentLevel >= 0 && c.legalLevel >= 0 && c.economyTier >= 0 &&
    c.civScore >= 0 && c.territories >= 0 && c.population >= 0 &&
    c.defenseRating >= 1.0 && 0.0 <= c.stability <= 100.0
  }

  /** `owner || 'neutral'` */
  function OwnerKey(owner: string): string { if owner == "" then "neutral" else owner }

  // ---------------------------------------------------------------- empire power

  predicate Owns(p: Planet, owner: string) { p.civ.founded && p.civ.owner == owner }

  /** One planet's share of its owner's empire power; a stability of 0 counts as 50. */
  function LocalPower(c: Civ): real {
    (c.economyTier * 28 + c.governmentLevel * 18 + c.legalLevel * 12) as real + Or(c.stability, 50.0) * 0.9
  }

  /** `calculateEmpirePower` (game.module.js:3927-3935): the sum of `LocalPower`
      over the founded planets the owner holds (destroyed ones included). */
  function EmpirePower(ps: seq<Planet>, owner: string): (r: real)
    ensures (forall i | 0 <= i < |ps| :: !Owns(ps[i], owner)) ==> r == 0.0
    ensures (forall i | 0 <= i < |ps| :: Owns(ps[i], owner) ==> CivBounded(ps[i].civ)) ==> r >= 0.0
    ensures ((forall i | 0 <= i < |ps| :: Owns(ps[i], owner) ==> CivBounded(ps[i].civ)) &&
             (exists i | 0 <= i < |ps| :: Owns(ps[i], owner))) ==> r > 0.0
  {
    if ps == [] then 0.0
    else
      assert forall i | 1 <= i < |ps| :: ps[1..][i - 1] == ps[i];
      (if Owns(ps[0], owner) then LocalPower(ps[0].civ) else 0.0) + EmpirePower(ps[1..], owner)
  }

  lemma {:induction false} EmpirePowerAppend(a: seq<Planet>, b: seq<Planet>, owner: string)
    ensures EmpirePower(a + b, owner) == EmpirePower(a, owner) + EmpirePower(b, owner)
  {
    if a != [] {
      assert (a + b)[1..] == a[1..] + b;
      EmpirePowerAppend(a[1..], b, owner);
    } else {
      assert a + b == b;
    }
  }

  /** A stability of exactly 0 is read as 50 by `(c.stability || 50)`. */
  lemma ZeroStabilityCountsAsFifty(c: Civ)
    ensures LocalPower(c.(stability := 0.0)) == LocalPower(c.(stability := 50.0))
    ensures DefenderPower(c.(stability := 0.0)) == DefenderPower(c.(stability := 50.0))
  {
  }

  /** The defender's strength in `resolveCivAssault` (game.module.js:3972). */
  function DefenderPower(c: Civ): real {
    ((c.economyTier * 26 + c.governmentLevel * 16 + c.legalLevel * 13) as real + Or(c.stability, 50.0)) *
      Or(c.defenseRating, 1.0)
  }

  lemma DefenderPowerPositive(c: Civ)
    requires CivBounded(c)
    ensures DefenderPower(c) >= (c.economyTier * 26 + c.governmentLevel * 16 + c.legalLevel * 13) as real + Or(c.stability, 50.0) > 0.0
  {
    var base := (c.economyTier * 26 + c.governmentLevel * 16 + c.legalLevel * 13) as real + Or(c.stability, 50.0);
    var rating := Or(c.defenseRating, 1.0);
    assert rating >= 1.0;
    assert base * rating == base + base * (rating - 1.0);
    assert base * (rating - 1.0) >= 0.0;
  }

  // ---------------------------------------------------------------- rival search

  predicate IsRival(p: Planet, owner: string) {
    p.civ.founded && !p.civ.destroyed && p.civ.owner != owner
  }

  /** The first rival planet at or after `from`. */
  function FirstRival(ps: seq<Planet>, owner: string, from: nat): (r: Option<nat>)
    requires from <= |ps|
    ensures r.None? <==> forall j | from <= j < |ps| :: !IsRival(ps[j], owner)
    ensures r.Some? ==> from <= r.value < |ps| && IsRival(ps[r.value], owner) &&
                        forall j | from <= j < r.value :: !IsRival(ps[j], owner)
    decreases |ps| - from
  {
    if from == |ps| then None
    else if IsRival(ps[from], owner) then Some(from)
    else FirstRival(ps, owner, from + 1)
  }

  /** The rival nearest the origin at or after `from`; among equally near
      rivals the earliest wins, as a stable sort by distance leaves it first. */
  function NearestRival(ps: seq<Planet>, owner: string, dist: seq<real>, from: nat): (r: Option<nat>)
    requires |dist| == |ps| && from <= |ps|
    ensures r.None? <==> forall j | from <= j < |ps| :: !IsRival(ps[j], owner)
    ensures r.Some? ==> from <= r.value < |ps| && IsRival(ps[r.value], owner)
    ensures r.Some? ==> forall j | from <= j < |ps| && IsRival(ps[j], owner) :: dist[r.value] <= dist[j]
    ensures r.Some? ==> forall j | from <= j < r.value && IsRival(ps[j], owner) :: dist[r.value] < dist[j]
    decreases |ps| - from
  {
    if from == |ps| then None
    else
      var rest := NearestRival(ps, owner, dist, from + 1);
      if IsRival(ps[from], owner) && (rest.None? || dist[from] <= dist[rest.value]) then Some(from)
      else rest
  }

  /** `findRivalCivilizedPlanet` (game.module.js:3937-3942): a founded,
      undestroyed planet owned by someone else; with an origin planet, the
      nearest such one (`dist` holds each planet's distance to the origin). */
  function FindRivalCivilizedPlanet(ps: seq<Planet>, owner: string, origin: Option<seq<real>>): (r: Option<nat>)
    requires origin.Some? ==> |origin.value| == |ps|
    ensures r.None? <==> forall j | 0 <= j < |ps| :: !IsRival(ps[j], owner)
    ensures r.Some? ==> r.value < |ps| && IsRival(ps[r.value], owner)
    ensures r.Some? && origin.None? ==> forall j | 0 <= j < r.value :: !IsRival(ps[j], owner)
    ensures r.Some? && origin.Some? ==>
              forall j | 0 <= j < |ps| && IsRival(ps[j], owner) :: origin.value[r.value] <= origin.value[j]
  {
    match origin
    case None => FirstRival(ps, owner, 0)
    case Some(d) => NearestRival(ps, owner, d, 0)
  }

  // ---------------------------------------------------------------- leaderboard

  datatype AiCiv = AiCiv(id: string, name: string, score: int, aggression: real)

  datatype Row = Row(id: string, score: int, territories: int, isPlayer: bool)

  function OwnedCount(ps: seq<Planet>, owner: string): nat {
    if ps == [] then 0 else (if Owns(ps[0], owner) then 1 else 0) + OwnedCount(ps[1..], owner)
  }

  function OwnedCivScore(ps: seq<Planet>, owner: string): int {
    if ps == [] then 0 else (if Owns(ps[0], owner) then ps[0].civ.civScore else 0) + OwnedCivScore(ps[1..], owner)
  }

  function AiRow(ai: AiCiv, ps: seq<Planet>): Row {
    Row(ai.id, MaxInt(0, OwnedCivScore(ps, ai.id) + OwnedCount(ps, ai.id) * 350), OwnedCount(ps, ai.id), false)
  }

  function AiRows(ais: seq<AiCiv>, ps: seq<Planet>): (r: seq<Row>)
    ensures |r| == |ais|
  {
    if ais == [] then [] else [AiRow(ais[0], ps)] + AiRows(ais[1..], ps)
  }

  function PlayerRow(ps: seq<Planet>, score: int): Row {
    Row("player", MaxInt(0, score), OwnedCount(ps, "player"), true)
  }

  predicate SortedByScore(s: seq<Row>) {
    forall i, j | 0 <= i < j < |s| :: s[i].score >= s[j].score
  }

  /** Where `Insert` puts `x`: in front of the first row scoring no more than it. */
  function InsertIndex(x: Row, s: seq<Row>): (k: nat)
    ensures k <= |s|
    ensures forall j | 0 <= j < k :: s[j].score > x.score
    ensures k < |s| ==> s[k].score <= x.score
  {
    if s == [] || s[0].score <= x.score then 0 else 1 + InsertIndex(x, s[1..])
  }

  function Insert(x: Row, s: seq<Row>): seq<Row> {
    if s == [] || s[0].score <= x.score then [x] + s else [s[0]] + Insert(x, s[1..])
  }

  lemma {:induction false} InsertShape(x: Row, s: seq<Row>)
    ensures Insert(x, s) == s[..InsertIndex(x, s)] + [x] + s[InsertIndex(x, s)..]
  {
    if s == [] || s[0].score <= x.score {
    } else {
      InsertShape(x, s[1..]);
      assert s[1..][..InsertIndex(x, s[1..])] == s[1..1 + InsertIndex(x, s[1..])];
      assert s[..InsertIndex(x, s)] == [s[0]] + s[1..][..InsertIndex(x, s[1..])];
    }
  }

  lemma {:induction false} InsertMultiset(x: Row, s: seq<Row>)
    ensures multiset(Insert(x, s)) == multiset(s) + multiset{x}
  {
    if s != [] && s[0].score > x.score {
      InsertMultiset(x, s[1..]);
      assert s == [s[0]] + s[1..];
    }
  }

  lemma {:induction false} InsertBounded(x: Row, s: seq<Row>, b: int)
    requires x.score <= b && forall i | 0 <= i < |s| :: s[i].score <= b
    ensures forall i | 0 <= i < |Insert(x, s)| :: Insert(x, s)[i].score <= b
  {
    if s != [] && s[0].score > x.score {
      InsertBounded(x, s[1..], b);
    }
  }

  lemma {:induction false} InsertSorted(x: Row, s: seq<Row>)
    requires SortedByScore(s)
    ensures SortedByScore(Insert(x, s))
  {
    if s == [] || s[0].score <= x.score {
    } else {
      InsertSorted(x, s[1..]);
      InsertBounded(x, s[1..], s[0].score);
      var t := Insert(x, s[1..]);
      var r := [s[0]] + t;
      assert r == Insert(x, s);
      forall i, j | 0 <= i < j < |r| ensures r[i].score >= r[j].score {
        if i > 0 {
          assert r[i] == t[i - 1] && r[j] == t[j - 1];
        } else {
          assert r[j] == t[j - 1];
        }
      }
    }
  }

  /** A stable sort by descending score, as `Array.prototype.sort` does with
      `(a, b) => b.score - a.score`. */
  function SortByScore(s: seq<Row>): seq<Row> {
    if s == [] then [] else Insert(s[0], SortByScore(s[1..]))
  }

  lemma {:induction false} SortByScoreCorrect(s: seq<Row>)
    ensures SortedByScore(SortByScore(s))
    ensures multiset(SortByScore(s)) == multiset(s)
  {
    if s != [] {
      SortByScoreCorrect(s[1..]);
      InsertSorted(s[0], SortByScore(s[1..]));
      InsertMultiset(s[0], SortByScore(s[1..]));
      assert s == [s[0]] + s[1..];
    }
  }

  /** `getGalacticLeaderboard` (game.module.js:3944-3966): the player's row and
      one row per AI civilization, best score first. */
  function GalacticLeaderboard(ais: seq<AiCiv>, ps: seq<Planet>, score: int): seq<Row> {
    SortByScore([PlayerRow(ps, score)] + AiRows(ais, ps))
  }

  lemma AiRowsNonNegative(ais: seq<AiCiv>, ps: seq<Planet>)
    ensures forall i | 0 <= i < |AiRows(ais, ps)| :: AiRows(ais, ps)[i].score >= 0 && !AiRows(ais, ps)[i].isPlayer
  {
    if ais != [] {
      AiRowsNonNegative(ais[1..], ps);
    }
  }

  /** The leaderboard is sorted, holds exactly the player row and the AI
      rows, and never shows a negative score. */
  lemma LeaderboardSorted(ais: seq<AiCiv>, ps: seq<Planet>, score: int)
    ensures SortedByScore(GalacticLeaderboard(ais, ps, score))
    ensures multiset(GalacticLeaderboard(ais, ps, score)) == multiset([PlayerRow(ps, score)] + AiRows(ais, ps))
    ensures forall i | 0 <= i < |GalacticLeaderboard(ais, ps, score)| :: GalacticLeaderboard(ais, ps, score)[i].score >= 0
  {
    var rows := [PlayerRow(ps, score)] + AiRows(ais, ps);
    var r := GalacticLeaderboard(ais, ps, score);
    SortByScoreCorrect(rows);
    AiRowsNonNegative(ais, ps);
    forall i | 0 <= i < |r| ensures r[i].score >= 0 {
      assert r[i] in multiset(rows);
      assert r[i] in rows;
    }
  }

  /** The player is ranked ahead of every AI that does not score strictly more:
      only higher rows precede it. */
  lemma {:induction false} LeaderboardPlayerRank(ais: seq<AiCiv>, ps: seq<Planet>, score: int)
    ensures exists k | 0 <= k < |GalacticLeaderboard(ais, ps, score)| ::
      GalacticLeaderboard(ais, ps, score)[k] == PlayerRow(ps, score) &&
      forall j | 0 <= j < k :: GalacticLeaderboard(ais, ps, score)[j].score > PlayerRow(ps, score).score
  {
    var p := PlayerRow(ps, score);
    var rows := [p] + AiRows(ais, ps);
    assert rows[1..] == AiRows(ais, ps);
    var sorted := SortByScore(AiRows(ais, ps));
    var r := GalacticLeaderboard(ais, ps, score);
    assert r == Insert(p, sorted);
    InsertShape(p, sorted);
    var k := InsertIndex(p, sorted);
    assert r[k] == p;
    assert forall j | 0 <= j < k :: r[j] == sorted[j];
  }

  // ---------------------------------------------------------------- assault

  datatype AssaultKind = NotFounded | Conquest | Claim | Repelled

  /** The attacker's strength: empire power times a roll in [0.6, 1.4) times the force. */
  function AttackPower(empire: real, roll: real, force: real): real {
    empire * (0.6 + roll * 0.8) * force
  }

  function AssaultKindOf(t: Planet, attack: real, allowDestroy: bool): AssaultKind {
    if !t.civ.founded then NotFounded
    else if attack > DefenderPower(t.civ) * 1.7 && allowDestroy then Conquest
    else if attack > DefenderPower(t.civ) * 0.95 then Claim
    else Repelled
  }

  /** The target planet after `resolveCivAssault` (game.module.js:3968-4014);
      `failRoll` is the draw behind the failed assault's stability loss. */
  function AssaultOutcome(attackerId: string, t: Planet, attack: real, allowDestroy: bool, failRoll: real): (r: Planet)
    ensures r.id == t.id && r.position == t.position && r.engineering == t.engineering && r.shop == t.shop
    ensures AssaultKindOf(t, attack, allowDestroy) == NotFounded ==> r == t
    ensures AssaultKindOf(t, attack, allowDestroy) == Conquest ==>
      r.civ.founded && !r.civ.destroyed && r.civ.owner == attackerId &&
      !r.hasBase && r.baseLevel == 0 && !r.terraformed &&
      r.civ.stability == Max(10.0, Or(t.civ.stability, 50.0) - 25.0) &&
      r.civ.civScore == t.civ.civScore
    ensures AssaultKindOf(t, attack, allowDestroy) == Claim ==>
      r.civ.founded && !r.civ.destroyed && r.civ.owner == attackerId &&
      r.hasBase == t.hasBase && r.baseLevel == t.baseLevel && r.terraformed == t.terraformed &&
      r.civ.stability == Max(28.0, Or(t.civ.stability, 50.0) - 8.0) &&
      r.civ.civScore == MaxInt(100, (OrInt(t.civ.civScore, 800) as real * 0.9).Floor)
    ensures AssaultKindOf(t, attack, allowDestroy) == Repelled ==>
      r == t.(civ := t.civ.(stability := Max(12.0, Or(t.civ.stability, 50.0) - Ceil(4.0 + failRoll * 7.0) as real)))
  {
    var c := t.civ;
    match AssaultKindOf(t, attack, allowDestroy)
    case NotFounded => t
    case Conquest =>
      t.(hasBase := false, baseLevel := 0, terraformed := false,
         civ := c.(destroyed := false, founded := true, owner := attackerId,
                   stability := Max(10.0, Or(c.stability, 50.0) - 25.0)))
    case Claim =>
      t.(civ := c.(owner := attackerId, founded := true, destroyed := false,
                   stability := Max(28.0, Or(c.stability, 50.0) - 8.0),
                   civScore := MaxInt(100, (OrInt(c.civScore, 800) as real * 0.9).Floor)))
    case Repelled =>
      t.(civ := c.(stability := Max(12.0, Or(c.stability, 50.0) - Ceil(4.0 + failRoll * 7.0) as real)))
  }

  /** Against a bounded defender, exactly conquest and claim report success,
      and only they change the owner. */
  lemma AssaultOwnership(attackerId: string, t: Planet, attack: real, allowDestroy: bool, failRoll: real)
    requires CivBounded(t.civ)
    ensures var k := AssaultKindOf(t, attack, allowDestroy);
      (k == Conquest || k == Claim) <==> (t.civ.founded && attack > DefenderPower(t.civ) * 0.95)
    ensures var k := AssaultKindOf(t, attack, allowDestroy);
      var r := AssaultOutcome(attackerId, t, attack, allowDestroy, failRoll);
      (k == NotFounded || k == Repelled) ==> r.civ.owner == t.civ.owner && r.hasBase == t.hasBase
  {
    DefenderPowerPositive(t.civ);
  }

  /** A repelled assault lowers the defender's stability, unless it is already
      at 12 or below, where the floor of 12 holds it (and lifts it). */
  lemma RepelledStability(attackerId: string, t: Planet, attack: real, allowDestroy: bool, failRoll: real)
    requires 0.0 <= failRoll < 1.0
    requires AssaultKindOf(t, attack, allowDestroy) == Repelled
    ensures var s := t.civ.stability;
      var s' := AssaultOutcome(attackerId, t, attack, allowDestroy, failRoll).civ.stability;
      (s > 12.0 ==> s' < s) && (s <= 12.0 && s != 0.0 ==> s' == 12.0) && (s == 0.0 ==> 39.0 <= s' <= 46.0)
  {
    var k := Ceil(4.0 + failRoll * 7.0);
    assert 4 <= k <= 11;
  }

  /** An attacker with no founded planet has no power, so against a bounded
      defender the assault is always repelled. */
  lemma AssaultWithoutEmpireFails(attackerId: string, ps: seq<Planet>, t: Planet, roll: real, force: real, allowDestroy: bool)
    requires t.civ.founded && CivBounded(t.civ)
    requires forall i | 0 <= i < |ps| :: !Owns(ps[i], attackerId)
    ensures AssaultKindOf(t, AttackPower(EmpirePower(ps, attackerId), roll, force), allowDestroy) == Repelled
  {
    DefenderPowerPositive(t.civ);
  }

  // ---------------------------------------------------------------- territory recount

  /** Planets that take part in the recount: founded and not destroyed. */
  predicate Counted(p: Planet) { p.civ.founded && !p.civ.destroyed }

  function CountKey(ps: seq<Planet>, key: string): nat {
    if ps == [] then 0
    else CountKey(ps[..|ps| - 1], key) +
         (if Counted(ps[|ps| - 1]) && OwnerKey(ps[|ps| - 1].civ.owner) == key then 1 else 0)
  }

  /** The `ownerCounts` table of `updateCivilizationSystems`
      (game.module.js:4054-4060): for every owner of a counted planet, how many
      counted planets it owns. */
  method OwnerCounts(ps: seq<Planet>) returns (m: map<string, int>)
    ensures forall k :: k in m <==> exists i | 0 <= i < |ps| :: Counted(ps[i]) && OwnerKey(ps[i].civ.owner) == k
    ensures forall k | k in m :: m[k] == CountKey(ps, k) && m[k] >= 1
  {
    m := map[];
    var i := 0;
    while i < |ps|
      invariant 0 <= i <= |ps|
      invariant forall k :: k in m <==> exists j | 0 <= j < i :: Counted(ps[j]) && OwnerKey(ps[j].civ.owner) == k
      invariant forall k | k in m :: m[k] == CountKey(ps[..i], k) && m[k] >= 1
      invariant forall k | k !in m :: CountKey(ps[..i], k) == 0
    {
      assert ps[..i + 1][..i] == ps[..i];
      if Counted(ps[i]) {
        var key := OwnerKey(ps[i].civ.owner);
        m := m[key := (if key in m then m[key] else 0) + 1];
      }
      i := i + 1;
    }
    assert ps[..i] == ps;
  }

  // ---------------------------------------------------------------- AI raids

  /** Minutes since the session started, never negative. */
  function ElapsedMinutes(now: int, start: int): real {
    Max(0.0, (now - start) as real / 60000.0)
  }

  /** The raid tier of game.module.js:4096-4097: one step per 2.2 minutes and per
      1800 score, capped at 10. */
  function RaidTier(now: int, start: int, score: int): (t: int)
    ensures score >= 0 ==> 0 <= t <= 10
  {
    MinInt(10, (ElapsedMinutes(now, start) / 2.2).Floor + (score as real / 1800.0).Floor)
  }

  /** The tier never goes down as time passes or the score grows. */
  lemma RaidTierMonotone(start: int, now1: int, now2: int, s1: int, s2: int)
    requires now1 <= now2 && s1 <= s2
    ensures RaidTier(now1, start, s1) <= RaidTier(now2, start, s2)
  {
    FloorMonotone(ElapsedMinutes(now1, start) / 2.2, ElapsedMinutes(now2, start) / 2.2);
    FloorMonotone(s1 as real / 1800.0, s2 as real / 1800.0);
  }

  function RaidIntervalMs(tier: int): int { MaxInt(9000, 22000 - tier * 1200) }

  function RaidChance(tier: int): real { Min(0.9, 0.35 + tier as real * 0.05) }

  function RaidSize(tier: int, roll: real): int {
    MinInt(18, 2 + (tier as real * 1.2).Floor + (roll * (2 + (tier as real * 0.6).Floor) as real).Floor)
  }

  /** The enemy kinds a raid of the given tier draws from (game.module.js:4103-4107). */
  function RaidPool(tier: int): seq<string> {
    ["standard", "fast"] +
    (if tier >= 2 then ["swarm"] else []) +
    (if tier >= 4 then ["sniper"] else []) +
    (if tier >= 6 then ["shielded"] else []) +
    (if tier >= 8 then ["tank"] else [])
  }

  /** Within the tier range raids come every 10 to 22 seconds with a chance of
      35% to 85% and bring 2 to 18 ships; the 9-second and 90% caps never bind. */
  lemma RaidBounds(tier: int, roll: real)
    requires 0 <= tier <= 10 && 0.0 <= roll < 1.0
    ensures 10000 <= RaidIntervalMs(tier) <= 22000
    ensures 0.35 <= RaidChance(tier) <= 0.85
    ensures 2 <= RaidSize(tier, roll) <= 18
  {
    var k := 2 + (tier as real * 0.6).Floor;
    assert 2 <= k;
    assert 0.0 <= roll * k as real < k as real;
    assert 0 <= (tier as real * 1.2).Floor;
  }

  /** A higher tier draws from a pool that extends the lower tier's pool. */
  lemma RaidPoolGrows(t1: int, t2: int)
    requires t1 <= t2
    ensures |RaidPool(t1)| <= |RaidPool(t2)|
    ensures forall k | k in RaidPool(t1) :: k in RaidPool(t2)
  {
  }
}
