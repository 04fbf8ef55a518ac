/** The save-game codec (assets/js/game.module.js:107-388) on in-memory
    records. A save is what `JSON.stringify` would write, so its numeric
    fields are `RawNum` (`None` for a missing or non-numeric value) and its
    flags are the truthiness the loader tests. Saving a planet and loading
    it back reproduces it only up to the coercions: a stability of 0 comes
    back as 35, the shop is rebuilt, and the level flags become 0 or 1. */
module Persistence {
  import opened Numeric
  import opened Civilization
  import opened ShipModel
  import opened World
  import opened Shop

  /** A whole number read from a save. */
  type RawInt = Option<int>

  /** `Number(v) || d` on a whole number. */
  function IntOrElse(v: RawInt, d: int): (r: int)
    ensures v.None? || v == Some(0) ==> r == d
    ensures v.Some? && v.value != 0 ==> r == v.value
  {
    if v.Some? && v.value != 0 then v.value else d
  }

  /** `Math.max(0, Number(v) || 0)` */
  function NonNeg(v: RawInt): (r: int)
    ensures r >= 0
    ensures v.Some? && v.value >= 0 ==> r == v.value
  {
    MaxInt(0, IntOrElse(v, 0))
  }

  // ---------------------------------------------------------------- planets

  datatype RawVec = RawVec(x: RawNum, y: RawNum, z: RawNum)

  datatype RawEngineering = RawEngineering(
    atmosphere: bool, movedMoons: RawNum, artificialRings: RawNum,
    starDetonated: bool, dysonSwarms: RawNum)

  datatype RawCiv = RawCiv(
    founded: bool, owner: string,
    governmentLevel: RawNum, legalLevel: RawNum, economyTier: RawNum,
    civScore: RawNum, territories: RawNum, defenseRating: RawNum,
    destroyed: bool, atWar: bool,
    lastWarAt: RawNum, warEndsAt: RawNum, lastWarWaveAt: RawNum,
    population: RawNum, stability: RawNum)

  /** A saved planet; an empty `id` stands for `null`. */
  datatype RawPlanet = RawPlanet(
    id: string, position: Option<RawVec>, radius: RawNum,
    hasBase: bool, baseLevel: RawNum, terraformed: bool,
    engineering: Option<RawEngineering>, civ: Option<RawCiv>)

  /** `Math.max(0, Math.floor(Number(n) || 0))` on a stored whole number. */
  function SaveCount(n: int): RawNum {
    Some(NonNegFloor(Some(n as real)) as real)
  }

  function SaveVec(v: Vec3): RawVec {
    RawVec(Some(v.x), Some(v.y), Some(v.z))
  }

  function SaveEngineering(e: Engineering): RawEngineering {
    RawEngineering(e.atmosphere != 0, SaveCount(e.movedMoons), SaveCount(e.artificialRings),
                   e.starDetonated != 0, SaveCount(e.dysonSwarms))
  }

  function SaveCiv(c: Civ): RawCiv {
    RawCiv(c.founded, OwnerKey(c.owner),
           SaveCount(c.governmentLevel), SaveCount(c.legalLevel), SaveCount(c.economyTier),
           SaveCount(c.civScore), SaveCount(c.territories), Some(Max(1.0, Or(c.defenseRating, 1.0))),
           c.destroyed, c.atWar,
           Some(Or(c.lastWarAt, 0.0)), Some(Or(c.warEndsAt, 0.0)), Some(Or(c.lastWarWaveAt, 0.0)),
           SaveCount(c.population), Some(Max(0.0, Min(100.0, Or(c.stability, 0.0)))))
  }

  /** `serializePlanetState` (game.module.js:107-149); the colour and the
      display names are not part of the model. */
  function SerializePlanet(p: Planet): RawPlanet {
    RawPlanet(p.id, Some(SaveVec(p.position)), Some(Or(p.radius, 40.0)),
              p.hasBase, SaveCount(p.baseLevel), p.terraformed,
              Some(SaveEngineering(p.engineering)), Some(SaveCiv(p.civ)))
  }

  /** The ranges the loader guarantees for engineering levels. */
  predicate EngineeringBounded(e: Engineering) {
    0 <= e.atmosphere <= 1 && 0 <= e.starDetonated <= 1 &&
    e.movedMoons >= 0 && e.artificialRings >= 0 && e.dysonSwarms >= 0
  }

  function RestoreEngineering(e: RawEngineering): (r: Engineering)
    ensures EngineeringBounded(r)
  {
    Engineering(if e.atmosphere then 1 else 0, NonNegFloor(e.movedMoons), NonNegFloor(e.artificialRings),
                if e.starDetonated then 1 else 0, NonNegFloor(e.dysonSwarms))
  }

  /** The civilization record `restoreWorldState` builds: whole counts, a
      defence of at least 1, a stability in [0, 100] that defaults to 35. */
  function RestoreCiv(c: RawCiv): (r: Civ)
    ensures CivBounded(r)
    ensures r.owner != "" && r.founded == c.founded && r.destroyed == c.destroyed
    ensures c.stability.None? || c.stability == Some(0.0) ==> r.stability == 35.0
  {
    Civ(c.founded, OwnerKey(c.owner),
        NonNegFloor(c.governmentLevel), NonNegFloor(c.legalLevel), NonNegFloor(c.economyTier),
        NonNegFloor(c.civScore), NonNegFloor(c.territories), Max(1.0, OrElse(c.defenseRating, 1.0)),
        c.destroyed, c.atWar,
        OrElse(c.lastWarAt, 0.0), OrElse(c.warEndsAt, 0.0), OrElse(c.lastWarWaveAt, 0.0),
        NonNegFloor(c.population), Max(0.0, Min(100.0, OrElse(c.stability, 35.0))))
  }

  /** What every restored planet satisfies. */
  predicate Restored(q: Planet) {
    EngineeringBounded(q.engineering) && CivBounded(q.civ) &&
    (q.civ.destroyed ==> !q.hasBase && q.baseLevel == 0 && !q.terraformed) &&
    (q.hasBase ==> q.baseLevel >= 1) && (!q.hasBase ==> q.baseLevel == 0)
  }

  /** The shop a restored planet offers: the merchant's stock, with the
      station items once a base is restored. */
  function RestoredShop(hasBase: bool): seq<ShopItem> {
    if hasBase then AddMissing(DefaultShop, BaseShopExtras()) else DefaultShop
  }

  /** One planet of `restoreWorldState` (game.module.js:197-246): a record
      without a position is skipped. `autoId` and `rolledRadius` stand for the
      id and the random radius the `Planet` constructor would draw. */
  function RestorePlanet(raw: RawPlanet, autoId: string, rolledRadius: real): (r: Option<Planet>)
    ensures r.None? <==> raw.position.None?
    ensures r.Some? ==> Restored(r.value)
    ensures r.Some? ==> r.value.id == (if raw.id != "" then raw.id else autoId)
    ensures r.Some? && raw.civ.Some? ==> r.value.civ == RestoreCiv(raw.civ.value)
    ensures r.Some? && r.value.hasBase ==> raw.hasBase
  {
    if raw.position.None? then None
    else Some(Razed(WithBase(Placed(raw, raw.position.value, autoId, rolledRadius), raw)))
  }

  /** The planet built from the saved position, radius, engineering and
      civilization, before the base is placed. */
  function Placed(raw: RawPlanet, v: RawVec, autoId: string, rolledRadius: real): (r: Planet)
    ensures !r.hasBase && r.baseLevel == 0 && r.shop == DefaultShop
  {
    var pos := Vec3(OrElse(v.x, 0.0), OrElse(v.y, 0.0), OrElse(v.z, 0.0));
    var blank := NewPlanet(if raw.id != "" then raw.id else autoId, pos, OrElse(raw.radius, rolledRadius));
    blank.(terraformed := raw.terraformed,
           engineering := if raw.engineering.Some? then RestoreEngineering(raw.engineering.value) else blank.engineering,
           civ := if raw.civ.Some? then RestoreCiv(raw.civ.value) else blank.civ)
  }

  /** A saved base comes back at level 1 or more, with the station stock. */
  function WithBase(p: Planet, raw: RawPlanet): (r: Planet)
    ensures raw.hasBase ==> r.hasBase && r.baseLevel >= 1 && r.shop == AddMissing(p.shop, BaseShopExtras())
    ensures !raw.hasBase ==> r == p
  {
    if raw.hasBase then
      p.(hasBase := true, baseLevel := MaxInt(1, OrElse(raw.baseLevel, 1.0).Floor),
         shop := AddMissing(p.shop, BaseShopExtras()))
    else p
  }

  /** A destroyed civilization keeps neither base nor atmosphere. */
  function Razed(p: Planet): (r: Planet)
    ensures p.civ.destroyed ==> !r.hasBase && r.baseLevel == 0 && !r.terraformed
    ensures !p.civ.destroyed ==> r == p
  {
    if p.civ.destroyed then p.(hasBase := false, baseLevel := 0, terraformed := false) else p
  }

  /** A restored base offers every station item. */
  lemma RestoredBaseStocked(raw: RawPlanet, autoId: string, rolledRadius: real)
    requires raw.position.Some? && raw.hasBase
    ensures forall k | 0 <= k < 17 ::
      HasType(RestorePlanet(raw, autoId, rolledRadius).value.shop, StationExtra(k).itemType)
  {
    StocksStation(DefaultShop);
  }

  /** The planets that survive a save and load unchanged, apart from the
      rebuilt shop: an id, a non-zero radius, 0/1 flags, levels and civ
      fields already in the loader's ranges, a non-zero stability, a named
      owner, a base level that matches the base, and a destroyed planet
      without base or atmosphere. */
  predicate RoundTrips(p: Planet) {
    p.id != "" && p.radius != 0.0 &&
    EngineeringBounded(p.engineering) && CivBounded(p.civ) &&
    p.civ.stability != 0.0 && p.civ.owner != "" &&
    (p.hasBase ==> p.baseLevel >= 1) && (!p.hasBase ==> p.baseLevel == 0) &&
    (p.civ.destroyed ==> !p.hasBase && !p.terraformed)
  }

  lemma {:induction false} CountRoundTrip(n: int)
    requires n >= 0
    ensures NonNegFloor(SaveCount(n)) == n
  {
  }

  lemma EngineeringRoundTrip(e: Engineering)
    requires EngineeringBounded(e)
    ensures RestoreEngineering(SaveEngineering(e)) == e
  {
    CountRoundTrip(e.movedMoons);
    CountRoundTrip(e.artificialRings);
    CountRoundTrip(e.dysonSwarms);
  }

  /** A bounded civilization with an owner and a non-zero stability is
      saved and loaded unchanged. */
  lemma CivRoundTrip(c: Civ)
    requires CivBounded(c) && c.stability != 0.0 && c.owner != ""
    ensures RestoreCiv(SaveCiv(c)) == c
  {
    CountRoundTrip(c.governmentLevel);
    CountRoundTrip(c.legalLevel);
    CountRoundTrip(c.economyTier);
    CountRoundTrip(c.civScore);
    CountRoundTrip(c.territories);
    CountRoundTrip(c.population);
  }

  /** Loading a saved planet gives the planet back with its shop rebuilt. */
  lemma PlanetRoundTrip(p: Planet, autoId: string, rolledRadius: real)
    requires RoundTrips(p)
    ensures RestorePlanet(SerializePlanet(p), autoId, rolledRadius) == Some(p.(shop := RestoredShop(p.hasBase)))
  {
    var raw := SerializePlanet(p);
    EngineeringRoundTrip(p.engineering);
    CivRoundTrip(p.civ);
    var placed := Placed(raw, raw.position.value, autoId, rolledRadius);
    assert placed == p.(hasBase := false, baseLevel := 0, shop := DefaultShop);
    var based := WithBase(placed, raw);
    if p.hasBase {
      CountRoundTrip(p.baseLevel);
      assert OrElse(SaveCount(p.baseLevel), 1.0).Floor == p.baseLevel;
    }
    assert based == p.(shop := RestoredShop(p.hasBase));
    assert Razed(based) == based;
  }

  /** The one civilization value the codec does not carry over: a stability
      of 0 is saved as 0 and loaded as 35. */
  lemma StabilityZeroReturnsAs35(p: Planet, autoId: string, rolledRadius: real)
    requires p.civ.stability == 0.0
    ensures RestorePlanet(SerializePlanet(p), autoId, rolledRadius).Some?
    ensures RestorePlanet(SerializePlanet(p), autoId, rolledRadius).value.civ.stability == 35.0
  {
  }

  // ---------------------------------------------------------------- the world

  /** A saved world; an empty target id stands for `null`. */
  datatype RawWorld = RawWorld(planets: Option<seq<RawPlanet>>, returnBaseTargetId: string)

  /** `serializeWorldState` keeps the planets closer than 24000 to the ship. */
  const SaveRadius := 24000.0

  predicate Nearby(p: Planet, shipPos: Vec3) {
    p.position.Sub(shipPos).Norm2() < SaveRadius * SaveRadius
  }

  /** The saved planets, in the world's order. */
  function NearbySaved(ps: seq<Planet>, shipPos: Vec3): (r: seq<RawPlanet>)
    ensures |r| <= |ps|
    ensures forall k | 0 <= k < |r| :: r[k].position.Some?
    ensures (forall k | 0 <= k < |ps| :: Nearby(ps[k], shipPos)) ==>
      |r| == |ps| && forall k | 0 <= k < |ps| :: r[k] == SerializePlanet(ps[k])
  {
    if ps == [] then []
    else
      var rest := NearbySaved(ps[..|ps| - 1], shipPos);
      var p := ps[|ps| - 1];
      if Nearby(p, shipPos) then rest + [SerializePlanet(p)] else rest
  }

  /** `serializeWorldState` (game.module.js:151-162). */
  function SerializeWorld(ps: seq<Planet>, shipPos: Vec3, target: Option<string>): RawWorld {
    RawWorld(Some(NearbySaved(ps, shipPos)), if target.Some? then target.value else "")
  }

  /** The planets `restoreWorldState` pushes, in order. */
  function RestoredPlanets(raws: seq<RawPlanet>, ids: seq<string>, radii: seq<real>): (r: seq<Planet>)
    requires |ids| == |raws| && |radii| == |raws|
    ensures |r| <= |raws|
    ensures forall k | 0 <= k < |r| :: Restored(r[k])
    ensures (forall k | 0 <= k < |raws| :: raws[k].position.Some?) ==> |r| == |raws|
  {
    if raws == [] then []
    else
      var n := |raws| - 1;
      var rest := RestoredPlanets(raws[..n], ids[..n], radii[..n]);
      var q := RestorePlanet(raws[n], ids[n], radii[n]);
      if q.Some? then rest + [q.value] else rest
  }

  /** The planets a load gives back for planets that were all saved. */
  function Reloaded(ps: seq<Planet>): (r: seq<Planet>)
    ensures |r| == |ps|
    ensures forall k | 0 <= k < |ps| :: r[k] == ps[k].(shop := RestoredShop(ps[k].hasBase))
  {
    if ps == [] then []
    else
      var n := |ps| - 1;
      Reloaded(ps[..n]) + [ps[n].(shop := RestoredShop(ps[n].hasBase))]
  }

  /** Saving a world whose planets are all near the ship and loading it
      back gives the same planets in the same order, shops rebuilt. */
  lemma {:induction false} WorldRoundTrip(ps: seq<Planet>, shipPos: Vec3, ids: seq<string>, radii: seq<real>)
    requires |ids| == |ps| && |radii| == |ps|
    requires forall k | 0 <= k < |ps| :: Nearby(ps[k], shipPos) && RoundTrips(ps[k])
    ensures RestoredPlanets(NearbySaved(ps, shipPos), ids, radii) == Reloaded(ps)
  {
    if ps != [] {
      var n := |ps| - 1;
      var pre, last := ps[..n], ps[n];
      WorldRoundTrip(pre, shipPos, ids[..n], radii[..n]);
      var savedPre := NearbySaved(pre, shipPos);
      assert |savedPre| == n;
      var saved := NearbySaved(ps, shipPos);
      assert saved == savedPre + [SerializePlanet(last)] by {
        assert Nearby(last, shipPos);
      }
      assert saved[..n] == savedPre;
      PlanetRoundTrip(last, ids[n], radii[n]);
      assert RestoredPlanets(saved, ids, radii) == Reloaded(pre) + [last.(shop := RestoredShop(last.hasBase))];
    }
  }

  /** The target a saved id resolves to: a restored planet carrying it. */
  function TargetAmong(ps: seq<Planet>, id: string): (r: Option<string>)
    ensures r.Some? ==> r.value == id && id != "" && exists k | 0 <= k < |ps| :: ps[k].id == id
    ensures r.None? ==> id == "" || forall k | 0 <= k < |ps| :: ps[k].id != id
  {
    if id != "" && PlanetById(ps, id).Some? then Some(id) else None
  }

  lemma PlanetByIdAppend(ps: seq<Planet>, q: Planet, id: string)
    ensures PlanetById(ps + [q], id).Some? <==> PlanetById(ps, id).Some? || q.id == id
  {
    var s := ps + [q];
    if PlanetById(ps, id).Some? {
      var k :| 0 <= k < |ps| && ps[k].id == id;
      assert s[k].id == id;
    }
    if q.id == id {
      assert s[|ps|].id == id;
    }
  }

  /** `restoreWorldState` (game.module.js:192-253): the world's planets are
      replaced by the restored ones, and the return target by the restored
      planet carrying the saved target id. `ids` and `radii` stand for what
      each `new Planet` would draw. */
  method RestoreWorldState(w: GameWorld, raw: RawWorld, ids: seq<string>, radii: seq<real>)
    requires raw.planets.Some? ==> |ids| == |raw.planets.value| && |radii| == |raw.planets.value|
    modifies w`planets, w`returnBaseTarget
    ensures raw.planets.None? ==> w.planets == old(w.planets) && w.returnBaseTarget == old(w.returnBaseTarget)
    ensures raw.planets.Some? ==>
      w.planets == RestoredPlanets(raw.planets.value, ids, radii) &&
      w.returnBaseTarget == TargetAmong(w.planets, raw.returnBaseTargetId)
    ensures CountersOf(w) == old(CountersOf(w))
  {
    if raw.planets.None? {
      return;
    }
    var ps, byId := RestorePlanets(raw.planets.value, ids, radii);
    w.planets := ps;
    var id := raw.returnBaseTargetId;
    if id != "" && id in byId {
      w.returnBaseTarget := Some(byId[id].id);
    } else {
      w.returnBaseTarget := None;
    }
  }

  /** The loop of `restoreWorldState` over the saved planets: the planets
      restored in order, and `restoredById`, which indexes them by id. */
  method RestorePlanets(raws: seq<RawPlanet>, ids: seq<string>, radii: seq<real>)
    returns (ps: seq<Planet>, byId: map<string, Planet>)
    requires |ids| == |raws| && |radii| == |raws|
    ensures ps == RestoredPlanets(raws, ids, radii)
    ensures forall k :: k in byId <==> k != "" && PlanetById(ps, k).Some?
    ensures forall k | k in byId :: byId[k].id == k
  {
    ps, byId := [], map[];
    var i := 0;
    while i < |raws|
      invariant 0 <= i <= |raws|
      invariant ps == RestoredPlanets(raws[..i], ids[..i], radii[..i])
      invariant byId == IdIndex(ps)
    {
      var q := RestorePlanet(raws[i], ids[i], radii[i]);
      RestoredPlanetsStep(raws, ids, radii, i);
      if q.Some? {
        IdIndexAppend(ps, q.value);
        ps := ps + [q.value];
        if q.value.id != "" {
          byId := byId[q.value.id := q.value];
        }
      }
      i := i + 1;
    }
    assert raws[..i] == raws && ids[..i] == ids && radii[..i] == radii;
    IdIndexSound(ps);
  }

  /** `restoredById`: each non-empty id mapped to the last planet carrying it. */
  function IdIndex(ps: seq<Planet>): map<string, Planet> {
    if ps == [] then map[]
    else
      var n := |ps| - 1;
      var m := IdIndex(ps[..n]);
      if ps[n].id != "" then m[ps[n].id := ps[n]] else m
  }

  lemma IdIndexAppend(ps: seq<Planet>, q: Planet)
    ensures IdIndex(ps + [q]) == if q.id != "" then IdIndex(ps)[q.id := q] else IdIndex(ps)
  {
    assert (ps + [q])[..|ps|] == ps;
  }

  /** The index holds exactly the non-empty ids of the planets, each mapped
      to a planet carrying it. */
  lemma {:induction false} IdIndexSound(ps: seq<Planet>)
    ensures forall k :: k in IdIndex(ps) <==> k != "" && PlanetById(ps, k).Some?
    ensures forall k | k in IdIndex(ps) :: IdIndex(ps)[k].id == k
  {
    if ps != [] {
      var n := |ps| - 1;
      IdIndexSound(ps[..n]);
      assert ps == ps[..n] + [ps[n]];
      forall k ensures PlanetById(ps, k).Some? <==> PlanetById(ps[..n], k).Some? || ps[n].id == k {
        PlanetByIdAppend(ps[..n], ps[n], k);
      }
    }
  }

  lemma RestoredPlanetsStep(raws: seq<RawPlanet>, ids: seq<string>, radii: seq<real>, i: nat)
    requires |ids| == |raws| && |radii| == |raws| && i < |raws|
    ensures var q := RestorePlanet(raws[i], ids[i], radii[i]);
      RestoredPlanets(raws[..i + 1], ids[..i + 1], radii[..i + 1]) ==
      RestoredPlanets(raws[..i], ids[..i], radii[..i]) + (if q.Some? then [q.value] else [])
  {
    assert raws[..i + 1][..i] == raws[..i] && ids[..i + 1][..i] == ids[..i] && radii[..i + 1][..i] == radii[..i];
  }

  // ---------------------------------------------------------------- claiming founded bases

  /** The pass at the end of `applyLoadedProgress` (game.module.js:374-380):
      a founded civilization with a base and no owner becomes the player's. */
  function Claimed(p: Planet): (r: Planet)
    ensures r == p.(civ := r.civ) && r.civ == p.civ.(owner := r.civ.owner)
    ensures r.civ.founded && r.hasBase ==> r.civ.owner != "" && r.civ.owner != "neutral"
    ensures p.civ.owner != "" && p.civ.owner != "neutral" ==> r == p
  {
    if p.civ.founded && (p.civ.owner == "" || p.civ.owner == "neutral") && p.hasBase
    then p.(civ := p.civ.(owner := "player"))
    else p
  }

  lemma ClaimedIdempotent(p: Planet)
    ensures Claimed(Claimed(p)) == Claimed(p)
  {
  }

  method ClaimFoundedBases(w: GameWorld)
    modifies w`planets
    ensures |w.planets| == |old(w.planets)|
    ensures forall k | 0 <= k < |w.planets| :: w.planets[k] == Claimed(old(w.planets)[k])
    ensures CountersOf(w) == old(CountersOf(w))
  {
    var i := 0;
    while i < |w.planets|
      invariant 0 <= i <= |w.planets| == |old(w.planets)|
      invariant forall k | 0 <= k < i :: w.planets[k] == Claimed(old(w.planets)[k])
      invariant forall k | i <= k < |w.planets| :: w.planets[k] == old(w.planets)[k]
    {
      var p := w.planets[i];
      if p.civ.founded && (p.civ.owner == "" || p.civ.owner == "neutral") && p.hasBase {
        w.planets := w.planets[i := p.(civ := p.civ.(owner := "player"))];
      }
      i := i + 1;
    }
  }

  // ---------------------------------------------------------------- the ship

  /** The ship values a save carries. */
  datatype ShipValues = ShipValues(
    maxFuel: real, fuel: real, maxHealth: real, health: real,
    maxShield: real, shieldHealth: real, ammo: real, maxAmmo: real,
    maxSpeed: real, acceleration: real, fuelConsumption: real, extraStages: int)

  datatype RawShip = RawShip(
    maxFuel: RawNum, fuel: RawNum, maxHealth: RawNum, health: RawNum,
    maxShield: RawNum, shieldHealth: RawNum, ammo: RawNum, maxAmmo: RawNum,
    maxSpeed: RawNum, acceleration: RawNum, fuelConsumption: RawNum, extraStages: RawNum)

  function ShipValuesOf(ship: Ship): ShipValues
    reads ship`maxFuel, ship`fuel, ship`maxHealth, ship`health, ship`maxShield, ship`shieldHealth
    reads ship`ammo, ship`maxAmmo, ship`maxSpeed, ship`acceleration, ship`fuelConsumption
    reads ship`extraStages
  {
    ShipValues(ship.maxFuel, ship.fuel, ship.maxHealth, ship.health,
               ship.maxShield, ship.shieldHealth, ship.ammo, ship.maxAmmo,
               ship.maxSpeed, ship.acceleration, ship.fuelConsumption, ship.extraStages)
  }

  /** The `ship` part of `buildProgressSnapshot` (game.module.js:285-298). */
  function SaveShip(v: ShipValues): RawShip {
    RawShip(Some(v.maxFuel), Some(v.fuel), Some(v.maxHealth), Some(v.health),
            Some(v.maxShield), Some(v.shieldHealth), Some(v.ammo), Some(Or(v.maxAmmo, 999.0)),
            Some(v.maxSpeed), Some(v.acceleration), Some(v.fuelConsumption),
            Some(OrInt(v.extraStages, 0) as real))
  }

  /** The ship part of `applyLoadedProgress` (game.module.js:329-343): every
      value is floored or clamped, and a missing or zero maximum keeps the
      current ship's. */
  function LoadShip(raw: RawShip, cur: ShipValues): (r: ShipValues)
    ensures r.maxFuel >= 50.0 && 0.0 <= r.fuel <= r.maxFuel
    ensures r.maxHealth >= 20.0 && 1.0 <= r.health <= r.maxHealth
    ensures r.maxShield >= 0.0 && 0.0 <= r.shieldHealth <= r.maxShield
    ensures r.maxAmmo >= 300.0 && 0.0 <= r.ammo <= r.maxAmmo
    ensures r.maxSpeed >= 1.0 && r.acceleration >= 0.03 && r.fuelConsumption >= 0.01
    ensures r.extraStages >= 0
  {
    var maxFuel := Max(50.0, OrElse(raw.maxFuel, cur.maxFuel));
    var maxHealth := Max(20.0, OrElse(raw.maxHealth, cur.maxHealth));
    var maxShield := Max(0.0, OrElse(raw.maxShield, cur.maxShield));
    var maxAmmo := Max(300.0, OrElse(raw.maxAmmo, Or(cur.maxAmmo, 999.0)));
    ShipValues(maxFuel, Clamp(raw.fuel, 0.0, maxFuel),
               maxHealth, Clamp(raw.health, 1.0, maxHealth),
               maxShield, Clamp(raw.shieldHealth, 0.0, maxShield),
               Min(maxAmmo, Max(0.0, OrElse(raw.ammo, cur.ammo))), maxAmmo,
               Max(1.0, OrElse(raw.maxSpeed, cur.maxSpeed)),
               Max(0.03, OrElse(raw.acceleration, cur.acceleration)),
               Max(0.01, OrElse(raw.fuelConsumption, cur.fuelConsumption)),
               NonNegFloor(raw.extraStages))
  }

  /** Ship values already inside the loader's ranges, with non-zero ammo and
      shield capacity, come back unchanged whatever ship loads them. */
  lemma ShipRoundTrip(v: ShipValues, cur: ShipValues)
    requires v.maxFuel >= 50.0 && 0.0 <= v.fuel <= v.maxFuel
    requires v.maxHealth >= 20.0 && 1.0 <= v.health <= v.maxHealth
    requires v.maxShield > 0.0 && 0.0 <= v.shieldHealth <= v.maxShield
    requires v.maxAmmo >= 300.0 && 0.0 < v.ammo <= v.maxAmmo
    requires v.maxSpeed >= 1.0 && v.acceleration >= 0.03 && v.fuelConsumption >= 0.01
    requires v.extraStages >= 0
    ensures LoadShip(SaveShip(v), cur) == v
  {
    assert NonNegFloor(Some(OrInt(v.extraStages, 0) as real)) == v.extraStages;
  }

  /** An empty magazine is not carried over: a saved ammo count of 0 falls
      back on the loading ship's ammunition. */
  lemma EmptyAmmoNotRestored(v: ShipValues, cur: ShipValues)
    requires v.ammo == 0.0 && v.maxAmmo >= 300.0 && 0.0 < cur.ammo <= v.maxAmmo
    ensures LoadShip(SaveShip(v), cur).ammo == cur.ammo
  {
  }

  // ---------------------------------------------------------------- the counters

  datatype Resources = Resources(minerals: int, salvage: int)

  /** The world counters a save carries. */
  datatype Counters = Counters(
    score: int, kills: int, upgradePoints: int, upgrades: map<string, int>,
    resources: Resources, modules: seq<string>, tech: set<string>,
    satelliteTiers: SatelliteTiers, satellites: int, factionWarMode: bool,
    droneCounts: DroneCounts, purchaseCounts: map<string, int>, artifactsCollected: int)

  /** Their saved form; `None` is a missing or non-object value. */
  datatype RawCounters = RawCounters(
    score: RawInt, kills: RawInt, upgradePoints: RawInt, upgrades: Option<map<string, int>>,
    resources: Option<Resources>, modules: Option<seq<string>>, tech: Option<set<string>>,
    satelliteTiers: Option<SatelliteTiers>, satellites: RawInt, factionWarMode: bool,
    droneCounts: Option<DroneCounts>, purchaseCounts: Option<map<string, int>>, artifactsCollected: RawInt)

  function CountersOf(w: GameWorld): Counters
    reads w`score, w`kills, w`upgradePoints, w`upgrades, w`minerals, w`salvage, w`modules, w`tech
    reads w`satelliteTiers, w`satellites, w`factionWarMode, w`droneCounts, w`purchaseCounts
    reads w`artifactsCollected
  {
    Counters(w.score, w.kills, w.upgradePoints, w.upgrades, Resources(w.minerals, w.salvage),
             w.modules, w.tech, w.satelliteTiers, w.satellites, w.factionWarMode,
             w.droneCounts, w.purchaseCounts, w.artifactsCollected)
  }

  /** The counter part of `buildProgressSnapshot` (game.module.js:260-273). */
  function SaveCounters(c: Counters): RawCounters {
    RawCounters(Some(OrInt(c.score, 0)), Some(OrInt(c.kills, 0)), Some(OrInt(c.upgradePoints, 0)),
                Some(c.upgrades), Some(c.resources), Some(c.modules), Some(c.tech),
                Some(c.satelliteTiers), Some(OrInt(c.satellites, 0)), c.factionWarMode,
                Some(c.droneCounts), Some(c.purchaseCounts), Some(OrInt(c.artifactsCollected, 0)))
  }

  /** The counter part of `applyLoadedProgress` (game.module.js:313-327):
      counts are never negative, a missing table falls back on an empty one
      (the upgrade levels on the current ones). */
  function LoadCounters(raw: RawCounters, cur: Counters): (r: Counters)
    ensures r.score >= 0 && r.kills >= 0 && r.upgradePoints >= 0
    ensures r.satellites >= 0 && r.artifactsCollected >= 0
    ensures raw.upgrades.None? ==> r.upgrades == cur.upgrades
    ensures raw.resources.None? ==> r.resources == Resources(0, 0)
    ensures raw.modules.None? ==> r.modules == []
    ensures raw.tech.None? ==> r.tech == {}
    ensures raw.purchaseCounts.None? ==> r.purchaseCounts == map[]
  {
    Counters(NonNeg(raw.score), NonNeg(raw.kills), NonNeg(raw.upgradePoints),
             if raw.upgrades.Some? then raw.upgrades.value else cur.upgrades,
             if raw.resources.Some? then raw.resources.value else Resources(0, 0),
             if raw.modules.Some? then raw.modules.value else [],
             if raw.tech.Some? then raw.tech.value else {},
             if raw.satelliteTiers.Some? then raw.satelliteTiers.value else SatelliteTiers(0, 0, 0),
             NonNeg(raw.satellites), raw.factionWarMode,
             if raw.droneCounts.Some? then raw.droneCounts.value else DroneCounts(0, 0),
             if raw.purchaseCounts.Some? then raw.purchaseCounts.value else map[],
             NonNeg(raw.artifactsCollected))
  }

  /** Non-negative counters survive a save and load. */
  lemma CountersRoundTrip(c: Counters, cur: Counters)
    requires c.score >= 0 && c.kills >= 0 && c.upgradePoints >= 0
    requires c.satellites >= 0 && c.artifactsCollected >= 0
    ensures LoadCounters(SaveCounters(c), cur) == c
  {
  }

  // ---------------------------------------------------------------- the whole snapshot

  /** The `checkpoint` part; an empty planet id stands for `null`. */
  datatype RawCheckpoint = RawCheckpoint(
    shipPosition: Option<RawVec>, shipVelocity: Option<RawVec>, landed: bool, landedPlanetId: string)

  datatype RawProgress = RawProgress(
    counters: RawCounters, worldState: Option<RawWorld>, checkpoint: Option<RawCheckpoint>,
    resumeAllowed: bool, lastSessionEndedByDeath: bool, ship: Option<RawShip>, savedAt: int)

  /** `buildProgressSnapshot` (game.module.js:255-302) for a world with a
      ship; the session flags and `Date.now()` are parameters. */
  function ProgressSnapshot(w: GameWorld, ship: Ship, gameStarted: bool, gameOver: bool,
                            endedByDeath: bool, now: int): (r: RawProgress)
    reads w, ship
    ensures r.counters == SaveCounters(CountersOf(w))
    ensures r.ship == Some(SaveShip(ShipValuesOf(ship)))
    ensures r.resumeAllowed <==> gameStarted && !gameOver && !endedByDeath && ship.health > 0.0
  {
    RawProgress(
      SaveCounters(CountersOf(w)),
      Some(SerializeWorld(w.planets, ship.position, w.returnBaseTarget)),
      Some(RawCheckpoint(Some(SaveVec(ship.position)), Some(SaveVec(ship.velocity)), ship.landed,
                         if ship.landedPlanet.Some? then ship.landedPlanet.value else "")),
      gameStarted && !gameOver && !endedByDeath && ship.health > 0.0,
      endedByDeath,
      Some(SaveShip(ShipValuesOf(ship))),
      now)
  }

  // ---------------------------------------------------------------- loading

  method LoadCounterFields(w: GameWorld, raw: RawCounters)
    modifies w`score, w`kills, w`upgradePoints, w`upgrades, w`minerals, w`salvage, w`modules, w`tech
    modifies w`satelliteTiers, w`satellites, w`factionWarMode, w`droneCounts, w`purchaseCounts
    modifies w`artifactsCollected
    ensures CountersOf(w) == LoadCounters(raw, old(CountersOf(w)))
    ensures w.planets == old(w.planets) && w.returnBaseTarget == old(w.returnBaseTarget)
  {
    var c := LoadCounters(raw, CountersOf(w));
    LoadTallies(w, c);
    LoadHoldings(w, c);
  }

  method LoadTallies(w: GameWorld, c: Counters)
    modifies w`score, w`kills, w`upgradePoints, w`satellites, w`factionWarMode, w`artifactsCollected, w`satelliteTiers
    ensures w.score == c.score && w.kills == c.kills && w.upgradePoints == c.upgradePoints
    ensures w.satellites == c.satellites && w.factionWarMode == c.factionWarMode
    ensures w.artifactsCollected == c.artifactsCollected && w.satelliteTiers == c.satelliteTiers
  {
    w.score := c.score;
    w.kills := c.kills;
    w.upgradePoints := c.upgradePoints;
    w.satellites := c.satellites;
    w.factionWarMode := c.factionWarMode;
    w.artifactsCollected := c.artifactsCollected;
    w.satelliteTiers := c.satelliteTiers;
  }

  method LoadHoldings(w: GameWorld, c: Counters)
    modifies w`upgrades, w`minerals, w`salvage, w`modules, w`tech, w`droneCounts, w`purchaseCounts
    ensures w.upgrades == c.upgrades && w.minerals == c.resources.minerals && w.salvage == c.resources.salvage
    ensures w.modules == c.modules && w.tech == c.tech
    ensures w.droneCounts == c.droneCounts && w.purchaseCounts == c.purchaseCounts
  {
    w.upgrades := c.upgrades;
    w.minerals := c.resources.minerals;
    w.salvage := c.resources.salvage;
    w.modules := c.modules;
    w.tech := c.tech;
    w.droneCounts := c.droneCounts;
    w.purchaseCounts := c.purchaseCounts;
  }

  method LoadShipFields(ship: Ship, raw: RawShip)
    modifies ship`maxFuel, ship`fuel, ship`maxHealth, ship`health, ship`maxShield, ship`shieldHealth
    modifies ship`ammo, ship`maxAmmo, ship`maxSpeed, ship`acceleration, ship`fuelConsumption
    modifies ship`extraStages
    ensures ShipValuesOf(ship) == LoadShip(raw, old(ShipValuesOf(ship)))
    ensures PlacementOf(ship) == old(PlacementOf(ship))
    ensures old(ship.Valid()) ==> ship.Valid()
  {
    var v := LoadShip(raw, ShipValuesOf(ship));
    LoadTanks(ship, v);
    LoadDrive(ship, v);
  }

  method LoadTanks(ship: Ship, v: ShipValues)
    modifies ship`maxFuel, ship`fuel, ship`maxHealth, ship`health, ship`maxShield, ship`shieldHealth
    ensures ship.maxFuel == v.maxFuel && ship.fuel == v.fuel && ship.maxHealth == v.maxHealth
    ensures ship.health == v.health && ship.maxShield == v.maxShield && ship.shieldHealth == v.shieldHealth
  {
    ship.maxFuel := v.maxFuel;
    ship.fuel := v.fuel;
    ship.maxHealth := v.maxHealth;
    ship.health := v.health;
    ship.maxShield := v.maxShield;
    ship.shieldHealth := v.shieldHealth;
  }

  method LoadDrive(ship: Ship, v: ShipValues)
    modifies ship`ammo, ship`maxAmmo, ship`maxSpeed, ship`acceleration, ship`fuelConsumption, ship`extraStages
    ensures ship.ammo == v.ammo && ship.maxAmmo == v.maxAmmo && ship.maxSpeed == v.maxSpeed
    ensures ship.acceleration == v.acceleration && ship.fuelConsumption == v.fuelConsumption
    ensures ship.extraStages == v.extraStages
  {
    ship.ammo := v.ammo;
    ship.maxAmmo := v.maxAmmo;
    ship.maxSpeed := v.maxSpeed;
    ship.acceleration := v.acceleration;
    ship.fuelConsumption := v.fuelConsumption;
    ship.extraStages := v.extraStages;
  }

  /** Where the ship is and whether it is landed, and on which planet. */
  datatype Placement = Placement(position: Vec3, velocity: Vec3, landed: bool, landedPlanet: Option<string>)

  function PlacementOf(ship: Ship): Placement
    reads ship`position, ship`velocity, ship`landed, ship`landedPlanet
  {
    Placement(ship.position, ship.velocity, ship.landed, ship.landedPlanet)
  }

  /** The placement a checkpoint restores over `cur` among the planets `ps`:
      missing or zero position coordinates keep the current ones, missing or
      zero velocity coordinates become 0, and a landing keeps its planet only
      when one of `ps` carries the saved id. */
  function PlacedBy(cp: RawCheckpoint, ps: seq<Planet>, cur: Placement): Placement {
    var pos := if cp.shipPosition.Some? then
      Vec3(OrElse(cp.shipPosition.value.x, cur.position.x), OrElse(cp.shipPosition.value.y, cur.position.y),
           OrElse(cp.shipPosition.value.z, cur.position.z))
    else cur.position;
    var vel := if cp.shipVelocity.Some? then
      Vec3(OrElse(cp.shipVelocity.value.x, 0.0), OrElse(cp.shipVelocity.value.y, 0.0),
           OrElse(cp.shipVelocity.value.z, 0.0))
    else cur.velocity;
    var on := if cp.landed && cp.landedPlanetId != "" && PlanetById(ps, cp.landedPlanetId).Some?
              then Some(cp.landedPlanetId) else None;
    Placement(pos, vel, cp.landed, on)
  }

  /** The checkpoint part of `applyLoadedProgress` (game.module.js:349-371):
      position and velocity, and the landing, kept only when the saved
      planet is among the world's planets. */
  method RestoreCheckpoint(w: GameWorld, ship: Ship, cp: RawCheckpoint)
    modifies ship`position, ship`velocity, ship`landed, ship`landedPlanet
    ensures cp.shipPosition.Some? ==>
      var v := cp.shipPosition.value;
      ship.position == Vec3(OrElse(v.x, old(ship.position).x), OrElse(v.y, old(ship.position).y),
                            OrElse(v.z, old(ship.position).z))
    ensures cp.shipPosition.None? ==> ship.position == old(ship.position)
    ensures cp.shipVelocity.Some? ==>
      var v := cp.shipVelocity.value;
      ship.velocity == Vec3(OrElse(v.x, 0.0), OrElse(v.y, 0.0), OrElse(v.z, 0.0))
    ensures cp.shipVelocity.None? ==> ship.velocity == old(ship.velocity)
    ensures ship.landed == cp.landed
    ensures ship.landedPlanet.Some? <==>
      cp.landed && cp.landedPlanetId != "" && PlanetById(w.planets, cp.landedPlanetId).Some?
    ensures ship.landedPlanet.Some? ==> ship.landedPlanet.value == cp.landedPlanetId
    ensures PlacementOf(ship) == PlacedBy(cp, w.planets, old(PlacementOf(ship)))
    ensures ShipValuesOf(ship) == old(ShipValuesOf(ship)) && ship.Valid() == old(ship.Valid())
  {
    if cp.shipPosition.Some? {
      var v := cp.shipPosition.value;
      ship.position := Vec3(OrElse(v.x, ship.position.x), OrElse(v.y, ship.position.y), OrElse(v.z, ship.position.z));
    }
    if cp.shipVelocity.Some? {
      var v := cp.shipVelocity.value;
      ship.velocity := Vec3(OrElse(v.x, 0.0), OrElse(v.y, 0.0), OrElse(v.z, 0.0));
    }
    ship.landed := cp.landed;
    ship.landedPlanet := None;
    if ship.landed && cp.landedPlanetId != "" {
      var p := PlanetById(w.planets, cp.landedPlanetId);
      if p.Some? {
        ship.landedPlanet := Some(p.value.id);
      }
    }
  }

  /** Whether the save's planets replace the world's: only when the
      checkpoint is to be restored and the save carries planets. */
  predicate RestoresPlanets(progress: RawProgress, restoreCheckpoint: bool) {
    restoreCheckpoint && progress.worldState.Some? && progress.worldState.value.planets.Some?
  }

  /** What restoring a session does, over the planets `ps0`, the return
      target `t0` and the placement `pl0` it starts from: the planets `ps`
      are the restored ones (or `ps0`) with unowned founded bases claimed;
      the target `t` is the restored planet carrying the saved id (or `t0`
      when no planets were restored); and the placement `pl` is the
      checkpoint's over those planets (or `pl0` without a checkpoint). */
  predicate SessionRestored(progress: RawProgress, restoreCheckpoint: bool, ids: seq<string>, radii: seq<real>,
                            ps0: seq<Planet>, t0: Option<string>, pl0: Placement,
                            ps: seq<Planet>, t: Option<string>, pl: Placement)
    requires RestoresPlanets(progress, restoreCheckpoint) ==>
      |ids| == |progress.worldState.value.planets.value| && |radii| == |ids|
  {
    var restored := RestoresPlanets(progress, restoreCheckpoint);
    var base := if restored then RestoredPlanets(progress.worldState.value.planets.value, ids, radii) else ps0;
    |ps| == |base| && (forall k | 0 <= k < |base| :: ps[k] == Claimed(base[k])) &&
    t == (if restored then TargetAmong(base, progress.worldState.value.returnBaseTargetId) else t0) &&
    pl == (if restoreCheckpoint && progress.checkpoint.Some? then PlacedBy(progress.checkpoint.value, base, pl0) else pl0)
  }

  /** The part of `applyLoadedProgress` that places the ship and the world
      (game.module.js:345-381): with `restoreCheckpoint` the saved world and
      checkpoint are restored; then unowned founded bases are claimed. */
  method RestoreSession(w: GameWorld, ship: Ship, progress: RawProgress, restoreCheckpoint: bool,
                        ids: seq<string>, radii: seq<real>)
    requires RestoresPlanets(progress, restoreCheckpoint) ==>
      |ids| == |progress.worldState.value.planets.value| && |radii| == |ids|
    modifies w`planets, w`returnBaseTarget, ship`position, ship`velocity, ship`landed, ship`landedPlanet
    ensures SessionRestored(progress, restoreCheckpoint, ids, radii,
                            old(w.planets), old(w.returnBaseTarget), old(PlacementOf(ship)),
                            w.planets, w.returnBaseTarget, PlacementOf(ship))
    ensures CountersOf(w) == old(CountersOf(w)) && ShipValuesOf(ship) == old(ShipValuesOf(ship))
    ensures ship.Valid() == old(ship.Valid())
  {
    if restoreCheckpoint && progress.worldState.Some? {
      RestoreWorldState(w, progress.worldState.value, ids, radii);
    }
    if restoreCheckpoint && progress.checkpoint.Some? {
      RestoreCheckpoint(w, ship, progress.checkpoint.value);
    }
    ClaimFoundedBases(w);
  }

  /** `applyLoadedProgress` (game.module.js:304-388) for a world with a ship:
      the counters and the ship values are loaded, then the session is
      restored as `RestoreSession` says. */
  method ApplyLoadedProgress(w: GameWorld, ship: Ship, progress: RawProgress, restoreCheckpoint: bool,
                             ids: seq<string>, radii: seq<real>)
    requires RestoresPlanets(progress, restoreCheckpoint) ==>
      |ids| == |progress.worldState.value.planets.value| && |radii| == |ids|
    modifies w`score, w`kills, w`upgradePoints, w`upgrades, w`minerals, w`salvage, w`modules, w`tech
    modifies w`satelliteTiers, w`satellites, w`factionWarMode, w`droneCounts, w`purchaseCounts
    modifies w`artifactsCollected, w`planets, w`returnBaseTarget
    modifies ship`maxFuel, ship`fuel, ship`maxHealth, ship`health, ship`maxShield, ship`shieldHealth
    modifies ship`ammo, ship`maxAmmo, ship`maxSpeed, ship`acceleration, ship`fuelConsumption
    modifies ship`extraStages, ship`position, ship`velocity, ship`landed, ship`landedPlanet
    ensures CountersOf(w) == LoadCounters(progress.counters, old(CountersOf(w)))
    ensures progress.ship.Some? ==> ShipValuesOf(ship) == LoadShip(progress.ship.value, old(ShipValuesOf(ship)))
    ensures progress.ship.None? ==> ShipValuesOf(ship) == old(ShipValuesOf(ship))
    ensures SessionRestored(progress, restoreCheckpoint, ids, radii,
                            old(w.planets), old(w.returnBaseTarget), old(PlacementOf(ship)),
                            w.planets, w.returnBaseTarget, PlacementOf(ship))
    ensures old(ship.Valid()) ==> ship.Valid()
  {
    LoadValues(w, ship, progress);
    RestoreSession(w, ship, progress, restoreCheckpoint, ids, radii);
  }

  /** The first part of `applyLoadedProgress` (game.module.js:309-344): the
      counters, and the ship values when saved. */
  method LoadValues(w: GameWorld, ship: Ship, progress: RawProgress)
    modifies w`score, w`kills, w`upgradePoints, w`upgrades, w`minerals, w`salvage, w`modules, w`tech
    modifies w`satelliteTiers, w`satellites, w`factionWarMode, w`droneCounts, w`purchaseCounts
    modifies w`artifactsCollected
    modifies ship`maxFuel, ship`fuel, ship`maxHealth, ship`health, ship`maxShield, ship`shieldHealth
    modifies ship`ammo, ship`maxAmmo, ship`maxSpeed, ship`acceleration, ship`fuelConsumption
    modifies ship`extraStages
    ensures CountersOf(w) == LoadCounters(progress.counters, old(CountersOf(w)))
    ensures progress.ship.Some? ==> ShipValuesOf(ship) == LoadShip(progress.ship.value, old(ShipValuesOf(ship)))
    ensures progress.ship.None? ==> ShipValuesOf(ship) == old(ShipValuesOf(ship))
    ensures w.planets == old(w.planets) && w.returnBaseTarget == old(w.returnBaseTarget)
    ensures PlacementOf(ship) == old(PlacementOf(ship))
    ensures old(ship.Valid()) ==> ship.Valid()
  {
    LoadCounterFields(w, progress.counters);
    if progress.ship.Some? {
      LoadShipFields(ship, progress.ship.value);
    }
  }
}
