/** The colossal derelict (assets/js/game.module.js:1551-1747): a ship whose
    interior is a box the player's ship is kept inside, holding chests that
    each pay out once. Entering and leaving through the portals, and all of
    the meshes, are not modelled. */
module Derelict {
  import opened Numeric
  import opened ShipModel
  import opened World

  /** The interior box: 170 x 70 x 230 units, with 7 units of wall padding. */
  const InteriorSize := Vec3(170.0, 70.0, 230.0)
  const WallPadding := 7.0
  const InteriorDrop := Vec3(0.0, -2600.0, 0.0)
  const ChestRange2 := 196.0

  /** Half the room along one axis, less the padding: 78, 28 and 108. */
  function Half(size: real): real { size * 0.5 - WallPadding }

  /** `THREE.MathUtils.clamp(v, -h, h)`. */
  function ClampAxis(v: real, h: real): (r: real)
    requires h >= 0.0
    ensures -h <= r <= h
    ensures r == v <==> -h <= v <= h
  {
    Max(-h, Min(h, v))
  }

  predicate Inside(local: Vec3) {
    -Half(InteriorSize.x) <= local.x <= Half(InteriorSize.x) &&
    -Half(InteriorSize.y) <= local.y <= Half(InteriorSize.y) &&
    -Half(InteriorSize.z) <= local.z <= Half(InteriorSize.z)
  }

  /** A loot chest; `rewardSeed` is the draw made when the chest was placed. */
  class Chest {
    var position: Vec3
    var isOpened: bool
    var rewardSeed: real

    constructor(position: Vec3, rewardSeed: real)
      ensures this.position == position && !isOpened && this.rewardSeed == rewardSeed
    {
      this.position := position;
      isOpened := false;
      this.rewardSeed := rewardSeed;
    }
  }

  /** The four payouts of a chest opened with seed `seed`. */
  datatype Loot = Loot(score: int, minerals: int, salvage: int, upgradePoints: int)

  function ChestLoot(seed: real): (l: Loot)
    ensures 0.0 <= seed < 1.0 ==>
      350 <= l.score < 850 && 35 <= l.minerals < 110 && 20 <= l.salvage < 65 && 20 <= l.upgradePoints < 55
  {
    Loot(350 + (seed * 500.0).Floor, 35 + (seed * 75.0).Floor, 20 + (seed * 45.0).Floor, 20 + (seed * 35.0).Floor)
  }

  /** A higher seed never pays less. */
  lemma ChestLootMonotone(s1: real, s2: real)
    requires 0.0 <= s1 <= s2
    ensures ChestLoot(s1).score <= ChestLoot(s2).score && ChestLoot(s1).minerals <= ChestLoot(s2).minerals
    ensures ChestLoot(s1).salvage <= ChestLoot(s2).salvage && ChestLoot(s1).upgradePoints <= ChestLoot(s2).upgradePoints
  {
    FloorMonotone(s1 * 500.0, s2 * 500.0);
    FloorMonotone(s1 * 75.0, s2 * 75.0);
    FloorMonotone(s1 * 45.0, s2 * 45.0);
    FloorMonotone(s1 * 35.0, s2 * 35.0);
  }

  class ColossalDerelict {
    const position: Vec3
    const id: string
    const interiorOrigin: Vec3
    var chests: seq<Chest>

    /** The derelict at `position` with its three chests placed at fixed
        offsets in the interior; `seeds` are their reward draws. */
    constructor(position: Vec3, id: string, seeds: seq<real>)
      requires |seeds| == 3
      ensures this.position == position && this.id == id
      ensures interiorOrigin == position.Add(InteriorDrop)
      ensures |chests| == 3 && forall i | 0 <= i < 3 :: fresh(chests[i]) && !chests[i].isOpened && chests[i].rewardSeed == seeds[i]
      ensures chests[0] != chests[1] && chests[1] != chests[2] && chests[0] != chests[2]
    {
      this.position := position;
      this.id := id;
      var origin := position.Add(InteriorDrop);
      interiorOrigin := origin;
      var c0 := new Chest(origin.Add(Vec3(-45.0, -20.0, -65.0)), seeds[0]);
      var c1 := new Chest(origin.Add(Vec3(38.0, -20.0, -22.0)), seeds[1]);
      var c2 := new Chest(origin.Add(Vec3(0.0, -20.0, 28.0)), seeds[2]);
      chests := [c0, c1, c2];
    }

    /** `constrainInside`: a ship that has left the padded interior box is
        put back on its surface, and its velocity is zeroed along every axis
        on which it was outside. */
    method ConstrainInside(ship: Ship)
      modifies ship`position, ship`velocity
      ensures Inside(ship.position.Sub(interiorOrigin))
      ensures Inside(old(ship.position).Sub(interiorOrigin)) ==>
        ship.position == old(ship.position) && ship.velocity == old(ship.velocity)
      ensures var local := old(ship.position).Sub(interiorOrigin);
        !Inside(local) ==>
          ship.position == interiorOrigin.Add(Vec3(
            ClampAxis(local.x, Half(InteriorSize.x)), ClampAxis(local.y, Half(InteriorSize.y)), ClampAxis(local.z, Half(InteriorSize.z)))) &&
          ship.velocity == Vec3(
            if -Half(InteriorSize.x) <= local.x <= Half(InteriorSize.x) then old(ship.velocity).x else 0.0,
            if -Half(InteriorSize.y) <= local.y <= Half(InteriorSize.y) then old(ship.velocity).y else 0.0,
            if -Half(InteriorSize.z) <= local.z <= Half(InteriorSize.z) then old(ship.velocity).z else 0.0)
    {
      var local := ship.position.Sub(interiorOrigin);
      var clamped := Vec3(
        ClampAxis(local.x, Half(InteriorSize.x)),
        ClampAxis(local.y, Half(InteriorSize.y)),
        ClampAxis(local.z, Half(InteriorSize.z)));
      if clamped != local {
        ship.position := interiorOrigin.Add(clamped);
        if local.x != clamped.x { ship.velocity := ship.velocity.(x := 0.0); }
        if local.y != clamped.y { ship.velocity := ship.velocity.(y := 0.0); }
        if local.z != clamped.z { ship.velocity := ship.velocity.(z := 0.0); }
        assert ship.position.Sub(interiorOrigin) == clamped;
      }
    }

    /** `getNearbyChest`: the first unopened chest within 14 units of `pos`. */
    method GetNearbyChest(pos: Vec3) returns (r: Option<nat>)
      ensures r.Some? ==> (r.value < |chests| && !chests[r.value].isOpened &&
        InRange2(chests[r.value].position, pos, ChestRange2))
      ensures r.Some? ==> forall j | 0 <= j < r.value ::
        chests[j].isOpened || !InRange2(chests[j].position, pos, ChestRange2)
      ensures r.None? <==> forall j | 0 <= j < |chests| ::
        chests[j].isOpened || !InRange2(chests[j].position, pos, ChestRange2)
    {
      var i := 0;
      while i < |chests|
        invariant 0 <= i <= |chests|
        invariant forall j | 0 <= j < i :: chests[j].isOpened || !InRange2(chests[j].position, pos, ChestRange2)
      {
        var c := chests[i];
        if !c.isOpened && InRange2(c.position, pos, ChestRange2) {
          return Some(i);
        }
        i := i + 1;
      }
      return None;
    }

    /** `openChest`: an unopened chest is marked opened and pays its loot
        to the world, then tops up the ship with 80 ammo, 20 fuel and 25
        shield, each capped at its maximum; an opened chest pays nothing.
        A zero seed falls back to `fallbackSeed`, a fresh draw. */
    method OpenChest(chest: Chest, world: GameWorld, ship: Ship, fallbackSeed: real) returns (paid: bool)
      modifies chest`isOpened, world`score, world`minerals, world`salvage, world`upgradePoints
      modifies ship`ammo, ship`fuel, ship`shieldHealth
      ensures paid == !old(chest.isOpened) && chest.isOpened
      ensures !paid ==>
        world.score == old(world.score) && world.minerals == old(world.minerals) &&
        world.salvage == old(world.salvage) && world.upgradePoints == old(world.upgradePoints) &&
        ship.ammo == old(ship.ammo) && ship.fuel == old(ship.fuel) && ship.shieldHealth == old(ship.shieldHealth)
      ensures paid ==>
        var loot := ChestLoot(Or(chest.rewardSeed, fallbackSeed));
        world.score == old(world.score) + loot.score && world.minerals == old(world.minerals) + loot.minerals &&
        world.salvage == old(world.salvage) + loot.salvage && world.upgradePoints == old(world.upgradePoints) + loot.upgradePoints &&
        ship.ammo == Min(ship.maxAmmo, old(ship.ammo) + 80.0) &&
        ship.fuel == Min(ship.maxFuel, old(ship.fuel) + 20.0) &&
        ship.shieldHealth == Min(ship.maxShield, old(ship.shieldHealth) + 25.0)
      ensures old(ship.Valid()) ==> ship.Valid()
    {
      if chest.isOpened {
        return false;
      }
      chest.isOpened := true;
      var loot := ChestLoot(Or(chest.rewardSeed, fallbackSeed));
      world.score := world.score + loot.score;
      world.minerals := world.minerals + loot.minerals;
      world.salvage := world.salvage + loot.salvage;
      world.upgradePoints := world.upgradePoints + loot.upgradePoints;
      ship.AddAmmo(80.0);
      ship.RefillFuel(20.0);
      ship.AddShield(25.0);
      return true;
    }
  }
}
