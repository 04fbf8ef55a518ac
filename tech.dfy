/** Ship modules and the research tree (assets/js/module-tech.js): the two
    catalogues, buying a module with minerals or else with score, and
    researching a node once its prerequisite is unlocked. The stat changes a
    module or a node makes are stated on a snapshot of the fields they touch
    (`Stats`), so that what they promise can be proved once about a pure
    function and the methods that overwrite the ship are proved against it. */
module Tech {
  import opened Numeric
  import opened ShipModel
  import opened World
  import opened Shop

  // ---------------------------------------------------------------- the catalogues

  /** The keys of `MODULES` (module-tech.js:3-12). */
  datatype Module = EngineMk1 | ShieldMk1 | FuelCells | WeaponCoil | AmmoRack
                  | RepairGel | Overthruster | SensorLattice

  function ModuleId(m: Module): string {
    match m
    case EngineMk1 => "engine_mk1"
    case ShieldMk1 => "shield_mk1"
    case FuelCells => "fuel_cells"
    case WeaponCoil => "weapon_coil"
    case AmmoRack => "ammo_rack"
    case RepairGel => "repair_gel"
    case Overthruster => "overthruster"
    case SensorLattice => "sensor_lattice"
  }

  function CostMinerals(m: Module): int {
    match m
    case EngineMk1 => 30
    case ShieldMk1 => 40
    case FuelCells => 45
    case WeaponCoil => 55
    case AmmoRack => 35
    case RepairGel => 30
    case Overthruster => 60
    case SensorLattice => 50
  }

  function CostScore(m: Module): int {
    match m
    case EngineMk1 => 500
    case ShieldMk1 => 700
    case FuelCells => 900
    case WeaponCoil => 1200
    case AmmoRack => 850
    case RepairGel => 1000
    case Overthruster => 1400
    case SensorLattice => 1500
  }

  /** `MODULES[id]`: the module a key names, if any. */
  function ModuleOf(id: string): (r: Option<Module>)
    ensures r.Some? ==> ModuleId(r.value) == id
    ensures r.None? ==> forall m: Module :: ModuleId(m) != id
  {
    if id == "engine_mk1" then Some(EngineMk1)
    else if id == "shield_mk1" then Some(ShieldMk1)
    else if id == "fuel_cells" then Some(FuelCells)
    else if id == "weapon_coil" then Some(WeaponCoil)
    else if id == "ammo_rack" then Some(AmmoRack)
    else if id == "repair_gel" then Some(RepairGel)
    else if id == "overthruster" then Some(Overthruster)
    else if id == "sensor_lattice" then Some(SensorLattice)
    else None
  }

  /** Every module key looks up its own module. */
  lemma ModuleOfId(a: Module)
    ensures ModuleOf(ModuleId(a)) == Some(a)
  {
    match a
    case EngineMk1 =>
    case ShieldMk1 =>
    case FuelCells =>
    case WeaponCoil =>
    case AmmoRack =>
    case RepairGel =>
    case Overthruster =>
    case SensorLattice =>
  }

  /** No two modules share a key. */
  lemma ModuleIdsDistinct(a: Module, b: Module)
    ensures ModuleId(a) == ModuleId(b) ==> a == b
  {
    ModuleOfId(a);
    ModuleOfId(b);
  }

  /** The ids of `TECH_NODES` (module-tech.js:14-31). */
  datatype Tech = Boost | HullPlating | Capacitor | Recycler
                | Afterburners | VectorThrusters | ReinforcedBulkheads | AdaptiveShields
                | KineticRails | ResourceScanners
                | IonOverdrive | FortressMatrix | Nanorepair | Hypervelocity | SalvageDrones | CombatAi

  function TechId(t: Tech): string {
    match t
    case Boost => "boost"
    case HullPlating => "hull_plating"
    case Capacitor => "capacitor"
    case Recycler => "recycler"
    case Afterburners => "afterburners"
    case VectorThrusters => "vector_thrusters"
    case ReinforcedBulkheads => "reinforced_bulkheads"
    case AdaptiveShields => "adaptive_shields"
    case KineticRails => "kinetic_rails"
    case ResourceScanners => "resource_scanners"
    case IonOverdrive => "ion_overdrive"
    case FortressMatrix => "fortress_matrix"
    case Nanorepair => "nanorepair"
    case Hypervelocity => "hypervelocity"
    case SalvageDrones => "salvage_drones"
    case CombatAi => "combat_ai"
  }

  /** A node's price in upgrade points. */
  function TechCost(t: Tech): int {
    match t
    case Boost => 100
    case HullPlating => 110
    case Capacitor => 120
    case Recycler => 90
    case Afterburners => 160
    case VectorThrusters => 170
    case ReinforcedBulkheads => 180
    case AdaptiveShields => 180
    case KineticRails => 190
    case ResourceScanners => 150
    case IonOverdrive => 260
    case FortressMatrix => 260
    case Nanorepair => 250
    case Hypervelocity => 270
    case SalvageDrones => 240
    case CombatAi => 290
  }

  function Tier(t: Tech): int {
    match t
    case Boost | HullPlating | Capacitor | Recycler => 1
    case Afterburners | VectorThrusters | ReinforcedBulkheads | AdaptiveShields
       | KineticRails | ResourceScanners => 2
    case IonOverdrive | FortressMatrix | Nanorepair | Hypervelocity | SalvageDrones | CombatAi => 3
  }

  /** The `req` field: the id of the prerequisite node, as the table spells it. */
  function ReqId(t: Tech): Option<string> {
    match t
    case Boost | HullPlating | Capacitor | Recycler => None
    case Afterburners => Some("boost")
    case VectorThrusters => Some("boost")
    case ReinforcedBulkheads => Some("hull_plating")
    case AdaptiveShields => Some("capacitor")
    case KineticRails => Some("boost")
    case ResourceScanners => Some("recycler")
    case IonOverdrive => Some("afterburners")
    case FortressMatrix => Some("reinforced_bulkheads")
    case Nanorepair => Some("adaptive_shields")
    case Hypervelocity => Some("kinetic_rails")
    case SalvageDrones => Some("resource_scanners")
    case CombatAi => Some("vector_thrusters")
  }

  /** `TECH_NODES.find(n => n.id === id)`; the ids are distinct
      (`TechIdsDistinct`), so the first match is the only one. */
  function TechOf(id: string): (r: Option<Tech>)
    ensures r.Some? ==> TechId(r.value) == id
    ensures r.None? ==> forall t: Tech :: TechId(t) != id
  {
    if id == "boost" then Some(Boost)
    else if id == "hull_plating" then Some(HullPlating)
    else if id == "capacitor" then Some(Capacitor)
    else if id == "recycler" then Some(Recycler)
    else if id == "afterburners" then Some(Afterburners)
    else if id == "vector_thrusters" then Some(VectorThrusters)
    else if id == "reinforced_bulkheads" then Some(ReinforcedBulkheads)
    else if id == "adaptive_shields" then Some(AdaptiveShields)
    else if id == "kinetic_rails" then Some(KineticRails)
    else if id == "resource_scanners" then Some(ResourceScanners)
    else if id == "ion_overdrive" then Some(IonOverdrive)
    else if id == "fortress_matrix" then Some(FortressMatrix)
    else if id == "nanorepair" then Some(Nanorepair)
    else if id == "hypervelocity" then Some(Hypervelocity)
    else if id == "salvage_drones" then Some(SalvageDrones)
    else if id == "combat_ai" then Some(CombatAi)
    else None
  }

  /** Every node id finds its own node. */
  lemma TechOfId(a: Tech)
    ensures TechOf(TechId(a)) == Some(a)
  {
    match a
    case Boost =>
    case HullPlating =>
    case Capacitor =>
    case Recycler =>
    case Afterburners =>
    case VectorThrusters =>
    case ReinforcedBulkheads =>
    case AdaptiveShields =>
    case KineticRails =>
    case ResourceScanners =>
    case IonOverdrive =>
    case FortressMatrix =>
    case Nanorepair =>
    case Hypervelocity =>
    case SalvageDrones =>
    case CombatAi =>
  }

  /** No two nodes share an id. */
  lemma TechIdsDistinct(a: Tech, b: Tech)
    ensures TechId(a) == TechId(b) ==> a == b
  {
    TechOfId(a);
    TechOfId(b);
  }

  /** Every `req` names a node of the table, exactly one tier below; the
      first tier is exactly the nodes without one. */
  lemma ReqOneTierBelow(t: Tech)
    ensures ReqId(t).None? <==> Tier(t) == 1
    ensures ReqId(t).Some? ==>
      TechOf(ReqId(t).value).Some? && Tier(TechOf(ReqId(t).value).value) == Tier(t) - 1
  {
  }

  /** The node a tree's chain of prerequisites starts from. */
  function Root(t: Tech): (r: Tech)
    ensures Tier(r) == 1 && ReqId(r).None?
    decreases Tier(t)
  {
    ReqOneTierBelow(t);
    if ReqId(t).None? then t else Root(TechOf(ReqId(t).value).value)
  }

  // ---------------------------------------------------------------- the research tree

  /** `hasTech(id)`. */
  predicate HasTech(tech: set<string>, id: string) {
    id in tech
  }

  /** Every unlocked node has its prerequisite unlocked. */
  predicate ReqClosed(tech: set<string>) {
    forall t: Tech :: HasTech(tech, TechId(t)) && ReqId(t).Some? ==> HasTech(tech, ReqId(t).value)
  }

  /** What `researchTech` demands of a known node before it charges: not yet
      unlocked, its prerequisite unlocked, and enough upgrade points. */
  predicate Researchable(tech: set<string>, points: int, t: Tech) {
    !HasTech(tech, TechId(t)) &&
    (ReqId(t).None? || HasTech(tech, ReqId(t).value)) &&
    points >= TechCost(t)
  }

  /** Unlocking a node whose prerequisite is unlocked keeps the tree closed. */
  lemma ResearchKeepsClosed(tech: set<string>, points: int, t: Tech)
    requires ReqClosed(tech) && Researchable(tech, points, t)
    ensures ReqClosed(tech + {TechId(t)})
  {
    forall u: Tech | HasTech(tech + {TechId(t)}, TechId(u)) && ReqId(u).Some?
      ensures HasTech(tech + {TechId(t)}, ReqId(u).value)
    {
      if TechId(u) == TechId(t) {
        TechIdsDistinct(u, t);
      }
    }
  }

  /** In a closed tree an unlocked node's whole chain is unlocked, down to
      its first-tier root. */
  lemma {:induction false} RootUnlocked(tech: set<string>, t: Tech)
    requires ReqClosed(tech) && HasTech(tech, TechId(t))
    ensures HasTech(tech, TechId(Root(t)))
    decreases Tier(t)
  {
    ReqOneTierBelow(t);
    if ReqId(t).Some? {
      RootUnlocked(tech, TechOf(ReqId(t).value).value);
    }
  }

  // ---------------------------------------------------------------- stat effects

  /** The ship fields and world counters a module or a node can touch, plus
      `fuel`, which bounds `maxFuel` in `Ship.Valid`. */
  datatype Stats = Stats(
    acceleration: real, maxSpeed: real,
    fuel: real, maxFuel: real, fuelConsumption: real,
    health: real, maxHealth: real,
    shieldHealth: real, maxShield: real, shieldRegenRate: real,
    ammo: real, weapon: Weapon,
    upgradePoints: int, minerals: int, salvage: int)

  function StatsOf(w: GameWorld, ship: Ship): Stats
    reads w, ship
  {
    Stats(ship.acceleration, ship.maxSpeed,
          ship.fuel, ship.maxFuel, ship.fuelConsumption,
          ship.health, ship.maxHealth,
          ship.shieldHealth, ship.maxShield, ship.shieldRegenRate,
          ship.ammo, ship.weapon,
          w.upgradePoints, w.minerals, w.salvage)
  }

  predicate Whole(x: real) {
    x == x.Floor as real
  }

  /** Scaling by a factor of at least one, then rounding down, never falls
      below a smaller number rounded down. */
  lemma GrowFloor(n: real, b: real, factor: real)
    requires factor >= 1.0 && 0.0 <= n <= b
    ensures n.Floor <= (b * factor).Floor
  {
    ScaleMonotone(b, 1.0, factor);
    assert b * 1.0 == b;
    FloorMonotone(n, b * factor);
  }

  /** Scaling by a factor between zero and one, then rounding down, never
      exceeds the number rounded down. */
  lemma ShrinkFloor(b: real, factor: real)
    requires 0.0 <= factor <= 1.0 && b >= 0.0
    ensures (b * factor).Floor <= b.Floor
  {
    ScaleMonotone(b, factor, 1.0);
    assert b * 1.0 == b;
    FloorMonotone(b * factor, b);
  }

  /** `Math.floor((x || d) * factor)`, the way maxima grow: a whole number,
      and never below a whole, non-negative `x` when the factor is at least one. */
  function GrownMax(x: real, d: real, factor: real): (r: real)
    ensures Whole(r)
    ensures factor >= 1.0 && d >= 0.0 && x >= 0.0 && Whole(x) ==> r >= x
  {
    var v := Or(x, d) * factor;
    assert factor >= 1.0 && d >= 0.0 && x >= 0.0 ==> x.Floor <= v.Floor by {
      if factor >= 1.0 && d >= 0.0 && x >= 0.0 {
        GrowFloor(x, Or(x, d), factor);
      }
    }
    v.Floor as real
  }

  /** `Math.floor((damage || 10) * factor)`: a damage boost never lowers a
      damage. */
  function ScaledDamage(damage: int, factor: real): (r: int)
    ensures factor >= 1.0 && damage >= 0 ==> r >= damage
    ensures damage == 0 ==> r == (10.0 * factor).Floor
  {
    var v := OrInt(damage, 10) as real * factor;
    assert factor >= 1.0 && damage >= 0 ==> damage <= v.Floor by {
      if factor >= 1.0 && damage >= 0 {
        GrowFloor(damage as real, OrInt(damage, 10) as real, factor);
      }
    }
    v.Floor
  }

  const MinFireInterval := 60

  /** `Math.max(60, Math.floor((fireRate || 200) * factor))`: the interval
      between shots never drops below 60, and a factor of at most one never
      lengthens an interval that already respects that floor. */
  function FasterFire(fireRate: int, factor: real): (r: int)
    ensures r >= MinFireInterval
    ensures 0.0 <= factor <= 1.0 && fireRate >= MinFireInterval ==> r <= fireRate
  {
    var v := OrInt(fireRate, 200) as real * factor;
    assert 0.0 <= factor <= 1.0 && fireRate >= MinFireInterval ==> v.Floor <= fireRate by {
      if 0.0 <= factor <= 1.0 && fireRate >= MinFireInterval {
        ShrinkFloor(fireRate as real, factor);
      }
    }
    MaxInt(MinFireInterval, v.Floor)
  }

  /** `Math.min(cap, value + amount)`: a heal that stops at the cap. */
  function Heal(cap: real, value: real, amount: real): (r: real)
    ensures r <= cap && r <= value + amount
    ensures r == cap || r == value + amount
  {
    Min(cap, value + amount)
  }

  /** `applyModuleEffect` (module-tech.js:37-51) on a present ship. */
  function ModuleEffect(s: Stats, m: Module): Stats {
    match m
    case EngineMk1 => s.(acceleration := Or(s.acceleration, 0.25) * 1.08)
    case ShieldMk1 => s.(maxShield := Or(s.maxShield, 50.0) + 25.0)
    case FuelCells =>
      s.(maxFuel := GrownMax(s.maxFuel, 100.0, 1.15), fuelConsumption := Or(s.fuelConsumption, 1.0) * 0.92)
    case WeaponCoil => s.(weapon := s.weapon.(damage := ScaledDamage(s.weapon.damage, 1.15)))
    case AmmoRack => s.(ammo := s.ammo + 300.0)
    case RepairGel => s.(health := Heal(Or(s.maxHealth, 100.0), Or(s.health, 0.0), 35.0))
    case Overthruster => s.(maxSpeed := Or(s.maxSpeed, 1.0) * 1.12)
    case SensorLattice => s.(upgradePoints := OrInt(s.upgradePoints, 0) + 35)
  }

  /** `applyTechEffect` (module-tech.js:53-91) on a present ship. */
  function TechEffect(s: Stats, t: Tech): Stats {
    match t
    case Boost => s.(maxSpeed := Or(s.maxSpeed, 1.0) * 1.07)
    case HullPlating =>
      var mh := GrownMax(s.maxHealth, 100.0, 1.12);
      s.(maxHealth := mh, health := Heal(mh, s.health, 20.0))
    case Capacitor => s.(maxShield := Or(s.maxShield, 50.0) + 15.0)
    case Recycler => s.(minerals := s.minerals + 25)
    case Afterburners => s.(acceleration := Or(s.acceleration, 0.25) * 1.12)
    case VectorThrusters => s.(acceleration := Or(s.acceleration, 0.25) * 1.08)
    case ReinforcedBulkheads =>
      var mh := GrownMax(s.maxHealth, 100.0, 1.14);
      s.(maxHealth := mh, health := Heal(mh, s.health, 25.0))
    case AdaptiveShields => s.(shieldRegenRate := Or(s.shieldRegenRate, 0.1) + 0.04)
    case KineticRails => s.(weapon := s.weapon.(damage := ScaledDamage(s.weapon.damage, 1.12)))
    case ResourceScanners => s.(minerals := s.minerals + 40)
    case IonOverdrive => s.(maxSpeed := Or(s.maxSpeed, 1.0) * 1.12)
    case FortressMatrix =>
      var ms := Or(s.maxShield, 50.0) + 30.0;
      s.(maxShield := ms, shieldHealth := Heal(ms, Or(s.shieldHealth, 0.0), 30.0))
    case Nanorepair =>
      var mh := GrownMax(s.maxHealth, 100.0, 1.1);
      s.(maxHealth := mh, health := mh)
    case Hypervelocity =>
      s.(weapon := s.weapon.(fireRate := FasterFire(s.weapon.fireRate, 0.86),
                             damage := ScaledDamage(s.weapon.damage, 1.1)))
    case SalvageDrones => s.(salvage := s.salvage + 45)
    case CombatAi =>
      s.(weapon := s.weapon.(fireRate := FasterFire(s.weapon.fireRate, 0.9),
                             speed := Or(s.weapon.speed, 15.0) * 1.15))
  }

  /** The gauge part of `Ship.Valid`: fuel and shield within their maxima,
      no negative regeneration. */
  predicate Gauges(s: Stats) {
    0.0 <= s.fuel <= s.maxFuel && 0.0 <= s.shieldHealth <= s.maxShield && s.shieldRegenRate >= 0.0
  }

  /** The fuel capacities the game can hold: it starts at 100, stage
      separation keeps at least 100 and the loader at least 50, and every
      other change raises it; an upgrade's ×1.15 can leave it fractional. */
  predicate FuelCapacity(maxFuel: real) {
    maxFuel >= 50.0 || Whole(maxFuel)
  }

  /** No module breaks the gauges for a fuel capacity the game can hold:
      fuel cells floor the grown maximum, which stays above the fuel aboard
      when the old maximum is whole or at least 50 (the growth of 15% is
      then at least 7.5, more than the floor takes away). */
  lemma ModuleKeepsGauges(s: Stats, m: Module)
    requires Gauges(s) && FuelCapacity(s.maxFuel)
    ensures Gauges(ModuleEffect(s, m))
  {
    if m.FuelCells? && s.maxFuel >= 50.0 {
      var v := s.maxFuel * 1.15;
      assert v >= s.maxFuel + 7.5;
      assert v.Floor as real > v - 1.0;
    }
  }

  /** The repair gel heals 35 up to `maxHealth || 100`; the ammo rack adds
      300 rounds with no regard to `maxAmmo`; the sensor lattice grants 35
      upgrade points; each module touches only its own fields. */
  lemma ModuleEffects(s: Stats, m: Module)
    ensures var r := ModuleEffect(s, m);
      (m.RepairGel? ==> r.health <= Or(s.maxHealth, 100.0) &&
                        (s.health + 35.0 <= Or(s.maxHealth, 100.0) ==> r.health == s.health + 35.0)) &&
      (m.AmmoRack? <==> r.ammo != s.ammo) &&
      (m.AmmoRack? ==> r.ammo == s.ammo + 300.0) &&
      (m.SensorLattice? <==> r.upgradePoints != s.upgradePoints) &&
      (m.SensorLattice? ==> r.upgradePoints == s.upgradePoints + 35) &&
      (!m.RepairGel? ==> r.health == s.health) &&
      r.minerals == s.minerals && r.salvage == s.salvage && r.fuel == s.fuel
  {
  }

  /** No research breaks the gauges. */
  lemma TechKeepsGauges(s: Stats, t: Tech)
    requires Gauges(s)
    ensures Gauges(TechEffect(s, t))
  {
  }

  /** `hypervelocity` and `combat_ai` never take the fire interval below 60,
      and only shorten an interval already at or above it; no other node
      touches it. */
  lemma TechFireRate(s: Stats, t: Tech)
    ensures var r := TechEffect(s, t);
      ((t.Hypervelocity? || t.CombatAi?) ==> r.weapon.fireRate >= MinFireInterval) &&
      ((t.Hypervelocity? || t.CombatAi?) && s.weapon.fireRate >= MinFireInterval ==>
         r.weapon.fireRate <= s.weapon.fireRate) &&
      (!t.Hypervelocity? && !t.CombatAi? ==> r.weapon.fireRate == s.weapon.fireRate)
  {
  }

  /** The hull nodes: `nanorepair` fills the hull to its new maximum;
      `hull_plating` and `reinforced_bulkheads` heal at most to it. */
  lemma TechHull(s: Stats, t: Tech)
    ensures var r := TechEffect(s, t);
      (t.Nanorepair? ==> r.health == r.maxHealth) &&
      ((t.HullPlating? || t.ReinforcedBulkheads?) ==> r.health <= r.maxHealth && r.health <= s.health + (if t.HullPlating? then 20.0 else 25.0)) &&
      (!t.Nanorepair? && !t.HullPlating? && !t.ReinforcedBulkheads? ==> r.health == s.health && r.maxHealth == s.maxHealth)
  {
  }

  /** Research never weakens a ship with non-negative stats and a whole hull
      maximum: speed, acceleration, hull and shield maxima, regeneration,
      damage and the stocks only grow, upgrade points are untouched. */
  lemma TechNeverWeakens(s: Stats, t: Tech)
    requires s.acceleration >= 0.0 && s.maxSpeed >= 0.0 && s.maxShield >= 0.0
    requires s.maxHealth >= 0.0 && Whole(s.maxHealth)
    requires s.shieldRegenRate >= 0.0 && s.weapon.damage >= 0
    ensures var r := TechEffect(s, t);
      r.acceleration >= s.acceleration && r.maxSpeed >= s.maxSpeed &&
      r.maxHealth >= s.maxHealth && r.maxShield >= s.maxShield &&
      r.shieldRegenRate >= s.shieldRegenRate && r.weapon.damage >= s.weapon.damage &&
      r.minerals >= s.minerals && r.salvage >= s.salvage && r.upgradePoints == s.upgradePoints
  {
  }

  // ---------------------------------------------------------------- applying effects

  /** `applyModuleEffect`: nothing without a ship. */
  method ApplyModuleEffect(w: GameWorld, ship: Ship?, m: Module)
    modifies w`upgradePoints
    modifies ShipSet(ship)`acceleration, ShipSet(ship)`maxShield, ShipSet(ship)`maxFuel,
             ShipSet(ship)`fuelConsumption, ShipSet(ship)`weapon, ShipSet(ship)`ammo,
             ShipSet(ship)`health, ShipSet(ship)`maxSpeed
    ensures ship == null ==> w.upgradePoints == old(w.upgradePoints)
    ensures ship != null ==> StatsOf(w, ship) == ModuleEffect(old(StatsOf(w, ship)), m)
    ensures ship != null && old(ship.Valid()) && FuelCapacity(old(ship.maxFuel)) ==> ship.Valid()
  {
    if ship == null {
      return;
    }
    ghost var s := StatsOf(w, ship);
    match m {
      case EngineMk1 => ship.acceleration := Or(ship.acceleration, 0.25) * 1.08;
      case ShieldMk1 => ship.maxShield := Or(ship.maxShield, 50.0) + 25.0;
      case FuelCells =>
        ship.maxFuel := GrownMax(ship.maxFuel, 100.0, 1.15);
        ship.fuelConsumption := Or(ship.fuelConsumption, 1.0) * 0.92;
      case WeaponCoil => ship.weapon := ship.weapon.(damage := ScaledDamage(ship.weapon.damage, 1.15));
      case AmmoRack => ship.ammo := ship.ammo + 300.0;
      case RepairGel => ship.health := Heal(Or(ship.maxHealth, 100.0), Or(ship.health, 0.0), 35.0);
      case Overthruster => ship.maxSpeed := Or(ship.maxSpeed, 1.0) * 1.12;
      case SensorLattice => w.upgradePoints := OrInt(w.upgradePoints, 0) + 35;
    }
    if Gauges(s) && FuelCapacity(s.maxFuel) {
      ModuleKeepsGauges(s, m);
    }
  }

  /** The nodes by what they act on. */
  predicate EngineNode(t: Tech) { t.Boost? || t.Afterburners? || t.VectorThrusters? || t.IonOverdrive? }
  predicate StockNode(t: Tech) { t.Recycler? || t.ResourceScanners? || t.SalvageDrones? }
  predicate WeaponNode(t: Tech) { t.KineticRails? || t.Hypervelocity? || t.CombatAi? }

  /** `applyTechEffect`: nothing without a ship. */
  method ApplyTechEffect(w: GameWorld, ship: Ship?, t: Tech)
    modifies w`minerals, w`salvage
    modifies ShipSet(ship)`maxSpeed, ShipSet(ship)`maxHealth, ShipSet(ship)`health,
             ShipSet(ship)`maxShield, ShipSet(ship)`acceleration, ShipSet(ship)`shieldRegenRate,
             ShipSet(ship)`weapon, ShipSet(ship)`shieldHealth
    ensures ship == null ==> w.minerals == old(w.minerals) && w.salvage == old(w.salvage)
    ensures ship != null ==> StatsOf(w, ship) == TechEffect(old(StatsOf(w, ship)), t)
    ensures ship != null && old(ship.Valid()) ==> ship.Valid()
  {
    if ship == null {
      return;
    }
    ghost var s := StatsOf(w, ship);
    if EngineNode(t) {
      ApplyEngineTech(w, ship, t);
    } else if StockNode(t) {
      ApplyStockTech(w, ship, t);
    } else if WeaponNode(t) {
      ApplyWeaponTech(w, ship, t);
    } else {
      ApplyHullTech(w, ship, t);
    }
    if Gauges(s) {
      TechKeepsGauges(s, t);
    }
  }

  method ApplyEngineTech(w: GameWorld, ship: Ship, t: Tech)
    requires EngineNode(t)
    modifies ship`maxSpeed, ship`acceleration
    ensures StatsOf(w, ship) == TechEffect(old(StatsOf(w, ship)), t)
  {
    match t {
      case Boost => ship.maxSpeed := Or(ship.maxSpeed, 1.0) * 1.07;
      case Afterburners => ship.acceleration := Or(ship.acceleration, 0.25) * 1.12;
      case VectorThrusters => ship.acceleration := Or(ship.acceleration, 0.25) * 1.08;
      case IonOverdrive => ship.maxSpeed := Or(ship.maxSpeed, 1.0) * 1.12;
    }
  }

  method ApplyStockTech(w: GameWorld, ship: Ship, t: Tech)
    requires StockNode(t)
    modifies w`minerals, w`salvage
    ensures StatsOf(w, ship) == TechEffect(old(StatsOf(w, ship)), t)
  {
    match t {
      case Recycler => w.minerals := w.minerals + 25;
      case ResourceScanners => w.minerals := w.minerals + 40;
      case SalvageDrones => w.salvage := w.salvage + 45;
    }
  }

  method ApplyWeaponTech(w: GameWorld, ship: Ship, t: Tech)
    requires WeaponNode(t)
    modifies ship`weapon
    ensures StatsOf(w, ship) == TechEffect(old(StatsOf(w, ship)), t)
  {
    match t {
      case KineticRails => ship.weapon := ship.weapon.(damage := ScaledDamage(ship.weapon.damage, 1.12));
      case Hypervelocity =>
        ship.weapon := ship.weapon.(fireRate := FasterFire(ship.weapon.fireRate, 0.86));
        ship.weapon := ship.weapon.(damage := ScaledDamage(ship.weapon.damage, 1.1));
      case CombatAi =>
        ship.weapon := ship.weapon.(fireRate := FasterFire(ship.weapon.fireRate, 0.9));
        ship.weapon := ship.weapon.(speed := Or(ship.weapon.speed, 15.0) * 1.15);
    }
  }

  method ApplyHullTech(w: GameWorld, ship: Ship, t: Tech)
    requires !EngineNode(t) && !StockNode(t) && !WeaponNode(t)
    modifies ship`maxHealth, ship`health, ship`maxShield, ship`shieldRegenRate, ship`shieldHealth
    ensures StatsOf(w, ship) == TechEffect(old(StatsOf(w, ship)), t)
  {
    match t {
      case HullPlating =>
        ship.maxHealth := GrownMax(ship.maxHealth, 100.0, 1.12);
        ship.health := Heal(ship.maxHealth, ship.health, 20.0);
      case Capacitor => ship.maxShield := Or(ship.maxShield, 50.0) + 15.0;
      case ReinforcedBulkheads =>
        ship.maxHealth := GrownMax(ship.maxHealth, 100.0, 1.14);
        ship.health := Heal(ship.maxHealth, ship.health, 25.0);
      case AdaptiveShields => ship.shieldRegenRate := Or(ship.shieldRegenRate, 0.1) + 0.04;
      case FortressMatrix =>
        ship.maxShield := Or(ship.maxShield, 50.0) + 30.0;
        ship.shieldHealth := Heal(ship.maxShield, Or(ship.shieldHealth, 0.0), 30.0);
      case Nanorepair =>
        ship.maxHealth := GrownMax(ship.maxHealth, 100.0, 1.1);
        ship.health := ship.maxHealth;
    }
  }

  // ---------------------------------------------------------------- buying and researching

  /** No module is listed twice. */
  predicate NoRepeats(s: seq<string>) {
    forall i, j | 0 <= i < j < |s| :: s[i] != s[j]
  }

  /** Every listed module is a catalogue key. */
  predicate AllKnown(s: seq<string>) {
    forall i | 0 <= i < |s| :: ModuleOf(s[i]).Some?
  }

  /** `buyModule` (module-tech.js:117-139): an unknown or installed key is
      ignored; otherwise minerals pay if they suffice, score pays if it
      suffices, and else nothing happens; a paid module is listed and takes
      effect. */
  method BuyModule(w: GameWorld, ship: Ship?, id: string)
    modifies w`minerals, w`score, w`modules, w`upgradePoints
    modifies ShipSet(ship)`acceleration, ShipSet(ship)`maxShield, ShipSet(ship)`maxFuel,
             ShipSet(ship)`fuelConsumption, ShipSet(ship)`weapon, ShipSet(ship)`ammo,
             ShipSet(ship)`health, ShipSet(ship)`maxSpeed
    ensures var m := ModuleOf(id);
      m.None? || id in old(w.modules) ||
      (old(w.minerals) < CostMinerals(m.value) && old(w.score) < CostScore(m.value)) ==>
        unchanged(w) && (ship != null ==> unchanged(ship))
    ensures var m := ModuleOf(id);
      m.Some? && id !in old(w.modules) && old(w.minerals) >= CostMinerals(m.value) ==>
        w.minerals == old(w.minerals) - CostMinerals(m.value) && w.score == old(w.score) &&
        w.modules == old(w.modules) + [id]
    ensures var m := ModuleOf(id);
      m.Some? && id !in old(w.modules) && old(w.minerals) < CostMinerals(m.value) &&
      old(w.score) >= CostScore(m.value) ==>
        w.score == old(w.score) - CostScore(m.value) && w.minerals == old(w.minerals) &&
        w.modules == old(w.modules) + [id]
    ensures w.modules != old(w.modules) && ship != null ==>
      StatsOf(w, ship) == ModuleEffect(old(StatsOf(w, ship)).(minerals := w.minerals), ModuleOf(id).value)
    ensures w.modules != old(w.modules) && ship == null ==> w.upgradePoints == old(w.upgradePoints)
    ensures NoRepeats(old(w.modules)) ==> NoRepeats(w.modules)
    ensures AllKnown(old(w.modules)) ==> AllKnown(w.modules)
    ensures ship != null && old(ship.Valid()) && FuelCapacity(old(ship.maxFuel)) ==> ship.Valid()
  {
    var m := ModuleOf(id);
    if m.None? {
      return;
    }
    if id in w.modules {
      return;
    }
    if w.minerals >= CostMinerals(m.value) {
      w.minerals := w.minerals - CostMinerals(m.value);
    } else if w.score >= CostScore(m.value) {
      w.score := w.score - CostScore(m.value);
    } else {
      return;
    }
    w.modules := w.modules + [id];
    ApplyModuleEffect(w, ship, m.value);
  }

  /** `researchTech` (module-tech.js:176-195): an unknown, unlocked,
      prerequisite-blocked or unaffordable node is refused; otherwise its
      cost is paid in upgrade points, it is unlocked and takes effect. */
  method ResearchTech(w: GameWorld, ship: Ship?, id: string)
    modifies w`upgradePoints, w`tech, w`minerals, w`salvage
    modifies ShipSet(ship)`maxSpeed, ShipSet(ship)`maxHealth, ShipSet(ship)`health,
             ShipSet(ship)`maxShield, ShipSet(ship)`acceleration, ShipSet(ship)`shieldRegenRate,
             ShipSet(ship)`weapon, ShipSet(ship)`shieldHealth
    ensures var t := TechOf(id);
      !(t.Some? && Researchable(old(w.tech), old(w.upgradePoints), t.value)) ==>
        unchanged(w) && (ship != null ==> unchanged(ship))
    ensures var t := TechOf(id);
      t.Some? && Researchable(old(w.tech), old(w.upgradePoints), t.value) ==>
        w.tech == old(w.tech) + {id} &&
        w.upgradePoints == old(w.upgradePoints) - TechCost(t.value) &&
        (ship != null ==>
           StatsOf(w, ship) == TechEffect(old(StatsOf(w, ship)).(upgradePoints := w.upgradePoints), t.value)) &&
        (ship == null ==> w.minerals == old(w.minerals) && w.salvage == old(w.salvage))
    ensures ReqClosed(old(w.tech)) ==> ReqClosed(w.tech)
    ensures ship != null && old(ship.Valid()) ==> ship.Valid()
  {
    var t := TechOf(id);
    if t.None? {
      return;
    }
    if HasTech(w.tech, id) {
      return;
    }
    if ReqId(t.value).Some? && !HasTech(w.tech, ReqId(t.value).value) {
      return;
    }
    if OrInt(w.upgradePoints, 0) < TechCost(t.value) {
      return;
    }
    if ReqClosed(w.tech) {
      ResearchKeepsClosed(w.tech, w.upgradePoints, t.value);
    }
    w.upgradePoints := OrInt(w.upgradePoints, 0) - TechCost(t.value);
    w.tech := w.tech + {id};
    ApplyTechEffect(w, ship, t.value);
  }
}
