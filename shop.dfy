/** The shop side of the game: upgrade prices and purchases
    (assets/js/game.module.js:2581-2591, 5425-5450), the dynamic shop and skin
    prices (4511-4541), crafting and mineral sales (4889-4955), the station
    items a planet base adds to its shop (4957-4990) and `buyItem` with its
    ladder of refusals and per-item effects (4995-5309). */
module Shop {
  import opened Numeric
  import opened Civilization
  import opened ShipModel
  import opened World

  /** The ship as a frame: empty when there is none. */
  function ShipSet(ship: Ship?): set<Ship> {
    if ship == null then {} else {ship}
  }

  /** `table[key] || 0` on a table of counters. */
  function Count(m: map<string, int>, key: string): int {
    if key in m then m[key] else 0
  }

  // ---------------------------------------------------------------- upgrades

  datatype Stat = MaxSpeed | MaxHealth | WeaponDamage | MaxFuel | ShieldRegen

  datatype UpgradeConfig = UpgradeConfig(max: int, cost: int, stat: Stat, multiplier: real)

  /** The `UPGRADES` table (game.module.js:2581-2587). */
  function UpgradeConfigOf(t: string): (r: Option<UpgradeConfig>)
    ensures r.Some? <==> t in {"speed", "health", "weapon", "fuel", "regen"}
    ensures r.Some? ==> 3 <= r.value.max <= 5 && r.value.cost >= 500 && r.value.multiplier > 1.0
  {
    match t
    case "speed" => Some(UpgradeConfig(5, 1000, MaxSpeed, 1.1))
    case "health" => Some(UpgradeConfig(5, 1500, MaxHealth, 1.15))
    case "weapon" => Some(UpgradeConfig(5, 1750, WeaponDamage, 1.2))
    case "fuel" => Some(UpgradeConfig(5, 500, MaxFuel, 1.15))
    case "regen" => Some(UpgradeConfig(3, 750, ShieldRegen, 1.5))
    case _ => None
  }

  /** `getUpgradeCost(cfg, ownedLevel)`: each owned level adds 40% of the base cost. */
  function UpgradeCost(cost: int, owned: int): int {
    (cost as real * (1.0 + owned as real * 0.4)).Floor
  }

  /** The same price in integer arithmetic: the base cost plus two fifths of
      it per owned level, rounded down. */
  lemma UpgradeCostExact(cost: int, owned: int)
    ensures UpgradeCost(cost, owned) == cost + (2 * cost * owned) / 5
  {
    var n := 2 * cost * owned;
    var q, r := n / 5, n % 5;
    assert n == 5 * q + r && 0 <= r < 5;
    assert cost as real * (1.0 + owned as real * 0.4) == (cost + q) as real + r as real / 5.0;
  }

  /** Every level costs more than the one before. */
  lemma UpgradeCostIncreasing(cost: int, k: int)
    requires cost >= 3
    ensures UpgradeCost(cost, k) < UpgradeCost(cost, k + 1)
  {
    UpgradeCostExact(cost, k);
    UpgradeCostExact(cost, k + 1);
    assert 2 * cost * (k + 1) == 2 * cost * k + 2 * cost;
    assert (2 * cost * k + 2 * cost) / 5 >= (2 * cost * k) / 5 + (2 * cost) / 5;
  }

  /** No upgrade is owned beyond its maximum level. */
  predicate UpgradesCapped(m: map<string, int>) {
    forall t | t in m && UpgradeConfigOf(t).Some? :: m[t] <= UpgradeConfigOf(t).value.max
  }

  /** `buyUpgrade(type)` for the ship `ship` (`null` when there is none):
      refused for an unknown type, a maxed upgrade, or too few upgrade points;
      otherwise the points are paid, the level rises by one and the ship's
      stat is multiplied. */
  method BuyUpgrade(w: GameWorld, ship: Ship?, t: string) returns (bought: bool)
    modifies w`upgradePoints, w`upgrades
    modifies ShipSet(ship)`maxSpeed, ShipSet(ship)`maxHealth, ShipSet(ship)`maxFuel,
             ShipSet(ship)`weapon, ShipSet(ship)`shieldRegenRate
    ensures var cfg := UpgradeConfigOf(t);
      bought <==> cfg.Some? && Count(old(w.upgrades), t) < cfg.value.max &&
                  old(w.upgradePoints) >= UpgradeCost(cfg.value.cost, Count(old(w.upgrades), t))
    ensures !bought ==> w.upgradePoints == old(w.upgradePoints) && w.upgrades == old(w.upgrades)
    ensures !bought && ship != null ==> unchanged(ship)
    ensures bought ==>
      var cfg := UpgradeConfigOf(t).value;
      var owned := Count(old(w.upgrades), t);
      w.upgradePoints == old(w.upgradePoints) - UpgradeCost(cfg.cost, owned) &&
      w.upgrades == old(w.upgrades)[t := owned + 1]
    ensures bought ==> w.upgradePoints >= 0 || old(w.upgradePoints) < 0
    ensures bought && ship != null ==>
      var cfg := UpgradeConfigOf(t).value;
      (cfg.stat == MaxSpeed ==> ship.maxSpeed == old(ship.maxSpeed) * 1.1) &&
      (cfg.stat == MaxHealth ==> ship.maxHealth == (old(ship.maxHealth) * 1.15).Floor as real) &&
      (cfg.stat == MaxFuel ==> ship.maxFuel == old(ship.maxFuel) * 1.15) &&
      (cfg.stat == WeaponDamage ==> ship.weapon == old(ship.weapon).(damage := (old(ship.weapon).damage as real * 1.2).Floor)) &&
      (cfg.stat == ShieldRegen ==> ship.shieldRegenRate == Or(old(ship.shieldRegenRate), 0.1) * 1.5)
    ensures bought && ship != null ==>
      var stat := UpgradeConfigOf(t).value.stat;
      (stat != MaxSpeed ==> ship.maxSpeed == old(ship.maxSpeed)) &&
      (stat != MaxHealth ==> ship.maxHealth == old(ship.maxHealth)) &&
      (stat != MaxFuel ==> ship.maxFuel == old(ship.maxFuel)) &&
      (stat != WeaponDamage ==> ship.weapon == old(ship.weapon)) &&
      (stat != ShieldRegen ==> ship.shieldRegenRate == old(ship.shieldRegenRate))
    ensures old(UpgradesCapped(w.upgrades)) ==> UpgradesCapped(w.upgrades)
    ensures ship != null && old(ship.Valid()) ==> ship.Valid()
  {
    var cfg := UpgradeConfigOf(t);
    if cfg.None? {
      return false;
    }
    var c := cfg.value;
    var owned := Count(w.upgrades, t);
    var price := UpgradeCost(c.cost, owned);
    if owned >= c.max || w.upgradePoints < price {
      return false;
    }
    w.upgradePoints := w.upgradePoints - price;
    w.upgrades := w.upgrades[t := owned + 1];
    if ship != null {
      UpgradeShip(ship, c);
    }
    return true;
  }

  /** The ship's side of a bought upgrade: the configured stat grows by the
      configured multiplier (damage and hull rounded down), and a valid ship
      stays valid. */
  method UpgradeShip(ship: Ship, c: UpgradeConfig)
    requires c.multiplier > 1.0
    modifies ship`maxSpeed, ship`maxHealth, ship`maxFuel, ship`weapon, ship`shieldRegenRate
    ensures c.stat == MaxSpeed ==> ship.maxSpeed == old(ship.maxSpeed) * c.multiplier
    ensures c.stat == MaxHealth ==> ship.maxHealth == (old(ship.maxHealth) * c.multiplier).Floor as real
    ensures c.stat == MaxFuel ==> ship.maxFuel == old(ship.maxFuel) * c.multiplier
    ensures c.stat == WeaponDamage ==>
      ship.weapon == old(ship.weapon).(damage := (old(ship.weapon).damage as real * c.multiplier).Floor)
    ensures c.stat == ShieldRegen ==> ship.shieldRegenRate == Or(old(ship.shieldRegenRate), 0.1) * c.multiplier
    ensures c.stat != MaxSpeed ==> ship.maxSpeed == old(ship.maxSpeed)
    ensures c.stat != MaxHealth ==> ship.maxHealth == old(ship.maxHealth)
    ensures c.stat != MaxFuel ==> ship.maxFuel == old(ship.maxFuel)
    ensures c.stat != WeaponDamage ==> ship.weapon == old(ship.weapon)
    ensures c.stat != ShieldRegen ==> ship.shieldRegenRate == old(ship.shieldRegenRate)
    ensures old(ship.Valid()) ==> ship.Valid()
  {
    match c.stat
    case MaxSpeed => ship.maxSpeed := ship.maxSpeed * c.multiplier;
    case MaxHealth => ship.maxHealth := (ship.maxHealth * c.multiplier).Floor as real;
    case MaxFuel =>
      if ship.maxFuel >= 0.0 {
        ScaleMonotone(ship.maxFuel, 1.0, c.multiplier);
      }
      ship.maxFuel := ship.maxFuel * c.multiplier;
    case WeaponDamage => ship.weapon := ship.weapon.(damage := (ship.weapon.damage as real * c.multiplier).Floor);
    case ShieldRegen => ship.shieldRegenRate := Or(ship.shieldRegenRate, 0.1) * c.multiplier;
  }

  // ---------------------------------------------------------------- dynamic prices

  /** Items bought over and over get dearer faster. */
  const RepeatHeavy: set<string> := {"ammo", "fuel", "shield", "health", "stage", "satellite_t1",
                                      "satellite_t2", "satellite_t3", "drone_combat", "drone_harvester"}

  function PriceStep(t: string): real { if t in RepeatHeavy then 0.22 else 0.14 }

  /** The surcharge for the player's wealth: 1 plus up to 35%, reached at 15750 score. */
  function EconomyScale(score: int): real { 1.0 + Min(0.35, score as real / 45000.0) }

  /** The repeat-purchase factor: one step per earlier purchase of the item. */
  function OwnScale(t: string, counts: map<string, int>): real {
    1.0 + Count(counts, t) as real * PriceStep(t)
  }

  /** `Math.max(1, Math.floor(base * own * economy))` */
  function ScaledPrice(base: real, own: real, economy: real): int {
    MaxInt(1, (base * own * economy).Floor)
  }

  /** `getDynamicShopCost(baseCost, type)`: the base price scaled by how often
      the item was bought and by the player's score, never below 1. */
  function DynamicShopCost(baseCost: int, t: string, counts: map<string, int>, score: int): (r: int)
    ensures r >= 1
  {
    ScaledPrice(baseCost as real, OwnScale(t, counts), EconomyScale(score))
  }

  /** A product of non-negative factors grows with each factor, before and
      after rounding down. */
  lemma ProductMonotone(b: real, o1: real, o2: real, e1: real, e2: real)
    requires b >= 0.0 && 0.0 <= o1 <= o2 && 0.0 <= e1 <= e2
    ensures (b * o1 * e1).Floor <= (b * o2 * e2).Floor
  {
    var x1, x2 := b * o1, b * o2;
    ScaleMonotone(b, o1, o2);
    ScaleMonotone(x1, e1, e2);
    ScaleMonotone(e2, x1, x2);
    assert x1 * e1 <= x2 * e2;
    FloorMonotone(x1 * e1, x2 * e2);
  }

  lemma OwnScaleMonotone(t: string, c1: map<string, int>, c2: map<string, int>)
    requires 0 <= Count(c1, t) <= Count(c2, t)
    ensures 1.0 <= OwnScale(t, c1) <= OwnScale(t, c2)
  {
    ScaleMonotone(PriceStep(t), Count(c1, t) as real, Count(c2, t) as real);
  }

  /** A price never falls below its base price and the wealth surcharge adds
      at most 35% on top of the repeat-purchase price. */
  lemma ShopCostBounds(baseCost: int, t: string, counts: map<string, int>, score: int)
    requires baseCost >= 1 && Count(counts, t) >= 0 && score >= 0
    ensures baseCost <= DynamicShopCost(baseCost, t, counts, score) <= (baseCost as real * OwnScale(t, counts) * 1.35).Floor
  {
    OwnScaleMonotone(t, map[], counts);
    EconomyScaleRange(score);
    ScaledPriceBounds(baseCost, OwnScale(t, counts), EconomyScale(score));
  }

  lemma ScaledPriceBounds(base: int, own: real, economy: real)
    requires base >= 1 && own >= 1.0 && 1.0 <= economy <= 1.35
    ensures base <= ScaledPrice(base as real, own, economy) <= (base as real * own * 1.35).Floor
  {
    var b := base as real;
    var lo, mid, hi := b * 1.0 * 1.0, b * own * economy, b * own * 1.35;
    ProductMonotone(b, own, own, economy, 1.35);
    ProductMonotone(b, 1.0, own, 1.0, economy);
    assert lo == b && lo.Floor == base;
    assert base <= mid.Floor <= hi.Floor;
    assert ScaledPrice(b, own, economy) == MaxInt(1, mid.Floor);
  }

  lemma EconomyScaleRange(score: int)
    requires score >= 0
    ensures 1.0 <= EconomyScale(score) <= 1.35
  {
  }

  /** A first purchase by a player without score pays exactly the base price. */
  lemma ShopCostFirstPurchase(baseCost: int, t: string, counts: map<string, int>)
    requires baseCost >= 1 && Count(counts, t) == 0
    ensures DynamicShopCost(baseCost, t, counts, 0) == baseCost
  {
    assert OwnScale(t, counts) == 1.0;
  }

  /** Buying an item, or gaining score, never makes it cheaper. */
  lemma ShopCostMonotone(baseCost: int, t: string, c1: map<string, int>, c2: map<string, int>, s1: int, s2: int)
    requires baseCost >= 0 && 0 <= Count(c1, t) <= Count(c2, t) && 0 <= s1 <= s2
    ensures DynamicShopCost(baseCost, t, c1, s1) <= DynamicShopCost(baseCost, t, c2, s2)
  {
    OwnScaleMonotone(t, c1, c2);
    var o1, o2, e1, e2 := OwnScale(t, c1), OwnScale(t, c2), EconomyScale(s1), EconomyScale(s2);
    assert e1 <= e2;
    ScaledPriceMonotone(baseCost as real, o1, o2, e1, e2);
  }

  lemma ScaledPriceMonotone(b: real, o1: real, o2: real, e1: real, e2: real)
    requires b >= 0.0 && 0.0 <= o1 <= o2 && 0.0 <= e1 <= e2
    ensures ScaledPrice(b, o1, e1) <= ScaledPrice(b, o2, e2)
  {
    ProductMonotone(b, o1, o2, e1, e2);
  }

  /** `getDynamicSkinCost(baseCost, skinId)` with `owned` skins already owned:
      each owned skin adds 20% to the base price (itself at least 1). */
  function DynamicSkinCost(baseCost: int, owned: nat): int {
    var base := MaxInt(1, baseCost);
    MaxInt(base, (base as real * (1.0 + owned as real * 0.2)).Floor)
  }

  /** In integers: the base price plus a fifth of it per owned skin. */
  lemma SkinCostExact(baseCost: int, owned: nat)
    ensures var base := MaxInt(1, baseCost);
      DynamicSkinCost(baseCost, owned) == base + (base * owned) / 5 && DynamicSkinCost(baseCost, owned) >= 1
  {
    var base := MaxInt(1, baseCost);
    var n := base * owned;
    var q, r := n / 5, n % 5;
    assert n == 5 * q + r && 0 <= r < 5 && q >= 0;
    assert base as real * (1.0 + owned as real * 0.2) == (base + q) as real + r as real / 5.0;
  }

  /** Owning more skins never makes the next one cheaper. */
  lemma SkinCostMonotone(baseCost: int, o1: nat, o2: nat)
    requires o1 <= o2
    ensures DynamicSkinCost(baseCost, o1) <= DynamicSkinCost(baseCost, o2)
  {
    SkinCostExact(baseCost, o1);
    SkinCostExact(baseCost, o2);
    var base := MaxInt(1, baseCost);
    assert base * o1 <= base * o2;
  }

  // ---------------------------------------------------------------- crafting

  datatype Recipe = Recipe(minerals: int, salvage: int)

  /** `getCraftRecipes()` (game.module.js:4829-4837): what each recipe costs. */
  function RecipeFor(id: string): (r: Option<Recipe>)
    ensures r.Some? <==> id in {"ammo_crate", "shield_battery", "fuel_cells", "field_repair", "rocket_stage"}
    ensures r.Some? ==> r.value.minerals > 0 && r.value.salvage > 0
  {
    match id
    case "ammo_crate" => Some(Recipe(20, 5))
    case "shield_battery" => Some(Recipe(25, 8))
    case "fuel_cells" => Some(Recipe(18, 6))
    case "field_repair" => Some(Recipe(30, 10))
    case "rocket_stage" => Some(Recipe(45, 16))
    case _ => None
  }

  /** `craftItem(id)`: refused without a ship, for an unknown recipe or when
      minerals or salvage fall short; otherwise both are paid and the item's
      effect applied to the ship. */
  method CraftItem(w: GameWorld, ship: Ship?, id: string, now: int) returns (crafted: bool)
    modifies w`minerals, w`salvage
    modifies ShipSet(ship)`ammo, ShipSet(ship)`shieldHealth, ShipSet(ship)`fuel, ShipSet(ship)`health
    modifies ShipSet(ship)`extraStages, ShipSet(ship)`maxFuel, ShipSet(ship)`stageFuelBoosts
    modifies ShipSet(ship)`maxSpeed, ShipSet(ship)`acceleration
    ensures crafted <==> (ship != null && RecipeFor(id).Some? &&
      old(w.minerals) >= RecipeFor(id).value.minerals && old(w.salvage) >= RecipeFor(id).value.salvage)
    ensures !crafted ==> w.minerals == old(w.minerals) && w.salvage == old(w.salvage)
    ensures !crafted && ship != null ==> unchanged(ship)
    ensures crafted ==>
      w.minerals == old(w.minerals) - RecipeFor(id).value.minerals && w.minerals >= 0 &&
      w.salvage == old(w.salvage) - RecipeFor(id).value.salvage && w.salvage >= 0
    ensures crafted ==> GaugesOf(ship) == Crafted(id, old(GaugesOf(ship)), now)
    ensures ship != null && old(ship.Valid()) ==> ship.Valid()
  {
    if ship == null {
      return false;
    }
    var rec := RecipeFor(id);
    if rec.None? || w.minerals < rec.value.minerals || w.salvage < rec.value.salvage {
      return false;
    }
    w.minerals := w.minerals - rec.value.minerals;
    w.salvage := w.salvage - rec.value.salvage;
    ApplyRecipe(ship, id, now);
    return true;
  }

  /** The effect of a paid craft on the ship: 250 ammo, 80 shield, 80 fuel or
      60 health, each up to its maximum, or one more rocket stage. */
  method ApplyRecipe(ship: Ship, id: string, now: int)
    requires RecipeFor(id).Some?
    modifies ship`ammo, ship`shieldHealth, ship`fuel, ship`health
    modifies ship`extraStages, ship`maxFuel, ship`stageFuelBoosts, ship`maxSpeed, ship`acceleration
    ensures GaugesOf(ship) == Crafted(id, old(GaugesOf(ship)), now)
    ensures old(ship.Valid()) ==> ship.Valid()
  {
    if id == "ammo_crate" {
      ship.AddAmmo(250.0);
    } else if id == "shield_battery" {
      ship.AddShield(80.0);
    } else if id == "fuel_cells" {
      ship.RefillFuel(80.0);
    } else if id == "field_repair" {
      ship.health := Min(ship.maxHealth, ship.health + 60.0);
    } else {
      var _ := ship.AddRocketStage(now);
    }
  }

  // ---------------------------------------------------------------- mineral sales

  datatype SellRequest = SellAll | SellCount(n: int)

  /** Score paid for `amount` minerals: 5 each, 5.2 each from 50 up. */
  function SalePrice(amount: int): int {
    (amount as real * (if amount >= 50 then 5.2 else 5.0)).Floor
  }

  /** The price in integers; the bulk rate never pays less per mineral, so a
      larger sale never earns less. */
  lemma SalePriceExact(amount: int)
    requires amount >= 0
    ensures amount < 50 ==> SalePrice(amount) == 5 * amount
    ensures amount >= 50 ==> SalePrice(amount) == (26 * amount) / 5
    ensures SalePrice(amount) >= 5 * amount
  {
    if amount >= 50 {
      var q, r := (26 * amount) / 5, (26 * amount) % 5;
      assert 26 * amount == 5 * q + r && 0 <= r < 5;
      assert amount as real * 5.2 == q as real + r as real / 5.0;
    }
  }

  lemma SalePriceMonotone(a: int, b: int)
    requires 0 <= a <= b
    ensures SalePrice(a) <= SalePrice(b)
  {
    SalePriceExact(a);
    SalePriceExact(b);
  }

  /** `sellMinerals(amount)`: sells the request, capped at the minerals held;
      nothing happens when that leaves nothing to sell. */
  method SellMinerals(w: GameWorld, req: SellRequest) returns (sold: int, gained: int)
    modifies w`minerals, w`score
    ensures var want := if req.SellAll? then old(w.minerals) else MinInt(req.n, old(w.minerals));
      (want <= 0 ==> sold == 0 && gained == 0) && (want > 0 ==> sold == want)
    ensures sold > 0 ==> sold <= old(w.minerals) && (req.SellCount? ==> sold <= req.n)
    ensures gained == SalePrice(sold) && gained >= 5 * sold
    ensures w.minerals == old(w.minerals) - sold && w.score == old(w.score) + gained
    ensures old(w.minerals) >= 0 ==> w.minerals >= 0
  {
    var amount := if req.SellAll? then w.minerals else MinInt(req.n, w.minerals);
    if amount <= 0 {
      assert SalePrice(0) == 0;
      return 0, 0;
    }
    SalePriceExact(amount);
    sold, gained := amount, SalePrice(amount);
    w.minerals := w.minerals - sold;
    w.score := w.score + gained;
  }

  // ---------------------------------------------------------------- station items

  /** The seventeen items a planet base adds to its shop (game.module.js:4959-4977),
      in the order they are offered. */
  function StationExtra(k: int): ShopItem {
    match k
    case 0 => ShopItem("Base Refuel Service", "base_refuel", 300, 0)
    case 1 => ShopItem("Base Crafting", "base_craft", 450, 0)
    case 2 => ShopItem("Base Trading Contract", "base_trade", 600, 0)
    case 3 => ShopItem("Station Tier II", "base_t2", 1400, 0)
    case 4 => ShopItem("Station Tier III", "base_t3", 2600, 0)
    case 5 => ShopItem("Station Tier IV", "base_t4", 4200, 0)
    case 6 => ShopItem("Terraform Atmosphere", "eng_atmosphere", 1200, 0)
    case 7 => ShopItem("Move Moons", "eng_move_moon", 1800, 0)
    case 8 => ShopItem("Create Artificial Rings", "eng_artificial_rings", 2200, 0)
    case 9 => ShopItem("Detonate Star (Controlled)", "eng_detonate_star", 4500, 0)
    case 10 => ShopItem("Build Dyson Swarm", "eng_dyson_swarm", 5200, 0)
    case 11 => ShopItem("Found Civilization", "civ_found", 1800, 0)
    case 12 => ShopItem("Create Government", "civ_government", 1400, 0)
    case 13 => ShopItem("Design Legal System", "civ_legal", 1200, 0)
    case 14 => ShopItem("Build Economy", "civ_economy", 1600, 0)
    case 15 => ShopItem("Start War Campaign", "civ_war", 2000, 0)
    case _ => ShopItem("Launch Invasion Fleet", "civ_invasion", 2400, 0)
  }

  function BaseShopExtras(): seq<ShopItem> {
    seq(17, StationExtra)
  }

  predicate HasType(shop: seq<ShopItem>, t: string) {
    exists k | 0 <= k < |shop| :: shop[k].itemType == t
  }

  /** Each extra, in order, is appended unless an item of its type is already
      on sale. */
  function AddMissing(shop: seq<ShopItem>, extras: seq<ShopItem>): seq<ShopItem>
    decreases |extras|
  {
    if extras == [] then shop
    else AddMissing(if HasType(shop, extras[0].itemType) then shop else shop + [extras[0]], extras[1..])
  }

  /** What `AddMissing` guarantees: the shop keeps its items in place, every
      extra's type is on sale afterwards, and each appended item is an extra
      whose type was not on sale before, with no type appended twice. */
  lemma {:induction false} AddMissingShape(shop: seq<ShopItem>, extras: seq<ShopItem>)
    ensures var r := AddMissing(shop, extras);
      |shop| <= |r| && r[..|shop|] == shop &&
      (forall e | e in extras :: HasType(r, e.itemType)) &&
      (forall k | |shop| <= k < |r| :: r[k] in extras && !HasType(shop, r[k].itemType)) &&
      (forall k, l | |shop| <= k < l < |r| :: r[k].itemType != r[l].itemType)
    decreases |extras|
  {
    if extras != [] {
      var x := extras[0];
      var s1 := if HasType(shop, x.itemType) then shop else shop + [x];
      AddMissingShape(s1, extras[1..]);
      var r := AddMissing(shop, extras);
      assert r == AddMissing(s1, extras[1..]);
      assert r[..|s1|] == s1;
      assert r[..|shop|] == shop by {
        assert r[..|shop|] == r[..|s1|][..|shop|];
      }
      assert HasType(r, x.itemType) by {
        if HasType(shop, x.itemType) {
          var k :| 0 <= k < |shop| && shop[k].itemType == x.itemType;
          assert r[k] == shop[k];
        } else {
          assert r[|shop|] == s1[|shop|] == x;
        }
      }
      forall k | |shop| <= k < |r|
        ensures r[k] in extras && !HasType(shop, r[k].itemType)
      {
        if k < |s1| {
          assert r[k] == s1[k] == x;
        } else {
          assert !HasType(s1, r[k].itemType);
          HasTypeExtends(shop, s1, r[k].itemType);
        }
      }
      forall k, l | |shop| <= k < l < |r|
        ensures r[k].itemType != r[l].itemType
      {
        if k < |s1| && |s1| <= l {
          assert !HasType(s1, r[l].itemType);
          assert s1[k] == r[k];
        }
      }
    }
  }

  lemma HasTypeExtends(shop: seq<ShopItem>, longer: seq<ShopItem>, t: string)
    requires |shop| <= |longer| && longer[..|shop|] == shop
    ensures HasType(shop, t) ==> HasType(longer, t)
  {
    if HasType(shop, t) {
      var k :| 0 <= k < |shop| && shop[k].itemType == t;
      assert longer[k] == shop[k];
    }
  }

  /** Adding the station items a second time changes nothing. */
  lemma AddMissingIdempotent(shop: seq<ShopItem>, extras: seq<ShopItem>)
    ensures AddMissing(AddMissing(shop, extras), extras) == AddMissing(shop, extras)
  {
    AddMissingShape(shop, extras);
    AllPresentUnchanged(AddMissing(shop, extras), extras);
  }

  lemma {:induction false} AllPresentUnchanged(shop: seq<ShopItem>, extras: seq<ShopItem>)
    requires forall e | e in extras :: HasType(shop, e.itemType)
    ensures AddMissing(shop, extras) == shop
    decreases |extras|
  {
    if extras != [] {
      assert extras[0] in extras;
      AllPresentUnchanged(shop, extras[1..]);
    }
  }

  /** `shop.some(existing => existing.type === t)` */
  method Offers(shop: seq<ShopItem>, t: string) returns (present: bool)
    ensures present == HasType(shop, t)
  {
    present := false;
    var k := 0;
    while k < |shop|
      invariant 0 <= k <= |shop|
      invariant present <==> exists j | 0 <= j < k :: shop[j].itemType == t
    {
      if shop[k].itemType == t {
        present := true;
      }
      k := k + 1;
    }
  }

  /** The `forEach` of `ensurePlanetBaseShopUpgrades`: each extra in turn is
      pushed unless its type is already on sale. */
  method PushMissing(shop: seq<ShopItem>, extras: seq<ShopItem>) returns (r: seq<ShopItem>)
    ensures r == AddMissing(shop, extras)
  {
    r := shop;
    var i := 0;
    while i < |extras|
      invariant 0 <= i <= |extras|
      invariant AddMissing(r, extras[i..]) == AddMissing(shop, extras)
    {
      assert extras[i..][1..] == extras[i + 1..];
      var present := Offers(r, extras[i].itemType);
      if !present {
        r := r + [extras[i]];
      }
      i := i + 1;
    }
    assert extras[i..] == [];
  }

  /** `ensurePlanetBaseShopUpgrades(planet)` on the planet's shop list. */
  method EnsureBaseShopUpgrades(shop: seq<ShopItem>) returns (r: seq<ShopItem>)
    ensures r == AddMissing(shop, BaseShopExtras())
  {
    r := PushMissing(shop, BaseShopExtras());
  }

  /** `openPlanetShop`: a planet with a base gets its station items. */
  method OpenPlanetShop(w: GameWorld, at: nat)
    requires at < |w.planets|
    modifies w`planets
    ensures !old(w.planets)[at].hasBase ==> w.planets == old(w.planets)
    ensures old(w.planets)[at].hasBase ==>
      w.planets == old(w.planets)[at := old(w.planets)[at].(shop := AddMissing(old(w.planets)[at].shop, BaseShopExtras()))]
  {
    var p := w.planets[at];
    if p.hasBase {
      var shop := EnsureBaseShopUpgrades(p.shop);
      w.planets := w.planets[at := p.(shop := shop)];
    }
  }

  // ---------------------------------------------------------------- buyItem: the items

  predicate HasPrefix(t: string, prefix: string) {
    |prefix| <= |t| && t[..|prefix|] == prefix
  }

  /** The `type` strings `buyItem` tells apart. `satellite` and `satellite_t1`
      are one item; an `eng_` or `civ_` string the shop does not list still
      meets the base check; any other string is `Unlisted`. */
  datatype Item =
    | Ammo | Fuel | Shield | Health | Stage
    | Satellite(tier: int) | CombatDrone | HarvesterDrone | FactionWar
    | BaseItem | BaseTier(tier: int) | Refuel | Craft | Trade | Terraform
    | Atmosphere | MoveMoon | Rings | Detonate | Dyson | OtherEng
    | Found | Government | Legal | Economy | War | Invasion | OtherCiv
    | Unlisted

  function ItemOf(t: string): (it: Item)
    ensures it.Satellite? ==> 1 <= it.tier <= 3
    ensures it.BaseTier? ==> 2 <= it.tier <= 4
    ensures it.OtherEng? ==> HasPrefix(t, "eng_")
    ensures it.OtherCiv? ==> HasPrefix(t, "civ_")
    ensures it.Unlisted? ==> !HasPrefix(t, "eng_") && !HasPrefix(t, "civ_")
    ensures it.Unlisted? ==> t !in {"ammo", "fuel", "shield", "health", "stage", "satellite", "satellite_t1",
                                    "satellite_t2", "satellite_t3", "drone_combat", "drone_harvester",
                                    "faction_war", "base", "base_t2", "base_t3", "base_t4", "base_refuel",
                                    "base_craft", "base_trade", "terraform"}
  {
    match t
    case "ammo" => Ammo
    case "fuel" => Fuel
    case "shield" => Shield
    case "health" => Health
    case "stage" => Stage
    case "satellite" => Satellite(1)
    case "satellite_t1" => Satellite(1)
    case "satellite_t2" => Satellite(2)
    case "satellite_t3" => Satellite(3)
    case "drone_combat" => CombatDrone
    case "drone_harvester" => HarvesterDrone
    case "faction_war" => FactionWar
    case "base" => BaseItem
    case "base_t2" => BaseTier(2)
    case "base_t3" => BaseTier(3)
    case "base_t4" => BaseTier(4)
    case "base_refuel" => Refuel
    case "base_craft" => Craft
    case "base_trade" => Trade
    case "terraform" => Terraform
    case "eng_atmosphere" => Atmosphere
    case "eng_move_moon" => MoveMoon
    case "eng_artificial_rings" => Rings
    case "eng_detonate_star" => Detonate
    case "eng_dyson_swarm" => Dyson
    case "civ_found" => Found
    case "civ_government" => Government
    case "civ_legal" => Legal
    case "civ_economy" => Economy
    case "civ_war" => War
    case "civ_invasion" => Invasion
    case _ =>
      if HasPrefix(t, "eng_") then OtherEng
      else if HasPrefix(t, "civ_") then OtherCiv
      else Unlisted
  }

  predicate IsSupply(it: Item) { it.Ammo? || it.Fuel? || it.Shield? || it.Health? || it.Stage? }

  predicate IsEngineering(it: Item) {
    it.Atmosphere? || it.MoveMoon? || it.Rings? || it.Detonate? || it.Dyson? || it.OtherEng?
  }

  predicate IsCivic(it: Item) {
    it.Found? || it.Government? || it.Legal? || it.Economy? || it.War? || it.Invasion? || it.OtherCiv?
  }

  /** The civilization purchases that need a founded, player-owned civilization. */
  predicate ManagesCiv(it: Item) {
    it.Government? || it.Legal? || it.Economy? || it.War? || it.Invasion?
  }

  // ---------------------------------------------------------------- buyItem: the ladder

  /** Why `buyItem` turns a purchase down before charging for it. */
  datatype Refusal =
    | NeedsSatelliteT1 | NeedsSatelliteT2 | FactionWarActive | NeedsStationTier(tier: int)
    | NeedsBase | AlreadyTerraformed | EngineeringMaxed | AlreadyFounded | CivNotFounded
    | NotPlayerOwned | CivMaxed | WarCoolingDown | NoRival

  /** The shop's planet, when it has a base. */
  predicate BaseAt(p: Option<Planet>) { p.Some? && p.value.hasBase }

  /** A base whose level is exactly `tier` (the source asks for a level in
      `[tier, tier + 1)`). */
  predicate StationAt(p: Option<Planet>, tier: int) { BaseAt(p) && p.value.baseLevel == tier }

  const WarCooldownMs := 28000.0

  /** The checks of `buyItem` (game.module.js:5005-5089), in order: the first
      that fails names the refusal. `p` is the planet whose shop is open,
      `rivalExists` whether some other owner holds a living civilization. */
  function RefusalFor(it: Item, sats: SatelliteTiers, warMode: bool, p: Option<Planet>,
                      rivalExists: bool, now: int): Option<Refusal>
  {
    if (it.Satellite? && it.tier == 2) && sats.t1 < 1 then Some(NeedsSatelliteT1)
    else if (it.Satellite? && it.tier == 3) && sats.t2 < 1 then Some(NeedsSatelliteT2)
    else if it.FactionWar? && warMode then Some(FactionWarActive)
    else if it.BaseTier? && !StationAt(p, it.tier - 1) then Some(NeedsStationTier(it.tier - 1))
    else if (it.Terraform? || IsEngineering(it) || IsCivic(it)) && !BaseAt(p) then Some(NeedsBase)
    else if p.Some? then PlanetRefusalFor(it, p.value, rivalExists, now)
    else None
  }

  /** The rest of the ladder, each check of which looks at the planet. */
  function PlanetRefusalFor(it: Item, q: Planet, rivalExists: bool, now: int): Option<Refusal> {
    var e := q.engineering;
    var c := q.civ;
    if (it.Terraform? || it.Atmosphere?) && q.terraformed then Some(AlreadyTerraformed)
    else if it.MoveMoon? && e.movedMoons >= 3 then Some(EngineeringMaxed)
    else if it.Rings? && e.artificialRings >= 2 then Some(EngineeringMaxed)
    else if it.Detonate? && e.starDetonated >= 1 then Some(EngineeringMaxed)
    else if it.Dyson? && e.dysonSwarms >= 3 then Some(EngineeringMaxed)
    else if it.Found? && c.founded then Some(AlreadyFounded)
    else if ManagesCiv(it) && !c.founded then Some(CivNotFounded)
    else if ManagesCiv(it) && c.owner != "player" then Some(NotPlayerOwned)
    else if it.Government? && c.governmentLevel >= 3 then Some(CivMaxed)
    else if it.Legal? && c.legalLevel >= 4 then Some(CivMaxed)
    else if it.Economy? && c.economyTier >= 4 then Some(CivMaxed)
    else if it.War? && c.lastWarAt != 0.0 && now as real - c.lastWarAt < WarCooldownMs then Some(WarCoolingDown)
    else if it.Invasion? && !rivalExists then Some(NoRival)
    else None
  }

  /** What a purchase that passes the ladder may rely on. */
  lemma LadderGates(it: Item, sats: SatelliteTiers, warMode: bool, p: Option<Planet>, rivalExists: bool, now: int)
    requires RefusalFor(it, sats, warMode, p, rivalExists, now).None?
    ensures (it.Satellite? && it.tier == 2) ==> sats.t1 >= 1
    ensures (it.Satellite? && it.tier == 3) ==> sats.t2 >= 1
    ensures it.FactionWar? ==> !warMode
    ensures it.BaseTier? ==> StationAt(p, it.tier - 1)
    ensures it.Terraform? || IsEngineering(it) || IsCivic(it) ==> BaseAt(p)
    ensures it.Terraform? || it.Atmosphere? ==> !p.value.terraformed
    ensures it.MoveMoon? ==> p.value.engineering.movedMoons < 3
    ensures it.Rings? ==> p.value.engineering.artificialRings < 2
    ensures it.Detonate? ==> p.value.engineering.starDetonated < 1
    ensures it.Dyson? ==> p.value.engineering.dysonSwarms < 3
    ensures it.Found? ==> !p.value.civ.founded
    ensures ManagesCiv(it) ==> p.value.civ.founded && p.value.civ.owner == "player"
    ensures it.Government? ==> p.value.civ.governmentLevel < 3
    ensures it.Legal? ==> p.value.civ.legalLevel < 4
    ensures it.Economy? ==> p.value.civ.economyTier < 4
    ensures it.War? ==> p.value.civ.lastWarAt == 0.0 || now as real - p.value.civ.lastWarAt >= WarCooldownMs
    ensures it.Invasion? ==> rivalExists
  {
  }

  // ---------------------------------------------------------------- buyItem: the effects

  /** The random draws and outside results a purchase may use: the trade
      payout roll, how many hostiles a stellar detonation destroys, the
      population roll, and the two rolls of an invasion. */
  datatype Draws = Draws(trade: real, destroyed: nat, population: real, assaultRoll: real, failRoll: real)

  /** The planet after a purchase that develops it (game.module.js:5133-5270). */
  function PlanetAfter(it: Item, q: Planet, d: Draws, now: int): Planet {
    var e := q.engineering;
    var c := q.civ;
    match it
    case BaseItem =>
      if q.hasBase then q else q.(hasBase := true, baseLevel := 1, shop := AddMissing(q.shop, BaseShopExtras()))
    case BaseTier(n) => q.(baseLevel := MaxInt(OrInt(q.baseLevel, 1), n))
    case Terraform | Atmosphere =>
      q.(terraformed := true, engineering := e.(atmosphere := 1), baseLevel := MaxInt(2, OrInt(q.baseLevel, 1) + 1))
    case MoveMoon => q.(engineering := e.(movedMoons := e.movedMoons + 1))
    case Rings => q.(engineering := e.(artificialRings := MinInt(2, e.artificialRings + 1)))
    case Detonate => q.(engineering := e.(starDetonated := 1))
    case Dyson => q.(engineering := e.(dysonSwarms := MinInt(3, e.dysonSwarms + 1)))
    case Found =>
      q.(civ := c.(founded := true, owner := "player", governmentLevel := 1, legalLevel := 1, economyTier := 1,
                   civScore := 900, territories := 1, defenseRating := 1.15, destroyed := false,
                   population := 12000 + (d.population * 18000.0).Floor, stability := 58.0))
    case Government =>
      q.(civ := c.(governmentLevel := MinInt(3, c.governmentLevel + 1),
                   stability := Min(100.0, Or(c.stability, 50.0) + 8.0), civScore := MaxInt(0, c.civScore + 220)))
    case Legal =>
      q.(civ := c.(legalLevel := MinInt(4, c.legalLevel + 1),
                   stability := Min(100.0, Or(c.stability, 50.0) + 6.0), civScore := MaxInt(0, c.civScore + 170)))
    case Economy =>
      q.(civ := c.(economyTier := MinInt(4, c.economyTier + 1),
                   population := c.population + 6000 + (d.population * 5000.0).Floor,
                   stability := Min(100.0, Or(c.stability, 50.0) + 5.0), civScore := MaxInt(0, c.civScore + 280)))
    case War =>
      q.(civ := c.(atWar := true, lastWarAt := now as real, warEndsAt := now as real + 52000.0, lastWarWaveAt := 0.0,
                   stability := Max(18.0, Or(c.stability, 50.0) - 12.0)))
    case _ => q
  }

  /** The invading planet after the assault: a success adds 380 civilization
      score, a failure costs 4 stability (never below 10). */
  function InvasionAftermath(q: Planet, success: bool): Planet {
    if success then q.(civ := q.civ.(civScore := MaxInt(0, q.civ.civScore + 380)))
    else q.(civ := q.civ.(stability := Max(10.0, Or(q.civ.stability, 50.0) - 4.0)))
  }

  /** The levels the shop never pushes past: moons 3, rings 2, one
      detonation, swarm tier 3, government 3, legal 4, economy 4. */
  predicate WithinCaps(q: Planet) {
    var e := q.engineering;
    var c := q.civ;
    0 <= e.movedMoons <= 3 && 0 <= e.artificialRings <= 2 && 0 <= e.starDetonated <= 1 &&
    0 <= e.dysonSwarms <= 3 && 0 <= c.governmentLevel <= 3 && 0 <= c.legalLevel <= 4 && 0 <= c.economyTier <= 4
  }

  predicate AllWithinCaps(ps: seq<Planet>) {
    forall i | 0 <= i < |ps| :: WithinCaps(ps[i])
  }

  /** A permitted purchase keeps every level within its cap. */
  lemma PlanetAfterWithinCaps(it: Item, sats: SatelliteTiers, warMode: bool, q: Planet, rivalExists: bool,
                              d: Draws, now: int)
    requires WithinCaps(q) && RefusalFor(it, sats, warMode, Some(q), rivalExists, now).None?
    ensures WithinCaps(PlanetAfter(it, q, d, now))
  {
    LadderGates(it, sats, warMode, Some(q), rivalExists, now);
  }

  /** Each permitted development step raises its level by exactly one:
      station tiers go 1 to 2 to 3 to 4, and no engineering or civilization
      level jumps or stalls. */
  lemma PlanetAfterSteps(it: Item, sats: SatelliteTiers, warMode: bool, q: Planet, rivalExists: bool,
                         d: Draws, now: int)
    requires RefusalFor(it, sats, warMode, Some(q), rivalExists, now).None?
    ensures var r := PlanetAfter(it, q, d, now);
      (it.BaseTier? ==> q.baseLevel == it.tier - 1 && r.baseLevel == it.tier) &&
      (it.MoveMoon? ==> r.engineering.movedMoons == q.engineering.movedMoons + 1) &&
      (it.Rings? ==> r.engineering.artificialRings == q.engineering.artificialRings + 1) &&
      (it.Detonate? ==> r.engineering.starDetonated == 1 && q.engineering.starDetonated < 1) &&
      (it.Dyson? ==> r.engineering.dysonSwarms == q.engineering.dysonSwarms + 1) &&
      (it.Government? ==> r.civ.governmentLevel == q.civ.governmentLevel + 1) &&
      (it.Legal? ==> r.civ.legalLevel == q.civ.legalLevel + 1) &&
      (it.Economy? ==> r.civ.economyTier == q.civ.economyTier + 1)
  {
    LadderGates(it, sats, warMode, Some(q), rivalExists, now);
  }

  /** An assault changes owners, bases and stability, never levels. */
  lemma AssaultKeepsCaps(attackerId: string, q: Planet, attack: real, allowDestroy: bool, failRoll: real)
    requires WithinCaps(q)
    ensures WithinCaps(AssaultOutcome(attackerId, q, attack, allowDestroy, failRoll))
  {
  }

  /** Score a bought item pays back on top of its price: the refund for a
      base that already exists, a trade payout, the detonation bounty, the
      founding bonus. */
  function Income(it: Item, p: Option<Planet>, cost: int, d: Draws): int {
    match it
    case BaseItem => if BaseAt(p) then cost else 0
    case Trade => if BaseAt(p) then 250 + OrInt(p.value.baseLevel, 1) * 180 + (d.trade * 120.0).Floor else 0
    case Detonate => 1000 + d.destroyed * 120
    case Found => 250
    case _ => 0
  }

  /** Upgrade points a bought item grants. */
  function PointsFor(it: Item, p: Option<Planet>): int {
    match it
    case BaseItem => if p.Some? && !p.value.hasBase then 200 else 0
    case BaseTier(n) => 100 + n * 45
    case Terraform | Atmosphere => 150
    case Found => 70
    case Government => 45
    case _ => 0
  }

  /** The station services refuse after the ladder, refunding the price:
      without a base, or, for crafting, with fewer than 10 salvage. */
  predicate Declines(it: Item, p: Option<Planet>, salvage: int) {
    ((it.Refuel? || it.Craft? || it.Trade?) && !BaseAt(p)) || (it.Craft? && salvage < 10)
  }

  function SatellitesAfter(it: Item, s: SatelliteTiers): SatelliteTiers {
    if (it.Satellite? && it.tier == 1) then s.(t1 := s.t1 + 1)
    else if (it.Satellite? && it.tier == 2) then s.(t2 := s.t2 + 1)
    else if (it.Satellite? && it.tier == 3) then s.(t3 := s.t3 + 1)
    else s
  }

  function DronesAfter(it: Item, dc: DroneCounts): DroneCounts {
    if it.CombatDrone? then dc.(combat := dc.combat + 1)
    else if it.HarvesterDrone? then dc.(harvester := dc.harvester + 1)
    else dc
  }

  /** The shop's planet, if any. */
  function Active(ps: seq<Planet>, at: Option<nat>): Option<Planet>
    requires at.Some? ==> at.value < |ps|
  {
    if at.Some? then Some(ps[at.value]) else None
  }

  predicate HasRival(ps: seq<Planet>) {
    FindRivalCivilizedPlanet(ps, "player", None).Some?
  }

  // ---------------------------------------------------------------- purchases: ship and fleet

  /** The ship values a purchase or a craft can touch. */
  datatype Gauges = Gauges(ammo: real, maxAmmo: real, fuel: real, maxFuel: real, shield: real, maxShield: real,
                           health: real, maxHealth: real, stages: int, boosts: seq<FuelBoost>,
                           maxSpeed: real, acceleration: real)

  function GaugesOf(s: Ship): Gauges
    reads s`ammo, s`maxAmmo, s`fuel, s`maxFuel, s`shieldHealth, s`maxShield, s`health, s`maxHealth
    reads s`extraStages, s`stageFuelBoosts, s`maxSpeed, s`acceleration
  {
    Gauges(s.ammo, s.maxAmmo, s.fuel, s.maxFuel, s.shieldHealth, s.maxShield, s.health, s.maxHealth,
           s.extraStages, s.stageFuelBoosts, s.maxSpeed, s.acceleration)
  }

  /** `addRocketStage`: one more stage, 45 more tank (floored), a 35 fuel
      boost for 180 s, and 3.5% more speed and 2% more thrust. */
  function Staged(g: Gauges, now: int): Gauges {
    var tank := (g.maxFuel + 45.0).Floor as real;
    g.(stages := g.stages + 1, maxFuel := tank, fuel := Min(tank, g.fuel + StageFuelBoostAmount),
       boosts := g.boosts + [FuelBoost(StageFuelBoostAmount, now + StageFuelBoostMs)],
       maxSpeed := g.maxSpeed * 1.035, acceleration := g.acceleration * 1.02)
  }

  /** The ship after a paid purchase of `it` (`amount` for the supplies):
      the items delivered aboard as `AboardGauges` says, the planet's
      perks as `PerkGauges` says. */
  function GaugesAfter(it: Item, g: Gauges, amount: real, now: int): Gauges {
    if IsAboard(it) then AboardGauges(it, g, amount, now) else PerkGauges(it, g)
  }

  /** The ship after a purchase delivered aboard: ammunition is not capped,
      the other supplies are; refuelling fills the tank and adds 25 shield;
      crafting adds 120 ammunition; satellites, drones and the faction war
      leave the ship alone. */
  function AboardGauges(it: Item, g: Gauges, amount: real, now: int): Gauges {
    match it
    case Ammo => g.(ammo := g.ammo + amount)
    case Fuel => g.(fuel := Min(g.maxFuel, g.fuel + amount))
    case Shield => g.(shield := Min(g.maxShield, g.shield + amount))
    case Health => g.(health := Min(g.maxHealth, g.health + amount))
    case Stage => Staged(g, now)
    case Refuel => g.(fuel := g.maxFuel, shield := Min(g.maxShield, g.shield + 25.0))
    case Craft => g.(ammo := g.ammo + 120.0)
    case _ => g
  }

  /** The ship after a purchase on a planet: moving a moon adds 10 shield
      capacity and 18 shield, the legal system 6 and 10, rings 10 tank;
      every other planet purchase leaves the ship alone. */
  function PerkGauges(it: Item, g: Gauges): Gauges {
    match it
    case MoveMoon => g.(maxShield := g.maxShield + 10.0, shield := Min(g.maxShield + 10.0, g.shield + 18.0))
    case Legal => g.(maxShield := g.maxShield + 6.0, shield := Min(g.maxShield + 6.0, g.shield + 10.0))
    case Rings => g.(maxFuel := g.maxFuel + 10.0)
    case _ => g
  }

  /** The ship after crafting the recipe `id`: each recipe touches only its
      own gauge, capped at its maximum, and a rocket stage is `Staged`. */
  function Crafted(id: string, g: Gauges, now: int): Gauges {
    match id
    case "ammo_crate" => g.(ammo := Min(g.maxAmmo, g.ammo + 250.0))
    case "shield_battery" => g.(shield := Min(g.maxShield, g.shield + 80.0))
    case "fuel_cells" => g.(fuel := Min(g.maxFuel, g.fuel + 80.0))
    case "field_repair" => g.(health := Min(g.maxHealth, g.health + 60.0))
    case "rocket_stage" => Staged(g, now)
    case _ => g
  }

  /** Fuel, shield and hull within their maxima. */
  predicate GaugesBounded(g: Gauges) {
    0.0 <= g.fuel <= g.maxFuel && 0.0 <= g.shield <= g.maxShield && g.health <= g.maxHealth
  }

  /** No purchase overfills the tank, the shield or the hull. */
  lemma PurchaseKeepsGauges(it: Item, g: Gauges, amount: real, now: int)
    requires GaugesBounded(g) && amount >= 0.0
    ensures GaugesBounded(GaugesAfter(it, g, amount, now))
  {
    if it.Stage? {
      StagedKeepsGauges(g, now);
    }
  }

  /** No recipe overfills the tank, the shield or the hull. */
  lemma CraftKeepsGauges(id: string, g: Gauges, now: int)
    requires GaugesBounded(g)
    ensures GaugesBounded(Crafted(id, g, now))
  {
    if id == "rocket_stage" {
      StagedKeepsGauges(g, now);
    }
  }

  lemma StagedKeepsGauges(g: Gauges, now: int)
    requires GaugesBounded(g)
    ensures GaugesBounded(Staged(g, now)) && Staged(g, now).maxFuel >= g.maxFuel
  {
    FloorMonotone(g.maxFuel, g.maxFuel + 45.0);
  }

  /** The fleet counters `buyItem` changes. */
  datatype Fleet = Fleet(satellites: int, tiers: SatelliteTiers, drones: DroneCounts, warMode: bool,
                         lastFactionBotSpawn: int)

  function FleetOf(w: GameWorld): Fleet
    reads w`satellites, w`satelliteTiers, w`droneCounts, w`factionWarMode, w`lastFactionBotSpawn
  {
    Fleet(w.satellites, w.satelliteTiers, w.droneCounts, w.factionWarMode, w.lastFactionBotSpawn)
  }

  /** The fleet after a paid purchase of `it`: a satellite counts once
      overall and once in its tier, a drone in its kind, and the faction war
      protocol switches war mode on with its first bot due at once. */
  function FleetAfter(it: Item, f: Fleet, now: int): Fleet {
    Fleet(f.satellites + (if it.Satellite? then 1 else 0), SatellitesAfter(it, f.tiers), DronesAfter(it, f.drones),
          f.warMode || it.FactionWar?, if it.FactionWar? then now - 9000 else f.lastFactionBotSpawn)
  }

  /** The satellite count stays the sum of the tier counts. */
  lemma SatelliteCountKept(t: string, f: Fleet, now: int)
    requires f.satellites == f.tiers.t1 + f.tiers.t2 + f.tiers.t3
    ensures var r := FleetAfter(ItemOf(t), f, now); r.satellites == r.tiers.t1 + r.tiers.t2 + r.tiers.t3
  {
    var it := ItemOf(t);
    assert it.Satellite? ==> 1 <= it.tier <= 3;
  }

  /** The supplies `buyItem` puts straight into the ship. */
  method SupplyShip(ship: Ship, it: Item, amount: real, now: int)
    requires IsSupply(it)
    modifies ship`ammo, ship`fuel, ship`shieldHealth, ship`health
    modifies ship`extraStages, ship`maxFuel, ship`stageFuelBoosts, ship`maxSpeed, ship`acceleration
    ensures GaugesOf(ship) == AboardGauges(it, old(GaugesOf(ship)), amount, now)
    ensures old(ship.Valid()) && amount >= 0.0 ==> ship.Valid()
  {
    if it.Ammo? {
      ship.ammo := ship.ammo + amount;
    } else if it.Fuel? {
      ship.RefillFuel(amount);
    } else if it.Shield? {
      ship.AddShield(amount);
    } else if it.Health? {
      ship.health := Min(ship.maxHealth, ship.health + amount);
    } else {
      var _ := ship.AddRocketStage(now);
    }
  }

  /** The planets after an invasion launched from the planet at `i`: the
      nearest rival (by `dists`) suffers the assault, then the invading
      planet gains score on success or loses stability on failure. */
  function Invaded(ps: seq<Planet>, i: nat, dists: seq<real>, d: Draws): seq<Planet>
    requires i < |ps| && |dists| == |ps|
  {
    var j := FindRivalCivilizedPlanet(ps, "player", Some(dists));
    if j.None? then ps
    else
      var attack := AttackPower(EmpirePower(ps, "player"), d.assaultRoll, 1.2);
      var kind := AssaultKindOf(ps[j.value], attack, true);
      var hit := ps[j.value := AssaultOutcome("player", ps[j.value], attack, true, d.failRoll)];
      hit[i := InvasionAftermath(hit[i], kind == Conquest || kind == Claim)]
  }

  /** A journal that at most one `logEvent` has touched. */
  ghost predicate LoggedAtMostOnce(before: seq<string>, after: seq<string>) {
    after == before || exists e :: after == Pushed(before, e)
  }

  /** The `civ_invasion` branch: `resolveCivAssault('player', target, 1.2, true)`
      on the nearest rival, then the aftermath on the invading planet. */
  method Invade(w: GameWorld, i: nat, dists: seq<real>, d: Draws, stamp: string, now: int)
    requires i < |w.planets| && |dists| == |w.planets|
    requires w.planets[i].civ.owner == "player"
    modifies w`planets, w`journal, w`lastJournalPush
    ensures w.planets == Invaded(old(w.planets), i, dists, d)
    ensures LoggedAtMostOnce(old(w.journal), w.journal)
    ensures AllWithinCaps(old(w.planets)) ==> AllWithinCaps(w.planets)
  {
    var j := FindRivalCivilizedPlanet(w.planets, "player", Some(dists));
    if j.None? {
      return;
    }
    ghost var ps := w.planets;
    var target := w.planets[j.value];
    var success := w.ResolveCivAssault("player", j, d.assaultRoll, 1.2, true, d.failRoll, stamp, now);
    var q := InvasionAftermath(w.planets[i], success);
    w.planets := w.planets[i := q];
    if success {
      w.LogEvent("Invasion success: " + target.id + " is now under player influence", stamp, now);
    } else {
      w.LogEvent("Invasion failed near " + target.id, stamp, now);
    }
    if AllWithinCaps(ps) {
      InvadedKeepsCaps(ps, i, dists, d);
    }
  }

  /** An invasion keeps every planet's levels within their caps. */
  lemma InvadedKeepsCaps(ps: seq<Planet>, i: nat, dists: seq<real>, d: Draws)
    requires i < |ps| && |dists| == |ps| && AllWithinCaps(ps)
    ensures AllWithinCaps(Invaded(ps, i, dists, d))
  {
    var j := FindRivalCivilizedPlanet(ps, "player", Some(dists));
    if j.Some? {
      var attack := AttackPower(EmpirePower(ps, "player"), d.assaultRoll, 1.2);
      AssaultKeepsCaps("player", ps[j.value], attack, true, d.failRoll);
      var hit := ps[j.value := AssaultOutcome("player", ps[j.value], attack, true, d.failRoll)];
      assert AllWithinCaps(hit);
      var kind := AssaultKindOf(ps[j.value], attack, true);
      assert WithinCaps(InvasionAftermath(hit[i], kind == Conquest || kind == Claim));
    }
  }

  /** The journal lines of the civilization purchases. */
  method LogDevelopment(w: GameWorld, it: Item, id: string, stamp: string, now: int)
    modifies w`journal, w`lastJournalPush
    ensures LoggedAtMostOnce(old(w.journal), w.journal)
    ensures !IsCivic(it) ==> w.journal == old(w.journal)
  {
    if it.Found? {
      w.LogEvent("Civilization founded on " + id, stamp, now);
    } else if it.Government? {
      w.LogEvent("Government advanced on " + id, stamp, now);
    } else if it.Legal? {
      w.LogEvent("Legal system expanded on " + id, stamp, now);
    } else if it.Economy? {
      w.LogEvent("Economy upgraded on " + id, stamp, now);
    } else if it.War? {
      w.LogEvent("War campaign launched from " + id, stamp, now);
    }
  }

  /** What moving a moon, adding rings or expanding the legal system does
      for the ship: larger shield or fuel capacity, and a shield top-up. */
  method ShipPerk(ship: Ship, it: Item)
    modifies ship`maxShield, ship`shieldHealth, ship`maxFuel
    ensures it.MoveMoon? ==>
      ship.maxShield == old(ship.maxShield) + 10.0 && ship.shieldHealth == Min(ship.maxShield, old(ship.shieldHealth) + 18.0)
    ensures it.Legal? ==>
      ship.maxShield == old(ship.maxShield) + 6.0 && ship.shieldHealth == Min(ship.maxShield, old(ship.shieldHealth) + 10.0)
    ensures it.Rings? ==> ship.maxFuel == old(ship.maxFuel) + 10.0
    ensures !it.MoveMoon? && !it.Legal? ==> unchanged(ship`maxShield, ship`shieldHealth)
    ensures !it.Rings? ==> ship.maxFuel == old(ship.maxFuel)
    ensures GaugesOf(ship) == PerkGauges(it, old(GaugesOf(ship)))
    ensures old(ship.Valid()) ==> ship.Valid()
  {
    if it.MoveMoon? {
      ship.maxShield := ship.maxShield + 10.0;
      ship.AddShield(18.0);
    } else if it.Rings? {
      ship.maxFuel := ship.maxFuel + 10.0;
    } else if it.Legal? {
      ship.maxShield := ship.maxShield + 6.0;
      ship.AddShield(10.0);
    }
  }

  /** Building the first base on a planet: it becomes a tier-1 station whose
      shop offers every station item, and 200 upgrade points are granted. */
  method BuildBase(w: GameWorld, i: nat, d: Draws, now: int)
    requires i < |w.planets| && !w.planets[i].hasBase
    modifies w`upgradePoints, w`planets
    ensures w.planets == old(w.planets)[i := PlanetAfter(BaseItem, old(w.planets)[i], d, now)]
    ensures w.upgradePoints == old(w.upgradePoints) + PointsFor(BaseItem, Some(old(w.planets)[i]))
  {
    var q := w.planets[i];
    var shop := EnsureBaseShopUpgrades(q.shop);
    w.planets := w.planets[i := q.(hasBase := true, baseLevel := 1, shop := shop)];
    w.upgradePoints := w.upgradePoints + 200;
  }

  /** A new base's shop keeps the planet's own items in front and offers
      every station item. */
  lemma BaseStocksStation(q: Planet, d: Draws, now: int)
    requires !q.hasBase
    ensures var r := PlanetAfter(BaseItem, q, d, now);
      r.hasBase && r.baseLevel == 1 && |q.shop| <= |r.shop| && r.shop[..|q.shop|] == q.shop &&
      forall k | 0 <= k < 17 :: HasType(r.shop, StationExtra(k).itemType)
  {
    assert PlanetAfter(BaseItem, q, d, now).shop == AddMissing(q.shop, BaseShopExtras());
    StocksStation(q.shop);
  }

  /** `ensurePlanetBaseShopUpgrades` on any shop: its items stay in front and
      every station item is on sale. */
  lemma StocksStation(shop: seq<ShopItem>)
    ensures var r := AddMissing(shop, BaseShopExtras());
      |shop| <= |r| && r[..|shop|] == shop &&
      forall k | 0 <= k < 17 :: HasType(r, StationExtra(k).itemType)
  {
    var extras := BaseShopExtras();
    var s := AddMissing(shop, extras);
    AddMissingShape(shop, extras);
    forall k | 0 <= k < 17
      ensures HasType(s, StationExtra(k).itemType)
    {
      assert extras[k] == StationExtra(k);
      assert extras[k] in extras;
    }
  }

  /** The planet, score, upgrade points and stock after a purchase that
      develops the planet at `i`; a first base goes through `BuildBase`. */
  method DevelopPlanet(w: GameWorld, it: Item, i: nat, cost: int, d: Draws, now: int)
    requires i < |w.planets|
    modifies w`score, w`upgradePoints, w`minerals, w`salvage, w`planets
    ensures w.planets == old(w.planets)[i := PlanetAfter(it, old(w.planets)[i], d, now)]
    ensures w.score == old(w.score) + Income(it, Some(old(w.planets)[i]), cost, d)
    ensures w.upgradePoints == old(w.upgradePoints) + PointsFor(it, Some(old(w.planets)[i]))
    ensures it.Economy? ==>
      w.minerals == old(w.minerals) + 20 * w.planets[i].civ.economyTier &&
      w.salvage == old(w.salvage) + 8 * w.planets[i].civ.economyTier
    ensures !it.Economy? ==> w.minerals == old(w.minerals) && w.salvage == old(w.salvage)
  {
    var q := w.planets[i];
    if it.BaseItem? && !q.hasBase {
      assert Income(it, Some(q), cost, d) == 0;
      BuildBase(w, i, d, now);
      return;
    }
    var r := PlanetAfter(it, q, d, now);
    w.planets := w.planets[i := r];
    w.score := w.score + Income(it, Some(q), cost, d);
    w.upgradePoints := w.upgradePoints + PointsFor(it, Some(q));
    if it.Economy? {
      w.minerals := w.minerals + 20 * r.civ.economyTier;
      w.salvage := w.salvage + 8 * r.civ.economyTier;
    }
  }

  /** The world's side of a purchase that acts on the shop's planet at `i`:
      the planet becomes `PlanetAfter`, the score and upgrade points move by
      `Income` and `PointsFor`, economy adds stock, and civic purchases may
      log one entry. */
  method DevelopWorld(w: GameWorld, it: Item, i: nat, cost: int, d: Draws, stamp: string, now: int)
    requires i < |w.planets|
    modifies w`score, w`upgradePoints, w`minerals, w`salvage, w`planets, w`journal, w`lastJournalPush
    ensures w.planets == old(w.planets)[i := PlanetAfter(it, old(w.planets)[i], d, now)]
    ensures w.score == old(w.score) + Income(it, Some(old(w.planets)[i]), cost, d)
    ensures w.upgradePoints == old(w.upgradePoints) + PointsFor(it, Some(old(w.planets)[i]))
    ensures it.Economy? ==>
      w.minerals == old(w.minerals) + 20 * w.planets[i].civ.economyTier &&
      w.salvage == old(w.salvage) + 8 * w.planets[i].civ.economyTier
    ensures !it.Economy? ==> w.minerals == old(w.minerals) && w.salvage == old(w.salvage)
    ensures LoggedAtMostOnce(old(w.journal), w.journal)
  {
    var id := w.planets[i].id;
    DevelopPlanet(w, it, i, cost, d, now);
    LogDevelopment(w, it, id, stamp, now);
  }

  /** The purchases that act on the shop's planet at `i`: the world changes
      as `DevelopWorld` says, and moving a moon, rings and the legal system
      also reach the ship. */
  method Develop(w: GameWorld, ship: Ship, it: Item, i: nat, cost: int, d: Draws, stamp: string, now: int)
    requires i < |w.planets|
    modifies w`score, w`upgradePoints, w`minerals, w`salvage, w`planets, w`journal, w`lastJournalPush
    modifies ship`maxShield, ship`shieldHealth, ship`maxFuel
    ensures w.planets == old(w.planets)[i := PlanetAfter(it, old(w.planets)[i], d, now)]
    ensures w.score == old(w.score) + Income(it, Some(old(w.planets)[i]), cost, d)
    ensures w.upgradePoints == old(w.upgradePoints) + PointsFor(it, Some(old(w.planets)[i]))
    ensures it.Economy? ==>
      w.minerals == old(w.minerals) + 20 * w.planets[i].civ.economyTier &&
      w.salvage == old(w.salvage) + 8 * w.planets[i].civ.economyTier
    ensures !it.Economy? ==> w.minerals == old(w.minerals) && w.salvage == old(w.salvage)
    ensures GaugesOf(ship) == PerkGauges(it, old(GaugesOf(ship)))
    ensures LoggedAtMostOnce(old(w.journal), w.journal)
    ensures old(ship.Valid()) ==> ship.Valid()
  {
    ShipPerk(ship, it);
    DevelopWorld(w, it, i, cost, d, stamp, now);
  }

  datatype Purchase = Refused(reason: Refusal) | CannotAfford | Declined | Bought

  /** How `buyItem` answers before anything changes: the ladder's refusal,
      too little score for the price, a station service that declines, or a
      purchase. */
  function Verdict(it: Item, sats: SatelliteTiers, warMode: bool, p: Option<Planet>, rivalExists: bool,
                   now: int, score: int, cost: int, salvage: int): Purchase
  {
    var reason := RefusalFor(it, sats, warMode, p, rivalExists, now);
    if reason.Some? then Refused(reason.value)
    else if score < cost then CannotAfford
    else if Declines(it, p, salvage) then Declined
    else Bought
  }

  /** The items whose effect stays aboard the ship or in the fleet counters. */
  predicate IsAboard(it: Item) {
    IsSupply(it) || it.Satellite? || it.CombatDrone? || it.HarvesterDrone? || it.FactionWar? ||
    it.Refuel? || it.Craft?
  }

  /** The branches of `buyItem` for supplies, satellites, drones, the faction
      war protocol, refuelling and crafting. */
  method DeliverAboard(w: GameWorld, ship: Ship, it: Item, amount: real, now: int)
    requires IsAboard(it)
    requires it.Craft? ==> w.salvage >= 10
    modifies w`minerals, w`salvage, w`satellites, w`satelliteTiers, w`droneCounts, w`factionWarMode, w`lastFactionBotSpawn
    modifies ship`ammo, ship`fuel, ship`shieldHealth, ship`health
    modifies ship`extraStages, ship`maxFuel, ship`stageFuelBoosts, ship`maxSpeed, ship`acceleration
    ensures FleetOf(w) == FleetAfter(it, old(FleetOf(w)), now)
    ensures it.Craft? ==> w.minerals == old(w.minerals) + 25 && w.salvage == old(w.salvage) - 10 && w.salvage >= 0
    ensures !it.Craft? ==> w.minerals == old(w.minerals) && w.salvage == old(w.salvage)
    ensures GaugesOf(ship) == AboardGauges(it, old(GaugesOf(ship)), amount, now)
    ensures old(ship.Valid()) && amount >= 0.0 ==> ship.Valid()
  {
    if IsSupply(it) {
      SupplyShip(ship, it, amount, now);
    } else if it.Satellite? {
      w.satelliteTiers := SatellitesAfter(it, w.satelliteTiers);
      w.satellites := w.satellites + 1;
    } else if it.CombatDrone? || it.HarvesterDrone? {
      w.droneCounts := DronesAfter(it, w.droneCounts);
    } else if it.FactionWar? {
      w.factionWarMode := true;
      w.lastFactionBotSpawn := now - 9000;
    } else if it.Refuel? {
      ship.fuel := ship.maxFuel;
      ship.AddShield(25.0);
    } else {
      w.salvage := w.salvage - 10;
      w.minerals := w.minerals + 25;
      ship.ammo := ship.ammo + 120.0;
    }
  }

  /** The branches of `buyItem` that act on the shop's planet at `i`: an
      invasion from it, or its development. */
  method DeliverPlanet(w: GameWorld, ship: Ship, it: Item, cost: int, i: nat,
                       dists: seq<real>, d: Draws, stamp: string, now: int)
    requires i < |w.planets| && |dists| == |w.planets|
    requires it.Invasion? ==> w.planets[i].civ.owner == "player"
    modifies w`score, w`upgradePoints, w`minerals, w`salvage, w`planets, w`journal, w`lastJournalPush
    modifies ship`maxShield, ship`shieldHealth, ship`maxFuel
    ensures w.score == old(w.score) + Income(it, Some(old(w.planets)[i]), cost, d)
    ensures w.upgradePoints == old(w.upgradePoints) + PointsFor(it, Some(old(w.planets)[i]))
    ensures !it.Invasion? ==> w.planets == old(w.planets)[i := PlanetAfter(it, old(w.planets)[i], d, now)]
    ensures it.Invasion? ==> w.planets == Invaded(old(w.planets), i, dists, d)
    ensures it.Economy? ==>
      w.minerals == old(w.minerals) + 20 * w.planets[i].civ.economyTier &&
      w.salvage == old(w.salvage) + 8 * w.planets[i].civ.economyTier
    ensures !it.Economy? ==> w.minerals == old(w.minerals) && w.salvage == old(w.salvage)
    ensures GaugesOf(ship) == PerkGauges(it, old(GaugesOf(ship)))
    ensures LoggedAtMostOnce(old(w.journal), w.journal)
    ensures it.Invasion? && AllWithinCaps(old(w.planets)) ==> AllWithinCaps(w.planets)
    ensures old(ship.Valid()) ==> ship.Valid()
  {
    if it.Invasion? {
      Invade(w, i, dists, d, stamp, now);
    } else {
      Develop(w, ship, it, i, cost, d, stamp, now);
    }
  }

  /** A purchase delivered aboard leaves the shop's planet as it is. */
  lemma AboardKeepsPlanet(it: Item, q: Planet, d: Draws, now: int)
    requires IsAboard(it)
    ensures PlanetAfter(it, q, d, now) == q
  {
  }

  /** A purchase on a planet leaves the fleet as it is. */
  lemma FleetUntouched(it: Item, f: Fleet, now: int)
    requires !IsAboard(it)
    ensures FleetAfter(it, f, now) == f
  {
  }

  /** The items that only act with a planet's shop open: the ladder or the
      station services turn them down elsewhere. */
  predicate NeedsPlanet(it: Item) {
    it.BaseTier? || it.Terraform? || IsEngineering(it) || IsCivic(it) || it.Refuel? || it.Craft? || it.Trade?
  }

  /** The branches of `buyItem` after the charge: the effect of a paid
      purchase on the score, the upgrade points, the planets and the
      journal. The effects on the ship, the stock and the fleet counters are
      those `DeliverAboard` and `DeliverPlanet` state. */
  method Fulfil(w: GameWorld, ship: Ship, it: Item, amount: real, cost: int, at: Option<nat>,
                dists: seq<real>, d: Draws, stamp: string, now: int)
    requires at.Some? ==> at.value < |w.planets|
    requires |dists| == |w.planets|
    requires NeedsPlanet(it) ==> at.Some?
    requires it.Invasion? ==> w.planets[at.value].civ.owner == "player"
    requires it.Craft? ==> w.salvage >= 10
    modifies w`score, w`upgradePoints, w`minerals, w`salvage, w`planets, w`journal, w`lastJournalPush
    modifies w`satellites, w`satelliteTiers, w`droneCounts, w`factionWarMode, w`lastFactionBotSpawn
    modifies ship`ammo, ship`fuel, ship`shieldHealth, ship`health, ship`maxShield
    modifies ship`extraStages, ship`maxFuel, ship`stageFuelBoosts, ship`maxSpeed, ship`acceleration
    ensures w.score == old(w.score) + Income(it, Active(old(w.planets), at), cost, d)
    ensures w.upgradePoints == old(w.upgradePoints) + PointsFor(it, Active(old(w.planets), at))
    ensures at.None? ==> w.planets == old(w.planets)
    ensures at.Some? && !it.Invasion? ==>
      w.planets == old(w.planets)[at.value := PlanetAfter(it, old(w.planets)[at.value], d, now)]
    ensures it.Invasion? ==> w.planets == Invaded(old(w.planets), at.value, dists, d)
    ensures it.Invasion? && AllWithinCaps(old(w.planets)) ==> AllWithinCaps(w.planets)
    ensures FleetOf(w) == FleetAfter(it, old(FleetOf(w)), now)
    ensures GaugesOf(ship) == GaugesAfter(it, old(GaugesOf(ship)), amount, now)
    ensures it.Craft? ==> w.minerals == old(w.minerals) + 25 && w.salvage == old(w.salvage) - 10
    ensures it.Economy? ==>
      at.Some? && at.value < |w.planets| &&
      w.minerals == old(w.minerals) + 20 * w.planets[at.value].civ.economyTier &&
      w.salvage == old(w.salvage) + 8 * w.planets[at.value].civ.economyTier
    ensures !it.Craft? && !it.Economy? ==> w.minerals == old(w.minerals) && w.salvage == old(w.salvage)
    ensures LoggedAtMostOnce(old(w.journal), w.journal)
    ensures old(ship.Valid()) && amount >= 0.0 ==> ship.Valid()
  {
    if IsAboard(it) {
      FulfilAboard(w, ship, it, amount, cost, at, dists, d, stamp, now);
    } else {
      FulfilPlanet(w, ship, it, amount, cost, at, dists, d, stamp, now);
    }
  }

  /** `Fulfil` for the items delivered aboard. */
  method FulfilAboard(w: GameWorld, ship: Ship, it: Item, amount: real, cost: int, at: Option<nat>,
                      dists: seq<real>, d: Draws, stamp: string, now: int)
    requires IsAboard(it)
    requires at.Some? ==> at.value < |w.planets|
    requires |dists| == |w.planets|
    requires NeedsPlanet(it) ==> at.Some?
    requires it.Craft? ==> w.salvage >= 10
    modifies w`score, w`upgradePoints, w`minerals, w`salvage, w`planets, w`journal, w`lastJournalPush
    modifies w`satellites, w`satelliteTiers, w`droneCounts, w`factionWarMode, w`lastFactionBotSpawn
    modifies ship`ammo, ship`fuel, ship`shieldHealth, ship`health, ship`maxShield
    modifies ship`extraStages, ship`maxFuel, ship`stageFuelBoosts, ship`maxSpeed, ship`acceleration
    ensures w.score == old(w.score) + Income(it, Active(old(w.planets), at), cost, d)
    ensures w.upgradePoints == old(w.upgradePoints) + PointsFor(it, Active(old(w.planets), at))
    ensures at.None? ==> w.planets == old(w.planets)
    ensures at.Some? ==>
      w.planets == old(w.planets)[at.value := PlanetAfter(it, old(w.planets)[at.value], d, now)]
    ensures FleetOf(w) == FleetAfter(it, old(FleetOf(w)), now)
    ensures GaugesOf(ship) == GaugesAfter(it, old(GaugesOf(ship)), amount, now)
    ensures it.Craft? ==> w.minerals == old(w.minerals) + 25 && w.salvage == old(w.salvage) - 10
    ensures !it.Craft? ==> w.minerals == old(w.minerals) && w.salvage == old(w.salvage)
    ensures LoggedAtMostOnce(old(w.journal), w.journal)
    ensures old(ship.Valid()) && amount >= 0.0 ==> ship.Valid()
  {
    DeliverAboard(w, ship, it, amount, now);
    if at.Some? {
      AboardKeepsPlanet(it, w.planets[at.value], d, now);
      assert w.planets == w.planets[at.value := w.planets[at.value]];
    }
  }

  /** `Fulfil` for the purchases that act on the shop's planet. */
  method FulfilPlanet(w: GameWorld, ship: Ship, it: Item, amount: real, cost: int, at: Option<nat>,
                      dists: seq<real>, d: Draws, stamp: string, now: int)
    requires !IsAboard(it)
    requires at.Some? ==> at.value < |w.planets|
    requires |dists| == |w.planets|
    requires NeedsPlanet(it) ==> at.Some?
    requires it.Invasion? ==> w.planets[at.value].civ.owner == "player"
    modifies w`score, w`upgradePoints, w`minerals, w`salvage, w`planets, w`journal, w`lastJournalPush
    modifies w`satellites, w`satelliteTiers, w`droneCounts, w`factionWarMode, w`lastFactionBotSpawn
    modifies ship`ammo, ship`fuel, ship`shieldHealth, ship`health, ship`maxShield
    modifies ship`extraStages, ship`maxFuel, ship`stageFuelBoosts, ship`maxSpeed, ship`acceleration
    ensures w.score == old(w.score) + Income(it, Active(old(w.planets), at), cost, d)
    ensures w.upgradePoints == old(w.upgradePoints) + PointsFor(it, Active(old(w.planets), at))
    ensures at.None? ==> w.planets == old(w.planets)
    ensures at.Some? && !it.Invasion? ==>
      w.planets == old(w.planets)[at.value := PlanetAfter(it, old(w.planets)[at.value], d, now)]
    ensures it.Invasion? ==> w.planets == Invaded(old(w.planets), at.value, dists, d)
    ensures it.Invasion? && AllWithinCaps(old(w.planets)) ==> AllWithinCaps(w.planets)
    ensures FleetOf(w) == FleetAfter(it, old(FleetOf(w)), now)
    ensures GaugesOf(ship) == GaugesAfter(it, old(GaugesOf(ship)), amount, now)
    ensures it.Economy? ==>
      at.Some? && at.value < |w.planets| &&
      w.minerals == old(w.minerals) + 20 * w.planets[at.value].civ.economyTier &&
      w.salvage == old(w.salvage) + 8 * w.planets[at.value].civ.economyTier
    ensures !it.Economy? ==> w.minerals == old(w.minerals) && w.salvage == old(w.salvage)
    ensures LoggedAtMostOnce(old(w.journal), w.journal)
    ensures old(ship.Valid()) && amount >= 0.0 ==> ship.Valid()
  {
    FleetUntouched(it, FleetOf(w), now);
    if at.Some? {
      DeliverPlanet(w, ship, it, cost, at.value, dists, d, stamp, now);
    }
  }


  /** What a `Bought` verdict guarantees `Fulfil`: a planet for the items
      that need one, a player-owned world to launch an invasion from, salvage
      for a craft, and caps that the development of the shop's planet keeps. */
  lemma BoughtReady(it: Item, sats: SatelliteTiers, warMode: bool, ps: seq<Planet>, at: Option<nat>,
                    now: int, score: int, cost: int, salvage: int, d: Draws)
    requires at.Some? ==> at.value < |ps|
    requires Verdict(it, sats, warMode, Active(ps, at), HasRival(ps), now, score, cost, salvage).Bought?
    ensures NeedsPlanet(it) ==> at.Some?
    ensures it.Invasion? ==> at.Some? && ps[at.value].civ.owner == "player"
    ensures it.Craft? ==> salvage >= 10
    ensures at.Some? && !it.Invasion? && AllWithinCaps(ps) ==>
      AllWithinCaps(ps[at.value := PlanetAfter(it, ps[at.value], d, now)])
  {
    LadderGates(it, sats, warMode, Active(ps, at), HasRival(ps), now);
    if at.Some? && !it.Invasion? && AllWithinCaps(ps) {
      PlanetAfterWithinCaps(it, sats, warMode, ps[at.value], HasRival(ps), d, now);
    }
  }

  /** The sale itself, once nothing refuses it: the price `cost` is paid,
      the purchase of `t` counted and the effect of `it` applied. */
  method Checkout(w: GameWorld, ship: Ship, t: string, it: Item, amount: real, cost: int, at: Option<nat>,
                  dists: seq<real>, d: Draws, stamp: string, now: int)
    requires at.Some? ==> at.value < |w.planets|
    requires |dists| == |w.planets|
    requires NeedsPlanet(it) ==> at.Some?
    requires it.Invasion? ==> w.planets[at.value].civ.owner == "player"
    requires it.Craft? ==> w.salvage >= 10
    modifies w`score, w`upgradePoints, w`minerals, w`salvage, w`planets, w`journal, w`lastJournalPush
    modifies w`satellites, w`satelliteTiers, w`droneCounts, w`factionWarMode, w`lastFactionBotSpawn, w`purchaseCounts
    modifies ship`ammo, ship`fuel, ship`shieldHealth, ship`health, ship`maxShield
    modifies ship`extraStages, ship`maxFuel, ship`stageFuelBoosts, ship`maxSpeed, ship`acceleration
    ensures w.purchaseCounts == old(w.purchaseCounts)[t := Count(old(w.purchaseCounts), t) + 1]
    ensures w.score == old(w.score) - cost + Income(it, Active(old(w.planets), at), cost, d)
    ensures w.upgradePoints == old(w.upgradePoints) + PointsFor(it, Active(old(w.planets), at))
    ensures at.None? ==> w.planets == old(w.planets)
    ensures at.Some? && !it.Invasion? ==>
      w.planets == old(w.planets)[at.value := PlanetAfter(it, old(w.planets)[at.value], d, now)]
    ensures it.Invasion? ==> at.Some? && w.planets == Invaded(old(w.planets), at.value, dists, d)
    ensures it.Invasion? && AllWithinCaps(old(w.planets)) ==> AllWithinCaps(w.planets)
    ensures FleetOf(w) == FleetAfter(it, old(FleetOf(w)), now)
    ensures GaugesOf(ship) == GaugesAfter(it, old(GaugesOf(ship)), amount, now)
    ensures it.Craft? ==>
      w.minerals == old(w.minerals) + 25 && w.salvage == old(w.salvage) - 10 && w.salvage >= 0
    ensures it.Economy? ==>
      at.Some? && at.value < |w.planets| &&
      w.minerals == old(w.minerals) + 20 * w.planets[at.value].civ.economyTier &&
      w.salvage == old(w.salvage) + 8 * w.planets[at.value].civ.economyTier
    ensures !it.Craft? && !it.Economy? ==>
      w.minerals == old(w.minerals) && w.salvage == old(w.salvage)
    ensures LoggedAtMostOnce(old(w.journal), w.journal)
    ensures old(ship.Valid()) && amount >= 0.0 ==> ship.Valid()
  {
    w.score := w.score - cost;
    w.purchaseCounts := w.purchaseCounts[t := Count(w.purchaseCounts, t) + 1];
    assert ship.Valid() == old(ship.Valid());
    Fulfil(w, ship, it, amount, cost, at, dists, d, stamp, now);
  }

  /** `buyItem` once the price is known: `it` is the item `t` names and
      `cost` its price. The ladder may refuse, the score may fall short, and
      a station service may decline; otherwise the sale goes through
      (`Checkout`). */
  method BuyPriced(w: GameWorld, ship: Ship, t: string, it: Item, amount: real, cost: int, at: Option<nat>,
                   dists: seq<real>, d: Draws, stamp: string, now: int) returns (outcome: Purchase)
    requires at.Some? ==> at.value < |w.planets|
    requires |dists| == |w.planets|
    modifies w`score, w`upgradePoints, w`minerals, w`salvage, w`planets, w`journal, w`lastJournalPush
    modifies w`satellites, w`satelliteTiers, w`droneCounts, w`factionWarMode, w`lastFactionBotSpawn, w`purchaseCounts
    modifies ship`ammo, ship`fuel, ship`shieldHealth, ship`health, ship`maxShield
    modifies ship`extraStages, ship`maxFuel, ship`stageFuelBoosts, ship`maxSpeed, ship`acceleration
    ensures outcome == Verdict(it, old(w.satelliteTiers), old(w.factionWarMode), Active(old(w.planets), at),
                               HasRival(old(w.planets)), now, old(w.score), cost, old(w.salvage))
    ensures !outcome.Bought? ==> unchanged(w) && unchanged(ship)
    ensures outcome.Bought? ==> w.purchaseCounts == old(w.purchaseCounts)[t := Count(old(w.purchaseCounts), t) + 1]
    ensures outcome.Bought? ==> w.score == old(w.score) - cost + Income(it, Active(old(w.planets), at), cost, d)
    ensures outcome.Bought? ==>
      w.upgradePoints == old(w.upgradePoints) + PointsFor(it, Active(old(w.planets), at))
    ensures outcome.Bought? && at.None? ==> w.planets == old(w.planets)
    ensures outcome.Bought? && at.Some? && !it.Invasion? ==>
      w.planets == old(w.planets)[at.value := PlanetAfter(it, old(w.planets)[at.value], d, now)]
    ensures outcome.Bought? && it.Invasion? ==>
      at.Some? && w.planets == Invaded(old(w.planets), at.value, dists, d)
    ensures outcome.Bought? ==>
      FleetOf(w) == FleetAfter(it, old(FleetOf(w)), now) &&
      GaugesOf(ship) == GaugesAfter(it, old(GaugesOf(ship)), amount, now)
    ensures outcome.Bought? && it.Craft? ==>
      w.minerals == old(w.minerals) + 25 && w.salvage == old(w.salvage) - 10 && w.salvage >= 0
    ensures outcome.Bought? && it.Economy? ==>
      at.Some? && at.value < |w.planets| &&
      w.minerals == old(w.minerals) + 20 * w.planets[at.value].civ.economyTier &&
      w.salvage == old(w.salvage) + 8 * w.planets[at.value].civ.economyTier
    ensures outcome.Bought? && !it.Craft? && !it.Economy? ==>
      w.minerals == old(w.minerals) && w.salvage == old(w.salvage)
    ensures LoggedAtMostOnce(old(w.journal), w.journal)
    ensures AllWithinCaps(old(w.planets)) ==> AllWithinCaps(w.planets)
    ensures old(ship.Valid()) && amount >= 0.0 ==> ship.Valid()
  {
    outcome := Verdict(it, w.satelliteTiers, w.factionWarMode, Active(w.planets, at), HasRival(w.planets),
                       now, w.score, cost, w.salvage);
    if outcome.Bought? {
      BoughtReady(it, w.satelliteTiers, w.factionWarMode, w.planets, at, now, w.score, cost, w.salvage, d);
      Checkout(w, ship, t, it, amount, cost, at, dists, d, stamp, now);
    }
  }

  /** `buyItem(type, amount, cost)` with the shop of the planet at `at` open
      (`None` for the general shop): the price is `DynamicShopCost`, and
      the sale proceeds as `BuyPriced` with the item `t` names. `dists` holds each
      planet's distance to the shop's planet, for picking an invasion
      target. */
  method BuyItem(w: GameWorld, ship: Ship, t: string, amount: real, baseCost: int, at: Option<nat>,
                 dists: seq<real>, d: Draws, stamp: string, now: int) returns (outcome: Purchase)
    requires at.Some? ==> at.value < |w.planets|
    requires |dists| == |w.planets|
    modifies w`score, w`upgradePoints, w`minerals, w`salvage, w`planets, w`journal, w`lastJournalPush
    modifies w`satellites, w`satelliteTiers, w`droneCounts, w`factionWarMode, w`lastFactionBotSpawn, w`purchaseCounts
    modifies ship`ammo, ship`fuel, ship`shieldHealth, ship`health, ship`maxShield
    modifies ship`extraStages, ship`maxFuel, ship`stageFuelBoosts, ship`maxSpeed, ship`acceleration
    ensures outcome == Verdict(ItemOf(t), old(w.satelliteTiers), old(w.factionWarMode), Active(old(w.planets), at),
                               HasRival(old(w.planets)), now, old(w.score),
                               DynamicShopCost(baseCost, t, old(w.purchaseCounts), old(w.score)), old(w.salvage))
    ensures !outcome.Bought? ==> unchanged(w) && unchanged(ship)
    ensures outcome.Bought? ==> w.purchaseCounts == old(w.purchaseCounts)[t := Count(old(w.purchaseCounts), t) + 1]
    ensures outcome.Bought? ==>
      var cost := DynamicShopCost(baseCost, t, old(w.purchaseCounts), old(w.score));
      w.score == old(w.score) - cost + Income(ItemOf(t), Active(old(w.planets), at), cost, d)
    ensures outcome.Bought? ==>
      w.upgradePoints == old(w.upgradePoints) + PointsFor(ItemOf(t), Active(old(w.planets), at))
    ensures outcome.Bought? && at.None? ==> w.planets == old(w.planets)
    ensures outcome.Bought? && at.Some? && !ItemOf(t).Invasion? ==>
      w.planets == old(w.planets)[at.value := PlanetAfter(ItemOf(t), old(w.planets)[at.value], d, now)]
    ensures outcome.Bought? && ItemOf(t).Invasion? ==>
      at.Some? && w.planets == Invaded(old(w.planets), at.value, dists, d)
    ensures outcome.Bought? ==>
      FleetOf(w) == FleetAfter(ItemOf(t), old(FleetOf(w)), now) &&
      GaugesOf(ship) == GaugesAfter(ItemOf(t), old(GaugesOf(ship)), amount, now)
    ensures outcome.Bought? && ItemOf(t).Craft? ==>
      w.minerals == old(w.minerals) + 25 && w.salvage == old(w.salvage) - 10 && w.salvage >= 0
    ensures outcome.Bought? && ItemOf(t).Economy? ==>
      at.Some? && at.value < |w.planets| &&
      w.minerals == old(w.minerals) + 20 * w.planets[at.value].civ.economyTier &&
      w.salvage == old(w.salvage) + 8 * w.planets[at.value].civ.economyTier
    ensures outcome.Bought? && !ItemOf(t).Craft? && !ItemOf(t).Economy? ==>
      w.minerals == old(w.minerals) && w.salvage == old(w.salvage)
    ensures LoggedAtMostOnce(old(w.journal), w.journal)
    ensures AllWithinCaps(old(w.planets)) ==> AllWithinCaps(w.planets)
    ensures old(ship.Valid()) && amount >= 0.0 ==> ship.Valid()
  {
    var cost := DynamicShopCost(baseCost, t, w.purchaseCounts, w.score);
    outcome := BuyPriced(w, ship, t, ItemOf(t), amount, cost, at, dists, d, stamp, now);
  }

}
