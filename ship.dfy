/** The player's `Ship` (assets/js/game.module.js:1902-2502): its resource
    counters, rocket stages with their timed fuel boosts, the landing state
    machine and damage with shield absorption. Positions and velocities are
    kept as vectors, but the steering physics is not modelled: the distances
    to the planets and the ship's speed are passed in. */
module ShipModel {
  import opened Numeric
  import opened Civilization

  /** The weapon part of the ship configuration (`weaponConfig`). */
  datatype Weapon = Weapon(fireRate: int, damage: int, speed: real)

  /** The body-and-tank part of the builder's configuration. */
  datatype ShipConfig = ShipConfig(health: real, accel: real, maxSpeed: real, fuel: real)

  /** A temporary fuel grant from a rocket stage, withdrawn when it expires. */
  datatype FuelBoost = FuelBoost(amount: real, expiresAt: int)

  /** What `checkLanding` reports; `NoEvent` is its `null`. */
  datatype LandingEvent = NoEvent | Takeoff | Landed | Crash

  const StageFuelBoostAmount := 35.0
  const StageFuelBoostMs := 180000

  /** `reloadAmount`, `reloadCooldownFrames` and `safeLandingSpeed` are set
      once by the constructor and never reassigned. */
  const ReloadAmount := 220.0
  const ReloadCooldownFrames := 22
  const SafeLandingSpeed := 5.0

  // ---------------------------------------------------------------- shield absorption

  /** The part of a hit the shield takes: half the hit, at most what the shield holds. */
  function ShieldAbsorbed(shield: real, amount: real): (r: real)
    ensures shield <= 0.0 ==> r == 0.0
    ensures shield > 0.0 && amount >= 0.0 ==> 0.0 <= r <= shield && r <= amount / 2.0
    ensures shield > 0.0 && amount >= 0.0 ==> r == shield || r == amount / 2.0
  {
    if shield > 0.0 then Min(shield, amount * 0.5) else 0.0
  }

  /** The shield and the hull share the hit exactly; the hull takes at least
      half of it, and all of it once the shield is down. */
  lemma DamageSplit(shield: real, amount: real)
    requires amount >= 0.0
    ensures ShieldAbsorbed(shield, amount) + (amount - ShieldAbsorbed(shield, amount)) == amount
    ensures amount - ShieldAbsorbed(shield, amount) >= amount / 2.0
    ensures shield <= 0.0 ==> amount - ShieldAbsorbed(shield, amount) == amount
  {
  }

  // ---------------------------------------------------------------- landing

  /** The tier of the base on the planet the ship sits on, 0 without one. */
  function BaseTier(p: Option<Planet>): int {
    if p.Some? && p.value.hasBase then OrInt(p.value.baseLevel, 1) else 0
  }

  /** Fuel gained per landed tick. */
  function RefillRate(tier: int): real {
    if tier > 0 then 0.2 + Min(0.2, tier as real * 0.05) else 0.05
  }

  /** Hull repaired per landed tick on a base. */
  function RepairRate(tier: int): real {
    0.16 + Min(0.18, tier as real * 0.05)
  }

  /** Landed ships refuel at 0.05 a tick, five times faster or more on a base,
      the rate growing with the base tier up to 0.4. */
  lemma RefillRateBounds(tier: int, tier2: int)
    ensures 0.05 <= RefillRate(tier) <= 0.4
    ensures tier > 0 ==> RefillRate(tier) >= 0.25
    ensures 0 < tier <= tier2 ==> RefillRate(tier) <= RefillRate(tier2)
    ensures tier >= 4 ==> RefillRate(tier) == 0.4
    ensures 0.0 < RepairRate(tier2) <= 0.34 || tier2 < 0
  {
  }

  /** `Math.ceil((speed - safeLandingSpeed) * 2)` */
  function CrashDamage(speed: real, safe: real): int {
    Ceil((speed - safe) * 2.0)
  }

  /** A crash at or above the safe speed costs at least twice the excess,
      rounded up, and a faster crash never costs less. */
  lemma CrashDamageBounds(speed: real, speed2: real, safe: real)
    requires safe <= speed <= speed2
    ensures 2.0 * (speed - safe) <= CrashDamage(speed, safe) as real < 2.0 * (speed - safe) + 1.0
    ensures CrashDamage(speed, safe) >= 0
    ensures CrashDamage(speed, safe) <= CrashDamage(speed2, safe)
  {
  }

  /** The first index of a smallest distance, as the `forEach` with a strict
      `<` against a running minimum finds it. */
  function ArgMin(d: seq<real>): (r: Option<nat>)
    ensures r.None? <==> d == []
    ensures r.Some? ==> r.value < |d|
    ensures r.Some? ==> forall j | 0 <= j < |d| :: d[r.value] <= d[j]
    ensures r.Some? ==> forall j | 0 <= j < r.value :: d[r.value] < d[j]
  {
    if d == [] then None
    else
      var r := ArgMin(d[..|d| - 1]);
      assert forall j | 0 <= j < |d| - 1 :: d[..|d| - 1][j] == d[j];
      if r.None? || d[|d| - 1] < d[r.value] then Some(|d| - 1) else r
  }

  /** The planet nearest the ship, given each planet's distance. */
  method NearestPlanet(dists: seq<real>) returns (closest: Option<nat>)
    ensures closest == ArgMin(dists)
    ensures closest.Some? ==> closest.value < |dists| && forall j | 0 <= j < |dists| :: dists[closest.value] <= dists[j]
  {
    closest := None;
    var i := 0;
    while i < |dists|
      invariant 0 <= i <= |dists|
      invariant closest == ArgMin(dists[..i])
    {
      assert dists[..i + 1][..i] == dists[..i];
      if closest.None? || dists[i] < dists[closest.value] {
        closest := Some(i);
      }
      i := i + 1;
    }
    assert dists[..i] == dists;
  }

  // ---------------------------------------------------------------- stage fuel boosts

  predicate Expired(b: FuelBoost, now: int) { now >= b.expiresAt }

  /** The boosts still running at `now`, in their original order. */
  function Unexpired(bs: seq<FuelBoost>, now: int): (r: seq<FuelBoost>)
    ensures |r| <= |bs|
    ensures forall i | 0 <= i < |r| :: !Expired(r[i], now)
  {
    if bs == [] then [] else (if Expired(bs[0], now) then [] else [bs[0]]) + Unexpired(bs[1..], now)
  }

  /** Fuel after withdrawing every expired boost, last boost first, never
      dropping below 0 at any step. */
  function DrainExpired(fuel: real, bs: seq<FuelBoost>, now: int): real {
    if bs == [] then fuel
    else
      var f := DrainExpired(fuel, bs[1..], now);
      if Expired(bs[0], now) then Max(0.0, f - bs[0].amount) else f
  }

  function ExpiredTotal(bs: seq<FuelBoost>, now: int): real {
    if bs == [] then 0.0 else (if Expired(bs[0], now) then bs[0].amount else 0.0) + ExpiredTotal(bs[1..], now)
  }

  predicate AnyExpired(bs: seq<FuelBoost>, now: int) {
    exists i | 0 <= i < |bs| :: Expired(bs[i], now)
  }

  /** Withdrawing expired boosts one at a time with a floor of 0 is the same as
      withdrawing their total at once with that floor (boost amounts are never
      negative). */
  lemma {:induction false} DrainExpiredTotal(fuel: real, bs: seq<FuelBoost>, now: int)
    requires forall i | 0 <= i < |bs| :: bs[i].amount >= 0.0
    ensures ExpiredTotal(bs, now) >= 0.0
    ensures !AnyExpired(bs, now) ==> ExpiredTotal(bs, now) == 0.0
    ensures !AnyExpired(bs, now) ==> DrainExpired(fuel, bs, now) == fuel
    ensures AnyExpired(bs, now) ==> DrainExpired(fuel, bs, now) == Max(0.0, fuel - ExpiredTotal(bs, now))
  {
    if bs != [] {
      DrainExpiredTotal(fuel, bs[1..], now);
      if !Expired(bs[0], now) && AnyExpired(bs, now) {
        var i :| 0 <= i < |bs| && Expired(bs[i], now);
        assert Expired(bs[1..][i - 1], now);
      }
      if AnyExpired(bs[1..], now) {
        var i :| 0 <= i < |bs[1..]| && Expired(bs[1..][i], now);
        assert Expired(bs[i + 1], now);
      }
    }
  }

  lemma {:induction false} DrainExpiredBounds(fuel: real, bs: seq<FuelBoost>, now: int)
    requires forall i | 0 <= i < |bs| :: bs[i].amount >= 0.0
    requires fuel >= 0.0
    ensures 0.0 <= DrainExpired(fuel, bs, now) <= fuel
  {
    if bs != [] {
      DrainExpiredBounds(fuel, bs[1..], now);
    }
  }

  lemma {:induction false} UnexpiredAmounts(bs: seq<FuelBoost>, now: int)
    requires forall i | 0 <= i < |bs| :: bs[i].amount >= 0.0
    ensures forall i | 0 <= i < |Unexpired(bs, now)| :: Unexpired(bs, now)[i].amount >= 0.0
  {
    if bs != [] {
      UnexpiredAmounts(bs[1..], now);
    }
  }

  /** Removing the element at `i` from `a + [x] + b` leaves `a + b`. */
  lemma RemoveAt<T>(a: seq<T>, x: T, b: seq<T>)
    ensures var s := a + [x] + b; s[..|a|] + s[|a| + 1..] == a + b
  {
    var s := a + [x] + b;
    assert s[..|a|] == a;
    assert s[|a| + 1..] == b;
  }

  lemma SuffixStep(bs: seq<FuelBoost>, i: nat, now: int, f: real)
    requires i < |bs|
    ensures Unexpired(bs[i..], now) == (if Expired(bs[i], now) then [] else [bs[i]]) + Unexpired(bs[i + 1..], now)
    ensures DrainExpired(f, bs[i..], now) ==
      if Expired(bs[i], now) then Max(0.0, DrainExpired(f, bs[i + 1..], now) - bs[i].amount)
      else DrainExpired(f, bs[i + 1..], now)
  {
    assert bs[i..][1..] == bs[i + 1..];
  }

  /** One step of the reverse walk in `updateStageFuelBoosts`: with the boosts
      after `i` already handled, handling boost `i` extends the result to the
      suffix starting at `i`. */
  lemma DrainStep(bs: seq<FuelBoost>, i: nat, now: int, f0: real, boosts: seq<FuelBoost>, f: real)
    requires i < |bs|
    requires boosts == bs[..i + 1] + Unexpired(bs[i + 1..], now)
    requires f == DrainExpired(f0, bs[i + 1..], now)
    ensures i < |boosts| && boosts[i] == bs[i]
    ensures Expired(bs[i], now) ==>
      boosts[..i] + boosts[i + 1..] == bs[..i] + Unexpired(bs[i..], now) &&
      Max(0.0, f - bs[i].amount) == DrainExpired(f0, bs[i..], now)
    ensures !Expired(bs[i], now) ==>
      boosts == bs[..i] + Unexpired(bs[i..], now) && f == DrainExpired(f0, bs[i..], now)
  {
    SuffixStep(bs, i, now, f0);
    var rest := Unexpired(bs[i + 1..], now);
    assert bs[..i + 1] == bs[..i] + [bs[i]];
    if Expired(bs[i], now) {
      RemoveAt(bs[..i], bs[i], rest);
    }
  }

  class Ship {
    var health: real
    var maxHealth: real
    var acceleration: real
    var maxSpeed: real
    var fuelConsumption: real
    var weapon: Weapon
    var shootCooldown: int
    var fuel: real
    var maxFuel: real
    var shieldHealth: real
    var maxShield: real
    var shieldRegenRate: real
    var ammo: real
    var maxAmmo: real
    var reloadCooldown: int
    var passiveAmmoRegenTick: int
    var stageFuelBoosts: seq<FuelBoost>
    var landed: bool
    var landedPlanet: Option<string>
    var lastCrashTime: int
    var extraStages: int
    var position: Vec3
    var velocity: Vec3

    /** The invariant the ship's own methods keep: fuel and shield within
        their maxima, no negative regeneration, stage count or boost. */
    predicate Valid()
      reads this`fuel, this`maxFuel, this`shieldHealth, this`maxShield, this`shieldRegenRate
      reads this`extraStages, this`stageFuelBoosts
    {
      0.0 <= fuel <= maxFuel && 0.0 <= shieldHealth <= maxShield &&
      shieldRegenRate >= 0.0 && extraStages >= 0 &&
      forall i | 0 <= i < |stageFuelBoosts| :: stageFuelBoosts[i].amount >= 0.0
    }

    /** A fresh ship from the builder's configuration; `now` stands for `Date.now()`. */
    constructor(config: ShipConfig, w: Weapon, now: int)
      requires config.fuel != 0.0
      ensures health == maxHealth == config.health
      ensures acceleration == config.accel && maxSpeed == config.maxSpeed && fuelConsumption == 1.0 / config.fuel
      ensures weapon == w && shootCooldown == 0
      ensures fuel == maxFuel == 100.0
      ensures shieldHealth == 0.0 && maxShield == 50.0 && shieldRegenRate == 0.1
      ensures ammo == maxAmmo == 999.0 && reloadCooldown == 0 && passiveAmmoRegenTick == 0
      ensures stageFuelBoosts == [] && extraStages == 0
      ensures !landed && landedPlanet == None && lastCrashTime == now
      ensures position == Vec3(0.0, 10.0, 50.0) && velocity == Zero
      ensures Valid()
    {
      health, maxHealth := config.health, config.health;
      acceleration, maxSpeed := config.accel, config.maxSpeed;
      fuelConsumption := 1.0 / config.fuel;
      weapon, shootCooldown := w, 0;
      fuel, maxFuel := 100.0, 100.0;
      shieldHealth, maxShield, shieldRegenRate := 0.0, 50.0, 0.1;
      ammo, maxAmmo := 999.0, 999.0;
      reloadCooldown, passiveAmmoRegenTick := 0, 0;
      stageFuelBoosts := [];
      landed, landedPlanet := false, None;
      lastCrashTime, extraStages := now, 0;
      position, velocity := Vec3(0.0, 10.0, 50.0), Zero;
    }

    method RefillFuel(amount: real)
      modifies this`fuel
      ensures fuel == Min(maxFuel, old(fuel) + amount)
      ensures fuel <= maxFuel
      ensures old(Valid()) && amount >= 0.0 ==> Valid() && fuel >= old(fuel)
    {
      fuel := Min(maxFuel, fuel + amount);
    }

    method AddShield(amount: real)
      modifies this`shieldHealth
      ensures shieldHealth == Min(maxShield, old(shieldHealth) + amount)
      ensures shieldHealth <= maxShield
      ensures old(Valid()) && amount >= 0.0 ==> Valid() && shieldHealth >= old(shieldHealth)
    {
      shieldHealth := Min(maxShield, shieldHealth + amount);
    }

    method AddAmmo(amount: real)
      modifies this`ammo
      ensures ammo == Min(maxAmmo, old(ammo) + amount)
      ensures ammo <= maxAmmo
      ensures old(Valid()) ==> Valid()
    {
      ammo := Min(maxAmmo, ammo + amount);
    }

    /** `reloadAmmo(force)`: refused on cooldown (unless forced) or with a full
        magazine; otherwise adds a reload, capped, and restarts the cooldown. */
    method ReloadAmmo(force: bool) returns (reloaded: bool)
      modifies this`ammo, this`reloadCooldown
      ensures reloaded <==> (force || old(reloadCooldown) <= 0) && old(ammo) < maxAmmo
      ensures !reloaded ==> ammo == old(ammo) && reloadCooldown == old(reloadCooldown)
      ensures reloaded ==> ammo == Min(maxAmmo, old(ammo) + ReloadAmount) && reloadCooldown == ReloadCooldownFrames
      ensures reloaded ==> old(ammo) < ammo <= maxAmmo && ammo <= old(ammo) + ReloadAmount
      ensures old(Valid()) ==> Valid()
    {
      if !force && reloadCooldown > 0 {
        return false;
      }
      if ammo >= maxAmmo {
        return false;
      }
      AddAmmo(ReloadAmount);
      reloadCooldown := ReloadCooldownFrames;
      return true;
    }

    predicate CanShoot()
      reads this
    {
      shootCooldown <= 0 && !landed && ammo > 0.0
    }

    method Shoot()
      modifies this`shootCooldown
      ensures shootCooldown == weapon.fireRate
    {
      shootCooldown := weapon.fireRate;
    }

    /** `takeDamage(amount)`: the shield soaks up its share, the hull takes the
        rest, and health is clamped at 0. */
    method TakeDamage(amount: real)
      modifies this`shieldHealth, this`health
      ensures shieldHealth == old(shieldHealth) - ShieldAbsorbed(old(shieldHealth), amount)
      ensures health == Max(0.0, old(health) - (amount - ShieldAbsorbed(old(shieldHealth), amount)))
      ensures health >= 0.0
      ensures old(Valid()) && amount >= 0.0 ==> Valid() && shieldHealth <= old(shieldHealth)
      ensures amount >= 0.0 && old(health) >= 0.0 ==> health <= old(health)
    {
      var rest := amount;
      if shieldHealth > 0.0 {
        var absorbed := Min(shieldHealth, amount * 0.5);
        shieldHealth := shieldHealth - absorbed;
        rest := rest - absorbed;
      }
      health := health - rest;
      health := Max(0.0, health);
    }

    /** `addRocketStage()`: one more stage, 45 more tank capacity, a timed
        35-unit fuel boost, and a little more speed and thrust. */
    method AddRocketStage(now: int) returns (stages: int)
      modifies this`extraStages, this`maxFuel, this`fuel, this`stageFuelBoosts, this`maxSpeed, this`acceleration
      ensures stages == extraStages == old(extraStages) + 1
      ensures maxFuel == (old(maxFuel) + 45.0).Floor as real
      ensures fuel == Min(maxFuel, old(fuel) + StageFuelBoostAmount)
      ensures stageFuelBoosts == old(stageFuelBoosts) + [FuelBoost(StageFuelBoostAmount, now + StageFuelBoostMs)]
      ensures maxSpeed == old(maxSpeed) * 1.035 && acceleration == old(acceleration) * 1.02
      ensures fuel <= maxFuel
      ensures old(Valid()) ==> Valid()
    {
      extraStages := extraStages + 1;
      maxFuel := (maxFuel + 45.0).Floor as real;
      fuel := Min(maxFuel, fuel + StageFuelBoostAmount);
      stageFuelBoosts := stageFuelBoosts + [FuelBoost(StageFuelBoostAmount, now + StageFuelBoostMs)];
      maxSpeed := maxSpeed * 1.035;
      acceleration := acceleration * 1.02;
      stages := extraStages;
      if old(Valid()) {
        assert maxFuel >= 45.0;
        assert forall i | 0 <= i < |stageFuelBoosts| :: stageFuelBoosts[i].amount >= 0.0 by {
          assert forall i | 0 <= i < |old(stageFuelBoosts)| :: stageFuelBoosts[i] == old(stageFuelBoosts)[i];
        }
      }
    }

    /** `separateStage()`: refused without a stage; otherwise drops a stage and
        its oldest boost, shrinks the tank (never below 100), and gains speed,
        thrust and an 18-unit refill. */
    method SeparateStage() returns (separated: bool)
      modifies this`extraStages, this`maxFuel, this`fuel, this`stageFuelBoosts, this`maxSpeed, this`acceleration
      ensures separated <==> old(extraStages) > 0
      ensures !separated ==>
        extraStages == old(extraStages) && maxFuel == old(maxFuel) && fuel == old(fuel) &&
        stageFuelBoosts == old(stageFuelBoosts) && maxSpeed == old(maxSpeed) && acceleration == old(acceleration)
      ensures separated ==>
        extraStages == old(extraStages) - 1 &&
        stageFuelBoosts == (if old(stageFuelBoosts) == [] then [] else old(stageFuelBoosts)[1..]) &&
        maxFuel == Max(100.0, (old(maxFuel) - 28.0).Floor as real) &&
        fuel == Min(maxFuel, Min(old(fuel), maxFuel) + 18.0) &&
        maxSpeed == old(maxSpeed) * 1.06 && acceleration == old(acceleration) * 1.08
      ensures separated ==> maxFuel >= 100.0 && fuel <= maxFuel
      ensures old(Valid()) ==> Valid()
    {
      if extraStages <= 0 {
        return false;
      }
      extraStages := extraStages - 1;
      if stageFuelBoosts != [] {
        stageFuelBoosts := stageFuelBoosts[1..];
      }
      maxFuel := Max(100.0, (maxFuel - 28.0).Floor as real);
      fuel := Min(fuel, maxFuel);
      maxSpeed := maxSpeed * 1.06;
      acceleration := acceleration * 1.08;
      RefillFuel(18.0);
      if old(Valid()) {
        assert forall i | 0 <= i < |stageFuelBoosts| :: stageFuelBoosts[i].amount >= 0.0 by {
          assert forall i | 0 <= i < |stageFuelBoosts| :: stageFuelBoosts[i] == old(stageFuelBoosts)[i + 1];
        }
      }
      return true;
    }

    /** `updateStageFuelBoosts()`: walks the boosts from last to first, and for
        each one expired at `now` withdraws its fuel (floored at 0) and removes it. */
    method UpdateStageFuelBoosts(now: int)
      modifies this`fuel, this`stageFuelBoosts
      ensures fuel == DrainExpired(old(fuel), old(stageFuelBoosts), now)
      ensures stageFuelBoosts == Unexpired(old(stageFuelBoosts), now)
      ensures old(Valid()) ==> Valid()
    {
      if stageFuelBoosts == [] {
        return;
      }
      ghost var bs := stageFuelBoosts;
      var boosts, f := stageFuelBoosts, fuel;
      var i := |boosts|;
      while i > 0
        invariant 0 <= i <= |bs|
        invariant boosts == bs[..i] + Unexpired(bs[i..], now)
        invariant f == DrainExpired(old(fuel), bs[i..], now)
      {
        i := i - 1;
        DrainStep(bs, i, now, old(fuel), boosts, f);
        var boost := boosts[i];
        if now >= boost.expiresAt {
          f := Max(0.0, f - boost.amount);
          boosts := boosts[..i] + boosts[i + 1..];
        }
      }
      assert bs[0..] == bs;
      stageFuelBoosts, fuel := boosts, f;
      if old(Valid()) {
        DrainExpiredBounds(old(fuel), bs, now);
        UnexpiredAmounts(bs, now);
      }
    }

    /** The resource part of `updatePhysics`: expire boosts; then, when flying,
        count the cooldowns down, grant 4 ammo every 60th tick and regenerate
        the shield up to its maximum. Thrust, fuel burn and gravity are not
        modelled. */
    method UpdateResources(now: int)
      modifies this`fuel, this`stageFuelBoosts, this`shootCooldown, this`reloadCooldown,
               this`passiveAmmoRegenTick, this`ammo, this`shieldHealth
      ensures fuel == DrainExpired(old(fuel), old(stageFuelBoosts), now)
      ensures stageFuelBoosts == Unexpired(old(stageFuelBoosts), now)
      ensures landed ==>
        shootCooldown == old(shootCooldown) && reloadCooldown == old(reloadCooldown) &&
        passiveAmmoRegenTick == old(passiveAmmoRegenTick) && ammo == old(ammo) && shieldHealth == old(shieldHealth)
      ensures !landed ==>
        shootCooldown == (if old(shootCooldown) > 0 then old(shootCooldown) - 1 else old(shootCooldown)) &&
        reloadCooldown == (if old(reloadCooldown) > 0 then old(reloadCooldown) - 1 else old(reloadCooldown)) &&
        (old(passiveAmmoRegenTick) + 1 >= 60 ==> passiveAmmoRegenTick == 0 && ammo == Min(maxAmmo, old(ammo) + 4.0)) &&
        (old(passiveAmmoRegenTick) + 1 < 60 ==> passiveAmmoRegenTick == old(passiveAmmoRegenTick) + 1 && ammo == old(ammo)) &&
        shieldHealth == Min(maxShield, old(shieldHealth) + shieldRegenRate)
      ensures old(Valid()) ==> Valid() && (!landed ==> shieldHealth >= old(shieldHealth))
      ensures old(shootCooldown) >= 0 ==> shootCooldown >= 0
    {
      UpdateStageFuelBoosts(now);
      if landed {
        return;
      }
      if shootCooldown > 0 {
        shootCooldown := shootCooldown - 1;
      }
      if reloadCooldown > 0 {
        reloadCooldown := reloadCooldown - 1;
      }
      passiveAmmoRegenTick := passiveAmmoRegenTick + 1;
      if passiveAmmoRegenTick >= 60 {
        passiveAmmoRegenTick := 0;
        AddAmmo(4.0);
      }
      shieldHealth := Min(maxShield, shieldHealth + shieldRegenRate);
    }

    /** `checkLanding(planets, keys)`. `dists[i]` is the ship's distance to
        `planets[i]`, `speed` the length of its velocity, `takeoff` whether
        KeyR is held and `now` the clock. */
    method CheckLanding(planets: seq<Planet>, dists: seq<real>, speed: real, takeoff: bool, now: int)
      returns (ev: LandingEvent)
      requires |dists| == |planets|
      requires speed >= 0.0 && speed * speed == velocity.Norm2()
      modifies this`landed, this`landedPlanet, this`velocity, this`position, this`fuel, this`health, this`lastCrashTime
      ensures ArgMin(dists).None? ==> ev == NoEvent && Unmoved() == old(Unmoved()) && Vitals() == old(Vitals())
      ensures ArgMin(dists).Some? && old(landed) && takeoff ==>
        ev == Takeoff && !landed && landedPlanet == None && velocity == Vec3(0.0, 0.0, 2.0) &&
        position == old(position) && Vitals() == old(Vitals())
      ensures ArgMin(dists).Some? && old(landed) && !takeoff ==>
        var p := planets[ArgMin(dists).value];
        var d := dists[ArgMin(dists).value];
        var on := if old(landedPlanet).Some? then PlanetById(planets, old(landedPlanet).value) else None;
        ev == NoEvent &&
        fuel == Min(maxFuel, old(fuel) + RefillRate(BaseTier(on))) &&
        health == (if on.Some? && on.value.hasBase then Min(maxHealth, old(health) + RepairRate(BaseTier(on))) else old(health)) &&
        (landed <==> d <= p.radius * 1.5) &&
        landedPlanet == (if landed then old(landedPlanet) else None) &&
        velocity == old(velocity) && position == old(position) && lastCrashTime == old(lastCrashTime)
      ensures ArgMin(dists).Some? && !old(landed) ==>
        var p := planets[ArgMin(dists).value];
        var d := dists[ArgMin(dists).value];
        (d < p.radius && speed < SafeLandingSpeed ==>
           ev == Landed && landed && landedPlanet == Some(p.id) && velocity == Zero &&
           position == p.position.Add(Vec3(0.0, p.radius + 5.0, 0.0)) && Vitals() == old(Vitals())) &&
        (d < p.radius && speed >= SafeLandingSpeed ==>
           ev == Crash && Unmoved() == old(Unmoved()) &&
           Vitals() == (old(fuel), old(health) - CrashDamage(speed, SafeLandingSpeed) as real, now)) &&
        (d >= p.radius ==> ev == NoEvent && Unmoved() == old(Unmoved()) && Vitals() == old(Vitals()))
      ensures old(Valid()) ==> Valid()
    {
      var closest := NearestPlanet(dists);
      if closest.None? {
        return NoEvent;
      }
      var p := planets[closest.value];
      var d := dists[closest.value];
      if landed && takeoff {
        landed := false;
        landedPlanet := None;
        velocity := Vec3(0.0, 0.0, 2.0);
        return Takeoff;
      }
      if landed {
        LandedTick(planets, d, p.radius);
        return NoEvent;
      }
      if d < p.radius {
        if speed < SafeLandingSpeed {
          landed := true;
          landedPlanet := Some(p.id);
          velocity := Zero;
          position := p.position.Add(Vec3(0.0, p.radius + 5.0, 0.0));
          return Landed;
        } else {
          health := health - CrashDamage(speed, SafeLandingSpeed) as real;
          lastCrashTime := now;
          return Crash;
        }
      }
      return NoEvent;
    }

    /** A landed tick of `checkLanding` that is not a takeoff: refuel (faster
        on a base), repair on a base, and un-land once the nearest planet is
        more than 1.5 radii away. */
    method LandedTick(planets: seq<Planet>, d: real, radius: real)
      modifies this`fuel, this`health, this`landed, this`landedPlanet
      ensures var on := if old(landedPlanet).Some? then PlanetById(planets, old(landedPlanet).value) else None;
        fuel == Min(maxFuel, old(fuel) + RefillRate(BaseTier(on))) &&
        health == (if on.Some? && on.value.hasBase then Min(maxHealth, old(health) + RepairRate(BaseTier(on))) else old(health))
      ensures landed <==> old(landed) && d <= radius * 1.5
      ensures landedPlanet == if d > radius * 1.5 then None else old(landedPlanet)
      ensures old(Valid()) ==> Valid()
    {
      var on := if landedPlanet.Some? then PlanetById(planets, landedPlanet.value) else None;
      var tier := BaseTier(on);
      fuel := Min(maxFuel, fuel + RefillRate(tier));
      if on.Some? && on.value.hasBase {
        health := Min(maxHealth, health + RepairRate(tier));
      }
      if d > radius * 1.5 {
        landed := false;
        landedPlanet := None;
      }
    }

    /** Fuel, health and the time of the last crash. */
    function Vitals(): (real, real, int)
      reads this
    {
      (fuel, health, lastCrashTime)
    }

    /** The landing state and motion of the ship, for saying that a call left them alone. */
    function Unmoved(): (bool, Option<string>, Vec3, Vec3)
      reads this
    {
      (landed, landedPlanet, position, velocity)
    }
  }

  // ---------------------------------------------------------------- ship builder

  const RequiredShipSelections := ["body", "tank", "engine", "shipClass"]

  /** `isShipBuilderComplete` (game.module.js:412-414): every required part has
      been chosen (an empty string stands for `null`). */
  function IsShipBuilderComplete(choice: map<string, string>): (r: bool)
    ensures r <==> forall k | k in RequiredShipSelections :: k in choice && choice[k] != ""
  {
    forall i | 0 <= i < |RequiredShipSelections| ::
      RequiredShipSelections[i] in choice && choice[RequiredShipSelections[i]] != ""
  }

  lemma BuilderNeedsEveryPart(choice: map<string, string>, part: string)
    requires part in RequiredShipSelections
    requires part !in choice || choice[part] == ""
    ensures !IsShipBuilderComplete(choice)
  {
  }
}
