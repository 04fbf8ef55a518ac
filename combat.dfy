/** Enemy bookkeeping: `EnemyBot` (assets/js/game.module.js:1288-1468) and
    `MegaShip` (1470-1548) — their stats at spawn, cooldowns, shields and
    health. Steering, patrols and meshes are not modelled. */
module Combat {
  import opened Numeric
  import opened ShipModel

  datatype EnemyConfig = EnemyConfig(health: int, speed: real, shootInterval: int, damage: int, shield: int)

  /** The per-type table of the `EnemyBot` constructor; an unknown type gets
      the standard configuration. */
  function EnemyConfigFor(kind: string): (c: EnemyConfig)
    ensures c.health > 0 && c.speed > 0.0 && c.shootInterval > 0 && c.damage > 0
    ensures c.shield > 0 <==> kind == "shielded"
    ensures kind !in {"fast", "tank", "swarm", "sniper", "kamikaze", "shielded", "boss"} ==>
              c == EnemyConfig(50, 3.0, 120, 8, 0)
  {
    match kind
    case "fast" => EnemyConfig(25, 6.0, 60, 4, 0)
    case "tank" => EnemyConfig(120, 1.2, 180, 18, 0)
    case "swarm" => EnemyConfig(18, 7.0, 40, 3, 0)
    case "sniper" => EnemyConfig(35, 2.0, 260, 28, 0)
    case "kamikaze" => EnemyConfig(20, 9.0, 9999, 45, 0)
    case "shielded" => EnemyConfig(80, 1.6, 200, 12, 50)
    case "boss" => EnemyConfig(800, 0.8, 90, 25, 0)
    case _ => EnemyConfig(50, 3.0, 120, 8, 0)
  }

  /** How far the run has progressed for enemy scaling: score / 6000, capped at 1.2. */
  function Progression(score: int): real {
    Min(1.2, score as real / 6000.0)
  }

  /** `Math.max(least, Math.floor(base * (lo + prog * k)))`, the shape of both
      spawn-time scalings. */
  function Scaled(least: int, base: int, lo: real, k: real, prog: real): int {
    MaxInt(least, (base as real * (lo + prog * k)).Floor)
  }

  function ScaledHealth(base: int, prog: real): int { Scaled(8, base, 0.82, 0.4, prog) }

  function ScaledDamage(base: int, prog: real): int { Scaled(2, base, 0.85, 0.35, prog) }

  lemma ProgressionRange(s1: int, s2: int)
    requires 0 <= s1 <= s2
    ensures 0.0 <= Progression(s1) <= Progression(s2) <= 1.2
  {
  }

  /** With a non-negative score an enemy spawns with at least 8 health and 2
      damage, and with between 82% and 130% of its base health. */
  lemma EnemyScalingBounds(base: int, score: int)
    requires base > 0 && 0 <= score
    ensures ScaledHealth(base, Progression(score)) >= 8 && ScaledDamage(base, Progression(score)) >= 2
    ensures (base as real * 0.82).Floor <= ScaledHealth(base, Progression(score)) <= MaxInt(8, (base as real * 1.3).Floor)
  {
    var p := Progression(score);
    ProgressionRange(score, score);
    var b := base as real;
    ScaleMonotone(b, 0.82, 0.82 + p * 0.4);
    ScaleMonotone(b, 0.82 + p * 0.4, 1.3);
    FloorMonotone(b * 0.82, b * (0.82 + p * 0.4));
    FloorMonotone(b * (0.82 + p * 0.4), b * 1.3);
  }

  /** An enemy spawned at a higher score is never weaker. */
  lemma EnemyScalingMonotone(base: int, s1: int, s2: int)
    requires base > 0 && 0 <= s1 <= s2
    ensures ScaledHealth(base, Progression(s1)) <= ScaledHealth(base, Progression(s2))
    ensures ScaledDamage(base, Progression(s1)) <= ScaledDamage(base, Progression(s2))
  {
    ProgressionRange(s1, s2);
    ScaledMonotone(8, base, 0.82, 0.4, Progression(s1), Progression(s2));
    ScaledMonotone(2, base, 0.85, 0.35, Progression(s1), Progression(s2));
  }

  lemma ScaledMonotone(least: int, base: int, lo: real, k: real, p1: real, p2: real)
    requires base >= 0 && k >= 0.0 && p1 <= p2
    ensures Scaled(least, base, lo, k, p1) <= Scaled(least, base, lo, k, p2)
  {
    assert p1 * k <= p2 * k by {
      ScaleMonotone(k, p1, p2);
    }
    FloorScaleMonotone(base as real, lo + p1 * k, lo + p2 * k);
  }

  /** `maxEnemies` at game.module.js:3186: five, plus one per 500 score. */
  function MaxEnemies(score: int): int {
    5 + (score as real / 500.0).Floor
  }

  lemma MaxEnemiesGrows(s1: int, s2: int)
    requires 0 <= s1 <= s2
    ensures 5 <= MaxEnemies(s1) <= MaxEnemies(s2)
    ensures MaxEnemies(s1 + 500) == MaxEnemies(s1) + 1
  {
    assert (s1 + 500) as real / 500.0 == s1 as real / 500.0 + 1.0;
  }

  /** The part of a hit an enemy's shield takes: 70% of it, rounded down, at
      most what the shield holds. */
  function EnemyAbsorbed(shield: real, amount: real): (r: real)
    ensures shield <= 0.0 ==> r == 0.0
    ensures shield > 0.0 && amount >= 0.0 ==> 0.0 <= r <= shield && r <= amount * 0.7
    ensures shield > 0.0 && amount >= 0.0 && shield >= (amount * 0.7).Floor as real ==> r == (amount * 0.7).Floor as real
  {
    if shield > 0.0 then Min(shield, (amount * 0.7).Floor as real) else 0.0
  }

  /** An enemy hit: the shield never goes negative, the shield and the hull
      together lose exactly the hit, and the hull takes at least 30% of it. */
  lemma EnemyHitSplit(shield: real, amount: real)
    requires amount >= 0.0
    ensures shield > 0.0 ==> shield - EnemyAbsorbed(shield, amount) >= 0.0
    ensures EnemyAbsorbed(shield, amount) + (amount - EnemyAbsorbed(shield, amount)) == amount
    ensures amount - EnemyAbsorbed(shield, amount) >= amount * 0.3
  {
  }

  class EnemyBot {
    var kind: string
    var health: real
    var maxHealth: real
    var shield: real
    var shootCooldown: int
    var shootInterval: int
    var speed: real
    var damage: int
    var attachedToPlayer: bool
    var attachTime: int
    var lastDamageTime: int

    /** A new enemy of the given type, scaled by the current score. */
    constructor(k: string, score: int)
      ensures kind == k
      ensures health == maxHealth == ScaledHealth(EnemyConfigFor(k).health, Progression(score)) as real
      ensures damage == ScaledDamage(EnemyConfigFor(k).damage, Progression(score))
      ensures shield == EnemyConfigFor(k).shield as real
      ensures shootInterval == EnemyConfigFor(k).shootInterval && shootCooldown == 0
      ensures speed == EnemyConfigFor(k).speed * (0.9 + Progression(score) * 0.25)
      ensures !attachedToPlayer && attachTime == 0 && lastDamageTime == 0
    {
      var cfg := EnemyConfigFor(k);
      var prog := Progression(score);
      kind := k;
      health := ScaledHealth(cfg.health, prog) as real;
      maxHealth := health;
      shield := cfg.shield as real;
      shootCooldown, shootInterval := 0, cfg.shootInterval;
      speed := cfg.speed * (0.9 + prog * 0.25);
      damage := ScaledDamage(cfg.damage, prog);
      attachedToPlayer, attachTime, lastDamageTime := false, 0, 0;
    }

    /** `takeDamage(amount)`: the shield absorbs first; the hull is not clamped
        at 0. Returns whether the enemy survives. */
    method TakeDamage(amount: real) returns (alive: bool)
      modifies this`shield, this`health
      ensures shield == old(shield) - EnemyAbsorbed(old(shield), amount)
      ensures health == old(health) - (amount - EnemyAbsorbed(old(shield), amount))
      ensures alive <==> health > 0.0
      ensures amount >= 0.0 && old(shield) >= 0.0 ==> shield >= 0.0
      ensures (old(shield) - shield) + (old(health) - health) == amount
    {
      var rest := amount;
      if shield > 0.0 {
        var absorbed := Min(shield, (amount * 0.7).Floor as real);
        shield := shield - absorbed;
        rest := rest - absorbed;
      }
      health := health - rest;
      return health > 0.0;
    }

    predicate CanShoot()
      reads this
    {
      shootCooldown <= 0
    }

    method Shoot()
      modifies this`shootCooldown
      ensures shootCooldown == shootInterval
      ensures !CanShoot() || shootInterval <= 0
    {
      shootCooldown := shootInterval;
    }

    /** The bookkeeping of `update`: the cooldown counts down, and an enemy
        attached to the player drains 5 health from the ship at most once a
        second (the ship's health is not clamped here). */
    method Update(ship: Ship, now: int)
      modifies this`shootCooldown, this`lastDamageTime, ship`health
      ensures shootCooldown == if old(shootCooldown) > 0 then old(shootCooldown) - 1 else old(shootCooldown)
      ensures attachedToPlayer && now - old(lastDamageTime) >= 1000 ==>
                ship.health == old(ship.health) - 5.0 && lastDamageTime == now
      ensures !(attachedToPlayer && now - old(lastDamageTime) >= 1000) ==>
                ship.health == old(ship.health) && lastDamageTime == old(lastDamageTime)
    {
      if shootCooldown > 0 {
        shootCooldown := shootCooldown - 1;
      }
      if attachedToPlayer {
        if now - lastDamageTime >= 1000 {
          ship.health := ship.health - 5.0;
          lastDamageTime := now;
        }
      }
    }
  }

  class MegaShip {
    var health: real
    var maxHealth: real
    var shootCooldown: int
    var shootInterval: int
    var alienCooldownMs: int
    var alienIntervalMs: int

    constructor()
      ensures health == maxHealth == 2200.0
      ensures shootCooldown == 0 && shootInterval == 140
      ensures alienCooldownMs == 0 && alienIntervalMs == 6000
    {
      health, maxHealth := 2200.0, 2200.0;
      shootCooldown, shootInterval := 0, 140;
      alienCooldownMs, alienIntervalMs := 0, 6000;
    }

    /** The bookkeeping of `update`: the gun cooldown counts down one frame and
        the alien-bay cooldown 16 ms, never below 0. */
    method Update()
      modifies this`shootCooldown, this`alienCooldownMs
      ensures shootCooldown == if old(shootCooldown) > 0 then old(shootCooldown) - 1 else old(shootCooldown)
      ensures alienCooldownMs == MaxInt(0, old(alienCooldownMs) - 16)
      ensures alienCooldownMs >= 0
    {
      if shootCooldown > 0 {
        shootCooldown := shootCooldown - 1;
      }
      alienCooldownMs := MaxInt(0, alienCooldownMs - 16);
    }

    predicate CanShoot()
      reads this
    {
      shootCooldown <= 0
    }

    method Shoot()
      modifies this`shootCooldown
      ensures shootCooldown == shootInterval
    {
      shootCooldown := shootInterval;
    }

    predicate CanSpawnAliens()
      reads this
    {
      alienCooldownMs <= 0
    }

    method SpawnedAliens()
      modifies this`alienCooldownMs
      ensures alienCooldownMs == alienIntervalMs
    {
      alienCooldownMs := alienIntervalMs;
    }

    method TakeDamage(amount: real) returns (alive: bool)
      modifies this`health
      ensures health == old(health) - amount
      ensures alive <==> health > 0.0
    {
      health := health - amount;
      return health > 0.0;
    }
  }

  /** After spawning, the alien bay stays shut for `ceil(6000 / 16)` = 375
      updates: the cooldown counted down by 16 ms a frame. */
  function AlienCooldownAfter(start: int, frames: nat): (r: int)
    ensures start >= 0 ==> r >= 0
    ensures start >= 0 && frames * 16 < start ==> r == start - frames * 16
    ensures start >= 0 && frames * 16 >= start ==> r == 0
  {
    if frames == 0 then MaxInt(0, start) else MaxInt(0, AlienCooldownAfter(start, frames - 1) - 16)
  }

  lemma AlienBayReopens()
    ensures AlienCooldownAfter(6000, 374) > 0
    ensures AlienCooldownAfter(6000, 375) == 0
  {
  }
}
