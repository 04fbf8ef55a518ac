/** Missions (assets/js/game.module.js:2504-2561): a target to reach
    relative to a baseline captured when the mission is created, the progress
    shown for it, and the one-shot reward it pays. */
module Missions {
  import opened Numeric

  /** The `type` strings the game generates; anything else is `Unknown`, for
      which `update` never changes `current`. */
  datatype MissionKind = Destroy | Collect | Survive | NoDamage | Unknown

  function KindOf(t: string): (k: MissionKind)
    ensures k == Unknown <==> t !in {"destroy", "collect", "survive", "noDamage"}
  {
    match t
    case "destroy" => Destroy
    case "collect" => Collect
    case "survive" => Survive
    case "noDamage" => NoDamage
    case _ => Unknown
  }

  /** The parts of the world a mission looks at: kill count, power-ups
      collected, and the ship's health when a ship exists. */
  datatype WorldView = WorldView(kills: int, powerUpsCollected: int, shipHealth: Option<real>)

  datatype Baseline = Baseline(time: int, kills: int, powerUps: int, health: real)

  /** The baseline of a mission created without a world: all counters zero. */
  function EmptyBaseline(now: int): Baseline {
    Baseline(now, 0, 0, 0.0)
  }

  /** `captureBaseline`: a missing ship records health 0. */
  function CaptureBaseline(w: WorldView, now: int): (b: Baseline)
    ensures b.time == now && b.kills == w.kills && b.powerUps == w.powerUpsCollected
    ensures w.shipHealth.None? ==> b.health == 0.0
  {
    Baseline(now, w.kills, w.powerUpsCollected, if w.shipHealth.Some? then w.shipHealth.value else 0.0)
  }

  /** The value `update` gives `current` for a mission of kind `k`. */
  function Measure(k: MissionKind, b: Baseline, w: WorldView, now: int, old_current: int): (r: int)
    requires k == NoDamage ==> w.shipHealth.Some?
    ensures k == Destroy || k == Collect ==> r >= 0
    ensures k == Destroy && w.kills >= b.kills ==> r == w.kills - b.kills
    ensures k == Collect && w.powerUpsCollected >= b.powerUps ==> r == w.powerUpsCollected - b.powerUps
    ensures k == Survive ==> r * 1000 <= now - b.time < (r + 1) * 1000
    ensures k == NoDamage ==> (r == 1 <==> w.shipHealth.value >= b.health) && (r == 0 || r == 1)
    ensures k == Unknown ==> r == old_current
  {
    match k
    case Destroy => MaxInt(0, w.kills - b.kills)
    case Collect => MaxInt(0, w.powerUpsCollected - b.powerUps)
    case Survive => (now - b.time) / 1000
    case NoDamage => if w.shipHealth.value >= b.health then 1 else 0
    case Unknown => old_current
  }

  /** A kill-count mission never loses progress as kills accumulate. */
  lemma DestroyMeasureMonotone(b: Baseline, w1: WorldView, w2: WorldView, now: int, c: int)
    requires w1.kills <= w2.kills
    ensures Measure(Destroy, b, w1, now, c) <= Measure(Destroy, b, w2, now, c)
  {
  }

  /** Nor does a survival mission as time passes. */
  lemma SurviveMeasureMonotone(b: Baseline, w: WorldView, t1: int, t2: int, c: int)
    requires t1 <= t2
    ensures Measure(Survive, b, w, t1, c) <= Measure(Survive, b, w, t2, c)
  {
  }

  /** `getProgress`: `Math.min(100, Math.floor(current / target * 100))`. */
  function Progress(current: int, target: int): (r: int)
    requires target > 0
    ensures r <= 100
    ensures current >= 0 ==> r >= 0
  {
    MinInt(100, (current as real / target as real * 100.0).Floor)
  }

  /** The bar is full exactly when the target is reached. */
  lemma ProgressFullIffReached(current: int, target: int)
    requires target > 0
    ensures Progress(current, target) == 100 <==> current >= target
  {
    var q := current as real / target as real;
    if current >= target {
      assert q * target as real == current as real;
      assert q >= 1.0;
      FloorMonotone(100.0, q * 100.0);
    } else {
      assert q * target as real == current as real;
      assert (current + 1) as real <= target as real;
      assert q < 1.0;
      assert q * 100.0 < 100.0;
    }
  }

  /** The reward a mission of the given target pays. */
  function RewardFor(target: int): int {
    100 + target * 20
  }

  class Mission {
    var kind: MissionKind
    var target: int
    var current: int
    var completed: bool
    var rewarded: bool
    var reward: int
    var baseline: Baseline

    /** A mission is only ever created with a positive target; it is
        completed only once its target was reached, and rewarded only once
        completed. */
    ghost predicate Valid()
      reads this
    {
      target > 0 && reward == RewardFor(target) &&
      (completed ==> current >= target) && (rewarded ==> completed)
    }

    /** `new Mission(type, target, gameWorld)`; `world` is `None` for a
        mission created without a world. */
    constructor(t: string, target: int, world: Option<WorldView>, now: int)
      requires target > 0
      ensures Valid()
      ensures kind == KindOf(t) && this.target == target && current == 0
      ensures !completed && !rewarded && reward == 100 + target * 20
      ensures world.None? ==> baseline == EmptyBaseline(now)
      ensures world.Some? ==> baseline == CaptureBaseline(world.value, now)
    {
      kind := KindOf(t);
      this.target := target;
      current := 0;
      completed := false;
      rewarded := false;
      reward := 100 + target * 20;
      baseline := if world.Some? then CaptureBaseline(world.value, now) else EmptyBaseline(now);
    }

    function GetProgress(): (r: int)
      reads this
      requires target > 0
      ensures r <= 100
      ensures r == 100 <==> current >= target
    {
      ProgressFullIffReached(current, target);
      Progress(current, target)
    }

    /** `update(gameWorld)`: nothing once completed; otherwise `current` is
        re-measured and the mission completes exactly when it reaches the
        target. */
    method Update(w: WorldView, now: int)
      requires kind == NoDamage ==> w.shipHealth.Some?
      modifies this`current, this`completed
      ensures old(completed) ==> current == old(current) && completed
      ensures !old(completed) ==> current == Measure(kind, baseline, w, now, old(current))
      ensures !old(completed) ==> (completed <==> current >= target)
      ensures old(Valid()) ==> Valid()
    {
      if completed {
        return;
      }
      current := Measure(kind, baseline, w, now, current);
      if current >= target {
        completed := true;
      }
    }
  }
}
