/** The player's ship: an object whose fields the game changes in place every
    frame. Each method is specified by the matching rule of Progression. */
module PlayerSprite {
  import opened Geometry
  import opened Rules
  import opened Progression

  /** +1, -1 or 0 from a pair of opposite keys. */
  function Axis(positive: bool, negative: bool): int {
    (if positive then 1 else 0) - (if negative then 1 else 0)
  }

  /** One frame of steering: move 7 per held key direction (diagonals are not
      normalised), then clamp the ship into the playfield. */
  function Steer(r: Rect, right: bool, left: bool, down: bool, up: bool): (m: Rect)
    ensures m.w == r.w && m.h == r.h
    ensures r.w <= Width && r.h <= Height ==> m.Inside(Width, Height)
    ensures var moved := r.(x := r.x + Axis(right, left) * PlayerSpeed, y := r.y + Axis(down, up) * PlayerSpeed);
      r.w < Width && r.h < Height && moved.Inside(Width, Height) ==> m == moved
  {
    Clamp(r.(x := r.x + Axis(right, left) * PlayerSpeed, y := r.y + Axis(down, up) * PlayerSpeed))
  }

  class Player {
    var rect: Rect
    var hp: real
    var maxHp: int
    var shield: real
    var maxShield: int
    var regenTimer: int
    var level: nat
    var xp: int
    var xpNext: int
    var bulletCount: int
    var fireRate: int
    var isLaser: bool
    var lastShot: int

    /** The statistics record of this ship. */
    function Stats(): Stats
      reads this
    {
      Progression.Stats(hp, maxHp, shield, maxShield, regenTimer, level, xp, xpNext,
                        bulletCount, fireRate, isLaser, lastShot)
    }

    /** A new ship of the given image size, centred at (450, 600). */
    constructor (size_w: nat, size_h: nat)
      ensures Stats() == Start && Valid(Stats())
      ensures rect == CenteredAt(Width / 2, Height - 100, size_w, size_h)
    {
      rect := CenteredAt(Width / 2, Height - 100, size_w, size_h);
      hp, maxHp := StartHp as real, StartHp;
      shield, maxShield := StartShield as real, StartShield;
      regenTimer := 0;
      level, xp, xpNext := 1, 0, StartXpNext;
      bulletCount, fireRate, isLaser := StartBulletCount, StartFireRate, false;
      lastShot := 0;
      new;
      StartValid();
    }

    /** The per-frame update: steer from the held keys, then run the shield timer. */
    method Update(right: bool, left: bool, down: bool, up: bool)
      modifies this
      ensures rect == Steer(old(rect), right, left, down, up)
      ensures Stats() == Regen(old(Stats()))
    {
      var dx := Axis(right, left) * PlayerSpeed;
      var dy := Axis(down, up) * PlayerSpeed;
      rect := rect.(x := rect.x + dx);
      rect := rect.(y := rect.y + dy);
      rect := Clamp(rect);
      regenTimer := regenTimer + 1;
      if regenTimer > RegenDelay {
        if shield < maxShield as real {
          shield := MinReal(maxShield as real, shield + RegenStep);
        }
      }
    }

    /** Adds experience; reports whether a level was gained. */
    method GainXp(amount: int) returns (leveled: bool)
      modifies this
      ensures Stats() == Progression.GainXp(old(Stats()), amount).stats
      ensures leveled == Progression.GainXp(old(Stats()), amount).leveled
      ensures rect == old(rect)
    {
      xp := xp + amount;
      if xp >= xpNext {
        xp := xp - xpNext;
        level := level + 1;
        xpNext := XpNextFor(level);
        return true;
      }
      return false;
    }

    /** Takes one 20-point hit, shield first. */
    method TakeHit()
      modifies this
      ensures Stats() == Progression.TakeHit(old(Stats()))
      ensures rect == old(rect)
    {
      regenTimer := 0;
      if shield > 0.0 {
        shield := shield - HitDamage;
        if shield < 0.0 {
          hp := hp + shield;
          shield := 0.0;
        }
      } else {
        hp := hp - HitDamage;
      }
    }

    /** Applies a picked-up supply. */
    method ApplySupply(kind: SupplyKind)
      modifies this
      ensures Stats() == Progression.ApplySupply(old(Stats()), kind)
      ensures rect == old(rect)
    {
      match kind
      case WeaponKit =>
        if bulletCount >= MaxBulletCount {
          isLaser := true;
        } else {
          bulletCount := bulletCount + 1;
        }
      case HealKit =>
        hp := MinReal(maxHp as real, hp + HealAmount);
      case ShieldKit =>
        maxShield := maxShield + SupplyShieldBonus;
        shield := maxShield as real;
    }

    /** Applies the option chosen in the level-up menu. */
    method ApplyUpgrade(choice: Upgrade)
      modifies this
      ensures Stats() == Progression.ApplyUpgrade(old(Stats()), choice)
      ensures rect == old(rect)
    {
      match choice
      case Firepower =>
        if bulletCount < MaxBulletCount {
          bulletCount := bulletCount + 1;
        } else {
          fireRate := MaxInt(MinFireRate, fireRate - FireRateStep);
        }
      case Vitality =>
        maxHp := maxHp + UpgradeHp;
        hp := maxHp as real;
      case Armor =>
        maxShield := maxShield + UpgradeShield;
        shield := maxShield as real;
    }
  }
}
