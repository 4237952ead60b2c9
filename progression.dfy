/** The player's statistics and the rules that change them: experience and levels,
    the 20-point hit, supply pickups, the three level-up upgrades and shield
    regeneration. Each rule is a function from the old record to the new one;
    the class in PlayerSprite applies them in place. */
module Progression {
  import opened Rules

  /** What a supply pickup grants. */
  datatype SupplyKind = WeaponKit | HealKit | ShieldKit

  /** The three options of the level-up menu. */
  datatype Upgrade = Firepower | Vitality | Armor

  /** The player's mutable numbers. `hp` and `shield` are real because shield
      regeneration adds fractional amounts and a hit spills the shield deficit
      onto hp. Times are milliseconds. */
  datatype Stats = Stats(
    hp: real, maxHp: int,
    shield: real, maxShield: int, regenTimer: int,
    level: nat, xp: int, xpNext: int,
    bulletCount: int, fireRate: int, isLaser: bool, lastShot: int)

  /** The statistics of a freshly created player. */
  const Start: Stats := Stats(
    StartHp as real, StartHp, StartShield as real, StartShield, 0,
    1, 0, StartXpNext, StartBulletCount, StartFireRate, false, 0)

  function MinReal(a: real, b: real): real { if a <= b then a else b }
  function MaxReal(a: real, b: real): real { if a >= b then a else b }
  function MaxInt(a: int, b: int): int { if a >= b then a else b }

  /** The invariant every rule keeps: hp at most its maximum, shield between 0
      and its maximum, the experience threshold given by the curve and not yet
      reached, one to three bullets, and a fire interval of at least 120 ms.
      (hp may fall to 0 or below: that ends the game.) */
  predicate Valid(s: Stats) {
    s.hp <= s.maxHp as real &&
    0.0 <= s.shield <= s.maxShield as real &&
    s.regenTimer >= 0 &&
    s.level >= 1 && s.xpNext == XpNextFor(s.level) && 0 <= s.xp < s.xpNext &&
    1 <= s.bulletCount <= MaxBulletCount &&
    s.fireRate >= MinFireRate
  }

  lemma StartValid()
    ensures Valid(Start)
  {
    XpNextFirstLevels();
  }

  // ---------------------------------------------------------------- experience

  datatype XpGain = XpGain(stats: Stats, leveled: bool)

  /** Adds `amount` experience; when the threshold is reached, spends it on
      exactly one level (never more, whatever is left over) and reports it. */
  function GainXp(s: Stats, amount: int): (r: XpGain)
    ensures r.leveled <==> s.xp + amount >= s.xpNext
    ensures r.stats.level == (if r.leveled then s.level + 1 else s.level)
    ensures r.stats.xp == (if r.leveled then s.xp + amount - s.xpNext else s.xp + amount)
    ensures r.stats.xpNext == (if r.leveled then XpNextFor(r.stats.level) else s.xpNext)
    ensures r.stats.(level := s.level, xp := s.xp, xpNext := s.xpNext) == s
  {
    var t := s.(xp := s.xp + amount);
    if t.xp >= t.xpNext then
      var u := t.(xp := t.xp - t.xpNext, level := t.level + 1);
      XpGain(u.(xpNext := XpNextFor(u.level)), true)
    else
      XpGain(t, false)
  }

  /** A gain no larger than 50 (a kill is worth 35) keeps the record valid; in
      particular the remaining experience is below the new threshold. */
  lemma GainXpKeepsValid(s: Stats, amount: int)
    requires Valid(s) && 0 <= amount <= StartXpNext
    ensures Valid(GainXp(s, amount).stats)
  {
    XpNextAtLeastBase(s.level + 1);
  }

  /** One call never grants two levels: from a fresh player, 1000 points give
      level 2 and leave more experience than level 2 needs. */
  lemma GainXpGrantsOneLevelOnly()
    ensures var r := GainXp(Start, 1000);
      r.leveled && r.stats.level == 2 && r.stats.xp == 950 && r.stats.xpNext == 141 &&
      r.stats.xp >= r.stats.xpNext
  {
    XpNextFirstLevels();
  }

  /** Two kills from a fresh player: 35 points, then 70 >= 50 gives level 2
      with 20 points towards a threshold of 141. */
  lemma TwoKillsFromStart()
    ensures var first := GainXp(Start, KillXp);
      !first.leveled && first.stats.xp == 35 &&
      var second := GainXp(first.stats, KillXp);
      second.leveled && second.stats.level == 2 && second.stats.xp == 20 &&
      second.stats.xpNext == 141
  {
    XpNextFirstLevels();
  }

  // ---------------------------------------------------------------- damage

  /** One 20-point hit: the shield absorbs what it can, the rest falls on hp,
      and the regeneration timer restarts. */
  function TakeHit(s: Stats): (r: Stats)
    ensures r.regenTimer == 0
    ensures s.shield > 0.0 ==>
      r.shield == MaxReal(0.0, s.shield - HitDamage) && r.hp == s.hp - MaxReal(0.0, HitDamage - s.shield)
    ensures s.shield <= 0.0 ==> r.shield == s.shield && r.hp == s.hp - HitDamage
    ensures s.shield >= 0.0 ==> r.shield + r.hp == s.shield + s.hp - HitDamage
    ensures r.(hp := s.hp, shield := s.shield, regenTimer := s.regenTimer) == s
    ensures Valid(s) ==> Valid(r)
  {
    var t := s.(regenTimer := 0);
    if t.shield > 0.0 then
      var u := t.(shield := t.shield - HitDamage);
      if u.shield < 0.0 then u.(hp := u.hp + u.shield, shield := 0.0) else u
    else
      t.(hp := t.hp - HitDamage)
  }

  /** A 10-point shield under a hit: the shield empties and hp loses the other 10. */
  lemma HitThroughThinShield(s: Stats)
    requires s.shield == 10.0
    ensures TakeHit(s).shield == 0.0 && TakeHit(s).hp == s.hp - 10.0
  {
  }

  // ---------------------------------------------------------------- supplies

  /** The effect of picking up a supply. */
  function ApplySupply(s: Stats, kind: SupplyKind): (r: Stats)
    ensures kind == WeaponKit && s.bulletCount < MaxBulletCount ==>
      r == s.(bulletCount := s.bulletCount + 1)
    ensures kind == WeaponKit && s.bulletCount >= MaxBulletCount ==>
      r == s.(isLaser := true)
    ensures kind == HealKit ==>
      r.(hp := s.hp) == s && r.hp <= s.maxHp as real &&
      (r.hp == s.hp + HealAmount || r.hp == s.maxHp as real) &&
      (s.hp <= s.maxHp as real ==> s.hp <= r.hp <= s.hp + HealAmount)
    ensures kind == ShieldKit ==>
      r.(maxShield := s.maxShield, shield := s.shield) == s &&
      r.maxShield == s.maxShield + SupplyShieldBonus && r.shield == r.maxShield as real
    ensures Valid(s) ==> Valid(r)
  {
    match kind
    case WeaponKit =>
      if s.bulletCount >= MaxBulletCount then s.(isLaser := true)
      else s.(bulletCount := s.bulletCount + 1)
    case HealKit =>
      s.(hp := MinReal(s.maxHp as real, s.hp + HealAmount))
    case ShieldKit =>
      var t := s.(maxShield := s.maxShield + SupplyShieldBonus);
      t.(shield := t.maxShield as real)
  }

  // ---------------------------------------------------------------- level-up menu

  /** The effect of the option chosen in the level-up menu. */
  function ApplyUpgrade(s: Stats, choice: Upgrade): (r: Stats)
    ensures choice == Firepower && s.bulletCount < MaxBulletCount ==>
      r == s.(bulletCount := s.bulletCount + 1)
    ensures choice == Firepower && s.bulletCount >= MaxBulletCount ==>
      r.(fireRate := s.fireRate) == s && r.fireRate >= MinFireRate &&
      r.fireRate == MaxInt(MinFireRate, s.fireRate - FireRateStep)
    ensures choice == Vitality ==>
      r.(maxHp := s.maxHp, hp := s.hp) == s &&
      r.maxHp == s.maxHp + UpgradeHp && r.hp == r.maxHp as real
    ensures choice == Armor ==>
      r.(maxShield := s.maxShield, shield := s.shield) == s &&
      r.maxShield == s.maxShield + UpgradeShield && r.shield == r.maxShield as real
    ensures Valid(s) ==> Valid(r)
  {
    match choice
    case Firepower =>
      if s.bulletCount < MaxBulletCount then s.(bulletCount := s.bulletCount + 1)
      else s.(fireRate := MaxInt(MinFireRate, s.fireRate - FireRateStep))
    case Vitality =>
      var t := s.(maxHp := s.maxHp + UpgradeHp);
      t.(hp := t.maxHp as real)
    case Armor =>
      var t := s.(maxShield := s.maxShield + UpgradeShield);
      t.(shield := t.maxShield as real)
  }

  /** `n` Firepower choices in a row. */
  function FirepowerTimes(s: Stats, n: nat): Stats
    decreases n
  {
    if n == 0 then s else ApplyUpgrade(FirepowerTimes(s, n - 1), Firepower)
  }

  /** With three bullets already, each further Firepower choice takes 60 ms off
      the fire interval until the 120 ms floor, and nothing else changes. */
  lemma {:induction false} FirepowerPastThreeBullets(s: Stats, n: nat)
    requires s.bulletCount >= MaxBulletCount && s.fireRate >= MinFireRate
    ensures FirepowerTimes(s, n) == s.(fireRate := MaxInt(MinFireRate, s.fireRate - FireRateStep * n))
    decreases n
  {
    if n > 0 {
      FirepowerPastThreeBullets(s, n - 1);
    }
  }

  // ---------------------------------------------------------------- any sequence of choices

  /** Something that changes the player's upgrades between frames. */
  datatype Boon = Pickup(kind: SupplyKind) | Choose(choice: Upgrade) | Gain(amount: int)

  function ApplyBoon(s: Stats, b: Boon): Stats {
    match b
    case Pickup(k) => ApplySupply(s, k)
    case Choose(c) => ApplyUpgrade(s, c)
    case Gain(a) => GainXp(s, a).stats
  }

  function ApplyBoons(s: Stats, bs: seq<Boon>): Stats
    decreases |bs|
  {
    if bs == [] then s else ApplyBoons(ApplyBoon(s, bs[0]), bs[1..])
  }

  /** However supplies, menu choices and kill rewards (at most 50 points each)
      are interleaved, a valid record stays valid: one to three bullets, a fire
      interval of at least 120 ms, hp and shield within their maxima. */
  lemma {:induction false} BoonsKeepValid(s: Stats, bs: seq<Boon>)
    requires Valid(s)
    requires forall i :: 0 <= i < |bs| && bs[i].Gain? ==> 0 <= bs[i].amount <= StartXpNext
    ensures Valid(ApplyBoons(s, bs))
    ensures 1 <= ApplyBoons(s, bs).bulletCount <= MaxBulletCount
    ensures ApplyBoons(s, bs).fireRate >= MinFireRate
    decreases |bs|
  {
    if bs != [] {
      if bs[0].Gain? {
        GainXpKeepsValid(s, bs[0].amount);
      }
      BoonsKeepValid(ApplyBoon(s, bs[0]), bs[1..]);
    }
  }

  // ---------------------------------------------------------------- regeneration

  /** One frame of the shield timer: the timer counts up, and once it has passed
      180 frames a shield below its maximum grows by 0.3, capped at the maximum. */
  function Regen(s: Stats): (r: Stats)
    ensures r.regenTimer == s.regenTimer + 1
    ensures r.regenTimer <= RegenDelay ==> r.shield == s.shield
    ensures s.shield <= r.shield <= s.shield + RegenStep
    ensures s.shield <= s.maxShield as real ==> r.shield <= s.maxShield as real
    ensures r.regenTimer > RegenDelay && s.shield < s.maxShield as real ==> r.shield > s.shield
    ensures r.(shield := s.shield, regenTimer := s.regenTimer) == s
    ensures Valid(s) ==> Valid(r)
  {
    var t := s.(regenTimer := s.regenTimer + 1);
    if t.regenTimer > RegenDelay && t.shield < t.maxShield as real then
      t.(shield := MinReal(t.maxShield as real, t.shield + RegenStep))
    else t
  }

  function RegenTimes(s: Stats, n: nat): Stats
    decreases n
  {
    if n == 0 then s else Regen(RegenTimes(s, n - 1))
  }

  /** After a hit the shield stays where the hit left it for 180 frames. */
  lemma {:induction false} NoRegenAfterHit(s: Stats, n: nat)
    requires n <= RegenDelay
    ensures RegenTimes(TakeHit(s), n).regenTimer == n
    ensures RegenTimes(TakeHit(s), n).shield == TakeHit(s).shield
    ensures RegenTimes(TakeHit(s), n).maxShield == TakeHit(s).maxShield
    decreases n
  {
    if n > 0 {
      NoRegenAfterHit(s, n - 1);
    }
  }

  /** On the 181st undamaged frame a shield below its maximum starts to grow. */
  lemma RegenResumes(s: Stats)
    requires TakeHit(s).shield < TakeHit(s).maxShield as real
    ensures RegenTimes(TakeHit(s), RegenDelay + 1).shield > TakeHit(s).shield
  {
    NoRegenAfterHit(s, RegenDelay);
    assert RegenTimes(TakeHit(s), RegenDelay + 1) == Regen(RegenTimes(TakeHit(s), RegenDelay));
  }
}
