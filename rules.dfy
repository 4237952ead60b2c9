/** The game's tuning constants and the two pure formulas of the simulation:
    the experience curve and the spread of a volley. */
module Rules {

  // Player
  const PlayerSpeed: int := 7
  const StartHp: int := 100
  const StartShield: int := 50
  const StartXpNext: int := 50
  const StartBulletCount: int := 1
  const StartFireRate: int := 450

  // Upgrades and supplies
  const MaxBulletCount: int := 3
  const MinFireRate: int := 120
  const FireRateStep: int := 60
  const UpgradeHp: int := 20
  const UpgradeShield: int := 20
  const HealAmount: real := 50.0
  const SupplyShieldBonus: int := 10

  // Damage and shield regeneration
  const HitDamage: real := 20.0
  const RegenDelay: int := 180
  const RegenStep: real := 0.3

  // Projectiles
  const BulletDamage: int := 30
  const LaserDamage: int := 60
  const BulletSpeed: int := 18
  const EnemyBulletSpeed: int := 6
  const SupplySpeed: int := 2

  // Enemies
  const EnemyFireInterval: int := 2000
  const BossFireInterval: int := 700
  const BossBaseHp: int := 1000
  const BossHpPerLevel: int := 60
  const BossSpeed: int := 2
  const BossBand: int := 120
  const BossDescent: int := 2
  const EnemySpawnY: int := -60
  const BossCenterY: int := -100

  // Scoring and progression
  const KillScore: int := 10
  const KillXp: int := 35
  const BossScore: int := 2000
  const FirstBossMilestone: int := 10
  const BossMilestoneStep: int := 5

  /** Integer square root: the largest r with r * r <= n. */
  function Isqrt(n: nat): (r: nat)
    ensures r * r <= n < (r + 1) * (r + 1)
    decreases n
  {
    if n < 4 then (if n == 0 then 0 else 1)
    else
      var h := Isqrt(n / 4);
      IsqrtStep(n, h);
      if (2 * h + 1) * (2 * h + 1) <= n then 2 * h + 1 else 2 * h
  }

  /** The root of n / 4, doubled, brackets the root of n from below. */
  lemma IsqrtStep(n: nat, h: nat)
    requires h * h <= n / 4 < (h + 1) * (h + 1)
    ensures (2 * h) * (2 * h) <= n < (2 * h + 2) * (2 * h + 2)
  {
    var q := n / 4;
    assert 4 * q <= n < 4 * q + 4;
    assert (2 * h) * (2 * h) == 4 * (h * h);
    assert (2 * h + 2) * (2 * h + 2) == 4 * ((h + 1) * (h + 1));
  }

  lemma MulGrows(a: nat, b: nat)
    requires b >= 1
    ensures a * b >= a
  {
    assert a * b == a * (b - 1) + a;
  }

  lemma SquareMono(a: nat, b: nat)
    requires a <= b
    ensures a * a <= b * b
  {
    assert a * a <= a * b <= b * b;
  }

  /** The bracketing a * a <= n < (a + 1) * (a + 1) pins the integer square root down. */
  lemma IsqrtUnique(n: nat, a: nat)
    requires a * a <= n < (a + 1) * (a + 1)
    ensures Isqrt(n) == a
  {
    var r := Isqrt(n);
    if r < a {
      SquareMono(r + 1, a);
    } else if r > a {
      SquareMono(a + 1, r);
    }
  }

  /** Experience needed to leave `level`: floor(50 * level^1.5), that is the
      largest n with n * n <= 2500 * level^3. */
  function XpNextFor(level: nat): (r: nat)
    ensures r * r <= 2500 * level * level * level < (r + 1) * (r + 1)
  {
    Isqrt(2500 * level * level * level)
  }

  /** From the first level on, a level never needs fewer than 50 points. */
  lemma XpNextAtLeastBase(level: nat)
    requires level >= 1
    ensures XpNextFor(level) >= StartXpNext
  {
    var r := XpNextFor(level);
    MulGrows(2500, level);
    MulGrows(2500 * level, level);
    MulGrows(2500 * level * level, level);
    if r + 1 <= 50 {
      SquareMono(r + 1, 50);
    }
  }

  /** The first two values of the curve: 50 at level 1 and 141 at level 2. */
  lemma XpNextFirstLevels()
    ensures XpNextFor(1) == 50 && XpNextFor(2) == 141
  {
    IsqrtUnique(2500, 50);
    IsqrtUnique(20000, 141);
  }

  /** Horizontal offsets of the bullets of one non-laser volley. */
  function ShotOffsets(bulletCount: int): (r: seq<int>)
    ensures |r| == (if bulletCount == 1 then 1 else if bulletCount == 2 then 2 else 3)
    ensures forall i :: 0 <= i < |r| ==> r[i] == -r[|r| - 1 - i]
    ensures forall i, j :: 0 <= i < j < |r| ==> r[i] < r[j]
    ensures bulletCount != 2 ==> 0 in r
    ensures r[|r| - 1] == (if |r| == 1 then 0 else if |r| == 2 then 15 else 25)
  {
    if bulletCount == 1 then [0]
    else if bulletCount == 2 then [-15, 15]
    else [-25, 0, 25]
  }
}
