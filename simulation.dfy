/** One frame of the game as a function of the whole game state: the sections of
    the main loop in source order (spawning, the player's volley, enemy fire,
    supply pickups, the player's bullets against enemies and the boss, the hit
    on the player, movement), and the invariant the frame keeps. */
module Simulation {
  import opened Geometry
  import opened Rules
  import opened Progression
  import opened Sprites
  import opened PlayerSprite

  /** Sprite sizes, fixed once the images are loaded (or their fallbacks drawn). */
  datatype Sizes = Sizes(player: Size, enemy: Size, boss: Size, supply: Size)

  /** Everything the simulation reads and changes between two frames. */
  datatype World = World(
    me: Stats, meRect: Rect,
    enemies: seq<Enemy>, bosses: seq<Enemy>,
    shots: seq<Bullet>, enemyShots: seq<EnemyBullet>, supplies: seq<Supply>,
    score: int, inBossFight: bool, nextBossMilestone: int)

  /** What one frame takes from outside: the clock, the quit request, the random
      draws of the spawner, the mouse button, the four movement keys, and the
      menu option chosen at the k-th level-up of the frame, pick(k). */
  datatype Input = Input(
    now: int, quit: bool,
    spawnRoll: bool, spawnX: int, spawnSpeed: int,
    fire: bool, right: bool, left: bool, down: bool, up: bool,
    pick: nat -> Upgrade)

  function StartWorld(sz: Sizes): World {
    World(Start, CenteredAt(Width / 2, Height - 100, sz.player.w, sz.player.h),
          [], [], [], [], [], 0, false, FirstBossMilestone)
  }

  /** The invariant of the game state: valid player statistics; at most one boss,
      present exactly during a boss fight, alive, and alone on the screen; and no
      boss among the normal enemies. */
  predicate Inv(w: World) {
    Valid(w.me) &&
    |w.bosses| <= 1 && (w.inBossFight <==> |w.bosses| == 1) &&
    (w.inBossFight ==> w.enemies == []) &&
    (forall e :: e in w.bosses ==> e.isBoss && e.hp > 0) &&
    (forall e :: e in w.enemies ==> !e.isBoss)
  }

  lemma StartWorldInv(sz: Sizes)
    ensures Inv(StartWorld(sz))
  {
    StartValid();
  }

  // ---------------------------------------------------------------- 1. spawning

  /** Outside a boss fight a normal enemy may spawn; once the player's level
      reaches the milestone the fight starts: every normal enemy is removed and
      one boss sized for the current level appears. */
  function Spawn(w: World, inp: Input, sz: Sizes): (r: World)
    ensures r.inBossFight <==> w.inBossFight || w.me.level >= w.nextBossMilestone
    ensures w.inBossFight ==> r == w
    ensures !w.inBossFight && w.me.level >= w.nextBossMilestone ==>
      r.enemies == [] && |r.bosses| == |w.bosses| + 1 && r.bosses[..|w.bosses|] == w.bosses &&
      r.bosses[|w.bosses|] == NewBoss(w.me.level, sz.boss, inp.now)
    ensures !w.inBossFight && w.me.level < w.nextBossMilestone ==>
      r.bosses == w.bosses &&
      r.enemies == w.enemies + (if inp.spawnRoll then [NewEnemy(inp.spawnX, inp.spawnSpeed, sz.enemy, inp.now)] else [])
    ensures r.(enemies := w.enemies, bosses := w.bosses, inBossFight := w.inBossFight) == w
  {
    if w.inBossFight then w
    else
      var w1 := if inp.spawnRoll then w.(enemies := w.enemies + [NewEnemy(inp.spawnX, inp.spawnSpeed, sz.enemy, inp.now)]) else w;
      if w.me.level >= w.nextBossMilestone then
        w1.(inBossFight := true, enemies := [], bosses := w1.bosses + [NewBoss(w.me.level, sz.boss, inp.now)])
      else w1
  }

  lemma SpawnKeepsInv(w: World, inp: Input, sz: Sizes)
    requires Inv(w)
    ensures Inv(Spawn(w, inp, sz))
  {
  }

  /** The fight starts exactly once: from a state without a boss, one frame of
      spawning gives exactly one boss of 1000 + 60 * level hp and no other enemy,
      and spawning again changes nothing. */
  lemma BossFightStartsOnce(w: World, inp: Input, inp2: Input, sz: Sizes)
    requires Inv(w) && !w.inBossFight && w.me.level >= w.nextBossMilestone
    ensures var r := Spawn(w, inp, sz);
      r.inBossFight && r.enemies == [] && |r.bosses| == 1 &&
      r.bosses[0].hp == BossBaseHp + BossHpPerLevel * w.me.level &&
      Spawn(r, inp2, sz) == r
  {
  }

  // ---------------------------------------------------------------- 2. the player's volley

  predicate CanFire(s: Stats, inp: Input) {
    inp.fire && inp.now - s.lastShot > s.fireRate
  }

  /** With the button held and more than the fire interval elapsed since the last
      volley, the ship fires a volley and restarts its firing clock. */
  function Fire(w: World, inp: Input): (r: World)
    ensures CanFire(w.me, inp) ==>
      r.shots == w.shots + Volley(w.me.isLaser, w.me.bulletCount, w.meRect) &&
      r.me == w.me.(lastShot := inp.now)
    ensures !CanFire(w.me, inp) ==> r == w
    ensures r.(shots := w.shots, me := w.me) == w
  {
    if CanFire(w.me, inp) then
      w.(shots := w.shots + Volley(w.me.isLaser, w.me.bulletCount, w.meRect), me := w.me.(lastShot := inp.now))
    else w
  }

  lemma FireKeepsInv(w: World, inp: Input)
    requires Inv(w)
    ensures Inv(Fire(w, inp))
  {
  }

  // ---------------------------------------------------------------- 3. enemy fire

  /** Every normal enemy, then every boss, gets its chance to fire; the new enemy
      bullets join the end of their group. */
  function EnemiesFire(w: World, now: int): (r: World)
    ensures |r.enemies| == |w.enemies| && |r.bosses| == |w.bosses|
    ensures |w.enemyShots| <= |r.enemyShots| <= |w.enemyShots| + |w.enemies| + |w.bosses|
    ensures r.enemyShots[..|w.enemyShots|] == w.enemyShots
    ensures r.(enemies := w.enemies, bosses := w.bosses, enemyShots := w.enemyShots) == w
  {
    var a := ShootAll(w.enemies, now);
    var b := ShootAll(w.bosses, now);
    w.(enemies := a.enemies, bosses := b.enemies, enemyShots := w.enemyShots + a.bullets + b.bullets)
  }

  /** Firing changes each enemy only as its own Shoot does. */
  lemma EnemiesFireInPlace(w: World, now: int)
    ensures var r := EnemiesFire(w, now);
      (forall i :: 0 <= i < |w.enemies| ==> r.enemies[i] == Shoot(w.enemies[i], now).enemy) &&
      (forall i :: 0 <= i < |w.bosses| ==> r.bosses[i] == Shoot(w.bosses[i], now).enemy)
  {
    ShootAllInPlace(w.enemies, now);
    ShootAllInPlace(w.bosses, now);
  }

  /** The enemy bullets fired in a frame, appended after the old ones, are one
      per enemy or boss that is due, and exactly those their own shots fire. */
  lemma EnemiesFireShots(w: World, now: int)
    ensures var r := EnemiesFire(w, now);
      |r.enemyShots| == |w.enemyShots| + CountDue(w.enemies, now) + CountDue(w.bosses, now) &&
      forall x :: x in r.enemyShots[|w.enemyShots|..] <==>
        (exists i :: 0 <= i < |w.enemies| && x in Shoot(w.enemies[i], now).bullets) ||
        (exists i :: 0 <= i < |w.bosses| && x in Shoot(w.bosses[i], now).bullets)
  {
    ShootAllFires(w.enemies, now);
    ShootAllFires(w.bosses, now);
    var r := EnemiesFire(w, now);
    assert r.enemyShots[|w.enemyShots|..] == ShootAll(w.enemies, now).bullets + ShootAll(w.bosses, now).bullets;
  }

  lemma EnemiesFireKeepsInv(w: World, now: int)
    requires Inv(w)
    ensures Inv(EnemiesFire(w, now))
  {
    var r := EnemiesFire(w, now);
    EnemiesFireInPlace(w, now);
    forall e | e in r.bosses ensures e.isBoss && e.hp > 0 {
      var i :| 0 <= i < |r.bosses| && r.bosses[i] == e;
      assert w.bosses[i] in w.bosses;
    }
    forall e | e in r.enemies ensures !e.isBoss {
      var i :| 0 <= i < |r.enemies| && r.enemies[i] == e;
      assert w.enemies[i] in w.enemies;
    }
  }

  // ---------------------------------------------------------------- 4. supplies

  /** How many supplies of kind `k` there are in `got`. */
  function CountKind(got: seq<Supply>, k: SupplyKind): nat
    decreases |got|
  {
    if got == [] then 0 else CountKind(got[..|got| - 1], k) + (if got[|got| - 1].kind == k then 1 else 0)
  }

  /** The effects of the picked-up supplies, applied in the order collected. By
      kind: each weapon kit adds a bullet until there are 3 and then turns the
      laser on; heal kits add 50 hp each, capped at max hp; each shield kit adds
      10 to max shield, and the shield ends full if any was collected. */
  function ApplySupplies(s: Stats, got: seq<Supply>): (r: Stats)
    ensures var weapons := CountKind(got, WeaponKit);
      r.bulletCount == (if s.bulletCount >= MaxBulletCount || s.bulletCount + weapons <= MaxBulletCount
                        then s.bulletCount + (if s.bulletCount >= MaxBulletCount then 0 else weapons)
                        else MaxBulletCount) &&
      r.isLaser == (s.isLaser || (weapons > 0 && s.bulletCount + weapons > MaxBulletCount))
    ensures var heals := CountKind(got, HealKit);
      r.maxHp == s.maxHp &&
      r.hp == (if heals == 0 then s.hp else MinReal(s.maxHp as real, s.hp + HealAmount * heals as real))
    ensures var kits := CountKind(got, ShieldKit);
      r.maxShield == s.maxShield + SupplyShieldBonus * kits &&
      r.shield == (if kits == 0 then s.shield else r.maxShield as real)
    ensures Valid(s) ==> Valid(r)
    ensures r.level == s.level && r.xp == s.xp && r.xpNext == s.xpNext
    ensures r.lastShot == s.lastShot && r.regenTimer == s.regenTimer && r.fireRate == s.fireRate
    decreases |got|
  {
    if got == [] then s
    else ApplySupply(ApplySupplies(s, got[..|got| - 1]), got[|got| - 1].kind)
  }

  /** Every supply touching the ship is removed and its effect applied. */
  function Pickups(w: World): (r: World)
    ensures r.me == ApplySupplies(w.me, Touching(w.meRect, w.supplies, SupplyRect))
    ensures r.me.level == w.me.level && r.me.xp == w.me.xp && r.me.lastShot == w.me.lastShot
    ensures |r.supplies| <= |w.supplies|
    ensures r.(me := w.me, supplies := w.supplies) == w
  {
    var got := Touching(w.meRect, w.supplies, SupplyRect);
    w.(me := ApplySupplies(w.me, got), supplies := Untouched(w.meRect, w.supplies, SupplyRect))
  }

  /** After the pickups no supply touches the ship, every supply that did was
      applied, and without any touching supply nothing changes. */
  lemma PickupsClearShip(w: World)
    ensures var r := Pickups(w);
      (forall s :: s in r.supplies ==> s in w.supplies && !Overlaps(w.meRect, s.rect)) &&
      (forall s :: s in w.supplies && s !in r.supplies ==> Overlaps(w.meRect, s.rect)) &&
      ((forall s :: s in w.supplies ==> !Overlaps(w.meRect, s.rect)) ==> r == w)
  {
    CollideSplit(w.meRect, w.supplies, SupplyRect);
  }

  lemma PickupsKeepsInv(w: World)
    requires Inv(w)
    ensures Inv(Pickups(w))
  {
  }

  // ---------------------------------------------------------------- 5. the player's bullets

  datatype Progress = Progress(stats: Stats, picks: nat)

  /** One kill's reward: 35 experience, and on a level-up the menu option chosen
      for the `picks`-th level-up of the frame. */
  function KillReward(p: Progress, pick: nat -> Upgrade): (r: Progress)
    ensures r.picks == p.picks + 1 <==> p.stats.xp + KillXp >= p.stats.xpNext
    ensures r.picks == p.picks || r.picks == p.picks + 1
    ensures r.stats.level - p.stats.level == r.picks - p.picks
    ensures r.picks == p.picks ==> r.stats == p.stats.(xp := p.stats.xp + KillXp)
    ensures r.picks == p.picks + 1 ==> r.stats == ApplyUpgrade(GainXp(p.stats, KillXp).stats, pick(p.picks))
    ensures Valid(p.stats) ==> Valid(r.stats)
  {
    var g := GainXp(p.stats, KillXp);
    assert Valid(p.stats) ==> Valid(g.stats) by {
      if Valid(p.stats) { GainXpKeepsValid(p.stats, KillXp); }
    }
    if g.leveled then Progress(ApplyUpgrade(g.stats, pick(p.picks)), p.picks + 1) else Progress(g.stats, p.picks)
  }

  /** The rewards of `n` kills in a row: one menu choice per level gained, and
      when no level is gained only xp changes, by 35 per kill. */
  function KillRewards(p: Progress, pick: nat -> Upgrade, n: nat): (r: Progress)
    ensures Valid(p.stats) ==> Valid(r.stats)
    ensures p.picks <= r.picks <= p.picks + n
    ensures r.stats.level - p.stats.level == r.picks - p.picks
    ensures r.picks == p.picks ==> r.stats == p.stats.(xp := p.stats.xp + KillXp * n)
    decreases n
  {
    if n == 0 then p else KillReward(KillRewards(p, pick, n - 1), pick)
  }

  /** A boss after a hit from `b` (unchanged when the bullet misses it). */
  function Struck(e: Enemy, b: Bullet): (r: Enemy)
    ensures r.(hp := e.hp) == e
    ensures Overlaps(b.rect, e.rect) ==> r.hp == e.hp - b.damage
    ensures !Overlaps(b.rect, e.rect) ==> r == e
  {
    if Overlaps(b.rect, e.rect) then e.(hp := e.hp - b.damage) else e
  }

  datatype Strike = Strike(kept: seq<Enemy>, slain: seq<Enemy>, hit: bool)

  /** One bullet against the boss group, in group order: each boss it touches
      loses the bullet's damage and is removed once its hp is 0 or less. */
  function StrikeBosses(bs: seq<Enemy>, b: Bullet): (r: Strike)
    ensures |r.kept| + |r.slain| == |bs|
    ensures |bs| == 1 ==> r.kept + r.slain == [Struck(bs[0], b)]
    decreases |bs|
  {
    if bs == [] then Strike([], [], false)
    else
      var done := StrikeBosses(bs[..|bs| - 1], b);
      var e := bs[|bs| - 1];
      if Overlaps(b.rect, e.rect) then
        var hurt := Struck(e, b);
        if hurt.hp <= 0 then Strike(done.kept, done.slain + [hurt], true)
        else Strike(done.kept + [hurt], done.slain, true)
      else Strike(done.kept + [e], done.slain, done.hit)
  }

  /** What a strike leaves: it hit exactly when some boss overlaps the bullet;
      every boss kept or slain is a boss of the group after the hit; the slain
      are at 0 hp or less, and the kept stay above 0 when all were. */
  lemma {:induction false} StrikeBossesFrom(bs: seq<Enemy>, b: Bullet)
    ensures var r := StrikeBosses(bs, b);
      (r.hit <==> exists e :: e in bs && Overlaps(b.rect, e.rect)) &&
      (forall e :: e in r.slain ==> e.hp <= 0) &&
      (forall e :: e in r.kept ==> exists o :: o in bs && e == Struck(o, b)) &&
      (forall e :: e in r.slain ==> exists o :: o in bs && e == Struck(o, b)) &&
      ((forall e :: e in bs ==> e.hp > 0) ==> forall e :: e in r.kept ==> e.hp > 0)
    decreases |bs|
  {
    if bs != [] {
      var init := bs[..|bs| - 1];
      StrikeBossesFrom(init, b);
      assert bs == init + [bs[|bs| - 1]];
      assert forall x :: x in init ==> x in bs;
    }
  }

  /** Every boss of the group ends up, after the hit, kept or slain. */
  lemma {:induction false} StrikeBossesEach(bs: seq<Enemy>, b: Bullet)
    ensures var r := StrikeBosses(bs, b);
      forall o :: o in bs ==> Struck(o, b) in r.kept || Struck(o, b) in r.slain
    decreases |bs|
  {
    if bs != [] {
      var init := bs[..|bs| - 1];
      StrikeBossesEach(init, b);
      InLastSplit(bs);
    }
  }

  /** The weapon supply a slain boss leaves at its centre. */
  function Drop(e: Enemy, size: Size): (s: Supply)
    ensures s.kind == WeaponKit && s.rect.w == size.w && s.rect.h == size.h
    ensures s.rect.CenterX() == e.rect.CenterX() && s.rect.CenterY() == e.rect.CenterY()
  {
    Supply(WeaponKit, CenteredAt(e.rect.CenterX(), e.rect.CenterY(), size.w, size.h))
  }

  function Drops(slain: seq<Enemy>, size: Size): (r: seq<Supply>)
    ensures |r| == |slain|
    decreases |slain|
  {
    if slain == [] then [] else Drops(slain[..|slain| - 1], size) + [Drop(slain[|slain| - 1], size)]
  }

  /** The i-th drop is the supply the i-th slain boss leaves. */
  lemma {:induction false} DropsInOrder(slain: seq<Enemy>, size: Size)
    ensures forall i :: 0 <= i < |slain| ==> Drops(slain, size)[i] == Drop(slain[i], size)
    decreases |slain|
  {
    if slain != [] {
      DropsInOrder(slain[..|slain| - 1], size);
    }
  }

  datatype ShotOutcome = ShotOutcome(world: World, picks: nat, spent: bool)

  /** One player bullet's pass: every normal enemy it touches dies for 10 points
      and 35 experience; then each boss it touches loses the bullet's damage, and
      a boss brought to 0 hp ends the fight for 2000 points, moves the next
      milestone 5 levels on and drops a weapon supply. A non-laser bullet that hit
      anything is spent; a laser goes on. */
  function HitByShot(w: World, b: Bullet, picks: nat, pick: nat -> Upgrade, supplySize: Size): (r: ShotOutcome)
    ensures var kills := |Touching(b.rect, w.enemies, EnemyRect)|;
      var strike := StrikeBosses(w.bosses, b);
      r.world.score == w.score + KillScore * kills + BossScore * |strike.slain| &&
      r.world.enemies == Untouched(b.rect, w.enemies, EnemyRect) &&
      r.world.me == KillRewards(Progress(w.me, picks), pick, kills).stats &&
      r.picks == KillRewards(Progress(w.me, picks), pick, kills).picks &&
      r.world.bosses == strike.kept &&
      r.world.inBossFight == (w.inBossFight && strike.slain == []) &&
      r.world.nextBossMilestone == w.nextBossMilestone + BossMilestoneStep * |strike.slain| &&
      r.world.supplies == w.supplies + Drops(strike.slain, supplySize) &&
      (r.spent <==> !b.isLaser && (kills > 0 || strike.hit))
    ensures r.world.(me := w.me, enemies := w.enemies, bosses := w.bosses, supplies := w.supplies,
                     score := w.score, inBossFight := w.inBossFight, nextBossMilestone := w.nextBossMilestone) == w
  {
    var hits := Touching(b.rect, w.enemies, EnemyRect);
    var p := KillRewards(Progress(w.me, picks), pick, |hits|);
    var w1 := w.(enemies := Untouched(b.rect, w.enemies, EnemyRect), me := p.stats,
                 score := w.score + KillScore * |hits|);
    var strike := StrikeBosses(w1.bosses, b);
    var w2 := w1.(bosses := strike.kept);
    var w3 := if strike.slain == [] then w2
              else w2.(inBossFight := false,
                       score := w2.score + BossScore * |strike.slain|,
                       nextBossMilestone := w2.nextBossMilestone + BossMilestoneStep * |strike.slain|,
                       supplies := w2.supplies + Drops(strike.slain, supplySize));
    ShotOutcome(w3, p.picks, !b.isLaser && (|hits| > 0 || strike.hit))
  }

  /** A bullet's pass keeps the game invariant. */
  lemma HitByShotKeepsInv(w: World, b: Bullet, picks: nat, pick: nat -> Upgrade, supplySize: Size)
    requires Inv(w)
    ensures Inv(HitByShot(w, b, picks, pick, supplySize).world)
  {
    var r := HitByShot(w, b, picks, pick, supplySize).world;
    var strike := StrikeBosses(w.bosses, b);
    StrikeBossesFrom(w.bosses, b);
    CollideSplit(b.rect, w.enemies, EnemyRect);
    forall e | e in strike.kept ensures e.isBoss && e.hp > 0 {
      var o :| o in w.bosses && e == Struck(o, b);
    }
    assert Valid(r.me);
    assert |r.bosses| <= 1;
    assert r.inBossFight <==> |r.bosses| == 1;
    assert r.inBossFight ==> r.enemies == [];
    assert forall e :: e in r.enemies ==> !e.isBoss;
  }

  /** During a boss fight, a bullet that brings the boss to 0 hp ends the fight:
      no boss is left, the score gains 2000, the milestone moves 5 levels on, and
      exactly one weapon supply appears at the boss's centre. */
  lemma BossDefeat(w: World, b: Bullet, picks: nat, pick: nat -> Upgrade, supplySize: Size)
    requires Inv(w) && w.inBossFight
    requires Overlaps(b.rect, w.bosses[0].rect) && w.bosses[0].hp <= b.damage
    ensures var r := HitByShot(w, b, picks, pick, supplySize).world;
      !r.inBossFight && r.bosses == [] && r.score == w.score + BossScore &&
      r.nextBossMilestone == w.nextBossMilestone + BossMilestoneStep &&
      r.supplies == w.supplies + [Supply(WeaponKit, CenteredAt(w.bosses[0].rect.CenterX(), w.bosses[0].rect.CenterY(), supplySize.w, supplySize.h))] &&
      Inv(r)
  {
    var strike := StrikeBosses(w.bosses, b);
    assert strike.kept + strike.slain == [Struck(w.bosses[0], b)];
    assert |strike.slain| == 1;
    assert strike.slain[..0] == [];
    assert w.enemies == [];
    HitByShotKeepsInv(w, b, picks, pick, supplySize);
  }

  /** A hit that leaves the boss above 0 hp takes exactly the bullet's damage
      off it, and the fight goes on. */
  lemma BossWithstands(w: World, b: Bullet, picks: nat, pick: nat -> Upgrade, supplySize: Size)
    requires Inv(w) && w.inBossFight
    requires Overlaps(b.rect, w.bosses[0].rect) && w.bosses[0].hp > b.damage
    ensures var r := HitByShot(w, b, picks, pick, supplySize).world;
      r.inBossFight && r.bosses == [w.bosses[0].(hp := w.bosses[0].hp - b.damage)] &&
      r.score == w.score && r.nextBossMilestone == w.nextBossMilestone && r.supplies == w.supplies
  {
    var strike := StrikeBosses(w.bosses, b);
    assert strike.kept + strike.slain == [Struck(w.bosses[0], b)];
    assert strike.slain == [];
    assert w.enemies == [];
  }

  datatype Sweep = Sweep(world: World, picks: nat)

  /** The bullets' passes in group order; `w.shots` collects the bullets that
      survive. */
  function ShotsPass(w: World, bs: seq<Bullet>, pick: nat -> Upgrade, supplySize: Size): (r: Sweep)
    ensures r.world.score >= w.score && r.world.me.level >= w.me.level
    ensures |r.world.shots| <= |w.shots| + |bs|
    ensures |r.world.enemies| <= |w.enemies|
    ensures r.world.meRect == w.meRect && r.world.enemyShots == w.enemyShots
    decreases |bs|
  {
    if bs == [] then Sweep(w, 0)
    else
      var sw := ShotsPass(w, bs[..|bs| - 1], pick, supplySize);
      var b := bs[|bs| - 1];
      var o := HitByShot(sw.world, b, sw.picks, pick, supplySize);
      Sweep(o.world.(shots := o.world.shots + (if o.spent then [] else [b])), o.picks)
  }

  lemma ShotsPassNext(w: World, bs: seq<Bullet>, i: nat, pick: nat -> Upgrade, supplySize: Size)
    requires i < |bs|
    ensures var sw := ShotsPass(w, bs[..i], pick, supplySize);
      var o := HitByShot(sw.world, bs[i], sw.picks, pick, supplySize);
      ShotsPass(w, bs[..i + 1], pick, supplySize) ==
        Sweep(o.world.(shots := o.world.shots + (if o.spent then [] else [bs[i]])), o.picks)
  {
    assert bs[..i + 1][..i] == bs[..i];
  }

  lemma {:induction false} ShotsPassKeepsInv(w: World, bs: seq<Bullet>, pick: nat -> Upgrade, supplySize: Size)
    requires Inv(w)
    ensures Inv(ShotsPass(w, bs, pick, supplySize).world)
    decreases |bs|
  {
    if bs != [] {
      ShotsPassKeepsInv(w, bs[..|bs| - 1], pick, supplySize);
      var sw := ShotsPass(w, bs[..|bs| - 1], pick, supplySize);
      HitByShotKeepsInv(sw.world, bs[|bs| - 1], sw.picks, pick, supplySize);
    }
  }

  /** Under the invariant, one bullet's pass scores 10 per enemy it removes and
      2000 if it ends the boss fight; it never starts a fight, and never spends a laser. */
  lemma HitByShotAccount(w: World, b: Bullet, picks: nat, pick: nat -> Upgrade, supplySize: Size)
    requires Inv(w)
    ensures var o := HitByShot(w, b, picks, pick, supplySize);
      (o.world.inBossFight ==> w.inBossFight) &&
      o.world.score == w.score + KillScore * (|w.enemies| - |o.world.enemies|) +
                       (if w.inBossFight && !o.world.inBossFight then BossScore else 0) &&
      o.world.shots == w.shots && (o.spent ==> !b.isLaser)
  {
    var strike := StrikeBosses(w.bosses, b);
    assert |strike.slain| <= 1;
    assert |strike.slain| == 1 ==> w.inBossFight;
  }

  /** Under the invariant, a sweep scores 10 per enemy removed and 2000 if it
      ended the boss fight, which never restarts within it. */
  lemma {:induction false} ShotsPassScore(w: World, bs: seq<Bullet>, pick: nat -> Upgrade, supplySize: Size)
    requires Inv(w)
    ensures var r := ShotsPass(w, bs, pick, supplySize).world;
      (r.inBossFight ==> w.inBossFight) &&
      r.score == w.score + KillScore * (|w.enemies| - |r.enemies|) +
                 (if w.inBossFight && !r.inBossFight then BossScore else 0)
    decreases |bs|
  {
    if bs != [] {
      var init := bs[..|bs| - 1];
      ShotsPassScore(w, init, pick, supplySize);
      ShotsPassKeepsInv(w, init, pick, supplySize);
      var sw := ShotsPass(w, init, pick, supplySize);
      HitByShotAccount(sw.world, bs[|bs| - 1], sw.picks, pick, supplySize);
    }
  }

  /** One bullet's pass only removes enemies, keeps each boss where it was, and
      spends the bullet only when it touches an enemy or a boss. */
  lemma HitByShotFrame(w: World, b: Bullet, picks: nat, pick: nat -> Upgrade, supplySize: Size)
    ensures var o := HitByShot(w, b, picks, pick, supplySize);
      (forall e :: e in o.world.enemies ==> e in w.enemies) &&
      (forall e :: e in o.world.bosses ==> exists x :: x in w.bosses && x.rect == e.rect) &&
      (((forall e :: e in w.enemies ==> !Overlaps(b.rect, e.rect)) &&
        (forall e :: e in w.bosses ==> !Overlaps(b.rect, e.rect))) ==> !o.spent)
  {
    var strike := StrikeBosses(w.bosses, b);
    CollideSplit(b.rect, w.enemies, EnemyRect);
    StrikeBossesFrom(w.bosses, b);
    forall e | e in strike.kept ensures exists x :: x in w.bosses && x.rect == e.rect {
      var x :| x in w.bosses && e == Struck(x, b);
    }
  }

  /** A sweep only removes enemies and keeps each boss where it was. */
  lemma {:induction false} ShotsPassFrame(w: World, bs: seq<Bullet>, pick: nat -> Upgrade, supplySize: Size)
    ensures var r := ShotsPass(w, bs, pick, supplySize).world;
      (forall e :: e in r.enemies ==> e in w.enemies) &&
      (forall e :: e in r.bosses ==> exists x :: x in w.bosses && x.rect == e.rect)
    decreases |bs|
  {
    if bs != [] {
      var init := bs[..|bs| - 1];
      ShotsPassFrame(w, init, pick, supplySize);
      var sw := ShotsPass(w, init, pick, supplySize);
      HitByShotFrame(sw.world, bs[|bs| - 1], sw.picks, pick, supplySize);
    }
  }

  /** A sweep keeps the old bullets and adds only bullets of `bs`: every laser
      among them, and every bullet that touches no enemy and no boss. */
  lemma {:induction false} ShotsPassBullets(w: World, bs: seq<Bullet>, pick: nat -> Upgrade, supplySize: Size)
    ensures var r := ShotsPass(w, bs, pick, supplySize).world;
      (forall x :: x in w.shots ==> x in r.shots) &&
      (forall x :: x in r.shots ==> x in w.shots || x in bs) &&
      (forall x :: x in bs && x.isLaser ==> x in r.shots) &&
      (forall x :: (x in bs && (forall e :: e in w.enemies ==> !Overlaps(x.rect, e.rect)) &&
                    (forall e :: e in w.bosses ==> !Overlaps(x.rect, e.rect))) ==> x in r.shots)
    decreases |bs|
  {
    if bs != [] {
      var init := bs[..|bs| - 1];
      var b := bs[|bs| - 1];
      ShotsPassBullets(w, init, pick, supplySize);
      var sw := ShotsPass(w, init, pick, supplySize);
      var o := HitByShot(sw.world, b, sw.picks, pick, supplySize);
      var r := ShotsPass(w, bs, pick, supplySize).world;
      assert o.world.shots == sw.world.shots;
      assert o.spent ==> !b.isLaser;
      assert r.shots == sw.world.shots + (if o.spent then [] else [b]);
      ShotsPassFrame(w, init, pick, supplySize);
      HitByShotFrame(sw.world, b, sw.picks, pick, supplySize);
      InLastSplit(bs);
    }
  }

  /** A member of a non-empty sequence is a member of its front or its last element. */
  lemma InLastSplit<T>(s: seq<T>)
    requires s != []
    ensures forall x :: x in s <==> x in s[..|s| - 1] || x == s[|s| - 1]
  {
    assert s == s[..|s| - 1] + [s[|s| - 1]];
  }

  /** The player's bullets, each in group order, against the enemies and bosses;
      the bullets that survive form the new group. */
  function BulletHits(w: World, pick: nat -> Upgrade, supplySize: Size): (r: World)
    ensures r.score >= w.score && |r.shots| <= |w.shots| && |r.enemies| <= |w.enemies|
    ensures r.me.level >= w.me.level
  {
    ShotsPass(w.(shots := []), w.shots, pick, supplySize).world
  }

  /** Under the invariant, the player's bullets score 10 per enemy they remove
      and 2000 if they end the boss fight; the surviving bullets are bullets of
      the group, and every laser and every bullet that touches no enemy and no
      boss survives. */
  lemma BulletHitsAccount(w: World, pick: nat -> Upgrade, supplySize: Size)
    requires Inv(w)
    ensures var r := BulletHits(w, pick, supplySize);
      (r.inBossFight ==> w.inBossFight) &&
      r.score == w.score + KillScore * (|w.enemies| - |r.enemies|) +
                 (if w.inBossFight && !r.inBossFight then BossScore else 0) &&
      (forall x :: x in r.shots ==> x in w.shots) &&
      (forall x :: x in w.shots && x.isLaser ==> x in r.shots) &&
      (forall x :: (x in w.shots && (forall e :: e in w.enemies ==> !Overlaps(x.rect, e.rect)) &&
                    (forall e :: e in w.bosses ==> !Overlaps(x.rect, e.rect))) ==> x in r.shots)
  {
    ShotsPassScore(w.(shots := []), w.shots, pick, supplySize);
    ShotsPassBullets(w.(shots := []), w.shots, pick, supplySize);
  }

  lemma BulletHitsKeepsInv(w: World, pick: nat -> Upgrade, supplySize: Size)
    requires Inv(w)
    ensures Inv(BulletHits(w, pick, supplySize))
  {
    ShotsPassKeepsInv(w.(shots := []), w.shots, pick, supplySize);
  }

  // ---------------------------------------------------------------- 6. the hit on the player

  predicate ShotTouching(w: World) {
    exists x :: x in w.enemyShots && Overlaps(w.meRect, x.rect)
  }

  predicate BodyTouching(w: World) {
    exists e :: e in w.enemies && Overlaps(w.meRect, e.rect)
  }

  /** Enemy bullets touching the ship are removed; only if there were none are
      the touching enemies removed instead. Either collision costs one 20-point
      hit, and a frame never costs more than one. */
  function PlayerHit(w: World): (r: World)
    ensures r.me == w.me || r.me == TakeHit(w.me)
    ensures r.enemyShots == Untouched(w.meRect, w.enemyShots, EnemyBulletRect)
    ensures r.enemies == w.enemies || r.enemies == Untouched(w.meRect, w.enemies, EnemyRect)
    ensures r.(me := w.me, enemies := w.enemies, enemyShots := w.enemyShots) == w
  {
    var shotHits := Touching(w.meRect, w.enemyShots, EnemyBulletRect);
    var w1 := w.(enemyShots := Untouched(w.meRect, w.enemyShots, EnemyBulletRect));
    if |shotHits| > 0 then w1.(me := TakeHit(w.me))
    else
      var bodyHits := Touching(w.meRect, w.enemies, EnemyRect);
      var w2 := w1.(enemies := Untouched(w.meRect, w.enemies, EnemyRect));
      if |bodyHits| > 0 then w2.(me := TakeHit(w.me)) else w2
  }

  /** The hit is taken exactly when an enemy bullet or an enemy touches the ship,
      and then hp plus shield drop by 20 (the shield is never negative); the
      touching enemies are removed only when no enemy bullet touched. */
  lemma PlayerHitCases(w: World)
    ensures var r := PlayerHit(w);
      (ShotTouching(w) || BodyTouching(w) ==> r.me == TakeHit(w.me)) &&
      (!ShotTouching(w) && !BodyTouching(w) ==> r.me == w.me) &&
      (w.me.shield >= 0.0 ==>
        r.me.hp + r.me.shield == w.me.hp + w.me.shield - (if ShotTouching(w) || BodyTouching(w) then HitDamage else 0.0)) &&
      (ShotTouching(w) ==> r.enemies == w.enemies) &&
      (!ShotTouching(w) ==> r.enemies == Untouched(w.meRect, w.enemies, EnemyRect))
  {
    CollideSplit(w.meRect, w.enemyShots, EnemyBulletRect);
    CollideSplit(w.meRect, w.enemies, EnemyRect);
  }

  lemma PlayerHitKeepsInv(w: World)
    requires Inv(w)
    ensures Inv(PlayerHit(w))
  {
    CollideSplit(w.meRect, w.enemies, EnemyRect);
  }

  // ---------------------------------------------------------------- 7. movement

  /** Every sprite moves one frame; those that left the screen are dropped. */
  function Move(w: World, inp: Input): (r: World)
    ensures r.me == Regen(w.me)
    ensures r.meRect == Steer(w.meRect, inp.right, inp.left, inp.down, inp.up)
    ensures w.meRect.w <= Width && w.meRect.h <= Height ==> r.meRect.Inside(Width, Height)
    ensures r.score == w.score && r.inBossFight == w.inBossFight && r.nextBossMilestone == w.nextBossMilestone
  {
    w.(me := Regen(w.me),
       meRect := Steer(w.meRect, inp.right, inp.left, inp.down, inp.up),
       enemies := MoveGroup(w.enemies, Advance, Expired),
       bosses := MoveGroup(w.bosses, Advance, Expired),
       shots := MoveGroup(w.shots, AdvanceBullet, BulletGone),
       enemyShots := MoveGroup(w.enemyShots, AdvanceEnemyBullet, EnemyBulletGone),
       supplies := MoveGroup(w.supplies, AdvanceSupply, SupplyGone))
  }

  /** After moving, no enemy that fell off the screen remains, every enemy that
      moved and stayed on it does, and the bosses, which never expire, have all
      moved in place. */
  lemma MoveShape(w: World, inp: Input)
    ensures var r := Move(w, inp);
      (forall e :: e in r.enemies ==> !Expired(e)) && |r.enemies| <= |w.enemies| &&
      (forall e :: e in w.enemies && !Expired(Advance(e)) ==> Advance(e) in r.enemies) &&
      ((forall e :: e in w.bosses ==> e.isBoss) ==>
        |r.bosses| == |w.bosses| && forall i :: 0 <= i < |w.bosses| ==> r.bosses[i] == Advance(w.bosses[i]))
  {
    MoveGroupShape(w.enemies, Advance, Expired);
    MoveGroupShape(w.bosses, Advance, Expired);
  }

  /** After moving, no bullet, enemy bullet or supply that left the screen
      remains, and every one that moved and stayed on it does. */
  lemma MoveProjectiles(w: World, inp: Input)
    ensures var r := Move(w, inp);
      (forall x :: x in r.shots ==> !BulletGone(x)) &&
      (forall x :: x in w.shots && !BulletGone(AdvanceBullet(x)) ==> AdvanceBullet(x) in r.shots) &&
      (forall x :: x in r.enemyShots ==> !EnemyBulletGone(x)) &&
      (forall x :: x in w.enemyShots && !EnemyBulletGone(AdvanceEnemyBullet(x)) ==> AdvanceEnemyBullet(x) in r.enemyShots) &&
      (forall x :: x in r.supplies ==> !SupplyGone(x)) &&
      (forall x :: x in w.supplies && !SupplyGone(AdvanceSupply(x)) ==> AdvanceSupply(x) in r.supplies)
  {
    MoveGroupShape(w.shots, AdvanceBullet, BulletGone);
    MoveGroupShape(w.enemyShots, AdvanceEnemyBullet, EnemyBulletGone);
    MoveGroupShape(w.supplies, AdvanceSupply, SupplyGone);
  }

  lemma MoveKeepsInv(w: World, inp: Input)
    requires Inv(w)
    ensures Inv(Move(w, inp))
  {
    var r := Move(w, inp);
    MoveShape(w, inp);
    MovedFrom(w.enemies, Advance, Expired);
    forall e | e in r.enemies ensures !e.isBoss {
      var o :| o in w.enemies && e == Advance(o);
    }
    forall e | e in r.bosses ensures e.isBoss && e.hp > 0 {
      var i :| 0 <= i < |r.bosses| && r.bosses[i] == e;
      assert w.bosses[i] in w.bosses;
    }
  }

  // ---------------------------------------------------------------- the frame

  /** One frame: the sections of the main loop in order. */
  function Step(w: World, inp: Input, sz: Sizes): (r: World)
    ensures r.score >= w.score && r.me.level >= w.me.level
  {
    var w1 := Spawn(w, inp, sz);
    var w2 := Fire(w1, inp);
    var w3 := EnemiesFire(w2, inp.now);
    var w4 := Pickups(w3);
    var w5 := BulletHits(w4, inp.pick, sz.supply);
    var w6 := PlayerHit(w5);
    Move(w6, inp)
  }

  /** Every frame keeps the invariant: from the start of the game, whatever
      happens, bullets stay between one and three, the fire interval at least
      120 ms, hp and shield within their maxima, and there is a boss exactly
      during a boss fight, with no other enemy beside it. */
  lemma StepKeepsInv(w: World, inp: Input, sz: Sizes)
    requires Inv(w)
    ensures Inv(Step(w, inp, sz))
  {
    var w1 := Spawn(w, inp, sz);
    SpawnKeepsInv(w, inp, sz);
    var w2 := Fire(w1, inp);
    FireKeepsInv(w1, inp);
    var w3 := EnemiesFire(w2, inp.now);
    EnemiesFireKeepsInv(w2, inp.now);
    var w4 := Pickups(w3);
    PickupsKeepsInv(w3);
    var w5 := BulletHits(w4, inp.pick, sz.supply);
    BulletHitsKeepsInv(w4, inp.pick, sz.supply);
    PlayerHitKeepsInv(w5);
    MoveKeepsInv(PlayerHit(w5), inp);
  }

  function Run(w: World, inputs: seq<Input>, sz: Sizes): World
    decreases |inputs|
  {
    if inputs == [] then w else Run(Step(w, inputs[0], sz), inputs[1..], sz)
  }

  /** Any run of frames from the start keeps the invariant. */
  lemma {:induction false} RunKeepsInv(w: World, inputs: seq<Input>, sz: Sizes)
    requires Inv(w)
    ensures Inv(Run(w, inputs, sz))
    decreases |inputs|
  {
    if inputs != [] {
      StepKeepsInv(w, inputs[0], sz);
      RunKeepsInv(Step(w, inputs[0], sz), inputs[1..], sz);
    }
  }
}
