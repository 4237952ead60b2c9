/** The main loop's state and one pass of it. The loop's locals (the sprite
    groups, the score, the boss-fight flag and the next milestone) are fields of
    a Game object; Tick runs the sections of one frame in order, each proved to
    do what the matching function of Simulation says. */
module Game {
  import opened Geometry
  import opened Rules
  import opened Progression
  import opened Sprites
  import opened PlayerSprite
  import opened Simulation

  /** The bullets of one player volley, built one by one as the main loop does. */
  method FireVolley(isLaser: bool, bulletCount: int, at: Rect) returns (volley: seq<Bullet>)
    ensures volley == Volley(isLaser, bulletCount, at)
  {
    if isLaser {
      volley := [NewBullet(at.CenterX(), at.y, true)];
    } else {
      var offsets := ShotOffsets(bulletCount);
      volley := [];
      for k := 0 to |offsets|
        invariant |volley| == k
        invariant forall j :: 0 <= j < k ==> volley[j] == NewBullet(at.CenterX() + offsets[j], at.y, false)
      {
        volley := volley + [NewBullet(at.CenterX() + offsets[k], at.y, false)];
      }
    }
  }

  /** Every enemy of a group in turn gets its chance to fire. */
  method ShootGroup(group: seq<Enemy>, now: int) returns (after: seq<Enemy>, fired: seq<EnemyBullet>)
    ensures Salvo(after, fired) == ShootAll(group, now)
  {
    after, fired := group, [];
    for i := 0 to |group|
      invariant |after| == |group|
      invariant after[..i] == ShootAll(group[..i], now).enemies
      invariant after[i..] == group[i..]
      invariant fired == ShootAll(group[..i], now).bullets
    {
      assert group[..i + 1][..i] == group[..i];
      var e := group[i];
      if now - e.lastShot > FireInterval(e.isBoss) {
        fired := fired + [EnemyBullet(CenteredAt(e.rect.CenterX(), e.rect.Bottom(), EnemyBulletSize.w, EnemyBulletSize.h))];
        after := after[i := e.(lastShot := now)];
      }
      assert after[..i + 1] == after[..i] + [after[i]];
    }
    assert group[..|group|] == group;
    assert after[..|group|] == after;
  }

  /** One bullet against the boss group: each boss it touches loses the
      bullet's damage; those brought to 0 hp or less are removed, and each leaves
      a weapon supply at its centre. */
  method StrikeGroup(group: seq<Enemy>, b: Bullet, supplySize: Size)
    returns (kept: seq<Enemy>, slain: nat, drops: seq<Supply>, hit: bool)
    ensures var s := StrikeBosses(group, b);
      kept == s.kept && slain == |s.slain| && drops == Drops(s.slain, supplySize) && hit == s.hit
  {
    kept, slain, drops, hit := [], 0, [], false;
    ghost var dead: seq<Enemy> := [];
    for k := 0 to |group|
      invariant Strike(kept, dead, hit) == StrikeBosses(group[..k], b)
      invariant slain == |dead|
      invariant drops == Drops(dead, supplySize)
    {
      assert group[..k + 1][..k] == group[..k];
      var boss := group[k];
      if Overlaps(b.rect, boss.rect) {
        boss := boss.(hp := boss.hp - b.damage);
        hit := true;
        if boss.hp <= 0 {
          slain := slain + 1;
          drops := drops + [Drop(boss, supplySize)];
          assert (dead + [boss])[..|dead|] == dead;
          dead := dead + [boss];
        } else {
          kept := kept + [boss];
        }
      } else {
        kept := kept + [boss];
      }
    }
    assert group[..|group|] == group;
  }

  class Game {
    const sizes: Sizes
    const player: Player
    var enemies: seq<Enemy>
    var bosses: seq<Enemy>
    var shots: seq<Bullet>
    var enemyShots: seq<EnemyBullet>
    var supplies: seq<Supply>
    var score: int
    var inBossFight: bool
    var nextBossMilestone: int

    /** The whole game state as a value. */
    function State(): World
      reads this, player
    {
      World(player.Stats(), player.rect, enemies, bosses, shots, enemyShots, supplies,
            score, inBossFight, nextBossMilestone)
    }

    ghost predicate Valid()
      reads this, player
    {
      Inv(State())
    }

    constructor (sizes: Sizes)
      ensures this.sizes == sizes && fresh(player)
      ensures State() == StartWorld(sizes) && Valid()
    {
      this.sizes := sizes;
      player := new Player(sizes.player.w, sizes.player.h);
      enemies, bosses, shots, enemyShots, supplies := [], [], [], [], [];
      score := 0;
      inBossFight := false;
      nextBossMilestone := FirstBossMilestone;
      new;
      StartWorldInv(sizes);
    }

    /** One frame. The quit request is honoured only after the frame completes;
        the game also stops once hp has fallen to 0 or below. */
    method Tick(inp: Input) returns (running: bool)
      requires Valid()
      modifies this, player
      ensures State() == Step(old(State()), inp, sizes)
      ensures Valid()
      ensures running <==> !inp.quit && player.hp > 0.0
    {
      running := !inp.quit;
      SpawnEnemies(inp);
      PlayerFire(inp);
      EnemiesShoot(inp.now);
      CollectSupplies();
      ResolveShots(inp.pick);
      PlayerCollisions();
      UpdateSprites(inp);
      StepKeepsInv(old(State()), inp, sizes);
      if player.hp <= 0.0 {
        running := false;
      }
    }

    /** Section 1: spawning and the start of a boss fight. */
    method SpawnEnemies(inp: Input)
      modifies this
      ensures State() == Spawn(old(State()), inp, sizes)
    {
      if !inBossFight {
        if inp.spawnRoll {
          enemies := enemies + [NewEnemy(inp.spawnX, inp.spawnSpeed, sizes.enemy, inp.now)];
        }
        if player.level >= nextBossMilestone {
          inBossFight := true;
          enemies := [];
          bosses := bosses + [NewBoss(player.level, sizes.boss, inp.now)];
        }
      }
    }

    /** Section 2: the player's volley. */
    method PlayerFire(inp: Input)
      modifies this, player
      ensures State() == Fire(old(State()), inp)
    {
      if inp.fire && inp.now - player.lastShot > player.fireRate {
        var volley := FireVolley(player.isLaser, player.bulletCount, player.rect);
        shots := shots + volley;
        player.lastShot := inp.now;
      }
    }

    /** Section 2, continued: normal enemies, then the boss, fire. */
    method EnemiesShoot(now: int)
      modifies this
      ensures State() == EnemiesFire(old(State()), now)
    {
      var firedByEnemies, firedByBosses;
      enemies, firedByEnemies := ShootGroup(enemies, now);
      bosses, firedByBosses := ShootGroup(bosses, now);
      enemyShots := enemyShots + firedByEnemies + firedByBosses;
    }

    /** Section 3a: supplies touching the ship are collected. */
    method CollectSupplies()
      modifies this, player
      ensures State() == Pickups(old(State()))
    {
      var got := Touching(player.rect, supplies, SupplyRect);
      supplies := Untouched(player.rect, supplies, SupplyRect);
      ghost var before := player.Stats();
      for j := 0 to |got|
        modifies player
        invariant player.Stats() == ApplySupplies(before, got[..j])
        invariant player.rect == old(player.rect)
      {
        assert got[..j + 1][..j] == got[..j];
        player.ApplySupply(got[j].kind);
      }
      assert got[..|got|] == got;
    }

    /** Section 3b: every player bullet, in group order, against the enemies
        and the boss; the bullets that are not spent stay in the group. */
    method ResolveShots(pick: nat -> Upgrade)
      modifies this, player
      ensures State() == BulletHits(old(State()), pick, sizes.supply)
    {
      ghost var start := State().(shots := []);
      var volleys := shots;
      shots := [];
      var picks := 0;
      for i := 0 to |volleys|
        invariant ShotsPass(start, volleys[..i], pick, sizes.supply) == Sweep(State(), picks)
      {
        picks := PassShot(start, volleys, i, picks, pick);
      }
      assert volleys[..|volleys|] == volleys;
    }

    /** The pass of bullet `volleys[i]`, after which it goes back into its group
        unless it was spent: the sweep over the bullets before it goes one bullet
        further. */
    method PassShot(ghost start: World, volleys: seq<Bullet>, i: nat, picks: nat, pick: nat -> Upgrade)
      returns (picksAfter: nat)
      requires i < |volleys|
      requires ShotsPass(start, volleys[..i], pick, sizes.supply) == Sweep(State(), picks)
      modifies this, player
      ensures ShotsPass(start, volleys[..i + 1], pick, sizes.supply) == Sweep(State(), picksAfter)
    {
      ShotsPassNext(start, volleys, i, pick, sizes.supply);
      var b := volleys[i];
      var spent;
      picksAfter, spent := ResolveShot(b, picks, pick);
      if !spent {
        shots := shots + [b];
      }
    }

    /** One bullet's pass: the enemies it touches die, each worth 10 points and
        35 experience (with the menu's choice on a level-up); then each boss it
        touches loses the bullet's damage and, at 0 hp or less, dies and ends the
        fight. `picks` counts the level-ups of this frame so far. */
    method ResolveShot(b: Bullet, picks: nat, pick: nat -> Upgrade) returns (picksAfter: nat, spent: bool)
      modifies this, player
      ensures var o := HitByShot(old(State()), b, picks, pick, sizes.supply);
        State() == o.world && picksAfter == o.picks && spent == o.spent
    {
      picksAfter, spent := ShootEnemies(b, picks, pick);
      var hitBoss := ShootBosses(b);
      if hitBoss && !b.isLaser {
        spent := true;
      }
    }

    /** The enemies one bullet touches die, each worth 10 points and 35
        experience; the bullet is spent if it is not a laser and killed any. */
    method ShootEnemies(b: Bullet, picks: nat, pick: nat -> Upgrade) returns (picksAfter: nat, spent: bool)
      modifies this, player
      ensures var kills := |Touching(b.rect, old(enemies), EnemyRect)|;
        var p := KillRewards(Progress(old(player.Stats()), picks), pick, kills);
        State() == old(State()).(enemies := Untouched(b.rect, old(enemies), EnemyRect), me := p.stats,
                                 score := old(score) + KillScore * kills) &&
        picksAfter == p.picks && spent == (!b.isLaser && kills > 0)
    {
      var hits := Touching(b.rect, enemies, EnemyRect);
      enemies := Untouched(b.rect, enemies, EnemyRect);
      var gained;
      gained, picksAfter, spent := RewardKills(|hits|, b.isLaser, picks, pick);
      score := score + gained;
    }

    /** Each boss one bullet touches loses the bullet's damage; a boss at 0 hp or
        less dies, ends the fight for 2000 points, moves the next milestone 5
        levels on and drops a weapon supply. Reports whether any boss was hit. */
    method ShootBosses(b: Bullet) returns (hitBoss: bool)
      modifies this
      ensures var strike := StrikeBosses(old(bosses), b);
        State() == old(State()).(bosses := strike.kept,
                                 inBossFight := old(inBossFight) && strike.slain == [],
                                 score := old(score) + BossScore * |strike.slain|,
                                 nextBossMilestone := old(nextBossMilestone) + BossMilestoneStep * |strike.slain|,
                                 supplies := old(supplies) + Drops(strike.slain, sizes.supply)) &&
        hitBoss == strike.hit
    {
      var kept, slain, drops;
      kept, slain, drops, hitBoss := StrikeGroup(bosses, b, sizes.supply);
      bosses := kept;
      if slain > 0 {
        inBossFight := false;
        score := score + BossScore * slain;
        nextBossMilestone := nextBossMilestone + BossMilestoneStep * slain;
        supplies := supplies + drops;
      }
    }

    /** The rewards for `kills` enemies slain by one bullet, one kill at a time:
        10 points each, 35 experience, and the menu on a level-up. */
    method RewardKills(kills: nat, isLaser: bool, picks: nat, pick: nat -> Upgrade)
      returns (gained: int, picksAfter: nat, spent: bool)
      modifies player
      ensures Progress(player.Stats(), picksAfter) == KillRewards(Progress(old(player.Stats()), picks), pick, kills)
      ensures player.rect == old(player.rect)
      ensures gained == KillScore * kills
      ensures spent == (!isLaser && kills > 0)
    {
      gained, picksAfter, spent := 0, picks, false;
      for j := 0 to kills
        invariant Progress(player.Stats(), picksAfter) == KillRewards(Progress(old(player.Stats()), picks), pick, j)
        invariant player.rect == old(player.rect)
        invariant gained == KillScore * j
        invariant spent == (!isLaser && j > 0)
      {
        gained := gained + KillScore;
        var leveled := player.GainXp(KillXp);
        if leveled {
          player.ApplyUpgrade(pick(picksAfter));
          picksAfter := picksAfter + 1;
        }
        if !isLaser {
          spent := true;
        }
      }
    }

    /** Section 3c: enemy bullets touching the ship, or failing those the enemies
        touching it, are removed and cost one hit. */
    method PlayerCollisions()
      modifies this, player
      ensures State() == PlayerHit(old(State()))
    {
      var shotHits := Touching(player.rect, enemyShots, EnemyBulletRect);
      enemyShots := Untouched(player.rect, enemyShots, EnemyBulletRect);
      var struck := |shotHits| > 0;
      if !struck {
        var bodyHits := Touching(player.rect, enemies, EnemyRect);
        enemies := Untouched(player.rect, enemies, EnemyRect);
        struck := |bodyHits| > 0;
      }
      if struck {
        player.TakeHit();
      }
    }

    /** Section 4: every sprite moves one frame. */
    method UpdateSprites(inp: Input)
      modifies this, player
      ensures State() == Move(old(State()), inp)
    {
      player.Update(inp.right, inp.left, inp.down, inp.up);
      enemies := MoveGroup(enemies, Advance, Expired);
      bosses := MoveGroup(bosses, Advance, Expired);
      shots := MoveGroup(shots, AdvanceBullet, BulletGone);
      enemyShots := MoveGroup(enemyShots, AdvanceEnemyBullet, EnemyBulletGone);
      supplies := MoveGroup(supplies, AdvanceSupply, SupplyGone);
    }
  }
}
