/** The sprites other than the player, as values: normal and boss enemies, the
    player's bullets, enemy bullets and supplies; how each is created, how it
    moves in one frame, when it leaves the game, and how enemies fire. */
module Sprites {
  import opened Geometry
  import opened Rules
  import opened Progression

  /** A sprite's width and height (they depend on which images could be loaded). */
  datatype Size = Size(w: nat, h: nat)

  const BulletSize: Size := Size(10, 25)
  const LaserSize: Size := Size(20, 100)
  const EnemyBulletSize: Size := Size(16, 16)

  /** `speed` is the vertical step of a normal enemy and the horizontal step of a boss. */
  datatype Enemy = Enemy(isBoss: bool, hp: int, rect: Rect, speed: int, lastShot: int)
  datatype Bullet = Bullet(rect: Rect, isLaser: bool, damage: int)
  datatype EnemyBullet = EnemyBullet(rect: Rect)
  datatype Supply = Supply(kind: SupplyKind, rect: Rect)

  function EnemyRect(e: Enemy): Rect { e.rect }
  function EnemyBulletRect(b: EnemyBullet): Rect { b.rect }
  function SupplyRect(s: Supply): Rect { s.rect }

  // ---------------------------------------------------------------- creation

  /** A normal enemy entering above the top edge at column `x`, falling `speed`
      per frame, with its firing clock started at `now`. */
  function NewEnemy(x: int, speed: int, size: Size, now: int): (e: Enemy)
    ensures !e.isBoss && e.hp == 1 && e.speed == speed && e.lastShot == now
    ensures e.rect == Rect(x, EnemySpawnY, size.w, size.h)
  {
    Enemy(false, 1, Rect(x, EnemySpawnY, size.w, size.h), speed, now)
  }

  /** A boss sized for the player's current level, centred horizontally above the screen. */
  function NewBoss(level: int, size: Size, now: int): (e: Enemy)
    ensures e.isBoss && e.hp == BossBaseHp + BossHpPerLevel * level
    ensures e.rect.CenterX() == Width / 2 && e.rect.CenterY() == BossCenterY
    ensures e.rect.w == size.w && e.rect.h == size.h
    ensures e.speed == BossSpeed && e.lastShot == now
  {
    Enemy(true, BossBaseHp + level * BossHpPerLevel, CenteredAt(Width / 2, BossCenterY, size.w, size.h), BossSpeed, now)
  }

  function NewBullet(cx: int, cy: int, isLaser: bool): (b: Bullet)
    ensures b.isLaser == isLaser
    ensures b.damage == if isLaser then LaserDamage else BulletDamage
    ensures b.rect.CenterX() == cx && b.rect.CenterY() == cy
    ensures b.rect.w == (if isLaser then LaserSize.w else BulletSize.w)
    ensures b.rect.h == (if isLaser then LaserSize.h else BulletSize.h)
  {
    var size := if isLaser then LaserSize else BulletSize;
    Bullet(CenteredAt(cx, cy, size.w, size.h), isLaser, if isLaser then LaserDamage else BulletDamage)
  }

  /** The bullets of one player volley from a ship with bounds `at`: a single
      laser from the top centre, or one to three bullets spread by ShotOffsets. */
  function Volley(isLaser: bool, bulletCount: int, at: Rect): (r: seq<Bullet>)
    ensures isLaser ==>
      |r| == 1 && r[0].isLaser && r[0].damage == LaserDamage &&
      r[0].rect.CenterX() == at.CenterX() && r[0].rect.CenterY() == at.y &&
      r[0].rect.w == LaserSize.w && r[0].rect.h == LaserSize.h
    ensures !isLaser ==>
      |r| == |ShotOffsets(bulletCount)| &&
      forall i :: 0 <= i < |r| ==>
        !r[i].isLaser && r[i].damage == BulletDamage &&
        r[i].rect.CenterX() == at.CenterX() + ShotOffsets(bulletCount)[i] &&
        r[i].rect.CenterY() == at.y &&
        r[i].rect.w == BulletSize.w && r[i].rect.h == BulletSize.h
  {
    if isLaser then [NewBullet(at.CenterX(), at.y, true)]
    else
      var offsets := ShotOffsets(bulletCount);
      seq(|offsets|, i requires 0 <= i < |offsets| => NewBullet(at.CenterX() + offsets[i], at.y, false))
  }

  // ---------------------------------------------------------------- enemy fire

  function FireInterval(isBoss: bool): int {
    if isBoss then BossFireInterval else EnemyFireInterval
  }

  datatype Shooting = Shooting(enemy: Enemy, bullets: seq<EnemyBullet>)

  /** An enemy is due to fire once more than its interval (700 ms for a boss,
      2000 ms otherwise) has passed since its last shot. */
  predicate Due(e: Enemy, now: int) {
    now - e.lastShot > FireInterval(e.isBoss)
  }

  /** A due enemy fires one bullet straight down from its bottom centre;
      otherwise nothing happens. */
  function Shoot(e: Enemy, now: int): (r: Shooting)
    ensures |r.bullets| == (if Due(e, now) then 1 else 0)
    ensures |r.bullets| == 1 ==>
      r.enemy == e.(lastShot := now) &&
      r.bullets[0].rect.CenterX() == e.rect.CenterX() && r.bullets[0].rect.CenterY() == e.rect.Bottom() &&
      r.bullets[0].rect.w == EnemyBulletSize.w && r.bullets[0].rect.h == EnemyBulletSize.h
    ensures |r.bullets| == 0 ==> r.enemy == e
  {
    if Due(e, now) then
      var shot := EnemyBullet(CenteredAt(e.rect.CenterX(), e.rect.Bottom(), EnemyBulletSize.w, EnemyBulletSize.h));
      Shooting(e.(lastShot := now), [shot])
    else
      Shooting(e, [])
  }

  datatype Salvo = Salvo(enemies: seq<Enemy>, bullets: seq<EnemyBullet>)

  /** Every enemy of a group given its chance to fire, in group order. */
  function ShootAll(es: seq<Enemy>, now: int): (r: Salvo)
    ensures |r.enemies| == |es|
    ensures |r.bullets| <= |es|
    decreases |es|
  {
    if es == [] then Salvo([], [])
    else
      var done := ShootAll(es[..|es| - 1], now);
      var s := Shoot(es[|es| - 1], now);
      Salvo(done.enemies + [s.enemy], done.bullets + s.bullets)
  }

  /** How many enemies of a group are due to fire. */
  function CountDue(es: seq<Enemy>, now: int): nat
    decreases |es|
  {
    if es == [] then 0 else CountDue(es[..|es| - 1], now) + (if Due(es[|es| - 1], now) then 1 else 0)
  }

  /** A group fires one bullet per enemy that is due, and its bullets are exactly
      those its enemies' own shots fire. */
  lemma {:induction false} ShootAllFires(es: seq<Enemy>, now: int)
    ensures |ShootAll(es, now).bullets| == CountDue(es, now)
    ensures forall x :: x in ShootAll(es, now).bullets <==>
      exists i :: 0 <= i < |es| && x in Shoot(es[i], now).bullets
    decreases |es|
  {
    if es != [] {
      var init := es[..|es| - 1];
      ShootAllFires(init, now);
      forall x ensures x in ShootAll(es, now).bullets <==> exists i :: 0 <= i < |es| && x in Shoot(es[i], now).bullets {
        if x in ShootAll(init, now).bullets {
          var i :| 0 <= i < |init| && x in Shoot(init[i], now).bullets;
          assert es[i] == init[i];
        }
        if exists i :: 0 <= i < |es| && x in Shoot(es[i], now).bullets {
          var i :| 0 <= i < |es| && x in Shoot(es[i], now).bullets;
          if i < |init| {
            assert init[i] == es[i];
          }
        }
      }
    }
  }

  /** After a group has fired, each enemy is where it was, as its own Shoot left it. */
  lemma {:induction false} ShootAllInPlace(es: seq<Enemy>, now: int)
    ensures forall i :: 0 <= i < |es| ==> ShootAll(es, now).enemies[i] == Shoot(es[i], now).enemy
    decreases |es|
  {
    if es != [] {
      ShootAllInPlace(es[..|es| - 1], now);
    }
  }

  // ---------------------------------------------------------------- movement

  /** One frame of enemy movement. A boss sinks 2 while its top is above 120,
      moves sideways by its speed, and turns round once its left edge is below 0
      or its right edge past the screen width; a normal enemy falls by its speed. */
  function Advance(e: Enemy): (r: Enemy)
    ensures e.isBoss ==>
      r.rect.y == e.rect.y + (if e.rect.y < BossBand then BossDescent else 0) &&
      r.rect.x == e.rect.x + e.speed &&
      r.speed == (if r.rect.x < 0 || r.rect.Right() > Width then -e.speed else e.speed)
    ensures !e.isBoss ==> r.rect == e.rect.(y := e.rect.y + e.speed) && r.speed == e.speed
    ensures r.(rect := e.rect, speed := e.speed) == e
    ensures r.rect.w == e.rect.w && r.rect.h == e.rect.h
  {
    if e.isBoss then
      var y := if e.rect.y < BossBand then e.rect.y + BossDescent else e.rect.y;
      var moved := e.rect.(x := e.rect.x + e.speed, y := y);
      e.(rect := moved, speed := if moved.x < 0 || moved.Right() > Width then -e.speed else e.speed)
    else
      e.(rect := e.rect.(y := e.rect.y + e.speed))
  }

  /** A normal enemy leaves the game once its top edge is below the screen; a boss never does. */
  predicate Expired(e: Enemy) {
    !e.isBoss && e.rect.y > Height
  }

  function AdvanceTimes(e: Enemy, n: nat): Enemy
    decreases n
  {
    if n == 0 then e else Advance(AdvanceTimes(e, n - 1))
  }

  /** A normal enemy falls by exactly its speed every frame. */
  lemma {:induction false} EnemyFalls(e: Enemy, n: nat)
    requires !e.isBoss
    ensures AdvanceTimes(e, n) == e.(rect := e.rect.(y := e.rect.y + n * e.speed))
    decreases n
  {
    if n > 0 {
      EnemyFalls(e, n - 1);
      assert (n - 1) * e.speed + e.speed == n * e.speed;
    }
  }

  /** Where a boss can be: moving 2 sideways, its top at most 121, and at most
      one step beyond either side edge, already heading back in. */
  predicate OnTrack(e: Enemy) {
    e.isBoss && e.rect.w < Width &&
    (e.speed == BossSpeed || e.speed == -BossSpeed) &&
    e.rect.y < BossBand + BossDescent &&
    -BossSpeed <= e.rect.x && e.rect.Right() <= Width + BossSpeed &&
    (e.rect.x < 0 ==> e.speed > 0) &&
    (e.rect.Right() > Width ==> e.speed < 0)
  }

  /** A boss narrower than the screen starts on its track. */
  lemma NewBossOnTrack(level: int, size: Size, now: int)
    requires size.w < Width
    ensures OnTrack(NewBoss(level, size, now))
  {
  }

  /** However many frames pass, a boss stays on its track: it never sinks below
      the band under 122 and never strays more than one step past a side edge. */
  lemma {:induction false} BossStaysOnTrack(e: Enemy, n: nat)
    requires OnTrack(e)
    ensures OnTrack(AdvanceTimes(e, n))
    ensures AdvanceTimes(e, n).hp == e.hp
    decreases n
  {
    if n > 0 {
      BossStaysOnTrack(e, n - 1);
    }
  }

  /** A player bullet leaves the game once its bottom edge is above the screen. */
  predicate BulletGone(b: Bullet) { b.rect.Bottom() < 0 }

  /** One frame of a player bullet: it rises 18, keeping its size and damage, and
      leaves the game in the frame that starts with its bottom edge less than 18
      below the top of the screen. */
  function AdvanceBullet(b: Bullet): (r: Bullet)
    ensures r.(rect := b.rect) == b && r.rect == b.rect.(y := b.rect.y - BulletSpeed)
    ensures BulletGone(r) <==> b.rect.Bottom() < BulletSpeed
  {
    b.(rect := b.rect.(y := b.rect.y - BulletSpeed))
  }

  /** An enemy bullet or a supply leaves the game once its top edge is below the screen. */
  predicate EnemyBulletGone(b: EnemyBullet) { b.rect.y > Height }
  predicate SupplyGone(s: Supply) { s.rect.y > Height }

  /** One frame of an enemy bullet: it falls 6, keeping its size, and leaves the
      game in the frame that starts with its top edge less than 6 above the
      bottom of the screen. */
  function AdvanceEnemyBullet(b: EnemyBullet): (r: EnemyBullet)
    ensures r.rect == b.rect.(y := b.rect.y + EnemyBulletSpeed)
    ensures EnemyBulletGone(r) <==> b.rect.y > Height - EnemyBulletSpeed
  {
    b.(rect := b.rect.(y := b.rect.y + EnemyBulletSpeed))
  }

  /** One frame of a supply: it falls 2, keeping its kind and size, and leaves
      the game in the frame that starts with its top edge less than 2 above the
      bottom of the screen. */
  function AdvanceSupply(s: Supply): (r: Supply)
    ensures r.kind == s.kind && r.rect == s.rect.(y := s.rect.y + SupplySpeed)
    ensures SupplyGone(r) <==> s.rect.y > Height - SupplySpeed
  {
    s.(rect := s.rect.(y := s.rect.y + SupplySpeed))
  }

  // ---------------------------------------------------------------- groups

  /** One frame of a sprite group: every member moves, and those that have left
      the game are dropped; the order of the rest is kept. */
  function MoveGroup<T>(s: seq<T>, step: T -> T, gone: T -> bool): (r: seq<T>)
    decreases |s|
  {
    if s == [] then []
    else
      var rest := MoveGroup(s[1..], step, gone);
      var x := step(s[0]);
      if gone(x) then rest else [x] + rest
  }

  /** A moved group is no longer than before, keeps none of what has left the
      game and every moved member that has not; when nothing leaves, every
      member has moved in place. */
  lemma {:induction false} MoveGroupShape<T>(s: seq<T>, step: T -> T, gone: T -> bool)
    ensures var r := MoveGroup(s, step, gone);
      |r| <= |s| && (forall i :: 0 <= i < |r| ==> !gone(r[i])) &&
      (forall y :: y in s && !gone(step(y)) ==> step(y) in r) &&
      ((forall i :: 0 <= i < |s| ==> !gone(step(s[i]))) ==>
        |r| == |s| && forall i :: 0 <= i < |s| ==> r[i] == step(s[i]))
    decreases |s|
  {
    if s != [] {
      MoveGroupShape(s[1..], step, gone);
    }
  }

  /** Every member of a moved group is the step of a member of the group before. */
  lemma {:induction false} MovedFrom<T>(s: seq<T>, step: T -> T, gone: T -> bool)
    ensures forall x :: x in MoveGroup(s, step, gone) ==> exists y :: y in s && x == step(y)
    decreases |s|
  {
    if s != [] {
      MovedFrom(s[1..], step, gone);
      forall x | x in MoveGroup(s[1..], step, gone) ensures exists y :: y in s && x == step(y) {
        var y :| y in s[1..] && x == step(y);
        assert y in s;
      }
    }
  }

  /** The members of a group that overlap `r`, in group order: what a collision
      query against the group returns. */
  function Touching<T>(r: Rect, s: seq<T>, at: T -> Rect): (t: seq<T>)
    ensures |t| <= |s|
    decreases |s|
  {
    if s == [] then []
    else
      var rest := Touching(r, s[1..], at);
      if Overlaps(r, at(s[0])) then [s[0]] + rest else rest
  }

  /** The members of a group that do not overlap `r`, in group order: what is
      left of the group when the query also removes what it found. */
  function Untouched<T>(r: Rect, s: seq<T>, at: T -> Rect): (u: seq<T>)
    ensures |u| + |Touching(r, s, at)| == |s|
    decreases |s|
  {
    if s == [] then []
    else
      var rest := Untouched(r, s[1..], at);
      if Overlaps(r, at(s[0])) then rest else [s[0]] + rest
  }

  /** A collision query splits a group in two: it finds exactly the members
      that overlap `r` and leaves exactly the others, it finds nothing exactly when
      nothing overlaps, and then the group stays whole. */
  lemma {:induction false} CollideSplit<T>(r: Rect, s: seq<T>, at: T -> Rect)
    ensures forall x :: x in Touching(r, s, at) <==> x in s && Overlaps(r, at(x))
    ensures forall x :: x in Untouched(r, s, at) <==> x in s && !Overlaps(r, at(x))
    ensures |Touching(r, s, at)| == 0 <==> forall x :: x in s ==> !Overlaps(r, at(x))
    ensures (forall x :: x in s ==> !Overlaps(r, at(x))) ==> Untouched(r, s, at) == s
    decreases |s|
  {
    if s != [] {
      CollideSplit(r, s[1..], at);
      assert forall x :: x in s[1..] ==> x in s;
      assert s == [s[0]] + s[1..];
    }
  }
}
