/** The base defence (`DefenseGameEngine` in js/defenseGame.js): soldiers and tanks march
    from the right towards a base line at x = 50; the player's turret at (50, 200) shoots
    bullets on a click and missiles on the space bar, AI turrets gained at each level shoot
    at the nearest enemy, and an enemy that reaches the line costs the base its damage. The
    game ends when the base is down to zero. */
module DefenseGame {
  import opened Common

  datatype Kind = Soldier | Tank

  /** An enemy: only its position and remaining hit points change. */
  datatype Enemy = Enemy(kind: Kind, x: real, y: real, speed: real, hp: int)

  /** A projectile; `size` is its radius. */
  datatype Projectile = Projectile(x: real, y: real, vx: real, vy: real, size: real, isMissile: bool)

  /** An AI turret: where it stands and when it may fire next. */
  datatype Turret = Turret(x: real, y: real, lastFireTime: int, fireInterval: int)

  /** A firing direction, `(cos angle, sin angle)` of the turret's angle. */
  datatype Heading = Heading(c: real, s: real)

  predicate Unit(h: Heading) { h.c * h.c + h.s * h.s == 1.0 }

  predicate Headings(aim: seq<Heading>)
  {
    forall k :: 0 <= k < |aim| ==> Unit(aim[k])
  }

  const Width := 400.0
  const Height := 400.0
  /** The base line: an enemy left of it has broken through. */
  const BaseLine := 50.0
  /** The player's turret. */
  const TurretX := 50.0
  const TurretY := 200.0

  /** The per-type constants of `spawnEnemy`. */
  function Size(k: Kind): real { if k == Tank then 20.0 else 10.0 }
  function Damage(k: Kind): int { if k == Tank then 20 else 10 }
  function Worth(k: Kind): int { if k == Tank then 50 else 10 }

  /** The state `update` and the handlers work on. */
  datatype Game = Game(
    score: int, level: int, scoreForNextLevel: int, active: bool,
    aiTurrets: seq<Turret>, projectiles: seq<Projectile>, enemies: seq<Enemy>,
    baseHP: int, missileCount: int, lastMissileAwardScore: int,
    spawnTimer: real, spawnInterval: int)

  /** What every operation keeps: the next level is always 150 points per level away, the
      base has between 0 and 100 points, the missile mark never runs ahead of the score,
      and the spawn interval stays at 500 ms or more. */
  predicate Valid(g: Game)
  {
    && g.score >= 0 && g.level >= 1 && g.scoreForNextLevel == 150 * g.level
    && 0 <= g.baseHP <= 100 && g.missileCount >= 0
    && 0 <= g.lastMissileAwardScore <= g.score
    && g.spawnInterval >= 500
  }

  /** A projectile leaving the turret along `h`, `offset` px out, at `speed` px per second. */
  function Launched(x: real, y: real, h: Heading, offset: real, speed: real, size: real, missile: bool): Projectile
  {
    Projectile(x + h.c * offset, y + h.s * offset, h.c * speed, h.s * speed, size, missile)
  }

  /** `shoot(this.turret)` on a mouse click, only while the game runs: a 5 px bullet at
      400 px per second. */
  function Click(g: Game, h: Heading): (r: Game)
    ensures !g.active ==> r == g
    ensures g.active ==> r == g.(projectiles := g.projectiles + [Launched(TurretX, TurretY, h, 20.0, 400.0, 5.0, false)])
  {
    if !g.active then g
    else g.(projectiles := g.projectiles + [Launched(TurretX, TurretY, h, 20.0, 400.0, 5.0, false)])
  }

  /** `fireMissile`: nothing without missiles; otherwise one is spent and a 10 px missile
      leaves at 600 px per second. */
  function Missile(g: Game, h: Heading): (r: Game)
    requires Valid(g)
    ensures Valid(r)
    ensures g.missileCount <= 0 ==> r == g
    ensures g.missileCount > 0 ==>
      && r.missileCount == g.missileCount - 1
      && |r.projectiles| == |g.projectiles| + 1 && r.projectiles[..|g.projectiles|] == g.projectiles
      && r.projectiles[|g.projectiles|].isMissile
      && r == g.(missileCount := r.missileCount, projectiles := r.projectiles)
  {
    if g.missileCount <= 0 then g
    else g.(missileCount := g.missileCount - 1,
            projectiles := g.projectiles + [Launched(TurretX, TurretY, h, 30.0, 600.0, 10.0, true)])
  }

  /** The keydown handler: the space bar fires a missile while the game runs. */
  function KeyDown(g: Game, code: string, h: Heading): (r: Game)
    requires Valid(g)
    ensures Valid(r)
    ensures !g.active || code != "Space" ==> r == g
    ensures r.missileCount >= g.missileCount - 1
  {
    if !g.active then g else if code == "Space" then Missile(g, h) else g
  }

  /** `x - 320 * floor(x / 320)`: the remainder `%` leaves for a non-negative `x`. */
  function Mod320(x: real): (r: real)
    requires x >= 0.0
    ensures 0.0 <= r < 320.0
  {
    x - 320.0 * (x / 320.0).Floor as real
  }

  /** `levelUp` at time `now`: one more level, the next one 150 points further, and one new
      AI turret on the base line whose fire interval shrinks by 50 ms per level. */
  function LevelUp(g: Game, now: int): (r: Game)
    requires Valid(g)
    ensures Valid(r)
    ensures r.level == g.level + 1 && r.scoreForNextLevel == g.scoreForNextLevel + 150
    ensures |r.aiTurrets| == |g.aiTurrets| + 1 && r.aiTurrets[..|g.aiTurrets|] == g.aiTurrets
    ensures var t := r.aiTurrets[|g.aiTurrets|];
      t.x == BaseLine && 40.0 <= t.y < 360.0 && t.lastFireTime == now && t.fireInterval == 1500 - r.level * 50
    ensures r == g.(level := r.level, scoreForNextLevel := r.scoreForNextLevel, aiTurrets := r.aiTurrets)
  {
    var level := g.level + 1;
    g.(level := level, scoreForNextLevel := g.scoreForNextLevel + 150,
       aiTurrets := g.aiTurrets + [Turret(BaseLine, Slot(|g.aiTurrets|, level), now, 1500 - level * 50)])
  }

  /** The height of the `n`-th AI turret placed at `level`: `40 + (n * spacing) % 320`
      with `spacing = 320 / max(1, level - 1)`; always on the field's middle band. */
  function Slot(n: nat, level: int): (y: real)
    ensures 40.0 <= y < 360.0
  {
    40.0 + Mod320(n as real * (320.0 / MaxI(1, level - 1) as real))
  }

  /** The missile check of `update`: one missile each time the score passes the next
      multiple of 400 since the last award. */
  function Award(g: Game): (r: Game)
    requires Valid(g)
    ensures Valid(r)
    ensures g.score >= g.lastMissileAwardScore + 400 ==>
      r == g.(missileCount := g.missileCount + 1, lastMissileAwardScore := g.lastMissileAwardScore + 400)
    ensures g.score < g.lastMissileAwardScore + 400 ==> r == g
  {
    if g.score >= g.lastMissileAwardScore + 400
    then g.(missileCount := g.missileCount + 1, lastMissileAwardScore := g.lastMissileAwardScore + 400)
    else g
  }

  /** `spawnEnemy` at `level` for the draws `d`: a tank below 0.2, else a soldier, at a
      height in [30, 370), 15 % faster per level. */
  function SpawnedEnemy(level: int, d: seq<real>): (e: Enemy)
    requires |d| >= 2 && AllDraws(d) && level >= 1
    ensures e.kind == Tank <==> d[0] < 0.2
    ensures e.kind == Tank ==> e.hp == 3 && Damage(e.kind) == 20 && Worth(e.kind) == 50 && e.x == Width + 50.0
    ensures e.kind == Soldier ==> e.hp == 1 && Damage(e.kind) == 10 && Worth(e.kind) == 10 && e.x == Width + 20.0
    ensures 30.0 <= e.y < 370.0 && e.speed > 0.0
  {
    var y := d[1] * (Height - 60.0) + 30.0;
    var boost := 1.0 + (level - 1) as real * 0.15;
    if d[0] < 0.2 then Enemy(Tank, Width + 50.0, y, 30.0 * boost, 3)
    else Enemy(Soldier, Width + 20.0, y, 80.0 * boost, 1)
  }

  /** The spawn timer of `update`, `dt` seconds on: once more than the interval has
      gathered, an enemy is spawned, the timer restarts and the interval becomes
      `max(500, 2000 - 150 level)`. */
  function Tick(g: Game, dt: real, d: seq<real>): (r: Game)
    requires Valid(g) && |d| >= 2 && AllDraws(d)
    ensures Valid(r)
    ensures r == g.(enemies := r.enemies, spawnTimer := r.spawnTimer, spawnInterval := r.spawnInterval)
    ensures g.spawnTimer + dt * 1000.0 > g.spawnInterval as real ==>
      && r.enemies == g.enemies + [SpawnedEnemy(g.level, d)]
      && r.spawnTimer == 0.0 && r.spawnInterval == MaxI(500, 2000 - g.level * 150)
    ensures g.spawnTimer + dt * 1000.0 <= g.spawnInterval as real ==>
      r == g.(spawnTimer := g.spawnTimer + dt * 1000.0)
  {
    var timer := g.spawnTimer + dt * 1000.0;
    if timer > g.spawnInterval as real
    then g.(enemies := g.enemies + [SpawnedEnemy(g.level, d)], spawnTimer := 0.0,
            spawnInterval := MaxI(500, 2000 - g.level * 150))
    else g.(spawnTimer := timer)
  }

  /** The squared distance from a turret to an enemy (`Math.hypot`, squared). */
  function Dist2(t: Turret, e: Enemy): real
  {
    (e.x - t.x) * (e.x - t.x) + (e.y - t.y) * (e.y - t.y)
  }

  /** One turret of `updateAITurrets`, the one at `k`: when there is any enemy to aim at
      (the nearest one, along `h`) and its interval has passed, it shoots a bullet and its
      clock restarts at `now`. */
  function Aim(g: Game, k: nat, now: int, h: Heading): (r: Game)
    requires k < |g.aiTurrets| && Valid(g)
    ensures Valid(r) && |r.aiTurrets| == |g.aiTurrets|
    ensures r == g.(aiTurrets := r.aiTurrets, projectiles := r.projectiles)
    ensures |r.projectiles| <= |g.projectiles| + 1
  {
    var t := g.aiTurrets[k];
    if |g.enemies| == 0 || now - t.lastFireTime <= t.fireInterval then g
    else g.(projectiles := g.projectiles + [Launched(t.x, t.y, h, 20.0, 400.0, 5.0, false)],
            aiTurrets := g.aiTurrets[k := t.(lastFireTime := now)])
  }

  /** `updateAITurrets`, turrets `k` on, turret `m` aiming along `aim[m]`. */
  function Sweep(g: Game, k: nat, now: int, aim: seq<Heading>): (r: Game)
    requires k <= |g.aiTurrets| <= |aim| && Valid(g)
    ensures Valid(r) && |r.aiTurrets| == |g.aiTurrets|
    ensures r == g.(aiTurrets := r.aiTurrets, projectiles := r.projectiles)
    decreases |g.aiTurrets| - k
  {
    if k == |g.aiTurrets| then g else Sweep(Aim(g, k, now, aim[k]), k + 1, now, aim)
  }

  /** With nothing to aim at, no turret fires. */
  lemma {:induction false} NoTargetNoFire(g: Game, k: nat, now: int, aim: seq<Heading>)
    requires k <= |g.aiTurrets| <= |aim| && Valid(g) && |g.enemies| == 0
    ensures Sweep(g, k, now, aim) == g
    decreases |g.aiTurrets| - k
  {
    if k < |g.aiTurrets| {
      NoTargetNoFire(g, k + 1, now, aim);
    }
  }

  /** Whether a projectile has left the field. */
  predicate Outside(p: Projectile)
  {
    p.x > Width || p.x < 0.0 || p.y > Height || p.y < 0.0
  }

  /** A projectile `dt` seconds on. */
  function Flown(p: Projectile, dt: real): Projectile
  {
    p.(x := p.x + p.vx * dt, y := p.y + p.vy * dt)
  }

  /** One projectile of the loop of `update`, the one at `i-1`: it flies on and is spliced
      out once outside the field. */
  function Move(g: Game, i: nat, dt: real): (r: Game)
    requires 0 < i <= |g.projectiles|
    ensures |r.projectiles| >= i - 1 && r.projectiles[..i - 1] == g.projectiles[..i - 1]
    ensures r == g.(projectiles := r.projectiles)
    ensures r.projectiles[i - 1..] == (if Outside(Flown(g.projectiles[i - 1], dt)) then [] else [Flown(g.projectiles[i - 1], dt)])
                                      + g.projectiles[i..]
  {
    var p := Flown(g.projectiles[i - 1], dt);
    if Outside(p) then g.(projectiles := Remove(g.projectiles, i - 1))
    else g.(projectiles := g.projectiles[i - 1 := p])
  }

  /** The projectile loop of `update`: projectiles `i-1` down to `0`. */
  function Travel(g: Game, i: nat, dt: real): (r: Game)
    requires i <= |g.projectiles|
    ensures r == g.(projectiles := r.projectiles)
    decreases i
  {
    if i == 0 then g else Travel(Move(g, i, dt), i - 1, dt)
  }

  /** After the projectile loop every projectile it moved is inside the field. */
  lemma {:induction false} TravelKeepsInside(g: Game, i: nat, dt: real)
    requires i <= |g.projectiles|
    requires forall k :: i <= k < |g.projectiles| ==> !Outside(g.projectiles[k])
    ensures forall k :: 0 <= k < |Travel(g, i, dt).projectiles| ==> !Outside(Travel(g, i, dt).projectiles[k])
    decreases i
  {
    if i > 0 {
      var h := Move(g, i, dt);
      assert forall k :: i - 1 <= k < |h.projectiles| ==> !Outside(h.projectiles[k]) by {
        assert h.projectiles[i - 1..] == (if Outside(Flown(g.projectiles[i - 1], dt)) then [] else [Flown(g.projectiles[i - 1], dt)])
                                         + g.projectiles[i..];
        forall k | i - 1 <= k < |h.projectiles|
          ensures !Outside(h.projectiles[k])
        {
          assert h.projectiles[k] == h.projectiles[i - 1..][k - (i - 1)];
        }
      }
      TravelKeepsInside(h, i - 1, dt);
    }
  }

  /** `Math.hypot(p.x - e.x, p.y - e.y) < e.size + p.size`, on squared distances. */
  predicate Touching(p: Projectile, e: Enemy)
  {
    (p.x - e.x) * (p.x - e.x) + (p.y - e.y) * (p.y - e.y) < (Size(e.kind) + p.size) * (Size(e.kind) + p.size)
  }

  /** The projectile search of the enemy loop: the highest index below `j` whose projectile
      touches `e`. */
  function LastTouch(ps: seq<Projectile>, e: Enemy, j: nat): (t: Option<nat>)
    requires j <= |ps|
    ensures t.Some? ==> t.value < j && Touching(ps[t.value], e)
    ensures t.Some? ==> forall m :: t.value < m < j ==> !Touching(ps[m], e)
    ensures t.None? ==> forall m :: 0 <= m < j ==> !Touching(ps[m], e)
    decreases j
  {
    if j == 0 then None
    else if Touching(ps[j - 1], e) then Some(j - 1)
    else LastTouch(ps, e, j - 1)
  }

  /** An enemy `dt` seconds on. */
  function Marched(e: Enemy, dt: real): Enemy
  {
    e.(x := e.x - e.speed * dt)
  }

  /** An enemy at `k` (already moved, `e`) reaches the base: the base loses its damage,
      never going below zero, the enemy is spliced out, and a base at zero ends the game. */
  function Breach(g: Game, k: nat, e: Enemy): (r: Game)
    requires k < |g.enemies| && Valid(g)
    ensures Valid(r)
    ensures r.baseHP == MaxI(0, g.baseHP - Damage(e.kind)) && r.enemies == Remove(g.enemies, k)
    ensures r.active == (g.active && g.baseHP - Damage(e.kind) > 0)
    ensures r == g.(baseHP := r.baseHP, enemies := r.enemies, active := r.active)
  {
    var hp := g.baseHP - Damage(e.kind);
    if hp <= 0 then g.(baseHP := 0, enemies := Remove(g.enemies, k), active := false)
    else g.(baseHP := hp, enemies := Remove(g.enemies, k))
  }

  /** A bullet at `j` hits the enemy at `k` (already moved, `e`): the enemy loses one hit
      point and the bullet is spliced out; an enemy at zero is spliced out and pays its
      value. */
  function BulletHit(g: Game, k: nat, e: Enemy, j: nat): (r: Game)
    requires k < |g.enemies| && j < |g.projectiles| && Valid(g)
    ensures Valid(r)
    ensures r.projectiles == Remove(g.projectiles, j)
    ensures e.hp - 1 <= 0 ==> r.score == g.score + Worth(e.kind) && r.enemies == Remove(g.enemies, k)
    ensures e.hp - 1 > 0 ==> r.score == g.score && r.enemies == g.enemies[k := e.(hp := e.hp - 1)]
    ensures r == g.(projectiles := r.projectiles, score := r.score, enemies := r.enemies)
  {
    var g1 := g.(projectiles := Remove(g.projectiles, j));
    if e.hp - 1 <= 0 then g1.(score := g.score + Worth(e.kind), enemies := Remove(g.enemies, k))
    else g1.(enemies := g.enemies[k := e.(hp := e.hp - 1)])
  }

  /** `Math.hypot(e.x - x, e.y - y) < 80`, on squared distances. */
  predicate InBlast(e: Enemy, x: real, y: real)
  {
    (e.x - x) * (e.x - x) + (e.y - y) * (e.y - y) < 6400.0
  }

  /** What is left of `es` after a blast at `(x, y)`: every enemy in reach loses 10 hit
      points and those at zero are gone. */
  function Blasted(es: seq<Enemy>, x: real, y: real): (r: seq<Enemy>)
    ensures |r| <= |es|
  {
    if es == [] then []
    else
      var e := es[0];
      var rest := Blasted(es[1..], x, y);
      if !InBlast(e, x, y) then [e] + rest
      else if e.hp - 10 <= 0 then rest
      else [e.(hp := e.hp - 10)] + rest
  }

  /** The points a blast at `(x, y)` pays: the value of each enemy it finishes. */
  function Bounty(es: seq<Enemy>, x: real, y: real): (b: int)
    ensures b >= 0
  {
    if es == [] then 0
    else
      var e := es[0];
      (if InBlast(e, x, y) && e.hp - 10 <= 0 then Worth(e.kind) else 0) + Bounty(es[1..], x, y)
  }

  /** The value of a list of enemies. */
  function Total(es: seq<Enemy>): int
  {
    if es == [] then 0 else Worth(es[0].kind) + Total(es[1..])
  }

  /** A blast pays each enemy it finishes exactly once: the score plus the value still on
      the field is the same before and after. */
  lemma {:induction false} BlastPaysOnce(es: seq<Enemy>, x: real, y: real)
    ensures Bounty(es, x, y) + Total(Blasted(es, x, y)) == Total(es)
  {
    if es != [] {
      BlastPaysOnce(es[1..], x, y);
      var e := es[0];
      var rest := Blasted(es[1..], x, y);
      if !InBlast(e, x, y) {
        assert ([e] + rest)[1..] == rest;
      } else if e.hp - 10 > 0 {
        assert ([e.(hp := e.hp - 10)] + rest)[1..] == rest;
      }
    }
  }

  /** `explodeMissile(x, y)`. */
  function Explode(g: Game, x: real, y: real): (r: Game)
    requires Valid(g)
    ensures Valid(r) && r.score >= g.score
    ensures r.score + Total(r.enemies) == g.score + Total(g.enemies)
    ensures r == g.(enemies := r.enemies, score := r.score)
  {
    BlastPaysOnce(g.enemies, x, y);
    g.(enemies := Blasted(g.enemies, x, y), score := g.score + Bounty(g.enemies, x, y))
  }

  /** A missile at `j` hits an enemy: it explodes and is spliced out. The explosion already
      finishes and pays for the enemy it touched (see `MissileHitAsWritten`). */
  function MissileHit(g: Game, j: nat): (r: Game)
    requires j < |g.projectiles| && Valid(g)
    ensures Valid(r)
    ensures r.projectiles == Remove(g.projectiles, j)
    ensures r.score + Total(r.enemies) == g.score + Total(g.enemies)
    ensures r == g.(projectiles := r.projectiles, enemies := r.enemies, score := r.score)
  {
    var p := g.projectiles[j];
    Explode(g, p.x, p.y).(projectiles := Remove(g.projectiles, j))
  }

  /** The missile branch as written: after the explosion the loop looks again at the enemy
      object it holds, whose hit points the explosion has already lowered, pays its value a
      second time, and splices out whatever enemy is now at index `k`. */
  function MissileHitAsWritten(g: Game, k: nat, j: nat): (r: Game)
    requires k < |g.enemies| && j < |g.projectiles| && Valid(g)
    ensures Valid(r)
  {
    var e := g.enemies[k];
    var p := g.projectiles[j];
    var g1 := MissileHit(g, j);
    var hp := if InBlast(e, p.x, p.y) then e.hp - 10 else e.hp;
    if hp <= 0
    then g1.(score := g1.score + Worth(e.kind), enemies := if k < |g1.enemies| then Remove(g1.enemies, k) else g1.enemies)
    else g1
  }

  /** A missile on top of a soldier (worth 10) at index 0, with a second soldier far away
      at index 1: as written the hit scores 20 and the far soldier vanishes unpaid; the
      corrected branch scores 10 and keeps it. */
  lemma MissileScoresTwice()
    ensures var near, far := Enemy(Soldier, 100.0, 100.0, 80.0, 1), Enemy(Soldier, 300.0, 300.0, 80.0, 1);
      var g := Game(0, 1, 150, true, [], [Projectile(100.0, 100.0, 0.0, 0.0, 10.0, true)],
                    [near, far], 100, 0, 0, 0.0, 2000);
      && Touching(g.projectiles[0], near)
      && MissileHitAsWritten(g, 0, 0).score == 20 && MissileHitAsWritten(g, 0, 0).enemies == []
      && MissileHit(g, 0).score == 10 && MissileHit(g, 0).enemies == [far]
  {
    var near, far := Enemy(Soldier, 100.0, 100.0, 80.0, 1), Enemy(Soldier, 300.0, 300.0, 80.0, 1);
    var es := [near, far];
    assert es[1..] == [far] && es[1..][1..] == [];
    assert Blasted([far], 100.0, 100.0) == [far];
    assert Blasted(es, 100.0, 100.0) == [far];
    assert Bounty([far], 100.0, 100.0) == 0;
    assert Bounty(es, 100.0, 100.0) == 10;
  }

  /** One enemy of the loop of `update`, the one at `i-1`: it marches on; past the base line
      it breaches; otherwise the last projectile in the list touching it hits it (a bullet
      for one hit point, a missile by its explosion). */
  function Guard(g: Game, i: nat, dt: real): (r: Game)
    requires 0 < i <= |g.enemies| && Valid(g)
    ensures Valid(r) && r.score >= g.score && (r.active ==> g.active)
    ensures r.baseHP == 0 ==> !r.active || g.baseHP == 0
    ensures r == g.(enemies := r.enemies, projectiles := r.projectiles, score := r.score,
                    baseHP := r.baseHP, active := r.active)
  {
    var e := Marched(g.enemies[i - 1], dt);
    if e.x < BaseLine then Breach(g, i - 1, e)
    else
      var t := LastTouch(g.projectiles, e, |g.projectiles|);
      if t.None? then g.(enemies := g.enemies[i - 1 := e])
      else if g.projectiles[t.value].isMissile then MissileHit(g.(enemies := g.enemies[i - 1 := e]), t.value)
      else BulletHit(g, i - 1, e, t.value)
  }

  /** The enemy loop of `update`: indices `i-1` down to `0`, skipping any index a missile
      explosion has already put past the end of the list. */
  function Defend(g: Game, i: nat, dt: real): (r: Game)
    requires Valid(g)
    ensures Valid(r) && r.score >= g.score && (r.active ==> g.active)
    ensures r.baseHP == 0 ==> !r.active || g.baseHP == 0
    ensures r == g.(enemies := r.enemies, projectiles := r.projectiles, score := r.score,
                    baseHP := r.baseHP, active := r.active)
    decreases i
  {
    if i == 0 then g
    else Defend(if i - 1 < |g.enemies| then Guard(g, i, dt) else g, i - 1, dt)
  }

  /** A whole `update(dt)` at time `now`: the level and missile checks, the spawn timer (with
      the draws `d`), the AI turrets (turret `m` aiming along `aim[m]`), then projectiles and
      enemies. */
  function Frame(g: Game, dt: real, now: int, d: seq<real>, aim: seq<Heading>): (r: Game)
    requires Valid(g) && |d| >= 2 && AllDraws(d) && |aim| > |g.aiTurrets| && Headings(aim)
    ensures Valid(r) && r.score >= g.score
    ensures r.level == g.level + (if g.score >= g.scoreForNextLevel then 1 else 0)
    ensures |r.aiTurrets| == |g.aiTurrets| + (r.level - g.level)
    ensures r.missileCount == g.missileCount + (if g.score >= g.lastMissileAwardScore + 400 then 1 else 0)
    ensures r.active ==> g.active
  {
    var g1 := if g.score >= g.scoreForNextLevel then LevelUp(g, now) else g;
    var g2 := Award(g1);
    var g3 := Tick(g2, dt, d);
    var g4 := Sweep(g3, 0, now, aim);
    var g5 := Travel(g4, |g4.projectiles|, dt);
    Defend(g5, |g5.enemies|, dt)
  }

  class DefenseGameEngine {
    var score: int
    var level: int
    var scoreForNextLevel: int
    var isGameActive: bool
    var aiTurrets: seq<Turret>
    var projectiles: seq<Projectile>
    var enemies: seq<Enemy>
    var baseHP: int
    var missileCount: int
    var lastMissileAwardScore: int
    var spawnTimer: real
    var spawnInterval: int

    function Model(): Game
      reads this
    {
      Game(score, level, scoreForNextLevel, isGameActive, aiTurrets, projectiles, enemies,
           baseHP, missileCount, lastMissileAwardScore, spawnTimer, spawnInterval)
    }

    constructor ()
      ensures Valid(Model())
      ensures Model() == Game(0, 1, 150, false, [], [], [], 100, 0, 0, 0.0, 2000)
    {
      score, level, scoreForNextLevel, isGameActive := 0, 1, 150, false;
      aiTurrets, projectiles, enemies := [], [], [];
      baseHP, missileCount, lastMissileAwardScore := 100, 0, 0;
      spawnTimer, spawnInterval := 0.0, 2000;
    }

    /** `start()`: everything but the spawn interval is reset. */
    method Start()
      requires Valid(Model())
      modifies this
      ensures Valid(Model())
      ensures Model() == old(Model()).(active := true, score := 0, level := 1, scoreForNextLevel := 150,
        baseHP := 100, projectiles := [], enemies := [], aiTurrets := [], missileCount := 0,
        lastMissileAwardScore := 0, spawnTimer := 0.0)
    {
      ResetScore();
      ClearField();
    }

    method ResetScore()
      modifies this
      ensures Model() == old(Model()).(active := true, score := 0, level := 1, scoreForNextLevel := 150,
                                       baseHP := 100)
    {
      isGameActive := true;
      score := 0;
      level := 1;
      scoreForNextLevel := 150;
      baseHP := 100;
    }

    method ClearField()
      modifies this
      ensures Model() == old(Model()).(projectiles := [], enemies := [], aiTurrets := [], missileCount := 0,
                                       lastMissileAwardScore := 0, spawnTimer := 0.0)
    {
      ClearLists();
      missileCount := 0;
      lastMissileAwardScore := 0;
      spawnTimer := 0.0;
    }

    method ClearLists()
      modifies this
      ensures Model() == old(Model()).(projectiles := [], enemies := [], aiTurrets := [])
    {
      projectiles := [];
      enemies := [];
      aiTurrets := [];
    }

    /** `stop()`: the game ends and reports its score and level. */
    method Stop() returns (finalScore: int, finalLevel: int)
      modifies this
      ensures Model() == old(Model()).(active := false)
      ensures finalScore == score && finalLevel == level
    {
      isGameActive := false;
      finalScore, finalLevel := score, level;
    }

    /** The mouse-down handler, the turret aiming along `h`. */
    method HandleMouseDown(h: Heading)
      modifies this
      ensures Model() == Click(old(Model()), h)
    {
      if !isGameActive {
        return;
      }
      projectiles := projectiles + [Launched(TurretX, TurretY, h, 20.0, 400.0, 5.0, false)];
    }

    /** `fireMissile()`, the turret aiming along `h`. */
    method FireMissile(h: Heading)
      requires Valid(Model())
      modifies this
      ensures Model() == Missile(old(Model()), h)
    {
      if missileCount <= 0 {
        return;
      }
      missileCount := missileCount - 1;
      projectiles := projectiles + [Launched(TurretX, TurretY, h, 30.0, 600.0, 10.0, true)];
    }

    /** The keydown handler. */
    method HandleKeyDown(code: string, h: Heading)
      requires Valid(Model())
      modifies this
      ensures Model() == KeyDown(old(Model()), code, h)
    {
      if !isGameActive {
        return;
      }
      if code == "Space" {
        FireMissile(h);
      }
    }

    /** `levelUp()` at time `now`. */
    method DoLevelUp(now: int)
      requires Valid(Model())
      modifies this
      ensures Model() == LevelUp(old(Model()), now)
    {
      level := level + 1;
      scoreForNextLevel := scoreForNextLevel + 150;
      aiTurrets := aiTurrets + [Turret(BaseLine, Slot(|aiTurrets|, level), now, 1500 - level * 50)];
    }

    /** The missile check of `update`. */
    method AwardMissile()
      requires Valid(Model())
      modifies this
      ensures Model() == Award(old(Model()))
    {
      if score >= lastMissileAwardScore + 400 {
        missileCount := missileCount + 1;
        lastMissileAwardScore := lastMissileAwardScore + 400;
      }
    }

    /** The spawn timer of `update`. */
    method TickSpawn(dt: real, d: seq<real>)
      requires Valid(Model()) && |d| >= 2 && AllDraws(d)
      modifies this
      ensures Model() == Tick(old(Model()), dt, d)
    {
      spawnTimer := spawnTimer + dt * 1000.0;
      if spawnTimer > spawnInterval as real {
        enemies := enemies + [SpawnedEnemy(level, d)];
        spawnTimer := 0.0;
        spawnInterval := MaxI(500, 2000 - level * 150);
      }
    }

    /** The nearest-enemy search of `updateAITurrets`: the first enemy at the smallest
        distance from `t`, if there is any enemy. */
    method FindNearest(t: Turret) returns (nearest: Option<nat>)
      ensures nearest.None? <==> |enemies| == 0
      ensures nearest.Some? ==> nearest.value < |enemies|
      ensures nearest.Some? ==> forall m :: 0 <= m < |enemies| ==> Dist2(t, enemies[nearest.value]) <= Dist2(t, enemies[m])
      ensures nearest.Some? ==> forall m :: 0 <= m < nearest.value ==> Dist2(t, enemies[m]) > Dist2(t, enemies[nearest.value])
    {
      nearest := None;
      var k := 0;
      while k < |enemies|
        invariant 0 <= k <= |enemies|
        invariant nearest.None? <==> k == 0
        invariant nearest.Some? ==> nearest.value < k
        invariant nearest.Some? ==> forall m :: 0 <= m < k ==> Dist2(t, enemies[nearest.value]) <= Dist2(t, enemies[m])
        invariant nearest.Some? ==> forall m :: 0 <= m < nearest.value ==> Dist2(t, enemies[m]) > Dist2(t, enemies[nearest.value])
      {
        if nearest.None? || Dist2(t, enemies[k]) < Dist2(t, enemies[nearest.value]) {
          nearest := Some(k);
        }
        k := k + 1;
      }
    }

    /** `updateAITurrets()` at time `now`, turret `m` aiming along `aim[m]`. */
    method UpdateAITurrets(now: int, aim: seq<Heading>)
      requires Valid(Model()) && |aiTurrets| <= |aim|
      modifies this
      ensures Model() == Sweep(old(Model()), 0, now, aim)
    {
      var k := 0;
      while k < |aiTurrets|
        invariant k <= |aiTurrets| == |old(aiTurrets)| && Valid(Model())
        invariant Sweep(Model(), k, now, aim) == Sweep(old(Model()), 0, now, aim)
      {
        AimAt(k, now, aim[k]);
        k := k + 1;
      }
    }

    /** One turret of that loop. */
    method AimAt(k: nat, now: int, h: Heading)
      requires k < |aiTurrets| && Valid(Model())
      modifies this
      ensures Model() == Aim(old(Model()), k, now, h)
    {
      var t := aiTurrets[k];
      var nearest := FindNearest(t);
      if nearest.Some? && now - t.lastFireTime > t.fireInterval {
        projectiles := projectiles + [Launched(t.x, t.y, h, 20.0, 400.0, 5.0, false)];
        aiTurrets := aiTurrets[k := t.(lastFireTime := now)];
      }
    }

    /** The projectile loop of `update`. */
    method MoveProjectiles(dt: real)
      modifies this
      ensures Model() == Travel(old(Model()), |old(projectiles)|, dt)
    {
      var i := |projectiles|;
      while i > 0
        invariant 0 <= i <= |projectiles|
        invariant Travel(Model(), i, dt) == Travel(old(Model()), |old(projectiles)|, dt)
      {
        var p := Flown(projectiles[i - 1], dt);
        if Outside(p) {
          projectiles := Remove(projectiles, i - 1);
        } else {
          projectiles := projectiles[i - 1 := p];
        }
        i := i - 1;
      }
    }

    /** `update(dt)` at time `now`, with the draws of `spawnEnemy` and turret `m` aiming
        along `aim[m]`. */
    method Update(dt: real, now: int, d: seq<real>, aim: seq<Heading>)
      requires Valid(Model()) && |d| >= 2 && AllDraws(d) && |aim| > |aiTurrets| && Headings(aim)
      modifies this
      ensures Model() == Frame(old(Model()), dt, now, d, aim)
    {
      if score >= scoreForNextLevel {
        DoLevelUp(now);
      }
      AwardMissile();
      TickSpawn(dt, d);
      UpdateAITurrets(now, aim);
      MoveProjectiles(dt);
      MoveEnemies(dt);
    }

    /** The projectile search of the enemy loop. */
    method FindTouch(e: Enemy) returns (t: Option<nat>)
      ensures t == LastTouch(projectiles, e, |projectiles|)
    {
      var j := |projectiles|;
      while j > 0
        invariant 0 <= j <= |projectiles|
        invariant LastTouch(projectiles, e, |projectiles|) == LastTouch(projectiles, e, j)
      {
        if Touching(projectiles[j - 1], e) {
          return Some(j - 1);
        }
        j := j - 1;
      }
      return None;
    }

    /** The enemy loop of `update`. */
    method MoveEnemies(dt: real)
      requires Valid(Model())
      modifies this
      ensures Model() == Defend(old(Model()), |old(enemies)|, dt)
    {
      var i := |enemies|;
      while i > 0
        invariant 0 <= i && Valid(Model())
        invariant Defend(Model(), i, dt) == Defend(old(Model()), |old(enemies)|, dt)
      {
        if i - 1 < |enemies| {
          GuardAt(i, dt);
        }
        i := i - 1;
      }
    }

    /** One enemy of that loop. */
    method GuardAt(i: nat, dt: real)
      requires 0 < i <= |enemies| && Valid(Model())
      modifies this
      ensures Model() == Guard(old(Model()), i, dt)
    {
      var e := Marched(enemies[i - 1], dt);
      if e.x < BaseLine {
        BreachAt(i - 1, e);
        return;
      }
      var t := FindTouch(e);
      if t.None? {
        enemies := enemies[i - 1 := e];
      } else if projectiles[t.value].isMissile {
        enemies := enemies[i - 1 := e];
        MissileHitAt(t.value);
      } else {
        BulletHitAt(i - 1, e, t.value);
      }
    }

    /** The breach branch of the enemy loop. */
    method BreachAt(k: nat, e: Enemy)
      requires k < |enemies| && Valid(Model())
      modifies this
      ensures Model() == Breach(old(Model()), k, e)
    {
      baseHP := baseHP - Damage(e.kind);
      enemies := Remove(enemies, k);
      if baseHP <= 0 {
        baseHP := 0;
        var _, _ := Stop();
      }
    }

    /** The bullet branch of the enemy loop. */
    method BulletHitAt(k: nat, e: Enemy, j: nat)
      requires k < |enemies| && j < |projectiles| && Valid(Model())
      modifies this
      ensures Model() == BulletHit(old(Model()), k, e, j)
    {
      var hit := e.(hp := e.hp - 1);
      projectiles := Remove(projectiles, j);
      if hit.hp <= 0 {
        score := score + Worth(e.kind);
        enemies := Remove(enemies, k);
      } else {
        enemies := enemies[k := hit];
      }
    }

    /** The missile branch of the enemy loop, as corrected. */
    method MissileHitAt(j: nat)
      requires j < |projectiles| && Valid(Model())
      modifies this
      ensures Model() == MissileHit(old(Model()), j)
    {
      var p := projectiles[j];
      ExplodeMissile(p.x, p.y);
      projectiles := Remove(projectiles, j);
    }

    /** `explodeMissile(x, y)`: the enemies walked from the back, each in reach losing 10
        hit points, finished ones paid for and spliced out. */
    method ExplodeMissile(x: real, y: real)
      requires Valid(Model())
      modifies this
      ensures Model() == Explode(old(Model()), x, y)
    {
      ghost var es := enemies;
      var i := |enemies|;
      while i > 0
        invariant 0 <= i <= |es|
        invariant enemies == es[..i] + Blasted(es[i..], x, y)
        invariant score == old(score) + Bounty(es[i..], x, y)
        invariant Model() == old(Model()).(enemies := enemies, score := score)
      {
        i := i - 1;
        BlastSlot(es, i, x, y, enemies);
        var e := enemies[i];
        if InBlast(e, x, y) {
          e := e.(hp := e.hp - 10);
          if e.hp <= 0 {
            score := score + Worth(e.kind);
            enemies := Remove(enemies, i);
          } else {
            enemies := enemies[i := e];
          }
        }
      }
      assert es[0..] == es;
    }
  }

  /** One pass of the loop of `explodeMissile`, at index `i`: with the enemies from `i + 1`
      on already blasted, blasting enemy `i` in place leaves those from `i` on blasted, and
      pays for it if it is finished. */
  lemma BlastSlot(es: seq<Enemy>, i: int, x: real, y: real, r: seq<Enemy>)
    requires 0 <= i < |es| && r == es[..i + 1] + Blasted(es[i + 1..], x, y)
    ensures |r| > i && r[i] == es[i]
    ensures var e := r[i];
      && (!InBlast(e, x, y) ==> r == es[..i] + Blasted(es[i..], x, y))
      && (InBlast(e, x, y) && e.hp - 10 <= 0 ==> Remove(r, i) == es[..i] + Blasted(es[i..], x, y))
      && (InBlast(e, x, y) && e.hp - 10 > 0 ==> r[i := e.(hp := e.hp - 10)] == es[..i] + Blasted(es[i..], x, y))
    ensures Bounty(es[i..], x, y) == (if InBlast(es[i], x, y) && es[i].hp - 10 <= 0 then Worth(es[i].kind) else 0)
                                     + Bounty(es[i + 1..], x, y)
  {
    assert es[i..][1..] == es[i + 1..];
    assert es[..i + 1] == es[..i] + [es[i]];
    var rest := Blasted(es[i + 1..], x, y);
    assert r[..i] == es[..i] && r[i] == es[i] && r[i + 1..] == rest;
  }
}
