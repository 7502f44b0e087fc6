/** The escape arena (`MarioEscapeEngine` in js/marioEscape.js): the player walks a 400 by 400
    field with the arrow keys while walking mushrooms enter from the edges, bounce off the
    walls and end the game on contact. Pickups give coins, a star that clears every enemy
    within 150 px, or a gun with ammunition; the space bar fires one bullet per press, and a
    bullet destroys the first enemy it touches. Surviving a frame adds 0.1. */
module MarioEscape {
  import opened Common
  import opened Effects
  import opened Geometry

  datatype Facing = Left | Right
  datatype PickupKind = Gun | Star | Coin

  /** A walking mushroom, 25 by 25, with its velocity. */
  datatype Goomba = Goomba(x: real, y: real, vx: real, vy: real)
  /** A bullet, 8 by 4, flying horizontally. */
  datatype Shot = Shot(x: real, y: real, vx: real)
  /** A pickup, 20 by 20. */
  datatype Pickup = Pickup(kind: PickupKind, x: real, y: real)

  const Size := 400.0
  const PlayerSize := 30.0
  const GoombaSize := 25.0

  /** The five keys the engine tracks. */
  const KeyNames: set<string> := {"ArrowUp", "ArrowDown", "ArrowLeft", "ArrowRight", " "}

  /** The state `update`, `fireBullet` and the key handlers work on. */
  datatype Game = Game(
    score: real, level: int, x: real, y: real, facing: Facing, hasGun: bool, ammo: int,
    enemies: seq<Goomba>, bullets: seq<Shot>, items: seq<Pickup>, particles: seq<Fx>,
    keys: map<string, bool>, lastEnemySpawn: real, enemySpawnInterval: int, lastItemSpawn: real,
    active: bool)

  /** What every operation keeps: a non-negative score, a level of at least one, the player
      inside the field, at most 30 rounds and a gun only while rounds are left, an enemy
      interval of at least 800 ms, and the key map tracking exactly the five keys. */
  predicate Valid(g: Game)
  {
    && g.score >= 0.0 && g.level >= 1
    && 0.0 <= g.x <= Size - PlayerSize && 0.0 <= g.y <= Size - PlayerSize
    && 0 <= g.ammo <= 30 && (g.hasGun ==> g.ammo >= 1)
    && g.enemySpawnInterval >= 800
    && g.keys.Keys == KeyNames
  }

  /** `Math.max(lo, Math.min(hi, v))`. */
  function Clamp(v: real, lo: real, hi: real): (r: real)
    requires lo <= hi
    ensures lo <= r <= hi
    ensures lo <= v <= hi ==> r == v
  {
    MaxR(lo, MinR(hi, v))
  }

  /** `checkCollision(a, b)`: plain rectangle overlap, without margin. */
  predicate CheckCollision(a: Box, b: Box)
  {
    Overlap(a, b, 0.0)
  }

  function PlayerBox(g: Game): Box { Box(g.x, g.y, PlayerSize, PlayerSize) }
  function GoombaBox(e: Goomba): Box { Box(e.x, e.y, GoombaSize, GoombaSize) }
  function ShotBox(b: Shot): Box { Box(b.x, b.y, 8.0, 4.0) }
  function PickupBox(p: Pickup): Box { Box(p.x, p.y, 20.0, 20.0) }

  /** `fireBullet`: nothing without a gun or rounds; otherwise a bullet leaves the player's
      front edge at half height, flying at 7 px per frame the way the player faces, one round
      is spent, and the gun is dropped with the last round. */
  function Fire(g: Game): (r: Game)
    requires Valid(g)
    ensures Valid(r)
    ensures !g.hasGun || g.ammo <= 0 ==> r == g
    ensures g.hasGun && g.ammo > 0 ==>
      && r.ammo == g.ammo - 1 && (r.hasGun <==> r.ammo > 0)
      && |r.bullets| == |g.bullets| + 1 && r.bullets[..|g.bullets|] == g.bullets
      && r.bullets[|g.bullets|].vx == (if g.facing == Right then 7.0 else -7.0)
      && r.bullets[|g.bullets|].x == (if g.facing == Right then g.x + PlayerSize else g.x)
      && r == g.(bullets := r.bullets, ammo := r.ammo, hasGun := r.hasGun)
  {
    if !g.hasGun || g.ammo <= 0 then g
    else
      var shot := Shot(g.x + (if g.facing == Right then PlayerSize else 0.0), g.y + PlayerSize / 2.0,
                       if g.facing == Right then 7.0 else -7.0);
      var ammo := g.ammo - 1;
      g.(bullets := g.bullets + [shot], ammo := ammo, hasGun := if ammo <= 0 then false else g.hasGun)
  }

  /** The keydown handler: a tracked key is marked held; the space bar fires only when it
      was not already held. Other keys change nothing. */
  function Press(g: Game, key: string): (r: Game)
    requires Valid(g)
    ensures Valid(r)
    ensures key !in KeyNames ==> r == g
    ensures key in KeyNames ==> r.keys == g.keys[key := true]
  {
    if key in g.keys then
      var g1 := if key == " " && !g.keys[" "] then Fire(g) else g;
      g1.(keys := g1.keys[key := true])
    else g
  }

  /** The keyup handler: a tracked key is marked released. */
  function Release(g: Game, key: string): (r: Game)
    requires Valid(g)
    ensures Valid(r)
    ensures key in KeyNames ==> r == g.(keys := g.keys[key := false])
    ensures key !in KeyNames ==> r == g
  {
    if key in g.keys then g.(keys := g.keys[key := false]) else g
  }

  /** The space bar fires on the press that finds it released and never again while it is
      held: a second press without a release fires nothing. */
  lemma SpaceFiresOncePerPress(g: Game)
    requires Valid(g)
    ensures !g.keys[" "] ==> Press(g, " ") == Fire(g).(keys := g.keys[" " := true])
    ensures g.keys[" "] ==> Press(g, " ") == g
    ensures Press(Press(g, " "), " ") == Press(g, " ")
  {
    var h := Press(g, " ");
    assert h.keys[" "];
    assert h.keys[" " := true] == h.keys;
    if g.keys[" "] {
      assert g.keys[" " := true] == g.keys;
    }
  }

  /** The movement at the top of `update`: each held arrow moves the player 4 px (left and
      right also turn it), then both coordinates are clamped to the field. */
  function Walk(g: Game): (r: Game)
    requires Valid(g)
    ensures Valid(r)
    ensures 0.0 <= r.x <= Size - PlayerSize && 0.0 <= r.y <= Size - PlayerSize
    ensures r == g.(x := r.x, y := r.y, facing := r.facing)
    ensures g.keys["ArrowRight"] ==> r.facing == Right
    ensures !g.keys["ArrowLeft"] && !g.keys["ArrowRight"] ==> r.facing == g.facing
  {
    var (x, f) := Sideways(g.keys["ArrowLeft"], g.keys["ArrowRight"], g.x, g.facing);
    g.(x := x, y := Upways(g.keys["ArrowUp"], g.keys["ArrowDown"], g.y), facing := f)
  }

  /** The vertical part of the movement: up then down, 4 px each, then the clamp. */
  function Upways(up: bool, down: bool, y: real): (r: real)
    ensures 0.0 <= r <= Size - PlayerSize
  {
    var y1 := if up then y - 4.0 else y;
    Clamp(if down then y1 + 4.0 else y1, 0.0, Size - PlayerSize)
  }

  /** The horizontal part: left then right, 4 px each and turning, then the clamp. */
  function Sideways(left: bool, right: bool, x: real, facing: Facing): (r: (real, Facing))
    ensures 0.0 <= r.0 <= Size - PlayerSize
    ensures r.1 == (if right then Right else if left then Left else facing)
  {
    var x1 := if left then x - 4.0 else x;
    (Clamp(if right then x1 + 4.0 else x1, 0.0, Size - PlayerSize), if right then Right else if left then Left else facing)
  }

  /** An enemy's move: it steps by its velocity; a component that took it past a wall is
      negated and the enemy is put back against that wall. */
  function Bounced(e: Goomba): (r: Goomba)
    ensures 0.0 <= r.x <= Size - GoombaSize && 0.0 <= r.y <= Size - GoombaSize
    ensures var nx := e.x + e.vx;
      && (nx < 0.0 || nx + GoombaSize > Size ==> r.vx == -e.vx && r.x == (if nx < 0.0 then 0.0 else Size - GoombaSize))
      && (0.0 <= nx && nx + GoombaSize <= Size ==> r.vx == e.vx && r.x == nx)
    ensures var ny := e.y + e.vy;
      && (ny < 0.0 || ny + GoombaSize > Size ==> r.vy == -e.vy && r.y == (if ny < 0.0 then 0.0 else Size - GoombaSize))
      && (0.0 <= ny && ny + GoombaSize <= Size ==> r.vy == e.vy && r.y == ny)
  {
    var nx, ny := e.x + e.vx, e.y + e.vy;
    var crossX := nx < 0.0 || nx + GoombaSize > Size;
    var crossY := ny < 0.0 || ny + GoombaSize > Size;
    Goomba(if crossX then (if nx < 0.0 then 0.0 else Size - GoombaSize) else nx,
           if crossY then (if ny < 0.0 then 0.0 else Size - GoombaSize) else ny,
           if crossX then -e.vx else e.vx,
           if crossY then -e.vy else e.vy)
  }

  /** The enemy loop of `update`, enemies `i-1` down to `0`: each moves and bounces; the
      first one found touching the player ends the game (`stop()`) and the rest of the frame
      is skipped. The flag says whether that happened. */
  function Roam(g: Game, i: nat): (r: (Game, bool))
    requires i <= |g.enemies|
    ensures |r.0.enemies| == |g.enemies|
    ensures r.0 == g.(enemies := r.0.enemies, active := r.0.active)
    ensures r.1 ==> !r.0.active
    ensures !r.1 ==> r.0.active == g.active
    decreases i
  {
    if i == 0 then (g, false)
    else
      var h := g.(enemies := g.enemies[i - 1 := Bounced(g.enemies[i - 1])]);
      if CheckCollision(PlayerBox(h), GoombaBox(h.enemies[i - 1])) then (h.(active := false), true)
      else Roam(h, i - 1)
  }

  /** A frame the player survives leaves every enemy it moved inside the field and clear of
      the player, and leaves the ones it did not reach untouched. */
  lemma {:induction false} SurvivorsAreClear(g: Game, i: nat)
    requires i <= |g.enemies|
    ensures var (r, caught) := Roam(g, i);
      && r.enemies[i..] == g.enemies[i..]
      && (!caught ==> forall k :: 0 <= k < i ==>
            !CheckCollision(PlayerBox(r), GoombaBox(r.enemies[k]))
            && 0.0 <= r.enemies[k].x <= Size - GoombaSize && 0.0 <= r.enemies[k].y <= Size - GoombaSize)
    decreases i
  {
    if i > 0 {
      var h := g.(enemies := g.enemies[i - 1 := Bounced(g.enemies[i - 1])]);
      if !CheckCollision(PlayerBox(h), GoombaBox(h.enemies[i - 1])) {
        SurvivorsAreClear(h, i - 1);
        var r := Roam(h, i - 1).0;
        assert r.enemies[i - 1] == h.enemies[i - 1] by {
          assert r.enemies[i - 1..] == h.enemies[i - 1..];
        }
        assert r.enemies[i..] == h.enemies[i..];
      }
    }
  }

  /** The search of the bullet loop: the highest index below `j` whose enemy the bullet
      touches, if any. */
  function LastHit(es: seq<Goomba>, b: Shot, j: nat): (t: Option<nat>)
    requires j <= |es|
    ensures t.Some? ==> t.value < j && CheckCollision(ShotBox(b), GoombaBox(es[t.value]))
    ensures t.Some? ==> forall m :: t.value < m < j ==> !CheckCollision(ShotBox(b), GoombaBox(es[m]))
    ensures t.None? ==> forall m :: 0 <= m < j ==> !CheckCollision(ShotBox(b), GoombaBox(es[m]))
    decreases j
  {
    if j == 0 then None
    else if CheckCollision(ShotBox(b), GoombaBox(es[j - 1])) then Some(j - 1)
    else LastHit(es, b, j - 1)
  }

  /** A bullet leaves the field once it is more than 10 px past a side. */
  predicate OffField(b: Shot)
  {
    b.x < -10.0 || b.x > Size + 10.0
  }

  /** One bullet of the loop of `update`, the one at index `i-1`: it flies on; off the field
      it is spliced out; otherwise the last enemy in the list it touches is destroyed with it,
      for 50 points and eight particles. */
  function Fly(g: Game, i: nat): (r: Game)
    requires 0 < i <= |g.bullets| && Valid(g)
    ensures Valid(r) && |r.bullets| >= i - 1 && r.bullets[..i - 1] == g.bullets[..i - 1]
    ensures r == g.(bullets := r.bullets, enemies := r.enemies, score := r.score, particles := r.particles)
    ensures (|r.enemies| == |g.enemies| && r.score == g.score) ||
            (|r.enemies| == |g.enemies| - 1 && r.score == g.score + 50.0 && |r.bullets| == |g.bullets| - 1)
  {
    var b := Flown(g.bullets[i - 1]);
    if OffField(b) then g.(bullets := Remove(g.bullets, i - 1))
    else
      var t := LastHit(g.enemies, b, |g.enemies|);
      if t.Some? then Kill(g, i - 1, t.value)
      else g.(bullets := g.bullets[i - 1 := b])
  }

  /** A bullet one frame on. */
  function Flown(b: Shot): (r: Shot)
    ensures r == b.(x := r.x) && r.x - b.x == b.vx
  {
    b.(x := b.x + b.vx)
  }

  /** A hit: the bullet at `k` and the enemy at `j` are spliced out, for 50 points and eight
      particles. */
  function Kill(g: Game, k: nat, j: nat): (r: Game)
    requires k < |g.bullets| && j < |g.enemies|
    ensures |r.bullets| == |g.bullets| - 1 && |r.enemies| == |g.enemies| - 1 && r.score == g.score + 50.0
    ensures r.bullets[..k] == g.bullets[..k] && r.enemies[..j] == g.enemies[..j]
    ensures |r.particles| == |g.particles| + 8
  {
    g.(enemies := Remove(g.enemies, j), bullets := Remove(g.bullets, k),
       particles := g.particles + Burst(8, 20), score := g.score + 50.0)
  }

  /** The bullet loop of `update`: bullets `i-1` down to `0`. */
  function Volley(g: Game, i: nat): (r: Game)
    requires i <= |g.bullets| && Valid(g)
    ensures Valid(r) && r.score >= g.score
    ensures r == g.(bullets := r.bullets, enemies := r.enemies, score := r.score, particles := r.particles)
    decreases i
  {
    if i == 0 then g else Volley(Fly(g, i), i - 1)
  }

  /** A bullet destroys at most one enemy: the enemies lost in the bullet loop are no more
      than the bullets used up, and each pays exactly 50. */
  lemma {:induction false} VolleyScoresPerKill(g: Game, i: nat)
    requires i <= |g.bullets| && Valid(g)
    ensures var r := Volley(g, i);
      && |r.enemies| <= |g.enemies|
      && |g.enemies| - |r.enemies| <= |g.bullets| - |r.bullets|
      && r.score == g.score + 50.0 * (|g.enemies| - |r.enemies|) as real
    decreases i
  {
    if i > 0 {
      VolleyScoresPerKill(Fly(g, i), i - 1);
    }
  }

  /** The star's reach: `Math.sqrt(dx*dx + dy*dy) < 150`, stated on the squared distance. */
  predicate Near(e: Goomba, p: Pickup)
  {
    (e.x - p.x) * (e.x - p.x) + (e.y - p.y) * (e.y - p.y) < 22500.0
  }

  /** The enemies a star at `p` spares, in order (`enemies.filter`). */
  function Blast(es: seq<Goomba>, p: Pickup): (r: seq<Goomba>)
    ensures |r| <= |es|
    ensures forall k :: 0 <= k < |r| ==> !Near(r[k], p)
  {
    if es == [] then [] else (if Near(es[0], p) then [] else [es[0]]) + Blast(es[1..], p)
  }

  /** The star removes exactly the enemies within its reach. */
  lemma {:induction false} BlastKeepsExactlyTheFar(es: seq<Goomba>, p: Pickup, e: Goomba)
    ensures e in Blast(es, p) <==> e in es && !Near(e, p)
  {
    if es != [] {
      BlastKeepsExactlyTheFar(es[1..], p, e);
      assert es == [es[0]] + es[1..];
    }
  }

  /** One pickup of the loop of `update`, the one at index `i-1`, if the player touches it:
      a star pays 500 and clears every enemy within 150 px (eight particles each), a gun
      arms the player with ten more rounds up to 30, a coin pays 100; then it is spliced
      out. */
  function Touch(g: Game, i: nat): (r: Game)
    requires 0 < i <= |g.items| && Valid(g)
    ensures Valid(r) && r.score >= g.score && |r.items| >= i - 1 && r.items[..i - 1] == g.items[..i - 1]
    ensures r == g.(items := r.items, score := r.score, enemies := r.enemies, particles := r.particles,
                    hasGun := r.hasGun, ammo := r.ammo)
    ensures r.ammo <= 30
  {
    var p := g.items[i - 1];
    if !CheckCollision(PlayerBox(g), PickupBox(p)) then g
    else
      var g1 := match p.kind
        case Star =>
          var kept := Blast(g.enemies, p);
          g.(score := g.score + 500.0, enemies := kept,
             particles := g.particles + Burst(8 * (|g.enemies| - |kept|), 20))
        case Gun => g.(hasGun := true, ammo := MinI(30, g.ammo + 10))
        case Coin => g.(score := g.score + 100.0);
      g1.(items := Remove(g1.items, i - 1))
  }

  /** What touching a pickup does to the gun: a gun pickup leaves the player armed with
      `min(30, ammo + 10)` rounds; no other pickup touches the gun. */
  lemma TouchArms(g: Game, i: nat)
    requires 0 < i <= |g.items| && Valid(g)
    requires CheckCollision(PlayerBox(g), PickupBox(g.items[i - 1]))
    ensures g.items[i - 1].kind == Gun ==> Touch(g, i).hasGun && Touch(g, i).ammo == MinI(30, g.ammo + 10)
    ensures g.items[i - 1].kind != Gun ==> Touch(g, i).hasGun == g.hasGun && Touch(g, i).ammo == g.ammo
  {
  }

  /** The pickup loop of `update`: pickups `i-1` down to `0`. */
  function Loot(g: Game, i: nat): (r: Game)
    requires i <= |g.items| && Valid(g)
    ensures Valid(r) && r.score >= g.score
    ensures r == g.(items := r.items, score := r.score, enemies := r.enemies, particles := r.particles,
                    hasGun := r.hasGun, ammo := r.ammo)
    decreases i
  {
    if i == 0 then g else Loot(Touch(g, i), i - 1)
  }

  /** `spawnEnemy` at `level` for the draws `d`: `d[0]` picks the side, `d[1]` the place
      along it, `d[3]` the speed `0.8 + r + 0.15 level`. The heading (`atan2` towards the
      player plus a random turn) is given as its unit vector `(c, s)`. The enemy starts just
      outside the field and its speed is exactly the drawn one. */
  function SpawnedGoomba(level: int, d: seq<real>, c: real, s: real): (e: Goomba)
    requires |d| >= 4 && AllDraws(d) && c * c + s * s == 1.0
    ensures e.x < 0.0 || e.x > Size - GoombaSize || e.y < 0.0 || e.y > Size - GoombaSize
    ensures var speed := 0.8 + d[3] + level as real * 0.15;
      e.vx == c * speed && e.vy == s * speed && e.vx * e.vx + e.vy * e.vy == speed * speed
  {
    var side := Pick(d[0], 4);
    var along := d[1] * Size;
    var x := if side == 0 || side == 2 then along else if side == 1 then Size + 20.0 else -20.0;
    var y := if side == 0 then -20.0 else if side == 2 then Size + 20.0 else along;
    var speed := 0.8 + d[3] * 1.0 + level as real * 0.15;
    assert (c * speed) * (c * speed) + (s * speed) * (s * speed) == (c * c + s * s) * (speed * speed);
    Goomba(x, y, c * speed, s * speed)
  }

  /** `spawnItem` for the draws `d`: a gun below 0.15, a star below 0.35, else a coin,
      placed at least 30 px inside the field. */
  function SpawnedPickup(d: seq<real>): (p: Pickup)
    requires |d| >= 3 && AllDraws(d)
    ensures p.kind == Gun <==> d[0] < 0.15
    ensures p.kind == Star <==> 0.15 <= d[0] < 0.35
    ensures 30.0 <= p.x < 370.0 && 30.0 <= p.y < 370.0
  {
    var kind := if d[0] < 0.15 then Gun else if d[0] < 0.35 then Star else Coin;
    Pickup(kind, 30.0 + d[1] * (Size - 60.0), 30.0 + d[2] * (Size - 60.0))
  }

  /** The spawn timers of `update`: an enemy when more than the interval has passed, after
      which the interval becomes `max(800, 4000 - 300 level)`; a pickup every 5000 ms. */
  function Spawn(g: Game, timestamp: real, de: seq<real>, c: real, s: real, di: seq<real>): (r: Game)
    requires Valid(g) && |de| >= 4 && AllDraws(de) && c * c + s * s == 1.0 && |di| >= 3 && AllDraws(di)
    ensures Valid(r)
    ensures r == g.(enemies := r.enemies, items := r.items, lastEnemySpawn := r.lastEnemySpawn,
                    enemySpawnInterval := r.enemySpawnInterval, lastItemSpawn := r.lastItemSpawn)
    ensures timestamp - g.lastEnemySpawn > g.enemySpawnInterval as real ==>
      r.enemySpawnInterval == MaxI(800, 4000 - g.level * 300) && r.lastEnemySpawn == timestamp
    ensures timestamp - g.lastEnemySpawn <= g.enemySpawnInterval as real ==>
      r.enemies == g.enemies && r.enemySpawnInterval == g.enemySpawnInterval
  {
    var g1 := if timestamp - g.lastEnemySpawn > g.enemySpawnInterval as real
      then g.(enemies := g.enemies + [SpawnedGoomba(g.level, de, c, s)], lastEnemySpawn := timestamp,
              enemySpawnInterval := MaxI(800, 4000 - g.level * 300))
      else g;
    if timestamp - g1.lastItemSpawn > 5000.0
    then g1.(items := g1.items + [SpawnedPickup(di)], lastItemSpawn := timestamp) else g1
  }

  /** The level check of `update`: the level follows `floor(score / 1000) + 1` but never
      falls. */
  function LevelUp(g: Game): (r: Game)
    requires Valid(g)
    ensures Valid(r) && r.level >= g.level
    ensures r == g.(level := r.level)
    ensures r.level > g.level ==> r.level == LevelFor(g.score, 1000.0)
    ensures LevelFor(g.score, 1000.0) >= g.level ==> r.level == LevelFor(g.score, 1000.0)
  {
    var newLevel := LevelFor(g.score, 1000.0);
    if newLevel > g.level then g.(level := newLevel) else g
  }

  /** The rest of a frame the player survived: bullets, pickups, the particle countdown, the
      spawn timers, the level check and the 0.1 survival bonus. */
  function Finish(g: Game, timestamp: real, de: seq<real>, c: real, s: real, di: seq<real>): (r: Game)
    requires Valid(g) && |de| >= 4 && AllDraws(de) && c * c + s * s == 1.0 && |di| >= 3 && AllDraws(di)
    ensures Valid(r) && r.level >= g.level && r.score >= g.score + 0.1
  {
    Wrap(Skirmish(g), timestamp, de, c, s, di)
  }

  /** Bullets, pickups and the particle countdown. */
  function Skirmish(g: Game): (r: Game)
    requires Valid(g)
    ensures Valid(r) && r.level == g.level && r.score >= g.score
  {
    var g1 := Volley(g, |g.bullets|);
    var g2 := Loot(g1, |g1.items|);
    g2.(particles := Aged(g2.particles))
  }

  /** The spawn timers, the level check and the survival bonus. */
  function Wrap(g: Game, timestamp: real, de: seq<real>, c: real, s: real, di: seq<real>): (r: Game)
    requires Valid(g) && |de| >= 4 && AllDraws(de) && c * c + s * s == 1.0 && |di| >= 3 && AllDraws(di)
    ensures Valid(r) && r.level >= g.level && r.score == g.score + 0.1
  {
    var g1 := LevelUp(Spawn(g, timestamp, de, c, s, di));
    g1.(score := g1.score + 0.1)
  }

  /** A whole `update(timestamp)`: nothing once the game is over; otherwise the player walks,
      the enemies move, and unless one of them caught the player the frame is finished. */
  function Frame(g: Game, timestamp: real, de: seq<real>, c: real, s: real, di: seq<real>): (r: Game)
    requires Valid(g) && |de| >= 4 && AllDraws(de) && c * c + s * s == 1.0 && |di| >= 3 && AllDraws(di)
    ensures Valid(r)
    ensures !g.active ==> r == g
    ensures r.level >= g.level && r.score >= g.score
  {
    if !g.active then g
    else
      var g1 := Walk(g);
      var (g2, caught) := Roam(g1, |g1.enemies|);
      if caught then g2 else Finish(g2, timestamp, de, c, s, di)
  }

  /** A frame either ends the game, or leaves it running with every enemy that was there at
      the start of the frame inside the field and clear of the player. */
  lemma FrameEndsOnContact(g: Game, timestamp: real, de: seq<real>, c: real, s: real, di: seq<real>)
    requires Valid(g) && g.active && |de| >= 4 && AllDraws(de) && c * c + s * s == 1.0 && |di| >= 3 && AllDraws(di)
    ensures var g1 := Walk(g); var (g2, caught) := Roam(g1, |g1.enemies|);
      && (caught <==> !Frame(g, timestamp, de, c, s, di).active)
      && (!caught ==> forall k :: 0 <= k < |g2.enemies| ==> !CheckCollision(PlayerBox(g2), GoombaBox(g2.enemies[k])))
  {
    var g1 := Walk(g);
    SurvivorsAreClear(g1, |g1.enemies|);
  }

  class MarioEscapeEngine {
    var score: real
    var level: int
    var x: real
    var y: real
    var facing: Facing
    var hasGun: bool
    var ammo: int
    var enemies: seq<Goomba>
    var bullets: seq<Shot>
    var items: seq<Pickup>
    var particles: seq<Fx>
    var keys: map<string, bool>
    var lastEnemySpawn: real
    var enemySpawnInterval: int
    var lastItemSpawn: real
    var isGameActive: bool

    function Model(): Game
      reads this
    {
      Game(score, level, x, y, facing, hasGun, ammo, enemies, bullets, items, particles, keys,
           lastEnemySpawn, enemySpawnInterval, lastItemSpawn, isGameActive)
    }

    /** The player starts in the middle, facing right, unarmed, with no key held. */
    constructor ()
      ensures Valid(Model())
      ensures Model() == Game(0.0, 1, 200.0, 200.0, Right, false, 0, [], [], [], [],
                              map k | k in KeyNames :: false, 0.0, 4000, 0.0, false)
    {
      score, level, x, y, facing, hasGun, ammo := 0.0, 1, 200.0, 200.0, Right, false, 0;
      enemies, bullets, items, particles := [], [], [], [];
      keys := map k | k in KeyNames :: false;
      lastEnemySpawn, enemySpawnInterval, lastItemSpawn, isGameActive := 0.0, 4000, 0.0, false;
    }

    /** `start()` at time `now`: score, level, gun and lists are reset (the player keeps its
        place and the keys their state), both spawn clocks start at `now`, and a first enemy
        is spawned. */
    method Start(now: real, de: seq<real>, c: real, s: real)
      requires Valid(Model()) && |de| >= 4 && AllDraws(de) && c * c + s * s == 1.0
      modifies this
      ensures Valid(Model())
      ensures Model() == old(Model()).(active := true, score := 0.0, level := 1, facing := Right,
        hasGun := false, ammo := 0, enemies := [SpawnedGoomba(1, de, c, s)], items := [], bullets := [],
        particles := [], enemySpawnInterval := 4000, lastEnemySpawn := now, lastItemSpawn := now)
    {
      ResetScore();
      ClearField(now);
      enemies := enemies + [SpawnedGoomba(level, de, c, s)];
    }

    /** The score, level and gun part of `start()`. */
    method ResetScore()
      modifies this
      ensures Model() == old(Model()).(active := true, score := 0.0, level := 1, facing := Right,
                                       hasGun := false, ammo := 0)
    {
      isGameActive := true;
      score := 0.0;
      level := 1;
      Disarm();
    }

    method Disarm()
      modifies this
      ensures Model() == old(Model()).(facing := Right, hasGun := false, ammo := 0)
    {
      facing := Right;
      hasGun := false;
      ammo := 0;
    }

    /** The lists and clocks part of `start()`. */
    method ClearField(now: real)
      modifies this
      ensures Model() == old(Model()).(enemies := [], items := [], bullets := [], particles := [],
        enemySpawnInterval := 4000, lastEnemySpawn := now, lastItemSpawn := now)
    {
      ClearLists();
      ResetClocks(now);
    }

    method ClearLists()
      modifies this
      ensures Model() == old(Model()).(enemies := [], items := [], bullets := [], particles := [])
    {
      enemies := [];
      items := [];
      bullets := [];
      particles := [];
    }

    method ResetClocks(now: real)
      modifies this
      ensures Model() == old(Model()).(enemySpawnInterval := 4000, lastEnemySpawn := now, lastItemSpawn := now)
    {
      enemySpawnInterval := 4000;
      lastEnemySpawn := now;
      lastItemSpawn := now;
    }

    /** `stop()`: the game ends and reports the whole points of its score and its level. */
    method Stop() returns (finalScore: int, finalLevel: int)
      requires Valid(Model())
      modifies this
      ensures Model() == old(Model()).(active := false)
      ensures finalScore >= 0 && finalScore as real <= score < finalScore as real + 1.0
      ensures finalLevel == level
    {
      isGameActive := false;
      finalScore := score.Floor;
      finalLevel := level;
    }

    /** `fireBullet()`. */
    method FireBullet()
      requires Valid(Model())
      modifies this
      ensures Model() == Fire(old(Model()))
    {
      if !hasGun || ammo <= 0 {
        return;
      }
      var bx := x + (if facing == Right then PlayerSize else 0.0);
      var vx := if facing == Right then 7.0 else -7.0;
      bullets := bullets + [Shot(bx, y + PlayerSize / 2.0, vx)];
      ammo := ammo - 1;
      if ammo <= 0 {
        hasGun := false;
      }
    }

    /** The keydown handler. */
    method OnKeyDown(key: string)
      requires Valid(Model())
      modifies this
      ensures Model() == Press(old(Model()), key)
    {
      if key in keys {
        if key == " " && !keys[" "] {
          FireBullet();
        }
        keys := keys[key := true];
      }
    }

    /** The keyup handler. */
    method OnKeyUp(key: string)
      requires Valid(Model())
      modifies this
      ensures Model() == Release(old(Model()), key)
    {
      if key in keys {
        keys := keys[key := false];
      }
    }

    /** The movement at the top of `update`. */
    method MovePlayer()
      requires Valid(Model())
      modifies this
      ensures Model() == Walk(old(Model()))
    {
      var (nx, f) := Sideways(keys["ArrowLeft"], keys["ArrowRight"], x, facing);
      y := Upways(keys["ArrowUp"], keys["ArrowDown"], y);
      x := nx;
      facing := f;
    }

    /** The enemy loop of `update`; `caught` says the game was stopped by a contact. */
    method MoveEnemies() returns (caught: bool)
      requires Valid(Model())
      modifies this
      ensures (Model(), caught) == Roam(old(Model()), |old(enemies)|)
    {
      var i := |enemies|;
      while i > 0
        invariant 0 <= i <= |enemies| && Valid(Model())
        invariant Roam(Model(), i) == Roam(old(Model()), |old(enemies)|)
      {
        var e := Bounced(enemies[i - 1]);
        enemies := enemies[i - 1 := e];
        if CheckCollision(PlayerBox(Model()), GoombaBox(e)) {
          var _, _ := Stop();
          return true;
        }
        i := i - 1;
      }
      return false;
    }

    /** The search of the bullet loop: the highest-index enemy the bullet touches. */
    method FindTarget(b: Shot) returns (t: Option<nat>)
      ensures t == LastHit(enemies, b, |enemies|)
    {
      var j := |enemies|;
      while j > 0
        invariant 0 <= j <= |enemies|
        invariant LastHit(enemies, b, |enemies|) == LastHit(enemies, b, j)
      {
        if CheckCollision(ShotBox(b), GoombaBox(enemies[j - 1])) {
          return Some(j - 1);
        }
        j := j - 1;
      }
      return None;
    }

    /** The bullet loop of `update`. */
    method MoveBullets()
      requires Valid(Model())
      modifies this
      ensures Model() == Volley(old(Model()), |old(bullets)|)
    {
      var i := |bullets|;
      while i > 0
        invariant 0 <= i <= |bullets| && Valid(Model())
        invariant Volley(Model(), i) == Volley(old(Model()), |old(bullets)|)
      {
        FlyAt(i);
        i := i - 1;
      }
    }

    /** One pass of that loop, on the bullet at index `i-1`. */
    method FlyAt(i: nat)
      requires 0 < i <= |bullets| && Valid(Model())
      modifies this
      ensures Model() == Fly(old(Model()), i)
    {
      var b := Flown(bullets[i - 1]);
      if OffField(b) {
        bullets := Remove(bullets, i - 1);
        return;
      }
      var t := FindTarget(b);
      if t.Some? {
        Destroy(i - 1, t.value);
      } else {
        bullets := bullets[i - 1 := b];
      }
    }

    /** A bullet and the enemy it hit are spliced out, for 50 points and eight particles. */
    method Destroy(k: nat, j: nat)
      requires k < |bullets| && j < |enemies|
      modifies this
      ensures Model() == Kill(old(Model()), k, j)
    {
      enemies := Remove(enemies, j);
      bullets := Remove(bullets, k);
      Reward();
    }

    /** The 50 points and eight particles of a hit. */
    method Reward()
      modifies this
      ensures Model() == old(Model()).(particles := old(particles) + Burst(8, 20), score := old(score) + 50.0)
    {
      var sparks := Emit(8, 20);
      particles := particles + sparks;
      score := score + 50.0;
    }

    /** The pickup loop of `update`. */
    method CollectItems()
      requires Valid(Model())
      modifies this
      ensures Model() == Loot(old(Model()), |old(items)|)
    {
      var i := |items|;
      while i > 0
        invariant 0 <= i <= |items| && Valid(Model())
        invariant Loot(Model(), i) == Loot(old(Model()), |old(items)|)
      {
        TouchAt(i);
        i := i - 1;
      }
    }

    /** One pass of that loop, on the pickup at index `i-1`. */
    method TouchAt(i: nat)
      requires 0 < i <= |items| && Valid(Model())
      modifies this
      ensures Model() == Touch(old(Model()), i)
    {
      var p := items[i - 1];
      if !CheckCollision(PlayerBox(Model()), PickupBox(p)) {
        return;
      }
      match p.kind {
        case Star => StarBlast(p);
        case Gun => Arm();
        case Coin => score := score + 100.0;
      }
      items := Remove(items, i - 1);
    }

    /** A star: 500 points, and every enemy within reach is cleared with eight particles. */
    method StarBlast(p: Pickup)
      modifies this
      ensures var kept := Blast(old(enemies), p);
        Model() == old(Model()).(score := old(score) + 500.0, enemies := kept,
                                 particles := old(particles) + Burst(8 * (|old(enemies)| - |kept|), 20))
    {
      score := score + 500.0;
      var kept := Blast(enemies, p);
      var sparks := Emit(8 * (|enemies| - |kept|), 20);
      enemies := kept;
      particles := particles + sparks;
    }

    /** A gun: ten more rounds, up to 30. */
    method Arm()
      modifies this
      ensures Model() == old(Model()).(hasGun := true, ammo := MinI(30, old(ammo) + 10))
    {
      hasGun := true;
      ammo := MinI(30, ammo + 10);
    }

    /** The spawn timers of `update`. */
    method SpawnDue(timestamp: real, de: seq<real>, c: real, s: real, di: seq<real>)
      requires Valid(Model()) && |de| >= 4 && AllDraws(de) && c * c + s * s == 1.0 && |di| >= 3 && AllDraws(di)
      modifies this
      ensures Model() == Spawn(old(Model()), timestamp, de, c, s, di)
    {
      if timestamp - lastEnemySpawn > enemySpawnInterval as real {
        SpawnEnemy(timestamp, de, c, s);
      }
      if timestamp - lastItemSpawn > 5000.0 {
        SpawnItem(timestamp, di);
      }
    }

    /** `spawnEnemy()` with the timer bookkeeping around it. */
    method SpawnEnemy(timestamp: real, de: seq<real>, c: real, s: real)
      requires |de| >= 4 && AllDraws(de) && c * c + s * s == 1.0
      modifies this
      ensures Model() == old(Model()).(enemies := old(enemies) + [SpawnedGoomba(old(level), de, c, s)],
        lastEnemySpawn := timestamp, enemySpawnInterval := MaxI(800, 4000 - old(level) * 300))
    {
      enemies := enemies + [SpawnedGoomba(level, de, c, s)];
      lastEnemySpawn := timestamp;
      enemySpawnInterval := MaxI(800, 4000 - level * 300);
    }

    /** `spawnItem()` with the timer bookkeeping around it. */
    method SpawnItem(timestamp: real, di: seq<real>)
      requires |di| >= 3 && AllDraws(di)
      modifies this
      ensures Model() == old(Model()).(items := old(items) + [SpawnedPickup(di)], lastItemSpawn := timestamp)
    {
      items := items + [SpawnedPickup(di)];
      lastItemSpawn := timestamp;
    }

    /** The particle countdown of `update`. */
    method AgeParticles()
      modifies this
      ensures Model() == old(Model()).(particles := Aged(old(particles)))
    {
      particles := Age(particles);
    }

    /** The level check of `update`. */
    method CheckLevelUp()
      requires Valid(Model())
      modifies this
      ensures Model() == LevelUp(old(Model()))
    {
      var newLevel := LevelFor(score, 1000.0);
      if newLevel > level {
        level := newLevel;
      }
    }

    /** The part of `update` after the enemy loop. */
    method FinishFrame(timestamp: real, de: seq<real>, c: real, s: real, di: seq<real>)
      requires Valid(Model()) && |de| >= 4 && AllDraws(de) && c * c + s * s == 1.0 && |di| >= 3 && AllDraws(di)
      modifies this
      ensures Model() == Finish(old(Model()), timestamp, de, c, s, di)
    {
      Fight();
      WrapUp(timestamp, de, c, s, di);
    }

    /** Bullets, pickups and particles. */
    method Fight()
      requires Valid(Model())
      modifies this
      ensures Model() == Skirmish(old(Model()))
    {
      MoveBullets();
      CollectItems();
      AgeParticles();
    }

    /** Spawns, level and survival bonus. */
    method WrapUp(timestamp: real, de: seq<real>, c: real, s: real, di: seq<real>)
      requires Valid(Model()) && |de| >= 4 && AllDraws(de) && c * c + s * s == 1.0 && |di| >= 3 && AllDraws(di)
      modifies this
      ensures Model() == Wrap(old(Model()), timestamp, de, c, s, di)
    {
      SpawnDue(timestamp, de, c, s, di);
      CheckLevelUp();
      score := score + 0.1;
    }

    /** `update(timestamp)` with the draws and heading of `spawnEnemy` and the draws of
        `spawnItem`. */
    method Update(timestamp: real, de: seq<real>, c: real, s: real, di: seq<real>)
      requires Valid(Model()) && |de| >= 4 && AllDraws(de) && c * c + s * s == 1.0 && |di| >= 3 && AllDraws(di)
      modifies this
      ensures Model() == Frame(old(Model()), timestamp, de, c, s, di)
    {
      if !isGameActive {
        return;
      }
      MovePlayer();
      var caught := MoveEnemies();
      if caught {
        return;
      }
      FinishFrame(timestamp, de, c, s, di);
    }
  }
}
