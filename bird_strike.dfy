/** The bird strike game (`BirdStrikeEngine` in js/birdStrike.js): a plane flies in one of
    three lanes at the bottom of the canvas, birds and pickups fall towards it, a bird that
    gets past scores 10, a bird that hits costs 200 and grants 1.5 s of invincibility, and
    pickups pay 100, 300 or 1000. The game is endless: time alone adds 0.05 per frame. */
module BirdStrike {
  import opened Common
  import opened Effects

  datatype Kind = Bird | BigBird | Star | Diamond | Chicken

  predicate IsBird(k: Kind) { k == Bird || k == BigBird }

  /** A falling obstacle or pickup: top-left corner, size, speed factor and spawn lane. */
  datatype Obstacle = Obstacle(kind: Kind, x: real, y: real, size: real, speedMult: real, lane: int)

  /** The state `update`, the key handler and the collision rules work on. The plane is
      40 by 40 at y = 330; `targetX` is where it glides to. */
  datatype Game = Game(
    score: real, level: int, currentLane: int, planeX: real, targetX: real,
    lastLaneChange: int, obstacles: seq<Obstacle>, particles: seq<Fx>, explosions: seq<Fx>,
    lastSpawnTime: real, spawnInterval: int, obstacleSpeed: real, invincibleUntil: int,
    active: bool)

  /** Lane centres, left to right. */
  function LaneX(lane: int): (x: real)
    requires 0 <= lane <= 2
    ensures x in {66.0, 200.0, 333.0}
  {
    [66.0, 200.0, 333.0][lane]
  }

  /** What every operation keeps: a non-negative score, a lane among the three, a level of
      at least one, an obstacle speed of at most 6 and a spawn interval of at least 400 ms. */
  predicate Valid(g: Game)
  {
    g.score >= 0.0 && 0 <= g.currentLane <= 2 && g.level >= 1 &&
    g.obstacleSpeed <= 6.0 && g.spawnInterval >= 400
  }

  /** The plane is headed for the middle of its lane. */
  predicate OnLane(g: Game)
  {
    0 <= g.currentLane <= 2 && g.targetX == LaneX(g.currentLane) - 20.0
  }

  /** A key press at wall-clock time `now` (`_handleKeyDown`): left and right move one lane,
      clamped to the outer lanes, and only if more than 200 ms passed since the last move. */
  function Steer(g: Game, key: string, now: int): Game
    requires 0 <= g.currentLane <= 2
  {
    var g1 :=
      if (key == "ArrowLeft" || key == "a") && now - g.lastLaneChange > 200 then
        var lane := MaxI(0, g.currentLane - 1);
        g.(currentLane := lane, targetX := LaneX(lane) - 20.0, lastLaneChange := now)
      else g;
    if (key == "ArrowRight" || key == "d") && now - g1.lastLaneChange > 200 then
      var lane := MinI(2, g1.currentLane + 1);
      g1.(currentLane := lane, targetX := LaneX(lane) - 20.0, lastLaneChange := now)
    else g1
  }

  /** Steering keeps the plane in one of the three lanes, moves it by at most one lane, and
      changes nothing unless the key is a steering key pressed after the 200 ms debounce;
      an accepted move aims the plane at the middle of its new lane. */
  lemma SteerRules(g: Game, key: string, now: int)
    requires 0 <= g.currentLane <= 2
    ensures var r := Steer(g, key, now);
      && 0 <= r.currentLane <= 2
      && -1 <= r.currentLane - g.currentLane <= 1
      && r == g.(currentLane := r.currentLane, targetX := r.targetX, lastLaneChange := r.lastLaneChange)
      && (now - g.lastLaneChange <= 200 ==> r == g)
      && (key !in {"ArrowLeft", "a", "ArrowRight", "d"} ==> r == g)
      && (r.lastLaneChange != g.lastLaneChange ==> r.lastLaneChange == now && OnLane(r))
      && (key in {"ArrowLeft", "a"} && now - g.lastLaneChange > 200 ==> r.currentLane == MaxI(0, g.currentLane - 1))
      && (key in {"ArrowRight", "d"} && now - g.lastLaneChange > 200 ==> r.currentLane == MinI(2, g.currentLane + 1))
  {}

  /** Steering from the middle of a lane lands in the middle of a lane. */
  lemma SteerKeepsOnLane(g: Game, key: string, now: int)
    requires OnLane(g)
    ensures OnLane(Steer(g, key, now))
  {}

  /** `checkCollision(plane, obs)` at wall-clock time `now`: nothing collides while the plane
      is invincible; otherwise the centres must be less than 35 px apart horizontally and the
      boxes, each shrunk by 8 px, must overlap vertically. */
  predicate Collides(g: Game, o: Obstacle, now: int)
  {
    var dx := g.planeX + 20.0 - (o.x + o.size / 2.0);
    && now >= g.invincibleUntil
    && -35.0 < dx < 35.0
    && 330.0 + 8.0 < o.y + o.size - 8.0
    && 330.0 + 40.0 - 8.0 > o.y + 8.0
  }

  /** Invincibility protects against every kind, pickups included. */
  lemma NothingCollidesWhileInvincible(g: Game, o: Obstacle, now: int)
    requires now < g.invincibleUntil
    ensures !Collides(g, o, now)
  {}

  /** Collisions are per lane: a plane sitting in the middle of its lane never collides with
      an obstacle spawned in another lane. */
  lemma CollisionsStayInLane(g: Game, o: Obstacle, now: int)
    requires OnLane(g) && g.planeX == g.targetX
    requires 0 <= o.lane <= 2 && o.x == LaneX(o.lane) - o.size / 2.0
    requires Collides(g, o, now)
    ensures o.lane == g.currentLane
  {
  }

  /** `handleCollision(obs)` at wall-clock time `now`. */
  function Hit(g: Game, o: Obstacle, now: int): (r: Game)
    ensures r == g.(score := r.score, invincibleUntil := r.invincibleUntil,
                    particles := r.particles, explosions := r.explosions)
  {
    match o.kind
    case Bird | BigBird =>
      g.(score := MaxR(0.0, g.score - 200.0), invincibleUntil := now + 1500,
         explosions := g.explosions + [Fx(20)], particles := g.particles + Burst(8, 30))
    case Star => g.(score := g.score + 100.0, particles := g.particles + [Fx(40)])
    case Diamond => g.(score := g.score + 300.0, particles := g.particles + [Fx(40)])
    case Chicken => g.(score := g.score + 1000.0, particles := g.particles + [Fx(40)])
  }

  /** The value of a pickup. */
  function PickupPoints(k: Kind): real
  {
    match k
    case Star => 100.0
    case Diamond => 300.0
    case Chicken => 1000.0
    case _ => 0.0
  }

  /** A bird costs 200 points, never going below zero, and starts 1.5 s of invincibility; a
      pickup pays its value and leaves the invincibility window alone. */
  lemma HitRules(g: Game, o: Obstacle, now: int)
    requires g.score >= 0.0
    ensures IsBird(o.kind) ==>
      Hit(g, o, now).score == MaxR(0.0, g.score - 200.0) && Hit(g, o, now).invincibleUntil == now + 1500
    ensures !IsBird(o.kind) ==>
      Hit(g, o, now).score == g.score + PickupPoints(o.kind) && PickupPoints(o.kind) >= 100.0 &&
      Hit(g, o, now).invincibleUntil == g.invincibleUntil
    ensures Hit(g, o, now).score >= 0.0
  {}

  /** An obstacle after one frame of falling. */
  function Fallen(o: Obstacle, speed: real): Obstacle
  {
    o.(y := o.y + speed * o.speedMult)
  }

  /** The obstacle loop of `update`: obstacles `i-1` down to `0` fall; one beyond y = 450 is
      spliced out (a bird scoring 10 for being dodged), one that collides is handled and
      spliced out. */
  function Sweep(g: Game, i: nat, now: int): (r: Game)
    requires i <= |g.obstacles|
    ensures r == g.(score := r.score, invincibleUntil := r.invincibleUntil, obstacles := r.obstacles,
                    particles := r.particles, explosions := r.explosions)
    ensures |r.obstacles| <= |g.obstacles|
    decreases i
  {
    if i == 0 then g
    else
      var o := Fallen(g.obstacles[i - 1], g.obstacleSpeed);
      var rest := Remove(g.obstacles, i - 1);
      if o.y > 450.0 then
        Sweep(g.(score := g.score + (if IsBird(o.kind) then 10.0 else 0.0), obstacles := rest), i - 1, now)
      else if Collides(g, o, now) then Sweep(Hit(g.(obstacles := rest), o, now), i - 1, now)
      else Sweep(g.(obstacles := g.obstacles[i - 1 := o]), i - 1, now)
  }

  /** What one obstacle of the loop does: once it has fallen past y = 450 it is spliced out,
      paying 10 if it is a bird or a big bird and nothing otherwise; one that collides is
      handled and spliced out; anything else only falls. */
  lemma SweepRules(g: Game, i: nat, now: int)
    requires 0 < i <= |g.obstacles|
    ensures var o := Fallen(g.obstacles[i - 1], g.obstacleSpeed); var rest := Remove(g.obstacles, i - 1);
      && (o.y > 450.0 ==>
            Sweep(g, i, now) == Sweep(g.(score := g.score + (if IsBird(o.kind) then 10.0 else 0.0), obstacles := rest), i - 1, now))
      && (o.y <= 450.0 && Collides(g, o, now) ==> Sweep(g, i, now) == Sweep(Hit(g.(obstacles := rest), o, now), i - 1, now))
      && (o.y <= 450.0 && !Collides(g, o, now) ==> Sweep(g, i, now) == Sweep(g.(obstacles := g.obstacles[i - 1 := o]), i - 1, now))
  {
  }

  /** How many of the obstacles `s` are birds that fall past y = 450 this frame. */
  function DodgedBirds(s: seq<Obstacle>, speed: real): nat
  {
    if s == [] then 0
    else
      var o := Fallen(s[|s| - 1], speed);
      DodgedBirds(s[..|s| - 1], speed) + (if o.y > 450.0 && IsBird(o.kind) then 1 else 0)
  }

  /** While the plane is invincible the loop changes the score only for dodged birds: it
      pays exactly 10 for each bird or big bird that leaves the field, and nothing for a
      pickup that does. */
  lemma {:induction false} ShieldedSweepPays(g: Game, i: nat, now: int)
    requires i <= |g.obstacles| && now < g.invincibleUntil
    ensures Sweep(g, i, now).score == g.score + 10.0 * DodgedBirds(g.obstacles[..i], g.obstacleSpeed) as real
    decreases i
  {
    if i > 0 {
      var o := Fallen(g.obstacles[i - 1], g.obstacleSpeed);
      var pay: nat := if o.y > 450.0 && IsBird(o.kind) then 1 else 0;
      var h := if o.y > 450.0 then g.(score := g.score + 10.0 * pay as real, obstacles := Remove(g.obstacles, i - 1))
               else g.(obstacles := g.obstacles[i - 1 := o]);
      NothingCollidesWhileInvincible(g, o, now);
      SweepRules(g, i, now);
      assert Sweep(g, i, now) == Sweep(h, i - 1, now);
      assert g.obstacles[..i] == g.obstacles[..i - 1] + [g.obstacles[i - 1]];
      assert DodgedBirds(g.obstacles[..i], g.obstacleSpeed) == DodgedBirds(g.obstacles[..i - 1], g.obstacleSpeed) + pay;
      assert h.obstacles[..i - 1] == g.obstacles[..i - 1];
      ShieldedSweepPays(h, i - 1, now);
    }
  }

  /** While invincible the sweep only moves obstacles and pays for dodged birds. */
  lemma {:induction false} ShieldedSweep(g: Game, i: nat, now: int)
    requires i <= |g.obstacles| && now < g.invincibleUntil
    ensures Sweep(g, i, now).score >= g.score
    ensures Sweep(g, i, now).invincibleUntil == g.invincibleUntil
    ensures Sweep(g, i, now).particles == g.particles && Sweep(g, i, now).explosions == g.explosions
    decreases i
  {
    if i > 0 {
      var o := Fallen(g.obstacles[i - 1], g.obstacleSpeed);
      var rest := Remove(g.obstacles, i - 1);
      if o.y > 450.0 {
        ShieldedSweep(g.(score := g.score + (if IsBird(o.kind) then 10.0 else 0.0), obstacles := rest), i - 1, now);
      } else {
        ShieldedSweep(g.(obstacles := g.obstacles[i - 1 := o]), i - 1, now);
      }
    }
  }

  /** A frame's obstacle loop costs at most one bird hit: the first hit makes the plane
      invincible for the rest of the loop, so the score falls by at most 200 and stays
      non-negative. */
  lemma {:induction false} AtMostOneHitPerSweep(g: Game, i: nat, now: int)
    requires i <= |g.obstacles| && g.score >= 0.0
    ensures Sweep(g, i, now).score >= g.score - 200.0
    ensures Sweep(g, i, now).score >= 0.0
    decreases i
  {
    if i > 0 {
      var o := Fallen(g.obstacles[i - 1], g.obstacleSpeed);
      var rest := Remove(g.obstacles, i - 1);
      if o.y > 450.0 {
        var h := g.(score := g.score + (if IsBird(o.kind) then 10.0 else 0.0), obstacles := rest);
        assert Sweep(g, i, now) == Sweep(h, i - 1, now);
        AtMostOneHitPerSweep(h, i - 1, now);
      } else if Collides(g, o, now) {
        var h := Hit(g.(obstacles := rest), o, now);
        assert Sweep(g, i, now) == Sweep(h, i - 1, now);
        if IsBird(o.kind) {
          ShieldedSweep(h, i - 1, now);
        } else {
          AtMostOneHitPerSweep(h, i - 1, now);
        }
      } else {
        var h := g.(obstacles := g.obstacles[i - 1 := o]);
        assert Sweep(g, i, now) == Sweep(h, i - 1, now);
        AtMostOneHitPerSweep(h, i - 1, now);
      }
    }
  }

  /** After the loop no obstacle is left below y = 450: each leaves in the frame it passes. */
  lemma {:induction false} SweepClearsPassed(g: Game, i: nat, now: int)
    requires i <= |g.obstacles|
    requires forall k :: i <= k < |g.obstacles| ==> g.obstacles[k].y <= 450.0
    ensures forall k :: 0 <= k < |Sweep(g, i, now).obstacles| ==> Sweep(g, i, now).obstacles[k].y <= 450.0
    decreases i
  {
    if i > 0 {
      var o := Fallen(g.obstacles[i - 1], g.obstacleSpeed);
      var rest := Remove(g.obstacles, i - 1);
      assert forall k :: i - 1 <= k < |rest| ==> rest[k] == g.obstacles[k + 1];
      if o.y > 450.0 {
        var h := g.(score := g.score + (if IsBird(o.kind) then 10.0 else 0.0), obstacles := rest);
        assert Sweep(g, i, now) == Sweep(h, i - 1, now);
        SweepClearsPassed(h, i - 1, now);
      } else if Collides(g, o, now) {
        var h := Hit(g.(obstacles := rest), o, now);
        assert Sweep(g, i, now) == Sweep(h, i - 1, now);
        SweepClearsPassed(h, i - 1, now);
      } else {
        var h := g.(obstacles := g.obstacles[i - 1 := o]);
        assert Sweep(g, i, now) == Sweep(h, i - 1, now);
        SweepClearsPassed(h, i - 1, now);
      }
    }
  }

  /** `checkLevelUp`: the level follows `floor(score / 500) + 1` but never falls; a rise sets
      the obstacle speed to `min(6, 2 + 0.4 level)` and the spawn interval to
      `max(400, 1200 - 80 level)`. */
  function LevelUp(g: Game): (r: Game)
    requires g.score >= 0.0
    ensures r.level >= g.level
    ensures r.level > g.level ==>
      r.level == LevelFor(g.score, 500.0) && r.obstacleSpeed <= 6.0 && r.spawnInterval >= 400 &&
      r == g.(level := r.level, obstacleSpeed := MinR(6.0, 2.0 + r.level as real * 0.4),
              spawnInterval := MaxI(400, 1200 - r.level * 80))
    ensures r.level == g.level ==> r == g
  {
    var newLevel := LevelFor(g.score, 500.0);
    if newLevel > g.level then
      g.(level := newLevel, obstacleSpeed := MinR(6.0, 2.0 + newLevel as real * 0.4),
         spawnInterval := MaxI(400, 1200 - newLevel * 80))
    else g
  }

  /** Levels only rise with the score: after a check the level is at least the one the score
      stands for, so a higher score never leaves a lower level. */
  lemma LevelTracksScore(g: Game, h: Game)
    requires g.score >= 0.0 && h.score >= g.score
    ensures LevelUp(g).level >= LevelFor(g.score, 500.0)
    ensures LevelUp(h).level >= LevelFor(g.score, 500.0)
  {
    LevelForMonotone(g.score, h.score, 500.0);
  }

  /** `spawnObstacle` for the draws `d`: the kind from `d[0]` (bird, big bird, star, diamond,
      chicken at 0.55, 0.65, 0.80, 0.90), then for a bird an emoji (`d[1]`) and a speed
      (`d[2]`), then the lane. */
  function Spawned(d: seq<real>): (o: Obstacle)
    requires |d| >= 4 && AllDraws(d)
    ensures o.kind == Bird <==> d[0] < 0.55
    ensures o.kind == BigBird <==> 0.55 <= d[0] < 0.65
    ensures o.kind == Star <==> 0.65 <= d[0] < 0.80
    ensures o.kind == Diamond <==> 0.80 <= d[0] < 0.90
    ensures o.kind == Chicken <==> 0.90 <= d[0]
    ensures 0 <= o.lane <= 2 && o.x == LaneX(o.lane) - o.size / 2.0 && o.y == -o.size
    ensures o.size > 0.0 && o.speedMult > 0.0
  {
    if d[0] < 0.55 then
      var speed := 0.8 + d[2] * 0.6;
      var lane := Pick(d[3], 3);
      Obstacle(Bird, LaneX(lane) - 35.0 / 2.0, -35.0, 35.0, speed, lane)
    else
      var (kind, size, speed) :=
        if d[0] < 0.65 then (BigBird, 55.0, 0.6)
        else if d[0] < 0.80 then (Star, 25.0, 1.0)
        else if d[0] < 0.90 then (Diamond, 25.0, 1.2)
        else (Chicken, 30.0, 0.9);
      var lane := Pick(d[1], 3);
      Obstacle(kind, LaneX(lane) - size / 2.0, -size, size, speed, lane)
  }

  /** The spawn step of `update`. */
  function Spawn(g: Game, timestamp: real, d: seq<real>): Game
    requires |d| >= 4 && AllDraws(d)
  {
    if timestamp - g.lastSpawnTime > g.spawnInterval as real
    then g.(obstacles := g.obstacles + [Spawned(d)], lastSpawnTime := timestamp)
    else g
  }

  /** The second half of a frame at wall-clock time `now`: the obstacles move, particles and
      explosions age, the level is checked and 0.05 is added for surviving the frame. */
  function Settle(g: Game, now: int): (r: Game)
    requires Valid(g)
    ensures Valid(r) && r.level >= g.level && r.currentLane == g.currentLane
    ensures r.score >= g.score - 200.0 + 0.05
  {
    var g3 := Sweep(g, |g.obstacles|, now);
    AtMostOneHitPerSweep(g, |g.obstacles|, now);
    var g4 := g3.(particles := Aged(g3.particles), explosions := Aged(g3.explosions));
    var g5 := LevelUp(g4);
    g5.(score := g5.score + 0.05)
  }

  /** One frame of `update(timestamp)` at wall-clock time `now`: the plane glides a fifth of
      the way to its target, an obstacle may spawn, then the frame settles. */
  function Step(g: Game, timestamp: real, now: int, d: seq<real>): (r: Game)
    requires Valid(g) && |d| >= 4 && AllDraws(d)
    ensures Valid(r) && r.level >= g.level && r.currentLane == g.currentLane
    ensures r.score >= g.score - 200.0 + 0.05
  {
    Settle(Spawn(g.(planeX := g.planeX + (g.targetX - g.planeX) * 0.2), timestamp, d), now)
  }

  class BirdStrikeEngine {
    var score: real
    var level: int
    var currentLane: int
    var planeX: real
    var targetX: real
    var lastLaneChange: int
    var obstacles: seq<Obstacle>
    var particles: seq<Fx>
    var explosions: seq<Fx>
    var lastSpawnTime: real
    var spawnInterval: int
    var obstacleSpeed: real
    var invincibleUntil: int
    var isGameActive: bool

    function Model(): Game
      reads this
    {
      Game(score, level, currentLane, planeX, targetX, lastLaneChange, obstacles, particles,
           explosions, lastSpawnTime, spawnInterval, obstacleSpeed, invincibleUntil, isGameActive)
    }

    constructor ()
      ensures Valid(Model())
      ensures Model() == Game(0.0, 1, 1, 200.0, 200.0, 0, [], [], [], 0.0, 1200, 2.0, 0, false)
    {
      score, level, currentLane, planeX, targetX, lastLaneChange := 0.0, 1, 1, 200.0, 200.0, 0;
      obstacles, particles, explosions := [], [], [];
      lastSpawnTime, spawnInterval, obstacleSpeed, invincibleUntil := 0.0, 1200, 2.0, 0;
      isGameActive := false;
    }

    /** `start()`: everything is reset and the plane sits in the middle lane. */
    method Start()
      modifies this
      ensures Valid(Model()) && OnLane(Model()) && planeX == targetX
      ensures Model() == Game(0.0, 1, 1, 180.0, 180.0, 0, [], [], [], 0.0, 1200, 2.0, 0, true)
    {
      ResetScore();
      PlacePlane();
      ResetFlight();
    }

    /** The score and level part of `start()`, and the lists it empties. */
    method ResetScore()
      modifies this
      ensures Model() == old(Model()).(active := true, score := 0.0, level := 1,
                                       obstacles := [], particles := [], explosions := [])
    {
      isGameActive := true;
      score := 0.0;
      level := 1;
      obstacles := [];
      particles := [];
      explosions := [];
    }

    /** The plane part of `start()`: the middle lane, with the plane centred on it. */
    method PlacePlane()
      modifies this
      ensures Model() == old(Model()).(currentLane := 1, planeX := 180.0, targetX := 180.0)
    {
      currentLane := 1;
      planeX := LaneX(1) - 40.0 / 2.0;
      targetX := planeX;
    }

    /** The pace and timer part of `start()`. */
    method ResetFlight()
      modifies this
      ensures Model() == old(Model()).(obstacleSpeed := 2.0, spawnInterval := 1200, lastSpawnTime := 0.0,
                                       lastLaneChange := 0, invincibleUntil := 0)
    {
      obstacleSpeed := 2.0;
      spawnInterval := 1200;
      lastSpawnTime := 0.0;
      lastLaneChange := 0;
      invincibleUntil := 0;
    }

    /** `stop()`: the game ends and reports the whole points of its score and its level. */
    method Stop() returns (finalScore: int, finalLevel: int)
      requires Valid(Model())
      modifies this
      ensures Model() == old(Model()).(active := false)
      ensures finalScore >= 0 && finalScore as real <= score < finalScore as real + 1.0
      ensures finalLevel == level
    {
      isGameActive := false;
      finalScore := score.Floor;
      finalLevel := level;
    }

    /** `_handleKeyDown(e)` with `now` the wall-clock time of the key press. */
    method HandleKeyDown(key: string, now: int)
      requires 0 <= currentLane <= 2
      modifies this
      ensures Model() == Steer(old(Model()), key, now)
    {
      if key == "ArrowLeft" || key == "a" {
        if now - lastLaneChange > 200 {
          currentLane := MaxI(0, currentLane - 1);
          targetX := LaneX(currentLane) - 40.0 / 2.0;
          lastLaneChange := now;
        }
      }
      if key == "ArrowRight" || key == "d" {
        if now - lastLaneChange > 200 {
          currentLane := MinI(2, currentLane + 1);
          targetX := LaneX(currentLane) - 40.0 / 2.0;
          lastLaneChange := now;
        }
      }
    }

    method HandleCollision(o: Obstacle, now: int)
      modifies this
      ensures Model() == Hit(old(Model()), o, now)
    {
      if o.kind == Bird || o.kind == BigBird {
        score := MaxR(0.0, score - 200.0);
        invincibleUntil := now + 1500;
        explosions := explosions + [Fx(20)];
        var feathers := Emit(8, 30);
        particles := particles + feathers;
      } else if o.kind == Star {
        score := score + 100.0;
        particles := particles + [Fx(40)];
      } else if o.kind == Diamond {
        score := score + 300.0;
        particles := particles + [Fx(40)];
      } else if o.kind == Chicken {
        score := score + 1000.0;
        particles := particles + [Fx(40)];
      }
    }

    method CheckLevelUp()
      requires score >= 0.0
      modifies this
      ensures Model() == LevelUp(old(Model()))
    {
      var newLevel := LevelFor(score, 500.0);
      if newLevel > level {
        level := newLevel;
        obstacleSpeed := MinR(6.0, 2.0 + level as real * 0.4);
        spawnInterval := MaxI(400, 1200 - level * 80);
      }
    }

    /** The obstacle loop of `update`. */
    method MoveObstacles(now: int)
      modifies this
      ensures Model() == Sweep(old(Model()), |old(obstacles)|, now)
    {
      var i := |obstacles|;
      while i > 0
        invariant 0 <= i <= |obstacles|
        invariant Sweep(Model(), i, now) == Sweep(old(Model()), |old(obstacles)|, now)
      {
        FallAt(i, now);
        i := i - 1;
      }
    }

    /** One pass of the obstacle loop, at index `i - 1`: the rest of the loop after it does
        what `Sweep` from index `i - 1` says. */
    method FallAt(i: nat, now: int)
      requires 0 < i <= |obstacles|
      modifies this
      ensures i - 1 <= |obstacles|
      ensures Sweep(Model(), i - 1, now) == Sweep(old(Model()), i, now)
    {
      SweepRules(Model(), i, now);
      var o := Fallen(obstacles[i - 1], obstacleSpeed);
      if o.y > 450.0 {
        if o.kind == Bird || o.kind == BigBird {
          score := score + 10.0;
        }
        obstacles := Remove(obstacles, i - 1);
      } else if Collides(Model(), o, now) {
        obstacles := Remove(obstacles, i - 1);
        HandleCollision(o, now);
      } else {
        obstacles := obstacles[i - 1 := o];
      }
    }

    /** The obstacle loop, the countdowns, the level check and the time bonus of `update`. */
    method SettleFrame(now: int)
      requires Valid(Model())
      modifies this
      ensures Model() == Settle(old(Model()), now)
    {
      ghost var g2 := Model();
      MoveObstacles(now);
      AtMostOneHitPerSweep(g2, |g2.obstacles|, now);
      particles := Age(particles);
      explosions := Age(explosions);
      CheckLevelUp();
      score := score + 0.05;
    }

    /** `update(timestamp)` with `now` the wall-clock time of the frame and `d` the draws
        `spawnObstacle` would make. */
    method Update(timestamp: real, now: int, d: seq<real>)
      requires Valid(Model()) && |d| >= 4 && AllDraws(d)
      modifies this
      ensures Model() == Step(old(Model()), timestamp, now, d)
    {
      Glide();
      SpawnDue(timestamp, d);
      SettleFrame(now);
    }

    /** The plane moves a fifth of the way to its target lane. */
    method Glide()
      modifies this
      ensures Model() == old(Model()).(planeX := old(planeX) + (old(targetX) - old(planeX)) * 0.2)
    {
      planeX := planeX + (targetX - planeX) * 0.2;
    }

    /** The spawn timer of `update`. */
    method SpawnDue(timestamp: real, d: seq<real>)
      requires |d| >= 4 && AllDraws(d)
      modifies this
      ensures Model() == Spawn(old(Model()), timestamp, d)
    {
      if timestamp - lastSpawnTime > spawnInterval as real {
        obstacles := obstacles + [Spawned(d)];
        lastSpawnTime := timestamp;
      }
    }
  }
}
