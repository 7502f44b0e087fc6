/** The endless runner (`DinoRunEngine` in js/dinoRun.js): the runner jumps pipes and
    crouches under Bullet Bills that scroll in from the right ever faster. A step of score
    is earned every 40 px run. A hit starts a one-second death animation, after which the
    run ends and the high score is kept if beaten. */
module DinoRun {
  import opened Common
  import opened Geometry

  /** `gameState`. */
  datatype Phase = Playing | Dying | Ended

  datatype ObstacleKind = Pipe | Bullet

  /** An obstacle; its size follows from its kind. */
  datatype Obstacle = Obstacle(kind: ObstacleKind, x: real, y: real)

  function ObstacleWidth(k: ObstacleKind): real { if k == Pipe then 40.0 else 65.0 }
  function ObstacleHeight(k: ObstacleKind): real { if k == Pipe then 50.0 else 45.0 }

  const GroundY := 350.0
  const DinoX := 50.0
  const DinoSize := 40.0
  const JumpForce := -12.0
  const Gravity := 0.6
  const Padding := 5.0

  /** The state `update`, the handlers, `start` and `stop` work on; `x`, `y`, `vy`,
      `isJumping` and `isCrouching` are the runner's (`this.dino`). */
  datatype Game = Game(
    score: int, highScore: int, phase: Phase, active: bool, deathTimer: real,
    collided: Option<Obstacle>,
    x: real, y: real, vy: real, isJumping: bool, isCrouching: bool,
    obstacles: seq<Obstacle>, baseSpeed: real, spawnTimer: real, nextSpawnTime: real,
    distCounter: real)

  /** What every operation keeps: scores are not negative and the running speed never
      drops below its starting value. */
  predicate Valid(g: Game)
  {
    g.score >= 0 && g.highScore >= 0 && g.baseSpeed >= 200.0
  }

  /** The runner's hit box: the lower half of its square while crouching. */
  function DinoBox(g: Game): (b: Box)
    ensures b.x == g.x && b.w == DinoSize && b.y + b.h == g.y + DinoSize
    ensures g.isCrouching ==> b.y == g.y + DinoSize / 2.0 && b.h == DinoSize / 2.0
    ensures !g.isCrouching ==> b.y == g.y && b.h == DinoSize
  {
    if g.isCrouching then Box(g.x, g.y + DinoSize / 2.0, DinoSize, DinoSize / 2.0)
    else Box(g.x, g.y, DinoSize, DinoSize)
  }

  function ObstacleBox(o: Obstacle): Box
  {
    Box(o.x, o.y, ObstacleWidth(o.kind), ObstacleHeight(o.kind))
  }

  /** `checkCollision(dino, obs)`: overlap with 5 px of padding on every side. */
  predicate CheckCollision(g: Game, o: Obstacle)
  {
    Overlap(DinoBox(g), ObstacleBox(o), Padding)
  }

  /** Crouching only ever avoids hits: an obstacle that touches the crouching runner also
      touches it standing. On the ground a crouching runner clears every Bullet Bill (whose
      top is at 315 to 325), while a standing one is hit by any whose top is below 315 that
      overlaps it horizontally; pipes hit it either way. */
  lemma CrouchBox(g: Game, o: Obstacle)
    ensures g.isCrouching && CheckCollision(g, o) ==> CheckCollision(g.(isCrouching := false), o)
    ensures g.y == GroundY && g.isCrouching && o.kind == Bullet && o.y <= 325.0 ==> !CheckCollision(g, o)
    ensures g.y == GroundY && !g.isCrouching && o.kind == Bullet && 315.0 < o.y <= 325.0 ==>
      (CheckCollision(g, o) <==> g.x + Padding < o.x + 65.0 - Padding && g.x + DinoSize - Padding > o.x + Padding)
    ensures g.y == GroundY && o.kind == Pipe && o.y == 340.0 ==>
      (CheckCollision(g, o) <==> CheckCollision(g.(isCrouching := !g.isCrouching), o))
  {
  }

  /** `jump()`: a new jump only from the ground. */
  function Jumped(g: Game): (r: Game)
    ensures !g.isJumping ==> r == g.(vy := JumpForce, isJumping := true)
    ensures g.isJumping ==> r == g
  {
    if !g.isJumping then g.(vy := JumpForce, isJumping := true) else g
  }

  /** The keydown handler: while playing, space jumps and the down arrow crouches; any
      other key, and any key in another phase, changes nothing. */
  function KeyDown(g: Game, code: string): (r: Game)
    ensures g.phase != Playing ==> r == g
    ensures g.phase == Playing && code == "Space" ==> r == Jumped(g)
    ensures g.phase == Playing && code == "ArrowDown" ==> r == g.(isCrouching := true)
    ensures code != "Space" && code != "ArrowDown" ==> r == g
  {
    if g.phase != Playing then g
    else
      var g1 := if code == "Space" then Jumped(g) else g;
      if code == "ArrowDown" then g1.(isCrouching := true) else g1
  }

  /** The keyup handler: releasing the down arrow stands up, in any phase. */
  function KeyUp(g: Game, code: string): (r: Game)
    ensures code == "ArrowDown" ==> r == g.(isCrouching := false)
    ensures code != "ArrowDown" ==> r == g
  {
    if code == "ArrowDown" then g.(isCrouching := false) else g
  }

  /** The mouse-down handler: a jump while playing. */
  function MouseDown(g: Game): (r: Game)
    ensures g.phase != Playing ==> r == g
    ensures g.phase == Playing ==> r == Jumped(g)
  {
    if g.phase != Playing then g else Jumped(g)
  }

  /** The runner part of `update`: the speed grows by 5 px/s per second, the runner moves by
      its velocity, gravity (three times as strong when crouching in the air) pulls, and at
      or below the ground it lands. */
  function Physics(g: Game, dt: real): (r: Game)
    requires Valid(g) && dt >= 0.0
    ensures Valid(r) && r.baseSpeed == g.baseSpeed + 5.0 * dt
    ensures g.y + g.vy >= GroundY ==> r.y == GroundY && r.vy == 0.0 && !r.isJumping
    ensures g.y + g.vy < GroundY ==>
      r.y == g.y + g.vy && r.isJumping == g.isJumping &&
      r.vy == g.vy + (if g.isJumping && g.isCrouching then 3.0 * Gravity else Gravity)
    ensures r == g.(baseSpeed := r.baseSpeed, y := r.y, vy := r.vy, isJumping := r.isJumping)
  {
    var speed := g.baseSpeed + 5.0 * dt;
    var y := g.y + g.vy;
    var vy := g.vy + (if g.isJumping && g.isCrouching then 3.0 * Gravity else Gravity);
    if y >= GroundY then g.(baseSpeed := speed, y := GroundY, vy := 0.0, isJumping := false)
    else g.(baseSpeed := speed, y := y, vy := vy)
  }

  /** The score part of `update`: the distance run is counted, and each time it reaches 40
      px one point is scored and 40 px are taken off; at most one point a frame. */
  function Stride(g: Game, dt: real): (r: Game)
    requires Valid(g)
    ensures Valid(r)
    ensures var run := g.distCounter + g.baseSpeed * dt;
      && (run >= 40.0 ==> r.score == g.score + 1 && r.distCounter == run - 40.0)
      && (run < 40.0 ==> r.score == g.score && r.distCounter == run)
    ensures r == g.(score := r.score, distCounter := r.distCounter)
  {
    var run := g.distCounter + g.baseSpeed * dt;
    if run >= 40.0 then g.(score := g.score + 1, distCounter := run - 40.0)
    else g.(distCounter := run)
  }

  /** `spawnObstacle` for the draw `r`: a Bullet Bill below 0.2 (its top drawn from `r2`
      between 315 and 325), else a pipe on the ground; both start at the right edge. */
  function Spawned(r: real, r2: real): (o: Obstacle)
    requires IsDraw(r) && IsDraw(r2)
    ensures o.kind == Bullet <==> r < 0.2
    ensures o.kind == Pipe ==> o.y == 340.0
    ensures o.kind == Bullet ==> 315.0 <= o.y < 325.0
    ensures o.x == 400.0
  {
    if r < 0.2 then Obstacle(Bullet, 400.0, 315.0 + r2 * 10.0) else Obstacle(Pipe, 400.0, 340.0)
  }

  /** The spawn part of `update`, with the draws `d` in call order: once the timer passes
      the next spawn time, an obstacle is spawned, the timer restarts and the next time is
      drawn between 1 and 3 seconds, shortened as the speed grows past 250. */
  function SpawnTick(g: Game, dt: real, d: seq<real>): (r: Game)
    requires Valid(g) && |d| >= 3 && AllDraws(d)
    ensures Valid(r)
    ensures r == g.(obstacles := r.obstacles, spawnTimer := r.spawnTimer, nextSpawnTime := r.nextSpawnTime)
    ensures g.spawnTimer + dt * 1000.0 > g.nextSpawnTime ==>
      && r.obstacles == g.obstacles + [Spawned(d[0], d[1])] && r.spawnTimer == 0.0
      && r.nextSpawnTime * (g.baseSpeed / 250.0) == (if d[0] < 0.2 then d[2] else d[1]) * 2000.0 + 1000.0
    ensures g.spawnTimer + dt * 1000.0 <= g.nextSpawnTime ==> r == g.(spawnTimer := g.spawnTimer + dt * 1000.0)
  {
    var timer := g.spawnTimer + dt * 1000.0;
    if timer > g.nextSpawnTime then
      var o := Spawned(d[0], d[1]);
      var r := if o.kind == Bullet then d[2] else d[1];
      g.(obstacles := g.obstacles + [o], spawnTimer := 0.0,
         nextSpawnTime := (r * 2000.0 + 1000.0) / (g.baseSpeed / 250.0))
    else g.(spawnTimer := timer)
  }

  /** How far the obstacles scroll in a frame of `dt` seconds. */
  function Scroll(g: Game, dt: real): real
  {
    g.baseSpeed * dt
  }

  /** The obstacle loop of `update`, indices `i-1` down to `0`: each obstacle scrolls left
      by `step` (the speed times the frame time);
      the first one found touching the runner starts the death animation and ends the
      frame; one that is fully off the left edge is spliced out. The flag says whether the
      runner was hit. */
  function Run(g: Game, i: nat, step: real): (r: (Game, bool))
    requires i <= |g.obstacles|
    ensures r.1 ==> r.0.phase == Dying && r.0.collided.Some? && CheckCollision(r.0, r.0.collided.value)
    ensures !r.1 ==> r.0.phase == g.phase && r.0.collided == g.collided
    ensures r.0 == g.(obstacles := r.0.obstacles, phase := r.0.phase, collided := r.0.collided)
    decreases i
  {
    if i == 0 then (g, false)
    else
      var o := g.obstacles[i - 1].(x := g.obstacles[i - 1].x - step);
      var h := g.(obstacles := g.obstacles[i - 1 := o]);
      if CheckCollision(h, o) then (h.(phase := Dying, collided := Some(o)), true)
      else if o.x + ObstacleWidth(o.kind) < 0.0 then Run(h.(obstacles := Remove(h.obstacles, i - 1)), i - 1, step)
      else Run(h, i - 1, step)
  }

  /** An obstacle still on the list after a frame: clear of the runner's box `b` and not
      yet fully off the left edge. */
  predicate Passed(b: Box, o: Obstacle)
  {
    !Overlap(b, ObstacleBox(o), Padding) && o.x + ObstacleWidth(o.kind) >= 0.0
  }

  /** Every obstacle of `g` from index `i` on has been passed. */
  predicate PassedFrom(g: Game, i: nat)
  {
    forall k :: i <= k < |g.obstacles| ==> Passed(DinoBox(g), g.obstacles[k])
  }

  /** A frame the runner survives leaves every obstacle on the list clear of it and not yet
      fully off the left edge, when those it did not reach were so already. */
  lemma {:induction false} ClearRun(g: Game, i: nat, step: real)
    requires i <= |g.obstacles| && PassedFrom(g, i)
    ensures !Run(g, i, step).1 ==> PassedFrom(Run(g, i, step).0, 0)
    decreases i
  {
    if i > 0 {
      var o := g.obstacles[i - 1].(x := g.obstacles[i - 1].x - step);
      var h := g.(obstacles := g.obstacles[i - 1 := o]);
      if !CheckCollision(h, o) {
        if o.x + ObstacleWidth(o.kind) < 0.0 {
          var h' := h.(obstacles := Remove(h.obstacles, i - 1));
          assert Run(g, i, step) == Run(h', i - 1, step);
          assert DinoBox(h') == DinoBox(g);
          forall k | i - 1 <= k < |h'.obstacles|
            ensures Passed(DinoBox(h'), h'.obstacles[k])
          {
            assert h'.obstacles[k] == g.obstacles[k + 1];
          }
          ClearRun(h', i - 1, step);
        } else {
          assert Run(g, i, step) == Run(h, i - 1, step);
          assert DinoBox(h) == DinoBox(g);
          assert Passed(DinoBox(h), o);
          forall k | i - 1 <= k < |h.obstacles|
            ensures Passed(DinoBox(h), h.obstacles[k])
          {
            if k >= i {
              assert h.obstacles[k] == g.obstacles[k];
            }
          }
          ClearRun(h, i - 1, step);
        }
      }
    }
  }

  /** `stop()`: the run ends, and the high score becomes the final score if it beats it. */
  function Stopped(g: Game): (r: Game)
    requires Valid(g)
    ensures Valid(r) && r.phase == Ended && !r.active
    ensures r.highScore == MaxI(g.highScore, g.score)
    ensures r.highScore != g.highScore ==> r.highScore == g.score > g.highScore
    ensures r == g.(active := false, phase := Ended, highScore := r.highScore)
  {
    g.(active := false, phase := Ended, highScore := if g.score > g.highScore then g.score else g.highScore)
  }

  /** How the death animation moves the runner: flung up and to the left by a Bullet Bill,
      drawn a tenth of the way towards the pipe's mouth by a pipe. */
  function Flung(g: Game, dt: real): (r: Game)
    ensures r == g.(x := r.x, y := r.y)
    ensures g.collided.Some? && g.collided.value.kind == Bullet ==> r.x == g.x - 600.0 * dt && r.y == g.y - 200.0 * dt
  {
    match g.collided
    case Some(o) =>
      if o.kind == Bullet then g.(x := g.x - 600.0 * dt, y := g.y - 200.0 * dt)
      else
        var tx := o.x + ObstacleWidth(o.kind) / 2.0;
        g.(x := g.x + (tx - (g.x + DinoSize / 2.0)) * 0.1, y := g.y + (o.y - (g.y + DinoSize / 2.0)) * 0.1)
    case None => g
  }

  /** `updateDeathAnimation(dt)`: the timer runs, the runner is moved, and after more than
      a second the run stops. */
  function Death(g: Game, dt: real): (r: Game)
    requires Valid(g)
    ensures Valid(r) && r.deathTimer == g.deathTimer + dt
    ensures g.deathTimer + dt > 1.0 ==> r.phase == Ended && r.highScore == MaxI(g.highScore, g.score)
    ensures g.deathTimer + dt <= 1.0 ==> r.phase == g.phase && r.highScore == g.highScore
    ensures r.score == g.score && r.obstacles == g.obstacles && r.baseSpeed == g.baseSpeed
  {
    var g1 := Flung(g.(deathTimer := g.deathTimer + dt), dt);
    if g1.deathTimer > 1.0 then Stopped(g1) else g1
  }

  /** `update(dt)`: the death animation while dying; otherwise the runner, the score, the
      spawn timer and the obstacles. */
  function Updated(g: Game, dt: real, d: seq<real>): (r: Game)
    requires Valid(g) && dt >= 0.0 && |d| >= 3 && AllDraws(d)
    ensures Valid(r)
  {
    if g.phase == Dying then Death(g, dt)
    else
      var g1 := SpawnTick(Stride(Physics(g, dt), dt), dt, d);
      Run(g1, |g1.obstacles|, Scroll(g1, dt)).0
  }

  /** One animation frame of the game loop: nothing once the run has ended, `update(dt)`
      otherwise. */
  function Frame(g: Game, dt: real, d: seq<real>): (r: Game)
    requires Valid(g) && dt >= 0.0 && |d| >= 3 && AllDraws(d)
    ensures Valid(r)
    ensures g.phase == Ended ==> r == g
  {
    if g.phase == Ended then g else Updated(g, dt, d)
  }

  /** The phases only move forward: a playing run stays playing or starts dying (only on
      a hit), a dying one ends exactly when its timer passes one second, an ended one stays
      ended. The score gains at most one point a frame and the speed never drops. */
  lemma PhasesMoveForward(g: Game, dt: real, d: seq<real>)
    requires Valid(g) && dt >= 0.0 && |d| >= 3 && AllDraws(d)
    ensures var r := Frame(g, dt, d);
      && (g.phase == Playing ==> r.phase == Playing || (r.phase == Dying && r.collided.Some? && CheckCollision(r, r.collided.value)))
      && (g.phase == Dying ==> (r.phase == Ended <==> g.deathTimer + dt > 1.0) && (r.phase != Ended ==> r.phase == Dying))
      && (g.phase == Ended ==> r.phase == Ended)
      && g.score <= r.score <= g.score + 1
      && r.baseSpeed >= g.baseSpeed
  {
  }

  /** `start()` as written: everything about the run is reset except the runner's `x`,
      which the death animation may have moved. */
  function RestartAsWritten(g: Game): (r: Game)
    requires Valid(g)
    ensures Valid(r)
  {
    g.(active := true, phase := Playing, deathTimer := 0.0, collided := None, score := 0,
       obstacles := [], baseSpeed := 250.0, spawnTimer := 0.0, y := GroundY, vy := 0.0, isJumping := false)
  }

  /** After a Bullet Bill death lasting over a second the restarted runner stands more
      than 550 px left of the field: no obstacle still on the list can touch it. */
  lemma RestartAfterBulletMissesAll(g: Game, dts: seq<real>, o: Obstacle)
    requires Valid(g) && g.phase == Dying && g.x == DinoX && g.deathTimer == 0.0
    requires g.collided.Some? && g.collided.value.kind == Bullet
    requires Sum(dts) > 1.0
    requires o.x + ObstacleWidth(o.kind) >= 0.0
    ensures var r := RestartAsWritten(Dies(g, dts));
      r.x < DinoX - 550.0 && !CheckCollision(r, o)
  {
    DiesFlings(g, dts);
  }

  /** The sum of a list of frame times. */
  function Sum(s: seq<real>): real
  {
    if s == [] then 0.0 else Sum(s[..|s| - 1]) + s[|s| - 1]
  }

  /** The death frames `dts`, one after the other. */
  function Dies(g: Game, dts: seq<real>): (r: Game)
    requires Valid(g)
    ensures Valid(r)
    decreases |dts|
  {
    if dts == [] then g else Death(Dies(g, dts[..|dts| - 1]), dts[|dts| - 1])
  }

  /** While a Bullet Bill death runs, the runner moves 600 px left per second of it. */
  lemma {:induction false} DiesFlings(g: Game, dts: seq<real>)
    requires Valid(g) && g.collided.Some? && g.collided.value.kind == Bullet
    ensures var r := Dies(g, dts);
      r.x == g.x - 600.0 * Sum(dts) && r.deathTimer == g.deathTimer + Sum(dts) && r.collided == g.collided
    decreases |dts|
  {
    if dts != [] {
      DiesFlings(g, dts[..|dts| - 1]);
    }
  }

  /** `start()` as evidently intended: the runner is also put back at its place. */
  function Restart(g: Game): (r: Game)
    requires Valid(g)
    ensures Valid(r)
    ensures r.phase == Playing && r.active && r.score == 0 && r.obstacles == []
    ensures r.x == DinoX && r.y == GroundY && r.vy == 0.0 && !r.isJumping
    ensures r.highScore == g.highScore
    ensures r == RestartAsWritten(g).(x := DinoX)
  {
    g.(active := true, phase := Playing, deathTimer := 0.0, collided := None, score := 0,
       obstacles := [], baseSpeed := 250.0, spawnTimer := 0.0, x := DinoX, y := GroundY, vy := 0.0, isJumping := false)
  }

  /** A frame the runner survives while playing leaves every obstacle on the list clear of
      it and not yet fully off the left edge. */
  lemma SurvivedFrameIsClear(g: Game, dt: real, d: seq<real>)
    requires Valid(g) && dt >= 0.0 && |d| >= 3 && AllDraws(d) && g.phase == Playing
    ensures var r := Frame(g, dt, d);
      r.phase == Playing ==> forall k :: 0 <= k < |r.obstacles| ==> Passed(DinoBox(r), r.obstacles[k])
  {
    var g1 := SpawnTick(Stride(Physics(g, dt), dt), dt, d);
    ClearRun(g1, |g1.obstacles|, Scroll(g1, dt));
  }

  /** The engine: the fields `update`, the handlers, `start` and `stop` change in place. */
  class DinoRunEngine {
    var score: int
    var highScore: int
    var gameState: Phase
    var isGameActive: bool
    var deathTimer: real
    var collidedObstacle: Option<Obstacle>
    var x: real
    var y: real
    var vy: real
    var isJumping: bool
    var isCrouching: bool
    var obstacles: seq<Obstacle>
    var baseSpeed: real
    var spawnTimer: real
    var nextSpawnTime: real
    var distCounter: real

    function Model(): Game
      reads this
    {
      Game(score, highScore, gameState, isGameActive, deathTimer, collidedObstacle, x, y, vy,
           isJumping, isCrouching, obstacles, baseSpeed, spawnTimer, nextSpawnTime, distCounter)
    }

    /** A new engine, with the stored high score `stored`: the runner stands on the ground,
        the speed is 200 px/s and the first obstacle is due after 1.5 seconds. */
    constructor (stored: int)
      requires stored >= 0
      ensures Valid(Model())
      ensures Model() == Game(0, stored, Playing, false, 0.0, None, DinoX, GroundY, 0.0, false, false,
                              [], 200.0, 0.0, 1500.0, 0.0)
    {
      score, highScore, gameState, isGameActive, deathTimer, collidedObstacle := 0, stored, Playing, false, 0.0, None;
      x, y, vy, isJumping, isCrouching := DinoX, GroundY, 0.0, false, false;
      obstacles, baseSpeed, spawnTimer, nextSpawnTime, distCounter := [], 200.0, 0.0, 1500.0, 0.0;
    }

    /** `start()`, with the runner put back at its place as well. */
    method Start()
      requires Valid(Model())
      modifies this
      ensures Valid(Model()) && Model() == Restart(old(Model()))
    {
      ResetPhase();
      ClearField();
      ResetRunner();
    }

    /** The phase part of `start()`. */
    method ResetPhase()
      modifies this
      ensures Model() == old(Model()).(active := true, phase := Playing, deathTimer := 0.0, collided := None)
    {
      isGameActive, gameState, deathTimer, collidedObstacle := true, Playing, 0.0, None;
    }

    /** The score and obstacle part of `start()`. */
    method ClearField()
      modifies this
      ensures Model() == old(Model()).(score := 0, obstacles := [], baseSpeed := 250.0, spawnTimer := 0.0)
    {
      score, obstacles, baseSpeed, spawnTimer := 0, [], 250.0, 0.0;
    }

    /** The runner part of `start()`. */
    method ResetRunner()
      modifies this
      ensures Model() == old(Model()).(x := DinoX, y := GroundY, vy := 0.0, isJumping := false)
    {
      x, y, vy, isJumping := DinoX, GroundY, 0.0, false;
    }

    /** `stop()`. */
    method Stop()
      requires Valid(Model())
      modifies this
      ensures Valid(Model()) && Model() == Stopped(old(Model()))
    {
      isGameActive := false;
      gameState := Ended;
      if score > highScore {
        highScore := score;
      }
    }

    /** `jump()`. */
    method Jump()
      modifies this
      ensures Model() == Jumped(old(Model()))
    {
      if !isJumping {
        vy := JumpForce;
        isJumping := true;
      }
    }

    /** `handleKeyDown(e)` for the key code `code`. */
    method HandleKeyDown(code: string)
      modifies this
      ensures Model() == KeyDown(old(Model()), code)
    {
      if gameState != Playing {
        return;
      }
      if code == "Space" {
        Jump();
      }
      if code == "ArrowDown" {
        isCrouching := true;
      }
    }

    /** `handleKeyUp(e)` for the key code `code`. */
    method HandleKeyUp(code: string)
      modifies this
      ensures Model() == KeyUp(old(Model()), code)
    {
      if code == "ArrowDown" {
        isCrouching := false;
      }
    }

    /** `handleMouseDown(e)`. */
    method HandleMouseDown()
      modifies this
      ensures Model() == MouseDown(old(Model()))
    {
      if gameState != Playing {
        return;
      }
      Jump();
    }

    /** One frame of the game loop, `dt` seconds after the last one, with the draws `d`. */
    method Loop(dt: real, d: seq<real>)
      requires Valid(Model()) && dt >= 0.0 && |d| >= 3 && AllDraws(d)
      modifies this
      ensures Valid(Model()) && Model() == Frame(old(Model()), dt, d)
    {
      if gameState == Ended {
        return;
      }
      Update(dt, d);
    }

    /** `update(dt)`. */
    method Update(dt: real, d: seq<real>)
      requires Valid(Model()) && dt >= 0.0 && |d| >= 3 && AllDraws(d)
      modifies this
      ensures Valid(Model()) && Model() == Updated(old(Model()), dt, d)
    {
      if gameState == Dying {
        UpdateDeathAnimation(dt);
        return;
      }
      ghost var g0 := Model();
      MoveRunner(dt);
      ghost var g1 := Model();
      CountStride(dt);
      ghost var g2 := Model();
      SpawnDue(dt, d);
      ghost var g3 := Model();
      assert g3 == SpawnTick(Stride(Physics(g0, dt), dt), dt, d);
      var hit := MoveObstacles(Scroll(Model(), dt));
    }

    /** The speed and runner part of `update(dt)`. */
    method MoveRunner(dt: real)
      requires Valid(Model()) && dt >= 0.0
      modifies this
      ensures Valid(Model()) && Model() == Physics(old(Model()), dt)
    {
      baseSpeed := baseSpeed + 5.0 * dt;
      y := y + vy;
      if isJumping && isCrouching {
        vy := vy + 3.0 * Gravity;
      } else {
        vy := vy + Gravity;
      }
      if y >= GroundY {
        y, vy, isJumping := GroundY, 0.0, false;
      }
    }

    /** The score part of `update(dt)`. */
    method CountStride(dt: real)
      requires Valid(Model())
      modifies this
      ensures Valid(Model()) && Model() == Stride(old(Model()), dt)
    {
      distCounter := distCounter + baseSpeed * dt;
      if distCounter >= 40.0 {
        score := score + 1;
        distCounter := distCounter - 40.0;
      }
    }

    /** The spawn part of `update(dt)`. */
    method SpawnDue(dt: real, d: seq<real>)
      requires Valid(Model()) && |d| >= 3 && AllDraws(d)
      modifies this
      ensures Valid(Model()) && Model() == SpawnTick(old(Model()), dt, d)
    {
      spawnTimer := spawnTimer + dt * 1000.0;
      if spawnTimer > nextSpawnTime {
        var o := Spawned(d[0], d[1]);
        obstacles := obstacles + [o];
        spawnTimer := 0.0;
        var r := if o.kind == Bullet then d[2] else d[1];
        nextSpawnTime := r * 2000.0 + 1000.0;
        nextSpawnTime := nextSpawnTime / (baseSpeed / 250.0);
      }
    }

    /** The obstacle loop of `update(dt)`, each obstacle scrolling `step` to the left;
        `hit` says whether the runner was hit. */
    method MoveObstacles(step: real) returns (hit: bool)
      modifies this
      ensures (Model(), hit) == Run(old(Model()), |old(obstacles)|, step)
    {
      var i := |obstacles|;
      while i > 0
        invariant 0 <= i <= |obstacles|
        invariant Run(Model(), i, step) == Run(old(Model()), |old(obstacles)|, step)
      {
        hit := ScrollAt(i, step);
        if hit {
          return;
        }
        i := i - 1;
      }
      return false;
    }

    /** One pass of the obstacle loop, at index `i - 1`: the rest of the loop after it is
        what remains of the pass from `i`. */
    method ScrollAt(i: nat, step: real) returns (hit: bool)
      requires 0 < i <= |obstacles|
      modifies this
      ensures i - 1 <= |obstacles|
      ensures Run(old(Model()), i, step) == if hit then (Model(), true) else Run(Model(), i - 1, step)
    {
      var o := obstacles[i - 1].(x := obstacles[i - 1].x - step);
      obstacles := obstacles[i - 1 := o];
      if CheckCollision(Model(), o) {
        gameState, collidedObstacle := Dying, Some(o);
        return true;
      }
      if o.x + ObstacleWidth(o.kind) < 0.0 {
        obstacles := Remove(obstacles, i - 1);
      }
      return false;
    }

    /** The movement part of `updateDeathAnimation(dt)`. */
    method Fling(dt: real)
      modifies this
      ensures Model() == Flung(old(Model()), dt)
    {
      if collidedObstacle.Some? {
        var o := collidedObstacle.value;
        if o.kind == Bullet {
          x, y := x - 600.0 * dt, y - 200.0 * dt;
        } else {
          var tx := o.x + ObstacleWidth(o.kind) / 2.0;
          x, y := x + (tx - (x + DinoSize / 2.0)) * 0.1, y + (o.y - (y + DinoSize / 2.0)) * 0.1;
        }
      }
    }

    /** `updateDeathAnimation(dt)`. */
    method UpdateDeathAnimation(dt: real)
      requires Valid(Model())
      modifies this
      ensures Valid(Model()) && Model() == Death(old(Model()), dt)
    {
      deathTimer := deathTimer + dt;
      Fling(dt);
      if deathTimer > 1.0 {
        Stop();
      }
    }
  }
}
