/** The flying runner (`KirbyRunnerEngine` in js/kirbyRunner.js): a puffball runs along the
    ground at x = 80, holding the space bar makes it fly up and releasing it lets gravity pull
    it down; obstacles scroll in from the right and cost 200 points and start a 1.5 s shield
    when touched, pass for 10 points when dodged, and floating treats are collected for
    points. The game is endless; surviving a frame adds 0.05. */
module KirbyRunner {
  import opened Common
  import opened Effects
  import opened Geometry

  datatype ObstacleKind = Ground | Air | Wall | Waddle
  datatype TreatKind = Star | Diamond | Cake

  datatype Obstacle = Obstacle(kind: ObstacleKind, x: real, y: real, w: real, h: real, speedMult: real)
  datatype Treat = Treat(kind: TreatKind, x: real, y: real)

  /** The ground line, the ceiling and the runner's fixed column and size. */
  const GroundY := 320.0
  const Ceiling := 20.0
  const KirbyX := 80.0
  const KirbySize := 35.0
  const TreatSize := 25.0

  /** The state `update` and the key handlers work on. */
  datatype Game = Game(
    score: real, level: int, y: real, vy: real, isFlying: bool, puffCheeks: bool,
    obstacles: seq<Obstacle>, items: seq<Treat>, particles: seq<Fx>,
    lastObstacleSpawn: real, lastItemSpawn: real, obstacleSpawnInterval: int, scrollSpeed: real,
    invincibleUntil: int, active: bool)

  /** What every operation keeps: a non-negative score, a level of at least one, the runner
      between the ceiling and the ground, never rising faster than 4 px per frame, a scroll
      speed of at most 7 and an obstacle interval of at least 600 ms. */
  predicate Valid(g: Game)
  {
    && g.score >= 0.0 && g.level >= 1
    && Ceiling <= g.y <= GroundY && g.vy >= -4.0
    && g.scrollSpeed <= 7.0 && g.obstacleSpawnInterval >= 600
  }

  /** `checkCollision(a, b)`: the rectangles overlap once each is shrunk by 6 px. */
  predicate CheckCollision(a: Box, b: Box)
  {
    Overlap(a, b, 6.0)
  }

  /** The test is the same whichever rectangle comes first. */
  lemma CheckCollisionSymmetric(a: Box, b: Box)
    ensures CheckCollision(a, b) <==> CheckCollision(b, a)
  {
    OverlapSymmetric(a, b, 6.0);
  }

  /** The runner's rectangle at height `y`. */
  function KirbyBox(y: real): Box
  {
    Box(KirbyX, y, KirbySize, KirbySize)
  }

  function ObstacleBox(o: Obstacle): Box
  {
    Box(o.x, o.y, o.w, o.h)
  }

  function TreatBox(t: Treat): Box
  {
    Box(t.x, t.y, TreatSize, TreatSize)
  }

  /** The space bar going down: the runner flies and puffs its cheeks. */
  function KeyDown(g: Game, key: string): (r: Game)
    ensures key == " " ==> r == g.(isFlying := true, puffCheeks := true)
    ensures key != " " ==> r == g
  {
    if key == " " then g.(isFlying := true, puffCheeks := true) else g
  }

  /** The space bar coming up: the runner stops flying but keeps its cheeks puffed. */
  function KeyUp(g: Game, key: string): (r: Game)
    ensures key == " " ==> r == g.(isFlying := false)
    ensures key != " " ==> r == g
  {
    if key == " " then g.(isFlying := false) else g
  }

  /** The vertical speed after the flying or falling step: flying adds -0.8 but never goes
      past -4, falling adds the gravity 0.35. */
  function Thrust(vy: real, flying: bool): (v: real)
    ensures flying ==> v == MaxR(vy - 0.8, -4.0) && v >= -4.0
    ensures !flying ==> v == vy + 0.35
  {
    if flying then MaxR(vy - 0.8, -4.0) else vy + 0.35
  }

  /** The physics at the top of `update`, with `draw` the `Math.random()` that decides on a
      puff of air while flying: the speed changes, the runner moves, landing on the ground
      stops it and deflates its cheeks, and hitting the ceiling stops it there. */
  function Physics(g: Game, draw: real): (r: Game)
    ensures r == g.(y := r.y, vy := r.vy, puffCheeks := r.puffCheeks, particles := r.particles)
    ensures Ceiling <= r.y <= GroundY
  {
    var v := Thrust(g.vy, g.isFlying);
    var particles := if g.isFlying && draw < 0.3 then g.particles + [Fx(15)] else g.particles;
    var y := g.y + v;
    if y >= GroundY then g.(vy := 0.0, y := GroundY, puffCheeks := false, particles := particles)
    else if y < Ceiling then g.(vy := 0.0, y := Ceiling, particles := particles)
    else g.(vy := v, y := y, particles := particles)
  }

  /** How the physics step moves the runner: it lands (speed zero, cheeks deflated) exactly
      when the new height reaches the ground, it is stopped at the ceiling exactly when the
      new height is above it, and otherwise it moves by the new speed. */
  lemma PhysicsRules(g: Game, draw: real)
    ensures var v := Thrust(g.vy, g.isFlying); var r := Physics(g, draw);
      && (g.y + v >= GroundY ==> r.y == GroundY && r.vy == 0.0 && !r.puffCheeks)
      && (g.y + v < Ceiling ==> r.y == Ceiling && r.vy == 0.0 && r.puffCheeks == g.puffCheeks)
      && (Ceiling <= g.y + v < GroundY ==> r.y == g.y + v && r.vy == v && r.puffCheeks == g.puffCheeks)
      && (r.vy >= -4.0 || !g.isFlying)
  {
  }

  /** Holding the space bar on the ground lifts the runner off on the next frame. */
  lemma SpaceLiftsOff(g: Game, draw: real)
    requires g.y == GroundY && g.vy == 0.0
    ensures Physics(KeyDown(g, " "), draw).y == GroundY - 0.8
  {
  }

  /** The physics keeps everything `Valid` asks. */
  lemma PhysicsKeepsValid(g: Game, draw: real)
    requires Valid(g)
    ensures Valid(Physics(g, draw))
  {
  }

  function TreatPoints(k: TreatKind): real
  {
    match k
    case Star => 100.0
    case Diamond => 300.0
    case Cake => 1000.0
  }

  /** An obstacle after one frame of scrolling at its own pace. */
  function Scrolled(o: Obstacle, scrollSpeed: real): Obstacle
  {
    o.(x := o.x - scrollSpeed * o.speedMult)
  }

  /** The obstacle has been dodged and left the canvas (`x + width < -20`). */
  predicate Dodged(o: Obstacle)
  {
    o.x + o.w < -20.0
  }

  /** One obstacle of the loop of `update`, the one at index `i-1`, at wall-clock time `now`:
      it scrolls left; once past the left edge it is dodged for 10 points and spliced out;
      otherwise, when the shield is down (`now > invincibleUntil`) and it touches the
      runner, it costs 200 (never below zero), raises the shield until `now + 1500`, bursts
      into six particles and is spliced out. */
  function Meet(g: Game, i: nat, now: int): (r: Game)
    requires 0 < i <= |g.obstacles| && Valid(g)
    ensures Valid(r) && |r.obstacles| >= i - 1 && r.obstacles[..i - 1] == g.obstacles[..i - 1]
    ensures r == g.(obstacles := r.obstacles, score := r.score, invincibleUntil := r.invincibleUntil,
                    particles := r.particles)
  {
    var o := Scrolled(g.obstacles[i - 1], g.scrollSpeed);
    if Dodged(o) then g.(score := g.score + 10.0, obstacles := Remove(g.obstacles, i - 1))
    else if now > g.invincibleUntil && CheckCollision(KirbyBox(g.y), ObstacleBox(o)) then
      g.(score := MaxR(0.0, g.score - 200.0), invincibleUntil := now + 1500,
         obstacles := Remove(g.obstacles, i - 1), particles := g.particles + Burst(6, 20))
    else g.(obstacles := g.obstacles[i - 1 := o])
  }

  /** What one obstacle does: a dodged one pays 10 and goes; a touching one while the shield
      is down costs 200, shields the runner for 1.5 s and goes; anything else only moves. */
  lemma MeetRules(g: Game, i: nat, now: int)
    requires 0 < i <= |g.obstacles| && Valid(g)
    ensures var o := Scrolled(g.obstacles[i - 1], g.scrollSpeed); var r := Meet(g, i, now);
      && (Dodged(o) ==> r.score == g.score + 10.0 && r.obstacles == Remove(g.obstacles, i - 1)
                        && r.invincibleUntil == g.invincibleUntil)
      && (!Dodged(o) && now > g.invincibleUntil && CheckCollision(KirbyBox(g.y), ObstacleBox(o)) ==>
            r.score == MaxR(0.0, g.score - 200.0) && r.invincibleUntil == now + 1500
            && r.obstacles == Remove(g.obstacles, i - 1))
      && (!Dodged(o) && (now <= g.invincibleUntil || !CheckCollision(KirbyBox(g.y), ObstacleBox(o))) ==>
            r == g.(obstacles := g.obstacles[i - 1 := o]))
  {
  }

  /** The obstacle loop of `update`: obstacles `i-1` down to `0`. */
  function Run(g: Game, i: nat, now: int): (r: Game)
    requires i <= |g.obstacles| && Valid(g)
    ensures Valid(r)
    ensures r == g.(obstacles := r.obstacles, score := r.score, invincibleUntil := r.invincibleUntil,
                    particles := r.particles)
    decreases i
  {
    if i == 0 then g else Run(Meet(g, i, now), i - 1, now)
  }

  /** While the shield is up no obstacle costs anything: the score does not fall and the
      shield is not moved. */
  lemma {:induction false} ShieldedRun(g: Game, i: nat, now: int)
    requires i <= |g.obstacles| && Valid(g) && now <= g.invincibleUntil
    ensures Run(g, i, now).score >= g.score
    ensures Run(g, i, now).invincibleUntil == g.invincibleUntil
    decreases i
  {
    if i > 0 {
      ShieldedRun(Meet(g, i, now), i - 1, now);
    }
  }

  /** A frame costs at most one hit: once hit, the runner is shielded for the rest of the
      loop, so the score never falls by more than 200. */
  lemma {:induction false} AtMostOneHitPerRun(g: Game, i: nat, now: int)
    requires i <= |g.obstacles| && Valid(g)
    ensures Run(g, i, now).score >= g.score - 200.0
    decreases i
  {
    if i > 0 {
      var h := Meet(g, i, now);
      if h.invincibleUntil != g.invincibleUntil {
        ShieldedRun(h, i - 1, now);
      } else {
        AtMostOneHitPerRun(h, i - 1, now);
      }
    }
  }

  /** One treat of the loop of `update`, the one at index `i-1`: it scrolls left; one past
      x = -30 is dropped; one touching the runner pays 100, 300 or 1000 whatever the shield
      says, leaves a score text and is spliced out. */
  function Grab(g: Game, i: nat): (r: Game)
    requires 0 < i <= |g.items| && Valid(g)
    ensures Valid(r) && r.score >= g.score && |r.items| >= i - 1 && r.items[..i - 1] == g.items[..i - 1]
    ensures r == g.(items := r.items, score := r.score, particles := r.particles)
  {
    var t := g.items[i - 1];
    var t' := t.(x := t.x - g.scrollSpeed);
    if t'.x < -30.0 then g.(items := Remove(g.items, i - 1))
    else if CheckCollision(KirbyBox(g.y), TreatBox(t')) then
      g.(score := g.score + TreatPoints(t.kind), particles := g.particles + [Fx(40)],
         items := Remove(g.items, i - 1))
    else g.(items := g.items[i - 1 := t'])
  }

  /** The treat loop of `update`: treats `i-1` down to `0`. */
  function Collect(g: Game, i: nat): (r: Game)
    requires i <= |g.items| && Valid(g)
    ensures Valid(r) && r.score >= g.score
    ensures r == g.(items := r.items, score := r.score, particles := r.particles)
    decreases i
  {
    if i == 0 then g else Collect(Grab(g, i), i - 1)
  }

  /** Treats are collected regardless of the shield: the treat loop does the same whatever
      the shield deadline is. */
  lemma {:induction false} CollectIgnoresShield(g: Game, i: nat, t: int)
    requires i <= |g.items| && Valid(g)
    ensures Collect(g.(invincibleUntil := t), i) == Collect(g, i).(invincibleUntil := t)
    decreases i
  {
    if i > 0 {
      assert Grab(g.(invincibleUntil := t), i) == Grab(g, i).(invincibleUntil := t);
      CollectIgnoresShield(Grab(g, i), i - 1, t);
    }
  }

  /** What one treat does: past x = -30 it is dropped for nothing; touching the runner it
      pays its value (star 100, diamond 300, cake 1000) with one score text and goes;
      anything else only scrolls. */
  lemma GrabRules(g: Game, i: nat)
    requires 0 < i <= |g.items| && Valid(g)
    ensures var t := g.items[i - 1]; var t' := t.(x := t.x - g.scrollSpeed); var r := Grab(g, i);
      && (t'.x < -30.0 ==> r == g.(items := Remove(g.items, i - 1)))
      && (t'.x >= -30.0 && CheckCollision(KirbyBox(g.y), TreatBox(t')) ==>
            r.score == g.score + TreatPoints(t.kind) && r.items == Remove(g.items, i - 1)
            && r.particles == g.particles + [Fx(40)])
      && (t'.x >= -30.0 && !CheckCollision(KirbyBox(g.y), TreatBox(t')) ==>
            r == g.(items := g.items[i - 1 := t']))
    ensures TreatPoints(Star) == 100.0 && TreatPoints(Diamond) == 300.0 && TreatPoints(Cake) == 1000.0
  {
  }

  /** Whether a treat leaves the list this frame at height `y` and scroll speed `speed`:
      dropped past the left edge or taken by the runner. */
  predicate Gone(t: Treat, y: real, speed: real)
  {
    var t' := t.(x := t.x - speed);
    t'.x < -30.0 || CheckCollision(KirbyBox(y), TreatBox(t'))
  }

  /** The points a frame takes from the treats `s`: the value of each one the runner
      touches before it leaves the screen. */
  function Haul(s: seq<Treat>, y: real, speed: real): real
  {
    if s == [] then 0.0
    else
      var t := s[|s| - 1];
      var t' := t.(x := t.x - speed);
      Haul(s[..|s| - 1], y, speed) + (if t'.x >= -30.0 && CheckCollision(KirbyBox(y), TreatBox(t')) then TreatPoints(t.kind) else 0.0)
  }

  /** The treats `s` after a frame, in order: every one that stays, scrolled. */
  function Left(s: seq<Treat>, y: real, speed: real): seq<Treat>
  {
    if s == [] then []
    else
      var t := s[|s| - 1];
      Left(s[..|s| - 1], y, speed) + (if Gone(t, y, speed) then [] else [t.(x := t.x - speed)])
  }

  /** The treat loop pays exactly the value of every treat the runner touches. */
  lemma {:induction false} CollectPays(g: Game, i: nat)
    requires i <= |g.items| && Valid(g)
    ensures Collect(g, i).score == g.score + Haul(g.items[..i], g.y, g.scrollSpeed)
    decreases i
  {
    if i > 0 {
      var h := Grab(g, i);
      var t := g.items[i - 1];
      var t' := t.(x := t.x - g.scrollSpeed);
      var pts := if t'.x >= -30.0 && CheckCollision(KirbyBox(g.y), TreatBox(t')) then TreatPoints(t.kind) else 0.0;
      GrabRules(g, i);
      assert h.score == g.score + pts;
      assert g.items[..i][..i - 1] == g.items[..i - 1] && g.items[..i][i - 1] == t;
      assert Haul(g.items[..i], g.y, g.scrollSpeed) == Haul(g.items[..i - 1], g.y, g.scrollSpeed) + pts;
      assert Collect(g, i) == Collect(h, i - 1);
      CollectPays(h, i - 1);
    }
  }

  /** One pass of the treat loop on the list: the treats before `i - 1` are untouched, and
      the one at `i - 1` is either gone or scrolled in place. */
  lemma GrabSplits(g: Game, i: nat)
    requires 0 < i <= |g.items| && Valid(g)
    ensures var t := g.items[i - 1]; var h := Grab(g, i);
      && |h.items| >= i - 1
      && h.items[..i - 1] == g.items[..i - 1]
      && h.items[i - 1..] == (if Gone(t, g.y, g.scrollSpeed) then [] else [t.(x := t.x - g.scrollSpeed)]) + g.items[i..]
  {
    GrabRules(g, i);
  }

  /** Every treat touched or dropped is gone after the loop, so none pays twice; the others
      have scrolled and keep their order. */
  lemma {:induction false} CollectLeaves(g: Game, i: nat)
    requires i <= |g.items| && Valid(g)
    ensures Collect(g, i).items == Left(g.items[..i], g.y, g.scrollSpeed) + g.items[i..]
    decreases i
  {
    if i > 0 {
      var h := Grab(g, i);
      GrabSplits(g, i);
      assert g.items[..i][..i - 1] == g.items[..i - 1];
      assert Collect(g, i) == Collect(h, i - 1);
      CollectLeaves(h, i - 1);
    }
  }

  /** `checkLevelUp`: the level follows `floor(score / 500) + 1` but never falls; a rise sets
      the scroll speed to `min(7, 3 + 0.3 level)` and the obstacle interval to
      `max(600, 2000 - 100 level)`. */
  function LevelUp(g: Game): (r: Game)
    requires Valid(g)
    ensures Valid(r) && r.level >= g.level
    ensures r.level > g.level ==>
      r.level == LevelFor(g.score, 500.0) &&
      r == g.(level := r.level, scrollSpeed := MinR(7.0, 3.0 + r.level as real * 0.3),
              obstacleSpawnInterval := MaxI(600, 2000 - r.level * 100))
    ensures r.level == g.level ==> r == g
  {
    var newLevel := LevelFor(g.score, 500.0);
    if newLevel > g.level then
      g.(level := newLevel, scrollSpeed := MinR(7.0, 3.0 + newLevel as real * 0.3),
         obstacleSpawnInterval := MaxI(600, 2000 - newLevel * 100))
    else g
  }

  /** After the level check the level is the one the score stands for, whenever the score
      has gone up since the level was last set. */
  lemma LevelUpTracksScore(g: Game)
    requires Valid(g) && LevelFor(g.score, 500.0) >= g.level
    ensures LevelUp(g).level == LevelFor(g.score, 500.0)
  {
  }

  /** `spawnObstacle` for the draws `d`, taken in the order the source takes them: `d[0]`
      picks the kind (ground below 0.40, air below 0.70, wall below 0.85, else a walking
      enemy), the next draws pick its size or height (the ground kind also draws its emoji),
      and the last draw picks a pace from 0.8 to 1.2. Every obstacle enters at x = 420. */
  function SpawnedObstacle(d: seq<real>): (o: Obstacle)
    requires |d| >= 5 && AllDraws(d)
    ensures o.x == 420.0 && 0.8 <= o.speedMult < 1.2
    ensures o.kind == Ground <==> d[0] < 0.40
    ensures o.kind == Air <==> 0.40 <= d[0] < 0.70
    ensures o.kind == Wall <==> 0.70 <= d[0] < 0.85
    ensures o.kind == Ground ==> 30.0 <= o.w < 50.0 && 30.0 <= o.h < 55.0 && o.y + o.h == GroundY + KirbySize
    ensures o.kind == Air ==> o.w == 30.0 && o.h == 30.0 && GroundY - 140.0 < o.y <= GroundY - 60.0
    ensures o.kind == Wall ==> o.w == 25.0 && 80.0 <= o.h < 120.0 && o.y + o.h == GroundY + KirbySize
    ensures o.kind == Waddle ==> o.w == 35.0 && o.h == 35.0 && o.y == GroundY
  {
    if d[0] < 0.40 then
      var h := 30.0 + d[2] * 25.0;
      Obstacle(Ground, 420.0, GroundY + KirbySize - h, 30.0 + d[1] * 20.0, h, 0.8 + d[4] * 0.4)
    else if d[0] < 0.70 then
      Obstacle(Air, 420.0, GroundY - 60.0 - d[1] * 80.0, 30.0, 30.0, 0.8 + d[2] * 0.4)
    else if d[0] < 0.85 then
      var h := 80.0 + d[1] * 40.0;
      Obstacle(Wall, 420.0, GroundY + KirbySize - h, 25.0, h, 0.8 + d[2] * 0.4)
    else
      Obstacle(Waddle, 420.0, GroundY, 35.0, 35.0, 0.8 + d[1] * 0.4)
  }

  /** `spawnItem` for the draws `d`: a star below 0.5, a diamond below 0.8, else a cake,
      floating 30 to 180 px above the ground at x = 420. */
  function SpawnedTreat(d: seq<real>): (t: Treat)
    requires |d| >= 2 && AllDraws(d)
    ensures t.kind == Star <==> d[0] < 0.5
    ensures t.kind == Diamond <==> 0.5 <= d[0] < 0.8
    ensures t.x == 420.0 && 140.0 < t.y <= 290.0
  {
    var kind := if d[0] < 0.5 then Star else if d[0] < 0.8 then Diamond else Cake;
    Treat(kind, 420.0, GroundY - 30.0 - d[1] * 150.0)
  }

  /** The two spawn timers of `update`: an obstacle when more than the obstacle interval has
      passed, a treat every 3500 ms. */
  function Spawn(g: Game, timestamp: real, dobs: seq<real>, dtreat: seq<real>): (r: Game)
    requires |dobs| >= 5 && AllDraws(dobs) && |dtreat| >= 2 && AllDraws(dtreat)
    ensures r == g.(obstacles := r.obstacles, items := r.items, lastObstacleSpawn := r.lastObstacleSpawn,
                    lastItemSpawn := r.lastItemSpawn)
  {
    var g1 := if timestamp - g.lastObstacleSpawn > g.obstacleSpawnInterval as real
      then g.(obstacles := g.obstacles + [SpawnedObstacle(dobs)], lastObstacleSpawn := timestamp) else g;
    if timestamp - g1.lastItemSpawn > 3500.0
    then g1.(items := g1.items + [SpawnedTreat(dtreat)], lastItemSpawn := timestamp) else g1
  }

  /** The second half of `update` at wall-clock time `now`: obstacles, treats, the particle
      countdown, the level check and the 0.05 time bonus. */
  function Settle(g: Game, now: int): (r: Game)
    requires Valid(g)
    ensures Valid(r) && r.level >= g.level && r.y == g.y
    ensures r.score >= g.score - 200.0 + 0.05
  {
    var g1 := Run(g, |g.obstacles|, now);
    AtMostOneHitPerRun(g, |g.obstacles|, now);
    var g2 := Collect(g1, |g1.items|);
    var g3 := g2.(particles := Aged(g2.particles));
    var g4 := LevelUp(g3);
    g4.(score := g4.score + 0.05)
  }

  /** A whole frame of `update`: `dp` is the draw of the physics step, `dobs` and `dtreat`
      those of the two spawns. */
  function Step(g: Game, timestamp: real, now: int, dp: real, dobs: seq<real>, dtreat: seq<real>): (r: Game)
    requires Valid(g) && |dobs| >= 5 && AllDraws(dobs) && |dtreat| >= 2 && AllDraws(dtreat)
    ensures Valid(r) && r.level >= g.level
    ensures Ceiling <= r.y <= GroundY
    ensures r.score >= g.score - 200.0 + 0.05
  {
    PhysicsKeepsValid(g, dp);
    Settle(Spawn(Physics(g, dp), timestamp, dobs, dtreat), now)
  }

  class KirbyRunnerEngine {
    var score: real
    var level: int
    var y: real
    var vy: real
    var isFlying: bool
    var puffCheeks: bool
    var obstacles: seq<Obstacle>
    var items: seq<Treat>
    var particles: seq<Fx>
    var lastObstacleSpawn: real
    var lastItemSpawn: real
    var obstacleSpawnInterval: int
    var scrollSpeed: real
    var invincibleUntil: int
    var isGameActive: bool

    function Model(): Game
      reads this
    {
      Game(score, level, y, vy, isFlying, puffCheeks, obstacles, items, particles,
           lastObstacleSpawn, lastItemSpawn, obstacleSpawnInterval, scrollSpeed, invincibleUntil,
           isGameActive)
    }

    constructor ()
      ensures Valid(Model())
      ensures Model() == Game(0.0, 1, GroundY, 0.0, false, false, [], [], [], 0.0, 0.0, 2000, 3.0, 0, false)
    {
      score, level, y, vy, isFlying, puffCheeks := 0.0, 1, GroundY, 0.0, false, false;
      obstacles, items, particles := [], [], [];
      lastObstacleSpawn, lastItemSpawn, obstacleSpawnInterval, scrollSpeed := 0.0, 0.0, 2000, 3.0;
      invincibleUntil, isGameActive := 0, false;
    }

    /** `start()`: everything is reset, with the runner standing on the ground. */
    method Start()
      modifies this
      ensures Valid(Model())
      ensures Model() == Game(0.0, 1, GroundY, 0.0, false, false, [], [], [], 0.0, 0.0, 2000, 3.0, 0, true)
    {
      ResetScore();
      ClearField();
      ResetKirby();
      ResetField();
    }

    /** The score and level part of `start()`. */
    method ResetScore()
      modifies this
      ensures Model() == old(Model()).(active := true, score := 0.0, level := 1)
    {
      isGameActive := true;
      score := 0.0;
      level := 1;
    }

    /** The lists `start()` empties. */
    method ClearField()
      modifies this
      ensures Model() == old(Model()).(obstacles := [], items := [], particles := [])
    {
      obstacles := [];
      items := [];
      particles := [];
    }

    /** The runner part of `start()`: on the ground, at rest, not flying. */
    method ResetKirby()
      modifies this
      ensures Model() == old(Model()).(y := GroundY, vy := 0.0, isFlying := false, puffCheeks := false)
    {
      y := GroundY;
      vy := 0.0;
      isFlying := false;
      puffCheeks := false;
    }

    /** The pace and timer part of `start()`. */
    method ResetField()
      modifies this
      ensures Model() == old(Model()).(scrollSpeed := 3.0, obstacleSpawnInterval := 2000,
                                       lastObstacleSpawn := 0.0, lastItemSpawn := 0.0, invincibleUntil := 0)
    {
      scrollSpeed := 3.0;
      obstacleSpawnInterval := 2000;
      lastObstacleSpawn := 0.0;
      lastItemSpawn := 0.0;
      invincibleUntil := 0;
    }

    /** `stop()`: the game ends and reports the whole points of its score and its level. */
    method Stop() returns (finalScore: int, finalLevel: int)
      requires Valid(Model())
      modifies this
      ensures Model() == old(Model()).(active := false)
      ensures finalScore >= 0 && finalScore as real <= score < finalScore as real + 1.0
      ensures finalLevel == level
    {
      isGameActive := false;
      finalScore := score.Floor;
      finalLevel := level;
    }

    /** `_handleKeyDown(e)`. */
    method HandleKeyDown(key: string)
      modifies this
      ensures Model() == KeyDown(old(Model()), key)
    {
      if key == " " {
        isFlying := true;
        puffCheeks := true;
      }
    }

    /** `_handleKeyUp(e)`. */
    method HandleKeyUp(key: string)
      modifies this
      ensures Model() == KeyUp(old(Model()), key)
    {
      if key == " " {
        isFlying := false;
      }
    }

    /** The physics at the top of `update`. */
    method MoveKirby(draw: real)
      modifies this
      ensures Model() == Physics(old(Model()), draw)
    {
      vy := Thrust(vy, isFlying);
      if isFlying && draw < 0.3 {
        particles := particles + [Fx(15)];
      }
      y := y + vy;
      if y >= GroundY {
        y := GroundY;
        vy := 0.0;
        puffCheeks := false;
      }
      if y < Ceiling {
        y := Ceiling;
        vy := 0.0;
      }
    }

    /** The spawn timers of `update`. */
    method SpawnDue(timestamp: real, dobs: seq<real>, dtreat: seq<real>)
      requires |dobs| >= 5 && AllDraws(dobs) && |dtreat| >= 2 && AllDraws(dtreat)
      modifies this
      ensures Model() == Spawn(old(Model()), timestamp, dobs, dtreat)
    {
      if timestamp - lastObstacleSpawn > obstacleSpawnInterval as real {
        obstacles := obstacles + [SpawnedObstacle(dobs)];
        lastObstacleSpawn := timestamp;
      }
      if timestamp - lastItemSpawn > 3500.0 {
        items := items + [SpawnedTreat(dtreat)];
        lastItemSpawn := timestamp;
      }
    }

    /** The obstacle loop of `update` at wall-clock time `now`. */
    method MoveObstacles(now: int)
      requires Valid(Model())
      modifies this
      ensures Model() == Run(old(Model()), |old(obstacles)|, now)
    {
      var i := |obstacles|;
      while i > 0
        invariant 0 <= i <= |obstacles| && Valid(Model())
        invariant Run(Model(), i, now) == Run(old(Model()), |old(obstacles)|, now)
      {
        MeetAt(i, now);
        i := i - 1;
      }
    }

    /** One pass of that loop, on the obstacle at index `i-1`. */
    method MeetAt(i: nat, now: int)
      requires 0 < i <= |obstacles| && Valid(Model())
      modifies this
      ensures Model() == Meet(old(Model()), i, now)
    {
      var o := Scrolled(obstacles[i - 1], scrollSpeed);
      if Dodged(o) {
        score := score + 10.0;
        obstacles := Remove(obstacles, i - 1);
      } else if now > invincibleUntil && CheckCollision(KirbyBox(y), ObstacleBox(o)) {
        score := MaxR(0.0, score - 200.0);
        invincibleUntil := now + 1500;
        obstacles := Remove(obstacles, i - 1);
        var sparks := Emit(6, 20);
        particles := particles + sparks;
      } else {
        obstacles := obstacles[i - 1 := o];
      }
    }

    /** The treat loop of `update`. */
    method MoveItems()
      requires Valid(Model())
      modifies this
      ensures Model() == Collect(old(Model()), |old(items)|)
    {
      var i := |items|;
      while i > 0
        invariant 0 <= i <= |items| && Valid(Model())
        invariant Collect(Model(), i) == Collect(old(Model()), |old(items)|)
      {
        ghost var before := Model();
        GrabAt(i);
        assert Collect(before, i) == Collect(Model(), i - 1);
        i := i - 1;
      }
    }

    /** One pass of that loop, on the treat at index `i-1`. */
    method GrabAt(i: nat)
      requires 0 < i <= |items| && Valid(Model())
      modifies this
      ensures Model() == Grab(old(Model()), i)
    {
      var t := items[i - 1];
      t := t.(x := t.x - scrollSpeed);
      if t.x < -30.0 {
        items := Remove(items, i - 1);
      } else if CheckCollision(KirbyBox(y), TreatBox(t)) {
        score := score + TreatPoints(t.kind);
        particles := particles + [Fx(40)];
        items := Remove(items, i - 1);
      } else {
        items := items[i - 1 := t];
      }
    }

    /** `checkLevelUp()`. */
    method CheckLevelUp()
      requires Valid(Model())
      modifies this
      ensures Model() == LevelUp(old(Model()))
    {
      var newLevel := LevelFor(score, 500.0);
      if newLevel > level {
        level := newLevel;
        scrollSpeed := MinR(7.0, 3.0 + level as real * 0.3);
        obstacleSpawnInterval := MaxI(600, 2000 - level * 100);
      }
    }

    /** The particle countdown of `update`. */
    method AgeParticles()
      modifies this
      ensures Model() == old(Model()).(particles := Aged(old(particles)))
    {
      particles := Age(particles);
    }

    /** The second half of `update`. */
    method SettleFrame(now: int)
      requires Valid(Model())
      modifies this
      ensures Model() == Settle(old(Model()), now)
    {
      MoveObstacles(now);
      MoveItems();
      AgeParticles();
      CheckLevelUp();
      score := score + 0.05;
    }

    /** `update(timestamp)` at wall-clock time `now`, with the draws of the physics step and
        of the two spawns. */
    method Update(timestamp: real, now: int, dp: real, dobs: seq<real>, dtreat: seq<real>)
      requires Valid(Model()) && |dobs| >= 5 && AllDraws(dobs) && |dtreat| >= 2 && AllDraws(dtreat)
      modifies this
      ensures Model() == Step(old(Model()), timestamp, now, dp, dobs, dtreat)
    {
      PhysicsKeepsValid(Model(), dp);
      MoveKirby(dp);
      SpawnDue(timestamp, dobs, dtreat);
      SettleFrame(now);
    }
  }
}
