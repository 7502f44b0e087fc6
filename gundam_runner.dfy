/** The beam-saber runner (`GundamRunnerEngine` in js/gundamRunner.js): a mobile suit stands
    at the left of a scrolling field, enemies walk in from the right, the space bar swings a
    beam saber that destroys every enemy in front of it for points and a growing combo, an
    enemy that gets past or runs into the idle suit costs points and the combo, and floating
    pickups are collected on contact. The game is endless; time adds 0.05 per frame. */
module GundamRunner {
  import opened Common
  import opened Effects

  datatype EnemyKind = Zaku | Boss
  datatype ItemKind = Star | Diamond | Chicken

  datatype Enemy = Enemy(kind: EnemyKind, x: real, y: real, w: real, h: real, speedMult: real)
  datatype Pickup = Pickup(kind: ItemKind, x: real, y: real, size: real)

  /** The state the key handler, `performAttack` and `update` work on. The suit is 70 by 90
      at (60, 250) and a swing lasts 15 frames; new items are due every 4000 ms. */
  datatype Game = Game(
    score: real, level: int, isAttacking: bool, attackFrame: int,
    enemies: seq<Enemy>, items: seq<Pickup>, effects: seq<Fx>, particles: seq<Fx>,
    lastEnemySpawn: real, lastItemSpawn: real, enemySpawnInterval: int, scrollSpeed: real,
    combo: int, maxCombo: int, active: bool)

  const AttackDuration := 15

  /** What every operation keeps: a non-negative score, a combo no larger than the best one,
      a swing counter between 0 and 15, a level of at least one, a scroll speed of at most 7
      and an enemy interval of at least 600 ms. */
  predicate Valid(g: Game)
  {
    && g.score >= 0.0 && 0 <= g.combo <= g.maxCombo && g.level >= 1
    && 0 <= g.attackFrame <= AttackDuration
    && g.scrollSpeed <= 7.0 && g.enemySpawnInterval >= 600
  }

  /** The saber's reach: the 90 by 80 box in front of the suit, from (130, 210). */
  predicate InReach(e: Enemy)
  {
    e.x < 130.0 + 90.0 && e.x + e.w > 130.0 && e.y + e.h > 210.0 && e.y < 210.0 + 80.0
  }

  /** Points for a destroyed enemy at the combo it brought: 500 for a boss, 100 for a zaku,
      plus ten per combo step up to 200. */
  function HitPoints(kind: EnemyKind, combo: int): (p: real)
    requires combo >= 1
    ensures kind == Boss ==> 510.0 <= p <= 700.0
    ensures kind == Zaku ==> 110.0 <= p <= 300.0
    ensures combo >= 20 <==> p == (if kind == Boss then 700.0 else 300.0)
  {
    (if kind == Boss then 500 else 100) as real + MinI(combo * 10, 200) as real
  }

  /** What the swing does to the enemy at index `j-1`: if it is in reach the combo rises,
      the enemy pays its points, bursts into particles and is spliced out. */
  function Cut(g: Game, j: nat): (r: Game)
    requires 0 < j <= |g.enemies| && g.combo >= 0
    ensures r.combo >= g.combo >= 0 && |r.enemies| >= j - 1 && r.enemies[..j - 1] == g.enemies[..j - 1]
    ensures r == g.(enemies := r.enemies, score := r.score, combo := r.combo,
                    maxCombo := r.maxCombo, particles := r.particles)
    ensures InReach(g.enemies[j - 1]) ==>
      && r.enemies == Remove(g.enemies, j - 1) && r.combo == g.combo + 1
      && r.maxCombo == MaxI(g.maxCombo, r.combo) && r.score >= g.score + 100.0
    ensures !InReach(g.enemies[j - 1]) ==> r == g
  {
    var e := g.enemies[j - 1];
    if InReach(e) then
      var combo := g.combo + 1;
      g.(combo := combo, maxCombo := MaxI(g.maxCombo, combo), score := g.score + HitPoints(e.kind, combo),
         particles := g.particles + Burst(12, 25) + [Fx(40)], enemies := Remove(g.enemies, j - 1))
    else g
  }

  /** The loop of `performAttack`: enemies `j-1` down to `0` meet the swing. The flag says
      whether anything was hit. */
  function Slash(g: Game, j: nat): (r: (Game, bool))
    requires j <= |g.enemies| && g.combo >= 0
    ensures r.0 == g.(enemies := r.0.enemies, score := r.0.score, combo := r.0.combo,
                      maxCombo := r.0.maxCombo, particles := r.0.particles)
    decreases j
  {
    if j == 0 then (g, false)
    else if InReach(g.enemies[j - 1]) then (Slash(Cut(g, j), j - 1).0, true)
    else Slash(g, j - 1)
  }

  /** The enemies the saber misses, in order. */
  function Spared(s: seq<Enemy>): seq<Enemy>
  {
    if s == [] then [] else (if InReach(s[0]) then [] else [s[0]]) + Spared(s[1..])
  }

  lemma {:induction false} SparedSnoc(s: seq<Enemy>, e: Enemy)
    ensures Spared(s + [e]) == Spared(s) + (if InReach(e) then [] else [e])
  {
    if s == [] {
      assert s + [e] == [e];
    } else {
      var head := if InReach(s[0]) then [] else [s[0]];
      assert (s + [e])[0] == s[0] && (s + [e])[1..] == s[1..] + [e];
      assert Spared(s + [e]) == head + Spared(s[1..] + [e]);
      SparedSnoc(s[1..], e);
      assert head + (Spared(s[1..]) + (if InReach(e) then [] else [e]))
          == (head + Spared(s[1..])) + (if InReach(e) then [] else [e]);
    }
  }

  lemma {:induction false} SparedLength(s: seq<Enemy>)
    ensures |Spared(s)| <= |s|
  {
    if s != [] {
      SparedLength(s[1..]);
    }
  }

  /** One turn of the swing loop on the enemy list alone: splicing the enemy at `j - 1` when
      it is in reach moves it from the untouched tail to the spared or destroyed prefix. */
  lemma SparedStep(s: seq<Enemy>, j: nat, t: seq<Enemy>)
    requires 0 < j <= |s|
    requires t == (if InReach(s[j - 1]) then Remove(s, j - 1) else s)
    ensures Spared(t[..j - 1]) + t[j - 1..] == Spared(s[..j]) + s[j..]
  {
    var e := s[j - 1];
    assert s[..j] == s[..j - 1] + [e];
    SparedSnoc(s[..j - 1], e);
    assert t[..j - 1] == s[..j - 1];
    if !InReach(e) {
      assert t[j - 1..] == [e] + s[j..];
    }
  }

  /** A swing destroys exactly the enemies in reach and keeps the others in order. */
  lemma {:induction false} SlashDestroysExactlyTheReached(g: Game, j: nat)
    requires j <= |g.enemies| && g.combo >= 0
    ensures Slash(g, j).0.enemies == Spared(g.enemies[..j]) + g.enemies[j..]
    decreases j
  {
    if j == 0 {
      assert g.enemies[..0] == [] && g.enemies[0..] == g.enemies;
    } else {
      var h := if InReach(g.enemies[j - 1]) then Cut(g, j) else g;
      assert Slash(g, j).0 == Slash(h, j - 1).0;
      SlashDestroysExactlyTheReached(h, j - 1);
      SparedStep(g.enemies, j, h.enemies);
    }
  }

  /** The flag of a swing says whether some enemy was in reach. */
  lemma {:induction false} SlashReportsHit(g: Game, j: nat)
    requires j <= |g.enemies| && g.combo >= 0
    ensures Slash(g, j).1 <==> exists k :: 0 <= k < j && InReach(g.enemies[k])
    decreases j
  {
    if j > 0 && !InReach(g.enemies[j - 1]) {
      SlashReportsHit(g, j - 1);
      if exists k :: 0 <= k < j && InReach(g.enemies[k]) {
        var k :| 0 <= k < j && InReach(g.enemies[k]);
        assert k < j - 1;
      }
    }
  }

  /** Each destroyed enemy adds one to the combo and at least 100 points, and the best combo
      keeps up with the combo. */
  lemma {:induction false} SlashBuildsCombo(g: Game, j: nat)
    requires j <= |g.enemies| && 0 <= g.combo <= g.maxCombo
    ensures var r := Slash(g, j).0;
      && r.combo - g.combo == |g.enemies| - |r.enemies|
      && g.combo <= r.combo <= r.maxCombo && r.maxCombo >= g.maxCombo
      && r.score >= g.score + 100.0 * (|g.enemies| - |r.enemies|) as real
    decreases j
  {
    if j > 0 {
      SlashBuildsCombo(Cut(g, j), j - 1);
    }
  }

  /** A swing over enemies none of which is in reach changes nothing. */
  lemma {:induction false} SlashMissesAll(g: Game, j: nat)
    requires j <= |g.enemies| && g.combo >= 0
    requires forall k :: 0 <= k < j ==> !InReach(g.enemies[k])
    ensures Slash(g, j) == (g, false)
    decreases j
  {
    if j > 0 {
      SlashMissesAll(g, j - 1);
    }
  }

  /** `performAttack`: a slash effect of 12 frames, the swing, and a combo reset when the
      swing hit nothing. */
  function Attack(g: Game): (r: Game)
    requires Valid(g)
    ensures Valid(r.(isAttacking := g.isAttacking, attackFrame := g.attackFrame))
    ensures r == g.(enemies := r.enemies, score := r.score, combo := r.combo, maxCombo := r.maxCombo,
                    particles := r.particles, effects := g.effects + [Fx(12)])
  {
    var g1 := g.(effects := g.effects + [Fx(12)]);
    SlashBuildsCombo(g1, |g1.enemies|);
    var (h, hit) := Slash(g1, |g1.enemies|);
    if hit then h else h.(combo := 0)
  }

  /** A swing that reaches no enemy resets the combo and takes nothing. */
  lemma EmptySwingResetsCombo(g: Game)
    requires Valid(g)
    requires forall k :: 0 <= k < |g.enemies| ==> !InReach(g.enemies[k])
    ensures Attack(g).combo == 0 && Attack(g).enemies == g.enemies && Attack(g).score == g.score
  {
    var g1 := g.(effects := g.effects + [Fx(12)]);
    SlashMissesAll(g1, |g1.enemies|);
  }

  /** The space bar (`_handleKeyDown`): a swing starts only when none is in progress. */
  function Press(g: Game, key: string): (r: Game)
    requires Valid(g)
    ensures Valid(r)
    ensures key != " " || g.isAttacking ==> r == g
    ensures key == " " && !g.isAttacking ==> r.isAttacking && r.attackFrame == AttackDuration
  {
    if key == " " && !g.isAttacking then Attack(g.(isAttacking := true, attackFrame := AttackDuration))
    else g
  }

  /** A swing is in progress exactly while its frame counter is positive. */
  predicate InSync(g: Game)
  {
    g.isAttacking == (g.attackFrame > 0)
  }

  /** The space bar keeps the swing flag and the counter in step. */
  lemma PressKeepsSync(g: Game, key: string)
    requires Valid(g) && InSync(g)
    ensures InSync(Press(g, key))
  {
  }

  /** The swing countdown that opens `update`. */
  function Countdown(g: Game): (r: Game)
    requires Valid(g)
    ensures Valid(r)
    ensures g.attackFrame > 0 ==> r.attackFrame == g.attackFrame - 1
    ensures r == g.(attackFrame := r.attackFrame, isAttacking := r.isAttacking)
    ensures InSync(g) ==> InSync(r)
  {
    if g.attackFrame > 0 then
      var f := g.attackFrame - 1;
      g.(attackFrame := f, isAttacking := if f <= 0 then false else g.isAttacking)
    else g
  }

  function CountdownTimes(g: Game, k: nat): (r: Game)
    requires Valid(g)
    ensures Valid(r) && (InSync(g) ==> InSync(r))
    decreases k
  {
    if k == 0 then g else CountdownTimes(Countdown(g), k - 1)
  }

  /** A swing lasts exactly 15 frames: after `k` countdowns it is still in progress iff
      `k < 15`, and the next space bar is only accepted after that. */
  lemma {:induction false} SwingLasts(g: Game, k: nat)
    requires Valid(g) && g.isAttacking && g.attackFrame == AttackDuration
    ensures CountdownTimes(g, k).isAttacking <==> k < AttackDuration
    ensures CountdownTimes(g, k).attackFrame == MaxI(0, AttackDuration - k)
  {
    CountdownFrom(g, k);
  }

  lemma {:induction false} CountdownFrom(g: Game, k: nat)
    requires Valid(g)
    ensures CountdownTimes(g, k).attackFrame == MaxI(0, g.attackFrame - k)
    decreases k
  {
    if k > 0 {
      CountdownFrom(Countdown(g), k - 1);
    }
  }

  /** The suit's body for collisions: from x = 60 to 5 px past its right edge, and from
      20 px above its head to its feet. */
  predicate Rams(e: Enemy)
  {
    e.x < 60.0 + 70.0 + 5.0 && e.x + e.w > 60.0 && e.y + e.h > 250.0 - 20.0 && e.y < 250.0 + 90.0
  }

  /** An enemy after one frame of walking left at the scroll speed times its own pace. */
  function Walked(e: Enemy, scrollSpeed: real): Enemy
  {
    e.(x := e.x - scrollSpeed * e.speedMult)
  }

  /** The enemy has left the canvas on the left (`x + width < -20`). */
  predicate Escaped(e: Enemy)
  {
    e.x + e.w < -20.0
  }

  /** One enemy of the loop of `update`, the one at index `i-1`: it walks left; if it has
      left the canvas (`x + width < -20`) it costs 200, if it runs into the suit while the
      suit is not swinging it costs 150 and leaves a 15-frame hit effect; either way the
      combo is lost and the enemy is spliced out. */
  function Trample(g: Game, i: nat): (r: Game)
    requires 0 < i <= |g.enemies| && Valid(g)
    ensures Valid(r) && |r.enemies| >= i - 1 && r.enemies[..i - 1] == g.enemies[..i - 1] && r.score <= g.score
    ensures r == g.(enemies := r.enemies, score := r.score, combo := r.combo, effects := r.effects)
    ensures |r.enemies| == |g.enemies| ==> r == g.(enemies := r.enemies)
    ensures |r.enemies| < |g.enemies| ==> |r.enemies| == |g.enemies| - 1 && r.combo == 0
    ensures g.isAttacking ==> r.effects == g.effects
  {
    var e' := Walked(g.enemies[i - 1], g.scrollSpeed);
    if Escaped(e') then
      g.(score := MaxR(0.0, g.score - 200.0), combo := 0, enemies := Remove(g.enemies, i - 1))
    else if !g.isAttacking && Rams(e') then
      g.(score := MaxR(0.0, g.score - 150.0), combo := 0, enemies := Remove(g.enemies, i - 1),
         effects := g.effects + [Fx(15)])
    else g.(enemies := g.enemies[i - 1 := e'])
  }

  /** An escaped enemy costs 200 and a ramming one 150, never going below zero. */
  lemma TramplePenalties(g: Game, i: nat)
    requires 0 < i <= |g.enemies| && Valid(g)
    ensures var e' := Walked(g.enemies[i - 1], g.scrollSpeed);
      && (Escaped(e') ==> Trample(g, i).score == MaxR(0.0, g.score - 200.0))
      && (!Escaped(e') && !g.isAttacking && Rams(e') ==> Trample(g, i).score == MaxR(0.0, g.score - 150.0))
      && (!Escaped(e') && (g.isAttacking || !Rams(e')) ==> |Trample(g, i).enemies| == |g.enemies|)
  {}

  /** The enemy loop of `update`: enemies `i-1` down to `0`. */
  function March(g: Game, i: nat): (r: Game)
    requires i <= |g.enemies| && Valid(g)
    ensures Valid(r)
    ensures r == g.(enemies := r.enemies, score := r.score, combo := r.combo, effects := r.effects)
    ensures r.score <= g.score
    decreases i
  {
    if i == 0 then g else March(Trample(g, i), i - 1)
  }

  /** While a swing is in progress no enemy can ram the suit: the loop adds no hit effect. */
  lemma {:induction false} SwingingSuitIsNotRammed(g: Game, i: nat)
    requires i <= |g.enemies| && Valid(g) && g.isAttacking
    ensures March(g, i).effects == g.effects
    decreases i
  {
    if i > 0 {
      SwingingSuitIsNotRammed(Trample(g, i), i - 1);
    }
  }

  /** A loop in which an enemy escapes or rams the suit ends with the combo lost; one in
      which none does keeps the combo and the score. */
  lemma {:induction false} PenaltyLosesCombo(g: Game, i: nat)
    requires i <= |g.enemies| && Valid(g)
    ensures |March(g, i).enemies| < |g.enemies| ==> March(g, i).combo == 0
    ensures |March(g, i).enemies| == |g.enemies| ==> March(g, i).combo == g.combo && March(g, i).score == g.score
    decreases i
  {
    if i > 0 {
      var h := Trample(g, i);
      PenaltyLosesCombo(h, i - 1);
      MarchLength(h, i - 1);
      if |h.enemies| < |g.enemies| {
        MarchKeepsLostCombo(h, i - 1);
      }
    }
  }

  lemma {:induction false} MarchLength(g: Game, i: nat)
    requires i <= |g.enemies| && Valid(g)
    ensures |March(g, i).enemies| <= |g.enemies|
    decreases i
  {
    if i > 0 {
      MarchLength(Trample(g, i), i - 1);
    }
  }

  lemma {:induction false} MarchKeepsLostCombo(g: Game, i: nat)
    requires i <= |g.enemies| && Valid(g) && g.combo == 0
    ensures March(g, i).combo == 0
    decreases i
  {
    if i > 0 {
      MarchKeepsLostCombo(Trample(g, i), i - 1);
    }
  }

  function ItemPoints(k: ItemKind): real
  {
    match k
    case Star => 100.0
    case Diamond => 300.0
    case Chicken => 1000.0
  }

  /** A pickup touching the suit: `x < 60 + 70 + 10 && x + size > 60`, the suit's span and
      ten pixels beyond its front. */
  predicate Touches(it: Pickup)
  {
    it.x < 60.0 + 70.0 + 10.0 && it.x + it.size > 60.0
  }

  /** One pickup of the loop of `update`, the one at index `i-1`: it drifts left; one past
      x = -30 is dropped, one touching the suit (`x < 140 && x + size > 60`) pays 100, 300 or
      1000, leaves a score text and is spliced out. */
  function Grab(g: Game, i: nat): (r: Game)
    requires 0 < i <= |g.items| && Valid(g)
    ensures Valid(r) && r.score >= g.score && |r.items| >= i - 1 && r.items[..i - 1] == g.items[..i - 1]
    ensures r == g.(items := r.items, score := r.score, particles := r.particles)
  {
    var it := g.items[i - 1];
    var it' := it.(x := it.x - g.scrollSpeed);
    if it'.x < -30.0 then g.(items := Remove(g.items, i - 1))
    else if Touches(it') then
      g.(score := g.score + ItemPoints(it.kind), particles := g.particles + [Fx(40)],
         items := Remove(g.items, i - 1))
    else g.(items := g.items[i - 1 := it'])
  }

  /** The pickup loop of `update`: items `i-1` down to `0`. */
  function Collect(g: Game, i: nat): (r: Game)
    requires i <= |g.items| && Valid(g)
    ensures Valid(r)
    ensures r == g.(items := r.items, score := r.score, particles := r.particles)
    ensures r.score >= g.score
    decreases i
  {
    if i == 0 then g else Collect(Grab(g, i), i - 1)
  }

  /** What one pickup does: past x = -30 it is dropped for nothing; touching the suit it
      pays its value (star 100, diamond 300, chicken 1000) with one score text of 40 frames
      and goes; anything else only drifts. */
  lemma GrabRules(g: Game, i: nat)
    requires 0 < i <= |g.items| && Valid(g)
    ensures var it := g.items[i - 1]; var it' := it.(x := it.x - g.scrollSpeed); var r := Grab(g, i);
      && (it'.x < -30.0 ==> r == g.(items := Remove(g.items, i - 1)))
      && (it'.x >= -30.0 && Touches(it') ==>
            r.score == g.score + ItemPoints(it.kind) && r.items == Remove(g.items, i - 1)
            && r.particles == g.particles + [Fx(40)])
      && (it'.x >= -30.0 && !Touches(it') ==> r == g.(items := g.items[i - 1 := it']))
    ensures ItemPoints(Star) == 100.0 && ItemPoints(Diamond) == 300.0 && ItemPoints(Chicken) == 1000.0
  {
  }

  /** Whether a pickup leaves the list this frame at scroll speed `speed`: dropped past the
      left edge or taken by the suit. */
  predicate Gone(it: Pickup, speed: real)
  {
    var it' := it.(x := it.x - speed);
    it'.x < -30.0 || Touches(it')
  }

  /** The points a frame takes from the pickups `s`: the value of each one that reaches the
      suit before it leaves the screen. */
  function Haul(s: seq<Pickup>, speed: real): real
  {
    if s == [] then 0.0
    else
      var it := s[|s| - 1];
      var it' := it.(x := it.x - speed);
      Haul(s[..|s| - 1], speed) + (if it'.x >= -30.0 && Touches(it') then ItemPoints(it.kind) else 0.0)
  }

  /** The pickups `s` after a frame, in order: every one that stays, drifted. */
  function Left(s: seq<Pickup>, speed: real): seq<Pickup>
  {
    if s == [] then []
    else
      var it := s[|s| - 1];
      Left(s[..|s| - 1], speed) + (if Gone(it, speed) then [] else [it.(x := it.x - speed)])
  }

  /** The pickup loop pays exactly the value of every pickup that reaches the suit. */
  lemma {:induction false} CollectPays(g: Game, i: nat)
    requires i <= |g.items| && Valid(g)
    ensures Collect(g, i).score == g.score + Haul(g.items[..i], g.scrollSpeed)
    decreases i
  {
    if i > 0 {
      var h := Grab(g, i);
      var it := g.items[i - 1];
      var it' := it.(x := it.x - g.scrollSpeed);
      var pts := if it'.x >= -30.0 && Touches(it') then ItemPoints(it.kind) else 0.0;
      GrabRules(g, i);
      assert h.score == g.score + pts;
      assert g.items[..i][..i - 1] == g.items[..i - 1] && g.items[..i][i - 1] == it;
      assert Haul(g.items[..i], g.scrollSpeed) == Haul(g.items[..i - 1], g.scrollSpeed) + pts;
      assert Collect(g, i) == Collect(h, i - 1);
      CollectPays(h, i - 1);
    }
  }

  /** One pass of the pickup loop on the list: the pickups before `i - 1` are untouched,
      and the one at `i - 1` is either gone or scrolled in place. */
  lemma GrabSplits(g: Game, i: nat)
    requires 0 < i <= |g.items| && Valid(g)
    ensures var it := g.items[i - 1]; var h := Grab(g, i);
      && |h.items| >= i - 1
      && h.items[..i - 1] == g.items[..i - 1]
      && h.items[i - 1..] == (if Gone(it, g.scrollSpeed) then [] else [it.(x := it.x - g.scrollSpeed)]) + g.items[i..]
  {
    GrabRules(g, i);
  }

  /** Every pickup taken or dropped is gone after the loop, so none pays twice; the others
      have drifted and keep their order. */
  lemma {:induction false} CollectLeaves(g: Game, i: nat)
    requires i <= |g.items| && Valid(g)
    ensures Collect(g, i).items == Left(g.items[..i], g.scrollSpeed) + g.items[i..]
    decreases i
  {
    if i > 0 {
      var h := Grab(g, i);
      GrabSplits(g, i);
      assert g.items[..i][..i - 1] == g.items[..i - 1];
      assert Collect(g, i) == Collect(h, i - 1);
      CollectLeaves(h, i - 1);
    }
  }

  /** `checkLevelUp`: the level follows `floor(score / 500) + 1` but never falls; a rise sets
      the scroll speed to `min(7, 3 + 0.3 level)` and the enemy interval to
      `max(600, 1800 - 100 level)`. */
  function LevelUp(g: Game): (r: Game)
    requires Valid(g)
    ensures Valid(r) && r.level >= g.level
    ensures r.level > g.level ==>
      r.level == LevelFor(g.score, 500.0) &&
      r == g.(level := r.level, scrollSpeed := MinR(7.0, 3.0 + r.level as real * 0.3),
              enemySpawnInterval := MaxI(600, 1800 - r.level * 100))
    ensures r.level == g.level ==> r == g
  {
    var newLevel := LevelFor(g.score, 500.0);
    if newLevel > g.level then
      g.(level := newLevel, scrollSpeed := MinR(7.0, 3.0 + newLevel as real * 0.3),
         enemySpawnInterval := MaxI(600, 1800 - newLevel * 100))
    else g
  }

  /** `spawnEnemy` for the draws `d`: a zaku (45 by 75, speed 0.8 to 1.3) below 0.75, else a
      boss (55 by 90, 15 px higher, speed 0.5 to 0.8), entering between x = 420 and 480. */
  function SpawnedEnemy(d: seq<real>): (e: Enemy)
    requires |d| >= 3 && AllDraws(d)
    ensures e.kind == Zaku <==> d[0] < 0.75
    ensures e.kind == Zaku ==> e.w == 45.0 && e.h == 75.0 && e.y == 250.0 && 0.8 <= e.speedMult < 1.3
    ensures e.kind == Boss ==> e.w == 55.0 && e.h == 90.0 && e.y == 235.0 && 0.5 <= e.speedMult < 0.8
    ensures 420.0 <= e.x < 480.0
  {
    var x := 400.0 + 20.0 + d[2] * 60.0;
    if d[0] < 0.75 then Enemy(Zaku, x, 250.0, 45.0, 75.0, 0.8 + d[1] * 0.5)
    else Enemy(Boss, x, 250.0 - 15.0, 55.0, 90.0, 0.5 + d[1] * 0.3)
  }

  /** `spawnItem` for the draws `d`: star below 0.5, diamond below 0.8, else chicken,
      floating 30 to 60 px above the suit at x = 420. */
  function SpawnedItem(d: seq<real>): (it: Pickup)
    requires |d| >= 2 && AllDraws(d)
    ensures it.kind == Star <==> d[0] < 0.5
    ensures it.kind == Diamond <==> 0.5 <= d[0] < 0.8
    ensures it.x == 420.0 && it.size == 25.0 && 190.0 < it.y <= 220.0
  {
    var kind := if d[0] < 0.5 then Star else if d[0] < 0.8 then Diamond else Chicken;
    Pickup(kind, 420.0, 250.0 - 30.0 - d[1] * 30.0, 25.0)
  }

  /** The first half of `update(timestamp)`: the swing countdown and the two spawn timers. */
  function Advance(g: Game, timestamp: real, de: seq<real>, di: seq<real>): (r: Game)
    requires Valid(g) && |de| >= 3 && AllDraws(de) && |di| >= 2 && AllDraws(di)
    ensures Valid(r) && (InSync(g) ==> InSync(r))
  {
    var g1 := Countdown(g);
    var g2 := if timestamp - g1.lastEnemySpawn > g1.enemySpawnInterval as real
      then g1.(enemies := g1.enemies + [SpawnedEnemy(de)], lastEnemySpawn := timestamp) else g1;
    if timestamp - g2.lastItemSpawn > 4000.0
    then g2.(items := g2.items + [SpawnedItem(di)], lastItemSpawn := timestamp) else g2
  }

  /** The second half of `update`: enemies, pickups, effect and particle countdowns, the
      level check and the 0.05 time bonus. */
  function Settle(g: Game): (r: Game)
    requires Valid(g)
    ensures Valid(r) && r.level >= g.level
    ensures r.isAttacking == g.isAttacking && r.attackFrame == g.attackFrame
  {
    var g3 := March(g, |g.enemies|);
    var g4 := Collect(g3, |g3.items|);
    var g5 := g4.(effects := Aged(g4.effects), particles := Aged(g4.particles));
    var g6 := LevelUp(g5);
    g6.(score := g6.score + 0.05)
  }

  /** A whole frame keeps the swing flag in step with its counter. */
  lemma FrameKeepsSync(g: Game, timestamp: real, de: seq<real>, di: seq<real>)
    requires Valid(g) && InSync(g) && |de| >= 3 && AllDraws(de) && |di| >= 2 && AllDraws(di)
    ensures InSync(Settle(Advance(g, timestamp, de, di)))
  {
  }

  class GundamRunnerEngine {
    var score: real
    var level: int
    var isAttacking: bool
    var attackFrame: int
    var enemies: seq<Enemy>
    var items: seq<Pickup>
    var effects: seq<Fx>
    var particles: seq<Fx>
    var lastEnemySpawn: real
    var lastItemSpawn: real
    var enemySpawnInterval: int
    var scrollSpeed: real
    var combo: int
    var maxCombo: int
    var isGameActive: bool

    function Model(): Game
      reads this
    {
      Game(score, level, isAttacking, attackFrame, enemies, items, effects, particles,
           lastEnemySpawn, lastItemSpawn, enemySpawnInterval, scrollSpeed, combo, maxCombo,
           isGameActive)
    }

    constructor ()
      ensures Valid(Model())
      ensures Model() == Game(0.0, 1, false, 0, [], [], [], [], 0.0, 0.0, 1800, 3.0, 0, 0, false)
    {
      score, level, isAttacking, attackFrame := 0.0, 1, false, 0;
      enemies, items, effects, particles := [], [], [], [];
      lastEnemySpawn, lastItemSpawn, enemySpawnInterval, scrollSpeed := 0.0, 0.0, 1800, 3.0;
      combo, maxCombo, isGameActive := 0, 0, false;
    }

    /** `start()`: everything is reset, with no swing in progress. */
    method Start()
      modifies this
      ensures Valid(Model()) && InSync(Model())
      ensures Model() == Game(0.0, 1, false, 0, [], [], [], [], 0.0, 0.0, 1800, 3.0, 0, 0, true)
    {
      ResetScore();
      ClearField();
      ResetPace();
    }

    /** The score, level and combo part of `start()`. */
    method ResetScore()
      modifies this
      ensures Model() == old(Model()).(active := true, score := 0.0, level := 1, combo := 0, maxCombo := 0)
    {
      isGameActive := true;
      score := 0.0;
      level := 1;
      combo := 0;
      maxCombo := 0;
    }

    /** The lists and spawn timers part of `start()`. */
    method ClearField()
      modifies this
      ensures Model() == old(Model()).(enemies := [], items := [], effects := [], particles := [],
                                       lastEnemySpawn := 0.0, lastItemSpawn := 0.0)
    {
      enemies := [];
      items := [];
      effects := [];
      particles := [];
      lastEnemySpawn := 0.0;
      lastItemSpawn := 0.0;
    }

    /** The pace and swing part of `start()`. */
    method ResetPace()
      modifies this
      ensures Model() == old(Model()).(scrollSpeed := 3.0, enemySpawnInterval := 1800,
                                       isAttacking := false, attackFrame := 0)
    {
      scrollSpeed := 3.0;
      enemySpawnInterval := 1800;
      isAttacking := false;
      attackFrame := 0;
    }

    /** `stop()`: the game ends and reports the whole points of its score and its level. */
    method Stop() returns (finalScore: int, finalLevel: int)
      requires Valid(Model())
      modifies this
      ensures Model() == old(Model()).(active := false)
      ensures finalScore >= 0 && finalScore as real <= score < finalScore as real + 1.0
      ensures finalLevel == level
    {
      isGameActive := false;
      finalScore := score.Floor;
      finalLevel := level;
    }

    /** The enemy loop of `performAttack`; `hit` tells whether anything was destroyed. */
    method SlashEnemies() returns (hit: bool)
      requires combo >= 0
      modifies this
      ensures (Model(), hit) == Slash(old(Model()), |old(enemies)|)
    {
      hit := false;
      var i := |enemies|;
      while i > 0
        invariant 0 <= i <= |enemies| && combo >= 0
        invariant Slash(old(Model()), |old(enemies)|) == (Slash(Model(), i).0, hit || Slash(Model(), i).1)
      {
        var struck := CutAt(i);
        hit := hit || struck;
        i := i - 1;
      }
    }

    /** One pass of that loop, on the enemy at index `i-1`. */
    method CutAt(i: nat) returns (struck: bool)
      requires 0 < i <= |enemies| && combo >= 0
      modifies this
      ensures Model() == Cut(old(Model()), i) && struck == InReach(old(enemies)[i - 1])
    {
      var e := enemies[i - 1];
      struck := InReach(e);
      if struck {
        Reward(e.kind);
        var burst := Emit(12, 25);
        particles := particles + burst + [Fx(40)];
        enemies := Remove(enemies, i - 1);
      }
    }

    method PerformAttack()
      requires Valid(Model())
      modifies this
      ensures Model() == Attack(old(Model()))
    {
      effects := effects + [Fx(12)];
      var hitAny := SlashEnemies();
      if !hitAny {
        combo := 0;
      }
    }

    /** `_handleKeyDown(e)`. */
    method HandleKeyDown(key: string)
      requires Valid(Model())
      modifies this
      ensures Model() == Press(old(Model()), key)
    {
      if key == " " {
        if !isAttacking {
          isAttacking := true;
          attackFrame := AttackDuration;
          PerformAttack();
        }
      }
    }

    /** A destroyed enemy raises the combo, the best combo and the score. */
    method Reward(kind: EnemyKind)
      requires combo >= 0
      modifies this
      ensures Model() == old(Model()).(combo := old(combo) + 1, maxCombo := MaxI(old(maxCombo), old(combo) + 1),
                                       score := old(score) + HitPoints(kind, old(combo) + 1))
    {
      combo := combo + 1;
      if combo > maxCombo {
        maxCombo := combo;
      }
      score := score + HitPoints(kind, combo);
    }

    /** The enemy loop of `update`. */
    method MoveEnemies()
      requires Valid(Model())
      modifies this
      ensures Model() == March(old(Model()), |old(enemies)|)
    {
      var i := |enemies|;
      while i > 0
        invariant 0 <= i <= |enemies| && Valid(Model())
        invariant March(Model(), i) == March(old(Model()), |old(enemies)|)
      {
        TrampleAt(i);
        i := i - 1;
      }
    }

    /** One pass of that loop, on the enemy at index `i-1`. */
    method TrampleAt(i: nat)
      requires 0 < i <= |enemies| && Valid(Model())
      modifies this
      ensures Model() == Trample(old(Model()), i)
    {
      var e := Walked(enemies[i - 1], scrollSpeed);
      if Escaped(e) {
        score := MaxR(0.0, score - 200.0);
        combo := 0;
        enemies := Remove(enemies, i - 1);
      } else if !isAttacking && Rams(e) {
        score := MaxR(0.0, score - 150.0);
        combo := 0;
        enemies := Remove(enemies, i - 1);
        effects := effects + [Fx(15)];
      } else {
        enemies := enemies[i - 1 := e];
      }
    }

    /** The pickup loop of `update`. */
    method MoveItems()
      requires Valid(Model())
      modifies this
      ensures Model() == Collect(old(Model()), |old(items)|)
    {
      var i := |items|;
      while i > 0
        invariant 0 <= i <= |items| && Valid(Model())
        invariant Collect(Model(), i) == Collect(old(Model()), |old(items)|)
      {
        CollectAt(i);
        i := i - 1;
      }
    }

    /** One pass of that loop, on the item at index `i-1`. */
    method CollectAt(i: nat)
      requires 0 < i <= |items| && Valid(Model())
      modifies this
      ensures Model() == Grab(old(Model()), i)
    {
      var it := items[i - 1];
      it := it.(x := it.x - scrollSpeed);
      if it.x < -30.0 {
        items := Remove(items, i - 1);
      } else if Touches(it) {
        score := score + ItemPoints(it.kind);
        particles := particles + [Fx(40)];
        items := Remove(items, i - 1);
      } else {
        items := items[i - 1 := it];
      }
    }

    method CheckLevelUp()
      requires Valid(Model())
      modifies this
      ensures Model() == LevelUp(old(Model()))
    {
      var newLevel := LevelFor(score, 500.0);
      if newLevel > level {
        level := newLevel;
        scrollSpeed := MinR(7.0, 3.0 + level as real * 0.3);
        enemySpawnInterval := MaxI(600, 1800 - level * 100);
      }
    }

    /** The effect and particle countdowns of `update`. */
    method AgeEffects()
      modifies this
      ensures Model() == old(Model()).(effects := Aged(old(effects)), particles := Aged(old(particles)))
    {
      effects := Age(effects);
      particles := Age(particles);
    }

    method SettleFrame()
      requires Valid(Model())
      modifies this
      ensures Model() == Settle(old(Model()))
    {
      MoveEnemies();
      MoveItems();
      AgeEffects();
      CheckLevelUp();
      score := score + 0.05;
    }

    /** `update(timestamp)` with `de` and `di` the draws `spawnEnemy` and `spawnItem` would
        make. */
    method Update(timestamp: real, de: seq<real>, di: seq<real>)
      requires Valid(Model()) && |de| >= 3 && AllDraws(de) && |di| >= 2 && AllDraws(di)
      modifies this
      ensures Model() == Settle(Advance(old(Model()), timestamp, de, di))
    {
      AdvanceFrame(timestamp, de, di);
      SettleFrame();
    }

    /** The swing countdown and the spawn timers that open `update`. */
    method AdvanceFrame(timestamp: real, de: seq<real>, di: seq<real>)
      requires Valid(Model()) && |de| >= 3 && AllDraws(de) && |di| >= 2 && AllDraws(di)
      modifies this
      ensures Model() == Advance(old(Model()), timestamp, de, di)
    {
      CountDown();
      if timestamp - lastEnemySpawn > enemySpawnInterval as real {
        enemies := enemies + [SpawnedEnemy(de)];
        lastEnemySpawn := timestamp;
      }
      if timestamp - lastItemSpawn > 4000.0 {
        items := items + [SpawnedItem(di)];
        lastItemSpawn := timestamp;
      }
    }

    /** The swing countdown. */
    method CountDown()
      requires Valid(Model())
      modifies this
      ensures Model() == Countdown(old(Model()))
    {
      if attackFrame > 0 {
        attackFrame := attackFrame - 1;
        if attackFrame <= 0 {
          isAttacking := false;
        }
      }
    }
  }
}
