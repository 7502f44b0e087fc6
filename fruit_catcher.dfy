/** The fruit catcher (`GameEngine` in js/gameEngine.js): items fall in three lanes, the
    player snaps a spear-basket between the lanes by pose, caught fruit is skewered on the
    spear (five skewered items are eaten for a bonus), a bomb empties the spear and costs
    points unless the player is invincible, and a gun pickup fires bullets upward for a while. */
module FruitCatcher {
  import opened Common

  datatype Kind = Apple | Banana | Bomb | Grape | Chicken | Gun | EventBox

  /** A falling item: its top-left corner, its size and its speed factor. */
  datatype Item = Item(kind: Kind, x: real, y: real, size: real, speedMult: real)

  /** A bullet of the gun mode (10 wide, 20 high). */
  datatype Bullet = Bullet(x: real, y: real)

  /** Everything `update`, `handleCollision` and `checkLevelUp` read or write. The basket is
      80 by 30 at y = 360; only its x moves. */
  datatype Game = Game(
    score: int, level: int, itemSpeed: real, spawnInterval: int, basketX: real,
    items: seq<Item>, skewered: seq<Item>, bullets: seq<Bullet>,
    invincibleEndTime: int, gunEndTime: int, lastShootTime: real, lastSpawnTime: real,
    active: bool)

  /** The invariant every operation keeps: a non-negative score, at most four skewered
      items, a level of at least one and a spawn interval no shorter than 200 ms. */
  predicate Valid(g: Game)
  {
    g.score >= 0 && |g.skewered| <= 4 && g.level >= 1 && g.spawnInterval >= 200
  }

  /** Points for a catch before the stack bonus: the fruit values and the chicken jackpot. */
  function CatchPoints(k: Kind): int
  {
    match k
    case Apple => 100
    case Banana => 200
    case Grape => 300
    case Chicken => 1000
    case _ => 0
  }

  /** Food is skewered when caught; bombs, guns and event boxes are not. */
  predicate IsFood(k: Kind) { k in {Apple, Banana, Grape, Chicken} }

  /** `checkLevelUp`: the level follows `floor(score / 500) + 1` but never falls; each rise
      speeds items up by 0.5 and shortens the spawn interval by 100 ms, down to 200 ms. */
  function LevelUp(g: Game): (r: Game)
    ensures r == g || (r.level > g.level && r == g.(level := r.level, itemSpeed := g.itemSpeed + 0.5,
                                                     spawnInterval := MaxI(200, g.spawnInterval - 100)))
    ensures r.level >= g.level
  {
    var newLevel := g.score / 500 + 1;
    if newLevel > g.level then
      g.(level := newLevel, itemSpeed := g.itemSpeed + 0.5, spawnInterval := MaxI(200, g.spawnInterval - 100))
    else g
  }

  /** A raised level is exactly the band of 500 points the score sits in; a level that was
      not raised is at least that band. */
  lemma LevelUpMeetsScore(g: Game)
    requires g.score >= 0
    ensures LevelUp(g).level >= g.level
    ensures LevelUp(g).level > g.level ==>
      (LevelUp(g).level - 1) * 500 <= g.score < LevelUp(g).level * 500
    ensures LevelUp(g).level * 500 > g.score
  {
    var q := g.score / 500;
    assert q * 500 <= g.score < (q + 1) * 500;
    if LevelUp(g).level == g.level {
      assert g.level >= q + 1;
      assert g.level * 500 >= (q + 1) * 500;
    }
  }

  /** Pushes a caught food item; the fifth one empties the spear for a 500-point bonus. */
  function Skewer(g: Game, it: Item): Game
  {
    if |g.skewered + [it]| >= 5 then g.(score := g.score + 500, skewered := [])
    else g.(skewered := g.skewered + [it])
  }

  /** `handleCollision(item)` at wall-clock time `now`, including its closing level check. */
  function Collide(g: Game, it: Item, now: int): (r: Game)
    requires Valid(g)
    ensures Valid(r)
    ensures r.items == g.items && r.bullets == g.bullets && r.basketX == g.basketX
    ensures r.active == g.active && r.lastShootTime == g.lastShootTime
    ensures r.lastSpawnTime == g.lastSpawnTime
    ensures r.level >= g.level
  {
    match it.kind
    case EventBox => g.(invincibleEndTime := now + 30000)
    case Gun => g.(gunEndTime := now + 15000)
    case Bomb =>
      if now < g.invincibleEndTime then g
      else LevelUp(g.(score := MaxI(0, g.score - 250), skewered := []))
    case _ => LevelUp(Skewer(g.(score := g.score + CatchPoints(it.kind)), it))
  }

  /** A bomb caught while invincible changes nothing at all. */
  lemma ShieldedBombIsHarmless(g: Game, it: Item, now: int)
    requires Valid(g) && it.kind == Bomb && now < g.invincibleEndTime
    ensures Collide(g, it, now) == g
  {}

  /** An unshielded bomb costs 250 points, never going below zero, and empties the spear. */
  lemma BombPenalty(g: Game, it: Item, now: int)
    requires Valid(g) && it.kind == Bomb && now >= g.invincibleEndTime
    ensures Collide(g, it, now).score == if g.score >= 250 then g.score - 250 else 0
    ensures Collide(g, it, now).skewered == []
  {}

  /** Gun and event-box pickups only open a window: 15 s of gun mode or 30 s of invincibility
      from `now`; score, level and spear stay as they were. */
  lemma PowerUpsOnlySetDeadlines(g: Game, it: Item, now: int)
    requires Valid(g) && (it.kind == Gun || it.kind == EventBox)
    ensures it.kind == Gun ==> Collide(g, it, now) == g.(gunEndTime := now + 15000)
    ensures it.kind == EventBox ==> Collide(g, it, now) == g.(invincibleEndTime := now + 30000)
    ensures Collide(g, it, now).score == g.score && Collide(g, it, now).skewered == g.skewered
    ensures Collide(g, it, now).level == g.level
  {}

  /** Catching food: apple +100, banana +200, grape +300, chicken +1000; the item goes on
      the spear, and when that makes five the spear is emptied for +500 more. */
  lemma CatchScoring(g: Game, it: Item, now: int)
    requires Valid(g) && IsFood(it.kind)
    ensures var r := Collide(g, it, now);
      && (|g.skewered| < 4 ==> r.skewered == g.skewered + [it] && r.score == g.score + CatchPoints(it.kind))
      && (|g.skewered| == 4 ==> r.skewered == [] && r.score == g.score + CatchPoints(it.kind) + 500)
      && CatchPoints(it.kind) >= 100
  {}

  /** The spawn test of `spawnItem` for the draws `d` (lane, kind, fruit). */
  function Spawned(level: int, d: seq<real>): (it: Item)
    requires |d| >= 3 && AllDraws(d)
    ensures it.x in {46.0, 180.0, 313.0} && it.y == 0.0 && it.size == 40.0
    ensures it.kind == Gun <==> d[1] < 0.1
    ensures it.kind == Chicken <==> 0.1 <= d[1] < 0.25
    ensures it.kind == Bomb || it.kind == Grape ==> level >= 2 && d[1] >= 0.25
    ensures it.kind != EventBox
    ensures it.speedMult == if it.kind == Grape then 1.6 else if it.kind == Banana then 1.2 else 1.0
  {
    var x := [46.0, 180.0, 313.0][Pick(d[0], 3)];
    var kind :=
      if d[1] < 0.1 then Gun
      else if d[1] < 0.25 then Chicken
      else [Apple, Banana, Bomb, Grape][Pick(d[2], if level >= 2 then 4 else 2)];
    var speedMult := if kind == Grape then 1.6 else if kind == Banana then 1.2 else 1.0;
    Item(kind, x, 0.0, 40.0, speedMult)
  }

  /** A bullet overlaps an item's square. */
  predicate Hits(b: Bullet, it: Item)
  {
    b.x < it.x + it.size && b.x + 10.0 > it.x && b.y < it.y + it.size && b.y + 20.0 > it.y
  }

  function Bounty(k: Kind): int { if k == Bomb then 50 else 300 }

  /** The inner loop of the bullet pass: items `j-1` down to `0` are checked against `b`,
      every hit item is spliced out and pays its bounty. The flag says whether any hit. */
  function Strike(g: Game, b: Bullet, j: nat): (r: (Game, bool))
    requires j <= |g.items|
    ensures r.0 == g.(items := r.0.items, score := r.0.score)
    ensures r.0.score >= g.score
    ensures |r.0.items| <= |g.items|
    decreases j
  {
    if j == 0 then (g, false)
    else if Hits(b, g.items[j - 1]) then
      var r := Strike(g.(items := Remove(g.items, j - 1), score := g.score + Bounty(g.items[j - 1].kind)), b, j - 1);
      (r.0, true)
    else Strike(g, b, j - 1)
  }

  /** The items a bullet misses, in order. */
  function Missed(s: seq<Item>, b: Bullet): seq<Item>
  {
    if s == [] then [] else (if Hits(b, s[0]) then [] else [s[0]]) + Missed(s[1..], b)
  }

  /** The bounty of every item a bullet hits. */
  function Bounties(s: seq<Item>, b: Bullet): int
  {
    if s == [] then 0 else (if Hits(b, s[0]) then Bounty(s[0].kind) else 0) + Bounties(s[1..], b)
  }

  lemma {:induction false} MissedSnoc(s: seq<Item>, it: Item, b: Bullet)
    ensures Missed(s + [it], b) == Missed(s, b) + (if Hits(b, it) then [] else [it])
    ensures Bounties(s + [it], b) == Bounties(s, b) + (if Hits(b, it) then Bounty(it.kind) else 0)
  {
    if s == [] {
      assert s + [it] == [it];
    } else {
      assert (s + [it])[1..] == s[1..] + [it];
      MissedSnoc(s[1..], it, b);
    }
  }

  lemma {:induction false} MissedLength(s: seq<Item>, b: Bullet)
    ensures |Missed(s, b)| <= |s|
    ensures |Missed(s, b)| == |s| <==> forall k :: 0 <= k < |s| ==> !Hits(b, s[k])
  {
    if s != [] {
      MissedLength(s[1..], b);
      if |Missed(s, b)| == |s| {
        forall k | 0 <= k < |s| ensures !Hits(b, s[k]) {
          if k > 0 { assert s[k] == s[1..][k - 1]; }
        }
      }
    }
  }

  /** The backward splice loop removes exactly the items the bullet overlaps and keeps the
      others in order. */
  lemma {:induction false} StrikeRemovesExactlyTheHits(g: Game, b: Bullet, j: nat)
    requires j <= |g.items|
    ensures Strike(g, b, j).0.items == Missed(g.items[..j], b) + g.items[j..]
    decreases j
  {
    if j == 0 {
      assert g.items[..0] == [] && g.items[0..] == g.items;
    } else {
      var it := g.items[j - 1];
      assert g.items[..j] == g.items[..j - 1] + [it];
      MissedSnoc(g.items[..j - 1], it, b);
      if Hits(b, it) {
        var h := g.(items := Remove(g.items, j - 1), score := g.score + Bounty(it.kind));
        assert Strike(g, b, j).0 == Strike(h, b, j - 1).0;
        StrikeRemovesExactlyTheHits(h, b, j - 1);
        assert Missed(g.items[..j], b) == Missed(h.items[..j - 1], b);
      } else {
        assert Strike(g, b, j).0 == Strike(g, b, j - 1).0;
        StrikeRemovesExactlyTheHits(g, b, j - 1);
        assert g.items[j - 1..] == [it] + g.items[j..];
      }
    }
  }

  /** The score a bullet earns is the bounty of exactly the items it hits. */
  lemma {:induction false} StrikePaysTheBounties(g: Game, b: Bullet, j: nat)
    requires j <= |g.items|
    ensures Strike(g, b, j).0.score == g.score + Bounties(g.items[..j], b)
    decreases j
  {
    if j > 0 {
      var it := g.items[j - 1];
      assert g.items[..j] == g.items[..j - 1] + [it];
      MissedSnoc(g.items[..j - 1], it, b);
      if Hits(b, it) {
        var h := g.(items := Remove(g.items, j - 1), score := g.score + Bounty(it.kind));
        StrikePaysTheBounties(h, b, j - 1);
        assert h.items[..j - 1] == g.items[..j - 1];
      } else {
        StrikePaysTheBounties(g, b, j - 1);
      }
    }
  }

  /** A bullet is spent exactly when some item was in its path. */
  lemma {:induction false} StrikeReportsHit(g: Game, b: Bullet, j: nat)
    requires j <= |g.items|
    ensures Strike(g, b, j).1 <==> exists k :: 0 <= k < j && Hits(b, g.items[k])
    decreases j
  {
    if j > 0 && !Hits(b, g.items[j - 1]) {
      StrikeReportsHit(g, b, j - 1);
      if exists k :: 0 <= k < j && Hits(b, g.items[k]) {
        var k :| 0 <= k < j && Hits(b, g.items[k]);
        assert k < j - 1;
      }
    }
  }

  /** The bullet pass of `update`: bullets `i-1` down to `0` each climb 10 px; one above
      y = -20 is dropped, otherwise it strikes the items and is spent if it hit any. */
  function Volley(g: Game, i: nat): (r: Game)
    requires i <= |g.bullets|
    ensures r == g.(items := r.items, score := r.score, bullets := r.bullets)
    ensures r.score >= g.score && |r.items| <= |g.items| && |r.bullets| <= |g.bullets|
    decreases i
  {
    if i == 0 then g
    else
      var b := Bullet(g.bullets[i - 1].x, g.bullets[i - 1].y - 10.0);
      if b.y < -20.0 then Volley(g.(bullets := Remove(g.bullets, i - 1)), i - 1)
      else
        var (h, hit) := Strike(g, b, |g.items|);
        if hit then Volley(h.(bullets := Remove(g.bullets, i - 1)), i - 1)
        else Volley(h.(bullets := g.bullets[i - 1 := b]), i - 1)
  }

  /** Every bullet the pass keeps has climbed to y >= -20 without hitting anything. */
  lemma {:induction false} VolleyKeepsOnScreen(g: Game, i: nat)
    requires i <= |g.bullets|
    requires forall k :: i <= k < |g.bullets| ==> g.bullets[k].y >= -20.0
    ensures forall k :: 0 <= k < |Volley(g, i).bullets| ==> Volley(g, i).bullets[k].y >= -20.0
    decreases i
  {
    if i > 0 {
      var b := Bullet(g.bullets[i - 1].x, g.bullets[i - 1].y - 10.0);
      if b.y < -20.0 {
        VolleyKeepsOnScreen(g.(bullets := Remove(g.bullets, i - 1)), i - 1);
      } else {
        var (h, hit) := Strike(g, b, |g.items|);
        if hit {
          VolleyKeepsOnScreen(h.(bullets := Remove(g.bullets, i - 1)), i - 1);
        } else {
          VolleyKeepsOnScreen(h.(bullets := g.bullets[i - 1 := b]), i - 1);
        }
      }
    }
  }

  /** An item after one frame of falling. */
  function Dropped(it: Item, speed: real): Item
  {
    it.(y := it.y + speed * it.speedMult)
  }

  /** The spear catches an item whose square reaches 40 px above the basket top, has not
      passed the basket bottom, and whose centre is within 30 px of the spear. */
  predicate Caught(basketX: real, it: Item)
  {
    var dx := it.x + it.size / 2.0 - (basketX + 40.0);
    it.y + it.size >= 320.0 && it.y < 390.0 && -30.0 < dx < 30.0
  }

  /** The falling pass of `update` at wall-clock time `now`: items `i-1` down to `0` fall;
      a caught one is handled and spliced out, one below the canvas (y > 400) is dropped. */
  function Fall(g: Game, i: nat, now: int): (r: Game)
    requires i <= |g.items| && Valid(g)
    ensures Valid(r) && r.level >= g.level
    ensures r.bullets == g.bullets && r.basketX == g.basketX && r.active == g.active
    ensures |r.items| <= |g.items|
    decreases i
  {
    if i == 0 then g
    else
      var it := Dropped(g.items[i - 1], g.itemSpeed);
      if Caught(g.basketX, it) then Fall(Collide(g.(items := Remove(g.items, i - 1)), it, now), i - 1, now)
      else if it.y > 400.0 then Fall(g.(items := Remove(g.items, i - 1)), i - 1, now)
      else Fall(g.(items := g.items[i - 1 := it]), i - 1, now)
  }

  /** Without food reaching the spear and without a bomb hitting it, the falling pass never
      lowers the score. */
  lemma {:induction false} FallScoreOnlyDropsByBombs(g: Game, i: nat, now: int)
    requires i <= |g.items| && Valid(g)
    requires forall k :: 0 <= k < i ==> g.items[k].kind != Bomb
    ensures Fall(g, i, now).score >= g.score
    decreases i
  {
    if i > 0 {
      var it := Dropped(g.items[i - 1], g.itemSpeed);
      var rest := Remove(g.items, i - 1);
      if Caught(g.basketX, it) {
        var c := Collide(g.(items := rest), it, now);
        assert c.score >= g.score;
        FallScoreOnlyDropsByBombs(c, i - 1, now);
      } else if it.y > 400.0 {
        FallScoreOnlyDropsByBombs(g.(items := rest), i - 1, now);
      } else {
        FallScoreOnlyDropsByBombs(g.(items := g.items[i - 1 := it]), i - 1, now);
      }
    }
  }

  /** The spawn step and the gun step that open `update`. */
  function Armed(g: Game, timestamp: real, now: int, d: seq<real>): (r: Game)
    requires |d| >= 3 && AllDraws(d)
    ensures Valid(g) ==> Valid(r)
    ensures now < g.gunEndTime ==> |r.bullets| <= |g.bullets| + 1
    ensures now >= g.gunEndTime ==> r.bullets == []
  {
    var g1 := if timestamp - g.lastSpawnTime > g.spawnInterval as real
      then g.(items := g.items + [Spawned(g.level, d)], lastSpawnTime := timestamp) else g;
    if now < g1.gunEndTime then
      if timestamp - g1.lastShootTime > 200.0
      then g1.(bullets := g1.bullets + [Bullet(g1.basketX + 35.0, 360.0)], lastShootTime := timestamp)
      else g1
    else g1.(bullets := [])
  }

  /** One frame of `update(timestamp)` with `now` the wall-clock time of that frame. */
  function Step(g: Game, timestamp: real, now: int, d: seq<real>): (r: Game)
    requires Valid(g) && |d| >= 3 && AllDraws(d)
    ensures Valid(r) && r.level >= g.level && r.basketX == g.basketX && r.active == g.active
    ensures now >= g.gunEndTime ==> r.bullets == []
  {
    var g2 := Armed(g, timestamp, now, d);
    var g3 := Volley(g2, |g2.bullets|);
    Fall(g3, |g3.items|, now)
  }

  /** `onPoseDetected`: the basket x a pose label snaps to, if any. */
  function PoseX(pose: string): (x: Option<real>)
    ensures x.Some? ==> x.value in {26.0, 160.0, 293.0}
    ensures pose == "Left" ==> x == Some(26.0)
    ensures pose == "Right" ==> x == Some(293.0)
    ensures pose == "Center" ==> x == Some(160.0)
  {
    if pose == "\U{C67C}\U{CABD}" || pose == "Left" then Some(26.0)
    else if pose == "\U{C624}\U{B978}\U{CABD}" || pose == "Right" then Some(293.0)
    else if pose == "\U{C815}\U{BA74}" || pose == "Center" then Some(160.0)
    else None
  }

  class GameEngine {
    var score: int
    var level: int
    var itemSpeed: real
    var spawnInterval: int
    var basketX: real
    var items: seq<Item>
    var skeweredItems: seq<Item>
    var bullets: seq<Bullet>
    var invincibleEndTime: int
    var gunEndTime: int
    var lastShootTime: real
    var lastSpawnTime: real
    var isGameActive: bool

    function Model(): Game
      reads this
    {
      Game(score, level, itemSpeed, spawnInterval, basketX, items, skeweredItems, bullets,
           invincibleEndTime, gunEndTime, lastShootTime, lastSpawnTime, isGameActive)
    }

    constructor ()
      ensures Valid(Model())
      ensures Model() == Game(0, 1, 1.5, 1500, 180.0, [], [], [], 0, 0, 0.0, 0.0, false)
    {
      score, level, itemSpeed, spawnInterval, basketX := 0, 1, 1.5, 1500, 180.0;
      items, skeweredItems, bullets := [], [], [];
      invincibleEndTime, gunEndTime, lastShootTime, lastSpawnTime := 0, 0, 0.0, 0.0;
      isGameActive := false;
    }

    /** `start()`: a fresh score, level, field and spear, the basket centred. Speed, spawn
        interval, deadlines and bullets carry over from the previous game. */
    method Start()
      requires Valid(Model())
      modifies this
      ensures Valid(Model())
      ensures Model() == old(Model()).(active := true, score := 0, level := 1, items := [],
                                        skewered := [], basketX := 160.0)
    {
      isGameActive := true;
      score := 0;
      level := 1;
      items := [];
      skeweredItems := [];
      basketX := 400.0 / 2.0 - 80.0 / 2.0;
    }

    method Stop()
      modifies this
      ensures Model() == old(Model()).(active := false)
    {
      isGameActive := false;
    }

    method CheckLevelUp()
      modifies this
      ensures Model() == LevelUp(old(Model()))
    {
      var newLevel := score / 500 + 1;
      if newLevel > level {
        level := newLevel;
        itemSpeed := itemSpeed + 0.5;
        spawnInterval := MaxI(200, spawnInterval - 100);
      }
    }

    method HandleCollision(it: Item, now: int)
      requires Valid(Model())
      modifies this
      ensures Model() == Collide(old(Model()), it, now)
    {
      if it.kind == EventBox {
        invincibleEndTime := now + 30000;
        return;
      }
      if it.kind == Gun {
        gunEndTime := now + 15000;
        return;
      }
      if it.kind == Bomb {
        if now < invincibleEndTime {
          return;
        }
        score := MaxI(0, score - 250);
        skeweredItems := [];
      } else {
        Catch(it);
      }
      CheckLevelUp();
    }

    /** The food branches of `handleCollision`: the item's points, then onto the spear. */
    method Catch(it: Item)
      requires it.kind != EventBox && it.kind != Gun && it.kind != Bomb
      modifies this
      ensures Model() == Skewer(old(Model()).(score := old(score) + CatchPoints(it.kind)), it)
    {
      score := score + CatchPoints(it.kind);
      skeweredItems := skeweredItems + [it];
      if |skeweredItems| >= 5 {
        score := score + 500;
        skeweredItems := [];
      }
    }

    method SpawnItem(d: seq<real>)
      requires |d| >= 3 && AllDraws(d)
      modifies this
      ensures Model() == old(Model()).(items := old(items) + [Spawned(level, d)])
    {
      var it := Spawned(level, d);
      items := items + [it];
    }

    /** The inner loop of the bullet pass for the moved bullet `b`. */
    method StrikeItems(b: Bullet) returns (hit: bool)
      modifies this
      ensures (Model(), hit) == Strike(old(Model()), b, |old(items)|)
    {
      hit := false;
      var j := |items|;
      while j > 0
        invariant 0 <= j <= |items|
        invariant Strike(old(Model()), b, |old(items)|) == (Strike(Model(), b, j).0, hit || Strike(Model(), b, j).1)
      {
        j := j - 1;
        var it := items[j];
        if Hits(b, it) {
          items := Remove(items, j);
          hit := true;
          score := score + Bounty(it.kind);
        }
      }
    }

    method MoveBullets()
      modifies this
      ensures Model() == Volley(old(Model()), |old(bullets)|)
    {
      var i := |bullets|;
      while i > 0
        invariant 0 <= i <= |bullets|
        invariant Volley(Model(), i) == Volley(old(Model()), |old(bullets)|)
      {
        i := i - 1;
        var b := Bullet(bullets[i].x, bullets[i].y - 10.0);
        if b.y < -20.0 {
          bullets := Remove(bullets, i);
        } else {
          var hit := StrikeItems(b);
          if hit {
            bullets := Remove(bullets, i);
          } else {
            bullets := bullets[i := b];
          }
        }
      }
    }

    method MoveItems(now: int)
      requires Valid(Model())
      modifies this
      ensures Model() == Fall(old(Model()), |old(items)|, now)
    {
      var i := |items|;
      while i > 0
        invariant 0 <= i <= |items| && Valid(Model())
        invariant Fall(Model(), i, now) == Fall(old(Model()), |old(items)|, now)
      {
        i := i - 1;
        var it := Dropped(items[i], itemSpeed);
        if Caught(basketX, it) {
          items := Remove(items, i);
          HandleCollision(it, now);
        } else if it.y > 400.0 {
          items := Remove(items, i);
        } else {
          items := items[i := it];
        }
      }
    }

    /** `update(timestamp)`: spawn, gun mode, bullets, falling items. */
    method Update(timestamp: real, now: int, d: seq<real>)
      requires Valid(Model()) && |d| >= 3 && AllDraws(d)
      modifies this
      ensures Model() == Step(old(Model()), timestamp, now, d)
    {
      if timestamp - lastSpawnTime > spawnInterval as real {
        SpawnItem(d);
        lastSpawnTime := timestamp;
      }
      if now < gunEndTime {
        if timestamp - lastShootTime > 200.0 {
          bullets := bullets + [Bullet(basketX + 80.0 / 2.0 - 5.0, 360.0)];
          lastShootTime := timestamp;
        }
      } else {
        bullets := [];
      }
      assert Model() == Armed(old(Model()), timestamp, now, d);
      MoveBullets();
      MoveItems(now);
    }

    /** `onPoseDetected(pose)`: snaps the basket to a lane in a running game. */
    method OnPoseDetected(pose: string)
      modifies this
      ensures !old(isGameActive) || PoseX(pose).None? ==> Model() == old(Model())
      ensures old(isGameActive) && PoseX(pose).Some? ==>
        Model() == old(Model()).(basketX := PoseX(pose).value)
    {
      if !isGameActive {
        return;
      }
      var x := PoseX(pose);
      if x.Some? {
        basketX := x.value;
      }
    }
  }
}
