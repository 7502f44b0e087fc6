# Arcade game engines, modelled in Dafny

The repository is a browser arcade of eight small canvas games. Each game is one JavaScript
class, an "engine", with `start`, `stop`, keyboard or mouse handlers and an `update` that
one animation frame calls:

- the fruit catcher (`GameEngine`, js/gameEngine.js);
- the bird-dodging plane (`BirdStrikeEngine`, js/birdStrike.js);
- the beam-saber runner (`GundamRunnerEngine`, js/gundamRunner.js);
- the flying runner (`KirbyRunnerEngine`, js/kirbyRunner.js);
- the top-down escape (`MarioEscapeEngine`, js/marioEscape.js);
- the turret defence (`DefenseGameEngine`, js/defenseGame.js);
- the endless runner (`DinoRunEngine`, js/dinoRun.js);
- the math quiz (`MathQuizEngine`, js/mathQuiz.js).

Each engine is modelled by one Dafny module of the same name:

- A `Game` datatype is a snapshot of the fields the engine changes.
- Pure functions compute what each handler or part of `update` does to a snapshot.
- A class has the same fields as the engine. Each of its methods changes them step by step, as
  the JavaScript does, and is proved to leave `Model()` equal to the function applied to the
  old snapshot.
- The backward `for` loops that splice entries out of a list are recursive functions over the
  index. Each loop method is proved against its function with a loop invariant.
- Lemmas state what the games promise: scores never negative, levels that only rise, hits
  handled once, every removed entry being one that met the removal test, and so on.

Four modules are shared by the engines:

- `Common`: optional values, `Math.max`/`Math.min`, `Math.random()` draws, `splice(k, 1)`
  and the score-to-level step `Math.floor(score / per) + 1`.
- `Geometry`: the box-overlap test with a shrinking margin.
- `Effects`: the countdown that ages particles and effects and splices out the dead ones.
- `Pixels`: the background-removal pass that three engines run over their sprite images.

Inputs the engines take from the browser become parameters:

- `Date.now()` and `performance.now()` are a `now` or `timestamp` argument, one per frame or
  handler call.
- `Math.random()` results are a sequence of draws in `[0, 1)`, consumed in call order.
- Key codes are strings.
- The turret angles (`Math.atan2`, `Math.cos`, `Math.sin`) are unit headings `(c, s)` with
  `c * c + s * s == 1`.
- `handleMouseMove` in js/defenseGame.js:114-123 only sets the main turret's angle. That angle is the heading passed to `Click` and `Missile`.
- Distances compared through `Math.sqrt` or `Math.hypot` are compared squared, which gives
  the same result because both sides are non-negative.

Numbers are mathematical integers and reals: the model has no IEEE rounding.

## Model

| member | source | states |
|---|---|---|
| Common.Pick | js/mathQuiz.js:93 | `Math.floor(Math.random() * n)` is an index below `n`, and `r * n` lies between it and the next integer |
| Common.LevelFor | js/birdStrike.js:379 | `Math.floor(score / per) + 1` is at least 1 for a non-negative score, and `score` lies in the band of `per` points belonging to that level |
| Common.LevelForMonotone | js/birdStrike.js:378-388 | a higher score never gives a lower level, so the level check never lowers a level |
| Geometry.OverlapSymmetric | js/kirbyRunner.js:372-380 | the margin overlap test gives the same answer with its two boxes swapped |
| Geometry.OverlapMarginMonotone | js/kirbyRunner.js:372-380 | a hit with a larger margin is also a hit with a smaller one, so the margins only remove hits |
| Effects.Age | js/birdStrike.js:226-242 | the backward loop that decrements each particle's life and splices it out at zero leaves exactly `Aged` of the old list: the survivors, one frame older, in their order |
| Effects.AgedAlive | js/birdStrike.js:230-233 | every particle left after a frame has at least one frame of life left |
| Effects.AgedAppend | js/gundamRunner.js:321-335 | particles age independently: ageing a list is ageing each part of it |
| Effects.Lifetime | js/marioEscape.js:241-245 | a particle created with life `l` is on the list for exactly its first `l - 1` frames, `k` frames younger after `k` of them |
| Effects.Burst | js/kirbyRunner.js:246-256 | a burst of `n` particles is `n` entries, each with `life` frames |
| Effects.Emit | js/gundamRunner.js:163-172 | the particle loop, pushing one entry per turn, makes exactly `Burst(n, life)` |
| Pixels.Spread | js/gundamRunner.js:581 | `Math.max(|r-g|, |g-b|, |b-r|)` is one of the three differences and at least each of them |
| Pixels.RemoveBackdrop | js/gundamRunner.js:573-590 | the in-place pass over the RGBA bytes leaves exactly `Cleared` of the old bytes: alpha zero where the pixel's colour is white, light grey or checkerboard grey, every other byte unchanged |
| Pixels.PixelDone | js/gundamRunner.js:573-590 | one step of the pass changes at most the pixel's alpha byte, and zeroes it exactly when the pixel is whole and its colour is backdrop |
| Pixels.ClearedBytes | js/gundamRunner.js:587-588 | colour bytes are never changed; an alpha byte is zeroed exactly when the three bytes before it are a backdrop colour |
| Pixels.ClearedIdempotent | js/gundamRunner.js:573-590 | running the pass on its own output changes nothing more |
| Pixels.KeptBelowAlpha | js/gundamRunner.js:574-576 | the three colour bytes of a pixel come out of the pass as they went in |
| Pixels.BackdropBounds | js/gundamRunner.js:579-587 | a pixel with every channel above 235 is always cleared; one with a channel at or below 180 is cleared only when light neutral |
| Pixels.LightNeutralOnIntegers | js/gundamRunner.js:581-583 | the light-neutral test `diff < 10 && (r+g+b)/3 > 180` is `diff < 10 && r+g+b > 540`, and forces every channel above 170 |
| MathQuiz.Generate | js/mathQuiz.js:86-187 | level 1 draws arithmetic; level 2 an equation, a power or a negative difference; any other level a logarithm, a derivative or a progression; the stored answer solves the question shown |
| MathQuiz.Elementary | js/mathQuiz.js:90-116 | the four level-1 kinds with their ranges: sums up to 50 + 50, differences that are never negative, products of 2..20 and 1..9, quotients that divide exactly with a result from 1 to 10 |
| MathQuiz.Intermediate | js/mathQuiz.js:118-148 | `a x + b = c` has the whole solution 1..10; powers use bases 2, 3, 4, 5 or 10 with exponent 2..4, or up to 6 for base 2; the negative kind always has a result of at most zero |
| MathQuiz.Advanced | js/mathQuiz.js:150-178 | logarithms of base 2..4 with answer 1..3, derivatives of `x^n` for n = 2..4 at x = 1..5, and the 3rd to 6th term of a progression; each stored answer solves its question |
| MathQuiz.PowGrows | js/mathQuiz.js:157-159 | powers of a base of at least 2 grow strictly with the exponent |
| MathQuiz.GeneratedAnswerIsUnique | js/mathQuiz.js:204-208 | for every generated problem, a reply solves the question exactly when it equals the stored answer, so the integer check `val === answer` is right |
| MathQuiz.Tick | js/mathQuiz.js:76-84 | the clock only runs while time is left; it stops the game exactly on the frame it crosses zero, and then shows 0 |
| MathQuiz.NoStopAfterTimeout | js/mathQuiz.js:76-84 | once the clock reads 0 no frame calls `stop()` |
| MathQuiz.StopsAtMostOnce | js/mathQuiz.js:76-84 | over any sequence of frames the countdown calls `stop()` at most once |
| MathQuiz.Scored | js/mathQuiz.js:208-216 | a right answer adds 10; a wrong one takes 5 but never goes below zero |
| MathQuiz.MathQuizEngine.constructor | js/mathQuiz.js:2-18 | a new quiz: score 0, inactive, 60 seconds, level 1, no problem |
| MathQuiz.MathQuizEngine.Start | js/mathQuiz.js:20-37 | a fresh 60-second game at the chosen level with a first problem drawn for that level |
| MathQuiz.MathQuizEngine.Stop | js/mathQuiz.js:39-50 | the game is inactive; score, level and problem are kept for the end report |
| MathQuiz.MathQuizEngine.Update | js/mathQuiz.js:76-84 | the clock follows `Tick`, and the game becomes inactive exactly when `Tick` says `stop()` was called |
| MathQuiz.MathQuizEngine.GenerateProblem | js/mathQuiz.js:86-187 | the problem on the board is `Generate` for the current level, and answering is open again |
| MathQuiz.MathQuizEngine.CheckAnswer | js/mathQuiz.js:200-223 | ignored while waiting or for a non-number; otherwise the score follows `Scored` for `val === answer` and answering closes |
| MathQuiz.MathQuizEngine.PassProblem | js/mathQuiz.js:225-236 | ignored when over or waiting; otherwise costs 2 points, never going below zero, and closes answering |
| MathQuiz.MathQuizEngine.NextProblem | js/mathQuiz.js:249-258 | the delayed callback draws a new problem only while the game runs |
| MathQuiz.MathQuizEngine.HandleKeyDown | js/mathQuiz.js:189-198 | Enter on a non-empty input checks the answer, only in a running game that is not waiting |
| FruitCatcher.LevelUp | js/gameEngine.js:322-329 | the level only rises; a rise makes items 0.5 faster and the spawn interval 100 ms shorter, down to 200 ms; without a rise nothing changes |
| FruitCatcher.LevelUpMeetsScore | js/gameEngine.js:323-324 | a raised level is exactly the 500-point band the score is in, and the level always reaches at least that band |
| FruitCatcher.Collide | js/gameEngine.js:240-320 | a catch keeps the invariant (score ≥ 0, at most four skewered items, level ≥ 1, interval ≥ 200 ms), never lowers the level, and leaves the items, bullets, basket and clocks alone |
| FruitCatcher.ShieldedBombIsHarmless | js/gameEngine.js:272-277 | a bomb caught while invincible changes nothing at all |
| FruitCatcher.BombPenalty | js/gameEngine.js:272-290 | an unshielded bomb costs 250 points, never going below zero, and empties the spear |
| FruitCatcher.PowerUpsOnlySetDeadlines | js/gameEngine.js:240-253 | a gun opens 15 s of gun mode and an event box 30 s of invincibility from now; score, level and spear are untouched |
| FruitCatcher.CatchScoring | js/gameEngine.js:255-313 | food scores 100, 200, 300 or 1000 and goes on the spear; the fifth item empties the spear for 500 more |
| FruitCatcher.Spawned | js/gameEngine.js:206-238 | a new item starts at the top of one of the three lanes; it is a gun exactly for a first draw below 0.1 and a chicken for one in [0.1, 0.25); bombs and grapes appear only from level 2; grapes fall 1.6 and bananas 1.2 times as fast |
| FruitCatcher.StrikeRemovesExactlyTheHits | js/gameEngine.js:131-160 | the inner backward loop splices out exactly the items the bullet overlaps and keeps the others in order |
| FruitCatcher.StrikePaysTheBounties | js/gameEngine.js:141-152 | the score a bullet earns is the sum of the bounties of exactly the items it overlaps |
| FruitCatcher.StrikeReportsHit | js/gameEngine.js:131-163 | the `hit` flag is set exactly when some item overlaps the bullet |
| FruitCatcher.MissedLength | js/gameEngine.js:131-160 | the loop keeps every item exactly when the bullet overlaps none |
| FruitCatcher.Volley | js/gameEngine.js:120-164 | the bullet pass never lowers the score, never adds items or bullets, and changes nothing but items, score and bullets |
| FruitCatcher.VolleyKeepsOnScreen | js/gameEngine.js:120-128 | every bullet kept after the pass is at y ≥ -20 |
| FruitCatcher.Fall | js/gameEngine.js:167-190 | the falling pass keeps the invariant, never lowers the level, never adds items, and leaves bullets, basket and activity alone |
| FruitCatcher.FallScoreOnlyDropsByBombs | js/gameEngine.js:167-190 | without a bomb among the items, the falling pass never lowers the score |
| FruitCatcher.Armed | js/gameEngine.js:97-117 | the spawn and gun steps keep the invariant; gun mode adds at most one bullet a frame, and outside it the bullet list is emptied |
| FruitCatcher.Step | js/gameEngine.js:96-204 | a frame keeps the invariant, never lowers the level, leaves the basket where it was, and leaves no bullet once gun mode is over |
| FruitCatcher.PoseX | js/gameEngine.js:335-351 | the pose labels (Korean or English) snap the basket to x = 26, 160 or 293; other labels move nothing |
| FruitCatcher.GameEngine.constructor | js/gameEngine.js:7-34 | a new engine: score 0, level 1, speed 1.5, spawn every 1500 ms, basket at x = 180, nothing on the field |
| FruitCatcher.GameEngine.Start | js/gameEngine.js:36-47 | a fresh score, level, field and spear with the basket centred at x = 160; speed, interval, deadlines and bullets carry over |
| FruitCatcher.GameEngine.Stop | js/gameEngine.js:52-62 | only the activity flag changes |
| FruitCatcher.GameEngine.CheckLevelUp | js/gameEngine.js:322-329 | the fields change as `LevelUp` says |
| FruitCatcher.GameEngine.HandleCollision | js/gameEngine.js:240-320 | the fields change as `Collide` says |
| FruitCatcher.GameEngine.Catch | js/gameEngine.js:255-313 | a food catch adds the item's points and skewers it, as `Skewer` says |
| FruitCatcher.GameEngine.SpawnItem | js/gameEngine.js:206-238 | appends `Spawned` for the current level and changes nothing else |
| FruitCatcher.GameEngine.StrikeItems | js/gameEngine.js:131-160 | the inner loop leaves the fields and the `hit` flag as `Strike` says |
| FruitCatcher.GameEngine.MoveBullets | js/gameEngine.js:120-164 | the bullet loop leaves the fields as `Volley` says |
| FruitCatcher.GameEngine.MoveItems | js/gameEngine.js:167-190 | the item loop leaves the fields as `Fall` says |
| FruitCatcher.GameEngine.Update | js/gameEngine.js:96-204 | a frame leaves the fields as `Step` says |
| FruitCatcher.GameEngine.OnPoseDetected | js/gameEngine.js:335-351 | in a running game a known pose moves the basket to `PoseX`; otherwise nothing changes |
| BirdStrike.LaneX | js/birdStrike.js:24 | the three lane centres are 66, 200 and 333 |
| BirdStrike.SteerRules | js/birdStrike.js:128-147 | steering keeps the plane in one of the three lanes and moves it at most one lane; nothing changes for another key or within 200 ms of the last move; an accepted move records the time and aims the plane at the middle of the new lane |
| BirdStrike.SteerKeepsOnLane | js/birdStrike.js:128-147 | steering from the middle of a lane aims at the middle of a lane |
| BirdStrike.NothingCollidesWhileInvincible | js/birdStrike.js:303-305 | while `Date.now()` is before `invincibleUntil` no obstacle collides, pickups included |
| BirdStrike.CollisionsStayInLane | js/birdStrike.js:303-317 | a plane resting in the middle of its lane only collides with obstacles spawned in that lane |
| BirdStrike.Hit | js/birdStrike.js:319-365 | a collision changes only the score, the invincibility deadline and the effect lists |
| BirdStrike.HitRules | js/birdStrike.js:319-360 | a bird costs 200 points, never going below zero, and starts 1.5 s of invincibility; a star, diamond or chicken pays 100, 300 or 1000 and leaves the deadline alone |
| BirdStrike.Sweep | js/birdStrike.js:203-223 | the obstacle loop changes only the score, the deadline, the obstacles and the effects, and never adds an obstacle |
| BirdStrike.ShieldedSweep | js/birdStrike.js:203-223 | while invincible, the loop never lowers the score, keeps the deadline and makes no effects |
| BirdStrike.SweepRules | js/birdStrike.js:204-222 | one obstacle of the loop: past y = 450 it is spliced out and pays 10 only if it is a bird or a big bird; otherwise a touch splices it and runs the collision; otherwise it only falls |
| BirdStrike.ShieldedSweepPays | js/birdStrike.js:203-223 | while invincible the loop pays exactly 10 for each bird or big bird that passes y = 450, and nothing for pickups or anything else |
| BirdStrike.AtMostOneHitPerSweep | js/birdStrike.js:203-223 | one frame's obstacle loop costs at most 200 points and leaves the score non-negative, because the first bird hit shields the plane for the rest of the loop |
| BirdStrike.SweepClearsPassed | js/birdStrike.js:207-216 | after the loop no obstacle is below y = 450: each is removed in the frame it passes |
| BirdStrike.LevelUp | js/birdStrike.js:378-385 | the level never falls; a rise goes to the score's 500-point band and sets speed `min(6, 2 + 0.4 level)` and interval `max(400, 1200 - 80 level)`; otherwise nothing changes |
| BirdStrike.LevelTracksScore | js/birdStrike.js:378-385 | after a check the level reaches the score's band, and a higher score never ends on a lower level |
| BirdStrike.Spawned | js/birdStrike.js:251-301 | the kind is bird, big bird, star, diamond or chicken exactly for a first draw below 0.55, 0.65, 0.80, 0.90 or above; the obstacle starts just above the canvas, centred on one of the three lanes |
| BirdStrike.Settle | js/birdStrike.js:203-248 | the second half of a frame keeps the invariant (score ≥ 0, lane 0..2, level ≥ 1, speed ≤ 6, interval ≥ 400 ms), never lowers the level, and costs at most 200 points before the 0.05 time bonus |
| BirdStrike.Step | js/birdStrike.js:169-249 | a whole frame keeps the invariant, keeps the lane, never lowers the level, and costs at most 200 points before the 0.05 time bonus |
| BirdStrike.BirdStrikeEngine.constructor | js/birdStrike.js:9-74 | a new engine: score 0, level 1, middle lane, plane at x = 200, interval 1200 ms, speed 2, inactive |
| BirdStrike.BirdStrikeEngine.Start | js/birdStrike.js:76-110 | everything is reset and the plane sits in the middle of the middle lane, at x = 180 |
| BirdStrike.BirdStrikeEngine.ResetScore | js/birdStrike.js:77-83 | the game is active with score 0, level 1 and empty lists; nothing else changes |
| BirdStrike.BirdStrikeEngine.PlacePlane | js/birdStrike.js:84-86 | the plane is in lane 1 and aimed where it is; nothing else changes |
| BirdStrike.BirdStrikeEngine.ResetFlight | js/birdStrike.js:87-92 | speed, interval and all timers are back at their start values; nothing else changes |
| BirdStrike.BirdStrikeEngine.Stop | js/birdStrike.js:112-126 | the game is inactive, and reports the whole points of the score and the level |
| BirdStrike.BirdStrikeEngine.HandleKeyDown | js/birdStrike.js:128-147 | the fields change as `Steer` says |
| BirdStrike.BirdStrikeEngine.HandleCollision | js/birdStrike.js:319-365 | the fields change as `Hit` says, the feather loop making `Burst(8, 30)` through `Emit` |
| BirdStrike.BirdStrikeEngine.CheckLevelUp | js/birdStrike.js:378-385 | the fields change as `LevelUp` says |
| BirdStrike.BirdStrikeEngine.MoveObstacles | js/birdStrike.js:203-223 | the backward loop leaves the fields as `Sweep` says |
| BirdStrike.BirdStrikeEngine.FallAt | js/birdStrike.js:204-222 | one pass of the loop body takes `Sweep` from index `i` to index `i - 1` |
| BirdStrike.BirdStrikeEngine.SettleFrame | js/birdStrike.js:203-248 | the fields change as `Settle` says |
| BirdStrike.BirdStrikeEngine.Update | js/birdStrike.js:169-249 | a frame leaves the fields as `Step` says |
| BirdStrike.BirdStrikeEngine.Glide | js/birdStrike.js:171 | the plane covers a fifth of the way to its target; nothing else changes |
| BirdStrike.BirdStrikeEngine.SpawnDue | js/birdStrike.js:197-200 | an obstacle is appended exactly when more than the interval has passed since the last spawn |
| GundamRunner.HitPoints | js/gundamRunner.js:157-159 | a boss pays 510 to 700 and a zaku 110 to 300; the combo bonus is capped exactly from a combo of 20 on |
| GundamRunner.Cut | js/gundamRunner.js:146-189 | an enemy in the saber's reach is spliced out, raises the combo by one and the best combo with it, and pays at least 100; one out of reach changes nothing; entries before it are untouched |
| GundamRunner.Slash | js/gundamRunner.js:145-190 | the swing loop changes only enemies, score, combo, best combo and particles |
| GundamRunner.SparedLength | js/gundamRunner.js:145-190 | the enemies left after a swing are no more than before |
| GundamRunner.SlashDestroysExactlyTheReached | js/gundamRunner.js:145-190 | a swing splices out exactly the enemies in reach and keeps the others in order |
| GundamRunner.SlashReportsHit | js/gundamRunner.js:143-190 | `hitAny` is set exactly when some enemy was in reach |
| GundamRunner.SlashBuildsCombo | js/gundamRunner.js:153-160 | the combo rises by exactly the number of enemies destroyed, the best combo keeps up with it, and each destroyed enemy pays at least 100 |
| GundamRunner.SlashMissesAll | js/gundamRunner.js:145-194 | a swing with no enemy in reach changes no enemy, score or combo and reports no hit |
| GundamRunner.Attack | js/gundamRunner.js:126-195 | `performAttack` adds a 12-frame slash effect, keeps the invariant (score ≥ 0, combo ≤ best combo, level ≥ 1, speed ≤ 7, interval ≥ 600 ms) and changes only enemies, score, combos, particles and effects |
| GundamRunner.EmptySwingResetsCombo | js/gundamRunner.js:192-194 | a swing that reaches nobody resets the combo to zero and leaves enemies and score alone |
| GundamRunner.Press | js/gundamRunner.js:114-124 | only the space bar with no swing in progress starts one, with a 15-frame counter; everything else changes nothing |
| GundamRunner.PressKeepsSync | js/gundamRunner.js:114-124 | the space bar keeps "a swing is in progress" equal to "its counter is positive" |
| GundamRunner.Countdown | js/gundamRunner.js:215-220 | a running counter drops by one; only the swing flag and counter change, and they stay in step |
| GundamRunner.CountdownTimes | js/gundamRunner.js:215-220 | any number of countdowns keeps the invariant and the swing flag in step with its counter |
| GundamRunner.SwingLasts | js/gundamRunner.js:215-220 | a swing lasts exactly 15 frames: after `k` frames it is in progress exactly when `k < 15`, with `max(0, 15 - k)` left |
| GundamRunner.CountdownFrom | js/gundamRunner.js:215-220 | after `k` frames the counter is `max(0, counter - k)` |
| GundamRunner.Trample | js/gundamRunner.js:239-276 | one enemy of the loop: the score never rises; a removed enemy also loses the combo; an enemy that stays only moves; no hit effect while swinging; entries before it are untouched |
| GundamRunner.TramplePenalties | js/gundamRunner.js:243-265 | an escaped enemy costs 200 and one that rams the idle suit 150, never going below zero; any other enemy stays |
| GundamRunner.March | js/gundamRunner.js:239-277 | the enemy loop keeps the invariant, never raises the score, and changes only enemies, score, combo and effects |
| GundamRunner.SwingingSuitIsNotRammed | js/gundamRunner.js:255-271 | during a swing the loop adds no hit effect |
| GundamRunner.PenaltyLosesCombo | js/gundamRunner.js:239-277 | a loop that removed an enemy ends with the combo lost; one that removed none keeps combo and score |
| GundamRunner.MarchLength | js/gundamRunner.js:239-277 | the loop never adds an enemy |
| GundamRunner.MarchKeepsLostCombo | js/gundamRunner.js:239-277 | a lost combo stays lost through the loop |
| GundamRunner.Grab | js/gundamRunner.js:280-318 | one pickup of the loop keeps the invariant, never lowers the score, and changes only items, score and particles |
| GundamRunner.Collect | js/gundamRunner.js:280-319 | the pickup loop keeps the invariant, never lowers the score, and changes only items, score and particles |
| GundamRunner.GrabRules | js/gundamRunner.js:280-318 | one pickup: dropped past x = -30 it is spliced with nothing paid; touching the suit (`x < 140 && x + size > 60`) it pays 100, 300 or 1000 for star, diamond or chicken, is spliced and adds one 40-frame effect; otherwise it only scrolls |
| GundamRunner.GrabSplits | js/gundamRunner.js:280-318 | one pass leaves the pickups before it alone and either removes the current one or scrolls it in place |
| GundamRunner.CollectPays | js/gundamRunner.js:280-319 | the loop pays exactly the value of every pickup the suit touches, once each |
| GundamRunner.CollectLeaves | js/gundamRunner.js:280-319 | after the loop every touched or dropped pickup is gone and the rest have scrolled, in order |
| GundamRunner.LevelUp | js/gundamRunner.js:399-406 | the level never falls; a rise goes to the score's 500-point band and sets speed `min(7, 3 + 0.3 level)` and interval `max(600, 1800 - 100 level)`; otherwise nothing changes |
| GundamRunner.SpawnedEnemy | js/gundamRunner.js:343-372 | a zaku exactly for a first draw below 0.75, 45 by 75 with pace 0.8 to 1.3, else a boss 55 by 90 standing 15 px higher with pace 0.5 to 0.8; it enters between x = 420 and 480 |
| GundamRunner.SpawnedItem | js/gundamRunner.js:374-397 | a star below 0.5, a diamond below 0.8, else a chicken, at x = 420 and 30 to 60 px above the suit |
| GundamRunner.Advance | js/gundamRunner.js:213-236 | the countdown and spawn timers keep the invariant and the swing flag in step |
| GundamRunner.Settle | js/gundamRunner.js:239-340 | the rest of the frame keeps the invariant, never lowers the level and leaves the swing alone |
| GundamRunner.FrameKeepsSync | js/gundamRunner.js:213-341 | a whole frame keeps the swing flag in step with its counter |
| GundamRunner.GundamRunnerEngine.constructor | js/gundamRunner.js:10-78 | a new engine: score 0, level 1, speed 3, enemy interval 1800 ms, no swing, nothing on the field |
| GundamRunner.GundamRunnerEngine.Start | js/gundamRunner.js:80-101 | everything is reset, with no swing in progress |
| GundamRunner.GundamRunnerEngine.ResetScore | js/gundamRunner.js:81-85 | active, with score, level and combos reset; nothing else changes |
| GundamRunner.GundamRunnerEngine.ClearField | js/gundamRunner.js:86-93 | empty lists and spawn timers at zero; nothing else changes |
| GundamRunner.GundamRunnerEngine.ResetPace | js/gundamRunner.js:90-97 | speed 3, interval 1800 ms and no swing; nothing else changes |
| GundamRunner.GundamRunnerEngine.Stop | js/gundamRunner.js:103-112 | the game is inactive, and reports the whole points of the score and the level |
| GundamRunner.GundamRunnerEngine.SlashEnemies | js/gundamRunner.js:145-190 | the loop leaves the fields and `hitAny` as `Slash` says |
| GundamRunner.GundamRunnerEngine.CutAt | js/gundamRunner.js:146-189 | one pass leaves the fields as `Cut` says and reports whether the enemy was in reach |
| GundamRunner.GundamRunnerEngine.PerformAttack | js/gundamRunner.js:126-195 | the fields change as `Attack` says |
| GundamRunner.GundamRunnerEngine.HandleKeyDown | js/gundamRunner.js:114-124 | the fields change as `Press` says |
| GundamRunner.GundamRunnerEngine.Reward | js/gundamRunner.js:154-160 | the combo rises by one, the best combo keeps up with it and the score gains `HitPoints` at the new combo; nothing else changes |
| GundamRunner.GundamRunnerEngine.MoveEnemies | js/gundamRunner.js:239-277 | the loop leaves the fields as `March` says |
| GundamRunner.GundamRunnerEngine.TrampleAt | js/gundamRunner.js:240-276 | one pass leaves the fields as `Trample` says |
| GundamRunner.GundamRunnerEngine.MoveItems | js/gundamRunner.js:280-319 | the loop leaves the fields as `Collect` says |
| GundamRunner.GundamRunnerEngine.CollectAt | js/gundamRunner.js:281-318 | one pass leaves the fields as `Grab` says |
| GundamRunner.GundamRunnerEngine.CheckLevelUp | js/gundamRunner.js:399-406 | the fields change as `LevelUp` says |
| GundamRunner.GundamRunnerEngine.AgeEffects | js/gundamRunner.js:322-334 | effects and particles are aged one frame; nothing else changes |
| GundamRunner.GundamRunnerEngine.SettleFrame | js/gundamRunner.js:239-340 | the fields change as `Settle` says |
| GundamRunner.GundamRunnerEngine.Update | js/gundamRunner.js:213-341 | a frame leaves the fields as `Advance` then `Settle` say |
| GundamRunner.GundamRunnerEngine.AdvanceFrame | js/gundamRunner.js:215-236 | the fields change as `Advance` says |
| GundamRunner.GundamRunnerEngine.CountDown | js/gundamRunner.js:215-220 | the fields change as `Countdown` says |
| KirbyRunner.CheckCollisionSymmetric | js/kirbyRunner.js:372-380 | `checkCollision(a, b)` gives the same answer as `checkCollision(b, a)` |
| KirbyRunner.KeyDown | js/kirbyRunner.js:134-140 | the space bar makes the runner fly with puffed cheeks; any other key changes nothing |
| KirbyRunner.KeyUp | js/kirbyRunner.js:142-146 | releasing the space bar stops the flying but leaves the cheeks puffed; any other key changes nothing |
| KirbyRunner.Thrust | js/kirbyRunner.js:166-186 | flying adds the lift of -0.8 but never rises faster than 4 px a frame; falling adds gravity 0.35 |
| KirbyRunner.Physics | js/kirbyRunner.js:164-201 | the physics step changes only height, speed, cheeks and particles, and always leaves the runner between the ceiling and the ground |
| KirbyRunner.PhysicsRules | js/kirbyRunner.js:188-201 | the runner lands, with speed zero and cheeks deflated, exactly when its new height reaches the ground; it is stopped at y = 20 exactly when its new height is above the ceiling; otherwise it moves by its new speed |
| KirbyRunner.SpaceLiftsOff | js/kirbyRunner.js:134-188 | pressing the space bar while standing on the ground lifts the runner by 0.8 px in the next frame |
| KirbyRunner.PhysicsKeepsValid | js/kirbyRunner.js:164-201 | the physics step keeps the invariant (score ≥ 0, level ≥ 1, between ceiling and ground, rising at most 4 px a frame, speed ≤ 7, interval ≥ 600 ms) |
| KirbyRunner.Meet | js/kirbyRunner.js:228-261 | one obstacle of the loop keeps the invariant, changes only obstacles, score, shield and particles, and leaves the entries before it alone |
| KirbyRunner.MeetRules | js/kirbyRunner.js:232-260 | a dodged obstacle pays 10 and goes; one touching the runner while the shield is down costs 200 (never below zero), shields for 1.5 s and goes; anything else only moves |
| KirbyRunner.Run | js/kirbyRunner.js:228-261 | the obstacle loop keeps the invariant and changes only obstacles, score, shield and particles |
| KirbyRunner.ShieldedRun | js/kirbyRunner.js:240 | while the shield is up the loop never lowers the score or moves the shield |
| KirbyRunner.AtMostOneHitPerRun | js/kirbyRunner.js:228-261 | one frame's obstacle loop costs at most 200 points: the first hit shields the runner for the rest of the loop |
| KirbyRunner.Grab | js/kirbyRunner.js:264-289 | one treat of the loop keeps the invariant, never lowers the score, changes only treats, score and particles, and leaves the entries before it alone |
| KirbyRunner.Collect | js/kirbyRunner.js:264-290 | the treat loop keeps the invariant, never lowers the score and changes only treats, score and particles |
| KirbyRunner.GrabRules | js/kirbyRunner.js:264-289 | one treat: dropped past x = -30 it is spliced with nothing paid; touching Kirby it pays 100, 300 or 1000 for star, diamond or cake, is spliced and adds one 40-frame effect; otherwise it only scrolls |
| KirbyRunner.GrabSplits | js/kirbyRunner.js:264-289 | one pass leaves the treats before it alone and either removes the current one or scrolls it in place |
| KirbyRunner.CollectPays | js/kirbyRunner.js:264-290 | the loop pays exactly the value of every treat Kirby touches, once each |
| KirbyRunner.CollectLeaves | js/kirbyRunner.js:264-290 | after the loop every touched or dropped treat is gone and the rest have scrolled, in order |
| KirbyRunner.CollectIgnoresShield | js/kirbyRunner.js:273 | treats are collected whatever the shield says: the loop's result does not depend on it |
| KirbyRunner.LevelUp | js/kirbyRunner.js:382-389 | the level never falls; a rise goes to the score's 500-point band and sets speed `min(7, 3 + 0.3 level)` and interval `max(600, 2000 - 100 level)`; otherwise nothing changes |
| KirbyRunner.LevelUpTracksScore | js/kirbyRunner.js:382-389 | when the score's band is at least the current level, the check lands exactly on it |
| KirbyRunner.SpawnedObstacle | js/kirbyRunner.js:306-345 | ground, air, wall and waddle exactly for a first draw below 0.40, 0.70, 0.85 and above; ground obstacles and walls stand on the ground line, air enemies float 60 to 140 px above it, waddles walk on it; all enter at x = 420 with pace 0.8 to 1.2 |
| KirbyRunner.SpawnedTreat | js/kirbyRunner.js:347-370 | a star below 0.5, a diamond below 0.8, else a cake, at x = 420 and 30 to 180 px above the ground line |
| KirbyRunner.Spawn | js/kirbyRunner.js:216-225 | the spawn timers change only the two lists and their timers |
| KirbyRunner.Settle | js/kirbyRunner.js:228-303 | the rest of the frame keeps the invariant, never lowers the level, leaves the height alone, and costs at most 200 points before the 0.05 time bonus |
| KirbyRunner.Step | js/kirbyRunner.js:164-304 | a whole frame keeps the invariant and the runner between ceiling and ground, never lowers the level, and costs at most 200 points before the time bonus |
| KirbyRunner.KirbyRunnerEngine.constructor | js/kirbyRunner.js:10-75 | a new engine: score 0, level 1, the runner at rest on the ground, speed 3, interval 2000 ms, inactive |
| KirbyRunner.KirbyRunnerEngine.Start | js/kirbyRunner.js:77-120 | everything is reset, with the runner at rest on the ground |
| KirbyRunner.KirbyRunnerEngine.ResetScore | js/kirbyRunner.js:78-80 | active, with score 0 and level 1; nothing else changes |
| KirbyRunner.KirbyRunnerEngine.ClearField | js/kirbyRunner.js:85-87 | empty obstacle, treat and particle lists; nothing else changes |
| KirbyRunner.KirbyRunnerEngine.ResetKirby | js/kirbyRunner.js:81-84 | the runner on the ground, at rest, not flying, cheeks deflated; nothing else changes |
| KirbyRunner.KirbyRunnerEngine.ResetField | js/kirbyRunner.js:90-94 | speed, interval, spawn timers and shield back at their start values; nothing else changes |
| KirbyRunner.KirbyRunnerEngine.Stop | js/kirbyRunner.js:122-132 | the game is inactive, and reports the whole points of the score and the level |
| KirbyRunner.KirbyRunnerEngine.HandleKeyDown | js/kirbyRunner.js:134-140 | the fields change as `KeyDown` says |
| KirbyRunner.KirbyRunnerEngine.HandleKeyUp | js/kirbyRunner.js:142-146 | the fields change as `KeyUp` says |
| KirbyRunner.KirbyRunnerEngine.MoveKirby | js/kirbyRunner.js:166-201 | the fields change as `Physics` says |
| KirbyRunner.KirbyRunnerEngine.SpawnDue | js/kirbyRunner.js:216-225 | the fields change as `Spawn` says |
| KirbyRunner.KirbyRunnerEngine.MoveObstacles | js/kirbyRunner.js:228-261 | the loop leaves the fields as `Run` says |
| KirbyRunner.KirbyRunnerEngine.MeetAt | js/kirbyRunner.js:229-260 | one pass leaves the fields as `Meet` says |
| KirbyRunner.KirbyRunnerEngine.MoveItems | js/kirbyRunner.js:264-290 | the loop leaves the fields as `Collect` says |
| KirbyRunner.KirbyRunnerEngine.GrabAt | js/kirbyRunner.js:265-289 | one pass leaves the fields as `Grab` says |
| KirbyRunner.KirbyRunnerEngine.CheckLevelUp | js/kirbyRunner.js:382-389 | the fields change as `LevelUp` says |
| KirbyRunner.KirbyRunnerEngine.AgeParticles | js/kirbyRunner.js:293-299 | the particles age one frame; nothing else changes |
| KirbyRunner.KirbyRunnerEngine.SettleFrame | js/kirbyRunner.js:228-303 | the fields change as `Settle` says |
| KirbyRunner.KirbyRunnerEngine.Update | js/kirbyRunner.js:164-304 | a frame leaves the fields as `Step` says |
| MarioEscape.Clamp | js/marioEscape.js:156-157 | the clamp lands inside `[lo, hi]` and leaves a value already inside alone |
| MarioEscape.Fire | js/marioEscape.js:270-292 | without a gun or rounds nothing happens; otherwise one round is spent, the gun is dropped exactly when none are left, and one bullet is appended at the player's front edge flying 7 px a frame the way the player faces |
| MarioEscape.Press | js/marioEscape.js:59-68 | a tracked key is marked held and the invariant (score ≥ 0, level ≥ 1, player in the field, 0..30 rounds, a gun only with rounds, interval ≥ 800 ms, the five keys tracked) is kept; any other key changes nothing |
| MarioEscape.Release | js/marioEscape.js:69-73 | a tracked key is marked released and nothing else changes; any other key changes nothing |
| MarioEscape.SpaceFiresOncePerPress | js/marioEscape.js:59-68 | the space bar fires on the press that finds it released and not again while it is held |
| MarioEscape.Walk | js/marioEscape.js:150-157 | the movement keeps the player in the field, changes only position and facing, faces right when the right arrow is held, and keeps the facing when neither side arrow is held |
| MarioEscape.Upways | js/marioEscape.js:150-157 | the vertical move always lands inside the field |
| MarioEscape.Sideways | js/marioEscape.js:150-157 | the horizontal move always lands inside the field; the right arrow wins the facing, then the left, else it is kept |
| MarioEscape.Bounced | js/marioEscape.js:162-173 | an enemy ends inside the field; a component that took it past a wall is reversed and the enemy put against that wall; any other component moves by its velocity |
| MarioEscape.Roam | js/marioEscape.js:160-180 | the enemy loop keeps the number of enemies, changes only enemies and activity, and reports a catch exactly when it stopped the game |
| MarioEscape.SurvivorsAreClear | js/marioEscape.js:160-180 | when nobody catches the player, every enemy the loop moved is inside the field and clear of the player, and the rest are untouched |
| MarioEscape.LastHit | js/marioEscape.js:194-205 | the inner search returns the highest-index enemy the bullet touches, and none only when it touches none |
| MarioEscape.Fly | js/marioEscape.js:183-206 | one bullet of the loop keeps the invariant and the entries before it; either no enemy is lost and the score stays, or exactly one enemy and the bullet go for 50 points |
| MarioEscape.Flown | js/marioEscape.js:185 | a bullet moves by its velocity along x and nothing else |
| MarioEscape.Kill | js/marioEscape.js:196-203 | a hit splices out one bullet and one enemy, keeps the entries before them, pays 50 and adds eight particles |
| MarioEscape.Volley | js/marioEscape.js:183-206 | the bullet loop keeps the invariant, never lowers the score, and changes only bullets, enemies, score and particles |
| MarioEscape.VolleyScoresPerKill | js/marioEscape.js:183-206 | a bullet destroys at most one enemy: enemies lost are no more than bullets used up, and each pays exactly 50 |
| MarioEscape.Blast | js/marioEscape.js:216-224 | the star's filter keeps no enemy within 150 px and never adds one |
| MarioEscape.BlastKeepsExactlyTheFar | js/marioEscape.js:216-224 | an enemy survives the star exactly when it was there and at least 150 px away |
| MarioEscape.Touch | js/marioEscape.js:209-235 | one pickup of the loop keeps the invariant, never lowers the score, keeps at most 30 rounds and leaves the entries before it alone |
| MarioEscape.TouchArms | js/marioEscape.js:225-227 | a touched gun arms the player with `min(30, ammo + 10)` rounds; no other pickup changes the gun |
| MarioEscape.Loot | js/marioEscape.js:209-236 | the pickup loop keeps the invariant and never lowers the score |
| MarioEscape.SpawnedGoomba | js/marioEscape.js:109-129 | a new enemy starts outside the field, and its speed is exactly `0.8 + r + 0.15 level` along its heading |
| MarioEscape.SpawnedPickup | js/marioEscape.js:131-144 | a gun exactly for a first draw below 0.15, a star for one in [0.15, 0.35), else a coin, at least 30 px inside the field |
| MarioEscape.Spawn | js/marioEscape.js:248-258 | the timers keep the invariant; a due enemy resets its clock and sets the interval to `max(800, 4000 - 300 level)`; otherwise enemies and interval are unchanged |
| MarioEscape.LevelUp | js/marioEscape.js:261-265 | only the level changes and it never falls; a rise goes to the score's 1000-point band, and when that band is at least the level the check lands on it |
| MarioEscape.Finish | js/marioEscape.js:183-267 | the rest of a survived frame keeps the invariant, never lowers the level, and adds at least the 0.1 survival bonus |
| MarioEscape.Skirmish | js/marioEscape.js:183-245 | bullets, pickups and particles keep the invariant and the level and never lower the score |
| MarioEscape.Wrap | js/marioEscape.js:248-267 | spawns, level check and bonus keep the invariant, never lower the level, and add exactly 0.1 |
| MarioEscape.Frame | js/marioEscape.js:146-268 | a frame keeps the invariant, changes nothing once the game is over, and never lowers score or level |
| MarioEscape.FrameEndsOnContact | js/marioEscape.js:160-180 | a frame stops the game exactly when an enemy caught the player; otherwise every enemy is clear of the player |
| MarioEscape.MarioEscapeEngine.constructor | js/marioEscape.js:9-74 | a new engine: the player in the middle facing right, unarmed, no key held, interval 4000 ms, inactive |
| MarioEscape.MarioEscapeEngine.Start | js/marioEscape.js:76-96 | score, level, gun and lists reset, clocks at `now`, one enemy spawned at level 1; the position and keys carry over |
| MarioEscape.MarioEscapeEngine.ResetScore | js/marioEscape.js:77-82 | active, score 0, level 1, facing right, unarmed; nothing else changes |
| MarioEscape.MarioEscapeEngine.Disarm | js/marioEscape.js:80-82 | facing right and unarmed; nothing else changes |
| MarioEscape.MarioEscapeEngine.ClearField | js/marioEscape.js:83-89 | empty lists, interval 4000 ms and both clocks at `now`; nothing else changes |
| MarioEscape.MarioEscapeEngine.ClearLists | js/marioEscape.js:83-86 | the four lists are empty; nothing else changes |
| MarioEscape.MarioEscapeEngine.ResetClocks | js/marioEscape.js:87-89 | interval 4000 ms and both clocks at `now`; nothing else changes |
| MarioEscape.MarioEscapeEngine.Stop | js/marioEscape.js:98-107 | the game is inactive, and reports the whole points of the score and the level |
| MarioEscape.MarioEscapeEngine.FireBullet | js/marioEscape.js:270-292 | the fields change as `Fire` says |
| MarioEscape.MarioEscapeEngine.OnKeyDown | js/marioEscape.js:59-68 | the fields change as `Press` says |
| MarioEscape.MarioEscapeEngine.OnKeyUp | js/marioEscape.js:69-73 | the fields change as `Release` says |
| MarioEscape.MarioEscapeEngine.MovePlayer | js/marioEscape.js:150-157 | the fields change as `Walk` says |
| MarioEscape.MarioEscapeEngine.MoveEnemies | js/marioEscape.js:160-180 | the loop leaves the fields and the catch flag as `Roam` says |
| MarioEscape.MarioEscapeEngine.FindTarget | js/marioEscape.js:194-205 | the backward search returns `LastHit` |
| MarioEscape.MarioEscapeEngine.MoveBullets | js/marioEscape.js:183-206 | the loop leaves the fields as `Volley` says |
| MarioEscape.MarioEscapeEngine.FlyAt | js/marioEscape.js:184-205 | one pass leaves the fields as `Fly` says |
| MarioEscape.MarioEscapeEngine.Destroy | js/marioEscape.js:196-203 | the fields change as `Kill` says |
| MarioEscape.MarioEscapeEngine.Reward | js/marioEscape.js:199-200 | 50 points and eight particles; nothing else changes |
| MarioEscape.MarioEscapeEngine.CollectItems | js/marioEscape.js:209-236 | the loop leaves the fields as `Loot` says |
| MarioEscape.MarioEscapeEngine.TouchAt | js/marioEscape.js:210-235 | one pass leaves the fields as `Touch` says |
| MarioEscape.MarioEscapeEngine.StarBlast | js/marioEscape.js:212-224 | 500 points, the enemies become `Blast` of the old ones, and eight particles per enemy cleared |
| MarioEscape.MarioEscapeEngine.Arm | js/marioEscape.js:225-227 | armed with `min(30, ammo + 10)` rounds; nothing else changes |
| MarioEscape.MarioEscapeEngine.SpawnDue | js/marioEscape.js:248-258 | the fields change as `Spawn` says |
| MarioEscape.MarioEscapeEngine.SpawnEnemy | js/marioEscape.js:248-253 | one `SpawnedGoomba` at the current level is appended, the clock set and the interval shortened |
| MarioEscape.MarioEscapeEngine.SpawnItem | js/marioEscape.js:255-258 | one `SpawnedPickup` is appended and the clock set |
| MarioEscape.MarioEscapeEngine.AgeParticles | js/marioEscape.js:239-245 | the particles age one frame; nothing else changes |
| MarioEscape.MarioEscapeEngine.CheckLevelUp | js/marioEscape.js:261-265 | the fields change as `LevelUp` says |
| MarioEscape.MarioEscapeEngine.FinishFrame | js/marioEscape.js:183-267 | the fields change as `Finish` says |
| MarioEscape.MarioEscapeEngine.Fight | js/marioEscape.js:183-245 | the fields change as `Skirmish` says |
| MarioEscape.MarioEscapeEngine.WrapUp | js/marioEscape.js:248-267 | the fields change as `Wrap` says |
| MarioEscape.MarioEscapeEngine.Update | js/marioEscape.js:146-268 | a frame leaves the fields as `Frame` says |
| DefenseGame.Click | js/defenseGame.js:133-153 | a click while the game runs appends one 5 px bullet leaving the turret 20 px out along its heading at 400 px/s; otherwise nothing changes |
| DefenseGame.Missile | js/defenseGame.js:155-174 | without missiles nothing happens; otherwise one is spent and exactly one missile is appended |
| DefenseGame.KeyDown | js/defenseGame.js:125-131 | only `Space` while the game runs can fire, and it spends at most one missile |
| DefenseGame.Mod320 | js/defenseGame.js:277 | `x % 320` for a non-negative `x` lies in `[0, 320)` |
| DefenseGame.LevelUp | js/defenseGame.js:271-288 | one more level, the next one 150 points further, and one new AI turret on the base line at a height in `[40, 360)`, its clock at `now` and its interval `1500 - 50 level` |
| DefenseGame.Slot | js/defenseGame.js:276-277 | every new AI turret stands at a height in `[40, 360)` |
| DefenseGame.Award | js/defenseGame.js:183-187 | one missile is awarded exactly when the score is 400 past the last award mark, and the mark moves up 400; otherwise nothing changes |
| DefenseGame.SpawnedEnemy | js/defenseGame.js:318-348 | a tank exactly for a first draw below 0.2 (3 hit points, 20 damage, worth 50, from x = 450), else a soldier (1 hit point, 10 damage, worth 10, from x = 420); at a height in `[30, 370)` and moving left |
| DefenseGame.Tick | js/defenseGame.js:190-195 | the timer gathers `dt` seconds; once past the interval an enemy is spawned, the timer restarts and the interval becomes `max(500, 2000 - 150 level)` |
| DefenseGame.Aim | js/defenseGame.js:292-314 | one AI turret fires at most one bullet and changes only its own clock and the projectiles |
| DefenseGame.Sweep | js/defenseGame.js:290-316 | the AI turrets keep their number and change only their clocks and the projectiles |
| DefenseGame.NoTargetNoFire | js/defenseGame.js:305-314 | with no enemy on the field no AI turret fires or moves its clock |
| DefenseGame.Move | js/defenseGame.js:201-209 | one projectile of the loop flies on and is kept exactly when it is still inside the field; entries before it are untouched |
| DefenseGame.Travel | js/defenseGame.js:201-210 | the projectile loop changes only the projectiles |
| DefenseGame.TravelKeepsInside | js/defenseGame.js:206-209 | after the loop every projectile is inside the field |
| DefenseGame.LastTouch | js/defenseGame.js:229-248 | the inner search returns the highest-index projectile touching the enemy, and none only when none touches it |
| DefenseGame.Breach | js/defenseGame.js:217-227 | an enemy past the base line is spliced out and costs the base its damage, floored at 0; the game stops exactly when the base reaches 0 |
| DefenseGame.BulletHit | js/defenseGame.js:235-245 | the bullet is spliced out; the enemy loses one hit point, and at zero it is spliced out and pays its value, else the score stays |
| DefenseGame.Blasted | js/defenseGame.js:256-268 | an explosion never adds enemies |
| DefenseGame.Bounty | js/defenseGame.js:256-268 | an explosion never takes points away |
| DefenseGame.BlastPaysOnce | js/defenseGame.js:252-269 | an explosion pays each enemy it finishes exactly once: score plus the value left on the field is unchanged |
| DefenseGame.Explode | js/defenseGame.js:252-269 | `explodeMissile` keeps the invariant, never lowers the score, keeps score plus field value constant, and changes only enemies and score |
| DefenseGame.MissileHit | js/defenseGame.js:233-246 | the corrected missile branch: the missile is spliced out and the explosion alone pays, so score plus field value stays constant |
| DefenseGame.MissileHitAsWritten | js/defenseGame.js:233-246 | the missile branch as written keeps the invariant (it pays the touched enemy again and splices index `i` a second time) |
| DefenseGame.MissileScoresTwice | js/defenseGame.js:233-269 | a missile on a soldier at index 0 with a second soldier out of reach: as written the score is 20 and both soldiers are gone; corrected, 10 and the far soldier stays |
| DefenseGame.Guard | js/defenseGame.js:214-248 | one enemy of the loop keeps the invariant, never lowers the score, never restarts a stopped game, and leaves the base at 0 only with the game stopped |
| DefenseGame.Defend | js/defenseGame.js:213-249 | the enemy loop keeps the invariant, never lowers the score, and never restarts a stopped game |
| DefenseGame.Frame | js/defenseGame.js:176-250 | a frame keeps the invariant, never lowers the score, levels up exactly when the score reached the next level (adding one AI turret), awards exactly one missile when 400 more points were made, and never restarts a stopped game |
| DefenseGame.DefenseGameEngine.constructor | js/defenseGame.js:2-45 | a new engine: score 0, level 1, next level at 150, base at 100, no missiles, interval 2000 ms, inactive |
| DefenseGame.DefenseGameEngine.Start | js/defenseGame.js:47-75 | everything is reset except the spawn interval, which carries over |
| DefenseGame.DefenseGameEngine.ResetScore | js/defenseGame.js:48-52 | active, score 0, level 1, next level at 150, base at 100; nothing else changes |
| DefenseGame.DefenseGameEngine.ClearField | js/defenseGame.js:53-58 | empty lists, no missiles, award mark and timer at 0; nothing else changes |
| DefenseGame.DefenseGameEngine.ClearLists | js/defenseGame.js:53-55 | the three lists are empty; nothing else changes |
| DefenseGame.DefenseGameEngine.Stop | js/defenseGame.js:77-91 | the game is inactive and reports its score and level |
| DefenseGame.DefenseGameEngine.HandleMouseDown | js/defenseGame.js:133-136 | the fields change as `Click` says |
| DefenseGame.DefenseGameEngine.FireMissile | js/defenseGame.js:155-174 | the fields change as `Missile` says |
| DefenseGame.DefenseGameEngine.HandleKeyDown | js/defenseGame.js:125-131 | the fields change as `KeyDown` says |
| DefenseGame.DefenseGameEngine.DoLevelUp | js/defenseGame.js:271-288 | the fields change as `LevelUp` says |
| DefenseGame.DefenseGameEngine.AwardMissile | js/defenseGame.js:183-187 | the fields change as `Award` says |
| DefenseGame.DefenseGameEngine.TickSpawn | js/defenseGame.js:190-195 | the fields change as `Tick` says |
| DefenseGame.DefenseGameEngine.FindNearest | js/defenseGame.js:294-303 | the search finds an enemy exactly when there is one, at the smallest distance, and the first such in list order |
| DefenseGame.DefenseGameEngine.UpdateAITurrets | js/defenseGame.js:290-316 | the turret loop leaves the fields as `Sweep` says |
| DefenseGame.DefenseGameEngine.AimAt | js/defenseGame.js:292-314 | one turret leaves the fields as `Aim` says |
| DefenseGame.DefenseGameEngine.MoveProjectiles | js/defenseGame.js:201-210 | the loop leaves the fields as `Travel` says |
| DefenseGame.DefenseGameEngine.Update | js/defenseGame.js:176-250 | a frame leaves the fields as `Frame` says |
| DefenseGame.DefenseGameEngine.FindTouch | js/defenseGame.js:229-248 | the backward search returns `LastTouch` |
| DefenseGame.DefenseGameEngine.MoveEnemies | js/defenseGame.js:213-249 | the loop leaves the fields as `Defend` says |
| DefenseGame.DefenseGameEngine.GuardAt | js/defenseGame.js:214-248 | one pass leaves the fields as `Guard` says |
| DefenseGame.DefenseGameEngine.BreachAt | js/defenseGame.js:217-227 | the fields change as `Breach` says |
| DefenseGame.DefenseGameEngine.BulletHitAt | js/defenseGame.js:235-245 | the fields change as `BulletHit` says |
| DefenseGame.DefenseGameEngine.MissileHitAt | js/defenseGame.js:233-246 | the fields change as the corrected `MissileHit` says |
| DefenseGame.DefenseGameEngine.ExplodeMissile | js/defenseGame.js:252-269 | the backward loop leaves the fields as `Explode` says |
| DefenseGame.BlastSlot | js/defenseGame.js:256-268 | one pass of the explosion loop turns the list with the later enemies blasted into the list with this one blasted too, and pays exactly this enemy's value when it is finished |
| DinoRun.DinoBox | js/dinoRun.js:257-266 | the runner's box is its 40 px square standing and the lower half of it crouching, always with the same bottom edge |
| DinoRun.CrouchBox | js/dinoRun.js:257-298 | crouching only avoids hits; on the ground a crouching runner clears every Bullet Bill, a standing one is hit by one exactly when they overlap horizontally, and a pipe hits it either way |
| DinoRun.Jumped | js/dinoRun.js:152-158 | a jump starts only from the ground, with the jump force as velocity; in the air nothing changes |
| DinoRun.KeyDown | js/dinoRun.js:129-139 | only while playing: space jumps, the down arrow crouches, any other key changes nothing |
| DinoRun.KeyUp | js/dinoRun.js:141-145 | releasing the down arrow stands the runner up in any phase; other keys change nothing |
| DinoRun.MouseDown | js/dinoRun.js:147-150 | a click jumps while playing and changes nothing otherwise |
| DinoRun.Physics | js/dinoRun.js:166-183 | the speed grows by 5 px/s per second; at or below the ground the runner lands with no velocity, above it moves by its velocity under gravity, tripled when crouching in the air; nothing else changes |
| DinoRun.Stride | js/dinoRun.js:185-191 | the distance run is counted and one point is scored, with 40 px taken off, exactly when it reaches 40; nothing else changes |
| DinoRun.Spawned | js/dinoRun.js:275-298 | a Bullet Bill exactly when the draw is below 0.2, with its top between 315 and 325; otherwise a pipe on the ground; both at the right edge |
| DinoRun.SpawnTick | js/dinoRun.js:193-200 | once the timer passes the next spawn time one obstacle is appended, the timer restarts and the next time is a draw between 1 and 3 seconds scaled down by the speed over 250; otherwise only the timer runs |
| DinoRun.Run | js/dinoRun.js:203-218 | the loop stops with the death animation started exactly at an obstacle that touches the runner; otherwise the phase is unchanged; only the obstacles, the phase and the hit obstacle change |
| DinoRun.ClearRun | js/dinoRun.js:203-218 | when the loop ends without a hit, every obstacle left is clear of the runner and not yet fully off the left edge |
| DinoRun.Stopped | js/dinoRun.js:87-106 | the run ends inactive, and the high score becomes the larger of itself and the score, changing only when the score beats it |
| DinoRun.Flung | js/dinoRun.js:229-249 | a Bullet Bill death flings the runner 600 px/s left and 200 px/s up; only the position changes |
| DinoRun.Death | js/dinoRun.js:229-255 | the death timer runs; after more than one second the run ends with the high score updated, before that the phase and high score stay; the score, obstacles and speed never change |
| DinoRun.Updated | js/dinoRun.js:160-227 | a frame keeps the invariant (score and high score non-negative, speed at least 200) |
| DinoRun.Frame | js/dinoRun.js:160-227 | a frame of the game loop keeps the invariant and, as the loop's guard does, changes nothing once the run has ended |
| DinoRun.PhasesMoveForward | js/dinoRun.js:160-255 | phases only move forward: playing becomes dying only on a hit, dying ends exactly when the timer passes one second, ended stays ended; the score gains at most one point a frame and the speed never drops |
| DinoRun.RestartAsWritten | js/dinoRun.js:57-71 | `start()` as written keeps the invariant; it resets everything about the run except the runner's `x` |
| DinoRun.RestartAfterBulletMissesAll | js/dinoRun.js:229-255 | after a Bullet Bill death lasting over a second, the runner restarted by `start()` as written stands more than 550 px left of its place and no obstacle on the field can touch it |
| DinoRun.Dies | js/dinoRun.js:229-255 | a sequence of death frames keeps the invariant |
| DinoRun.DiesFlings | js/dinoRun.js:229-236 | during a Bullet Bill death the runner moves 600 px left per second of frames, and the timer gains exactly the time passed |
| DinoRun.Restart | js/dinoRun.js:57-71 | `start()` as intended: playing, active, score 0, no obstacles, the runner on the ground at its place with no velocity, the high score kept |
| DinoRun.SurvivedFrameIsClear | js/dinoRun.js:160-218 | after a frame the runner survives, every obstacle on the list is clear of it and not yet off the left edge |
| DinoRun.DinoRunEngine.constructor | js/dinoRun.js:2-55 | a new engine with the stored high score: score 0, inactive, the runner standing at its place, speed 200, first spawn at 1500 ms |
| DinoRun.DinoRunEngine.Start | js/dinoRun.js:57-85 | the fields change as the corrected `Restart` says |
| DinoRun.DinoRunEngine.ResetPhase | js/dinoRun.js:58-61 | active, playing, death timer 0, no hit obstacle; nothing else changes |
| DinoRun.DinoRunEngine.ClearField | js/dinoRun.js:62-67 | score 0, no obstacles, speed 250, spawn timer 0; nothing else changes |
| DinoRun.DinoRunEngine.ResetRunner | js/dinoRun.js:68-70 | the runner on the ground at its place with no velocity, not jumping; nothing else changes |
| DinoRun.DinoRunEngine.Stop | js/dinoRun.js:87-106 | the fields change as `Stopped` says |
| DinoRun.DinoRunEngine.Jump | js/dinoRun.js:152-158 | the fields change as `Jumped` says |
| DinoRun.DinoRunEngine.HandleKeyDown | js/dinoRun.js:129-139 | the fields change as `KeyDown` says |
| DinoRun.DinoRunEngine.HandleKeyUp | js/dinoRun.js:141-145 | the fields change as `KeyUp` says |
| DinoRun.DinoRunEngine.HandleMouseDown | js/dinoRun.js:147-150 | the fields change as `MouseDown` says |
| DinoRun.DinoRunEngine.Loop | js/dinoRun.js:108-120 | one frame leaves the fields as `Frame` says |
| DinoRun.DinoRunEngine.Update | js/dinoRun.js:160-227 | a frame leaves the fields as `Updated` says |
| DinoRun.DinoRunEngine.MoveRunner | js/dinoRun.js:166-183 | the fields change as `Physics` says |
| DinoRun.DinoRunEngine.CountStride | js/dinoRun.js:185-191 | the fields change as `Stride` says |
| DinoRun.DinoRunEngine.SpawnDue | js/dinoRun.js:193-200 | the fields change as `SpawnTick` says |
| DinoRun.DinoRunEngine.MoveObstacles | js/dinoRun.js:203-218 | the backward loop leaves the fields, and reports the hit, as `Run` says |
| DinoRun.DinoRunEngine.ScrollAt | js/dinoRun.js:204-217 | one pass of the loop either ends it with a hit or leaves the rest of the loop to do what `Run` from the next index says |
| DinoRun.DinoRunEngine.Fling | js/dinoRun.js:231-249 | the fields change as `Flung` says |
| DinoRun.DinoRunEngine.UpdateDeathAnimation | js/dinoRun.js:229-255 | the fields change as `Death` says |

## Left out

- Drawing: every `draw*` method, image loading, `prepareBossImage` and the canvas calls around the pixel pass (`getImageData`, `putImageData`, `toDataURL`) only render. Only the byte pass itself is modelled.
- Sound: every `window.soundManager` call is a no-op for the game state and is dropped.
- Cosmetic state is dropped: clouds, background stars, scroll offsets, rotation and scale of sprites, and the positions, velocities, colours and texts of particles and effects. An effect is modelled by its remaining life only.
- The fruit catcher's easing of the skewered items towards their places on the spear (js/gameEngine.js:193-203) only moves drawn positions and is left out.
- Host scheduling: `startGameLoop`, `stopGameLoop`, `requestAnimationFrame`, `cancelAnimationFrame` and `setTimeout` are not modelled. One frame is one call of the engine's `Loop` or `Update`, and the quiz's delayed next problem is an explicit method.
- Event listeners are not modelled: adding and removing them in `start` and `stop`, and `preventDefault`. The handlers are methods called with the key code.
- The `onGameEnd` and `onScoreChange` callbacks are not modelled. The values they would report are in the model's state.
- `Date.now()` and `performance.now()` are parameters. Each frame or handler call reads one value, so two reads within one call are taken to agree.
- `Math.random()` draws are parameters: a sequence of reals in `[0, 1)`, consumed in the order the source calls it. The model does not say how they are distributed.
- `parseInt` on the quiz's input box is an `Option<int>` parameter, with `None` for `NaN`.
- `localStorage` in the runner is the constructor's `stored` high score. Only the max rule of `stop` is kept; the write back is not.
- Trigonometry is not computed. `Math.atan2`, `Math.cos` and `Math.sin` are unit headings `(c, s)` that the caller supplies: the mushrooms' entry direction, the defence turrets' aim and the mouse direction of the main turret. The model does not say which heading the source would compute.
- Distances compared through `Math.sqrt` or `Math.hypot` are compared squared, which decides the same comparisons.
- IEEE floating point is not modelled. Positions, speeds, timers and the fractional survival bonuses are exact reals, so rounding and overflow are not captured.
- The pixel pass is modelled once; the copies in js/birdStrike.js:623-659 and js/kirbyRunner.js:538-574 are the same loop.
- DefenseGame.Defend: an index that a missile explosion has already put past the end of the enemy list is skipped. The source reads `undefined` there and throws a `TypeError`, which ends the frame.
- DefenseGame.Frame and the engine follow the corrected missile branch (see Findings). The as-written branch is modelled as `MissileHitAsWritten` alone.
- DinoRun.DinoRunEngine.Start puts the runner back at x = 50, which the source does not do (see Findings). The as-written reset is `RestartAsWritten`.
- DinoRun.Physics and the frames that use it require a frame time of at least zero. A clock that runs backwards is not modelled.
- DinoRun.Updated states only the invariant. What a frame does is stated by `PhasesMoveForward`, `SurvivedFrameIsClear` and the contracts of its parts.
- js/main.js (screen switching and buttons), js/sound.js (oscillator synthesis) and the Python image scripts (remove_bg.py, pixelate.py, flip.py) are not part of this model.

## Findings

| source | as written | input that shows it | evidently intended | confidence | as-written member | corrected member |
|---|---|---|---|---|---|---|
| js/defenseGame.js:233-269 | After `explodeMissile` the enemy loop looks again at the enemy it holds. The explosion has already lowered that enemy's hit points, paid for it and spliced it out. The loop pays `scoreValue` a second time and splices index `i` again, removing whatever enemy now sits there. | A missile on a soldier at index 0 and a second soldier far away at index 1: the score becomes 20 and both soldiers are gone. | The explosion alone settles the hit: 10 points, and the far soldier stays. | not executed | DefenseGame.MissileHitAsWritten, DefenseGame.MissileScoresTwice | DefenseGame.MissileHit |
| js/dinoRun.js:57-71 | `start()` resets the runner's `y`, `vy` and `isJumping` but not its `x`, which the death animation moves. The page (js/main.js:224) builds a new engine before each game, so only a caller that calls `start()` again on the same engine meets the stranded runner. | A death by a Bullet Bill whose animation runs for more than one second, then `start()`: the runner restarts more than 550 px left of the field, and no obstacle can ever touch it. | `start()` also puts the runner back at x = 50. | not executed | DinoRun.RestartAsWritten, DinoRun.RestartAfterBulletMissesAll | DinoRun.Restart |
