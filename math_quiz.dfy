/** The math quiz (`MathQuizEngine` in js/mathQuiz.js): a 60-second countdown, one problem at a
    time drawn for the chosen level, +10 for a right answer, -5 for a wrong one and -2 for a
    pass, the score never going below zero, and a pause after each answer until the next
    problem is drawn. */
module MathQuiz {
  import opened Common

  datatype Op = Plus | Minus | Times | Divide

  /** A problem as shown on the board, with the answer the engine expects. */
  datatype Problem =
    | Arith(op: Op, a: int, b: int, answer: int)          // level 1: `a op b = ?`
    | Linear(a: int, b: int, c: int, answer: int)         // level 2 "eqn": `a x + b = c, x = ?`
    | Power(base: int, exp: nat, answer: int)                // level 2 "pow": `a^b = ?`
    | Negative(a: int, b: int, answer: int)               // level 2 "neg": `a - b = ?`
    | Logarithm(base: int, val: int, answer: int)         // level 3 "log": `log_base(val) = ?`
    | Derivative(n: nat, x: int, answer: int)             // level 3 "diff": `f(x) = x^n, f'(x) = ?`
    | Progression(first: int, diff: int, n: nat, answer: int) // level 3 "seq": n-th term

  /** `Math.pow` on the small integers the quiz uses. */
  function Pow(b: int, e: nat): int
    decreases e
  {
    if e == 0 then 1 else b * Pow(b, e - 1)
  }

  /** What the question on the board asks, stated without the stored answer: `v` is a correct
      reply to it. */
  predicate Solves(p: Problem, v: int)
  {
    match p
    case Arith(op, a, b, _) =>
      (match op
       case Plus => v == a + b
       case Minus => v == a - b
       case Times => v == a * b
       case Divide => v * b == a)
    case Linear(a, b, c, _) => a * v + b == c
    case Power(base, exp, _) => v == Pow(base, exp)
    case Negative(a, b, _) => v == a - b
    case Logarithm(base, val, _) => v >= 0 && Pow(base, v) == val
    case Derivative(n, x, _) => n >= 1 && v == n * Pow(x, n - 1)
    case Progression(first, diff, n, _) => v == first + (n - 1) * diff
  }

  /** `generateProblem`: the problem drawn for `level` from the random draws `d`
      (`d[0]` picks the kind, the following draws pick the numbers). Level 1 asks arithmetic,
      level 2 equations, powers and negative results, any other level logarithms,
      derivatives and progressions. */
  function Generate(level: int, d: seq<real>): (p: Problem)
    requires |d| >= 4 && AllDraws(d)
    ensures level == 1 ==> p.Arith?
    ensures level == 2 ==> p.Linear? || p.Power? || p.Negative?
    ensures level != 1 && level != 2 ==> p.Logarithm? || p.Derivative? || p.Progression?
    ensures Solves(p, p.answer)
  {
    if level == 1 then Elementary(d)
    else if level == 2 then Intermediate(d)
    else Advanced(d)
  }

  /** The level-1 problems: a sum of two numbers up to 50, a difference of a number from 10
      to 59 and a smaller one, a product of 2..20 and 1..9, and an exact quotient. */
  function Elementary(d: seq<real>): (p: Problem)
    requires |d| >= 3 && AllDraws(d)
    ensures p.Arith? && Solves(p, p.answer)
    ensures p.op == Plus ==> 1 <= p.a <= 50 && 1 <= p.b <= 50
    ensures p.op == Minus ==> 10 <= p.a <= 59 && 1 <= p.b <= p.a && p.answer >= 0
    ensures p.op == Times ==> 2 <= p.a <= 20 && 1 <= p.b <= 9
    ensures p.op == Divide ==> 2 <= p.b <= 10 && 1 <= p.answer <= 10 && p.a == p.b * p.answer
  {
    var op := [Plus, Minus, Times, Divide][Pick(d[0], 4)];
    match op
    case Plus =>
      var a := Pick(d[1], 50) + 1;
      var b := Pick(d[2], 50) + 1;
      Arith(Plus, a, b, a + b)
    case Minus =>
      var a := Pick(d[1], 50) + 10;
      var b := Pick(d[2], a) + 1;
      Arith(Minus, a, b, a - b)
    case Times =>
      var a := Pick(d[1], 19) + 2;
      var b := Pick(d[2], 9) + 1;
      Arith(Times, a, b, a * b)
    case Divide =>
      var b := Pick(d[1], 9) + 2;
      var answer := Pick(d[2], 10) + 1;
      Arith(Divide, b * answer, b, answer)
  }

  /** The level-2 problems: `a x + b = c` with a whole solution from 1 to 10, a power of 2, 3,
      4, 5 or 10 (exponent 2..4, or 2..6 for base 2), and a subtraction with a result of at
      most zero. */
  function Intermediate(d: seq<real>): (p: Problem)
    requires |d| >= 4 && AllDraws(d)
    ensures (p.Linear? || p.Power? || p.Negative?) && Solves(p, p.answer)
    ensures p.Linear? ==> 2 <= p.a <= 6 && 1 <= p.b <= 10 && 1 <= p.answer <= 10
    ensures p.Power? ==> p.base in {2, 3, 4, 5, 10} && 2 <= p.exp && (p.exp <= 4 || (p.base == 2 && p.exp <= 6))
    ensures p.Negative? ==> 1 <= p.a <= 20 && 20 <= p.b <= 49 && p.answer <= 0
  {
    var kind := Pick(d[0], 3);
    if kind == 0 then
      var x := Pick(d[1], 10) + 1;
      var a := Pick(d[2], 5) + 2;
      var b := Pick(d[3], 10) + 1;
      Linear(a, b, a * x + b, x)
    else if kind == 1 then
      var a := [2, 3, 4, 5, 10][Pick(d[1], 5)];
      var b := Pick(d[2], 3) + 2;
      var b' := if a == 2 then Pick(d[3], 5) + 2 else b;
      Power(a, b', Pow(a, b'))
    else
      var a := Pick(d[1], 20) + 1;
      var b := Pick(d[2], 30) + 20;
      Negative(a, b, a - b)
  }

  /** The level-3 problems: a logarithm of base 2..4 with an answer from 1 to 3, the
      derivative of `x^n` (n from 2 to 4) at x from 1 to 5, and the n-th term (3..6) of an
      arithmetic progression. */
  function Advanced(d: seq<real>): (p: Problem)
    requires |d| >= 4 && AllDraws(d)
    ensures (p.Logarithm? || p.Derivative? || p.Progression?) && Solves(p, p.answer)
    ensures p.Logarithm? ==> 2 <= p.base <= 4 && 1 <= p.answer <= 3
    ensures p.Derivative? ==> 2 <= p.n <= 4 && 1 <= p.x <= 5
    ensures p.Progression? ==> 1 <= p.first <= 5 && 1 <= p.diff <= 5 && 3 <= p.n <= 6
  {
    var kind := Pick(d[0], 3);
    if kind == 0 then
      var base := Pick(d[1], 3) + 2;
      var answer := Pick(d[2], 3) + 1;
      Logarithm(base, Pow(base, answer), answer)
    else if kind == 1 then
      var n := Pick(d[1], 3) + 2;
      var x := Pick(d[2], 5) + 1;
      Derivative(n, x, n * Pow(x, n - 1))
    else
      var first := Pick(d[1], 5) + 1;
      var diff := Pick(d[2], 5) + 1;
      var n := Pick(d[3], 4) + 3;
      Progression(first, diff, n, first + (n - 1) * diff)
  }

  lemma MulCancelLeft(a: int, v: int, w: int)
    requires a != 0 && a * v == a * w
    ensures v == w
  {
    assert a * (v - w) == 0;
  }

  /** A base of at least two gives strictly growing powers. */
  lemma {:induction false} PowGrows(b: int, e1: nat, e2: nat)
    requires b >= 2 && e1 < e2
    ensures 0 < Pow(b, e1) < Pow(b, e2)
    decreases e2
  {
    if e1 + 1 == e2 {
      PowPositive(b, e1);
    } else {
      PowGrows(b, e1, e2 - 1);
    }
    assert Pow(b, e2) == b * Pow(b, e2 - 1);
  }

  lemma {:induction false} PowPositive(b: int, e: nat)
    requires b >= 1
    ensures Pow(b, e) >= 1
    decreases e
  {
    if e > 0 {
      PowPositive(b, e - 1);
    }
  }

  /** Every generated problem has exactly one correct reply, and it is the stored answer:
      the integer check `val === answer` of `checkAnswer` accepts precisely the replies that
      solve the question on the board. */
  lemma GeneratedAnswerIsUnique(level: int, d: seq<real>, v: int)
    requires |d| >= 4 && AllDraws(d)
    ensures Solves(Generate(level, d), v) <==> v == Generate(level, d).answer
  {
    var p := Generate(level, d);
    match p
    case Arith(op, a, b, answer) =>
      if op == Divide && v * b == a {
        MulCancelLeft(b, v, answer);
      }
    case Linear(a, b, c, answer) =>
      if a * v + b == c {
        MulCancelLeft(a, v, answer);
      }
    case Logarithm(base, val, answer) =>
      if v >= 0 && Pow(base, v) == val && v != answer {
        if v < answer { PowGrows(base, v, answer); } else { PowGrows(base, answer, v); }
      }
    case _ =>
  }

  /** One frame of the countdown: the remaining time and whether `stop()` was called. */
  function Tick(timeLeft: real, dt: real): (r: (real, bool))
    ensures r.1 <==> timeLeft > 0.0 && timeLeft - dt <= 0.0
    ensures r.1 ==> r.0 == 0.0
    ensures timeLeft <= 0.0 ==> r.0 == timeLeft
    ensures timeLeft >= 0.0 ==> r.0 >= 0.0
  {
    if timeLeft > 0.0 then
      (if timeLeft - dt <= 0.0 then (0.0, true) else (timeLeft - dt, false))
    else (timeLeft, false)
  }

  /** How many times `stop()` is called over the frames `dts`. */
  function Stops(timeLeft: real, dts: seq<real>): nat
    decreases |dts|
  {
    if dts == [] then 0
    else var (t, stopped) := Tick(timeLeft, dts[0]);
      (if stopped then 1 else 0) + Stops(t, dts[1..])
  }

  /** Once time has run out no frame stops the game again. */
  lemma {:induction false} NoStopAfterTimeout(dts: seq<real>)
    ensures Stops(0.0, dts) == 0
    decreases |dts|
  {
    if dts != [] {
      NoStopAfterTimeout(dts[1..]);
    }
  }

  /** However the frame times fall, the countdown ends the game at most once. */
  lemma {:induction false} StopsAtMostOnce(timeLeft: real, dts: seq<real>)
    ensures Stops(timeLeft, dts) <= 1
    decreases |dts|
  {
    if dts != [] {
      var (t, stopped) := Tick(timeLeft, dts[0]);
      if stopped {
        NoStopAfterTimeout(dts[1..]);
      } else {
        StopsAtMostOnce(t, dts[1..]);
      }
    }
  }

  /** Score after answering: +10 when right, otherwise -5 floored at zero. */
  function Scored(score: int, correct: bool): (s: int)
    requires score >= 0
    ensures s >= 0
    ensures correct ==> s == score + 10
    ensures !correct ==> s == if score >= 5 then score - 5 else 0
  {
    if correct then score + 10 else MaxI(0, score - 5)
  }

  class MathQuizEngine {
    var score: int
    var isGameActive: bool
    var timeLeft: real
    var level: int
    var waitingForNext: bool
    var currentProblem: Option<Problem>

    /** The score is never negative, the clock never runs below zero, and a running game
        always has a problem on the board. */
    ghost predicate Valid()
      reads this
    {
      score >= 0 && timeLeft >= 0.0 && (isGameActive ==> currentProblem.Some?)
    }

    constructor ()
      ensures Valid()
      ensures score == 0 && !isGameActive && timeLeft == 60.0 && level == 1
      ensures !waitingForNext && currentProblem == None
    {
      score, isGameActive, timeLeft, level := 0, false, 60.0, 1;
      waitingForNext, currentProblem := false, None;
    }

    /** `start(level)`: a fresh 60-second game at `lvl` with its first problem. */
    method Start(lvl: int, d: seq<real>)
      requires |d| >= 4 && AllDraws(d)
      modifies this
      ensures Valid()
      ensures score == 0 && timeLeft == 60.0 && isGameActive && level == lvl
      ensures !waitingForNext && currentProblem == Some(Generate(lvl, d))
    {
      score := 0;
      timeLeft := 60.0;
      isGameActive := true;
      level := lvl;
      waitingForNext := false;
      GenerateProblem(d);
    }

    /** `stop()`: the game is no longer active; the score and level are reported as they are. */
    method Stop()
      requires Valid()
      modifies this
      ensures Valid() && !isGameActive
      ensures score == old(score) && level == old(level) && timeLeft == old(timeLeft)
      ensures waitingForNext == old(waitingForNext) && currentProblem == old(currentProblem)
    {
      isGameActive := false;
    }

    /** `update(deltaTime)`: runs the clock down while time is left and stops the game, once,
        when it reaches zero. `ended` is true when `stop()` (and with it the end callback)
        was called. */
    method Update(dt: real) returns (ended: bool)
      requires Valid()
      modifies this
      ensures Valid()
      ensures (timeLeft, ended) == Tick(old(timeLeft), dt)
      ensures isGameActive == (old(isGameActive) && !ended)
      ensures score == old(score) && level == old(level)
      ensures waitingForNext == old(waitingForNext) && currentProblem == old(currentProblem)
    {
      ended := false;
      if timeLeft > 0.0 {
        timeLeft := timeLeft - dt;
        if timeLeft <= 0.0 {
          timeLeft := 0.0;
          Stop();
          ended := true;
        }
      }
    }

    /** `generateProblem()`: a new problem for the current level; answering is open again. */
    method GenerateProblem(d: seq<real>)
      requires |d| >= 4 && AllDraws(d)
      requires score >= 0 && timeLeft >= 0.0
      modifies this
      ensures Valid()
      ensures currentProblem == Some(Generate(level, d)) && !waitingForNext
      ensures score == old(score) && level == old(level) && timeLeft == old(timeLeft)
      ensures isGameActive == old(isGameActive)
    {
      currentProblem := Some(Generate(level, d));
      waitingForNext := false;
    }

    /** `checkAnswer()` with `parsed` the result of `parseInt` on the input box (`None` for
        NaN): ignored while waiting for the next problem or when the input is not a number;
        otherwise scores the reply and starts the pause before the next problem. */
    method CheckAnswer(parsed: Option<int>)
      requires Valid()
      requires !waitingForNext && parsed.Some? ==> currentProblem.Some?
      modifies this
      ensures Valid()
      ensures currentProblem == old(currentProblem)
      ensures old(waitingForNext) || parsed.None? ==>
        score == old(score) && waitingForNext == old(waitingForNext)
      ensures !old(waitingForNext) && parsed.Some? ==>
        score == Scored(old(score), parsed.value == currentProblem.value.answer) && waitingForNext
      ensures isGameActive == old(isGameActive) && level == old(level) && timeLeft == old(timeLeft)
    {
      if waitingForNext {
        return;
      }
      if parsed.None? {
        return;
      }
      var isCorrect := parsed.value == currentProblem.value.answer;
      if isCorrect {
        score := score + 10;
      } else {
        score := MaxI(0, score - 5);
      }
      waitingForNext := true;
    }

    /** `passProblem()`: ignored when the game is over or already waiting; otherwise costs two
        points (never below zero) and starts the pause. */
    method PassProblem()
      requires Valid()
      modifies this
      ensures Valid()
      ensures !old(isGameActive) || old(waitingForNext) ==>
        score == old(score) && waitingForNext == old(waitingForNext)
      ensures old(isGameActive) && !old(waitingForNext) ==>
        score == MaxI(0, old(score) - 2) && waitingForNext
      ensures isGameActive == old(isGameActive) && level == old(level) && timeLeft == old(timeLeft)
      ensures currentProblem == old(currentProblem)
    {
      if !isGameActive || waitingForNext {
        return;
      }
      score := MaxI(0, score - 2);
      waitingForNext := true;
    }

    /** The delayed callback of `showExplanation`: draws the next problem if the game is
        still running. */
    method NextProblem(d: seq<real>)
      requires Valid() && |d| >= 4 && AllDraws(d)
      modifies this
      ensures Valid()
      ensures old(isGameActive) ==> currentProblem == Some(Generate(level, d)) && !waitingForNext
      ensures !old(isGameActive) ==>
        currentProblem == old(currentProblem) && waitingForNext == old(waitingForNext)
      ensures score == old(score) && level == old(level) && timeLeft == old(timeLeft)
      ensures isGameActive == old(isGameActive)
    {
      if isGameActive {
        GenerateProblem(d);
      }
    }

    /** `handleKeyDown(e)`: Enter with a non-empty input box checks the answer, but only in a
        running game that is not waiting for its next problem. */
    method HandleKeyDown(isEnter: bool, inputEmpty: bool, parsed: Option<int>)
      requires Valid()
      modifies this
      ensures Valid()
      ensures currentProblem == old(currentProblem)
      ensures !old(isGameActive) || old(waitingForNext) || !isEnter || inputEmpty || parsed.None? ==>
        score == old(score) && waitingForNext == old(waitingForNext)
      ensures old(isGameActive) && !old(waitingForNext) && isEnter && !inputEmpty && parsed.Some? ==>
        score == Scored(old(score), parsed.value == currentProblem.value.answer) && waitingForNext
      ensures isGameActive == old(isGameActive) && level == old(level) && timeLeft == old(timeLeft)
    {
      if !isGameActive || waitingForNext {
        return;
      }
      if isEnter && !inputEmpty {
        CheckAnswer(parsed);
      }
    }
  }
}
