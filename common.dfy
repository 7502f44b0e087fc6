/** Helpers shared by every engine model: optional values, the clamps written with
    `Math.max`/`Math.min`, the random draw of `Math.random()` and the score-to-level step. */
module Common {

  datatype Option<T> = None | Some(value: T)

  /** `Math.max(a, b)` and `Math.min(a, b)` on reals and on integers. */
  function MaxR(a: real, b: real): real { if a >= b then a else b }
  function MinR(a: real, b: real): real { if a <= b then a else b }
  function MaxI(a: int, b: int): int { if a >= b then a else b }
  function MinI(a: int, b: int): int { if a <= b then a else b }

  /** `array.splice(k, 1)`: the element at index `k` is taken out, the others keep their
      order. */
  function Remove<T>(s: seq<T>, k: nat): (r: seq<T>)
    requires k < |s|
    ensures |r| == |s| - 1 && r[..k] == s[..k] && r[k..] == s[k + 1..]
  {
    s[..k] + s[k + 1..]
  }

  /** A value `Math.random()` can return. */
  predicate IsDraw(r: real) { 0.0 <= r < 1.0 }

  /** Successive results of `Math.random()`, consumed in call order. */
  predicate AllDraws(d: seq<real>)
  {
    forall k :: 0 <= k < |d| ==> IsDraw(d[k])
  }

  /** `Math.floor(r * n)` for a draw `r`: a uniformly chosen index below `n`. */
  function Pick(r: real, n: nat): (k: int)
    requires IsDraw(r) && n > 0
    ensures 0 <= k < n
    ensures k as real <= r * n as real < (k + 1) as real
  {
    MulStrict(r, 1.0, n as real);
    assert r * n as real < n as real;
    var k := (r * n as real).Floor;
    assert (k + 1) as real == k as real + 1.0;
    k
  }

  lemma MulMono(x: real, y: real, c: real)
    requires c > 0.0 && x <= y
    ensures x * c <= y * c
  {}

  lemma MulStrict(x: real, y: real, c: real)
    requires c > 0.0 && x < y
    ensures x * c < y * c
  {}

  /** `Math.floor(score / per)` brackets `score` between two consecutive multiples of `per`. */
  lemma FloorBounds(score: real, per: real)
    requires per > 0.0
    ensures ((score / per).Floor) as real * per <= score
    ensures score < ((score / per).Floor + 1) as real * per
  {
    var q := score / per;
    var f := q.Floor;
    assert q * per == score;
    MulMono(f as real, q, per);
    MulStrict(q, f as real + 1.0, per);
    assert score < (f as real + 1.0) * per;
    assert (f + 1) as real == f as real + 1.0;
  }

  /** `Math.floor(score / per) + 1`: the level a score stands for when every level costs
      `per` points. */
  function LevelFor(score: real, per: real): (l: int)
    requires per > 0.0
    ensures score >= 0.0 ==> l >= 1
    ensures (l - 1) as real * per <= score < l as real * per
  {
    FloorBounds(score, per);
    (score / per).Floor + 1
  }

  lemma DivMono(x: real, y: real, c: real)
    requires c > 0.0 && x <= y
    ensures x / c <= y / c
  {
    assert y / c - x / c == (y - x) / c;
  }

  /** A larger score never stands for a smaller level. */
  lemma LevelForMonotone(a: real, b: real, per: real)
    requires per > 0.0 && a <= b
    ensures LevelFor(a, per) <= LevelFor(b, per)
  {
    DivMono(a, b, per);
  }
}
