/** Short-lived visual effects and particles. Every engine keeps them in a list that its
    `update` walks from the back: each entry loses one frame of life and is spliced out once
    its life is at or below zero. Positions, velocities, colours and texts only matter for
    drawing, so an entry is modelled by its remaining life alone. */
module Effects {

  /** One effect or particle: the frames it still has to live (`life` or `duration`). */
  datatype Fx = Fx(life: int)

  /** The entries that survive one frame, each one frame older, in their original order. */
  function Aged(s: seq<Fx>): (r: seq<Fx>)
    ensures |r| <= |s|
  {
    if s == [] then []
    else (if s[0].life - 1 <= 0 then [] else [Fx(s[0].life - 1)]) + Aged(s[1..])
  }

  /** The particle loop of a hit or a pickup: `n` new entries, each with `life` frames. */
  function Burst(n: nat, life: int): (s: seq<Fx>)
    ensures |s| == n && forall k :: 0 <= k < n ==> s[k] == Fx(life)
  {
    if n == 0 then [] else Burst(n - 1, life) + [Fx(life)]
  }

  /** `for (let k = 0; k < n; k++) particles.push(...)`: the entries of one burst, made one
      at a time. */
  method Emit(n: nat, life: int) returns (s: seq<Fx>)
    ensures s == Burst(n, life)
  {
    s := [];
    var k := 0;
    while k < n
      invariant 0 <= k <= n && s == Burst(k, life)
    {
      s := s + [Fx(life)];
      k := k + 1;
    }
  }

  /** `n` frames of ageing. */
  function AgedTimes(s: seq<Fx>, n: nat): seq<Fx>
    decreases n
  {
    if n == 0 then s else AgedTimes(Aged(s), n - 1)
  }

  /** The countdown loop of the engines: walks the list from the back, decrements each life
      and splices out the entries that reached zero. */
  method Age(s: seq<Fx>) returns (r: seq<Fx>)
    ensures r == Aged(s)
  {
    r := s;
    var i := |s|;
    while i > 0
      invariant 0 <= i <= |s|
      invariant r == s[..i] + Aged(s[i..])
    {
      i := i - 1;
      AgeSlot(s, i, r);
      var e := Fx(r[i].life - 1);
      if e.life <= 0 {
        r := r[..i] + r[i + 1..];
      } else {
        r := r[i := e];
      }
    }
    assert s[0..] == s;
  }

  /** One pass of the loop of `Age`, at index `i`: with the entries from `i + 1` on already
      aged, decrementing entry `i` and splicing it out at zero leaves the entries from `i`
      on aged. */
  lemma AgeSlot(s: seq<Fx>, i: int, r: seq<Fx>)
    requires 0 <= i < |s| && r == s[..i + 1] + Aged(s[i + 1..])
    ensures |r| > i
    ensures var e := Fx(r[i].life - 1);
      (if e.life <= 0 then r[..i] + r[i + 1..] else r[i := e]) == s[..i] + Aged(s[i..])
  {
    assert s[i..][1..] == s[i + 1..];
    assert s[..i + 1] == s[..i] + [s[i]];
    assert r[..i] == s[..i] && r[i] == s[i] && r[i + 1..] == Aged(s[i + 1..]);
    var e := Fx(s[i].life - 1);
    if e.life > 0 {
      Replaced(r, i, e);
    }
  }

  /** Every entry that survives a frame still has at least one frame to live. */
  lemma {:induction false} AgedAlive(s: seq<Fx>)
    ensures forall k :: 0 <= k < |Aged(s)| ==> Aged(s)[k].life >= 1
  {
    if s != [] {
      AgedAlive(s[1..]);
    }
  }

  lemma Replaced(r: seq<Fx>, i: int, e: Fx)
    requires 0 <= i < |r|
    ensures r[i := e] == r[..i] + [e] + r[i + 1..]
  {
  }

  /** Entries age independently of each other: ageing a list is ageing each part. */
  lemma {:induction false} AgedAppend(a: seq<Fx>, b: seq<Fx>)
    ensures Aged(a + b) == Aged(a) + Aged(b)
  {
    if a == [] {
      assert a + b == b;
    } else {
      assert (a + b)[1..] == a[1..] + b;
      AgedAppend(a[1..], b);
    }
  }

  /** An entry created with life `l` is still there, `k` frames younger, for the first
      `l - 1` frames and gone from frame `l` on. */
  lemma {:induction false} Lifetime(l: int, k: nat)
    requires l >= 1
    ensures AgedTimes([Fx(l)], k) == if k < l then [Fx(l - k)] else []
  {
    if k > 0 {
      AgedSingle(l);
      if l - 1 <= 0 {
        EmptyStaysEmpty(k - 1);
      } else {
        Lifetime(l - 1, k - 1);
      }
    }
  }

  lemma AgedSingle(l: int)
    ensures Aged([Fx(l)]) == if l - 1 <= 0 then [] else [Fx(l - 1)]
  {
    assert [Fx(l)][1..] == [];
  }

  lemma {:induction false} EmptyStaysEmpty(k: nat)
    ensures AgedTimes([], k) == []
  {
    if k > 0 {
      EmptyStaysEmpty(k - 1);
    }
  }
}
