/** The background-removal pass of `processImageBackground` (identical in the bird, beam-saber
    and flying runners): a walk over the RGBA bytes of an image, four at a time, that makes
    a pixel fully transparent when its colour looks like a white or light-grey backdrop. */
module Pixels {

  /** One element of the clamped byte array behind the image data. */
  newtype byte = x: int | 0 <= x < 256

  function Abs(x: int): int { if x < 0 then -x else x }

  /** `r > 235 && g > 235 && b > 235`. */
  predicate IsWhite(r: int, g: int, b: int) { r > 235 && g > 235 && b > 235 }

  /** `Math.max(|r-g|, |g-b|, |b-r|)`: how far the colour is from a pure grey. */
  function Spread(r: int, g: int, b: int): (d: int)
    ensures d >= 0
    ensures d >= Abs(r - g) && d >= Abs(g - b) && d >= Abs(b - r)
    ensures d == Abs(r - g) || d == Abs(g - b) || d == Abs(b - r)
  {
    var m := if Abs(r - g) >= Abs(g - b) then Abs(r - g) else Abs(g - b);
    if m >= Abs(b - r) then m else Abs(b - r)
  }

  /** Nearly grey (`diff < 10`) and light (`(r + g + b) / 3 > 180`). */
  predicate IsLightNeutral(r: int, g: int, b: int)
  {
    Spread(r, g, b) < 10 && (r + g + b) as real / 3.0 > 180.0
  }

  /** Every channel strictly between 180 and 225: the grey of a transparency checkerboard. */
  predicate IsCheckerGray(r: int, g: int, b: int)
  {
    180 < r < 225 && 180 < g < 225 && 180 < b < 225
  }

  /** The colour test of the loop: the pixel is taken for backdrop. */
  predicate IsBackdrop(r: int, g: int, b: int)
  {
    IsWhite(r, g, b) || IsLightNeutral(r, g, b) || IsCheckerGray(r, g, b)
  }

  /** Whether byte `k` is the alpha byte of a whole pixel whose colour is backdrop. */
  predicate ClearsAt(s: seq<byte>, k: int)
  {
    0 <= k < |s| && k % 4 == 3 &&
    IsBackdrop(s[k - 3] as int, s[k - 2] as int, s[k - 1] as int)
  }

  /** The image after the pass: alpha zero where the colour is backdrop, every other byte kept. */
  function Cleared(s: seq<byte>): (c: seq<byte>)
    ensures |c| == |s|
  {
    seq(|s|, k requires 0 <= k < |s| => if ClearsAt(s, k) then 0 as byte else s[k])
  }

  /** The pass in place: `for (i = 0; i < data.length; i += 4)`, writing only `data[i + 3]`.
      A trailing partial pixel is never cleared: in the source its missing channels read as
      `undefined`, which fails every comparison, and a write past the end of the typed array
      is dropped. */
  method RemoveBackdrop(data: array<byte>)
    modifies data
    ensures data[..] == Cleared(old(data[..]))
  {
    ghost var before := data[..];
    var i := 0;
    while i < data.Length
      invariant 0 <= i && i % 4 == 0
      invariant forall k :: 0 <= k < data.Length && k < i ==> data[k] == Cleared(before)[k]
      invariant forall k :: i <= k < data.Length ==> data[k] == before[k]
    {
      var r, g, b := data[i], if i + 1 < data.Length then data[i + 1] else 0,
                              if i + 2 < data.Length then data[i + 2] else 0;
      if i + 3 < data.Length && IsBackdrop(r as int, g as int, b as int) {
        data[i + 3] := 0;
      }
      PixelDone(before, i);
      i := i + 4;
    }
    assert data[..] == Cleared(before);
  }

  /** What the pass does to the pixel starting at `i`: only its alpha byte can change, and it
      becomes zero exactly when the pixel is whole and its colour is backdrop. */
  lemma PixelDone(s: seq<byte>, i: int)
    requires 0 <= i < |s| && i % 4 == 0
    ensures Cleared(s)[i] == s[i]
    ensures i + 1 < |s| ==> Cleared(s)[i + 1] == s[i + 1]
    ensures i + 2 < |s| ==> Cleared(s)[i + 2] == s[i + 2]
    ensures i + 3 < |s| ==>
      Cleared(s)[i + 3] == if IsBackdrop(s[i] as int, s[i + 1] as int, s[i + 2] as int) then 0 else s[i + 3]
  {
    ClearedBytes(s, i);
    if i + 1 < |s| {
      assert (i + 1) % 4 == 1;
      ClearedBytes(s, i + 1);
    }
    if i + 2 < |s| {
      assert (i + 2) % 4 == 2;
      ClearedBytes(s, i + 2);
    }
    if i + 3 < |s| {
      assert (i + 3) % 4 == 3 && (i + 3) - 3 == i;
      ClearedBytes(s, i + 3);
    }
  }

  /** The pass in terms of single bytes: colour bytes are kept, and an alpha byte is zeroed
      exactly when the three bytes before it are a backdrop colour. */
  lemma ClearedBytes(s: seq<byte>, k: int)
    requires 0 <= k < |s|
    ensures k % 4 != 3 ==> Cleared(s)[k] == s[k]
    ensures k % 4 == 3 ==>
      Cleared(s)[k] == if IsBackdrop(s[k - 3] as int, s[k - 2] as int, s[k - 1] as int) then 0 else s[k]
  {
  }

  /** Clearing only reads colour bytes and only writes alpha bytes, so a second pass finds
      nothing more to do. */
  lemma ClearedIdempotent(s: seq<byte>)
    ensures Cleared(Cleared(s)) == Cleared(s)
  {
    var c := Cleared(s);
    forall k | 0 <= k < |s|
      ensures Cleared(c)[k] == c[k]
    {
      if k % 4 == 3 {
        KeptBelowAlpha(s, k);
        assert ClearsAt(c, k) == ClearsAt(s, k);
      } else {
        assert !ClearsAt(c, k);
      }
    }
  }

  /** The colour bytes of a pixel are never rewritten. */
  lemma KeptBelowAlpha(s: seq<byte>, k: int)
    requires 0 <= k < |s| && k % 4 == 3
    ensures Cleared(s)[k - 3] == s[k - 3]
    ensures Cleared(s)[k - 2] == s[k - 2]
    ensures Cleared(s)[k - 1] == s[k - 1]
  {
    assert (k - 3) % 4 == 0 && (k - 2) % 4 == 1 && (k - 1) % 4 == 2;
    assert !ClearsAt(s, k - 3) && !ClearsAt(s, k - 2) && !ClearsAt(s, k - 1);
  }

  /** A pixel with all three channels above 235 always loses its alpha; one with any channel
      at or below 180 never does. */
  lemma BackdropBounds(r: int, g: int, b: int)
    ensures IsWhite(r, g, b) ==> IsBackdrop(r, g, b)
    ensures (r <= 180 || g <= 180 || b <= 180) && !IsLightNeutral(r, g, b) ==> !IsBackdrop(r, g, b)
  {}

  /** The light-neutral test written over integers: the mean is above 180 exactly when the
      channel sum is above 540, and a light neutral pixel has every channel above 170. */
  lemma LightNeutralOnIntegers(r: int, g: int, b: int)
    ensures IsLightNeutral(r, g, b) <==> Spread(r, g, b) < 10 && r + g + b > 540
    ensures IsLightNeutral(r, g, b) ==> r > 170 && g > 170 && b > 170
  {}
}
