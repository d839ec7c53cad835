/**
 * The black/white threshold that `ThreeManager.imageToBlackAndWhite` applies to
 * every pixel of an RGBA buffer: the unweighted sum R+G+B decides, alpha is ignored
 * on input and forced to opaque on output.
 */
module Threshold {
  import opened Rgba

  /** Channel sums strictly below this value turn white; all others turn black. */
  const Cutoff := 100

  /** The grey level a pixel with channels r, g, b is mapped to. */
  function Colour(r: Byte, g: Byte, b: Byte): Byte
  {
    if r + g + b < Cutoff then White else Black
  }

  /** The four bytes one input pixel becomes. */
  function PixelOut(r: Byte, g: Byte, b: Byte): seq<Byte>
  {
    var c := Colour(r, g, b);
    [c, c, c, Opaque]
  }

  /** The whole buffer after thresholding, pixel by pixel from the front. */
  function Thresholded(s: seq<Byte>): (t: seq<Byte>)
    requires IsRgba(s)
    ensures |t| == |s|
    decreases |s|
  {
    if |s| == 0 then [] else PixelOut(s[0], s[1], s[2]) + Thresholded(s[4..])
  }

  /** Every pixel is opaque and pure black or pure white, with R = G = B. */
  predicate Bilevel(s: seq<Byte>)
    decreases |s|
  {
    IsRgba(s) &&
    (|s| == 0 ||
     (s[0] == s[1] == s[2] && (s[0] == Black || s[0] == White) && s[3] == Opaque && Bilevel(s[4..])))
  }

  /** Black and white swapped in every pixel; alpha kept. */
  function Inverted(s: seq<Byte>): (t: seq<Byte>)
    requires IsRgba(s)
    ensures |t| == |s|
    decreases |s|
  {
    if |s| == 0 then [] else [White - s[0], White - s[1], White - s[2], s[3]] + Inverted(s[4..])
  }

  /** n copies of the pixel (r, g, b, a): a solid-colour image of n pixels. */
  function Fill(n: nat, r: Byte, g: Byte, b: Byte, a: Byte): (s: seq<Byte>)
    ensures |s| == 4 * n
  {
    if n == 0 then [] else [r, g, b, a] + Fill(n - 1, r, g, b, a)
  }

  /** Thresholding works on each pixel on its own, so it distributes over concatenation. */
  lemma {:induction false} ThresholdedAppend(a: seq<Byte>, b: seq<Byte>)
    requires IsRgba(a) && IsRgba(b)
    ensures Thresholded(a + b) == Thresholded(a) + Thresholded(b)
    decreases |a|
  {
    if |a| == 0 {
      assert a + b == b;
    } else {
      assert (a + b)[4..] == a[4..] + b;
      ThresholdedAppend(a[4..], b);
    }
  }

  /**
   * The per-pixel rule: R, G and B of pixel p all become 255 when the input's
   * R+G+B is below 100 and all become 0 otherwise; alpha becomes 255 whatever it was.
   */
  lemma {:induction false} ThresholdedAt(s: seq<Byte>, p: nat)
    requires IsRgba(s) && p < |s| / 4
    ensures var t, sum := Thresholded(s), s[4 * p] as int + s[4 * p + 1] as int + s[4 * p + 2] as int;
            var c := if sum < 100 then 255 else 0;
            t[4 * p] == c && t[4 * p + 1] == c && t[4 * p + 2] == c && t[4 * p + 3] == 255
    decreases p
  {
    if p > 0 {
      var rest := s[4..];
      ThresholdedAt(rest, p - 1);
      assert rest[4 * (p - 1)] == s[4 * p];
      assert rest[4 * (p - 1) + 1] == s[4 * p + 1];
      assert rest[4 * (p - 1) + 2] == s[4 * p + 2];
    }
  }

  /** Every byte of a thresholded buffer is 0 or 255. */
  lemma {:induction false} ThresholdedIsBlackOrWhite(s: seq<Byte>)
    requires IsRgba(s)
    ensures forall i :: 0 <= i < |s| ==> Thresholded(s)[i] == Black || Thresholded(s)[i] == White
    decreases |s|
  {
    if |s| > 0 {
      ThresholdedIsBlackOrWhite(s[4..]);
    }
  }

  /** A thresholded buffer is bilevel, whatever the input. */
  lemma {:induction false} ThresholdedIsBilevel(s: seq<Byte>)
    requires IsRgba(s)
    ensures Bilevel(Thresholded(s))
    decreases |s|
  {
    if |s| > 0 {
      var t := Thresholded(s);
      assert t[4..] == Thresholded(s[4..]);
      ThresholdedIsBilevel(s[4..]);
    }
  }

  /** On a bilevel buffer the threshold swaps black and white: white sums to 765, black to 0. */
  lemma {:induction false} ThresholdSwapsBilevel(s: seq<Byte>)
    requires Bilevel(s)
    ensures Thresholded(s) == Inverted(s)
    decreases |s|
  {
    if |s| > 0 {
      ThresholdSwapsBilevel(s[4..]);
    }
  }

  /** Swapping black and white twice gives the buffer back. */
  lemma {:induction false} InvertedTwice(s: seq<Byte>)
    requires IsRgba(s)
    ensures Inverted(Inverted(s)) == s
    decreases |s|
  {
    if |s| > 0 {
      var t := Inverted(s);
      assert t[4..] == Inverted(s[4..]);
      InvertedTwice(s[4..]);
    }
  }

  /** Thresholding its own output inverts it: the operation is not idempotent. */
  lemma {:induction false} ThresholdTwiceInverts(s: seq<Byte>)
    requires IsRgba(s)
    ensures Thresholded(Thresholded(s)) == Inverted(Thresholded(s))
  {
    ThresholdedIsBilevel(s);
    ThresholdSwapsBilevel(Thresholded(s));
  }

  /** On bilevel input the threshold is an involution. */
  lemma {:induction false} ThresholdTwiceRestoresBilevel(s: seq<Byte>)
    requires Bilevel(s)
    ensures Thresholded(Thresholded(s)) == s
  {
    ThresholdSwapsBilevel(s);
    ThresholdedIsBilevel(s);
    ThresholdSwapsBilevel(Thresholded(s));
    InvertedTwice(s);
  }

  /**
   * No non-empty buffer is left as it was: the first pixel always changes, because a
   * pixel that turns white had a sum below 100 (so was not white) and a pixel that turns
   * black had a sum of at least 100 (so was not black).
   */
  lemma {:induction false} NoFixedPoint(s: seq<Byte>)
    requires IsRgba(s) && |s| > 0
    ensures Thresholded(s) != s
  {
    ThresholdedAt(s, 0);
  }

  /** Applying the threshold a second time always changes a non-empty buffer again. */
  lemma {:induction false} NotIdempotent(s: seq<Byte>)
    requires IsRgba(s) && |s| > 0
    ensures Thresholded(Thresholded(s)) != Thresholded(s)
  {
    NoFixedPoint(Thresholded(s));
  }

  /** A solid-colour image becomes a solid black or white opaque image. */
  lemma {:induction false} ThresholdedFill(n: nat, r: Byte, g: Byte, b: Byte, a: Byte)
    ensures var c := if r + g + b < 100 then White else Black;
            Thresholded(Fill(n, r, g, b, a)) == Fill(n, c, c, c, Opaque)
  {
    if n > 0 {
      var s := Fill(n, r, g, b, a);
      assert s[4..] == Fill(n - 1, r, g, b, a);
      ThresholdedFill(n - 1, r, g, b, a);
    }
  }

  /**
   * The threshold is strict: a solid grey of sum 99 turns white, a solid pixel of
   * sum 100 and a solid grey of sum 102 turn black.
   */
  lemma {:induction false} GreyBoundary(n: nat)
    ensures Thresholded(Fill(n, 33, 33, 33, 255)) == Fill(n, White, White, White, Opaque)
    ensures Thresholded(Fill(n, 34, 33, 33, 255)) == Fill(n, Black, Black, Black, Opaque)
    ensures Thresholded(Fill(n, 34, 34, 34, 255)) == Fill(n, Black, Black, Black, Opaque)
  {
    ThresholdedFill(n, 33, 33, 33, 255);
    ThresholdedFill(n, 34, 33, 33, 255);
    ThresholdedFill(n, 34, 34, 34, 255);
  }

  /** The first n pixels of a buffer thresholded, built from the back as the loop builds it. */
  function ThresholdedPrefix(s: seq<Byte>, n: nat): (t: seq<Byte>)
    requires 4 * n <= |s|
    ensures |t| == 4 * n
  {
    if n == 0 then [] else ThresholdedPrefix(s, n - 1) + PixelOut(s[4 * n - 4], s[4 * n - 3], s[4 * n - 2])
  }

  /** Building the thresholded buffer from the back agrees with the definition from the front. */
  lemma {:induction false} PrefixMatchesThresholded(s: seq<Byte>, n: nat)
    requires 4 * n <= |s|
    ensures IsRgba(s[..4 * n]) && ThresholdedPrefix(s, n) == Thresholded(s[..4 * n])
  {
    assert |s[..4 * n]| == 4 * n;
    if n > 0 {
      var i := 4 * (n - 1);
      PrefixMatchesThresholded(s, n - 1);
      assert s[..i + 4] == s[..i] + s[i..i + 4];
      assert s[i..i + 4][4..] == [];
      ThresholdedAppend(s[..i], s[i..i + 4]);
    }
  }

  /** Built from the back over all its pixels, the buffer thresholded is the definition's. */
  lemma ThresholdedPrefixAll(s: seq<Byte>, n: nat)
    requires |s| == 4 * n
    ensures IsRgba(s) && ThresholdedPrefix(s, n) == Thresholded(s)
  {
    PrefixMatchesThresholded(s, n);
    assert s[..4 * n] == s;
  }

  /** When the loop has visited every pixel, the bytes it wrote are the thresholded buffer. */
  lemma LoopDone(a: seq<Byte>, input: seq<Byte>, done: seq<Byte>, pixels: nat)
    requires |a| == |input| == |done| == 4 * pixels
    requires forall k :: 0 <= k < |a| ==> a[k] == done[k]
    requires done == ThresholdedPrefix(input, pixels)
    ensures IsRgba(input) && a == Thresholded(input)
  {
    assert a == done;
    ThresholdedPrefixAll(input, pixels);
  }

  /**
   * One step of the pixel loop at byte offset i: R, G and B of that pixel get the grey
   * level of their sum and alpha gets 255; no other byte changes.
   */
  method ThresholdPixel(data: array<Byte>, i: nat)
    requires i + 4 <= data.Length
    modifies data
    ensures var c := Colour(old(data[i]), old(data[i + 1]), old(data[i + 2]));
            data[i] == c && data[i + 1] == c && data[i + 2] == c && data[i + 3] == Opaque
    ensures forall k :: 0 <= k < data.Length && (k < i || i + 4 <= k) ==> data[k] == old(data[k])
  {
    var count := data[i] as int + data[i + 1] as int + data[i + 2] as int;
    var colour: Byte := 0;
    if count < Cutoff {
      colour := 255;
    }
    data[i] := colour;
    data[i + 1] := colour;
    data[i + 2] := colour;
    data[i + 3] := Opaque;
  }

  /**
   * The pixel loop of `imageToBlackAndWhite`: four bytes at a time, R, G and B become
   * 255 when their sum is below 100 and 0 otherwise, and alpha becomes 255.
   */
  method Binarize(data: array<Byte>)
    requires IsRgba(data[..])
    modifies data
    ensures data[..] == Thresholded(old(data[..]))
  {
    ghost var input := data[..];
    ghost var pixels := data.Length / 4;
    ghost var p := 0;
    ghost var done: seq<Byte> := [];
    var i := 0;
    while i < data.Length
      invariant 0 <= p <= pixels && i == 4 * p && data.Length == 4 * pixels
      invariant done == ThresholdedPrefix(input, p)
      invariant forall k :: 0 <= k < i ==> data[k] == done[k]
      invariant forall k :: i <= k < data.Length ==> data[k] == input[k]
    {
      ThresholdPixel(data, i);
      done := done + PixelOut(input[i], input[i + 1], input[i + 2]);
      i, p := i + 4, p + 1;
    }
    LoopDone(data[..], input, done, pixels);
  }
}
