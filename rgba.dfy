/** 8-bit RGBA rasters as the browser's 2D canvas exposes them. */
module Rgba {

  /** One channel value of an `ImageData` buffer (a `Uint8ClampedArray`). */
  type Byte = x: int | 0 <= x < 256

  const Black: Byte := 0
  const White: Byte := 255
  const Opaque: Byte := 255

  /**
   * The number of pixels of a w x h raster, w * h written as repeated addition so that
   * the solver stays within linear arithmetic when it reasons about buffer lengths.
   */
  function PixelCount(w: nat, h: nat): nat
  {
    if h == 0 then 0 else w + PixelCount(w, h - 1)
  }

  lemma {:induction false} PixelCountIsArea(w: nat, h: nat)
    ensures PixelCount(w, h) == w * h
  {
    if h > 0 {
      PixelCountIsArea(w, h - 1);
    }
  }

  /** A buffer of whole RGBA pixels: four bytes per pixel, row-major. */
  predicate IsRgba(s: seq<Byte>)
  {
    |s| % 4 == 0
  }

  /**
   * An HTML canvas as far as the core uses it: its size and its pixels, read and
   * written through `getImageData`/`putImageData`.
   */
  class Canvas {
    var width: nat
    var height: nat
    var data: array<Byte>

    ghost predicate Valid()
      reads this
    {
      data.Length == 4 * PixelCount(width, height)
    }

    /** A canvas of the given size holding the given pixels. */
    constructor (w: nat, h: nat, pixels: seq<Byte>)
      requires |pixels| == 4 * PixelCount(w, h)
      ensures Valid() && fresh(data)
      ensures width == w && height == h && data[..] == pixels
      ensures data.Length == 4 * w * h
    {
      PixelCountIsArea(w, h);
      width, height := w, h;
      data := new Byte[|pixels|](i requires 0 <= i < |pixels| => pixels[i]);
    }

    /** Setting a canvas's width and height reallocates it, transparent black. */
    method Resize(w: nat, h: nat)
      modifies this
      ensures Valid() && fresh(data)
      ensures width == w && height == h
      ensures data.Length == 4 * w * h
      ensures forall i :: 0 <= i < data.Length ==> data[i] == Black
    {
      PixelCountIsArea(w, h);
      width, height := w, h;
      data := new Byte[4 * PixelCount(w, h)](_ => Black);
    }
  }
}
