/**
 * Single-channel 8-bit rasters (Pillow mode "L") and the exact integer operations on them
 * that the scripts use: a blank canvas, paste, left-right mirror and inversion.
 */
module Rasters {

  /** One grey level of an "L" image. */
  type Sample = v: int | 0 <= v <= 255

  /** A raster of `width` columns and `height` rows; the sample at (x, y) is cols[x][y]. */
  datatype Raster = Raster(width: nat, height: nat, cols: seq<seq<Sample>>)
  {
    predicate Valid()
    {
      |cols| == width && forall x :: 0 <= x < width ==> |cols[x]| == height
    }

    predicate SameSize(other: Raster)
    {
      width == other.width && height == other.height
    }
  }

  /** A well-formed raster: one column per x, each `height` samples long. */
  type Image = r: Raster | r.Valid() witness Raster(0, 0, [])

  /** Two rasters of the same size that agree at every pixel are equal. */
  lemma Extensionality(a: Image, b: Image)
    requires a.SameSize(b)
    requires forall x, y :: 0 <= x < a.width && 0 <= y < a.height ==> a.cols[x][y] == b.cols[x][y]
    ensures a == b
  {
    forall x | 0 <= x < a.width
      ensures a.cols[x] == b.cols[x]
    {
      assert forall y :: 0 <= y < a.height ==> a.cols[x][y] == b.cols[x][y];
    }
  }

  /** Image.new("L", (width, height), color=v). */
  function Filled(width: nat, height: nat, v: Sample): (r: Image)
    ensures r.width == width && r.height == height
    ensures forall x, y :: 0 <= x < width && 0 <= y < height ==> r.cols[x][y] == v
  {
    Raster(width, height, seq(width, _ => seq(height, _ => v)))
  }

  /** Is (x, y) covered by `img` when its top-left corner is placed at (xOff, yOff)? */
  predicate InWindow(img: Raster, xOff: int, yOff: int, x: int, y: int)
  {
    xOff <= x < xOff + img.width && yOff <= y < yOff + img.height
  }

  /**
   * canvas.paste(img, (xOff, yOff, xOff + w, yOff + h)): the part of `img` that falls
   * on the canvas replaces the canvas samples there; the rest of `img` is clipped away.
   */
  function Paste(canvas: Image, img: Image, xOff: int, yOff: int): (r: Image)
    ensures r.SameSize(canvas)
    ensures forall x, y :: 0 <= x < canvas.width && 0 <= y < canvas.height && InWindow(img, xOff, yOff, x, y) ==>
              r.cols[x][y] == img.cols[x - xOff][y - yOff]
    ensures forall x, y :: 0 <= x < canvas.width && 0 <= y < canvas.height && !InWindow(img, xOff, yOff, x, y) ==>
              r.cols[x][y] == canvas.cols[x][y]
  {
    Raster(canvas.width, canvas.height,
      seq(canvas.width, x requires 0 <= x < canvas.width =>
        seq(canvas.height, y requires 0 <= y < canvas.height =>
          if InWindow(img, xOff, yOff, x, y) then img.cols[x - xOff][y - yOff] else canvas.cols[x][y])))
  }

  /** ImageOps.mirror: flips the raster left to right. */
  function Mirrored(img: Image): (r: Image)
    ensures r.SameSize(img)
    ensures forall x, y :: 0 <= x < img.width && 0 <= y < img.height ==> r.cols[x][y] == img.cols[img.width - 1 - x][y]
  {
    Raster(img.width, img.height, seq(img.width, x requires 0 <= x < img.width => img.cols[img.width - 1 - x]))
  }

  /** ImageChops.invert: every sample s becomes 255 - s. */
  function Inverted(img: Image): (r: Image)
    ensures r.SameSize(img)
    ensures forall x, y :: 0 <= x < img.width && 0 <= y < img.height ==> r.cols[x][y] == 255 - img.cols[x][y]
  {
    Raster(img.width, img.height,
      seq(img.width, x requires 0 <= x < img.width =>
        seq(img.height, y requires 0 <= y < img.height => 255 - img.cols[x][y] as Sample)))
  }

  /** The step that turns a positive into a printable negative: mirror, then invert. */
  function Negated(img: Image): (r: Image)
    ensures r.SameSize(img)
    ensures forall x, y :: 0 <= x < img.width && 0 <= y < img.height ==>
              r.cols[x][y] == 255 - img.cols[img.width - 1 - x][y]
  {
    Inverted(Mirrored(img))
  }

  /** Mirroring twice gives back the raster. */
  lemma MirroredTwice(img: Image)
    ensures Mirrored(Mirrored(img)) == img
  {
    Extensionality(Mirrored(Mirrored(img)), img);
  }

  /** Inverting twice gives back the raster. */
  lemma InvertedTwice(img: Image)
    ensures Inverted(Inverted(img)) == img
  {
    Extensionality(Inverted(Inverted(img)), img);
  }

  /** Mirroring and inverting commute, so the order the scripts use does not matter. */
  lemma MirrorInvertCommute(img: Image)
    ensures Inverted(Mirrored(img)) == Mirrored(Inverted(img))
  {
    Extensionality(Inverted(Mirrored(img)), Mirrored(Inverted(img)));
  }

  /** The negative of the negative is the original raster. */
  lemma NegatedTwice(img: Image)
    ensures Negated(Negated(img)) == img
  {
    Extensionality(Negated(Negated(img)), img);
  }

  /** The contents of a Pillow image held in a two-dimensional array indexed [x, y]. */
  function Snapshot(a: array2<Sample>): (r: Image)
    reads a
    ensures r.width == a.Length0 && r.height == a.Length1
    ensures forall x, y :: 0 <= x < a.Length0 && 0 <= y < a.Length1 ==> r.cols[x][y] == a[x, y]
  {
    Raster(a.Length0, a.Length1,
      seq(a.Length0, x requires 0 <= x < a.Length0 reads a =>
        seq(a.Length1, y requires 0 <= y < a.Length1 reads a => a[x, y])))
  }
}
