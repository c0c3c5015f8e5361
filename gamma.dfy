/**
 * gamma.py: the earlier negative script. With --overlay it overlays the image on itself;
 * then gamma, a fit to A4 (landscape when the bounding box of the non-black pixels reaches
 * at least as far right as down), then mirror, invert and colorize.
 */
module GammaScript {
  import opened Results
  import opened Rasters
  import opened Correction

  /** A4 at 300 dpi, (width, height) in pixels. */
  const A4_LANDSCAPE: (int, int) := (3543, 2362)
  const A4_VERTICAL: (int, int) := (2362, 3543)

  /** getbbox's box of the non-zero pixels: (left, upper, right, lower). */
  datatype Box = Box(left: int, upper: int, right: int, lower: int)

  /** A three-channel image, the result of colorize. */
  datatype RgbImage = RgbImage(width: nat, height: nat, cols: seq<seq<(Sample, Sample, Sample)>>)

  /** The settings App keeps from its constructor (the file paths are left out). */
  datatype Config = Config(gamma: real, overlay: bool)

  /** The Pillow operations the script calls and this model does not define. */
  datatype Library = Library(
    gammaCurve: (Image, real) -> Image,  // ImageMath.eval of the gamma expression, then convert('L')
    gaussianBlur: Image -> Image,        // filter(GaussianBlur())
    overlay: (Image, Image) -> Image,    // ImageChops.overlay
    getbbox: Image -> Option<Box>,       // None when every sample is 0
    fit: (Image, int, int) -> Image,     // ImageOps.fit(img, (w, h))
    unsharpMask: Image -> Image,         // filter(UnsharpMask())
    colorize: Image -> RgbImage)         // ImageOps.colorize with the script's fixed colours

  /**
   * apply_overlay: the blurred copy is computed but the overlay is always taken of the
   * image with itself.
   */
  function ApplyOverlay(cfg: Config, lib: Library, img: Image, blur: bool): (r: Image)
    ensures !cfg.overlay ==> r == img
    ensures cfg.overlay ==> r == lib.overlay(img, img)
  {
    if !cfg.overlay then img
    else
      var img2 := if blur then lib.gaussianBlur(img) else img;  // never used
      lib.overlay(img, img)
  }

  /** The blur flag of apply_overlay makes no difference to its result. */
  lemma OverlayIgnoresBlur(cfg: Config, lib: Library, img: Image)
    ensures ApplyOverlay(cfg, lib, img, true) == ApplyOverlay(cfg, lib, img, false)
  {
  }

  /** The A4 size resize_to_a4 fits to, from the right and lower edges of the bounding box. */
  function A4Size(right: int, lower: int): (size: (int, int))
    ensures size == A4_LANDSCAPE || size == A4_VERTICAL
    ensures size == A4_LANDSCAPE <==> right >= lower
    ensures right >= lower <==> size.0 >= size.1
  {
    if right >= lower then A4_LANDSCAPE else A4_VERTICAL
  }

  /**
   * The orientation follows the box's right and lower edges, not its size: content in the
   * box (600, 0, 900, 800) is taller than wide, yet it gets the landscape size.
   */
  lemma A4SizeUsesEdges()
    ensures var box := Box(600, 0, 900, 800);
            && box.right - box.left < box.lower - box.upper
            && A4Size(box.right, box.lower) == A4_LANDSCAPE
  {
  }

  /** The two A4 sizes are each other's transpose. */
  lemma A4SizesTransposed()
    ensures A4_VERTICAL == (A4_LANDSCAPE.1, A4_LANDSCAPE.0)
    ensures A4_LANDSCAPE.0 > A4_LANDSCAPE.1
  {
  }

  /**
   * resize_to_a4: fits the image to A4, landscape when the bounding box's right edge is at
   * least its lower edge (edges, not the box's width and height), then sharpens.
   * An all-black image has no bounding box, and subscripting None raises TypeError.
   */
  function ResizeToA4(lib: Library, img: Image): (r: Result<Image>)
    ensures r.Err? <==> lib.getbbox(img).None?
    ensures r.Err? ==> r.error == TypeError
    ensures r.Ok? ==> var box := lib.getbbox(img).value;
                      var size := if box.right >= box.lower then A4_LANDSCAPE else A4_VERTICAL;
                      r.value == lib.unsharpMask(lib.fit(img, size.0, size.1))
  {
    match lib.getbbox(img)
    case None => Err(TypeError)
    case Some(box) =>
      var (width, height) := (box.right, box.lower);
      var size := A4Size(width, height);
      Ok(lib.unsharpMask(lib.fit(img, size.0, size.1)))
  }

  /** to_negative: the mirrored, inverted image is handed to colorize. */
  function ToNegative(lib: Library, img: Image): (r: RgbImage)
    ensures r == lib.colorize(Negated(img))
  {
    var mirrored := Mirrored(img);
    var inverted := Inverted(mirrored);
    lib.colorize(inverted)
  }

  /** The image to_negative hands to colorize has the input's size and holds 255 - in[w-1-x][y]. */
  lemma ToNegativeInput(img: Image)
    ensures var n := Inverted(Mirrored(img));
            && n.SameSize(img)
            && forall x, y :: 0 <= x < img.width && 0 <= y < img.height ==>
                 n.cols[x][y] == 255 - img.cols[img.width - 1 - x][y]
  {
  }

  /**
   * run, from the grey image on: overlay without blur, gamma, A4 fit, negative. It can only
   * divide by zero in the gamma stage or subscript a missing bounding box.
   */
  function Run(cfg: Config, lib: Library, img: Image): (r: Result<RgbImage>)
    ensures r.Err? ==> r.error == ZeroDivisionError || r.error == TypeError
    ensures r.Ok? ==> cfg.gamma != 0.0
    ensures cfg.gamma == 1.0 && !cfg.overlay && lib.getbbox(img).Some? ==> r.Ok?
  {
    var overlaid := ApplyOverlay(cfg, lib, img, false);
    var corrected :- GammaCorrect(lib.gammaCurve, cfg.gamma, overlaid);
    var fitted :- ResizeToA4(lib, corrected);
    Ok(ToNegative(lib, fitted))
  }

  /** With neither overlay nor gamma, the run colorizes the negative of the A4 fit of its input. */
  lemma PlainRun(cfg: Config, lib: Library, img: Image)
    requires !cfg.overlay && cfg.gamma == 1.0 && lib.getbbox(img).Some?
    ensures var box := lib.getbbox(img).value;
            var size := A4Size(box.right, box.lower);
            Run(cfg, lib, img) == Ok(lib.colorize(Negated(lib.unsharpMask(lib.fit(img, size.0, size.1)))))
  {
  }

  /** The run fails exactly when gamma is 0.0 or the image reaching resize_to_a4 is all black. */
  lemma RunFailures(cfg: Config, lib: Library, img: Image)
    ensures cfg.gamma == 0.0 ==> Run(cfg, lib, img) == Err(ZeroDivisionError)
    ensures cfg.gamma != 0.0 ==>
              var corrected := GammaCorrect(lib.gammaCurve, cfg.gamma, ApplyOverlay(cfg, lib, img, false)).value;
              Run(cfg, lib, img).Err? <==> lib.getbbox(corrected).None?
  {
  }
}
