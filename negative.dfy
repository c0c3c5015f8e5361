/**
 * negative.py: the App pipeline that turns a grey photograph into a mirrored negative
 * for contact printing. Stage order: gamma, blurred blend, border, paper fit, negative.
 */
module Negative {
  import opened Results
  import opened Rasters
  import opened Correction

  const PRINTER_DPI := 300
  const MM2INCH: real := 0.0393701

  /** Paper sizes in millimetres, (width, height), long side first. */
  const LANDSCAPE_SIZES: map<string, (real, real)> :=
    map["a3" := (420.0, 297.0), "a4" := (297.0, 210.0), "a5" := (210.0, 148.0), "a6" := (148.0, 105.0)]

  /** The same sizes, short side first. */
  const PORTRAIT_SIZES: map<string, (real, real)> :=
    map["a3" := (297.0, 420.0), "a4" := (210.0, 297.0), "a5" := (148.0, 210.0), "a6" := (105.0, 148.0)]

  /** The blend modes apply_blur knows. */
  const BLEND_MODES: set<string> := {"overlay", "screen", "multiply"}

  /** The settings App keeps from its constructor (the file paths are left out). */
  datatype Config = Config(border: real, resize: string, dpi: int, gamma: real, blur: string, blurRadius: int)

  /** The Pillow operations the pipeline calls and this model does not define. */
  datatype Library = Library(
    gammaCurve: (Image, real) -> Image,    // ImageMath.eval of the gamma expression, then convert('L')
    gaussianBlur: (Image, int) -> Image,   // filter(GaussianBlur(radius))
    overlay: (Image, Image) -> Image,     // ImageChops.overlay
    screen: (Image, Image) -> Image,      // ImageChops.screen
    multiply: (Image, Image) -> Image,    // ImageChops.multiply
    pad: (Image, int, int) -> Image,       // ImageOps.pad(img, (w, h), color=255)
    unsharpMask: Image -> Image)           // filter(UnsharpMask())

  /** Python's int() on a float: truncation toward zero. */
  function Trunc(r: real): (n: int)
    ensures 0.0 <= r ==> 0 <= n && n as real <= r < n as real + 1.0
    ensures r <= 0.0 ==> n <= 0 && n as real - 1.0 < r <= n as real
  {
    if r >= 0.0 then r.Floor else -((-r).Floor)
  }

  /**
   * apply_blur: with a positive radius, blends the image with a blurred copy of itself
   * in the configured mode; an unknown mode trips `assert 1 == 2`.
   */
  function ApplyBlur(cfg: Config, lib: Library, img: Image): (r: Result<Image>)
    ensures cfg.blurRadius <= 0 ==> r == Ok(img)
    ensures r.Err? <==> cfg.blurRadius > 0 && cfg.blur !in BLEND_MODES
    ensures r.Err? ==> r.error == AssertionError
    ensures cfg.blurRadius > 0 && cfg.blur == "overlay" ==>
              r == Ok(lib.overlay(img, lib.gaussianBlur(img, cfg.blurRadius)))
    ensures cfg.blurRadius > 0 && cfg.blur == "screen" ==>
              r == Ok(lib.screen(img, lib.gaussianBlur(img, cfg.blurRadius)))
    ensures cfg.blurRadius > 0 && cfg.blur == "multiply" ==>
              r == Ok(lib.multiply(img, lib.gaussianBlur(img, cfg.blurRadius)))
  {
    if cfg.blurRadius <= 0 then Ok(img)
    else
      var blurred := lib.gaussianBlur(img, cfg.blurRadius);
      if cfg.blur == "overlay" then Ok(lib.overlay(img, blurred))
      else if cfg.blur == "screen" then Ok(lib.screen(img, blurred))
      else if cfg.blur == "multiply" then Ok(lib.multiply(img, blurred))
      else Err(AssertionError)
  }

  /** A fraction in [0, 1/4] of a length is non-negative and at most a quarter of it. */
  lemma {:induction false} QuarterOf(f: real, n: nat)
    requires 0.0 <= f <= 0.25
    ensures 0.0 <= f * (n as real) && 4.0 * (f * (n as real)) <= n as real
  {
    if n > 0 {
      QuarterOf(f, n - 1);
      assert f * (n as real) == f * ((n - 1) as real) + f;
    }
  }

  /** A fraction in [-1/2, 0] of a length is non-positive and at least minus half of it. */
  lemma {:induction false} HalfBelow(f: real, n: nat)
    requires -0.5 <= f <= 0.0
    ensures f * (n as real) <= 0.0 && -(n as real) <= 2.0 * (f * (n as real))
  {
    if n > 0 {
      HalfBelow(f, n - 1);
      assert f * (n as real) == f * ((n - 1) as real) + f;
    }
  }

  /** Truncating a value in [0, length/4] gives an integer in the same range. */
  lemma TruncQuarter(p: real, length: nat)
    requires 0.0 <= p && 4.0 * p <= length as real
    ensures 0 <= Trunc(p) && 4 * Trunc(p) <= length
  {
  }

  /** Truncating a value in [-length/2, 0] gives an integer in the same range. */
  lemma TruncHalfBelow(p: real, length: nat)
    requires p <= 0.0 && -(length as real) <= 2.0 * p
    ensures 0 <= length + 2 * Trunc(p) && Trunc(p) <= 0
  {
  }

  /** A non-negative offset of at most a quarter of its axis. */
  lemma WideningOffsetBounds(border: real, length: nat)
    requires 0.0 <= border <= 0.25
    ensures 0 <= Trunc(border * (length as real)) && 4 * Trunc(border * (length as real)) <= length
  {
    QuarterOf(border, length);
    TruncQuarter(border * (length as real), length);
  }

  /** A negative offset of at most half its axis, so the axis keeps a non-negative length. */
  lemma NarrowingOffsetBounds(border: real, length: nat)
    requires -0.5 <= border < 0.0
    ensures 0 <= length + 2 * Trunc(border * (length as real)) && Trunc(border * (length as real)) <= 0
  {
    HalfBelow(border, length);
    TruncHalfBelow(border * (length as real), length);
  }

  /** The (x, y) offsets of add_border, each a truncated fraction of its own axis. */
  function BorderOffsets(border: real, width: nat, height: nat): (off: (int, int))
    ensures 0.0 <= border <= 0.25 ==> 0 <= off.0 && 4 * off.0 <= width && 0 <= off.1 && 4 * off.1 <= height
    ensures -0.5 <= border < 0.0 ==> 0 <= width + 2 * off.0 && off.0 <= 0 && 0 <= height + 2 * off.1 && off.1 <= 0
  {
    var off := (Trunc(border * (width as real)), Trunc(border * (height as real)));
    if 0.0 <= border <= 0.25 then
      WideningOffsetBounds(border, width);
      WideningOffsetBounds(border, height);
      off
    else if -0.5 <= border < 0.0 then
      NarrowingOffsetBounds(border, width);
      NarrowingOffsetBounds(border, height);
      off
    else
      off
  }

  /** A 255-filled canvas grown by the offsets on every side, with `img` pasted at the offsets. */
  function Bordered(img: Image, xOff: int, yOff: int): (r: Image)
    requires img.width + 2 * xOff >= 0 && img.height + 2 * yOff >= 0
    ensures r.width == img.width + 2 * xOff && r.height == img.height + 2 * yOff
    ensures forall x, y :: 0 <= x < r.width && 0 <= y < r.height ==>
              r.cols[x][y] == if InWindow(img, xOff, yOff, x, y) then img.cols[x - xOff][y - yOff] else 255
  {
    Paste(Filled(img.width + 2 * xOff, img.height + 2 * yOff, 255), img, xOff, yOff)
  }

  /**
   * add_border: 0.0 is the identity, a fraction above 0.25 trips the assertion, and a
   * fraction negative enough to give a negative canvas size makes Image.new fail.
   */
  function BorderStage(border: real, img: Image): (r: Result<Image>)
    ensures border == 0.0 ==> r == Ok(img)
    ensures border != 0.0 && border > 0.25 ==> r == Err(AssertionError)
    ensures border != 0.0 && 0.0 <= border <= 0.25 ==> r.Ok?
    ensures r.Ok? && border != 0.0 ==>
              var (xOff, yOff) := BorderOffsets(border, img.width, img.height);
              && img.width + 2 * xOff >= 0 && img.height + 2 * yOff >= 0
              && r.value == Bordered(img, xOff, yOff)
  {
    if border == 0.0 then Ok(img)
    else if !(border <= 0.25) then Err(AssertionError)
    else
      var (xOff, yOff) := BorderOffsets(border, img.width, img.height);
      if img.width + 2 * xOff < 0 || img.height + 2 * yOff < 0 then Err(ValueError)
      else Ok(Bordered(img, xOff, yOff))
  }

  /** A non-negative border keeps every input pixel, shifted by the offsets. */
  lemma BorderedShiftsInput(img: Image, xOff: nat, yOff: nat)
    ensures forall x, y :: 0 <= x < img.width && 0 <= y < img.height ==>
              Bordered(img, xOff, yOff).cols[x + xOff][y + yOff] == img.cols[x][y]
  {
    var r := Bordered(img, xOff, yOff);
    forall x, y | 0 <= x < img.width && 0 <= y < img.height
      ensures r.cols[x + xOff][y + yOff] == img.cols[x][y]
    {
      assert InWindow(img, xOff, yOff, x + xOff, y + yOff);
    }
  }

  /** A border in (0, 0.25] always succeeds, with non-negative offsets. */
  lemma SmallBorderSucceeds(img: Image, border: real)
    requires 0.0 < border <= 0.25
    ensures var off := BorderOffsets(border, img.width, img.height);
            0 <= off.0 && 0 <= off.1 && BorderStage(border, img) == Ok(Bordered(img, off.0, off.1))
  {
    var off := BorderOffsets(border, img.width, img.height);
    assert 0 <= off.0 && 0 <= off.1;
    var r := BorderStage(border, img);
    assert r.Ok?;
  }

  /** Such a border keeps every input pixel, shifted by the offsets (the ring around it is 255 by Bordered's contract). */
  lemma BorderedKeepsInput(img: Image, border: real)
    requires 0.0 < border <= 0.25
    ensures var off := BorderOffsets(border, img.width, img.height);
            var r := BorderStage(border, img);
            && r.Ok? && 0 <= off.0 && 0 <= off.1
            && forall x, y :: 0 <= x < img.width && 0 <= y < img.height ==> r.value.cols[x + off.0][y + off.1] == img.cols[x][y]
  {
    SmallBorderSucceeds(img, border);
    var off := BorderOffsets(border, img.width, img.height);
    BorderedShiftsInput(img, off.0, off.1);
  }

  /** An unchecked negative fraction (down to -0.5) crops the centre instead of adding a border. */
  lemma NegativeBorderCrops(img: Image, border: real)
    requires -0.5 <= border < 0.0
    ensures BorderStage(border, img).Ok?
    ensures var r := BorderStage(border, img).value;
            var (xOff, yOff) := BorderOffsets(border, img.width, img.height);
            && r.width <= img.width && r.height <= img.height
            && forall x, y :: 0 <= x < r.width && 0 <= y < r.height ==> r.cols[x][y] == img.cols[x - xOff][y - yOff]
  {
    var (xOff, yOff) := BorderOffsets(border, img.width, img.height);
    var r := BorderStage(border, img).value;
    assert r == Bordered(img, xOff, yOff);
    forall x, y | 0 <= x < r.width && 0 <= y < r.height
      ensures r.cols[x][y] == img.cols[x - xOff][y - yOff]
    {
      assert InWindow(img, xOff, yOff, x, y);
    }
  }

  /** outer_img.paste(img, bbox), done in place on the canvas; pixels that fall off it are clipped. */
  method PasteInto(canvas: array2<Sample>, img: array2<Sample>, xOff: int, yOff: int)
    requires canvas != img
    modifies canvas
    ensures Snapshot(canvas) == Paste(old(Snapshot(canvas)), Snapshot(img), xOff, yOff)
  {
    var sx := 0;
    while sx < img.Length0
      invariant 0 <= sx <= img.Length0
      invariant forall x, y :: 0 <= x < canvas.Length0 && 0 <= y < canvas.Length1 ==>
                  canvas[x, y] == if xOff <= x < xOff + sx && yOff <= y < yOff + img.Length1
                                  then img[x - xOff, y - yOff] else old(canvas[x, y])
    {
      var sy := 0;
      while sy < img.Length1
        invariant 0 <= sy <= img.Length1
        invariant forall x, y :: 0 <= x < canvas.Length0 && 0 <= y < canvas.Length1 ==>
                    canvas[x, y] == if (xOff <= x < xOff + sx && yOff <= y < yOff + img.Length1)
                                       || (x == xOff + sx && yOff <= y < yOff + sy)
                                    then img[x - xOff, y - yOff] else old(canvas[x, y])
      {
        var tx, ty := sx + xOff, sy + yOff;
        if 0 <= tx < canvas.Length0 && 0 <= ty < canvas.Length1 {
          canvas[tx, ty] := img[sx, sy];
        }
        sy := sy + 1;
      }
      sx := sx + 1;
    }
    ghost var before := old(Snapshot(canvas));
    Extensionality(Snapshot(canvas), Paste(before, Snapshot(img), xOff, yOff));
  }

  /**
   * add_border on a Pillow image held in an array: the same image back for 0.0, otherwise a
   * new 255-filled canvas with the input pasted at the offsets.
   */
  method AddBorder(border: real, img: array2<Sample>) returns (r: Result<array2<Sample>>)
    ensures border == 0.0 ==> r == Ok(img)
    ensures r.Err? <==> BorderStage(border, Snapshot(img)).Err?
    ensures r.Err? ==> r.error == BorderStage(border, Snapshot(img)).error
    ensures r.Ok? ==> Snapshot(r.value) == BorderStage(border, Snapshot(img)).value
    ensures r.Ok? && border != 0.0 ==> fresh(r.value)
  {
    if border == 0.0 {
      return Ok(img);
    }
    if !(border <= 0.25) {
      return Err(AssertionError);
    }
    var (xOff, yOff) := BorderOffsets(border, img.Length0, img.Length1);
    var outerWidth, outerHeight := img.Length0 + 2 * xOff, img.Length1 + 2 * yOff;
    if outerWidth < 0 || outerHeight < 0 {
      return Err(ValueError);
    }
    var outer := new Sample[outerWidth, outerHeight]((x, y) => 255);
    Extensionality(Snapshot(outer), Filled(outerWidth, outerHeight, 255));
    PasteInto(outer, img, xOff, yOff);
    return Ok(outer);
  }

  /** ImageOps.mirror into a new array. */
  method Mirror(img: array2<Sample>) returns (r: array2<Sample>)
    ensures fresh(r)
    ensures Snapshot(r) == Mirrored(Snapshot(img))
  {
    var width, height := img.Length0, img.Length1;
    r := new Sample[width, height];
    var x := 0;
    while x < width
      invariant 0 <= x <= width
      invariant forall i, j :: 0 <= i < x && 0 <= j < height ==> r[i, j] == img[width - 1 - i, j]
    {
      var y := 0;
      while y < height
        invariant 0 <= y <= height
        invariant forall i, j :: 0 <= i < x && 0 <= j < height ==> r[i, j] == img[width - 1 - i, j]
        invariant forall j :: 0 <= j < y ==> r[x, j] == img[width - 1 - x, j]
      {
        r[x, y] := img[width - 1 - x, y];
        y := y + 1;
      }
      x := x + 1;
    }
    Extensionality(Snapshot(r), Mirrored(Snapshot(img)));
  }

  /** ImageChops.invert into a new array. */
  method Invert(img: array2<Sample>) returns (r: array2<Sample>)
    ensures fresh(r)
    ensures Snapshot(r) == Inverted(Snapshot(img))
  {
    var width, height := img.Length0, img.Length1;
    r := new Sample[width, height];
    var x := 0;
    while x < width
      invariant 0 <= x <= width
      invariant forall i, j :: 0 <= i < x && 0 <= j < height ==> r[i, j] == 255 - img[i, j]
    {
      var y := 0;
      while y < height
        invariant 0 <= y <= height
        invariant forall i, j :: 0 <= i < x && 0 <= j < height ==> r[i, j] == 255 - img[i, j]
        invariant forall j :: 0 <= j < y ==> r[x, j] == 255 - img[x, j]
      {
        r[x, y] := 255 - img[x, y];
        y := y + 1;
      }
      x := x + 1;
    }
    Extensionality(Snapshot(r), Inverted(Snapshot(img)));
  }

  /** to_negative: mirror, then invert; the black/white locals are never used. */
  method ToNegative(img: array2<Sample>) returns (r: array2<Sample>)
    ensures fresh(r)
    ensures Snapshot(r) == Negated(Snapshot(img))
  {
    var mirrored := Mirror(img);
    r := Invert(mirrored);
  }

  /** The paper size in millimetres; both orientation branches read LANDSCAPE_SIZES. */
  function PaperMm(name: string, width: int, height: int): (mm: (real, real))
    requires name in LANDSCAPE_SIZES
    ensures mm == LANDSCAPE_SIZES[name]
  {
    if width > height then LANDSCAPE_SIZES[name]  // landscape
    else LANDSCAPE_SIZES[name]                   // portrait
  }

  /**
   * The size resize_padding pads to. `width_px` is assigned twice in one statement, so the
   * second value (from the paper height) wins and the target is square.
   */
  function TargetSize(name: string, dpi: int, width: int, height: int): (size: (int, int))
    requires name in LANDSCAPE_SIZES
    ensures size.0 == size.1
    ensures size.1 == Trunc(dpi as real * (LANDSCAPE_SIZES[name].1 * MM2INCH))
  {
    var (widthMm, heightMm) := PaperMm(name, width, height);
    var (widthInch, heightInch) := (widthMm * MM2INCH, heightMm * MM2INCH);
    var widthPx := Trunc(dpi as real * widthInch);
    var widthPx' := Trunc(dpi as real * heightInch);  // overwrites widthPx
    (widthPx', widthPx')
  }

  /** At the default 300 dpi, every paper name gives the square of its short side in pixels. */
  lemma TargetSizesAt300Dpi(width: int, height: int)
    ensures TargetSize("a3", PRINTER_DPI, width, height) == (3507, 3507)
    ensures TargetSize("a4", PRINTER_DPI, width, height) == (2480, 2480)
    ensures TargetSize("a5", PRINTER_DPI, width, height) == (1748, 1748)
    ensures TargetSize("a6", PRINTER_DPI, width, height) == (1240, 1240)
  {
    assert LANDSCAPE_SIZES["a3"].1 == 297.0;
    assert LANDSCAPE_SIZES["a4"].1 == 210.0;
    assert LANDSCAPE_SIZES["a5"].1 == 148.0;
    assert LANDSCAPE_SIZES["a6"].1 == 105.0;
  }

  /** At any positive dpi every paper name pads to a square of side at least 4 (A6 at 1 dpi). */
  lemma PaperTargetIsPositive(name: string, dpi: int, width: int, height: int)
    requires name in LANDSCAPE_SIZES && dpi > 0
    ensures TargetSize(name, dpi, width, height).0 >= 4
  {
    var side := LANDSCAPE_SIZES[name].1;
    assert side >= 105.0;
    var p := dpi as real * (side * MM2INCH);
    assert p >= 105.0 * MM2INCH;
  }

  /** Every portrait entry is the landscape pair of the same name, swapped. */
  lemma PortraitIsSwappedLandscape()
    ensures PORTRAIT_SIZES.Keys == LANDSCAPE_SIZES.Keys
    ensures forall name :: name in LANDSCAPE_SIZES ==>
              PORTRAIT_SIZES[name] == (LANDSCAPE_SIZES[name].1, LANDSCAPE_SIZES[name].0)
  {
  }

  /** resize_padding: "no" is the identity; otherwise pad to the square target and sharpen. */
  function ResizePadding(cfg: Config, lib: Library, img: Image): (r: Result<Image>)
    ensures cfg.resize == "no" ==> r == Ok(img)
    ensures r.Err? <==> cfg.resize != "no" && cfg.resize !in LANDSCAPE_SIZES
    ensures r.Err? ==> r.error == KeyError
    ensures r.Ok? && cfg.resize != "no" ==>
              var side := Trunc(cfg.dpi as real * (LANDSCAPE_SIZES[cfg.resize].1 * MM2INCH));
              r.value == lib.unsharpMask(lib.pad(img, side, side))
  {
    if cfg.resize == "no" then Ok(img)
    else if cfg.resize !in LANDSCAPE_SIZES then Err(KeyError)
    else
      var size := TargetSize(cfg.resize, cfg.dpi, img.width, img.height);
      Ok(lib.unsharpMask(lib.pad(img, size.0, size.1)))
  }

  /**
   * run, from the grey image on: each stage consumes the previous stage's output. A run
   * that yields an image got past every check, and a failing run raises one of the stages'
   * own exceptions.
   */
  function Pipeline(cfg: Config, lib: Library, img: Image): (r: Result<Image>)
    ensures r.Ok? ==> && cfg.gamma != 0.0
                      && (cfg.blurRadius <= 0 || cfg.blur in BLEND_MODES)
                      && cfg.border <= 0.25
                      && (cfg.resize == "no" || cfg.resize in LANDSCAPE_SIZES)
    ensures r.Err? ==> r.error in {ZeroDivisionError, AssertionError, ValueError, KeyError}
  {
    var corrected :- GammaCorrect(lib.gammaCurve, cfg.gamma, img);
    var blended :- ApplyBlur(cfg, lib, corrected);
    var bordered :- BorderStage(cfg.border, blended);
    var fitted :- ResizePadding(cfg, lib, bordered);
    Ok(Negated(fitted))
  }

  /**
   * The settings that no stage rejects. A paper fit also needs a positive dpi: a target of
   * side 0 or below would make ImageOps.pad fail, which the uninterpreted `pad` does not show.
   */
  predicate Accepted(cfg: Config)
  {
    && cfg.gamma != 0.0
    && (cfg.blurRadius <= 0 || cfg.blur in BLEND_MODES)
    && 0.0 <= cfg.border <= 0.25
    && (cfg.resize == "no" || (cfg.resize in LANDSCAPE_SIZES && cfg.dpi > 0))
  }

  /**
   * With accepted settings the pipeline always produces an image, and any paper fit pads to
   * a positive square, whatever Pillow returns.
   */
  lemma AcceptedConfigSucceeds(cfg: Config, lib: Library, img: Image)
    requires Accepted(cfg)
    ensures Pipeline(cfg, lib, img).Ok?
    ensures cfg.resize != "no" ==> TargetSize(cfg.resize, cfg.dpi, img.width, img.height).0 >= 4
  {
    if cfg.resize != "no" {
      PaperTargetIsPositive(cfg.resize, cfg.dpi, img.width, img.height);
    }
    var corrected := GammaCorrect(lib.gammaCurve, cfg.gamma, img).value;
    var blended := ApplyBlur(cfg, lib, corrected).value;
    assert BorderStage(cfg.border, blended).Ok?;
  }

  /** The pipeline fails with the error of the first stage whose setting it rejects. */
  lemma FirstRejectedSettingFails(cfg: Config, lib: Library, img: Image)
    ensures cfg.gamma == 0.0 ==> Pipeline(cfg, lib, img) == Err(ZeroDivisionError)
    ensures cfg.gamma != 0.0 && cfg.blurRadius > 0 && cfg.blur !in BLEND_MODES ==>
              Pipeline(cfg, lib, img) == Err(AssertionError)
    ensures cfg.gamma != 0.0 && (cfg.blurRadius <= 0 || cfg.blur in BLEND_MODES) && cfg.border > 0.25 ==>
              Pipeline(cfg, lib, img) == Err(AssertionError)
    ensures cfg.gamma != 0.0 && (cfg.blurRadius <= 0 || cfg.blur in BLEND_MODES) && 0.0 <= cfg.border <= 0.25
            && cfg.resize != "no" && cfg.resize !in LANDSCAPE_SIZES ==>
              Pipeline(cfg, lib, img) == Err(KeyError)
  {
  }

  /** With every optional stage switched off, the run yields the plain negative of its input. */
  lemma StagesOffGivesNegative(cfg: Config, lib: Library, img: Image)
    requires cfg.gamma == 1.0 && cfg.blurRadius <= 0 && cfg.border == 0.0 && cfg.resize == "no"
    ensures Pipeline(cfg, lib, img) == Ok(Negated(img))
    ensures Negated(Pipeline(cfg, lib, img).value) == img
  {
    NegatedTwice(img);
  }

  /** The negative of a bordered image is the negative of the image inside a ring of 0. */
  lemma NegatedBordered(img: Image, xOff: int, yOff: int)
    requires img.width + 2 * xOff >= 0 && img.height + 2 * yOff >= 0
    ensures Negated(Bordered(img, xOff, yOff)) ==
            Paste(Filled(img.width + 2 * xOff, img.height + 2 * yOff, 0), Negated(img), xOff, yOff)
  {
    var b := Bordered(img, xOff, yOff);
    var lhs := Negated(b);
    var rhs := Paste(Filled(b.width, b.height, 0), Negated(img), xOff, yOff);
    forall x, y | 0 <= x < b.width && 0 <= y < b.height
      ensures lhs.cols[x][y] == rhs.cols[x][y]
    {
      var mx := b.width - 1 - x;
      assert InWindow(img, xOff, yOff, mx, y) <==> InWindow(Negated(img), xOff, yOff, x, y);
      if InWindow(img, xOff, yOff, mx, y) {
        assert img.width - 1 - (x - xOff) == mx - xOff;
      }
    }
    Extensionality(lhs, rhs);
  }

  /**
   * A 100 x 200 mid-grey (128) image with a 0.1 border and no other stage comes out
   * 120 x 240: offsets of 10 and 20 pixels, a black ring and a 127 interior.
   */
  lemma GreyWithBorderScenario(lib: Library)
    ensures var cfg := Config(0.1, "no", PRINTER_DPI, 1.0, "overlay", 0);
            var out := Pipeline(cfg, lib, Filled(100, 200, 128));
            && out.Ok? && out.value.width == 120 && out.value.height == 240
            && forall x, y :: 0 <= x < 120 && 0 <= y < 240 ==>
                 out.value.cols[x][y] == if 10 <= x < 110 && 20 <= y < 220 then 127 else 0
  {
    var cfg := Config(0.1, "no", PRINTER_DPI, 1.0, "overlay", 0);
    var img := Filled(100, 200, 128);
    assert BorderOffsets(0.1, 100, 200) == (10, 20);
    var out := Pipeline(cfg, lib, img);
    assert out == Ok(Negated(Bordered(img, 10, 20)));
    NegatedBordered(img, 10, 20);
  }
}
