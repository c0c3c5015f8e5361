# uvdriver: a Dafny model of the negative-printing scripts and the UV-lamp driver

The repository holds a few small tools for analog contact printing:

- `negative.py` turns a photograph into a mirrored, inverted negative. It runs five stages in order: gamma correction, a blend with a blurred copy of itself, a white border, a fit to a paper size, and the negative step.
- `gamma.py` is an earlier variant. With `--overlay` it overlays the image on itself. It then applies gamma and fits the image to A4: landscape when the bounding box of the non-black pixels reaches at least as far right as it reaches down (`right >= lower`), portrait otherwise. Finally it mirrors, inverts and colorizes.
- `wedge.py` draws a test wedge. This is a grid of grey cells with one row per grey level and one column per gamma value.
- `uvdriver.py` drives a UV lamp by PWM. Two buttons step a brightness level up and down between 0 and 8, and each level is written to the pin as duty cycle 2^level - 1.

The model has one module per script plus three shared modules:

- `Results` holds `Result`/`Option` and the Python exceptions the code can raise on its own inputs.
- `Rasters` holds 8-bit single-channel images (`Image`, indexed `cols[x][y]` as in Pillow). It also holds the exact integer operations the scripts use: a blank canvas (`Image.new`), `paste`, `ImageOps.mirror` and `ImageChops.invert`.
- `Correction` holds `gamma_correct`, which `negative.py` and `gamma.py` define identically.

The scripts are modelled as follows:

- **negative.py.**
  - The dispatching stages (`ApplyBlur`, `ResizePadding`, and `GammaCorrect` from `Correction`) and the size tables are functions.
  - `add_border` and `to_negative` are methods over `array2<Sample>` with nested copy loops. They are proved equal to the value-level specifications `BorderStage` and `Negated`.
  - `Pipeline` composes the stages in the order of `run`, and the lemmas about it state the stage order's consequences.
- **gamma.py.** This script is pure, so it is modelled with functions only.
- **wedge.py.**
  - The layout arithmetic is modelled with functions.
  - `run` is a method with loops. It records its drawing calls on a `Canvas` object, and the method is proved to produce exactly the list `Drawing(curve)`.
  - Lemmas about `Drawing` give the geometry: every rectangle on the canvas, row-major cell order, overlapping neighbours, label positions and 216 calls in all.
- **uvdriver.py.** The global `DC_LVL` becomes the `level` field of a `Driver` class. The pins' duty-cycle writes become an appended `duties` log, and the interrupt callbacks become sequential method calls.

Numbers are modelled this way:

- Float settings (border fraction, gamma, `MM2INCH`) are exact reals.
- Python's `int()` on a float is `Negative.Trunc`, which truncates toward zero.
- Every Pillow primitive that is not an exact integer map is a field of a `Library` datatype of function values and is left uninterpreted. This covers the gamma `ImageMath.eval`, `GaussianBlur`, `overlay`/`screen`/`multiply`, `ImageOps.pad`/`fit`/`colorize`, `UnsharpMask` and `getbbox`. Every result is therefore stated for whatever those primitives return.

Behaviour of the code worth knowing:

- **Border offset.** The offset is computed per axis: `int(border * width)` and `int(border * height)`.
- **Paper-fit table.** Paper-fit reads `LANDSCAPE_SIZES` in both orientation branches. Because `width_px` is assigned twice, the padded target is square, `(h_px, h_px)`, built from the paper's short side.
- **Gamma.** A gamma of exactly 0.0 fails (a `ZeroDivisionError` in `1.0 / gamma`). Negative gammas are handed to the uninterpreted curve.
- **Border fraction.** Fractions above 0.25 are rejected; negative fractions pass: down to -0.5 they crop the centre (`NegativeBorderCrops`). Below that, `Image.new` raises `ValueError` once `w + 2*int(f*w)` or `h + 2*int(f*h)` is negative.
- **A4 orientation.** In `resize_to_a4` the locals `width, height` hold the bounding box's right and lower edges, not its size. Content in the box (600, 0, 900, 800) is 300 wide and 800 tall, yet it gets the landscape size (`A4SizeUsesEdges`).
- **Blend modes.** The blur blend knows overlay, screen and multiply, and runs only when the blur radius is positive. Any other name trips `assert 1 == 2`.
- **Sharpening and TODOs.** Sharpening happens only inside paper-fit. The TODO list at negative.py:4-9 (unsharp mask settings, black and white remapping, colour cast, grey wedge, title) has no code behind it.

## Model

| member | source | states |
|---|---|---|
| Rasters.Filled | negative.py:71 | `Image.new` gives a raster of the requested size in which every sample is the fill colour |
| Rasters.Paste | negative.py:73 | the result has the canvas's size; inside the window at the offsets it holds the shifted image, elsewhere the canvas; the rest of the image is clipped |
| Rasters.Mirrored | negative.py:92 | the mirror keeps the size and holds `in[w-1-x][y]` at (x, y) |
| Rasters.Inverted | negative.py:93 | the inverse keeps the size and holds `255 - in[x][y]` at (x, y) |
| Rasters.Negated | negative.py:91-97 | the negative keeps the size and holds `255 - in[w-1-x][y]` at (x, y) |
| Rasters.NegatedTwice | negative.py:91-97 | taking the negative twice gives back the original raster |
| Rasters.MirroredTwice | negative.py:92 | mirroring left-right twice gives back the original raster |
| Rasters.InvertedTwice | negative.py:93 | inverting twice gives back the original raster |
| Rasters.MirrorInvertCommute | negative.py:92-93 | mirror-then-invert equals invert-then-mirror |
| Negative.Trunc | negative.py:66-67 | Python `int()` of a float: the integer toward zero within distance 1: non-negative for non-negative inputs and non-positive for non-positive ones |
| Correction.GammaCorrect | negative.py:40-46 | gamma 1.0 returns the input unchanged; gamma 0.0 raises ZeroDivisionError and nothing else fails; otherwise the curve with exponent 1/gamma (gamma.py:15-21 is the same function) |
| Negative.ApplyBlur | negative.py:48-59 | radius <= 0 is the identity; with a positive radius overlay/screen/multiply blend the image with its blurred copy, and any other mode fails with AssertionError (iff) |
| Negative.QuarterOf | negative.py:66-67 | a fraction in [0, 0.25] of a length is non-negative and at most a quarter of the length |
| Negative.HalfBelow | negative.py:66-67 | a fraction in [-0.5, 0] of a length is non-positive and at least minus half the length |
| Negative.WideningOffsetBounds | negative.py:66-67 | a fraction in [0, 0.25] gives an offset in [0, length/4] after truncation |
| Negative.NarrowingOffsetBounds | negative.py:66-67 | a fraction in [-0.5, 0) gives a non-positive offset that leaves the axis a non-negative length |
| Negative.BorderOffsets | negative.py:65-67 | the per-axis offsets are each bounded by a quarter of their own axis for accepted fractions |
| Negative.Bordered | negative.py:68-73 | the canvas is `w + 2*xOff` by `h + 2*yOff`; inside the pasted window it holds the input shifted by the offsets, elsewhere 255 |
| Negative.BorderStage | negative.py:61-74 | 0.0 is the identity; a fraction above 0.25 fails with AssertionError; every fraction in (0, 0.25] succeeds; success means the bordered raster for the per-axis offsets |
| Negative.BorderedShiftsInput | negative.py:68-73 | for non-negative offsets, input pixel (x, y) appears at (x + xOff, y + yOff) of the bordered canvas |
| Negative.SmallBorderSucceeds | negative.py:61-74 | every fraction in (0, 0.25] succeeds with non-negative offsets `floor(f*w)`, `floor(f*h)` and yields the bordered raster for them |
| Negative.BorderedKeepsInput | negative.py:65-73 | for 0 < f <= 0.25, the stage succeeds and input pixel (x, y) appears at (x + xOff, y + yOff) of its output |
| Negative.NegativeBorderCrops | negative.py:62-73 | an unchecked fraction in [-0.5, 0) still succeeds and yields a centre crop: no larger than the input, every pixel an input pixel |
| Negative.PasteInto | negative.py:73 | pasting in place changes the canvas to `Paste(old canvas, img, xOff, yOff)`: window pixels from the image, the rest unchanged, off-canvas pixels clipped |
| Negative.AddBorder | negative.py:61-74 | the array version returns the same array for 0.0 and otherwise fails or succeeds exactly as `BorderStage`, with contents equal to its result |
| Negative.Mirror | negative.py:92 | the new array holds the left-right mirror of the input |
| Negative.Invert | negative.py:93 | the new array holds `255 - s` for every input sample |
| Negative.ToNegative | negative.py:91-97 | the new array holds the negative (`Negated`) of the input |
| Negative.PaperMm | negative.py:81-84 | both orientation branches give `LANDSCAPE_SIZES[name]` |
| Negative.TargetSize | negative.py:79-87 | the padding target is square, with side `int(dpi * short_side_mm * MM2INCH)` |
| Negative.TargetSizesAt300Dpi | negative.py:85-87 | at 300 dpi the targets are 3507, 2480, 1748 and 1240 pixels square for a3..a6, whatever the image orientation |
| Negative.PortraitIsSwappedLandscape | negative.py:14-26 | both tables have the same names, and each portrait pair is the landscape pair swapped |
| Negative.ResizePadding | negative.py:76-89 | "no" is the identity; an unknown name fails with KeyError (iff); otherwise the image padded to the square target and then sharpened |
| Negative.Pipeline | negative.py:99-106 | the stages run in the order gamma, blur, border, paper fit, negative; an image comes out only when gamma != 0, the blend mode is known or the radius <= 0, the border <= 0.25 and the paper name is "no" or known; a failure is one of ZeroDivisionError, AssertionError, ValueError or KeyError |
| Negative.PaperTargetIsPositive | negative.py:85-88 | at any positive dpi every paper name gives a square target of side at least 4 |
| Negative.AcceptedConfigSucceeds | negative.py:99-106 | with gamma != 0, a known blend mode or radius <= 0, border in [0, 0.25] and either resize "no" or a known paper name with a positive dpi, the run always yields an image and any paper fit pads to a square of side at least 4 |
| Negative.FirstRejectedSettingFails | negative.py:102-105 | the run fails with the exception of the first stage, in run order, whose setting is rejected |
| Negative.StagesOffGivesNegative | negative.py:102-106 | with gamma 1.0, radius <= 0, border 0.0 and resize "no", the output is the negative of the input, and its negative is the input |
| Negative.NegatedBordered | negative.py:104-106 | the negative of a 255-bordered image is the negative of the image pasted at the same offsets on a 0-filled canvas |
| Negative.GreyWithBorderScenario | negative.py:102-106 | a 100x200 grey-128 input with border 0.1 and no other stage comes out 120x240, 127 inside [10,110)x[20,220) and 0 elsewhere |
| GammaScript.ApplyOverlay | gamma.py:23-30 | overlay off returns the input unchanged; overlay on returns overlay(img, img) |
| GammaScript.OverlayIgnoresBlur | gamma.py:26-30 | the blur argument never changes the result |
| GammaScript.A4Size | gamma.py:33-38 | (3543, 2362) exactly when right >= lower, otherwise (2362, 3543); the long side follows the larger bounding-box edge |
| GammaScript.A4SizeUsesEdges | gamma.py:33-35 | the orientation compares the box's right and lower edges: the box (600, 0, 900, 800), 300 wide and 800 tall, still gets the landscape size |
| GammaScript.A4SizesTransposed | gamma.py:4-5 | the two A4 sizes are transposes, the landscape one wider than tall |
| GammaScript.ResizeToA4 | gamma.py:32-40 | fails with TypeError exactly when getbbox gives None; otherwise fits to the A4 size chosen from the box, then sharpens |
| GammaScript.ToNegative | gamma.py:42-48 | colorize is applied to the negative of the input |
| GammaScript.ToNegativeInput | gamma.py:43-44 | before colorize the image keeps its size and holds `255 - in[w-1-x][y]` |
| GammaScript.Run | gamma.py:50-56 | overlay, gamma, A4 fit, negative in that order; a failure is ZeroDivisionError or TypeError only, success implies gamma != 0, and overlay off with gamma 1.0 and a bounding box always succeeds |
| GammaScript.PlainRun | gamma.py:50-56 | with overlay off and gamma 1.0 the run colorizes the negative of the sharpened A4 fit |
| GammaScript.RunFailures | gamma.py:50-56 | the run fails with ZeroDivisionError for gamma 0.0, and otherwise exactly when the image reaching resize_to_a4 has no bounding box |
| Wedge.Canvas.constructor | wedge.py:83-85 | a new canvas of the given size and background colour with no drawing calls yet |
| Wedge.Canvas.DrawRectangle | wedge.py:35 | records one rectangle call after all earlier calls |
| Wedge.Canvas.DrawText | wedge.py:55 | records one text call after all earlier calls |
| Wedge.GammaCorrect | wedge.py:74-80 | level 0 gives 0; otherwise gamma 0 gives the level unchanged; otherwise the curve at 1/gamma |
| Wedge.FrameCommand | wedge.py:29-35 | the frame is the white rectangle [0, 1000] x [0, 650] outlined black, the whole canvas |
| Wedge.HLabelCommand | wedge.py:51-55 | a black size-18 text of the row's name in the label column, inside the band of colour row `row`, on the canvas for every colour row |
| Wedge.VLabelCommand | wedge.py:57-62 | a black size-12 text of the column's name inside the band of gamma column `col`, in the bottom row, on the canvas for every gamma column |
| Wedge.CellCommand | wedge.py:64-70 | a rectangle from the cell's corner spanning 51 pixels each way, filled with the corrected level and outlined 128, on the canvas for every grid position |
| Wedge.Drawing | wedge.py:82-93 | 216 calls: the frame first, then 28 text labels, then 187 rectangles |
| Wedge.DrawFrame | wedge.py:29-35 | appends the frame rectangle |
| Wedge.DrawHLabel | wedge.py:51-55 | appends the label of one colour row |
| Wedge.DrawVLabel | wedge.py:57-62 | appends the label of one gamma column |
| Wedge.DrawCell | wedge.py:64-72 | appends the cell rectangle for (col, row) filled with the corrected level |
| Wedge.DrawRowLabels | wedge.py:87-88 | appends every row label in order |
| Wedge.DrawColumnLabels | wedge.py:89-90 | appends every column label in order |
| Wedge.DrawCellRow | wedge.py:92-93 | appends the 17 cells of one colour row, left to right |
| Wedge.Run | wedge.py:82-93 | the canvas is WIDTH x HEIGHT on a background of 255 and receives exactly `Drawing(curve)`: frame, row labels, column labels, then the cells row by row |
| Wedge.GridConstants | wedge.py:4-19 | NUM_ROWS = 13, NUM_COLS = 20, WIDTH = 1001, HEIGHT = 651, and both name lists match their value lists in length |
| Wedge.ColorLevels | wedge.py:5-6 | COLORS[i] = i*255/10, from 0 up to 255 and non-decreasing |
| Wedge.GammaColumns | wedge.py:7-13 | every gamma is positive, they increase strictly, 1.0 is the middle column, and opposite columns are reciprocal |
| Wedge.CellFills | wedge.py:64-80 | in run, a cell of the 0% row is filled with 0 and every other cell with the curve at 1/gamma |
| Wedge.CellRowsOnCanvas | wedge.py:64-70 | every cell run draws is a rectangle with 0 <= x1 < x2 < WIDTH and 0 <= y1 < y2 < HEIGHT |
| Wedge.DrawingOnCanvas | wedge.py:82-93 | every rectangle and every text anchor run draws lies on the canvas |
| Wedge.CellRowsLength | wedge.py:91-93 | n colour rows give 17n cells |
| Wedge.CellOrder | wedge.py:91-93 | cell (row, col) is call row*17 + col of the cell block, at grid position (col + 2, row + 1) |
| Wedge.NeighbouringCellsOverlap | wedge.py:66-69 | a cell's x2 (y2) is its right (lower) neighbour's x1 (y1) plus one, so no gap is left |
| Wedge.LabelPositions | wedge.py:51-62 | row label r is at (50, (r+1)*50 + 16) beside its cell row; column label c is at ((c+2)*50 + 12, 600), over its cell column and below every colour row |
| UvDriver.Pow2 | uvdriver.py:44 | `1 << lvl` is at least 1 |
| UvDriver.Pow2Increasing | uvdriver.py:44 | `1 << a` < `1 << b` whenever a < b |
| UvDriver.Pow2Bounds | uvdriver.py:44 | over levels 0..8, `1 << lvl` lies in [1, 256], is 1 only at level 0 and 256 only at level 8 |
| UvDriver.Duty | uvdriver.py:44 | `(1 << lvl) - 1` lies in [0, 255], is 0 exactly at level 0 and 255 exactly at level 8 |
| UvDriver.DutyRange | uvdriver.py:42-44 | duty cycles lie in [0, 255], increase strictly with the level, and are 0, 15 and 255 at levels 0, 4 and 8 |
| UvDriver.NextLevel | uvdriver.py:48-64 | one press moves the level one step, saturating: 8 stays 8 on increase and 0 stays 0 on decrease |
| UvDriver.LevelAfter | uvdriver.py:48-64 | after any sequence of presses the level stays within [0, 8] |
| UvDriver.IncreasesSaturate | uvdriver.py:51-54 | k increases from lvl reach min(lvl + k, 8) |
| UvDriver.DecreasesSaturate | uvdriver.py:60-63 | k decreases from lvl reach max(lvl - k, 0) |
| UvDriver.DutiesFollowLevels | uvdriver.py:55 | each press writes one duty cycle, every one of them is 2^l - 1 for some level l in [0, 8], and the last is the final level's |
| UvDriver.Driver.constructor | uvdriver.py:7 | the level starts at 4 with nothing written |
| UvDriver.Driver.SetDutyCycle | uvdriver.py:42-46 | requires 0 <= lvl <= 8 and writes `(1 << lvl) - 1` |
| UvDriver.Driver.StartPwm | uvdriver.py:36-37 | writes the current level's duty cycle |
| UvDriver.Driver.StopPwm | uvdriver.py:39-40 | writes 0 and leaves the level unchanged |
| UvDriver.Driver.IncreaseDcCallback | uvdriver.py:48-55 | requires the INCDUTY pin and a rising edge, raises the level with saturation at 8, and writes the new level's duty |
| UvDriver.Driver.DecreaseDcCallback | uvdriver.py:57-64 | requires the DECDUTY pin and a rising edge, lowers the level with saturation at 0, and writes the new level's duty |
| UvDriver.Session | uvdriver.py:66-72 | start, any sequence of presses, then teardown: the level is `LevelAfter(4, presses)` and the pin receives 15, one duty per press, then 0 |

## Left out

- Image loading, `convert('L')`, `show`, `save` and the argparse `main` blocks of the three image scripts: these are I/O. Every pipeline starts from the grey image.
- The Pillow primitives `ImageMath.eval` (the float gamma curve), `GaussianBlur`, `ImageChops.overlay/screen/multiply`, `ImageOps.pad/fit/colorize`, `UnsharpMask` and `getbbox` are uninterpreted function values. Nothing is proved about their pixels, including their sizes.
- Float rounding: border fractions, gamma and the mm-to-pixel product are exact reals. A float product that lands just below an integer, which exact arithmetic puts on it, can truncate one lower in the script. NaN and infinite settings are not modelled.
- `COLORS` is written as its eleven values. The float products `i / 10 * 255` for i in 0..10 truncate to these same integers, and `ColorLevels` proves they equal `i*255/10`.
- `GAMMA_NAMES` is written as its seventeen formatted strings rather than derived by `'%0.3f'` formatting.
- Text rendering and fonts in wedge.py, including `draw_text`, which `run` never calls. Rectangle rasterisation is also left out: the model records the drawing calls, not the pixels they paint.
- The unused `reverse_color` computed in `draw_cell` and the unused `black`/`white` locals of both `to_negative` methods are omitted, as is the unused `factor` of `resize_padding`. None of them affects a result.
- pigpio setup and teardown (pin modes, pull-ups, glitch filters, callback registration and cancellation), the sleep loop and the asynchronous callback threads. `Session` delivers presses one at a time between `start_pwm` and teardown's `stop_pwm`. The `print` in `set_dutycycle` is omitted.
- UvDriver.Driver.IncreaseDcCallback and UvDriver.Driver.DecreaseDcCallback require the driver's level to already lie in [0, 8]. This holds from the initial level 4 on, so the model does not cover the assertion failure a corrupted global would cause.
- Negative.ResizePadding: the Pillow primitives are taken not to raise, so `ImageOps.pad` failing on a target of side 0 or below (a dpi of 0 or less) is not modelled; `Accepted` asks for a positive dpi instead, and `PaperTargetIsPositive` shows that such a dpi gives a positive target.
- ui/vue.config.js is build configuration without logic.
