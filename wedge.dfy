/**
 * wedge.py: draws a test wedge, a grid of grey cells with one row per grey level and one
 * column per gamma value, each cell filled with its level gamma-corrected for its column.
 */
module Wedge {

  const CELL_SIZE := 50

  /** The grey levels int(i / 10 * 255) for i in 0..10. */
  const COLORS: seq<int> := [0, 25, 51, 76, 102, 127, 153, 178, 204, 229, 255]
  const COLOR_NAMES: seq<string> :=
    ["0%", "10%", "20%", "30%", "40%", "50%", "60%", "70%", "80%", "90%", "100%"]

  /** The gamma of each column, from 1/3 up to 3. */
  const GAMMAS: seq<real> := [
    1.0 / 3.00, 1.0 / 2.75, 1.0 / 2.50, 1.0 / 2.25,
    1.0 / 2.00, 1.0 / 1.75, 1.0 / 1.50, 1.0 / 1.25,
    1.0,
    1.25, 1.5, 1.75, 2.0,
    2.25, 2.5, 2.75, 3.0]

  /** Each gamma printed with three decimals under a "y = " line. */
  const GAMMA_NAMES: seq<string> := [
    "y = \n0.333", "y = \n0.364", "y = \n0.400", "y = \n0.444",
    "y = \n0.500", "y = \n0.571", "y = \n0.667", "y = \n0.800",
    "y = \n1.000",
    "y = \n1.250", "y = \n1.500", "y = \n1.750", "y = \n2.000",
    "y = \n2.250", "y = \n2.500", "y = \n2.750", "y = \n3.000"]

  /** A label row and a label column around the cells, plus one spare column. */
  const NUM_ROWS := |COLORS| + 2
  const NUM_COLS := |GAMMAS| + 2 + 1
  const WIDTH := CELL_SIZE * NUM_COLS + 1
  const HEIGHT := CELL_SIZE * NUM_ROWS + 1
  const FONT_SIZE := 18
  const VLABEL_FONT_SIZE := 12

  /** The grey level of the outline of every cell, and of "black". */
  const CELL_OUTLINE := 128
  const BLACK := 0

  /**
   * The drawing calls the script makes on its ImageDraw. A rectangle covers the pixels
   * x1..x2 and y1..y2, both ends included; text is placed with its corner at (x, y).
   */
  datatype Command =
    | Rectangle(x1: int, y1: int, x2: int, y2: int, fill: int, outline: int)
    | Text(x: int, y: int, text: string, fill: int, fontSize: int)

  /** The float expression int(((color / 255.0) ** inv_gamma) * 255), left uninterpreted. */
  type Curve = (int, real) -> int

  /** An image of one background colour together with the drawing calls made on it, oldest first. */
  class Canvas {
    const width: int
    const height: int
    const background: int
    var commands: seq<Command>

    /** Image.new('L', (width, height), color=background), with nothing drawn yet. */
    constructor (width: int, height: int, background: int)
      ensures this.width == width && this.height == height && this.background == background
      ensures commands == []
    {
      this.width := width;
      this.height := height;
      this.background := background;
      commands := [];
    }

    method DrawRectangle(x1: int, y1: int, x2: int, y2: int, fill: int, outline: int)
      modifies this
      ensures commands == old(commands) + [Rectangle(x1, y1, x2, y2, fill, outline)]
    {
      commands := commands + [Rectangle(x1, y1, x2, y2, fill, outline)];
    }

    method DrawText(x: int, y: int, text: string, fill: int, fontSize: int)
      modifies this
      ensures commands == old(commands) + [Text(x, y, text, fill, fontSize)]
    {
      commands := commands + [Text(x, y, text, fill, fontSize)];
    }
  }

  /** gamma_correct: level 0 stays 0, gamma 0 leaves the level as it is, otherwise the curve. */
  function GammaCorrect(curve: Curve, color: int, gamma: real): (gc: int)
    ensures color == 0 ==> gc == 0
    ensures color != 0 && gamma == 0.0 ==> gc == color
    ensures color != 0 && gamma != 0.0 ==> gc == curve(color, 1.0 / gamma)
  {
    if color == 0 then 0
    else if gamma == 0.0 then color
    else curve(color, 1.0 / gamma)
  }

  /** The frame draw_frame draws round the whole grid: white, outlined black, up to the canvas's last column and row. */
  function FrameCommand(): (c: Command)
    ensures c == Rectangle(0, 0, WIDTH - 1, HEIGHT - 1, 255, BLACK)
    ensures OnCanvas(c)
  {
    Rectangle(0, 0, NUM_COLS * CELL_SIZE, NUM_ROWS * CELL_SIZE, 255, BLACK)
  }

  /** The label draw_hlabel writes in front of colour row `row`: in the label column, inside that row's band. */
  function HLabelCommand(row: int, colorName: string): (c: Command)
    ensures c.Text? && c.text == colorName && c.fill == BLACK && c.fontSize == FONT_SIZE
    ensures c.x == CELL_SIZE && (row + 1) * CELL_SIZE <= c.y < (row + 2) * CELL_SIZE
    ensures 0 <= row < |COLORS| ==> OnCanvas(c)
  {
    Text(1 * CELL_SIZE, (row + 1) * CELL_SIZE + CELL_SIZE / 3, colorName, BLACK, FONT_SIZE)
  }

  /** The label draw_vlabel writes under gamma column `col`: inside that column's band, in the bottom row. */
  function VLabelCommand(col: int, gammaName: string): (c: Command)
    ensures c.Text? && c.text == gammaName && c.fill == BLACK && c.fontSize == VLABEL_FONT_SIZE
    ensures (col + 2) * CELL_SIZE <= c.x < (col + 3) * CELL_SIZE && c.y == (NUM_ROWS - 1) * CELL_SIZE
    ensures 0 <= col < |GAMMAS| ==> OnCanvas(c)
  {
    Text((col + 2) * CELL_SIZE + CELL_SIZE / 4, (NUM_ROWS - 1) * CELL_SIZE, gammaName, BLACK, VLABEL_FONT_SIZE)
  }

  /**
   * The square draw_cell draws for grid position (col, row): it starts at the cell's corner,
   * spans CELL_SIZE + 1 pixels each way, is filled with the corrected level and outlined in
   * grey, and lies on the canvas for every position of the colour grid.
   */
  function CellCommand(curve: Curve, col: int, row: int, color: int, gamma: real): (c: Command)
    ensures c.Rectangle? && c.x1 == col * CELL_SIZE && c.y1 == row * CELL_SIZE
    ensures c.x2 - c.x1 == CELL_SIZE + 1 && c.y2 - c.y1 == CELL_SIZE + 1
    ensures c.fill == GammaCorrect(curve, color, gamma) && c.outline == CELL_OUTLINE
    ensures 2 <= col < 2 + |GAMMAS| && 1 <= row < 1 + |COLORS| ==> OnCanvas(c)
  {
    Rectangle(col * CELL_SIZE, row * CELL_SIZE, col * CELL_SIZE + CELL_SIZE + 1, row * CELL_SIZE + CELL_SIZE + 1,
              GammaCorrect(curve, color, gamma), CELL_OUTLINE)
  }

  function HLabels(): seq<Command>
  {
    seq(|COLOR_NAMES|, row requires 0 <= row < |COLOR_NAMES| => HLabelCommand(row, COLOR_NAMES[row]))
  }

  function VLabels(): seq<Command>
  {
    seq(|GAMMA_NAMES|, col requires 0 <= col < |GAMMA_NAMES| => VLabelCommand(col, GAMMA_NAMES[col]))
  }

  /** The cells of colour row `row`, left to right. */
  function CellRow(curve: Curve, row: nat): seq<Command>
    requires row < |COLORS|
  {
    seq(|GAMMAS|, col requires 0 <= col < |GAMMAS| => CellCommand(curve, col + 2, row + 1, COLORS[row], GAMMAS[col]))
  }

  /** The cells of the first `n` colour rows, row by row. */
  function CellRows(curve: Curve, n: nat): seq<Command>
    requires n <= |COLORS|
  {
    if n == 0 then [] else CellRows(curve, n - 1) + CellRow(curve, n - 1)
  }

  /**
   * Everything run draws, in order: 216 calls, the frame first, then 11 + 17 labels, then
   * the 187 cells.
   */
  function Drawing(curve: Curve): (d: seq<Command>)
    ensures |d| == 1 + |COLORS| + |GAMMAS| + |COLORS| * |GAMMAS| == 216
    ensures d[0] == FrameCommand()
    ensures forall i :: 1 <= i < 1 + |COLORS| + |GAMMAS| ==> d[i].Text?
    ensures forall i :: 1 + |COLORS| + |GAMMAS| <= i < |d| ==> d[i].Rectangle?
  {
    CellRowsLength(curve, |COLORS|);
    CellRowsOnCanvas(curve, |COLORS|);
    [FrameCommand()] + HLabels() + VLabels() + CellRows(curve, |COLORS|)
  }

  method DrawFrame(canvas: Canvas)
    modifies canvas
    ensures canvas.commands == old(canvas.commands) + [FrameCommand()]
  {
    var x1, y1 := 0, 0;
    var x2 := NUM_COLS * CELL_SIZE;
    var y2 := NUM_ROWS * CELL_SIZE;
    canvas.DrawRectangle(x1, y1, x2, y2, 255, BLACK);
  }

  method DrawHLabel(canvas: Canvas, row: int, colorName: string)
    modifies canvas
    ensures canvas.commands == old(canvas.commands) + [HLabelCommand(row, colorName)]
  {
    var x1 := 1 * CELL_SIZE;
    var y1 := (row + 1) * CELL_SIZE + CELL_SIZE / 3;
    canvas.DrawText(x1, y1, colorName, BLACK, FONT_SIZE);
  }

  method DrawVLabel(canvas: Canvas, col: int, gammaName: string)
    modifies canvas
    ensures canvas.commands == old(canvas.commands) + [VLabelCommand(col, gammaName)]
  {
    var x1 := (col + 2) * CELL_SIZE + CELL_SIZE / 4;
    var y1 := (NUM_ROWS - 1) * CELL_SIZE;
    canvas.DrawText(x1, y1, gammaName, BLACK, VLABEL_FONT_SIZE);
  }

  method DrawCell(canvas: Canvas, curve: Curve, col: int, row: int, color: int, gamma: real)
    modifies canvas
    ensures canvas.commands == old(canvas.commands) + [CellCommand(curve, col, row, color, gamma)]
  {
    var gc := GammaCorrect(curve, color, gamma);
    var x1 := col * CELL_SIZE;
    var y1 := row * CELL_SIZE;
    var x2 := col * CELL_SIZE + CELL_SIZE + 1;
    var y2 := row * CELL_SIZE + CELL_SIZE + 1;
    canvas.DrawRectangle(x1, y1, x2, y2, gc, CELL_OUTLINE);
  }

  /** The first loop of run: one label per colour row. */
  method DrawRowLabels(canvas: Canvas)
    modifies canvas
    ensures canvas.commands == old(canvas.commands) + HLabels()
  {
    ghost var before := canvas.commands;
    for row := 0 to |COLOR_NAMES|
      invariant canvas.commands == before + HLabels()[..row]
    {
      DrawHLabel(canvas, row, COLOR_NAMES[row]);
      assert HLabels()[..row + 1] == HLabels()[..row] + [HLabels()[row]];
    }
    assert HLabels()[..|COLOR_NAMES|] == HLabels();
  }

  /** The second loop of run: one label per gamma column. */
  method DrawColumnLabels(canvas: Canvas)
    modifies canvas
    ensures canvas.commands == old(canvas.commands) + VLabels()
  {
    ghost var before := canvas.commands;
    for col := 0 to |GAMMA_NAMES|
      invariant canvas.commands == before + VLabels()[..col]
    {
      DrawVLabel(canvas, col, GAMMA_NAMES[col]);
      assert VLabels()[..col + 1] == VLabels()[..col] + [VLabels()[col]];
    }
    assert VLabels()[..|GAMMA_NAMES|] == VLabels();
  }

  /** The inner loop of run's third loop: the cells of one colour row. */
  method DrawCellRow(canvas: Canvas, curve: Curve, row: nat)
    requires row < |COLORS|
    modifies canvas
    ensures canvas.commands == old(canvas.commands) + CellRow(curve, row)
  {
    ghost var before := canvas.commands;
    for col := 0 to |GAMMAS|
      invariant canvas.commands == before + CellRow(curve, row)[..col]
    {
      DrawCell(canvas, curve, col + 2, row + 1, COLORS[row], GAMMAS[col]);
      assert CellRow(curve, row)[..col + 1] == CellRow(curve, row)[..col] + [CellRow(curve, row)[col]];
    }
    assert CellRow(curve, row)[..|GAMMAS|] == CellRow(curve, row);
  }

  /** run: a white WIDTH x HEIGHT canvas, the frame, the row labels, the column labels, the cells. */
  method Run(curve: Curve) returns (canvas: Canvas)
    ensures canvas.width == WIDTH && canvas.height == HEIGHT && canvas.background == 255
    ensures canvas.commands == Drawing(curve)
  {
    canvas := new Canvas(WIDTH, HEIGHT, 255);
    DrawFrame(canvas);
    DrawRowLabels(canvas);
    DrawColumnLabels(canvas);
    ghost var labelled := canvas.commands;
    for row := 0 to |COLORS|
      invariant canvas.width == WIDTH && canvas.height == HEIGHT && canvas.background == 255
      invariant canvas.commands == labelled + CellRows(curve, row)
    {
      DrawCellRow(canvas, curve, row);
    }
  }

  /** The grid is 13 rows by 20 columns of 50-pixel cells on a 1001 x 651 canvas. */
  lemma GridConstants()
    ensures NUM_ROWS == 13 && NUM_COLS == 20 && WIDTH == 1001 && HEIGHT == 651
    ensures |COLOR_NAMES| == |COLORS| == 11 && |GAMMA_NAMES| == |GAMMAS| == 17
  {
  }

  /** COLORS[i] is i * 255 / 10, truncated: non-decreasing from black to white. */
  lemma ColorLevels()
    ensures forall i :: 0 <= i < |COLORS| ==> COLORS[i] == i * 255 / 10
    ensures COLORS[0] == 0 && COLORS[|COLORS| - 1] == 255
    ensures forall i, j :: 0 <= i <= j < |COLORS| ==> COLORS[i] <= COLORS[j]
  {
    forall i | 0 <= i < |COLORS|
      ensures COLORS[i] == i * 255 / 10
    {
      if i == 0 {} else if i == 1 {} else if i == 2 {} else if i == 3 {} else if i == 4 {}
      else if i == 5 {} else if i == 6 {} else if i == 7 {} else if i == 8 {} else if i == 9 {}
    }
    forall i, j | 0 <= i <= j < |COLORS|
      ensures COLORS[i] <= COLORS[j]
    {
      assert i * 255 <= j * 255;
    }
  }

  /** The gammas are positive and increasing, 1.0 sits in the middle, and opposite columns are reciprocal. */
  lemma GammaColumns()
    ensures forall i :: 0 <= i < |GAMMAS| ==> GAMMAS[i] > 0.0
    ensures GAMMAS[|GAMMAS| / 2] == 1.0
    ensures forall i :: 0 <= i < |GAMMAS| ==> GAMMAS[i] * GAMMAS[|GAMMAS| - 1 - i] == 1.0
    ensures forall i :: 0 <= i < |GAMMAS| - 1 ==> GAMMAS[i] < GAMMAS[i + 1]
  {
  }

  /** In run every gamma is non-zero, so only the level-0 special case of gamma_correct applies. */
  lemma CellFills(curve: Curve, row: nat, col: nat)
    requires row < |COLORS| && col < |GAMMAS|
    ensures CellRow(curve, row)[col].fill ==
            if row == 0 then 0 else curve(COLORS[row], 1.0 / GAMMAS[col])
  {
    GammaColumns();
  }

  /** Does every pixel the command touches (for text: its anchor) lie on the canvas? */
  predicate OnCanvas(c: Command)
  {
    match c
    case Rectangle(x1, y1, x2, y2, _, _) => 0 <= x1 < x2 < WIDTH && 0 <= y1 < y2 < HEIGHT
    case Text(x, y, _, _, _) => 0 <= x < WIDTH && 0 <= y < HEIGHT
  }

  /** The cells of the first n colour rows all lie on the canvas. */
  lemma {:induction false} CellRowsOnCanvas(curve: Curve, n: nat)
    requires n <= |COLORS|
    ensures forall c :: c in CellRows(curve, n) ==> c.Rectangle? && OnCanvas(c)
  {
    if n > 0 {
      CellRowsOnCanvas(curve, n - 1);
      forall c | c in CellRow(curve, n - 1)
        ensures c.Rectangle? && OnCanvas(c)
      {
        var col :| 0 <= col < |GAMMAS| && CellRow(curve, n - 1)[col] == c;
      }
    }
  }

  /** Everything run draws lies on the canvas. */
  lemma DrawingOnCanvas(curve: Curve)
    ensures forall c :: c in Drawing(curve) ==> OnCanvas(c)
  {
    CellRowsOnCanvas(curve, |COLORS|);
    forall c | c in HLabels() ensures OnCanvas(c) {
      var row :| 0 <= row < |COLOR_NAMES| && HLabels()[row] == c;
    }
    forall c | c in VLabels() ensures OnCanvas(c) {
      var col :| 0 <= col < |GAMMA_NAMES| && VLabels()[col] == c;
    }
  }

  lemma {:induction false} CellRowsLength(curve: Curve, n: nat)
    requires n <= |COLORS|
    ensures |CellRows(curve, n)| == n * 17
  {
    if n > 0 {
      CellRowsLength(curve, n - 1);
    }
  }

  /** The cells come row by row: cell (row, col) is command row * 17 + col of the cell block. */
  lemma {:induction false} CellOrder(curve: Curve, n: nat, row: nat, col: nat)
    requires n <= |COLORS| && row < n && col < |GAMMAS|
    ensures row * 17 + col < |CellRows(curve, n)|
    ensures CellRows(curve, n)[row * 17 + col] == CellCommand(curve, col + 2, row + 1, COLORS[row], GAMMAS[col])
  {
    CellRowsLength(curve, n - 1);
    if row < n - 1 {
      CellOrder(curve, n - 1, row, col);
    } else {
      assert row * 17 + col == |CellRows(curve, n - 1)| + col;
    }
  }

  /**
   * Neighbouring cells leave no gap: each cell's last column (row) is the column (row) after
   * its right (lower) neighbour's first, so outlines overlap by two pixels.
   */
  lemma NeighbouringCellsOverlap(curve: Curve, col: int, row: int, color: int, gamma: real, color': int, gamma': real)
    ensures var c := CellCommand(curve, col, row, color, gamma);
            var right := CellCommand(curve, col + 1, row, color', gamma');
            var below := CellCommand(curve, col, row + 1, color', gamma');
            && c.x1 < right.x1 && c.x2 == right.x1 + 1 && c.y1 == right.y1 && c.y2 == right.y2
            && c.y1 < below.y1 && c.y2 == below.y1 + 1 && c.x1 == below.x1 && c.x2 == below.x2
  {
  }

  /**
   * Row label r sits in the label column, inside the band of colour row r; column label c
   * sits inside the band of gamma column c, in the bottom row below every colour row.
   */
  lemma LabelPositions(curve: Curve, row: nat, col: nat)
    requires row < |COLORS| && col < |GAMMAS|
    ensures HLabels()[row] == Text(CELL_SIZE, (row + 1) * CELL_SIZE + 16, COLOR_NAMES[row], BLACK, FONT_SIZE)
    ensures VLabels()[col] == Text((col + 2) * CELL_SIZE + 12, 600, GAMMA_NAMES[col], BLACK, VLABEL_FONT_SIZE)
    ensures var cell := CellRow(curve, row)[col];
            && cell.y1 <= HLabels()[row].y < cell.y2 && HLabels()[row].x < cell.x1
            && cell.x1 <= VLabels()[col].x < cell.x2 && cell.y1 + CELL_SIZE <= VLabels()[col].y
  {
  }
}
