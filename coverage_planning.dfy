/** Coverage planning: from the calibrated slide and focus, measure the
    camera's field of view by moving the stage a known distance, lay a
    row-major grid of overlapping images over the slide, and visit a few of
    the grid's positions as a test. */
module CoveragePlanning {
  import opened Wrappers
  import opened Faults
  import opened Numeric
  import opened Grid
  import opened Raster
  import opened PrinterInterface
  import opened CameraInterface
  import opened Hardware
  import Slides = SlidePositionCalibration
  import Focus = FocusCalibration

  // ---------------------------------------------------------------------
  // Image displacement

  /** A peak index of a circular correlation over `dim` samples read as a
      signed shift: indices past the middle stand for negative shifts. */
  function Unwrap(p: int, dim: int): (d: int)
    ensures 0 <= p < dim ==> (d == p || d == p - dim) && -dim < 2 * d <= dim
  {
    if p > dim / 2 then p - dim else p
  }

  /** Every shift of less than half the length in either direction is read
      back from its index modulo the length. */
  lemma UnwrapRecovers(d: int, dim: int)
    requires -dim < 2 * d <= dim
    ensures Unwrap(d % dim, dim) == d
  {
    if d >= 0 {
      assert d % dim == d;
    } else {
      assert d % dim == d + dim;
    }
  }

  /** `calculate_image_displacement`: the `(row, column)` correlation peak of
      images of `height` rows and `width` columns, as an `(x, y)` shift. The
      peak itself (grayscale conversion, FFT, argmax) is an oracle. */
  function Displacement(peak: (int, int), height: int, width: int): (int, int) {
    (Unwrap(peak.1, width), Unwrap(peak.0, height))
  }

  /** When the peak sits at the true shift `(dx, dy)` taken modulo the image
      size, the displacement is that shift, x first. */
  lemma DisplacementRecovers(dx: int, dy: int, height: int, width: int)
    requires -width < 2 * dx <= width && -height < 2 * dy <= height
    ensures Displacement((dy % height, dx % width), height, width) == (dx, dy)
  {
    UnwrapRecovers(dx, width);
    UnwrapRecovers(dy, height);
  }

  // ---------------------------------------------------------------------
  // Field of view

  /** The stage move, in millimetres, whose image shift gives the scale. */
  const MoveDistance: real := 5.0

  /** The field of view in millimetres (numpy floats, so possibly infinite),
      the two scales and the reported resolution. */
  datatype FieldOfView = FieldOfView(widthMm: Float64, heightMm: Float64, ppmX: real, ppmY: real, pixelWidth: int, pixelHeight: int)

  /** Pixels per millimetre from the pixel shift one move produced. */
  function PixelsPerMm(shift: int): (ppm: real)
    ensures ppm >= 0.0 && ppm * MoveDistance == Abs(shift as real)
    ensures ppm == 0.0 <==> shift == 0
  {
    Abs(shift as real) / MoveDistance
  }

  /** The field of view from the reported resolution and the two scales. The
      scales are numpy floats, so a zero one makes the length on its axis
      infinite (NaN for zero pixels) instead of raising. A missing
      resolution is Python's TypeError. */
  function FieldFrom(width: Option<int>, height: Option<int>, ppmX: real, ppmY: real): (r: Result<FieldOfView, Fault>)
    ensures r.Ok? <==> width.Some? && height.Some?
    ensures r.Err? ==> r.error == TypeMismatch
    ensures r.Ok? ==> (r.value.widthMm.Finite? <==> ppmX != 0.0) && (r.value.heightMm.Finite? <==> ppmY != 0.0)
    ensures r.Ok? && ppmX != 0.0 ==> r.value.widthMm.v * ppmX == width.value as real
    ensures r.Ok? && ppmY != 0.0 ==> r.value.heightMm.v * ppmY == height.value as real
    ensures r.Ok? && ppmX == 0.0 && width.value > 0 ==> r.value.widthMm == Infinity(false)
    ensures r.Ok? && ppmY == 0.0 && height.value > 0 ==> r.value.heightMm == Infinity(false)
    ensures r.Ok? ==> r.value.ppmX == ppmX && r.value.ppmY == ppmY
    ensures r.Ok? ==> r.value.pixelWidth == width.value && r.value.pixelHeight == height.value
  {
    if width.None? || height.None? then Err(TypeMismatch)
    else Ok(FieldOfView(Quotient(width.value as real, Finite(ppmX)), Quotient(height.value as real, Finite(ppmY)),
                        ppmX, ppmY, width.value, height.value))
  }

  /** What `measure_field_of_view` computes from the reported resolution and
      its three frames: the X scale from the first moved frame's x shift, the
      Y scale from the second's y shift. */
  function Measured(width: Option<int>, height: Option<int>, reference: Frame, movedX: Frame, movedY: Frame,
                    peak: (Frame, Frame) -> (int, int)): Result<FieldOfView, Fault>
  {
    var shiftX := Displacement(peak(reference, movedX), reference.Height(), reference.Width());
    var shiftY := Displacement(peak(reference, movedY), reference.Height(), reference.Width());
    FieldFrom(width, height, PixelsPerMm(shiftX.0), PixelsPerMm(shiftY.1))
  }

  /** When both peaks sit at the true image shifts `sx` and `sy`, the field of
      view is the resolution scaled by MoveDistance over those shifts. */
  lemma MeasuredFromShifts(width: int, height: int, reference: Frame, movedX: Frame, movedY: Frame,
                           peak: (Frame, Frame) -> (int, int), sx: int, sy: int)
    requires -(reference.Width() as int) < 2 * sx <= reference.Width() && sx != 0
    requires -(reference.Height() as int) < 2 * sy <= reference.Height() && sy != 0
    requires peak(reference, movedX).1 == sx % reference.Width()
    requires peak(reference, movedY).0 == sy % reference.Height()
    ensures Measured(Some(width), Some(height), reference, movedX, movedY, peak).Ok?
    ensures var fov := Measured(Some(width), Some(height), reference, movedX, movedY, peak).value;
      && fov.ppmX * MoveDistance == Abs(sx as real) && fov.ppmY * MoveDistance == Abs(sy as real)
      && fov.widthMm.Finite? && fov.heightMm.Finite?
      && fov.widthMm.v * Abs(sx as real) == width as real * MoveDistance
      && fov.heightMm.v * Abs(sy as real) == height as real * MoveDistance
  {
    UnwrapRecovers(sx, reference.Width());
    UnwrapRecovers(sy, reference.Height());
    var fov := Measured(Some(width), Some(height), reference, movedX, movedY, peak).value;
    ScaleBack(fov.widthMm.v, fov.ppmX, width as real, Abs(sx as real));
    ScaleBack(fov.heightMm.v, fov.ppmY, height as real, Abs(sy as real));
  }

  /** A length of `pixels / ppm` millimetres, with `ppm` the shift over the
      move distance, is the pixels scaled by the move over the shift. */
  lemma ScaleBack(mm: real, ppm: real, pixels: real, shift: real)
    requires mm * ppm == pixels && ppm * MoveDistance == shift
    ensures mm * shift == pixels * MoveDistance
  {
    assert mm * (ppm * MoveDistance) == (mm * ppm) * MoveDistance;
  }

  /** The four relative moves: +X, back, +Y, back. */
  const FovScript: seq<Command> :=
    RelativeScript(MoveDistance, 0.0, 0.0, DefaultFeedrate) + RelativeScript(-MoveDistance, 0.0, 0.0, DefaultFeedrate)
    + RelativeScript(0.0, MoveDistance, 0.0, DefaultFeedrate) + RelativeScript(0.0, -MoveDistance, 0.0, DefaultFeedrate)

  lemma FovScriptParts(sent: seq<Command>)
    ensures sent + RelativeScript(MoveDistance, 0.0, 0.0, DefaultFeedrate) + RelativeScript(-MoveDistance, 0.0, 0.0, DefaultFeedrate)
            + RelativeScript(0.0, MoveDistance, 0.0, DefaultFeedrate) + RelativeScript(0.0, -MoveDistance, 0.0, DefaultFeedrate)
         == sent + FovScript
  {
  }

  // ---------------------------------------------------------------------
  // Scan pattern

  datatype ScanPosition = ScanPosition(x: real, y: real, z: real, gridX: nat, gridY: nat)

  /** A grid of finite steps: counts per axis, steps, the first image centre
      and the height. */
  datatype Layout = Layout(nx: int, ny: int, stepX: real, stepY: real, startX: real, startY: real, z: real)

  datatype ScanPattern = ScanPattern(positions: seq<ScanPosition>, gridSizeX: int, gridSizeY: int,
                                     stepX: Float64, stepY: Float64, overlapPercent: real, totalImages: nat,
                                     fov: FieldOfView, slideWidth: real, slideHeight: real)

  /** The fraction of a field of view each step advances. */
  function OverlapFactor(overlap: real): real {
    (100.0 - overlap) / 100.0
  }

  /** The distance between neighbouring image centres along an axis whose
      field of view is `field`. */
  function Step(field: Float64, overlap: real): Float64 {
    Scale(field, OverlapFactor(overlap))
  }

  /** The first image centre of `n` images `step` apart centred on `center`. */
  function Start(center: real, n: int, step: real): real {
    center - (n - 1) as real * step / 2.0
  }

  /** `int(np.ceil(dim / step))`: the images along one axis. A zero step
      divides to an infinity (NaN over a zero length) that int() refuses; an
      infinite step leaves no image on the axis. */
  function AxisCount(dim: real, step: Float64): (r: Result<int, Fault>)
    ensures r.Err? <==> step.NaN? || step == Finite(0.0)
    ensures step == Finite(0.0) ==> r == Err(if dim == 0.0 then NotANumber else Overflow)
    ensures step.NaN? ==> r == Err(NotANumber)
    ensures step.Infinity? ==> r == Ok(0)
    ensures step.Finite? && step.v != 0.0 ==> r == Ok(Ceil(dim / step.v))
  {
    IntCeil(Quotient(dim, step))
  }

  /** The counts and first centres for finite nonzero steps. */
  function LayoutFor(slide: Slides.SlideRecord, focus: Focus.FocusRecord, stepX: real, stepY: real): Layout
    requires stepX != 0.0 && stepY != 0.0
  {
    var nx := Ceil(slide.width / stepX);
    var ny := Ceil(slide.height / stepY);
    Layout(nx, ny, stepX, stepY, Start(slide.centerX, nx, stepX), Start(slide.centerY, ny, stepY), focus.optimalZ)
  }

  /** The image of grid cell `(column, row)`. */
  function CellPosition(l: Layout, ix: nat, iy: nat): ScanPosition {
    ScanPosition(l.startX + ix as real * l.stepX, l.startY + iy as real * l.stepY, l.z, ix, iy)
  }

  function Placed(l: Layout, cells: seq<Cell>): (ps: seq<ScanPosition>)
    ensures |ps| == |cells| && forall k :: 0 <= k < |cells| ==> ps[k] == CellPosition(l, cells[k].0, cells[k].1)
  {
    seq(|cells|, k requires 0 <= k < |cells| => CellPosition(l, cells[k].0, cells[k].1))
  }

  lemma PlacedSnoc(l: Layout, cells: seq<Cell>, c: Cell)
    ensures Placed(l, cells + [c]) == Placed(l, cells) + [CellPosition(l, c.0, c.1)]
  {
  }

  /** One more column of row `i`. */
  lemma RowExtend(l: Layout, cols: nat, i: nat, j: nat)
    requires j < cols
    ensures Placed(l, RowMajor(cols, i) + Row(cols, i)[..j + 1]) ==
            Placed(l, RowMajor(cols, i) + Row(cols, i)[..j]) +
            [CellPosition(l, j, i)]
  {
    var row := Row(cols, i);
    var before := RowMajor(cols, i) + row[..j];
    assert row[..j + 1] == row[..j] + [(j, i)];
    assert RowMajor(cols, i) + row[..j + 1] == before + [(j, i)];
    PlacedSnoc(l, before, (j, i));
  }

  /** The pattern of a layout: every cell of the grid in row-major order (no
      cell at all when a count is not positive). */
  function PatternOf(l: Layout, slide: Slides.SlideRecord, fov: FieldOfView, overlap: real): ScanPattern {
    var positions := Placed(l, RowMajor(NatPart(l.nx), NatPart(l.ny)));
    ScanPattern(positions, l.nx, l.ny, Finite(l.stepX), Finite(l.stepY), overlap, |positions|, fov, slide.width, slide.height)
  }

  /** The pattern `calculate_scan_pattern` returns: the counts are computed
      X first, and a count that int() refuses raises. An infinite step counts
      no image on its axis, so the nested loops add no position at all. */
  function PlanPattern(slide: Slides.SlideRecord, focus: Focus.FocusRecord, fov: FieldOfView, overlap: real): Result<ScanPattern, Fault> {
    var stepX := Step(fov.widthMm, overlap);
    var stepY := Step(fov.heightMm, overlap);
    var nx :- AxisCount(slide.width, stepX);
    var ny :- AxisCount(slide.height, stepY);
    if stepX.Finite? && stepY.Finite? then Ok(PatternOf(LayoutFor(slide, focus, stepX.v, stepY.v), slide, fov, overlap))
    else Ok(ScanPattern([], nx, ny, stepX, stepY, overlap, 0, fov, slide.width, slide.height))
  }

  /** Planning fails exactly when one axis's count does, the X axis first. */
  lemma PlanPatternFails(slide: Slides.SlideRecord, focus: Focus.FocusRecord, fov: FieldOfView, overlap: real)
    ensures var cx := AxisCount(slide.width, Step(fov.widthMm, overlap));
      var cy := AxisCount(slide.height, Step(fov.heightMm, overlap));
      && (PlanPattern(slide, focus, fov, overlap).Err? <==> cx.Err? || cy.Err?)
      && (cx.Err? ==> PlanPattern(slide, focus, fov, overlap) == Err(cx.error))
      && (cx.Ok? && cy.Err? ==> PlanPattern(slide, focus, fov, overlap) == Err(cy.error))
  {
  }

  /** With both steps finite, the pattern is the one of their layout. */
  lemma PlannedFinite(slide: Slides.SlideRecord, focus: Focus.FocusRecord, fov: FieldOfView, overlap: real)
    requires Step(fov.widthMm, overlap).Finite? && Step(fov.widthMm, overlap).v != 0.0
    requires Step(fov.heightMm, overlap).Finite? && Step(fov.heightMm, overlap).v != 0.0
    ensures PlanPattern(slide, focus, fov, overlap)
         == Ok(PatternOf(LayoutFor(slide, focus, Step(fov.widthMm, overlap).v, Step(fov.heightMm, overlap).v), slide, fov, overlap))
  {
  }

  /** A planned pattern with an infinite step has no image: the count of
      that axis is zero. */
  lemma PatternUnbounded(slide: Slides.SlideRecord, focus: Focus.FocusRecord, fov: FieldOfView, overlap: real, p: ScanPattern)
    requires PlanPattern(slide, focus, fov, overlap) == Ok(p)
    requires !p.stepX.Finite? || !p.stepY.Finite?
    ensures p.positions == [] && p.totalImages == 0
    ensures !p.stepX.Finite? ==> p.gridSizeX == 0
    ensures p.stepX.Finite? ==> p.gridSizeY == 0
  {
  }

  /** The layout behind a planned pattern with at least one image per axis:
      its steps are finite. */
  lemma LayoutOf(slide: Slides.SlideRecord, focus: Focus.FocusRecord, fov: FieldOfView, overlap: real, p: ScanPattern)
      returns (l: Layout)
    requires PlanPattern(slide, focus, fov, overlap) == Ok(p)
    requires p.gridSizeX >= 1 && p.gridSizeY >= 1
    ensures p == PatternOf(l, slide, fov, overlap)
    ensures p.stepX == Finite(l.stepX) && p.stepY == Finite(l.stepY)
    ensures l.z == focus.optimalZ
    ensures l.startX == Start(slide.centerX, p.gridSizeX, l.stepX) && l.startY == Start(slide.centerY, p.gridSizeY, l.stepY)
  {
    if !p.stepX.Finite? || !p.stepY.Finite? {
      PatternUnbounded(slide, focus, fov, overlap, p);
    }
    var stepX, stepY := Step(fov.widthMm, overlap), Step(fov.heightMm, overlap);
    l := LayoutFor(slide, focus, stepX.v, stepY.v);
  }

  /** In the pattern of a layout, image `i * gridSizeX + j` is the one of
      column `j` and row `i`. */
  lemma CellAt(l: Layout, slide: Slides.SlideRecord, fov: FieldOfView, overlap: real, p: ScanPattern, i: nat, j: nat)
    requires p == PatternOf(l, slide, fov, overlap)
    requires j < p.gridSizeX && i < p.gridSizeY
    ensures p.totalImages == |p.positions| == p.gridSizeX * p.gridSizeY
    ensures 0 <= i * p.gridSizeX + j < |p.positions|
    ensures p.positions[i * p.gridSizeX + j] == ScanPosition(l.startX + j as real * l.stepX, l.startY + i as real * l.stepY, l.z, j, i)
  {
    var cols, rows := NatPart(l.nx), NatPart(l.ny);
    var cells := RowMajor(cols, rows);
    RowMajorAt(cols, rows, j, i);
    var k := i * cols + j;
    assert cells[k] == (j, i);
    assert p.positions == Placed(l, cells);
    assert p.positions[k] == CellPosition(l, j, i);
  }

  /** Image `i * gridSizeX + j` is the one of column `j` and row `i`, the
      columns `stepX` and the rows `stepY` apart from a first centre placed so
      that the grid is centred, and the grid has `gridSizeX * gridSizeY`
      images. */
  lemma PatternAt(slide: Slides.SlideRecord, focus: Focus.FocusRecord, fov: FieldOfView, overlap: real,
                  p: ScanPattern, i: nat, j: nat)
    requires PlanPattern(slide, focus, fov, overlap) == Ok(p)
    requires j < p.gridSizeX && i < p.gridSizeY
    ensures p.stepX.Finite? && p.stepY.Finite?
    ensures p.totalImages == |p.positions| == p.gridSizeX * p.gridSizeY
    ensures 0 <= i * p.gridSizeX + j < |p.positions|
    ensures p.positions[i * p.gridSizeX + j] ==
            ScanPosition(Start(slide.centerX, p.gridSizeX, p.stepX.v) + j as real * p.stepX.v,
                         Start(slide.centerY, p.gridSizeY, p.stepY.v) + i as real * p.stepY.v,
                         focus.optimalZ, j, i)
  {
    var l := LayoutOf(slide, focus, fov, overlap, p);
    CellAt(l, slide, fov, overlap, p, i, j);
    var sx, sy := p.stepX.v, p.stepY.v;
    assert sx == l.stepX && sy == l.stepY;
    assert Start(slide.centerX, p.gridSizeX, sx) == l.startX && Start(slide.centerY, p.gridSizeY, sy) == l.startY;
    assert j as real * sx == j as real * l.stepX && i as real * sy == i as real * l.stepY;
  }

  /** The grid is centred on the slide: the first and last columns, and the
      first and last rows, are symmetric about the slide centre. */
  lemma PatternCentred(slide: Slides.SlideRecord, focus: Focus.FocusRecord, fov: FieldOfView, overlap: real, p: ScanPattern)
    requires PlanPattern(slide, focus, fov, overlap) == Ok(p)
    requires p.gridSizeX >= 1 && p.gridSizeY >= 1
    ensures |p.positions| == p.gridSizeX * p.gridSizeY >= p.gridSizeX
    ensures p.positions[0].x + p.positions[p.gridSizeX - 1].x == 2.0 * slide.centerX
    // the last row starts `gridSizeX` images before the end
    ensures p.positions[0].y + p.positions[|p.positions| - p.gridSizeX].y == 2.0 * slide.centerY
  {
    var l := LayoutOf(slide, focus, fov, overlap, p);
    LayoutCentred(l, slide, fov, overlap, p);
  }

  /** The same for the pattern of a layout whose first centres are placed by `Start`. */
  lemma LayoutCentred(l: Layout, slide: Slides.SlideRecord, fov: FieldOfView, overlap: real, p: ScanPattern)
    requires p == PatternOf(l, slide, fov, overlap)
    requires l.startX == Start(slide.centerX, l.nx, l.stepX) && l.startY == Start(slide.centerY, l.ny, l.stepY)
    requires l.nx >= 1 && l.ny >= 1
    ensures |p.positions| == p.gridSizeX * p.gridSizeY >= p.gridSizeX
    ensures p.positions[0].x + p.positions[p.gridSizeX - 1].x == 2.0 * slide.centerX
    ensures p.positions[0].y + p.positions[|p.positions| - p.gridSizeX].y == 2.0 * slide.centerY
  {
    var nx, ny := l.nx, l.ny;
    CellAt(l, slide, fov, overlap, p, 0, 0);
    CellAt(l, slide, fov, overlap, p, 0, nx - 1);
    CellAt(l, slide, fov, overlap, p, ny - 1, 0);
    var first, right, bottom := p.positions[0 * nx + 0], p.positions[0 * nx + (nx - 1)], p.positions[(ny - 1) * nx + 0];
    EndsCentred(first.x, right.x, slide.centerX, nx, l.stepX);
    EndsCentred(first.y, bottom.y, slide.centerY, ny, l.stepY);
    LastRow(nx, ny);
  }

  /** The first and the last of `n` centres `step` apart from `Start` are
      symmetric about `center`. */
  lemma EndsCentred(first: real, last: real, center: real, n: int, step: real)
    requires first == Start(center, n, step) + 0 as real * step
    requires last == Start(center, n, step) + (n - 1) as real * step
    ensures first + last == 2.0 * center
  {
    SpanCentred(center, n, step);
  }

  lemma SpanCentred(center: real, n: int, step: real)
    ensures Start(center, n, step) + (Start(center, n, step) + (n - 1) as real * step) == 2.0 * center
  {
  }

  /** Along one axis: `n = ceil(dim / step)` images of width `fov`, a step
      `0 < step <= fov` apart and centred on `center`, reach past both edges
      of the slide, and one image fewer would not span it. */
  lemma AxisCovers(center: real, dim: real, fov: real, step: real, n: int)
    requires 0.0 < step <= fov && n == Ceil(dim / step)
    ensures n as real * step >= dim && (n - 1) as real * step < dim
    ensures Start(center, n, step) - fov / 2.0 <= center - dim / 2.0
    ensures Start(center, n, step) + (n - 1) as real * step + fov / 2.0 >= center + dim / 2.0
  {
    CeilCovers(dim, step);
    var span := (n - 1) as real * step;
    assert n as real * step == span + step;
  }

  /** An overlap in [0, 100) of a positive field gives a positive step no
      longer than the field, the two sharing `overlap` percent of it. */
  lemma StepBounds(field: real, overlap: real)
    requires 0.0 <= overlap < 100.0 && field > 0.0
    ensures Step(Finite(field), overlap).Finite?
    ensures 0.0 < Step(Finite(field), overlap).v <= field
    ensures field - Step(Finite(field), overlap).v == field * overlap / 100.0
  {
    var factor := OverlapFactor(overlap);
    assert 0.0 < factor <= 1.0;
    MulStrict(0.0, factor, field);
    MulMonotone(factor, 1.0, field);
    assert factor * field == field * factor;
  }

  /** The step and count of each axis of a planned pattern. */
  lemma PatternAxes(slide: Slides.SlideRecord, focus: Focus.FocusRecord, fov: FieldOfView, overlap: real, p: ScanPattern)
    requires PlanPattern(slide, focus, fov, overlap) == Ok(p)
    ensures p.stepX == Step(fov.widthMm, overlap) && AxisCount(slide.width, p.stepX) == Ok(p.gridSizeX)
    ensures p.stepY == Step(fov.heightMm, overlap) && AxisCount(slide.height, p.stepY) == Ok(p.gridSizeY)
  {
  }

  /** With an overlap in [0, 100), a positive finite field of view always
      yields a pattern. */
  lemma PlanPatternDefined(slide: Slides.SlideRecord, focus: Focus.FocusRecord, fov: FieldOfView, overlap: real)
    requires 0.0 <= overlap < 100.0 && Positive(fov.widthMm) && Positive(fov.heightMm)
    ensures PlanPattern(slide, focus, fov, overlap).Ok?
  {
    StepBounds(fov.widthMm.v, overlap);
    StepBounds(fov.heightMm.v, overlap);
  }

  /** One axis of a plan is sound: a positive step no longer than the field,
      neighbouring images sharing `overlap` percent of the field, and the
      fewest images whose fields reach both edges of the slide. */
  predicate AxisCovered(center: real, dim: real, field: real, overlap: real, step: real, n: int) {
    && 0.0 < step <= field && field - step == field * overlap / 100.0
    && n as real * step >= dim && (n - 1) as real * step < dim
    && Start(center, n, step) - field / 2.0 <= center - dim / 2.0
    && Start(center, n, step) + (n - 1) as real * step + field / 2.0 >= center + dim / 2.0
  }

  /** With an overlap in [0, 100) and a positive finite field of view, both
      axes of the planned grid cover the slide. */
  lemma PatternCoversSlide(slide: Slides.SlideRecord, focus: Focus.FocusRecord, fov: FieldOfView, overlap: real, p: ScanPattern)
    requires 0.0 <= overlap < 100.0 && Positive(fov.widthMm) && Positive(fov.heightMm)
    requires PlanPattern(slide, focus, fov, overlap) == Ok(p)
    ensures p.stepX.Finite? && p.stepY.Finite?
    ensures AxisCovered(slide.centerX, slide.width, fov.widthMm.v, overlap, p.stepX.v, p.gridSizeX)
    ensures AxisCovered(slide.centerY, slide.height, fov.heightMm.v, overlap, p.stepY.v, p.gridSizeY)
  {
    PatternAxes(slide, focus, fov, overlap, p);
    AxisPlan(slide.centerX, slide.width, fov.widthMm.v, overlap, p.stepX.v, p.gridSizeX);
    AxisPlan(slide.centerY, slide.height, fov.heightMm.v, overlap, p.stepY.v, p.gridSizeY);
  }

  /** One axis of the plan: the step and count `calculate_scan_pattern`
      derives from a field and an overlap cover the slide along that axis. */
  lemma AxisPlan(center: real, dim: real, field: real, overlap: real, step: real, n: int)
    requires 0.0 <= overlap < 100.0 && field > 0.0
    requires Finite(step) == Step(Finite(field), overlap) && Ok(n) == AxisCount(dim, Finite(step))
    ensures AxisCovered(center, dim, field, overlap, step, n)
  {
    StepBounds(field, overlap);
    AxisCovers(center, dim, field, step, n);
  }

  // ---------------------------------------------------------------------
  // Test positions

  /** Python's `s[:n]`. */
  function PrefixTo<T>(s: seq<T>, n: int): (p: seq<T>)
    ensures p <= s
    ensures 0 <= n ==> |p| == if n < |s| then n else |s|
    ensures n < 0 ==> |p| == if -n < |s| then |s| + n else 0
  {
    if 0 <= n then s[..if n < |s| then n else |s|]
    else s[..if -n < |s| then |s| + n else 0]
  }

  /** Python's `s[k]`: a negative index counts from the end; any other index
      outside the list is an IndexError. */
  function PyIndex<T>(s: seq<T>, k: int): (r: Result<T, Fault>)
    ensures r.Ok? <==> -|s| <= k < |s|
    ensures 0 <= k < |s| ==> r == Ok(s[k])
    ensures -|s| <= k < 0 ==> r == Ok(s[|s| + k])
    ensures r.Err? ==> r.error == IndexError
  {
    if 0 <= k < |s| then Ok(s[k])
    else if -|s| <= k < 0 then Ok(s[|s| + k])
    else Err(IndexError)
  }

  /** `test_indices[:n]` of `test_scan_pattern`: the four corners for at least
      four tests, else the first, middle and last images. */
  function TestIndices(gridX: int, total: nat, n: int): seq<int> {
    PrefixTo(if n >= 4 then [0, gridX - 1, total - 1, total - gridX] else [0, total / 2, total - 1], n)
  }

  predicate InRange<T>(s: seq<T>, idxs: seq<int>) {
    forall m :: 0 <= m < |idxs| ==> -|s| <= idxs[m] < |s|
  }

  /** The images the test visits, in order. */
  function Picks(positions: seq<ScanPosition>, idxs: seq<int>): (ps: seq<ScanPosition>)
    requires InRange(positions, idxs)
    ensures |ps| == |idxs| && forall m :: 0 <= m < |idxs| ==> Ok(ps[m]) == PyIndex(positions, idxs[m])
  {
    seq(|idxs|, m requires 0 <= m < |idxs| => PyIndex(positions, idxs[m]).value)
  }

  /** The absolute move to one test image. */
  function Stop(p: ScanPosition): Command {
    LinearMove(DefaultFeedrate, AbsoluteWords(Some(p.x), Some(p.y), Some(p.z)))
  }

  function Tour(ps: seq<ScanPosition>): (cs: seq<Command>)
    ensures |cs| == |ps| && forall m :: 0 <= m < |ps| ==> cs[m] == Stop(ps[m])
  {
    seq(|ps|, m requires 0 <= m < |ps| => Stop(ps[m]))
  }

  lemma TourStep(positions: seq<ScanPosition>, idxs: seq<int>, k: nat)
    requires k < |idxs| && InRange(positions, idxs[..k]) && -|positions| <= idxs[k] < |positions|
    ensures InRange(positions, idxs[..k + 1])
    ensures Tour(Picks(positions, idxs[..k + 1])) ==
            Tour(Picks(positions, idxs[..k])) + [Stop(PyIndex(positions, idxs[k]).value)]
  {
    assert forall m :: 0 <= m < k ==> idxs[..k + 1][m] == idxs[..k][m];
  }

  /** On a planned grid of at least one row and column, four tests visit the
      four corner images, in the order bottom-left, bottom-right, top-right,
      top-left. */
  lemma TestCorners(slide: Slides.SlideRecord, focus: Focus.FocusRecord, fov: FieldOfView, overlap: real,
                    p: ScanPattern, n: int)
    requires PlanPattern(slide, focus, fov, overlap) == Ok(p)
    requires p.gridSizeX >= 1 && p.gridSizeY >= 1 && n >= 4
    ensures InRange(p.positions, TestIndices(p.gridSizeX, |p.positions|, n))
    ensures var ps := Picks(p.positions, TestIndices(p.gridSizeX, |p.positions|, n));
      && |ps| == 4
      && ps[0].gridX == 0 && ps[0].gridY == 0
      && ps[1].gridX == p.gridSizeX - 1 && ps[1].gridY == 0
      && ps[2].gridX == p.gridSizeX - 1 && ps[2].gridY == p.gridSizeY - 1
      && ps[3].gridX == 0 && ps[3].gridY == p.gridSizeY - 1
  {
    var l := LayoutOf(slide, focus, fov, overlap, p);
    var nx, ny := p.gridSizeX, p.gridSizeY;
    CellAt(l, slide, fov, overlap, p, 0, 0);
    CellAt(l, slide, fov, overlap, p, 0, nx - 1);
    CellAt(l, slide, fov, overlap, p, ny - 1, nx - 1);
    CellAt(l, slide, fov, overlap, p, ny - 1, 0);
    LastRow(nx, ny);
    CornerPicks(p.positions, nx, n);
  }

  /** Four tests on an `nx` by `ny` grid visit its corner images. */
  lemma CornerPicks(positions: seq<ScanPosition>, nx: int, n: int)
    requires 1 <= nx <= |positions| && n >= 4
    ensures InRange(positions, TestIndices(nx, |positions|, n))
    ensures Picks(positions, TestIndices(nx, |positions|, n)) ==
            [positions[0], positions[nx - 1], positions[|positions| - 1], positions[|positions| - nx]]
  {
    var idxs := TestIndices(nx, |positions|, n);
    assert idxs == [0, nx - 1, |positions| - 1, |positions| - nx];
    assert InRange(positions, idxs);
    var ps := Picks(positions, idxs);
    assert ps[0] == positions[0] && ps[1] == positions[nx - 1];
    assert ps[2] == positions[|positions| - 1] && ps[3] == positions[|positions| - nx];
  }

  /** The last row of an `nx` by `ny` grid starts `nx` images before its end. */
  lemma LastRow(nx: int, ny: int)
    requires nx >= 1 && ny >= 1
    ensures (ny - 1) * nx == nx * ny - nx >= 0
  {
    assert (ny - 1) * nx >= 0;
  }

  /** Fewer than four tests on a nonempty pattern visit a prefix of the
      first, middle and last images. */
  lemma TestFew(positions: seq<ScanPosition>, gridX: int, n: int)
    requires |positions| >= 1 && 0 <= n < 4
    ensures var idxs := TestIndices(gridX, |positions|, n);
      && InRange(positions, idxs)
      && Picks(positions, idxs) == [positions[0], positions[|positions| / 2], positions[|positions| - 1]][..n]
  {
  }

  /** An empty pattern (a non-positive count on an axis) fails its first test
      with an IndexError. */
  lemma TestEmpty(positions: seq<ScanPosition>, gridX: int, n: int)
    requires positions == [] && n >= 1
    ensures !InRange(positions, TestIndices(gridX, 0, n))
  {
    assert TestIndices(gridX, 0, n)[0] == 0;
  }

  /** A camera of positive width whose X move showed no shift has an
      infinitely wide field; planned with the run's 25 percent overlap its
      grid has no column, so the first test image is an IndexError. */
  lemma ZeroShiftEmptiesGrid(slide: Slides.SlideRecord, focus: Focus.FocusRecord, width: int, height: int, ppmY: real,
                             p: ScanPattern)
    requires width > 0
    requires PlanPattern(slide, focus, FieldFrom(Some(width), Some(height), PixelsPerMm(0), ppmY).value, PlanningOverlap) == Ok(p)
    ensures p.stepX == Infinity(false) && p.gridSizeX == 0 && p.positions == []
    ensures !InRange(p.positions, TestIndices(p.gridSizeX, |p.positions|, PlanningTests))
  {
    var fov := FieldFrom(Some(width), Some(height), PixelsPerMm(0), ppmY).value;
    assert fov.widthMm == Infinity(false);
    PatternAxes(slide, focus, fov, PlanningOverlap, p);
    PatternUnbounded(slide, focus, fov, PlanningOverlap, p);
    TestEmpty(p.positions, p.gridSizeX, PlanningTests);
  }

  // ---------------------------------------------------------------------
  // The planner

  /** Homing, then the absolute move to the slide centre at the focus height. */
  function PlanningSetup(slide: Slides.SlideRecord, focus: Focus.FocusRecord): seq<Command> {
    [Home, LinearMove(DefaultFeedrate, AbsoluteWords(Some(slide.centerX), Some(slide.centerY), Some(focus.optimalZ)))]
  }

  /** What `save_scan_configuration` writes, less its date and notes. */
  datatype ScanConfiguration = ScanConfiguration(pattern: ScanPattern, slide: Slides.SlideRecord, focus: Focus.FocusRecord)

  /** The overlap and the number of tests `run_planning` asks for. */
  const PlanningOverlap: real := 25.0
  const PlanningTests: int := 4

  class CoveragePlanner {
    const printer: Printer
    const camera: Camera
    var slide: Option<Slides.SlideRecord>
    var focus: Option<Focus.FocusRecord>
    var fieldOfView: Option<FieldOfView>

    constructor (printer: Printer, camera: Camera)
      ensures this.printer == printer && this.camera == camera
      ensures slide == None && focus == None && fieldOfView == None
    {
      this.printer := printer;
      this.camera := camera;
      slide := None;
      focus := None;
      fieldOfView := None;
    }

    /** `load_calibration_data`: the slide record, then the focus record; a
        missing one is an error, and a loaded slide record stays loaded. */
    method LoadCalibrationData(storedSlide: Option<Slides.SlideRecord>, storedFocus: Option<Focus.FocusRecord>)
      returns (r: Outcome<Fault>)
      modifies this`slide, this`focus
      ensures storedSlide.None? ==> r == Fail(SlideNotCalibrated) && slide == old(slide) && focus == old(focus)
      ensures storedSlide.Some? && storedFocus.None? ==> r == Fail(FocusNotCalibrated) && slide == storedSlide && focus == old(focus)
      ensures storedSlide.Some? && storedFocus.Some? ==> r == Pass && slide == storedSlide && focus == storedFocus
    {
      if storedSlide.None? {
        return Fail(SlideNotCalibrated);
      }
      slide := storedSlide;
      if storedFocus.None? {
        return Fail(FocusNotCalibrated);
      }
      focus := storedFocus;
      return Pass;
    }

    /** `setup_positioning`: home, then go to the slide centre at the focus height. */
    method SetupPositioning() returns (r: Outcome<Fault>)
      requires slide.Some? && focus.Some?
      modifies printer`sent, printer`replies, printer`position
      ensures !printer.connected ==> r == Fail(PrinterNotConnected) && printer.sent == old(printer.sent)
      ensures r.Pass? ==>
        && printer.sent == old(printer.sent) + PlanningSetup(slide.value, focus.value)
        && printer.position == Position(slide.value.centerX, slide.value.centerY, focus.value.optimalZ)
      ensures printer.sent <= old(printer.sent) + PlanningSetup(slide.value, focus.value)
    {
      r := printer.HomePrinter();
      if r.Fail? {
        return;
      }
      r := printer.MoveToPosition(Some(slide.value.centerX), Some(slide.value.centerY), Some(focus.value.optimalZ), DefaultFeedrate);
    }

    /** One planar relative move of `measure_field_of_view`. */
    method Nudge(dx: real, dy: real) returns (r: Outcome<Fault>)
      modifies printer`sent, printer`replies, printer`position
      ensures !printer.connected ==> r == Fail(PrinterNotConnected) && printer.sent == old(printer.sent)
      ensures r.Pass? ==>
        && printer.sent == old(printer.sent) + RelativeScript(dx, dy, 0.0, DefaultFeedrate)
        && printer.position == Shift(old(printer.position), dx, dy, 0.0)
      ensures printer.sent <= old(printer.sent) + RelativeScript(dx, dy, 0.0, DefaultFeedrate)
      ensures printer.connected && Acknowledges(old(printer.replies), 3) ==>
        r.Pass? && printer.replies == old(printer.replies)[3..]
    {
      if Acknowledges(printer.replies, 3) {
        ExchangeAcknowledged(printer.replies, 3);
      }
      r := printer.MoveRelative(dx, dy, 0.0, DefaultFeedrate);
      if printer.connected {
        var k := Exchange(old(printer.replies), 3).0;
        Slides.PrefixOfPrefix(old(printer.sent), RelativeScript(dx, dy, 0.0, DefaultFeedrate), k);
      }
    }

    /** A relative move in the plane, then a frame. */
    method CaptureAfter(dx: real, dy: real) returns (r: Result<Frame, Fault>)
      modifies camera`feed, printer`sent, printer`replies, printer`position
      ensures r.Ok? ==>
        && printer.sent == old(printer.sent) + RelativeScript(dx, dy, 0.0, DefaultFeedrate)
        && printer.position == Shift(old(printer.position), dx, dy, 0.0)
        && old(camera.feed) != [] && old(camera.feed)[0] == Some(r.value) && camera.feed == old(camera.feed)[1..]
      ensures printer.connected && camera.isConnected && Acknowledges(old(printer.replies), 3) && Delivers(old(camera.feed), 1) ==>
        r.Ok? && printer.replies == old(printer.replies)[3..]
    {
      var moved := Nudge(dx, dy);
      if moved.Fail? {
        return Err(moved.error);
      }
      r := camera.CaptureFrame();
    }

    /** One axis of `measure_field_of_view`: move out, capture, move back. */
    method Excursion(dx: real, dy: real) returns (r: Result<Frame, Fault>)
      modifies camera`feed, printer`sent, printer`replies, printer`position
      ensures r.Ok? ==>
        && printer.sent == old(printer.sent) + RelativeScript(dx, dy, 0.0, DefaultFeedrate) + RelativeScript(-dx, -dy, 0.0, DefaultFeedrate)
        && printer.position == old(printer.position)
        && old(camera.feed) != [] && old(camera.feed)[0] == Some(r.value) && camera.feed == old(camera.feed)[1..]
      ensures printer.connected && camera.isConnected && Acknowledges(old(printer.replies), 6) && Delivers(old(camera.feed), 1) ==>
        r.Ok? && printer.replies == old(printer.replies)[6..]
    {
      ghost var replies0 := printer.replies;
      ghost var coop := printer.connected && camera.isConnected && Acknowledges(replies0, 6) && Delivers(camera.feed, 1);
      if coop {
        AcknowledgesWithin(replies0, 6, 3, 3);
        assert replies0[3..][3..] == replies0[6..];
      }
      r := CaptureAfter(dx, dy);
      if r.Err? {
        assert !coop;
        return;
      }
      var back := Nudge(-dx, -dy);
      if back.Fail? {
        assert !coop;
        return Err(back.error);
      }
      ShiftInverse(old(printer.position), dx, dy, 0.0);
    }

    /** The device half of `measure_field_of_view`: a reference frame, then an
        excursion along +X and one along +Y, each with its frame. */
    method Observe() returns (r: Result<(Frame, Frame, Frame), Fault>)
      modifies camera`feed, printer`sent, printer`replies, printer`position
      ensures !camera.isConnected ==> r == Err(CameraNotConnected) && printer.sent == old(printer.sent)
      ensures r.Ok? ==>
        && |old(camera.feed)| >= 3 && camera.feed == old(camera.feed)[3..]
        && old(camera.feed)[0] == Some(r.value.0) && old(camera.feed)[1] == Some(r.value.1) && old(camera.feed)[2] == Some(r.value.2)
        && printer.sent == old(printer.sent) + FovScript && printer.position == old(printer.position)
      ensures printer.connected && camera.isConnected && Acknowledges(old(printer.replies), 12) && Delivers(old(camera.feed), 3) ==>
        r.Ok? && printer.replies == old(printer.replies)[12..]
    {
      ghost var replies0 := printer.replies;
      ghost var coop := printer.connected && camera.isConnected && Acknowledges(replies0, 12) && Delivers(camera.feed, 3);
      if coop {
        DeliversWithin(camera.feed, 3, 1, 1);
        DeliversWithin(camera.feed, 3, 2, 1);
        AcknowledgesWithin(replies0, 12, 6, 6);
        assert replies0[6..][6..] == replies0[12..];
      }
      var reference :- camera.CaptureFrame();
      ghost var feed1 := camera.feed;
      var movedX :- Excursion(MoveDistance, 0.0);
      ghost var feed2 := camera.feed;
      var movedY :- Excursion(0.0, MoveDistance);
      FovScriptParts(old(printer.sent));
      assert feed1 == old(camera.feed)[1..] && feed2 == feed1[1..];
      return Ok((reference, movedX, movedY));
    }

    /** `measure_field_of_view`: a reference frame, a frame after +X, one
        after +Y, the stage returned each time; the scale on each axis is the
        pixel shift over MoveDistance. A zero shift gives an infinite field,
        which is stored and returned like any other. */
    method MeasureFieldOfView(peak: (Frame, Frame) -> (int, int)) returns (r: Result<FieldOfView, Fault>)
      modifies camera`feed, printer`sent, printer`replies, printer`position, this`fieldOfView
      ensures !camera.isConnected ==> r == Err(CameraNotConnected) && printer.sent == old(printer.sent)
      ensures r.Ok? ==>
        && |old(camera.feed)| >= 3
        && old(camera.feed)[0].Some? && old(camera.feed)[1].Some? && old(camera.feed)[2].Some?
        && camera.feed == old(camera.feed)[3..]
        && r == Measured(camera.frameWidth, camera.frameHeight, old(camera.feed)[0].value,
                         old(camera.feed)[1].value, old(camera.feed)[2].value, peak)
      ensures r.Ok? ==> printer.sent == old(printer.sent) + FovScript && printer.position == old(printer.position)
      ensures r.Ok? ==> fieldOfView == Some(r.value)
      ensures r.Err? ==> fieldOfView == old(fieldOfView)
      ensures printer.connected && camera.isConnected && Acknowledges(old(printer.replies), 12) && Delivers(old(camera.feed), 3) ==>
        && r == Measured(camera.frameWidth, camera.frameHeight, old(camera.feed)[0].value,
                         old(camera.feed)[1].value, old(camera.feed)[2].value, peak)
        && printer.replies == old(printer.replies)[12..]
    {
      var frames :- Observe();
      var (reference, movedX, movedY) := frames;
      var info := camera.GetCameraInfo();
      var width, height := info.value.width, info.value.height;
      var shiftX := Displacement(peak(reference, movedX), reference.Height(), reference.Width());
      var ppmX := PixelsPerMm(shiftX.0);
      var shiftY := Displacement(peak(reference, movedY), reference.Height(), reference.Width());
      var ppmY := PixelsPerMm(shiftY.1);
      var fov :- FieldFrom(width, height, ppmX, ppmY);
      fieldOfView := Some(fov);
      return Ok(fov);
    }

    /** `calculate_scan_pattern`: the nested loops append the image of column
        `j` of row `i` for every row, then every column. */
    method CalculateScanPattern(overlap: real) returns (r: Result<ScanPattern, Fault>)
      requires slide.Some? && focus.Some? && fieldOfView.Some?
      ensures r == PlanPattern(slide.value, focus.value, fieldOfView.value, overlap)
    {
      var s, fov := slide.value, fieldOfView.value;
      var stepX := Step(fov.widthMm, overlap);
      var stepY := Step(fov.heightMm, overlap);
      var nx :- AxisCount(s.width, stepX);
      var ny :- AxisCount(s.height, stepY);
      var cols, rows := NatPart(nx), NatPart(ny);
      var positions: seq<ScanPosition> := [];
      if !stepX.Finite? || !stepY.Finite? {
        // an infinite step has a count of zero: `range` over its axis is empty
        assert cols == 0 || rows == 0;
        return Ok(ScanPattern(positions, nx, ny, stepX, stepY, overlap, |positions|, fov, s.width, s.height));
      }
      var startX := Start(s.centerX, nx, stepX.v);
      var startY := Start(s.centerY, ny, stepY.v);
      ghost var l := LayoutFor(s, focus.value, stepX.v, stepY.v);
      PlannedFinite(s, focus.value, fov, overlap);
      ghost var plan := PatternOf(l, s, fov, overlap);
      for i := 0 to rows
        invariant positions == Placed(l, RowMajor(cols, i))
      {
        for j := 0 to cols
          invariant positions == Placed(l, RowMajor(cols, i) + Row(cols, i)[..j])
        {
          var x := startX + j as real * stepX.v;
          var y := startY + i as real * stepY.v;
          RowExtend(l, cols, i, j);
          assert ScanPosition(x, y, focus.value.optimalZ, j, i) == CellPosition(l, j, i);
          positions := positions + [ScanPosition(x, y, focus.value.optimalZ, j, i)];
        }
        assert Row(cols, i)[..cols] == Row(cols, i);
      }
      assert positions == plan.positions;
      return Ok(ScanPattern(positions, nx, ny, stepX, stepY, overlap, |positions|, fov, s.width, s.height));
    }

    /** One test of `test_scan_pattern`: move to the image, then capture it. */
    method VisitImage(pos: ScanPosition) returns (r: Result<Frame, Fault>)
      modifies camera`feed, printer`sent, printer`replies, printer`position
      ensures r.Ok? ==> printer.sent == old(printer.sent) + [Stop(pos)]
      ensures r.Ok? ==> old(camera.feed) != [] && camera.feed == old(camera.feed)[1..] && old(camera.feed)[0] == Some(r.value)
      ensures printer.connected && camera.isConnected && Acknowledges(old(printer.replies), 1) && Delivers(old(camera.feed), 1) ==>
        r.Ok? && printer.replies == old(printer.replies)[1..]
    {
      if Acknowledges(printer.replies, 1) {
        AwaitAccepted(printer.replies);
      }
      var moved := printer.MoveToPosition(Some(pos.x), Some(pos.y), Some(pos.z), DefaultFeedrate);
      if moved.Fail? {
        return Err(moved.error);
      }
      r := camera.CaptureFrame();
    }

    /** `test_scan_pattern`: for each selected index, move to that image and
        capture it; an index outside the list fails at its turn. */
    method TestScanPattern(pattern: ScanPattern, n: int) returns (r: Result<seq<Frame>, Fault>)
      modifies camera`feed, printer`sent, printer`replies, printer`position
      ensures r.Ok? ==>
        var idxs := TestIndices(pattern.gridSizeX, |pattern.positions|, n);
        && InRange(pattern.positions, idxs)
        && printer.sent == old(printer.sent) + Tour(Picks(pattern.positions, idxs))
        && |r.value| == |idxs| <= |old(camera.feed)|
        && camera.feed == old(camera.feed)[|idxs|..]
        && (forall m :: 0 <= m < |idxs| ==> old(camera.feed)[m] == Some(r.value[m]))
      ensures var idxs := TestIndices(pattern.gridSizeX, |pattern.positions|, n);
        printer.connected && camera.isConnected && InRange(pattern.positions, idxs)
        && Acknowledges(old(printer.replies), |idxs|) && Delivers(old(camera.feed), |idxs|) ==>
          r.Ok? && printer.replies == old(printer.replies)[|idxs|..]
    {
      var idxs := TestIndices(pattern.gridSizeX, |pattern.positions|, n);
      ghost var replies0 := printer.replies;
      ghost var coop := printer.connected && camera.isConnected && InRange(pattern.positions, idxs)
                        && Acknowledges(replies0, |idxs|) && Delivers(camera.feed, |idxs|);
      var frames: seq<Frame> := [];
      for k := 0 to |idxs|
        invariant InRange(pattern.positions, idxs[..k])
        invariant printer.sent == old(printer.sent) + Tour(Picks(pattern.positions, idxs[..k]))
        invariant |frames| == k <= |old(camera.feed)|
        invariant camera.feed == old(camera.feed)[k..]
        invariant forall m :: 0 <= m < k ==> old(camera.feed)[m] == Some(frames[m])
        invariant coop ==> printer.replies == replies0[k..]
      {
        if coop {
          CooperatesAt(replies0, old(camera.feed), |idxs|, k);
        }
        var pos := PyIndex(pattern.positions, idxs[k]);
        if pos.Err? {
          assert !coop;
          return Err(pos.error);
        }
        var frame := VisitImage(pos.value);
        if frame.Err? {
          assert !coop;
          return Err(frame.error);
        }
        TourStep(pattern.positions, idxs, k);
        frames := frames + [frame.value];
      }
      assert idxs[..|idxs|] == idxs;
      return Ok(frames);
    }

    /** The body of `run_planning`'s `try`: load, connect, position, measure,
        plan with a 25 percent overlap, test four images. */
    method RunConnected(storedSlide: Option<Slides.SlideRecord>, storedFocus: Option<Focus.FocusRecord>, w: Wiring,
                        peak: (Frame, Frame) -> (int, int))
      returns (r: Result<(ScanConfiguration, seq<Frame>), Fault>)
      modifies this`slide, this`focus, this`fieldOfView, printer`connected, printer`sent, printer`replies, printer`position
      modifies camera`hasCapture, camera`isConnected, camera`frameWidth, camera`frameHeight, camera`feed
      ensures storedSlide.None? ==> r == Err(SlideNotCalibrated)
      ensures storedSlide.Some? && storedFocus.None? ==> r == Err(FocusNotCalibrated)
      ensures r.Ok? ==> w.discovered.Some? && w.printerOpens && w.cameraOpens
      ensures r.Ok? ==>
        var (config, frames) := r.value;
        && storedSlide == Some(config.slide) && storedFocus == Some(config.focus)
        && |old(camera.feed)| >= 3 + |frames|
        && old(camera.feed)[0].Some? && old(camera.feed)[1].Some? && old(camera.feed)[2].Some?
        && var fov := Measured(Some(w.width), Some(w.height), old(camera.feed)[0].value,
                               old(camera.feed)[1].value, old(camera.feed)[2].value, peak);
        && fov.Ok?
        && PlanPattern(config.slide, config.focus, fov.value, PlanningOverlap) == Ok(config.pattern)
        && var idxs := TestIndices(config.pattern.gridSizeX, |config.pattern.positions|, PlanningTests);
        && |frames| == |idxs| == 4
        && InRange(config.pattern.positions, idxs)
        && printer.sent == old(printer.sent) + PlanningSetup(config.slide, config.focus) + FovScript
                           + Tour(Picks(config.pattern.positions, idxs))
    {
      var loaded := LoadCalibrationData(storedSlide, storedFocus);
      if loaded.Fail? {
        return Err(loaded.error);
      }
      var connected := ConnectHardware(printer, camera, w);
      if connected.Fail? {
        return Err(connected.error);
      }
      var setup := SetupPositioning();
      if setup.Fail? {
        return Err(setup.error);
      }
      ghost var sent0 := printer.sent;
      var fov :- MeasureFieldOfView(peak);
      ghost var sent1 := printer.sent;
      ghost var feed1 := camera.feed;
      var pattern :- CalculateScanPattern(PlanningOverlap);
      var frames :- TestScanPattern(pattern, PlanningTests);
      assert old(camera.feed)[3..][..|frames|] == old(camera.feed)[3..3 + |frames|];
      return Ok((ScanConfiguration(pattern, slide.value, focus.value), frames));
    }

    /** `run_planning`: any error ends the run, and both devices are
        disconnected in every case. */
    method RunPlanning(storedSlide: Option<Slides.SlideRecord>, storedFocus: Option<Focus.FocusRecord>, w: Wiring,
                       peak: (Frame, Frame) -> (int, int))
      returns (r: Result<(ScanConfiguration, seq<Frame>), Fault>)
      modifies this`slide, this`focus, this`fieldOfView, printer`connected, printer`sent, printer`replies, printer`position
      modifies camera`hasCapture, camera`isConnected, camera`frameWidth, camera`frameHeight, camera`feed
      ensures storedSlide.None? ==> r == Err(SlideNotCalibrated)
      ensures storedSlide.Some? && storedFocus.None? ==> r == Err(FocusNotCalibrated)
      ensures r.Ok? ==> w.discovered.Some? && w.printerOpens && w.cameraOpens
      ensures r.Ok? ==>
        var (config, frames) := r.value;
        && storedSlide == Some(config.slide) && storedFocus == Some(config.focus)
        && |old(camera.feed)| >= 3 + |frames|
        && old(camera.feed)[0].Some? && old(camera.feed)[1].Some? && old(camera.feed)[2].Some?
        && var fov := Measured(Some(w.width), Some(w.height), old(camera.feed)[0].value,
                               old(camera.feed)[1].value, old(camera.feed)[2].value, peak);
        && fov.Ok?
        && PlanPattern(config.slide, config.focus, fov.value, PlanningOverlap) == Ok(config.pattern)
        && var idxs := TestIndices(config.pattern.gridSizeX, |config.pattern.positions|, PlanningTests);
        && |frames| == |idxs| == 4
        && InRange(config.pattern.positions, idxs)
        && printer.sent == old(printer.sent) + PlanningSetup(config.slide, config.focus) + FovScript
                           + Tour(Picks(config.pattern.positions, idxs))
      ensures !printer.connected && (camera.hasCapture ==> !camera.isConnected)
    {
      r := RunConnected(storedSlide, storedFocus, w, peak);
      printer.Disconnect();
      camera.Disconnect();
    }
  }
}
