/** Slide border detection: from the calibrated slide centre, step the stage
    outward along one axis, score each frame by its count of edge pixels, and
    take the first position of highest score as the border; the four borders
    are found top, bottom, then left and right along the vertical midpoint. */
module BorderDetection {
  import opened Wrappers
  import opened Sequences
  import opened Faults
  import opened Numeric
  import opened Selection
  import opened PrinterInterface
  import opened CameraInterface
  import opened Raster
  import opened Hardware
  import opened SlidePositionCalibration

  // ---------------------------------------------------------------------------
  // percent_black
  // ---------------------------------------------------------------------------

  /** How many pixels of a row are black (zero). */
  function RowZeros(row: seq<Pixel>): (n: nat)
    ensures n <= |row|
    ensures n == 0 <==> forall j :: 0 <= j < |row| ==> row[j] != 0
    ensures n == |row| <==> forall j :: 0 <= j < |row| ==> row[j] == 0
    decreases |row|
  {
    if |row| == 0 then 0
    else
      var rest := RowZeros(row[1..]);
      assert forall j :: 1 <= j < |row| ==> row[j] == row[1..][j - 1];
      (if row[0] == 0 then 1 else 0) + rest
  }

  /** How many pixels of the rows are black. */
  function Zeros(rows: seq<seq<Pixel>>): nat
    decreases |rows|
  {
    if |rows| == 0 then 0 else RowZeros(rows[0]) + Zeros(rows[1..])
  }

  /** How many pixels the rows hold. */
  function Cells(rows: seq<seq<Pixel>>): nat
    decreases |rows|
  {
    if |rows| == 0 then 0 else |rows[0]| + Cells(rows[1..])
  }

  /** Rows of one width `w` hold |rows| * w pixels. */
  lemma {:induction false} CellsRect(rows: seq<seq<Pixel>>, w: nat)
    requires forall r :: 0 <= r < |rows| ==> |rows[r]| == w
    ensures Cells(rows) == |rows| * w
    decreases |rows|
  {
    if |rows| > 0 {
      CellsRect(rows[1..], w);
      assert |rows| * w == w + (|rows| - 1) * w;
    }
  }

  /** At most every pixel is black; none is exactly when the count is 0, all
      are exactly when it is the pixel count. */
  lemma {:induction false} ZerosBounds(rows: seq<seq<Pixel>>)
    ensures Zeros(rows) <= Cells(rows)
    ensures Zeros(rows) == 0 <==> forall r, j :: 0 <= r < |rows| && 0 <= j < |rows[r]| ==> rows[r][j] != 0
    ensures Zeros(rows) == Cells(rows) <==> forall r, j :: 0 <= r < |rows| && 0 <= j < |rows[r]| ==> rows[r][j] == 0
    decreases |rows|
  {
    if |rows| > 0 {
      var rest := rows[1..];
      ZerosBounds(rest);
      assert forall r :: 1 <= r < |rows| ==> rows[r] == rest[r - 1];
    }
  }

  /** A share of a positive total, in percent. */
  lemma PercentRange(black: nat, total: nat)
    requires 0 < total && black <= total
    ensures 0.0 <= (black as real / total as real) * 100.0 <= 100.0
    ensures (black as real / total as real) * 100.0 == 0.0 <==> black == 0
    ensures (black as real / total as real) * 100.0 == 100.0 <==> black == total
  {
    var t := total as real;
    var ratio := black as real / t;
    assert ratio * t == black as real;
    if ratio > 1.0 {
      MulStrict(1.0, ratio, t);
    }
  }

  /** `np.mean(thresh == 0) * 100`: the share of black pixels, in percent. It
      is 0 exactly when no pixel is black and 100 exactly when all are. */
  function PercentBlack(im: Frame): (p: real)
    ensures 0.0 <= p <= 100.0
    ensures p == 0.0 <==> forall r, j :: 0 <= r < |im.rows| && 0 <= j < |im.rows[r]| ==> im.rows[r][j] != 0
    ensures p == 100.0 <==> forall r, j :: 0 <= r < |im.rows| && 0 <= j < |im.rows[r]| ==> im.rows[r][j] == 0
  {
    var total := Cells(im.rows);
    var black := Zeros(im.rows);
    ZerosBounds(im.rows);
    CellsRect(im.rows, im.Width());
    assert 0 < im.Height() * im.Width() by {
      MulStrictNat(0, im.Height(), im.Width());
    }
    PercentRange(black, total);
    (black as real / total as real) * 100.0
  }

  lemma MulStrictNat(a: nat, b: nat, c: nat)
    requires a < b && 0 < c
    ensures a * c < b * c
  {
  }

  // ---------------------------------------------------------------------------
  // Scan positions
  // ---------------------------------------------------------------------------

  /** How many positions `center + k * delta` satisfy |k * delta| <= max. */
  function ScanCount(maxDistance: real, stride: real): nat
    requires stride > 0.0
  {
    if maxDistance < 0.0 then 0 else (maxDistance / stride).Floor + 1
  }

  lemma NextPosition(center: real, delta: real, k: nat)
    ensures center + k as real * delta + delta == center + (k + 1) as real * delta
  {
  }

  /** The k-th visited position lies within the distance exactly while
      k < ScanCount: this is when the `while` loop stops. */
  lemma ScanCountExact(maxDistance: real, delta: real, k: nat)
    requires delta != 0.0
    ensures Abs(k as real * delta) == k as real * Abs(delta)
    ensures Abs(k as real * delta) <= maxDistance <==> k < ScanCount(maxDistance, Abs(delta))
  {
    var s, x := Abs(delta), k as real;
    MulMonotone(0.0, x, s);
    if delta < 0.0 {
      assert x * delta == -(x * s);
    }
    assert Abs(x * delta) == x * s;
    if maxDistance >= 0.0 {
      WithinFloor(maxDistance, s, k);
    }
  }

  /** k strides fit in a distance exactly when k is at most floor(distance / stride). */
  lemma WithinFloor(m: real, s: real, k: nat)
    requires m >= 0.0 && s > 0.0
    ensures k as real * s <= m <==> k <= (m / s).Floor
  {
    var q, x := m / s, k as real;
    assert q * s == m;
    if k <= q.Floor {
      assert x <= q;
      MulMonotone(x, q, s);
    } else {
      assert x > q;
      MulStrict(q, x, s);
    }
  }

  /** The positions `find_border_black_edge` visits: the centre, then one
      stride further out each time, while within the distance. */
  function ScanPositions(center: real, delta: real, maxDistance: real): (ps: seq<real>)
    requires delta != 0.0
    ensures |ps| == ScanCount(maxDistance, Abs(delta))
    ensures forall k :: 0 <= k < |ps| ==> ps[k] == center + k as real * delta
  {
    seq(ScanCount(maxDistance, Abs(delta)), k requires k >= 0 => center + k as real * delta)
  }

  /** Every visited position is on the side of the centre the scan heads to,
      within the distance; the centre itself comes first. */
  lemma ScanSide(center: real, delta: real, maxDistance: real)
    requires delta != 0.0
    ensures maxDistance >= 0.0 ==> |ScanPositions(center, delta, maxDistance)| > 0 && ScanPositions(center, delta, maxDistance)[0] == center
    ensures forall p :: p in ScanPositions(center, delta, maxDistance) ==>
      && center - maxDistance <= p <= center + maxDistance
      && (delta < 0.0 ==> p <= center)
      && (delta > 0.0 ==> p >= center)
  {
    var ps := ScanPositions(center, delta, maxDistance);
    forall k | 0 <= k < |ps|
      ensures center - maxDistance <= ps[k] <= center + maxDistance
      ensures delta < 0.0 ==> ps[k] <= center
      ensures delta > 0.0 ==> ps[k] >= center
    {
      ScanCountExact(maxDistance, delta, k);
      if delta < 0.0 {
        MulMonotone(0.0, k as real, -delta);
      } else {
        MulMonotone(0.0, k as real, delta);
      }
    }
  }

  /** Which coordinate a scan varies. */
  datatype Axis = XAxis | YAxis

  /** The absolute move to a scan position, the other axis held at `fixed`. */
  function ProbeMove(axis: Axis, pos: real, fixed: real, z: real): Command {
    if axis == YAxis then LinearMove(DefaultFeedrate, AbsoluteWords(Some(fixed), Some(pos), Some(z)))
    else LinearMove(DefaultFeedrate, AbsoluteWords(Some(pos), Some(fixed), Some(z)))
  }

  /** The commands of a scan over the given positions. */
  function ProbeMoves(axis: Axis, ps: seq<real>, fixed: real, z: real): (cs: seq<Command>)
    ensures |cs| == |ps|
    ensures forall k :: 0 <= k < |ps| ==> cs[k] == ProbeMove(axis, ps[k], fixed, z)
  {
    seq(|ps|, k requires 0 <= k < |ps| => ProbeMove(axis, ps[k], fixed, z))
  }

  /** The commands of a scan from `center` in steps of `delta`. */
  function ScanMoves(axis: Axis, center: real, delta: real, maxDistance: real, fixed: real, z: real): seq<Command>
    requires delta != 0.0
  {
    ProbeMoves(axis, ScanPositions(center, delta, maxDistance), fixed, z)
  }

  /** The scores of the frames a scan read. A failed read ends the scan
      before anything is scored, so every use is on reads that all succeeded;
      the 0.0 for a failed read only keeps the function total. */
  function Scores(fs: seq<Option<Frame>>, edgeCount: Frame -> nat): (es: seq<real>)
    ensures |es| == |fs|
    ensures forall k :: 0 <= k < |fs| ==> es[k] >= 0.0
  {
    seq(|fs|, k requires 0 <= k < |fs| => if fs[k].Some? then edgeCount(fs[k].value) as real else 0.0)
  }

  /** `positions[np.argmax(edge_strengths)]`. */
  function Peak(ps: seq<real>, es: seq<real>): (b: Result<real, Fault>)
    requires |ps| == |es|
    ensures b.Err? <==> ps == []
    ensures b.Ok? ==> exists k :: IsFirstMax(es, k) && b.value == ps[k]
  {
    if |es| == 0 then Err(EmptySequence) else Ok(ps[FirstMax(es)])
  }

  lemma ScoresSnoc(fs: seq<Option<Frame>>, k: nat, edgeCount: Frame -> nat)
    requires k < |fs| && fs[k].Some?
    ensures Scores(fs[..k + 1], edgeCount) == Scores(fs[..k], edgeCount) + [edgeCount(fs[k].value) as real]
  {
    assert fs[..k + 1][..k] == fs[..k];
  }

  lemma ProbeMovesSnoc(axis: Axis, ps: seq<real>, k: nat, fixed: real, z: real)
    requires k < |ps|
    ensures ProbeMoves(axis, ps[..k + 1], fixed, z) == ProbeMoves(axis, ps[..k], fixed, z) + [ProbeMove(axis, ps[k], fixed, z)]
  {
    assert ps[..k + 1][..k] == ps[..k];
  }

  /** The border that a scan from `center` finds, given the frames it reads. */
  function Border(center: real, delta: real, maxDistance: real, fs: seq<Option<Frame>>, edgeCount: Frame -> nat): Result<real, Fault>
    requires delta != 0.0
    requires |fs| >= ScanCount(maxDistance, Abs(delta))
  {
    var ps := ScanPositions(center, delta, maxDistance);
    Peak(ps, Scores(fs[..|ps|], edgeCount))
  }

  /** A border found by a scan is one of the positions visited, on the side
      the scan heads to and within its distance. */
  lemma BorderSide(center: real, delta: real, maxDistance: real, fs: seq<Option<Frame>>, edgeCount: Frame -> nat)
    requires delta != 0.0
    requires |fs| >= ScanCount(maxDistance, Abs(delta))
    ensures Border(center, delta, maxDistance, fs, edgeCount).Ok? <==> maxDistance >= 0.0
    ensures var b := Border(center, delta, maxDistance, fs, edgeCount);
      b.Ok? ==>
        && b.value in ScanPositions(center, delta, maxDistance)
        && center - maxDistance <= b.value <= center + maxDistance
        && (delta < 0.0 ==> b.value <= center)
        && (delta > 0.0 ==> b.value >= center)
  {
    ScanSide(center, delta, maxDistance);
  }

  // ---------------------------------------------------------------------------
  // The scan and the border search
  // ---------------------------------------------------------------------------

  /** One step of the scan: move, capture, score. */
  method Probe(printer: Printer, camera: Camera, axis: Axis, pos: real, fixed: real, z: real, edgeCount: Frame -> nat)
    returns (r: Result<real, Fault>)
    modifies camera`feed, printer`sent, printer`replies, printer`position
    ensures r.Ok? ==> printer.sent == old(printer.sent) + [ProbeMove(axis, pos, fixed, z)]
    ensures r.Ok? ==>
      && |old(camera.feed)| > 0 && old(camera.feed)[0].Some?
      && camera.feed == old(camera.feed)[1..]
      && r.value == edgeCount(old(camera.feed)[0].value) as real
    ensures printer.position == if axis == YAxis then Position(fixed, pos, z) else Position(pos, fixed, z)
    ensures printer.connected && camera.isConnected && Acknowledges(old(printer.replies), 1) && Delivers(old(camera.feed), 1) ==>
      r.Ok? && printer.replies == old(printer.replies)[1..]
  {
    if Acknowledges(printer.replies, 1) {
      AwaitAccepted(printer.replies);
    }
    var moved;
    if axis == YAxis {
      moved := printer.MoveToPosition(Some(fixed), Some(pos), Some(z), DefaultFeedrate);
    } else {
      moved := printer.MoveToPosition(Some(pos), Some(fixed), Some(z), DefaultFeedrate);
    }
    if moved.Fail? {
      return Err(moved.error);
    }
    var frame := camera.CaptureFrame();
    if frame.Err? {
      return Err(frame.error);
    }
    return Ok(edgeCount(frame.value) as real);
  }

  /** The loop of `find_border_black_edge`: from `center` in steps of
      `delta` while within `maxDistance`, move, capture and score, collecting
      the positions visited and their scores. */
  method ScanAlong(printer: Printer, camera: Camera, axis: Axis, center: real, fixed: real, z: real,
                   delta: real, maxDistance: real, edgeCount: Frame -> nat)
    returns (r: Result<(seq<real>, seq<real>), Fault>)
    requires delta != 0.0
    modifies camera`feed, printer`sent, printer`replies, printer`position
    ensures var ps := ScanPositions(center, delta, maxDistance);
      r.Ok? ==>
        && |ps| <= |old(camera.feed)| && camera.feed == old(camera.feed)[|ps|..]
        && (forall k :: 0 <= k < |ps| ==> old(camera.feed)[k].Some?)
        && printer.sent == old(printer.sent) + ProbeMoves(axis, ps, fixed, z)
        && r.value.0 == ps
        && r.value.1 == Scores(old(camera.feed)[..|ps|], edgeCount)
    ensures maxDistance < 0.0 ==> r.Ok?
    ensures var n := ScanCount(maxDistance, Abs(delta));
      printer.connected && camera.isConnected && Acknowledges(old(printer.replies), n) && Delivers(old(camera.feed), n) ==>
        r.Ok? && printer.replies == old(printer.replies)[n..]
  {
    ghost var ps := ScanPositions(center, delta, maxDistance);
    ghost var f0 := camera.feed;
    ghost var replies0 := printer.replies;
    ghost var coop := printer.connected && camera.isConnected && Acknowledges(replies0, |ps|) && Delivers(f0, |ps|);
    var pos := center;
    var k: nat := 0;
    var positions: seq<real> := [];
    var strengths: seq<real> := [];
    ScanGuard(center, delta, maxDistance, 0, pos);
    while Abs(pos - center) <= maxDistance
      invariant k <= |ps| && pos == Stride(center, delta, k)
      invariant positions == ps[..k]
      invariant Walked(axis, ps, fixed, z, edgeCount, k, f0, camera.feed, strengths, old(printer.sent), printer.sent)
      invariant coop ==> printer.replies == replies0[k..]
      decreases |ps| - k
    {
      ScanGuard(center, delta, maxDistance, k, pos);
      if coop {
        CooperatesAt(replies0, f0, |ps|, k);
      }
      var e := Probe(printer, camera, axis, pos, fixed, z, edgeCount);
      if e.Err? {
        assert !coop;
        return Err(e.error);
      }
      WalkedStep(axis, ps, fixed, z, edgeCount, k, f0, strengths, old(printer.sent), e.value);
      positions := positions + [pos];
      strengths := strengths + [e.value];
      TakeSnoc(ps, k);
      k := k + 1;
      pos := pos + delta;
    }
    ScanGuard(center, delta, maxDistance, k, pos);
    return Ok((positions, strengths));
  }

  /** The `k`-th position of a scan from `center` in steps of `delta`. */
  function Stride(center: real, delta: real, k: nat): real {
    center + k as real * delta
  }

  /** At the `k`-th position the loop guard holds exactly while a position
      is left to visit, and that position is `pos`. */
  lemma ScanGuard(center: real, delta: real, maxDistance: real, k: nat, pos: real)
    requires delta != 0.0 && pos == Stride(center, delta, k)
    ensures Abs(pos - center) <= maxDistance <==> k < |ScanPositions(center, delta, maxDistance)|
    ensures k < |ScanPositions(center, delta, maxDistance)| ==> ScanPositions(center, delta, maxDistance)[k] == pos
    ensures pos + delta == Stride(center, delta, k + 1)
  {
    ScanCountExact(maxDistance, delta, k);
    assert pos - center == k as real * delta;
    NextPosition(center, delta, k);
  }

  /** The first `k` steps of a scan over `ps`: each read a frame from `f0`
      and scored it, and sent its move after the commands `s0`. */
  ghost predicate Walked(axis: Axis, ps: seq<real>, fixed: real, z: real, edgeCount: Frame -> nat, k: nat,
                         f0: seq<Option<Frame>>, feed: seq<Option<Frame>>, strengths: seq<real>,
                         s0: seq<Command>, sent: seq<Command>)
  {
    && k <= |ps| && k <= |f0| && feed == f0[k..]
    && (forall j :: 0 <= j < k ==> f0[j].Some?)
    && strengths == Scores(f0[..k], edgeCount)
    && sent == s0 + ProbeMoves(axis, ps[..k], fixed, z)
  }

  /** One more successful probe extends the scan by a step. */
  lemma WalkedStep(axis: Axis, ps: seq<real>, fixed: real, z: real, edgeCount: Frame -> nat, k: nat,
                   f0: seq<Option<Frame>>, strengths: seq<real>, s0: seq<Command>, e: real)
    requires k < |ps| && k < |f0| && f0[k].Some? && e == edgeCount(f0[k].value) as real
    requires Walked(axis, ps, fixed, z, edgeCount, k, f0, f0[k..], strengths, s0, s0 + ProbeMoves(axis, ps[..k], fixed, z))
    ensures Walked(axis, ps, fixed, z, edgeCount, k + 1, f0, f0[k..][1..], strengths + [e],
                   s0, s0 + ProbeMoves(axis, ps[..k], fixed, z) + [ProbeMove(axis, ps[k], fixed, z)])
  {
    ScoresSnoc(f0, k, edgeCount);
    ProbeMovesSnoc(axis, ps, k, fixed, z);
    assert f0[k..][1..] == f0[k + 1..];
  }

  /** `find_border_black_edge`: the stage visits every scan position in order,
      and the border is the first one of highest score. A scan that visits
      nothing (negative distance) fails like `np.argmax` of an empty list. */
  method FindBorder(printer: Printer, camera: Camera, axis: Axis, center: real, fixed: real, z: real,
                    direction: int, maxDistance: real, step: real, edgeCount: Frame -> nat)
    returns (r: Result<real, Fault>)
    requires direction as real * step != 0.0
    modifies camera`feed, printer`sent, printer`replies, printer`position
    ensures var ps := ScanPositions(center, direction as real * step, maxDistance);
      r.Ok? ==>
        && |ps| <= |old(camera.feed)| && camera.feed == old(camera.feed)[|ps|..]
        && (forall k :: 0 <= k < |ps| ==> old(camera.feed)[k].Some?)
        && printer.sent == old(printer.sent) + ScanMoves(axis, center, direction as real * step, maxDistance, fixed, z)
        && r == Border(center, direction as real * step, maxDistance, old(camera.feed), edgeCount)
    ensures maxDistance < 0.0 ==> r == Err(EmptySequence)
    // the border lies within reach, on the side the scan heads to
    ensures r.Ok? ==>
      && center - maxDistance <= r.value <= center + maxDistance
      && (direction as real * step < 0.0 ==> r.value <= center)
      && (direction as real * step > 0.0 ==> r.value >= center)
    ensures var n := ScanCount(maxDistance, Abs(direction as real * step));
      printer.connected && camera.isConnected && maxDistance >= 0.0
      && Acknowledges(old(printer.replies), n) && Delivers(old(camera.feed), n) ==>
        r.Ok? && printer.replies == old(printer.replies)[n..]
  {
    var delta := direction as real * step;
    ScanCountExact(maxDistance, delta, 0);
    var scan := ScanAlong(printer, camera, axis, center, fixed, z, delta, maxDistance, edgeCount);
    if scan.Err? {
      return Err(scan.error);
    }
    BorderSide(center, delta, maxDistance, old(camera.feed), edgeCount);
    var (positions, strengths) := scan.value;
    if |strengths| == 0 {
      return Err(EmptySequence);
    }
    r := Ok(positions[FirstMax(strengths)]);
  }

  // ---------------------------------------------------------------------------
  // main
  // ---------------------------------------------------------------------------

  /** Scan parameters: 1 mm steps, the full slide width in Y and the full
      slide length in X, starting at the calibrated centre. */
  const CoarseStep: real := 1.0
  const YMaxDistance: real := 25.0
  const XMaxDistance: real := 75.0

  datatype Borders = Borders(leftX: real, rightX: real, topY: real, bottomY: real)

  /** The commands of the two scans outward from `center` along one axis:
      first towards the negative end, then towards the positive end. */
  function PairMoves(axis: Axis, center: real, maxDistance: real, fixed: real, z: real): seq<Command> {
    ScanMoves(axis, center, -CoarseStep, maxDistance, fixed, z) + ScanMoves(axis, center, CoarseStep, maxDistance, fixed, z)
  }

  /** How many positions each scan along Y, and each along X, visits. */
  const YScan: nat := ScanCount(YMaxDistance, CoarseStep)
  const XScan: nat := ScanCount(XMaxDistance, CoarseStep)

  /** The borders the negative then the positive coarse scan along one axis
      find, the second reading the frames after the first one's. */
  function PairBorders(center: real, maxDistance: real, fs: seq<Option<Frame>>, edgeCount: Frame -> nat): Result<(real, real), Fault>
    requires |fs| >= 2 * ScanCount(maxDistance, CoarseStep)
  {
    var low := Border(center, -CoarseStep, maxDistance, fs, edgeCount);
    var high := Border(center, CoarseStep, maxDistance, fs[ScanCount(maxDistance, CoarseStep)..], edgeCount);
    match (low, high)
    case (Err(e), _) => Err(e)
    case (_, Err(e)) => Err(e)
    case (Ok(l), Ok(h)) => Ok((l, h))
  }

  /** The borders `main` finds from the frames its four scans read in turn:
      top and bottom about the centre's Y, then left and right about its X. */
  function Locate(slide: SlideRecord, fs: seq<Option<Frame>>, edgeCount: Frame -> nat): Result<Borders, Fault>
    requires |fs| >= 2 * YScan + 2 * XScan
  {
    var vertical := PairBorders(slide.centerY, YMaxDistance, fs, edgeCount);
    var horizontal := PairBorders(slide.centerX, XMaxDistance, fs[2 * YScan..], edgeCount);
    match (vertical, horizontal)
    case (Err(e), _) => Err(e)
    case (_, Err(e)) => Err(e)
    case (Ok((top, bottom)), Ok((left, right))) => Ok(Borders(left, right, top, bottom))
  }

  /** The four scans always find their borders: each is a position its scan
      visited, on its side of the slide centre and within reach. */
  lemma LocateBrackets(slide: SlideRecord, fs: seq<Option<Frame>>, edgeCount: Frame -> nat)
    requires |fs| >= 2 * YScan + 2 * XScan
    ensures Locate(slide, fs, edgeCount).Ok?
    ensures var b := Locate(slide, fs, edgeCount).value;
      var (sx, sy) := (slide.centerX, slide.centerY);
      && b.topY in ScanPositions(sy, -CoarseStep, YMaxDistance)
      && b.bottomY in ScanPositions(sy, CoarseStep, YMaxDistance)
      && b.leftX in ScanPositions(sx, -CoarseStep, XMaxDistance)
      && b.rightX in ScanPositions(sx, CoarseStep, XMaxDistance)
      && sy - YMaxDistance <= b.topY <= sy <= b.bottomY <= sy + YMaxDistance
      && sx - XMaxDistance <= b.leftX <= sx <= b.rightX <= sx + XMaxDistance
  {
    var (sx, sy) := (slide.centerX, slide.centerY);
    var rest := fs[2 * YScan..];
    BorderSide(sy, -CoarseStep, YMaxDistance, fs, edgeCount);
    BorderSide(sy, CoarseStep, YMaxDistance, fs[YScan..], edgeCount);
    BorderSide(sx, -CoarseStep, XMaxDistance, rest, edgeCount);
    BorderSide(sx, CoarseStep, XMaxDistance, rest[XScan..], edgeCount);
  }

  /** The negative then the positive scan along one axis; each border lies on
      its own side of the centre. */
  method ScanPair(printer: Printer, camera: Camera, axis: Axis, center: real, fixed: real, z: real,
                  maxDistance: real, edgeCount: Frame -> nat)
    returns (r: Result<(real, real), Fault>)
    modifies camera`feed, printer`sent, printer`replies, printer`position
    ensures var n := ScanCount(maxDistance, CoarseStep);
      r.Ok? ==>
        && 2 * n <= |old(camera.feed)| && camera.feed == old(camera.feed)[2 * n..]
        && PairBorders(center, maxDistance, old(camera.feed), edgeCount) == r
    ensures r.Ok? ==> printer.sent == old(printer.sent) + PairMoves(axis, center, maxDistance, fixed, z)
    ensures var n := ScanCount(maxDistance, CoarseStep);
      printer.connected && camera.isConnected && maxDistance >= 0.0
      && Acknowledges(old(printer.replies), 2 * n) && Delivers(old(camera.feed), 2 * n) ==>
        r.Ok? && printer.replies == old(printer.replies)[2 * n..]
  {
    ghost var sent, f0 := printer.sent, camera.feed;
    ghost var replies0 := printer.replies;
    ghost var n := ScanCount(maxDistance, CoarseStep);
    var low := FindBorder(printer, camera, axis, center, fixed, z, -1, maxDistance, CoarseStep, edgeCount);
    if low.Err? {
      PairReady(replies0, f0, maxDistance, -1, 1);
      return Err(low.error);
    }
    ghost var mid, f1 := printer.sent, camera.feed;
    var high := FindBorder(printer, camera, axis, center, fixed, z, 1, maxDistance, CoarseStep, edgeCount);
    if high.Err? {
      PairReady(replies0, f0, maxDistance, -1, 1);
      return Err(high.error);
    }
    PairJoined(axis, center, fixed, z, maxDistance, edgeCount, -1, 1, f0, f1, camera.feed, sent, mid, printer.sent, low.value, high.value);
    PairReady(replies0, f0, maxDistance, -1, 1);
    return Ok((low.value, high.value));
  }

  /** The two scans of a pair, one after the other, read the frames and send
      the commands of the pair, and find the borders `PairBorders` gives. */
  lemma PairJoined(axis: Axis, center: real, fixed: real, z: real, maxDistance: real, edgeCount: Frame -> nat,
                   down: int, up: int, f0: seq<Option<Frame>>, f1: seq<Option<Frame>>, f2: seq<Option<Frame>>,
                   s0: seq<Command>, s1: seq<Command>, s2: seq<Command>, low: real, high: real)
    requires down == -1 && up == 1
    requires var ps := ScanPositions(center, down as real * CoarseStep, maxDistance);
      && |ps| <= |f0| && f1 == f0[|ps|..]
      && s1 == s0 + ScanMoves(axis, center, down as real * CoarseStep, maxDistance, fixed, z)
      && Ok(low) == Border(center, down as real * CoarseStep, maxDistance, f0, edgeCount)
    requires var ps := ScanPositions(center, up as real * CoarseStep, maxDistance);
      && |ps| <= |f1| && f2 == f1[|ps|..]
      && s2 == s1 + ScanMoves(axis, center, up as real * CoarseStep, maxDistance, fixed, z)
      && Ok(high) == Border(center, up as real * CoarseStep, maxDistance, f1, edgeCount)
    ensures var n := ScanCount(maxDistance, CoarseStep);
      && 2 * n <= |f0| && f2 == f0[2 * n..]
      && PairBorders(center, maxDistance, f0, edgeCount) == Ok((low, high))
    ensures s2 == s0 + PairMoves(axis, center, maxDistance, fixed, z)
  {
    var n := ScanCount(maxDistance, CoarseStep);
    assert down as real * CoarseStep == -CoarseStep && up as real * CoarseStep == CoarseStep;
    assert f1 == f0[n..];
    assert f2 == f0[2 * n..];
  }

  /** Devices that cooperate for both scans of a pair cooperate for the
      first scan, then for the second on what remains: both scans visit
      the same number of positions. */
  lemma PairReady(replies: seq<string>, feed: seq<Option<Frame>>, maxDistance: real, down: int, up: int)
    requires down == -1 && up == 1
    ensures var (a, b) := (ScanCount(maxDistance, Abs(down as real * CoarseStep)), ScanCount(maxDistance, Abs(up as real * CoarseStep)));
      var n := ScanCount(maxDistance, CoarseStep);
      Acknowledges(replies, 2 * n) && Delivers(feed, 2 * n) ==>
        && Acknowledges(replies, a) && Delivers(feed, a)
        && Acknowledges(replies[a..], b) && Delivers(feed[a..], b)
        && replies[a..][b..] == replies[2 * n..]
  {
    var n := ScanCount(maxDistance, CoarseStep);
    assert Abs(down as real * CoarseStep) == CoarseStep && Abs(up as real * CoarseStep) == CoarseStep;
    CooperatesSplit(replies, feed, n, n);
  }

  /** What the four scans of `main` do, seen from outside: from the frames
      `f0` they read the first 2*YScan + 2*XScan and find the borders `Locate`
      gives; the commands they add to `s0` are the two Y scans about the
      centre, then the two X scans at the midpoint of top and bottom. */
  ghost predicate Scanned(slide: SlideRecord, f0: seq<Option<Frame>>, f: seq<Option<Frame>>,
                          s0: seq<Command>, s: seq<Command>, b: Borders, edgeCount: Frame -> nat)
  {
    && 2 * YScan + 2 * XScan <= |f0| && f == f0[2 * YScan + 2 * XScan..]
    && Locate(slide, f0, edgeCount) == Ok(b)
    && s == s0 + PairMoves(YAxis, slide.centerY, YMaxDistance, slide.centerX, slide.centerZ)
              + PairMoves(XAxis, slide.centerX, XMaxDistance, MidY(b), slide.centerZ)
  }

  /** `mid_y`: the height of the horizontal scans, halfway between the top
      and bottom borders. */
  function MidY(b: Borders): (y: real)
    ensures b.topY <= b.bottomY ==> b.topY <= y <= b.bottomY
  {
    (b.topY + b.bottomY) / 2.0
  }

  /** `main` after both devices are connected and the slide record is loaded:
      top (towards -Y) and bottom (+Y), then left (-X) and right (+X) along
      the vertical midpoint of the first two. A failure is an uncaught
      exception. */
  method ScanBorders(printer: Printer, camera: Camera, slide: SlideRecord, edgeCount: Frame -> nat)
    returns (r: Result<Borders, Fault>)
    modifies camera`feed, printer`sent, printer`replies, printer`position
    ensures r.Ok? ==> Scanned(slide, old(camera.feed), camera.feed, old(printer.sent), printer.sent, r.value, edgeCount)
    ensures var n := 2 * YScan + 2 * XScan;
      printer.connected && camera.isConnected && Acknowledges(old(printer.replies), n) && Delivers(old(camera.feed), n) ==>
        r.Ok? && printer.replies == old(printer.replies)[n..]
  {
    ghost var f0 := camera.feed;
    ghost var s0 := printer.sent;
    ghost var replies0 := printer.replies;
    ghost var coop := printer.connected && camera.isConnected
                      && Acknowledges(replies0, 2 * YScan + 2 * XScan) && Delivers(f0, 2 * YScan + 2 * XScan);
    if coop {
      CooperatesSplit(replies0, f0, 2 * YScan, 2 * XScan);
    }
    var sx, sy, z := slide.centerX, slide.centerY, slide.centerZ;
    var vertical := ScanPair(printer, camera, YAxis, sy, sx, z, YMaxDistance, edgeCount);
    if vertical.Err? {
      assert !coop;
      return Err(vertical.error);
    }
    ghost var f1, s1 := camera.feed, printer.sent;
    var (top, bottom) := vertical.value;
    var mid := (top + bottom) / 2.0;
    var horizontal := ScanPair(printer, camera, XAxis, sx, mid, z, XMaxDistance, edgeCount);
    if horizontal.Err? {
      assert !coop;
      return Err(horizontal.error);
    }
    var (left, right) := horizontal.value;
    ScannedIntro(slide, f0, f1, camera.feed, s0, s1, printer.sent, top, bottom, mid, left, right, edgeCount);
    return Ok(Borders(left, right, top, bottom));
  }

  /** The vertical pair of scans followed by the horizontal pair is what
      `Scanned` describes. */
  lemma ScannedIntro(slide: SlideRecord, f0: seq<Option<Frame>>, f1: seq<Option<Frame>>, f: seq<Option<Frame>>,
                     s0: seq<Command>, s1: seq<Command>, s: seq<Command>,
                     top: real, bottom: real, mid: real, left: real, right: real, edgeCount: Frame -> nat)
    requires 2 * YScan <= |f0| && f1 == f0[2 * YScan..]
    requires PairBorders(slide.centerY, YMaxDistance, f0, edgeCount) == Ok((top, bottom))
    requires 2 * XScan <= |f1| && f == f1[2 * XScan..]
    requires PairBorders(slide.centerX, XMaxDistance, f1, edgeCount) == Ok((left, right))
    requires s1 == s0 + PairMoves(YAxis, slide.centerY, YMaxDistance, slide.centerX, slide.centerZ)
    requires mid == MidY(Borders(left, right, top, bottom))
    requires s == s1 + PairMoves(XAxis, slide.centerX, XMaxDistance, mid, slide.centerZ)
    ensures Scanned(slide, f0, f, s0, s, Borders(left, right, top, bottom), edgeCount)
  {
    assert f == f0[2 * YScan + 2 * XScan..];
    assert f0[2 * YScan..] == f1;
    assert PairBorders(slide.centerX, XMaxDistance, f0[2 * YScan..], edgeCount) == Ok((left, right));
    AppendAppend(s0, s1, s, PairMoves(YAxis, slide.centerY, YMaxDistance, slide.centerX, slide.centerZ),
                 PairMoves(XAxis, slide.centerX, XMaxDistance, mid, slide.centerZ));
  }

  /** `main`: connect the camera, then the printer (releasing the camera if
      the printer does not open), load the slide record (releasing both if it
      is missing), scan, and release both. A failing discovery or scan is an
      exception `main` does not catch, so nothing is released then. */
  method DetectBorders(printer: Printer, camera: Camera, w: Wiring, stored: Option<SlideRecord>, edgeCount: Frame -> nat)
    returns (r: Result<Borders, Fault>)
    modifies camera`feed, camera`hasCapture, camera`isConnected, camera`frameWidth, camera`frameHeight
    modifies printer`sent, printer`replies, printer`position, printer`connected
    ensures !w.cameraOpens ==> r == Err(CameraConnectFailed) && printer.sent == old(printer.sent)
    ensures w.cameraOpens && w.discovered.None? ==> r == Err(NoPrinterFound)
    ensures w.cameraOpens && w.discovered.Some? && !w.printerOpens ==> r == Err(PrinterConnectFailed) && !camera.isConnected
    ensures w.cameraOpens && w.discovered.Some? && w.printerOpens && stored.None? ==>
      r == Err(SlideNotCalibrated) && !camera.isConnected && !printer.connected
    ensures r.Ok? ==> stored.Some? && !camera.isConnected && !printer.connected
    ensures r.Ok? ==> Scanned(stored.value, old(camera.feed), camera.feed, old(printer.sent), printer.sent, r.value, edgeCount)
  {
    var cameraUp := camera.Connect(w.cameraOpens, w.width, w.height);
    if !cameraUp {
      return Err(CameraConnectFailed);
    }
    var link := printer.Connect(None, w.discovered, w.printerOpens);
    if link.Err? {
      return Err(link.error);
    }
    if !link.value {
      camera.Disconnect();
      return Err(PrinterConnectFailed);
    }
    if stored.None? {
      camera.Disconnect();
      printer.Disconnect();
      return Err(SlideNotCalibrated);
    }
    assert camera.feed == old(camera.feed) && printer.sent == old(printer.sent);
    r := ScanBorders(printer, camera, stored.value, edgeCount);
    if r.Err? {
      return;
    }
    camera.Disconnect();
    printer.Disconnect();
  }
}
