/** The acquisition pass: a tile grid interpolated between the four slide
    corners, visited row by row, with a local Z autofocus for blurred tiles
    and feature-based registration of each tile into one composite. */
module SweepAndStitch {
  import opened Wrappers
  import opened Sequences
  import opened Faults
  import opened Numeric
  import opened Text
  import opened Selection
  import opened Grid
  import opened Raster
  import opened PrinterInterface
  import opened CameraInterface
  import opened Hardware

  const GridStepX: real := 1.0
  const GridStepY: real := 1.0
  const SharpnessThreshold: real := 30.0
  const LocalSweepRange: real := 1.0
  const LocalSweepStep: real := 0.1
  /** More than this many descriptor matches are needed to estimate a homography. */
  const MinMatches: nat := 10

  // ---------------------------------------------------------------------
  // Grid geometry

  datatype Corners = Corners(bottomLeft: Position, bottomRight: Position, topRight: Position, topLeft: Position)

  /** `i / (n - 1)`, or 0 when the axis has a single point. */
  function Fraction(i: nat, n: nat): (f: real)
    ensures i < n ==> 0.0 <= f <= 1.0
    ensures n <= 1 ==> f == 0.0
  {
    if n > 1 then i as real / (n - 1) as real else 0.0
  }

  function Mix(a: real, b: real, f: real): real {
    a * (1.0 - f) + b * f
  }

  /** `a * (1 - f) + b * f` on every coordinate. */
  function Lerp(a: Position, b: Position, f: real): Position {
    Position(Mix(a.x, b.x, f), Mix(a.y, b.y, f), Mix(a.z, b.z, f))
  }

  /** The stage target of cell (ix, iy): interpolate along the left and right
      edges by the row fraction, then across by the column fraction. */
  function GridPoint(c: Corners, nx: nat, ny: nat, ix: nat, iy: nat): Position {
    var fy := Fraction(iy, ny);
    var left := Lerp(c.bottomLeft, c.topLeft, fy);
    var right := Lerp(c.bottomRight, c.topRight, fy);
    Lerp(left, right, Fraction(ix, nx))
  }

  /** Fills an `ny` by `nx` array with the interpolated targets, row by row. */
  method QuadInterp(c: Corners, nx: nat, ny: nat) returns (grid: array2<Position>)
    ensures fresh(grid) && grid.Length0 == ny && grid.Length1 == nx
    ensures forall iy, ix :: 0 <= iy < ny && 0 <= ix < nx ==> grid[iy, ix] == GridPoint(c, nx, ny, ix, iy)
  {
    grid := new Position[ny, nx]((_, _) => Origin);
    for iy := 0 to ny
      invariant forall r, ix :: 0 <= r < iy && 0 <= ix < nx ==> grid[r, ix] == GridPoint(c, nx, ny, ix, r)
    {
      var fy := Fraction(iy, ny);
      var left := Lerp(c.bottomLeft, c.topLeft, fy);
      var right := Lerp(c.bottomRight, c.topRight, fy);
      for ix := 0 to nx
        invariant forall r, col :: 0 <= r < iy && 0 <= col < nx ==> grid[r, col] == GridPoint(c, nx, ny, col, r)
        invariant forall col :: 0 <= col < ix ==> grid[iy, col] == GridPoint(c, nx, ny, col, iy)
      {
        grid[iy, ix] := Lerp(left, right, Fraction(ix, nx));
      }
    }
  }

  /** With at least two points per axis the four extreme cells are the corners. */
  lemma GridHitsCorners(c: Corners, nx: nat, ny: nat)
    requires nx > 1 && ny > 1
    ensures GridPoint(c, nx, ny, 0, 0) == c.bottomLeft
    ensures GridPoint(c, nx, ny, nx - 1, 0) == c.bottomRight
    ensures GridPoint(c, nx, ny, 0, ny - 1) == c.topLeft
    ensures GridPoint(c, nx, ny, nx - 1, ny - 1) == c.topRight
  {
    assert Fraction(nx - 1, nx) == 1.0;
    assert Fraction(ny - 1, ny) == 1.0;
  }

  /** A single column (row) pins the column (row) fraction at 0, so a 1 by 1
      grid is the bottom-left corner alone. */
  lemma GridDegenerate(c: Corners, nx: nat, ny: nat, ix: nat, iy: nat)
    ensures nx == 1 ==> GridPoint(c, nx, ny, ix, iy) == Lerp(c.bottomLeft, c.topLeft, Fraction(iy, ny))
    ensures ny == 1 ==> GridPoint(c, nx, ny, ix, iy) == Lerp(c.bottomLeft, c.bottomRight, Fraction(ix, nx))
    ensures nx == 1 && ny == 1 ==> GridPoint(c, nx, ny, ix, iy) == c.bottomLeft
  {
  }

  function Min(a: real, b: real): real { if a <= b then a else b }
  function Max(a: real, b: real): real { if a >= b then a else b }

  lemma MixBetween(a: real, b: real, f: real)
    requires 0.0 <= f <= 1.0
    ensures Min(a, b) <= Mix(a, b, f) <= Max(a, b)
  {
    assert Mix(a, b, f) == a + (b - a) * f;
    if a <= b {
      MulMonotone(0.0, f, b - a);
      MulMonotone(f, 1.0, b - a);
    } else {
      MulMonotone(0.0, f, a - b);
      MulMonotone(f, 1.0, a - b);
    }
  }

  lemma MulMonotone(a: real, b: real, s: real)
    requires a <= b && s >= 0.0
    ensures a * s <= b * s
  {
  }

  /** The four corner values of one coordinate. */
  function Lo(c: Corners, axis: nat): real
    requires axis < 3
  {
    Min(Min(Coord(c.bottomLeft, axis), Coord(c.bottomRight, axis)), Min(Coord(c.topRight, axis), Coord(c.topLeft, axis)))
  }

  function Hi(c: Corners, axis: nat): real
    requires axis < 3
  {
    Max(Max(Coord(c.bottomLeft, axis), Coord(c.bottomRight, axis)), Max(Coord(c.topRight, axis), Coord(c.topLeft, axis)))
  }

  function Coord(p: Position, axis: nat): real
    requires axis < 3
  {
    if axis == 0 then p.x else if axis == 1 then p.y else p.z
  }

  lemma CoordLerp(a: Position, b: Position, f: real, axis: nat)
    requires axis < 3
    ensures Coord(Lerp(a, b, f), axis) == Mix(Coord(a, axis), Coord(b, axis), f)
  {
  }

  /** Every target is a convex combination of the corners: each coordinate,
      Z included, lies between the corners' least and greatest values. */
  lemma GridWithinCorners(c: Corners, nx: nat, ny: nat, ix: nat, iy: nat, axis: nat)
    requires ix < nx && iy < ny && axis < 3
    ensures Lo(c, axis) <= Coord(GridPoint(c, nx, ny, ix, iy), axis) <= Hi(c, axis)
  {
    var fy := Fraction(iy, ny);
    var fx := Fraction(ix, nx);
    var left := Lerp(c.bottomLeft, c.topLeft, fy);
    var right := Lerp(c.bottomRight, c.topRight, fy);
    CoordLerp(c.bottomLeft, c.topLeft, fy, axis);
    CoordLerp(c.bottomRight, c.topRight, fy, axis);
    CoordLerp(left, right, fx, axis);
    MixBetween(Coord(c.bottomLeft, axis), Coord(c.topLeft, axis), fy);
    MixBetween(Coord(c.bottomRight, axis), Coord(c.topRight, axis), fy);
    MixBetween(Coord(left, axis), Coord(right, axis), fx);
  }

  /** Four equal corners give the same target in every cell. */
  lemma GridConstant(p: Position, nx: nat, ny: nat, ix: nat, iy: nat)
    ensures GridPoint(Corners(p, p, p, p), nx, ny, ix, iy) == p
  {
    var fy := Fraction(iy, ny);
    var fx := Fraction(ix, nx);
    assert forall a: real, f: real :: Mix(a, a, f) == a;
  }

  /** `int(ceil(length / step)) + 1` points along an edge of the given length. */
  function GridCount(length: real, step: real): (n: nat)
    requires length >= 0.0 && step > 0.0
    ensures n >= 1
  {
    Ceil(length / step) + 1
  }

  /** The points span the edge: n - 1 steps reach its length, n - 2 fall short. */
  lemma GridCountCovers(length: real, step: real)
    requires length >= 0.0 && step > 0.0
    ensures (GridCount(length, step) - 1) as real * step >= length
    ensures (GridCount(length, step) - 2) as real * step < length
  {
    CeilCovers(length, step);
  }

  /** `length` is the Euclidean distance between two stage points in the XY plane. */
  predicate IsPlanarDistance(length: real, a: Position, b: Position) {
    length >= 0.0 && length * length == (b.x - a.x) * (b.x - a.x) + (b.y - a.y) * (b.y - a.y)
  }

  // ---------------------------------------------------------------------
  // Local autofocus

  /** `np.arange(z - 0.5, z + 0.5 + 0.05, 0.1)`. */
  function LocalSweepHeights(zc: real): seq<real> {
    Arange(zc - LocalSweepRange / 2.0, zc + LocalSweepRange / 2.0 + LocalSweepStep / 2.0, LocalSweepStep)
  }

  /** Eleven heights 0.1 apart from z - 0.5 to z + 0.5, the middle one at z. */
  lemma LocalSweepShape(zc: real)
    ensures |LocalSweepHeights(zc)| == 11
    ensures LocalSweepHeights(zc)[0] == zc - 0.5
    ensures LocalSweepHeights(zc)[5] == zc
    ensures LocalSweepHeights(zc)[10] == zc + 0.5
  {
    var start := zc - LocalSweepRange / 2.0;
    var stop := zc + LocalSweepRange / 2.0 + LocalSweepStep / 2.0;
    assert (stop - start) / LocalSweepStep == 10.5;
    assert Ceil(10.5) == 11;
  }

  /** A tile needs refocusing exactly when its sharpness is strictly below 30. */
  predicate NeedsAutofocus(sharpness: real) {
    sharpness < SharpnessThreshold
  }

  datatype Focus = Focus(z: real, frame: Option<Frame>, sharpness: real)

  /** The outcome of `local_z_autofocus` over samples (height, frame, score):
      the first sample of greatest score, provided it beats the starting
      value -1; otherwise the centre height and no frame. */
  function PickSharpest(zc: real, zs: seq<real>, frames: seq<Frame>, scores: seq<real>): (f: Focus)
    requires |zs| == |frames| == |scores|
    ensures f.frame.None? <==> forall i :: 0 <= i < |scores| ==> scores[i] <= -1.0
    ensures f.frame.None? ==> f == Focus(zc, None, -1.0)
    ensures f.frame.Some? ==> exists k :: IsFirstMax(scores, k) && f == Focus(zs[k], Some(frames[k]), scores[k])
  {
    if |scores| == 0 then Focus(zc, None, -1.0)
    else
      var k := FirstMax(scores);
      if scores[k] > -1.0 then Focus(zs[k], Some(frames[k]), scores[k]) else Focus(zc, None, -1.0)
  }

  /** One more sample replaces the current best exactly when its score is
      strictly greater: the update of the autofocus loop. */
  lemma PickSharpestStep(zc: real, zs: seq<real>, frames: seq<Frame>, scores: seq<real>, z: real, f: Frame, s: real)
    requires |zs| == |frames| == |scores|
    ensures var p := PickSharpest(zc, zs, frames, scores);
            PickSharpest(zc, zs + [z], frames + [f], scores + [s]) == if s > p.sharpness then Focus(z, Some(f), s) else p
  {
    var sc := scores + [s];
    if |scores| > 0 {
      assert sc[..|sc| - 1] == scores;
    }
  }

  /** Scores are non-negative (a variance), so the sentinel never survives a
      nonempty sweep. */
  lemma PickSharpestFindsFrame(zc: real, zs: seq<real>, frames: seq<Frame>, scores: seq<real>)
    requires |zs| == |frames| == |scores| > 0
    requires forall i :: 0 <= i < |scores| ==> scores[i] >= 0.0
    ensures PickSharpest(zc, zs, frames, scores).frame.Some?
  {
    assert scores[0] > -1.0;
  }

  predicate Captured(feed: seq<Option<Frame>>) {
    forall i :: 0 <= i < |feed| ==> feed[i].Some?
  }

  function Frames(feed: seq<Option<Frame>>): (fs: seq<Frame>)
    requires Captured(feed)
    ensures |fs| == |feed| && forall i :: 0 <= i < |feed| ==> Some(fs[i]) == feed[i]
  {
    seq(|feed|, i requires 0 <= i < |feed| => feed[i].value)
  }

  function Scores(frames: seq<Frame>, sharpness: Frame -> real): (s: seq<real>)
    ensures |s| == |frames| && forall i :: 0 <= i < |frames| ==> s[i] == sharpness(frames[i])
  {
    seq(|frames|, i requires 0 <= i < |frames| => sharpness(frames[i]))
  }

  /** The absolute moves that put the stage at (x, y, z) for each height. */
  function Moves(x: real, y: real, zs: seq<real>): (cs: seq<Command>)
    ensures |cs| == |zs|
    ensures forall i :: 0 <= i < |zs| ==> cs[i] == LinearMove(DefaultFeedrate, AbsoluteWords(Some(x), Some(y), Some(zs[i])))
  {
    seq(|zs|, i requires 0 <= i < |zs| => LinearMove(DefaultFeedrate, AbsoluteWords(Some(x), Some(y), Some(zs[i]))))
  }

  lemma FramesStep(feed: seq<Option<Frame>>, i: nat)
    requires i < |feed| && Captured(feed[..i]) && feed[i].Some?
    ensures Captured(feed[..i + 1])
    ensures Frames(feed[..i + 1]) == Frames(feed[..i]) + [feed[i].value]
  {
    TakeSnoc(feed, i);
  }

  lemma ScoresStep(frames: seq<Frame>, f: Frame, sharpness: Frame -> real)
    ensures Scores(frames + [f], sharpness) == Scores(frames, sharpness) + [sharpness(f)]
  {
  }

  lemma MovesStep(x: real, y: real, zs: seq<real>, i: nat)
    requires i < |zs|
    ensures Moves(x, y, zs[..i + 1]) == Moves(x, y, zs[..i]) + [LinearMove(DefaultFeedrate, AbsoluteWords(Some(x), Some(y), Some(zs[i])))]
  {
  }

  /** The autofocus loop after `i` samples taken from `feed0`: the feed
      left, the frames read (all of them frames), the moves sent after
      `sent0`, and the sharpest sample so far. */
  ghost predicate Sampled(x: real, y: real, zc: real, zs: seq<real>, i: nat, feed0: seq<Option<Frame>>, feed: seq<Option<Frame>>,
                          frames: seq<Frame>, sharpness: Frame -> real, best: Focus, sent0: seq<Command>, sent: seq<Command>)
  {
    && i <= |zs| && i <= |feed0| && feed == feed0[i..]
    && Captured(feed0[..i]) && frames == Frames(feed0[..i])
    && sent == sent0 + Moves(x, y, zs[..i])
    && best == PickSharpest(zc, zs[..i], frames, Scores(frames, sharpness))
  }

  /** One more sample at height `zs[i]` with frame `f`: the frames, the
      moves and the best sample so far each grow by it. */
  lemma SampleStep(x: real, y: real, zc: real, zs: seq<real>, i: nat, feed0: seq<Option<Frame>>, frames: seq<Frame>,
                   sharpness: Frame -> real, best: Focus, sent0: seq<Command>, sent: seq<Command>, now: seq<Command>, f: Frame)
    requires i < |zs| && i < |feed0| && Sampled(x, y, zc, zs, i, feed0, feed0[i..], frames, sharpness, best, sent0, sent)
    requires feed0[i] == Some(f)
    requires now == sent + [LinearMove(DefaultFeedrate, AbsoluteWords(Some(x), Some(y), Some(zs[i])))]
    ensures Sampled(x, y, zc, zs, i + 1, feed0, feed0[i..][1..], frames + [f], sharpness,
                    if sharpness(f) > best.sharpness then Focus(zs[i], Some(f), sharpness(f)) else best, sent0, now)
  {
    MovesStep(x, y, zs, i);
    AppendAppend(sent0, sent, now, Moves(x, y, zs[..i]),
                 [LinearMove(DefaultFeedrate, AbsoluteWords(Some(x), Some(y), Some(zs[i])))]);
    FramesStep(feed0, i);
    ScoresStep(frames, f, sharpness);
    PickSharpestStep(zc, zs[..i], frames, Scores(frames, sharpness), zs[i], f, sharpness(f));
    TakeSnoc(zs, i);
    assert feed0[i..][1..] == feed0[i + 1..];
  }

  /** Before the first sample nothing is read or sent and the best is the
      starting value; after the last, the frames and moves are the whole
      sweep's and the best is the sweep's pick. */
  lemma SampledEnds(x: real, y: real, zc: real, zs: seq<real>, feed0: seq<Option<Frame>>, feed: seq<Option<Frame>>,
                    frames: seq<Frame>, sharpness: Frame -> real, best: Focus, sent0: seq<Command>, sent: seq<Command>)
    ensures Sampled(x, y, zc, zs, 0, feed0, feed0, [], sharpness, Focus(zc, None, -1.0), sent0, sent0)
    ensures Sampled(x, y, zc, zs, |zs|, feed0, feed, frames, sharpness, best, sent0, sent) ==>
      && |zs| <= |feed0| && Captured(feed0[..|zs|]) && feed == feed0[|zs|..]
      && sent == sent0 + Moves(x, y, zs)
      && frames == Frames(feed0[..|zs|]) && best == PickSharpest(zc, zs, frames, Scores(frames, sharpness))
  {
    assert zs[..|zs|] == zs;
    assert sent0 + Moves(x, y, zs[..0]) == sent0;
  }

  /** Moves the stage to (x, y, z) and reads one frame: the step shared by
      the tile visit and the autofocus loop. */
  method MoveAndCapture(printer: Printer, camera: Camera, x: real, y: real, z: real)
    returns (r: Result<Frame, Fault>)
    modifies printer`sent, printer`replies, printer`position, camera`feed
    ensures printer.position == Position(x, y, z)
    ensures r.Ok? ==>
      && printer.sent == old(printer.sent) + [LinearMove(DefaultFeedrate, AbsoluteWords(Some(x), Some(y), Some(z)))]
      && old(camera.feed) != [] && old(camera.feed)[0] == Some(r.value)
      && camera.feed == old(camera.feed)[1..]
    // with both devices cooperating the step succeeds on one reply line
    ensures printer.connected && camera.isConnected && Acknowledges(old(printer.replies), 1) && Delivers(old(camera.feed), 1) ==>
      r.Ok? && printer.replies == old(printer.replies)[1..]
  {
    if Acknowledges(printer.replies, 1) {
      AwaitAccepted(printer.replies);
    }
    var moved := printer.MoveToPosition(Some(x), Some(y), Some(z), DefaultFeedrate);
    if moved.Fail? {
      return Err(moved.error);
    }
    r := camera.CaptureFrame();
  }

  /** `local_z_autofocus`: visits the eleven heights around `zc`, one frame
      each, and keeps the sharpest sample; a failing move or capture ends it
      with that fault. */
  method LocalZAutofocus(printer: Printer, camera: Camera, x: real, y: real, zc: real, sharpness: Frame -> real)
    returns (r: Result<Focus, Fault>)
    modifies printer`sent, printer`replies, printer`position, camera`feed
    ensures r.Ok? ==>
      var zs := LocalSweepHeights(zc);
      && |zs| <= |old(camera.feed)|
      && Captured(old(camera.feed)[..|zs|])
      && camera.feed == old(camera.feed)[|zs|..]
      && printer.sent == old(printer.sent) + Moves(x, y, zs)
      && printer.position == Position(x, y, zs[|zs| - 1])
      && var frames := Frames(old(camera.feed)[..|zs|]);
         r.value == PickSharpest(zc, zs, frames, Scores(frames, sharpness))
    ensures printer.connected && camera.isConnected && Acknowledges(old(printer.replies), 11) && Delivers(old(camera.feed), 11) ==>
      r.Ok? && printer.replies == old(printer.replies)[11..]
  {
    LocalSweepShape(zc);
    r := SharpestAlong(printer, camera, x, y, zc, LocalSweepHeights(zc), sharpness);
  }

  /** One pass of the autofocus loop: move to height `zs[i]`, read a frame,
      score it, and keep it when it is strictly sharper than the best so far. */
  method SampleAt(printer: Printer, camera: Camera, x: real, y: real, zc: real, zs: seq<real>, i: nat, sharpness: Frame -> real,
                  best: Focus, ghost feed0: seq<Option<Frame>>, ghost frames: seq<Frame>, ghost sent0: seq<Command>,
                  ghost replies0: seq<string>, ghost coop: bool)
    returns (r: Result<(Focus, Frame), Fault>)
    requires i < |zs| && Sampled(x, y, zc, zs, i, feed0, camera.feed, frames, sharpness, best, sent0, printer.sent)
    requires coop ==>
      && printer.connected && camera.isConnected && Acknowledges(replies0, |zs|) && Delivers(feed0, |zs|)
      && printer.replies == replies0[i..]
    modifies printer`sent, printer`replies, printer`position, camera`feed
    ensures printer.position == Position(x, y, zs[i])
    ensures r.Ok? ==> Sampled(x, y, zc, zs, i + 1, feed0, camera.feed, frames + [r.value.1], sharpness, r.value.0, sent0, printer.sent)
    // devices that cooperate for the whole sweep let this sample through on one reply line
    ensures coop ==> r.Ok? && printer.replies == replies0[i + 1..]
  {
    if coop {
      CooperatesAt(replies0, feed0, |zs|, i);
    }
    ghost var sent := printer.sent;
    var frame := MoveAndCapture(printer, camera, x, y, zs[i]);
    if frame.Err? {
      return Err(frame.error);
    }
    var s := sharpness(frame.value);
    SampleStep(x, y, zc, zs, i, feed0, frames, sharpness, best, sent0, sent, printer.sent, frame.value);
    return Ok((if s > best.sharpness then Focus(zs[i], Some(frame.value), s) else best, frame.value));
  }

  /** The loop of `local_z_autofocus` over a given list of heights. */
  method SharpestAlong(printer: Printer, camera: Camera, x: real, y: real, zc: real, zs: seq<real>, sharpness: Frame -> real)
    returns (r: Result<Focus, Fault>)
    modifies printer`sent, printer`replies, printer`position, camera`feed
    ensures r.Ok? ==>
      && |zs| <= |old(camera.feed)|
      && Captured(old(camera.feed)[..|zs|])
      && camera.feed == old(camera.feed)[|zs|..]
      && printer.sent == old(printer.sent) + Moves(x, y, zs)
      && (|zs| > 0 ==> printer.position == Position(x, y, zs[|zs| - 1]))
      && var frames := Frames(old(camera.feed)[..|zs|]);
         r.value == PickSharpest(zc, zs, frames, Scores(frames, sharpness))
    ensures printer.connected && camera.isConnected && Acknowledges(old(printer.replies), |zs|) && Delivers(old(camera.feed), |zs|) ==>
      r.Ok? && printer.replies == old(printer.replies)[|zs|..]
  {
    ghost var replies0 := printer.replies;
    ghost var coop := printer.connected && camera.isConnected && Acknowledges(replies0, |zs|) && Delivers(camera.feed, |zs|);
    ghost var frames;
    r, frames := SampleAll(printer, camera, x, y, zc, zs, sharpness, replies0, coop);
    if r.Err? {
      assert !coop;
      return;
    }
    SampledEnds(x, y, zc, zs, old(camera.feed), camera.feed, frames, sharpness, r.value, old(printer.sent), printer.sent);
  }

  /** The loop of the sweep: a sample at each height in turn, stopping at
      the first fault. */
  method SampleAll(printer: Printer, camera: Camera, x: real, y: real, zc: real, zs: seq<real>, sharpness: Frame -> real,
                   ghost replies0: seq<string>, ghost coop: bool)
    returns (r: Result<Focus, Fault>, ghost frames: seq<Frame>)
    requires coop ==> printer.connected && camera.isConnected && Acknowledges(replies0, |zs|) && Delivers(camera.feed, |zs|)
                      && printer.replies == replies0
    modifies printer`sent, printer`replies, printer`position, camera`feed
    ensures r.Ok? ==>
      && Sampled(x, y, zc, zs, |zs|, old(camera.feed), camera.feed, frames, sharpness, r.value, old(printer.sent), printer.sent)
      && (|zs| > 0 ==> printer.position == Position(x, y, zs[|zs| - 1]))
    ensures coop ==> r.Ok? && printer.replies == replies0[|zs|..]
  {
    ghost var feed0 := camera.feed;
    ghost var sent0 := printer.sent;
    var best := Focus(zc, None, -1.0);
    frames := [];
    SampledEnds(x, y, zc, zs, feed0, feed0, frames, sharpness, best, sent0, sent0);
    for i := 0 to |zs|
      invariant Sampled(x, y, zc, zs, i, feed0, camera.feed, frames, sharpness, best, sent0, printer.sent)
      invariant i > 0 ==> printer.position == Position(x, y, zs[i - 1])
      invariant coop ==> printer.replies == replies0[i..]
    {
      var sample := SampleAt(printer, camera, x, y, zc, zs, i, sharpness, best, feed0, frames, sent0, replies0, coop);
      if sample.Err? {
        assert !coop;
        return Err(sample.error), frames;
      }
      frames := frames + [sample.value.1];
      best := sample.value.0;
    }
    return Ok(best), frames;
  }

  // ---------------------------------------------------------------------
  // One tile

  /** What a visit yields: the first sharpness, whether autofocus ran, and
      the height, sharpness and frame finally kept. */
  datatype Shot = Shot(firstSharpness: real, autofocused: bool, z: real, sharpness: real, frame: Frame)

  /** Autofocus runs exactly for a blurred first frame; otherwise the tile
      keeps the planned height and the first frame's sharpness. */
  predicate ShotRule(shot: Shot, target: Position) {
    && shot.autofocused == NeedsAutofocus(shot.firstSharpness)
    && (!shot.autofocused ==> shot.z == target.z && shot.sharpness == shot.firstSharpness)
  }

  /** The shot a visit at `target` takes from the frames it reads, or None
      when a read fails or the feed runs out: the first frame, and after a
      blurred one the sweep over the eleven local heights. */
  function Shoot(target: Position, feed: seq<Option<Frame>>, sharpness: Frame -> real): Option<Shot> {
    if feed == [] || feed[0].None? then None
    else
      var first := feed[0].value;
      var s := sharpness(first);
      if !NeedsAutofocus(s) then Some(Shot(s, false, target.z, s, first))
      else Refocus(target.z, s, feed[1..], sharpness)
  }

  /** The shot after a blurred first frame of sharpness `first`: the
      sharpest of the frames the sweep about `zc` reads from `feed`. A sweep
      that keeps no frame leaves nothing to save, which `cv2.imwrite`
      refuses. */
  function Refocus(zc: real, first: real, feed: seq<Option<Frame>>, sharpness: Frame -> real): Option<Shot> {
    var zs := LocalSweepHeights(zc);
    if |feed| < |zs| || !Captured(feed[..|zs|]) then None
    else
      var frames := Frames(feed[..|zs|]);
      var focus := PickSharpest(zc, zs, frames, Scores(frames, sharpness));
      if focus.frame.None? then None else Some(Shot(first, true, focus.z, focus.sharpness, focus.frame.value))
  }

  /** How many frames a visit reads: one, and eleven more when it refocuses. */
  function Reads(target: Position, shot: Shot): nat {
    if shot.autofocused then 1 + |LocalSweepHeights(target.z)| else 1
  }

  /** The absolute move to (x, y, z). */
  function MoveTo(p: Position): Command {
    LinearMove(DefaultFeedrate, AbsoluteWords(Some(p.x), Some(p.y), Some(p.z)))
  }

  /** The commands of a visit: the move to the target, then the sweep's
      moves when it refocuses. */
  function TileCommands(target: Position, shot: Shot): seq<Command> {
    [MoveTo(target)] + if shot.autofocused then Moves(target.x, target.y, LocalSweepHeights(target.z)) else []
  }

  /** Where a visit leaves the stage: at the target, or at the top of the
      sweep (the stage is not sent back to the height it keeps). */
  function TileEnd(target: Position, shot: Shot): Position {
    if shot.autofocused then Position(target.x, target.y, target.z + 0.5) else target
  }

  /** Executed in absolute mode, the sweep's moves leave the stage at the
      last height, above the sweep's (x, y). */
  lemma {:induction false} MovesRun(p: Position, x: real, y: real, zs: seq<real>)
    requires zs != []
    ensures Run(Machine(false, p), Moves(x, y, zs)) == Machine(false, Position(x, y, zs[|zs| - 1]))
    decreases |zs|
  {
    var cs := Moves(x, y, zs);
    AbsoluteMoveAgrees(p, Some(x), Some(y), Some(zs[0]), DefaultFeedrate);
    var q := Position(x, y, zs[0]);
    assert Execute(Machine(false, p), cs[0]) == Machine(false, q);
    if |zs| == 1 {
      assert cs[1..] == [];
    } else {
      assert cs[1..] == Moves(x, y, zs[1..]);
      MovesRun(q, x, y, zs[1..]);
    }
  }

  /** The commands of a visit, executed from anywhere in absolute mode, put
      the stage exactly where the visit's tracked end position says. */
  lemma TileRun(p: Position, target: Position, shot: Shot)
    ensures Run(Machine(false, p), TileCommands(target, shot)) == Machine(false, TileEnd(target, shot))
  {
    AbsoluteMoveAgrees(p, Some(target.x), Some(target.y), Some(target.z), DefaultFeedrate);
    if shot.autofocused {
      var zs := LocalSweepHeights(target.z);
      LocalSweepShape(target.z);
      RunAppend(Machine(false, p), [MoveTo(target)], Moves(target.x, target.y, zs));
      MovesRun(target, target.x, target.y, zs);
    } else {
      assert TileCommands(target, shot) == [MoveTo(target)];
    }
  }

  /** What a shot is, read off the frames: the autofocus rule holds; without
      refocusing the shot is the first frame; after refocusing it is the
      sharpest of the eleven sweep frames, at its own height, and the first
      of them to reach that sharpness. The frames read are all frames. */
  lemma ShootRule(target: Position, feed: seq<Option<Frame>>, sharpness: Frame -> real)
    requires Shoot(target, feed, sharpness).Some?
    ensures var shot := Shoot(target, feed, sharpness).value;
      && ShotRule(shot, target)
      && Reads(target, shot) <= |feed| && Captured(feed[..Reads(target, shot)])
      && shot.firstSharpness == sharpness(feed[0].value)
      && (!shot.autofocused ==> shot.frame == feed[0].value)
      && (shot.autofocused ==>
            exists k ::
              && 0 <= k < 11
              && shot.z == LocalSweepHeights(target.z)[k]
              && Some(shot.frame) == feed[1 + k]
              && shot.sharpness == sharpness(shot.frame)
              && (forall j :: 1 <= j < 12 ==> sharpness(feed[j].value) <= shot.sharpness)
              && (forall j :: 1 <= j < 1 + k ==> sharpness(feed[j].value) < shot.sharpness))
  {
    var shot := Shoot(target, feed, sharpness).value;
    var zs := LocalSweepHeights(target.z);
    LocalSweepShape(target.z);
    if shot.autofocused {
      var rest := feed[1..];
      var frames := Frames(rest[..|zs|]);
      var scores := Scores(frames, sharpness);
      var k :| IsFirstMax(scores, k) && PickSharpest(target.z, zs, frames, scores) == Focus(zs[k], Some(frames[k]), scores[k]);
      assert Some(frames[k]) == feed[1 + k];
      forall j | 1 <= j < 12
        ensures sharpness(feed[j].value) == scores[j - 1]
      {
        assert Some(frames[j - 1]) == rest[j - 1] == feed[j];
      }
      assert Captured(feed[..12]) by {
        forall j | 0 <= j < 12
          ensures feed[..12][j].Some?
        {
          if j > 0 {
            assert feed[j] == rest[..|zs|][j - 1];
          }
        }
      }
    } else {
      assert feed[..1] == [feed[0]];
    }
  }

  /** A visit with the frames it needs always keeps a frame: sharpness is a
      variance, so the sweep's sentinel -1 is always beaten. */
  lemma ShootDefined(target: Position, feed: seq<Option<Frame>>, sharpness: Frame -> real)
    requires forall f: Frame :: sharpness(f) >= 0.0
    requires |feed| >= 12 && Captured(feed[..12])
    ensures Shoot(target, feed, sharpness).Some?
  {
    var zs := LocalSweepHeights(target.z);
    LocalSweepShape(target.z);
    assert feed[0] == feed[..12][0];
    var rest := feed[1..];
    assert Captured(rest[..|zs|]) by {
      forall j | 0 <= j < |zs|
        ensures rest[..|zs|][j].Some?
      {
        assert rest[..|zs|][j] == feed[..12][j + 1];
      }
    }
    var frames := Frames(rest[..|zs|]);
    PickSharpestFindsFrame(target.z, zs, frames, Scores(frames, sharpness));
  }

  /** The shot a visit takes obeys the autofocus rule. */
  lemma ShootKeepsRule(target: Position, feed: seq<Option<Frame>>, sharpness: Frame -> real)
    requires Shoot(target, feed, sharpness).Some?
    ensures ShotRule(Shoot(target, feed, sharpness).value, target)
  {
    ShootRule(target, feed, sharpness);
  }

  /** Moves to the target, captures and scores a frame, and refocuses locally
      when the score is below the threshold. */
  method VisitTile(printer: Printer, camera: Camera, target: Position, sharpness: Frame -> real)
    returns (r: Result<Shot, Fault>)
    requires forall f: Frame :: sharpness(f) >= 0.0
    modifies printer`sent, printer`replies, printer`position, camera`feed
    ensures r.Ok? ==>
      && Shoot(target, old(camera.feed), sharpness) == Some(r.value)
      && Reads(target, r.value) <= |old(camera.feed)|
      && camera.feed == old(camera.feed)[Reads(target, r.value)..]
      && printer.sent == old(printer.sent) + TileCommands(target, r.value)
      && printer.position == TileEnd(target, r.value)
    // with both devices cooperating for a refocused visit's twelve moves and
    // reads the visit succeeds, one reply line per command it sends
    ensures printer.connected && camera.isConnected && Acknowledges(old(printer.replies), 12) && Delivers(old(camera.feed), 12) ==>
      r.Ok? && printer.replies == old(printer.replies)[|TileCommands(target, r.value)|..]
  {
    CooperatesSplit(printer.replies, camera.feed, 1, 11);
    LocalSweepShape(target.z);
    var frame :- MoveAndCapture(printer, camera, target.x, target.y, target.z);
    var s := sharpness(frame);
    if !NeedsAutofocus(s) {
      return Ok(Shot(s, false, target.z, s, frame));
    }
    r := RefocusTile(printer, camera, target, s, sharpness);
    if r.Ok? {
      assert old(camera.feed)[1..][11..] == old(camera.feed)[12..];
    }
  }

  /** The refocusing part of a visit after a first frame of sharpness `s`:
      the local sweep about the target's height, keeping its sharpest frame. */
  method RefocusTile(printer: Printer, camera: Camera, target: Position, s: real, sharpness: Frame -> real)
    returns (r: Result<Shot, Fault>)
    requires forall f: Frame :: sharpness(f) >= 0.0
    modifies printer`sent, printer`replies, printer`position, camera`feed
    ensures r.Ok? ==>
      && Refocus(target.z, s, old(camera.feed), sharpness) == Some(r.value)
      && 11 <= |old(camera.feed)| && camera.feed == old(camera.feed)[11..]
      && printer.sent == old(printer.sent) + Moves(target.x, target.y, LocalSweepHeights(target.z))
      && printer.position == Position(target.x, target.y, target.z + 0.5)
    ensures printer.connected && camera.isConnected && Acknowledges(old(printer.replies), 11) && Delivers(old(camera.feed), 11) ==>
      r.Ok? && printer.replies == old(printer.replies)[11..]
  {
    var focus :- LocalZAutofocus(printer, camera, target.x, target.y, target.z, sharpness);
    ghost var zs := LocalSweepHeights(target.z);
    LocalSweepShape(target.z);
    ghost var frames := Frames(old(camera.feed)[..|zs|]);
    PickSharpestFindsFrame(target.z, zs, frames, Scores(frames, sharpness));
    return Ok(Shot(s, true, focus.z, focus.sharpness, focus.frame.value));
  }

  // ---------------------------------------------------------------------
  // Registration and the composite

  /** A 3 by 3 perspective transform; its entries are not interpreted here. */
  type Homography = seq<real>

  /** What feature detection and matching report for (reference, tile):
      whether each image yielded descriptors, how many cross-checked matches
      there are, and the RANSAC homography if one was found. */
  datatype Features = Features(referenceDescribed: bool, tileDescribed: bool, matches: nat, homography: Option<Homography>)

  datatype Registration = Seeded | NoReference | NoFeatures | TooFewMatches | NoHomography | Warped(h: Homography)

  /** The neighbour a tile is matched against: the left one, else the one above. */
  function Reference(cell: Cell): Option<Cell> {
    if cell.0 > 0 then Some((cell.0 - 1, cell.1))
    else if cell.1 > 0 then Some((cell.0, cell.1 - 1))
    else None
  }

  /** Every tile but the first has a neighbour that was visited before it. */
  lemma ReferenceVisitedEarlier(nx: nat, ny: nat, k: nat)
    requires 0 < k < |RowMajor(nx, ny)|
    ensures Reference(RowMajor(nx, ny)[k]).Some?
    ensures exists j :: 0 <= j < k && RowMajor(nx, ny)[j] == Reference(RowMajor(nx, ny)[k]).value
  {
    var cell := RowMajor(nx, ny)[k];
    RowMajorInRange(nx, ny, k);
    RowMajorIndex(nx, ny, k);
    var ix, iy := cell.0, cell.1;
    if ix > 0 {
      RowMajorAt(nx, ny, ix - 1, iy);
    } else {
      RowMajorAt(nx, ny, 0, iy - 1);
      assert (iy - 1) * nx == iy * nx - nx;
    }
  }

  /** The tile is warped in only when both images have descriptors, there are
      more than ten matches and a homography was found. */
  function Decide(f: Features): (reg: Registration)
    ensures reg.Warped? <==> f.referenceDescribed && f.tileDescribed && f.matches > MinMatches && f.homography.Some?
    ensures reg.Warped? ==> reg.h == f.homography.value
    ensures reg == NoFeatures <==> !(f.referenceDescribed && f.tileDescribed)
    ensures reg != Seeded && reg != NoReference
  {
    if !(f.referenceDescribed && f.tileDescribed) then NoFeatures
    else if f.matches <= MinMatches then TooFewMatches
    else if f.homography.None? then NoHomography
    else Warped(f.homography.value)
  }

  /** Where the perspective-warped tile writes the composite pixel (row,
      column), the value written; None where it does not cover that pixel. */
  type Warper = (Frame, Homography, nat, nat) -> Option<Pixel>

  predicate Rect(m: seq<seq<Pixel>>, h: nat, w: nat) {
    |m| == h && forall r :: 0 <= r < h ==> |m[r]| == w
  }

  /** `warpPerspective(..., dst=composite, BORDER_TRANSPARENT)`: covered pixels
      are overwritten, the others kept, and the size stays the composite's. */
  function WarpOnto(m: seq<seq<Pixel>>, frame: Frame, h: Homography, warp: Warper): (out: seq<seq<Pixel>>)
    ensures |out| == |m| && forall r :: 0 <= r < |m| ==> |out[r]| == |m[r]|
    ensures forall r, c :: 0 <= r < |m| && 0 <= c < |m[r]| && warp(frame, h, r, c).None? ==> out[r][c] == m[r][c]
    ensures forall r, c :: 0 <= r < |m| && 0 <= c < |m[r]| && warp(frame, h, r, c).Some? ==> out[r][c] == warp(frame, h, r, c).value
  {
    seq(|m|, r requires 0 <= r < |m| =>
      seq(|m[r]|, c requires 0 <= c < |m[r]| =>
        match warp(frame, h, r, c)
        case Some(p) => p
        case None => m[r][c]))
  }

  function Apply(m: seq<seq<Pixel>>, frame: Frame, reg: Registration, warp: Warper): seq<seq<Pixel>> {
    if reg.Warped? then WarpOnto(m, frame, reg.h, warp) else m
  }

  datatype Tile = Tile(cell: Cell, target: Position, shot: Shot, registration: Registration)

  /** The composite after the given tiles: the first frame, then each later
      tile applied as its registration says. */
  function Composite(tiles: seq<Tile>, warp: Warper): seq<seq<Pixel>>
    requires |tiles| > 0
    decreases |tiles|
  {
    if |tiles| == 1 then tiles[0].shot.frame.rows
    else
      var last := tiles[|tiles| - 1];
      Apply(Composite(tiles[..|tiles| - 1], warp), last.shot.frame, last.registration, warp)
  }

  /** The first frame fixes the composite's size for every later warp. */
  lemma {:induction false} CompositeShape(tiles: seq<Tile>, warp: Warper)
    requires |tiles| > 0
    ensures Rect(Composite(tiles, warp), tiles[0].shot.frame.Height(), tiles[0].shot.frame.Width())
    decreases |tiles|
  {
    if |tiles| > 1 {
      var prefix := tiles[..|tiles| - 1];
      CompositeShape(prefix, warp);
      assert prefix[0] == tiles[0];
    }
  }

  /** A tile that was not warped leaves the composite as it was. */
  lemma CompositeKeepsUnwarped(tiles: seq<Tile>, t: Tile, warp: Warper)
    requires |tiles| > 0 && !t.registration.Warped?
    ensures Composite(tiles + [t], warp) == Composite(tiles, warp)
  {
    assert (tiles + [t])[..|tiles|] == tiles;
  }

  predicate Holds(a: array2<Pixel>, m: seq<seq<Pixel>>)
    reads a
  {
    Rect(m, a.Length0, a.Length1)
    && forall r, c :: 0 <= r < a.Length0 && 0 <= c < a.Length1 ==> a[r, c] == m[r][c]
  }

  /** The composite buffer exists once a tile has been done and holds the
      composite of the tiles done. */
  predicate Stitched(tiles: seq<Tile>, stitched: array2?<Pixel>, warp: Warper)
    reads if stitched == null then {} else {stitched}
  {
    && (stitched == null <==> tiles == [])
    && (stitched != null ==> Holds(stitched, Composite(tiles, warp)))
  }

  /** `stitched = frame.copy()`. */
  method Seed(frame: Frame) returns (a: array2<Pixel>)
    ensures fresh(a) && Holds(a, frame.rows)
  {
    var h, w := frame.Height(), frame.Width();
    a := new Pixel[h, w];
    for r := 0 to h
      invariant forall i, j :: 0 <= i < r && 0 <= j < w ==> a[i, j] == frame.rows[i][j]
    {
      for c := 0 to w
        invariant forall i, j :: 0 <= i < r && 0 <= j < w ==> a[i, j] == frame.rows[i][j]
        invariant forall j :: 0 <= j < c ==> a[r, j] == frame.rows[r][j]
      {
        a[r, c] := frame.rows[r][c];
      }
    }
  }

  /** The in-place warp into the composite buffer. */
  method WarpInPlace(a: array2<Pixel>, ghost m: seq<seq<Pixel>>, frame: Frame, h: Homography, warp: Warper)
    requires Holds(a, m)
    modifies a
    ensures Holds(a, WarpOnto(m, frame, h, warp))
  {
    ghost var out := WarpOnto(m, frame, h, warp);
    for r := 0 to a.Length0
      invariant forall i, j :: 0 <= i < r && 0 <= j < a.Length1 ==> a[i, j] == out[i][j]
      invariant forall i, j :: r <= i < a.Length0 && 0 <= j < a.Length1 ==> a[i, j] == m[i][j]
    {
      for c := 0 to a.Length1
        invariant forall i, j :: 0 <= i < r && 0 <= j < a.Length1 ==> a[i, j] == out[i][j]
        invariant forall i, j :: r < i < a.Length0 && 0 <= j < a.Length1 ==> a[i, j] == m[i][j]
        invariant forall j :: 0 <= j < c ==> a[r, j] == out[r][j]
        invariant forall j :: c <= j < a.Length1 ==> a[r, j] == m[r][j]
      {
        match warp(frame, h, r, c)
        case Some(p) => a[r, c] := p;
        case None =>
      }
    }
  }

  // ---------------------------------------------------------------------
  // The sweep

  function Cells(tiles: seq<Tile>): (cs: seq<Cell>)
    ensures |cs| == |tiles| && forall k :: 0 <= k < |tiles| ==> cs[k] == tiles[k].cell
  {
    seq(|tiles|, k requires 0 <= k < |tiles| => tiles[k].cell)
  }

  /** What holds of the tiles done so far: each at its planned target under
      the autofocus rule, each frame saved under its cell, the first tile
      seeding the composite and every later one registered against the saved
      frame of its neighbour. */
  ghost predicate Progress(tiles: seq<Tile>, saved: map<Cell, Frame>, corners: Corners, nx: nat, ny: nat, features: (Frame, Frame) -> Features) {
    && AtTargets(tiles, corners, nx, ny)
    && SavedExactly(tiles, saved)
    && (|tiles| > 0 ==> tiles[0].registration == Seeded)
    && (forall k :: 0 < k < |tiles| ==> Registered(tiles[k], saved, features))
  }

  /** Each tile at its planned target under the autofocus rule. */
  ghost predicate AtTargets(tiles: seq<Tile>, corners: Corners, nx: nat, ny: nat) {
    && (forall k :: 0 <= k < |tiles| ==> tiles[k].target == GridPoint(corners, nx, ny, tiles[k].cell.0, tiles[k].cell.1))
    && (forall k :: 0 <= k < |tiles| ==> ShotRule(tiles[k].shot, tiles[k].target))
  }

  /** The saved frames are exactly those of the tiles, under their cells. */
  ghost predicate SavedExactly(tiles: seq<Tile>, saved: map<Cell, Frame>) {
    && (forall c :: c in saved <==> c in Cells(tiles))
    && (forall k :: 0 <= k < |tiles| ==> tiles[k].cell in saved && saved[tiles[k].cell] == tiles[k].shot.frame)
  }

  predicate Registered(t: Tile, saved: map<Cell, Frame>, features: (Frame, Frame) -> Features) {
    && Reference(t.cell).Some? && Reference(t.cell).value in saved
    && t.registration == Decide(features(saved[Reference(t.cell).value], t.shot.frame))
  }

  lemma VisitedExtend(tiles: seq<Tile>, t: Tile, corners: Corners, nx: nat, ny: nat)
    requires AtTargets(tiles, corners, nx, ny)
    requires t.target == GridPoint(corners, nx, ny, t.cell.0, t.cell.1) && ShotRule(t.shot, t.target)
    ensures AtTargets(tiles + [t], corners, nx, ny)
  {
    var tiles' := tiles + [t];
    assert forall k :: 0 <= k < |tiles| ==> tiles'[k] == tiles[k];
  }

  lemma SavedExtend(tiles: seq<Tile>, saved: map<Cell, Frame>, t: Tile)
    requires SavedExactly(tiles, saved) && t.cell !in saved
    ensures SavedExactly(tiles + [t], saved[t.cell := t.shot.frame])
    ensures Cells(tiles + [t]) == Cells(tiles) + [t.cell]
  {
    var tiles', saved' := tiles + [t], saved[t.cell := t.shot.frame];
    assert Cells(tiles') == Cells(tiles) + [t.cell];
    forall k | 0 <= k < |tiles'|
      ensures tiles'[k].cell in saved' && saved'[tiles'[k].cell] == tiles'[k].shot.frame
    {
      if k < |tiles| {
        assert tiles'[k] == tiles[k] && tiles[k].cell in saved;
      }
    }
    forall c
      ensures c in saved' <==> c in Cells(tiles')
    {
      assert c in Cells(tiles') <==> c in Cells(tiles) || c == t.cell;
    }
  }

  lemma RegisteredExtend(tiles: seq<Tile>, saved: map<Cell, Frame>, t: Tile, features: (Frame, Frame) -> Features)
    requires SavedExactly(tiles, saved) && t.cell !in saved
    requires forall k :: 0 < k < |tiles| ==> Registered(tiles[k], saved, features)
    requires tiles != [] ==> Registered(t, saved[t.cell := t.shot.frame], features)
    ensures forall k :: 0 < k < |tiles + [t]| ==> Registered((tiles + [t])[k], saved[t.cell := t.shot.frame], features)
  {
    var tiles', saved' := tiles + [t], saved[t.cell := t.shot.frame];
    forall k | 0 < k < |tiles'|
      ensures Registered(tiles'[k], saved', features)
    {
      if k < |tiles| {
        assert tiles'[k] == tiles[k];
        assert Registered(tiles[k], saved, features);
        assert Reference(tiles[k].cell).value != t.cell;
      }
    }
  }

  /** Appending a tile whose cell is new, planned, visited under the autofocus
      rule and seeded (first) or registered (later) keeps the progress facts. */
  lemma ProgressStep(tiles: seq<Tile>, saved: map<Cell, Frame>, t: Tile, corners: Corners, nx: nat, ny: nat, features: (Frame, Frame) -> Features)
    requires Progress(tiles, saved, corners, nx, ny, features)
    requires t.cell !in saved
    requires t.target == GridPoint(corners, nx, ny, t.cell.0, t.cell.1) && ShotRule(t.shot, t.target)
    requires tiles == [] ==> t.registration == Seeded
    requires tiles != [] ==> Registered(t, saved[t.cell := t.shot.frame], features)
    ensures Progress(tiles + [t], saved[t.cell := t.shot.frame], corners, nx, ny, features)
    ensures Cells(tiles + [t]) == Cells(tiles) + [t.cell]
  {
    VisitedExtend(tiles, t, corners, nx, ny);
    SavedExtend(tiles, saved, t);
    RegisteredExtend(tiles, saved, t, features);
    if tiles != [] {
      assert (tiles + [t])[0] == tiles[0];
    }
  }

  lemma CompositeStep(tiles: seq<Tile>, t: Tile, warp: Warper)
    requires |tiles| > 0
    ensures Composite(tiles + [t], warp) == Apply(Composite(tiles, warp), t.shot.frame, t.registration, warp)
  {
    assert (tiles + [t])[..|tiles|] == tiles;
  }

  /** The commands the visits of the tiles send, in order. */
  function Log(tiles: seq<Tile>): seq<Command>
    decreases |tiles|
  {
    if tiles == [] then []
    else Log(tiles[..|tiles| - 1]) + TileCommands(tiles[|tiles| - 1].target, tiles[|tiles| - 1].shot)
  }

  /** The frames the visits of the tiles read, in all. */
  function Used(tiles: seq<Tile>): nat
    decreases |tiles|
  {
    if tiles == [] then 0
    else Used(tiles[..|tiles| - 1]) + Reads(tiles[|tiles| - 1].target, tiles[|tiles| - 1].shot)
  }

  /** The whole log of the visits, executed from anywhere in absolute mode,
      leaves the stage where the last visit ended. */
  lemma {:induction false} LogRun(p: Position, tiles: seq<Tile>)
    requires tiles != []
    ensures Run(Machine(false, p), Log(tiles)) == Machine(false, TileEnd(tiles[|tiles| - 1].target, tiles[|tiles| - 1].shot))
    decreases |tiles|
  {
    var before, last := tiles[..|tiles| - 1], tiles[|tiles| - 1];
    RunAppend(Machine(false, p), Log(before), TileCommands(last.target, last.shot));
    if before == [] {
      TileRun(p, last.target, last.shot);
    } else {
      LogRun(p, before);
      var b := before[|before| - 1];
      TileRun(TileEnd(b.target, b.shot), last.target, last.shot);
    }
  }

  /** Tile i's shot is the one its visit takes from the frames left by the
      visits before it. */
  ghost predicate FedAt(tiles: seq<Tile>, i: nat, feed: seq<Option<Frame>>, sharpness: Frame -> real)
    requires i < |tiles|
  {
    && Used(tiles[..i]) <= |feed|
    && Shoot(tiles[i].target, feed[Used(tiles[..i])..], sharpness) == Some(tiles[i].shot)
  }

  /** Every tile's shot is the one its visit takes from the frames left by
      the visits before it. */
  ghost predicate Fed(tiles: seq<Tile>, feed: seq<Option<Frame>>, sharpness: Frame -> real) {
    forall i: nat :: i < |tiles| ==> FedAt(tiles, i, feed, sharpness)
  }

  lemma FedSnoc(tiles: seq<Tile>, t: Tile, feed: seq<Option<Frame>>, sharpness: Frame -> real)
    requires Fed(tiles, feed, sharpness) && Used(tiles) <= |feed|
    requires Shoot(t.target, feed[Used(tiles)..], sharpness) == Some(t.shot)
    ensures Fed(tiles + [t], feed, sharpness)
  {
    forall i: nat | i < |tiles| + 1
      ensures FedAt(tiles + [t], i, feed, sharpness)
    {
      if i < |tiles| {
        assert (tiles + [t])[..i] == tiles[..i];
        assert FedAt(tiles, i, feed, sharpness);
      } else {
        assert (tiles + [t])[..i] == tiles;
      }
    }
  }

  lemma LogSnoc(tiles: seq<Tile>, t: Tile)
    ensures Log(tiles + [t]) == Log(tiles) + TileCommands(t.target, t.shot)
    ensures Used(tiles + [t]) == Used(tiles) + Reads(t.target, t.shot)
  {
    assert (tiles + [t])[..|tiles|] == tiles;
  }

  /** The stage, feed and command log after the tiles' visits, from the
      initial feed `f0` and log `s0`: the frames the visits read are gone,
      their commands were sent, and the stage is where the last visit left it. */
  ghost predicate Trail(tiles: seq<Tile>, f0: seq<Option<Frame>>, f: seq<Option<Frame>>, s0: seq<Command>, s: seq<Command>,
                        pos: Position, sharpness: Frame -> real)
  {
    && Used(tiles) <= |f0| && f == f0[Used(tiles)..]
    && s == s0 + Log(tiles)
    && Fed(tiles, f0, sharpness)
    && (tiles != [] ==> pos == TileEnd(tiles[|tiles| - 1].target, tiles[|tiles| - 1].shot))
  }

  /** One more visit extends the trail. */
  lemma TrailStep(tiles: seq<Tile>, f0: seq<Option<Frame>>, f: seq<Option<Frame>>, s0: seq<Command>, s: seq<Command>,
                  pos: Position, sharpness: Frame -> real, t: Tile, f': seq<Option<Frame>>, s': seq<Command>, pos': Position)
    requires Trail(tiles, f0, f, s0, s, pos, sharpness)
    requires Shoot(t.target, f, sharpness) == Some(t.shot)
    requires Reads(t.target, t.shot) <= |f| && f' == f[Reads(t.target, t.shot)..]
    requires s' == s + TileCommands(t.target, t.shot) && pos' == TileEnd(t.target, t.shot)
    ensures Trail(tiles + [t], f0, f', s0, s', pos', sharpness)
  {
    var tiles' := tiles + [t];
    FedSnoc(tiles, t, f0, sharpness);
    LogSnoc(tiles, t);
    DropDrop(f0, Used(tiles), Reads(t.target, t.shot));
    assert f' == f0[Used(tiles')..];
    AppendAppend(s0, s, s', Log(tiles), TileCommands(t.target, t.shot));
    assert s' == s0 + Log(tiles');
    assert tiles'[|tiles'| - 1] == t;
  }

  /** A visit sends at most twelve commands and reads at most twelve
      frames: one of each, and eleven more when it refocuses. */
  lemma TileBounds(target: Position, shot: Shot)
    ensures |TileCommands(target, shot)| <= 12 && Reads(target, shot) <= 12
  {
    LocalSweepShape(target.z);
  }

  /** Devices cooperating for a sweep of `n` tiles: the printer acknowledges
      the first `12 * n` commands and the camera delivers the first `12 * n`
      reads. After `k` visits, which sent the commands after `s0` and read
      the frames before `feed`, each command has taken exactly one reply
      line, and each visit at most twelve commands and twelve frames. */
  ghost predicate Paced(k: nat, n: nat, replies0: seq<string>, f0: seq<Option<Frame>>, s0: seq<Command>,
                        sent: seq<Command>, feed: seq<Option<Frame>>, replies: seq<string>) {
    && k <= n && Acknowledges(replies0, 12 * n) && Delivers(f0, 12 * n)
    && |s0| <= |sent| <= |s0| + 12 * k && replies == replies0[|sent| - |s0|..]
    && |feed| <= |f0| <= |feed| + 12 * k && feed == f0[|f0| - |feed|..]
  }

  /** However far the sweep got, each command sent took one reply line. */
  lemma PacedEnd(k: nat, n: nat, replies0: seq<string>, f0: seq<Option<Frame>>, s0: seq<Command>,
                 sent: seq<Command>, feed: seq<Option<Frame>>, replies: seq<string>)
    requires Paced(k, n, replies0, f0, s0, sent, feed, replies)
    ensures |s0| <= |sent| <= |s0| + |replies0| && replies == replies0[|sent| - |s0|..]
  {
  }

  /** Under `coop`, both devices are connected and keep pace with the
      sweep after `k` visits. */
  ghost predicate OnPace(coop: bool, printer: Printer, camera: Camera, k: nat, n: nat, replies0: seq<string>,
                         f0: seq<Option<Frame>>, s0: seq<Command>)
    reads printer, camera
  {
    coop ==> printer.connected && camera.isConnected && Paced(k, n, replies0, f0, s0, printer.sent, camera.feed, printer.replies)
  }

  /** Before the first visit the devices are at the start of their budget. */
  lemma PacedStart(n: nat, replies0: seq<string>, f0: seq<Option<Frame>>, s0: seq<Command>)
    requires Acknowledges(replies0, 12 * n) && Delivers(f0, 12 * n)
    ensures Paced(0, n, replies0, f0, s0, s0, f0, replies0)
  {
    assert replies0[0..] == replies0 && f0[0..] == f0;
  }

  /** Before a further visit the devices still cooperate for twelve steps. */
  lemma PacedRoom(k: nat, n: nat, replies0: seq<string>, f0: seq<Option<Frame>>, s0: seq<Command>,
                  sent: seq<Command>, feed: seq<Option<Frame>>, replies: seq<string>)
    requires Paced(k, n, replies0, f0, s0, sent, feed, replies) && k < n
    ensures Acknowledges(replies, 12) && Delivers(feed, 12)
  {
    AcknowledgesWithin(replies0, 12 * n, |sent| - |s0|, 12);
    DeliversWithin(f0, 12 * n, |f0| - |feed|, 12);
  }

  /** A further visit that sends the commands `cs` and reads `m` frames, at
      most twelve of each, taking one reply line per command, keeps pace. */
  lemma PacedStep(k: nat, n: nat, replies0: seq<string>, f0: seq<Option<Frame>>, s0: seq<Command>,
                  sent: seq<Command>, feed: seq<Option<Frame>>, replies: seq<string>, cs: seq<Command>, m: nat)
    requires Paced(k, n, replies0, f0, s0, sent, feed, replies) && k < n
    requires |cs| <= 12 && m <= 12 && m <= |feed| && |cs| <= |replies|
    ensures Paced(k + 1, n, replies0, f0, s0, sent + cs, feed[m..], replies[|cs|..])
  {
    DropDrop(replies0, |sent| - |s0|, |cs|);
    DropDrop(f0, |f0| - |feed|, m);
  }

  /** The stitching half of a visit: the shot's frame is saved under its
      cell and seeds the composite (first tile) or is registered against
      the saved frame of the neighbour and warped into it. */
  method RegisterTile(cell: Cell, target: Position, shot: Shot, corners: Corners, nx: nat, ny: nat,
                      features: (Frame, Frame) -> Features, warp: Warper,
                      tiles: seq<Tile>, saved: map<Cell, Frame>, stitched: array2?<Pixel>)
    returns (t: Tile, saved': map<Cell, Frame>, stitched': array2?<Pixel>)
    requires Progress(tiles, saved, corners, nx, ny, features)
    requires cell !in saved
    requires tiles != [] ==> Reference(cell).Some? && Reference(cell).value in saved
    requires Stitched(tiles, stitched, warp)
    requires target == GridPoint(corners, nx, ny, cell.0, cell.1) && ShotRule(shot, target)
    modifies stitched
    ensures t.cell == cell && t.target == target && t.shot == shot
    ensures saved' == saved[cell := shot.frame]
    ensures Progress(tiles + [t], saved', corners, nx, ny, features)
    ensures Cells(tiles + [t]) == Cells(tiles) + [cell]
    ensures stitched' != null && Holds(stitched', Composite(tiles + [t], warp))
    ensures stitched' == stitched || (stitched == null && fresh(stitched'))
  {
    saved' := saved[cell := shot.frame];
    var reg: Registration;
    if stitched == null {
      stitched' := Seed(shot.frame);
      reg := Seeded;
    } else {
      var ref := Reference(cell).value;
      reg := Decide(features(saved'[ref], shot.frame));
      ghost var m := Composite(tiles, warp);
      if reg.Warped? {
        WarpInPlace(stitched, m, shot.frame, reg.h, warp);
      }
      stitched' := stitched;
      CompositeStep(tiles, Tile(cell, target, shot, reg), warp);
    }
    t := Tile(cell, target, shot, reg);
    ProgressStep(tiles, saved, t, corners, nx, ny, features);
  }

  /** Visits one tile, saves its frame, and seeds or registers it into the
      composite. */
  method ProcessTile(printer: Printer, camera: Camera, cell: Cell, corners: Corners, nx: nat, ny: nat,
                     sharpness: Frame -> real, features: (Frame, Frame) -> Features, warp: Warper,
                     tiles: seq<Tile>, saved: map<Cell, Frame>, stitched: array2?<Pixel>,
                     ghost f0: seq<Option<Frame>>, ghost s0: seq<Command>,
                     ghost coop: bool, ghost n: nat, ghost replies0: seq<string>)
    returns (r: Outcome<Fault>, tiles': seq<Tile>, saved': map<Cell, Frame>, stitched': array2?<Pixel>)
    requires Progress(tiles, saved, corners, nx, ny, features)
    requires Trail(tiles, f0, camera.feed, s0, printer.sent, printer.position, sharpness)
    requires cell !in saved
    requires tiles != [] ==> Reference(cell).Some? && Reference(cell).value in saved
    requires Stitched(tiles, stitched, warp)
    requires forall f: Frame :: sharpness(f) >= 0.0
    requires coop ==> |tiles| < n
    requires OnPace(coop, printer, camera, |tiles|, n, replies0, f0, s0)
    modifies printer`sent, printer`replies, printer`position, camera`feed, stitched
    ensures r.Pass? ==>
      && Progress(tiles', saved', corners, nx, ny, features)
      && Trail(tiles', f0, camera.feed, s0, printer.sent, printer.position, sharpness)
      && Cells(tiles') == Cells(tiles) + [cell]
      && stitched' != null && Holds(stitched', Composite(tiles', warp))
      && (stitched' == stitched || (stitched == null && fresh(stitched')))
    ensures coop ==> r.Pass? && |tiles'| == |tiles| + 1
    ensures OnPace(coop, printer, camera, |tiles'|, n, replies0, f0, s0)
  {
    var target := GridPoint(corners, nx, ny, cell.0, cell.1);
    ghost var f, s, pos, replies := camera.feed, printer.sent, printer.position, printer.replies;
    if coop {
      PacedRoom(|tiles|, n, replies0, f0, s0, s, f, replies);
    }
    var visit := VisitTile(printer, camera, target, sharpness);
    if visit.Err? {
      assert !coop;
      return Fail(visit.error), tiles, saved, stitched;
    }
    var shot := visit.value;
    if coop {
      TileBounds(target, shot);
      PacedStep(|tiles|, n, replies0, f0, s0, s, f, replies, TileCommands(target, shot), Reads(target, shot));
    }
    ShootKeepsRule(target, f, sharpness);
    var t;
    t, saved', stitched' := RegisterTile(cell, target, shot, corners, nx, ny, features, warp, tiles, saved, stitched);
    TrailStep(tiles, f0, f, s0, s, pos, sharpness, t, camera.feed, printer.sent, printer.position);
    tiles' := tiles + [t];
    r := Pass;
  }

  /** What the sweep keeps true of the tiles done so far: their progress,
      the trail of their visits and the composite they built. */
  ghost predicate Sweeping(tiles: seq<Tile>, saved: map<Cell, Frame>, stitched: array2?<Pixel>, corners: Corners, nx: nat, ny: nat,
                           features: (Frame, Frame) -> Features, warp: Warper, sharpness: Frame -> real,
                           f0: seq<Option<Frame>>, f: seq<Option<Frame>>, s0: seq<Command>, s: seq<Command>, pos: Position)
    reads if stitched == null then {} else {stitched}
  {
    && Progress(tiles, saved, corners, nx, ny, features)
    && Trail(tiles, f0, f, s0, s, pos, sharpness)
    && Stitched(tiles, stitched, warp)
  }

  /** Cell (ix, iy) in its turn: the cells before it have been visited, and
      afterwards it has been too. */
  method ProcessCell(printer: Printer, camera: Camera, ix: nat, iy: nat, corners: Corners, nx: nat, ny: nat,
                     sharpness: Frame -> real, features: (Frame, Frame) -> Features, warp: Warper,
                     tiles: seq<Tile>, saved: map<Cell, Frame>, stitched: array2?<Pixel>,
                     ghost f0: seq<Option<Frame>>, ghost s0: seq<Command>,
                     ghost coop: bool, ghost n: nat, ghost replies0: seq<string>)
    returns (r: Outcome<Fault>, tiles': seq<Tile>, saved': map<Cell, Frame>, stitched': array2?<Pixel>)
    requires ix < nx && Cells(tiles) == Visited(nx, iy, ix)
    requires Sweeping(tiles, saved, stitched, corners, nx, ny, features, warp, sharpness,
                      f0, camera.feed, s0, printer.sent, printer.position)
    requires forall f: Frame :: sharpness(f) >= 0.0
    requires coop ==> iy < ny && n == |RowMajor(nx, ny)|
    requires OnPace(coop, printer, camera, |tiles|, n, replies0, f0, s0)
    modifies printer`sent, printer`replies, printer`position, camera`feed, stitched
    ensures r.Pass? ==>
      && Cells(tiles') == Visited(nx, iy, ix + 1)
      && Sweeping(tiles', saved', stitched', corners, nx, ny, features, warp, sharpness,
                  f0, camera.feed, s0, printer.sent, printer.position)
      && (stitched' == stitched || (stitched == null && fresh(stitched')))
    ensures coop ==> r.Pass?
    ensures OnPace(coop, printer, camera, |tiles'|, n, replies0, f0, s0)
  {
    NextCellFresh(nx, iy, ix);
    NextCellFirst(nx, iy, ix);
    if (ix, iy) != (0, 0) {
      NextCellReference(nx, iy, ix);
    }
    if coop {
      VisitedCount(nx, ny, iy, ix);
    }
    r, tiles', saved', stitched' := ProcessTile(printer, camera, (ix, iy), corners, nx, ny, sharpness, features, warp, tiles, saved, stitched,
                                                f0, s0, coop, n, replies0);
    if r.Pass? {
      VisitedStep(nx, iy, ix);
    }
  }

  /** The cells visited before (ix, iy) in row-major order. */
  function Visited(nx: nat, iy: nat, ix: nat): seq<Cell>
    requires ix <= nx
  {
    RowMajor(nx, iy) + Row(nx, iy)[..ix]
  }

  /** Fewer cells than the grid holds come before a cell of the grid. */
  lemma VisitedCount(nx: nat, ny: nat, iy: nat, ix: nat)
    requires ix < nx && iy < ny
    ensures |Visited(nx, iy, ix)| < |RowMajor(nx, ny)|
  {
    RowMajorLength(nx, iy);
    RowMajorAt(nx, ny, ix, iy);
    assert nx * iy == iy * nx;
  }

  lemma RowDone(nx: nat, iy: nat)
    ensures Visited(nx, iy, nx) == RowMajor(nx, iy + 1)
  {
    assert Row(nx, iy)[..nx] == Row(nx, iy);
  }

  lemma VisitedStep(nx: nat, iy: nat, ix: nat)
    requires ix < nx
    ensures Visited(nx, iy, ix + 1) == Visited(nx, iy, ix) + [(ix, iy)]
    ensures ix + 1 == nx ==> Visited(nx, iy, ix + 1) == RowMajor(nx, iy + 1)
  {
    assert Row(nx, iy)[..ix + 1] == Row(nx, iy)[..ix] + [(ix, iy)];
    assert Row(nx, iy)[..nx] == Row(nx, iy);
  }

  /** Cell (ix, iy) has not been visited before its turn. */
  lemma NextCellFresh(nx: nat, iy: nat, ix: nat)
    requires ix < nx
    ensures (ix, iy) !in Visited(nx, iy, ix)
  {
    RowMajorCovers(nx, iy, (ix, iy));
    var prefix := Row(nx, iy)[..ix];
    assert forall j :: 0 <= j < ix ==> prefix[j].0 < ix;
  }

  /** Its neighbour has been visited, unless it is the first cell. */
  lemma NextCellReference(nx: nat, iy: nat, ix: nat)
    requires ix < nx && (ix, iy) != (0, 0)
    ensures Reference((ix, iy)).Some? && Reference((ix, iy)).value in Visited(nx, iy, ix)
  {
    var v := Visited(nx, iy, ix);
    if ix > 0 {
      var prefix := Row(nx, iy)[..ix];
      assert prefix[ix - 1] == (ix - 1, iy);
      assert v[|RowMajor(nx, iy)| + ix - 1] == (ix - 1, iy);
    } else {
      RowMajorCovers(nx, iy, (0, iy - 1));
    }
  }

  /** Nothing has been visited exactly at the first cell. */
  lemma NextCellFirst(nx: nat, iy: nat, ix: nat)
    requires ix < nx
    ensures (ix, iy) == (0, 0) <==> Visited(nx, iy, ix) == []
  {
    if iy > 0 {
      RowMajorCovers(nx, iy, (0, 0));
    }
  }

  /** One pass of the inner loop: the cells of row `iy`, left to right. */
  method SweepRow(printer: Printer, camera: Camera, iy: nat, corners: Corners, nx: nat, ny: nat,
                  sharpness: Frame -> real, features: (Frame, Frame) -> Features, warp: Warper,
                  tiles: seq<Tile>, saved: map<Cell, Frame>, stitched: array2?<Pixel>,
                  ghost f0: seq<Option<Frame>>, ghost s0: seq<Command>,
                  ghost coop: bool, ghost n: nat, ghost replies0: seq<string>)
    returns (r: Outcome<Fault>, tiles': seq<Tile>, saved': map<Cell, Frame>, stitched': array2?<Pixel>)
    requires Cells(tiles) == RowMajor(nx, iy)
    requires Sweeping(tiles, saved, stitched, corners, nx, ny, features, warp, sharpness,
                      f0, camera.feed, s0, printer.sent, printer.position)
    requires forall f: Frame :: sharpness(f) >= 0.0
    requires coop ==> iy < ny && n == |RowMajor(nx, ny)|
    requires OnPace(coop, printer, camera, |tiles|, n, replies0, f0, s0)
    modifies printer`sent, printer`replies, printer`position, camera`feed, stitched
    ensures r.Pass? ==>
      && Cells(tiles') == RowMajor(nx, iy + 1)
      && Sweeping(tiles', saved', stitched', corners, nx, ny, features, warp, sharpness,
                  f0, camera.feed, s0, printer.sent, printer.position)
      && (stitched' == stitched || (stitched == null && fresh(stitched')))
    ensures coop ==> r.Pass?
    ensures OnPace(coop, printer, camera, |tiles'|, n, replies0, f0, s0)
  {
    tiles', saved', stitched' := tiles, saved, stitched;
    for ix := 0 to nx
      invariant Cells(tiles') == Visited(nx, iy, ix)
      invariant Sweeping(tiles', saved', stitched', corners, nx, ny, features, warp, sharpness,
                         f0, camera.feed, s0, printer.sent, printer.position)
      invariant stitched' == stitched || (stitched == null && fresh(stitched'))
      invariant OnPace(coop, printer, camera, |tiles'|, n, replies0, f0, s0)
    {
      r, tiles', saved', stitched' := ProcessCell(printer, camera, ix, iy, corners, nx, ny, sharpness, features, warp, tiles', saved', stitched',
                                                  f0, s0, coop, n, replies0);
      if r.Fail? {
        assert !coop;
        return;
      }
    }
    RowDone(nx, iy);
    r := Pass;
  }

  /** Once every row is done, the saved frames are those of the grid's
      cells, and a non-empty grid has seeded the composite. */
  lemma SweepCovers(tiles: seq<Tile>, saved: map<Cell, Frame>, stitched: array2?<Pixel>, corners: Corners, nx: nat, ny: nat,
                    features: (Frame, Frame) -> Features, warp: Warper)
    requires Cells(tiles) == RowMajor(nx, ny)
    requires Progress(tiles, saved, corners, nx, ny, features) && Stitched(tiles, stitched, warp)
    ensures forall c :: c in saved <==> c.0 < nx && c.1 < ny
    ensures nx > 0 && ny > 0 ==> |tiles| > 0 && tiles[0].registration == Seeded && stitched != null
  {
    forall c | true
      ensures c in saved <==> c.0 < nx && c.1 < ny
    {
      RowMajorCovers(nx, ny, c);
    }
    RowMajorCovers(nx, ny, (0, 0));
  }

  /** The rows of the grid in turn, stopping at the first stage or camera
      fault. */
  method SweepRows(corners: Corners, nx: nat, ny: nat, printer: Printer, camera: Camera,
                   sharpness: Frame -> real, features: (Frame, Frame) -> Features, warp: Warper,
                   ghost coop: bool, ghost n: nat, ghost replies0: seq<string>)
    returns (r: Outcome<Fault>, tiles: seq<Tile>, saved: map<Cell, Frame>, stitched: array2?<Pixel>)
    requires forall f: Frame :: sharpness(f) >= 0.0
    requires coop ==> n == |RowMajor(nx, ny)|
    requires OnPace(coop, printer, camera, 0, n, replies0, camera.feed, printer.sent)
    modifies printer`sent, printer`replies, printer`position, camera`feed
    ensures r.Pass? ==>
      && Cells(tiles) == RowMajor(nx, ny)
      && Sweeping(tiles, saved, stitched, corners, nx, ny, features, warp, sharpness,
                  old(camera.feed), camera.feed, old(printer.sent), printer.sent, printer.position)
      && (stitched != null ==> fresh(stitched))
    ensures coop ==> r.Pass?
    ensures OnPace(coop, printer, camera, |tiles|, n, replies0, old(camera.feed), old(printer.sent))
  {
    tiles, saved, stitched := [], map[], null;
    for iy := 0 to ny
      invariant Cells(tiles) == RowMajor(nx, iy)
      invariant Sweeping(tiles, saved, stitched, corners, nx, ny, features, warp, sharpness,
                         old(camera.feed), camera.feed, old(printer.sent), printer.sent, printer.position)
      invariant stitched != null ==> fresh(stitched)
      invariant OnPace(coop, printer, camera, |tiles|, n, replies0, old(camera.feed), old(printer.sent))
    {
      r, tiles, saved, stitched := SweepRow(printer, camera, iy, corners, nx, ny, sharpness, features, warp, tiles, saved, stitched,
                                            old(camera.feed), old(printer.sent), coop, n, replies0);
      if r.Fail? {
        assert !coop;
        return;
      }
    }
    r := Pass;
  }

  /** The loop of `main` over the grid: every cell in row-major order,
      stopping at the first stage or camera fault. */
  method Sweep(corners: Corners, nx: nat, ny: nat, printer: Printer, camera: Camera,
               sharpness: Frame -> real, features: (Frame, Frame) -> Features, warp: Warper)
    returns (r: Outcome<Fault>, tiles: seq<Tile>, saved: map<Cell, Frame>, stitched: array2?<Pixel>)
    requires forall f: Frame :: sharpness(f) >= 0.0
    modifies printer`sent, printer`replies, printer`position, camera`feed
    ensures r.Pass? ==>
      && Cells(tiles) == RowMajor(nx, ny)
      && (forall c :: c in saved <==> c.0 < nx && c.1 < ny)
      && Sweeping(tiles, saved, stitched, corners, nx, ny, features, warp, sharpness,
                  old(camera.feed), camera.feed, old(printer.sent), printer.sent, printer.position)
      && (nx > 0 && ny > 0 ==> |tiles| > 0 && tiles[0].registration == Seeded && stitched != null)
      && (stitched != null ==> fresh(stitched))
    // devices that cooperate for twelve commands and reads per cell let the
    // sweep through, each command it sends taking one reply line
    ensures var budget := 12 * |RowMajor(nx, ny)|;
      printer.connected && camera.isConnected && Acknowledges(old(printer.replies), budget) && Delivers(old(camera.feed), budget) ==>
        && r.Pass?
        && |old(printer.sent)| <= |printer.sent| <= |old(printer.sent)| + |old(printer.replies)|
        && printer.replies == old(printer.replies)[|printer.sent| - |old(printer.sent)|..]
  {
    ghost var replies0 := printer.replies;
    ghost var n := |RowMajor(nx, ny)|;
    ghost var coop := printer.connected && camera.isConnected && Acknowledges(replies0, 12 * n) && Delivers(camera.feed, 12 * n);
    if coop {
      PacedStart(n, replies0, camera.feed, printer.sent);
    }
    r, tiles, saved, stitched := SweepRows(corners, nx, ny, printer, camera, sharpness, features, warp, coop, n, replies0);
    if r.Fail? {
      assert !coop;
      return;
    }
    SweepCovers(tiles, saved, stitched, corners, nx, ny, features, warp);
    if coop {
      PacedEnd(|tiles|, n, replies0, old(camera.feed), old(printer.sent), printer.sent, camera.feed, printer.replies);
    }
  }

  /** `main` once the grid is computed: both devices are connected (the
      `assert`s), then every cell is visited in row-major order, stopping at
      the first stage or camera fault, which is left uncaught. After the
      sweep both devices are released. The run is fixed by the frames the
      camera delivers: the stage visits the grid points, refocusing where a
      frame is blurred, each tile is seeded or registered against its saved
      neighbour, and the composite is the one the tiles build. */
  method SweepAndStitch(corners: Corners, width: real, height: real, printer: Printer, camera: Camera, w: Wiring,
                        sharpness: Frame -> real, features: (Frame, Frame) -> Features, warp: Warper)
    returns (r: Outcome<Fault>, tiles: seq<Tile>, saved: map<Cell, Frame>, stitched: array2?<Pixel>)
    requires IsPlanarDistance(width, corners.bottomLeft, corners.bottomRight)
    requires IsPlanarDistance(height, corners.bottomLeft, corners.topLeft)
    requires forall f: Frame :: sharpness(f) >= 0.0
    modifies printer`sent, printer`replies, printer`position, printer`connected, camera`feed
    modifies camera`hasCapture, camera`isConnected, camera`frameWidth, camera`frameHeight
    ensures !(w.discovered.Some? && w.printerOpens && w.cameraOpens) ==>
      && r.Fail? && tiles == [] && printer.sent == old(printer.sent) && camera.feed == old(camera.feed)
    ensures r.Pass? ==>
      var nx, ny := GridCount(width, GridStepX), GridCount(height, GridStepY);
      && Cells(tiles) == RowMajor(nx, ny)
      && (forall c :: c in saved <==> c.0 < nx && c.1 < ny)
      && Sweeping(tiles, saved, stitched, corners, nx, ny, features, warp, sharpness,
                  old(camera.feed), camera.feed, old(printer.sent), printer.sent, printer.position)
      && |tiles| > 0 && tiles[0].registration == Seeded && stitched != null && fresh(stitched)
      && !printer.connected && !camera.isConnected
    // with both devices found and opened, and cooperating for twelve
    // commands and reads per cell of the grid, the whole grid is visited
    ensures var budget := 12 * |RowMajor(GridCount(width, GridStepX), GridCount(height, GridStepY))|;
      (w.discovered.Some? && w.printerOpens && w.cameraOpens
       && Acknowledges(old(printer.replies), budget) && Delivers(old(camera.feed), budget)) ==> r.Pass?
  {
    tiles, saved, stitched := [], map[], null;
    r := ConnectHardware(printer, camera, w);
    if r.Fail? {
      return;
    }
    assert camera.feed == old(camera.feed) && printer.sent == old(printer.sent);
    var nx := GridCount(width, GridStepX);
    var ny := GridCount(height, GridStepY);
    r, tiles, saved, stitched := Sweep(corners, nx, ny, printer, camera, sharpness, features, warp);
    if r.Fail? {
      return;
    }
    printer.Disconnect();
    camera.Disconnect();
  }
}
