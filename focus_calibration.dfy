/** Focus calibration: from the calibrated slide centre, find the sharpest
    height by a coarse then a fine sweep (optionally after choosing X/Y by
    hand), or let the operator pick the height directly. */
module FocusCalibration {
  import opened Wrappers
  import opened Faults
  import opened Text
  import opened Numeric
  import opened Selection
  import opened Jog
  import opened PrinterInterface
  import opened CameraInterface
  import opened Raster
  import opened JogSession
  import opened Hardware
  import opened SlidePositionCalibration

  /** `np.linspace(c - range/2, c + range/2, steps)`. */
  function SweepHeights(center: real, range: real, steps: nat): (zs: seq<real>)
    ensures |zs| == steps
    ensures steps >= 1 ==> zs[0] == center - range / 2.0
    ensures steps >= 2 ==> zs[steps - 1] == center + range / 2.0
    ensures steps >= 2 ==> forall i :: 0 <= i < steps - 1 ==> zs[i + 1] - zs[i] == range / (steps - 1) as real
  {
    var start := center - range / 2.0;
    if steps == 1 then [start]
    else
      var gap := range / (steps - 1) as real;
      seq(steps, i requires 0 <= i < steps => start + i as real * gap)
  }

  /** Every height lies within half the range of the centre, and with an odd
      count of at least three the middle one is the centre itself (a single
      height is the low end). */
  lemma SweepHeightsAround(center: real, range: real, steps: nat)
    requires range >= 0.0
    ensures forall z :: z in SweepHeights(center, range, steps) ==> center - range / 2.0 <= z <= center + range / 2.0
    ensures steps >= 2 && steps % 2 == 1 ==> SweepHeights(center, range, steps)[steps / 2] == center
  {
    if steps >= 2 {
      SweepHeightsWithin(center, range, steps);
      if steps % 2 == 1 {
        SweepHeightsMiddle(center, range, steps);
      }
    }
  }

  lemma SweepHeightsWithin(center: real, range: real, steps: nat)
    requires range >= 0.0 && steps >= 2
    ensures forall i :: 0 <= i < steps ==> center - range / 2.0 <= SweepHeights(center, range, steps)[i] <= center + range / 2.0
  {
    var zs := SweepHeights(center, range, steps);
    var gap := range / (steps - 1) as real;
    var last := (steps - 1) as real;
    assert last * gap == range;
    forall i | 0 <= i < steps
      ensures center - range / 2.0 <= zs[i] <= center + range / 2.0
    {
      var x := i as real;
      assert zs[i] == center - range / 2.0 + x * gap;
      OffsetWithin(center - range / 2.0, x, last, gap);
    }
  }

  lemma SweepHeightsMiddle(center: real, range: real, steps: nat)
    requires steps >= 2 && steps % 2 == 1
    ensures SweepHeights(center, range, steps)[steps / 2] == center
  {
    var gap := range / (steps - 1) as real;
    var m := steps / 2;
    assert (steps - 1) as real == 2.0 * m as real;
    assert m as real * gap == range / 2.0;
  }

  /** `lo + x * gap` lies between `lo` and `lo + last * gap` for `x` in
      [0, last] and a nonnegative gap. */
  lemma OffsetWithin(lo: real, x: real, last: real, gap: real)
    requires 0.0 <= x <= last && gap >= 0.0
    ensures lo <= lo + x * gap <= lo + last * gap
  {
    if gap > 0.0 {
      MulMonotone(0.0, x, gap);
      MulMonotone(x, last, gap);
    }
  }

  /** The two stages of the automatic modes: 17 heights 0.5 mm apart over 8 mm,
      then 21 heights 0.1 mm apart over 2 mm. */
  const CoarseRange: real := 8.0
  const CoarseSteps: nat := 17
  const FineRange: real := 2.0
  const FineSteps: nat := 21

  lemma SweepPlans(c: real)
    ensures forall i :: 0 <= i < CoarseSteps - 1 ==> SweepHeights(c, CoarseRange, CoarseSteps)[i + 1] - SweepHeights(c, CoarseRange, CoarseSteps)[i] == 0.5
    ensures forall i :: 0 <= i < FineSteps - 1 ==> SweepHeights(c, FineRange, FineSteps)[i + 1] - SweepHeights(c, FineRange, FineSteps)[i] == 0.1
    ensures SweepHeights(c, CoarseRange, CoarseSteps)[CoarseSteps / 2] == c
    ensures SweepHeights(c, FineRange, FineSteps)[FineSteps / 2] == c
  {
    SweepHeightsAround(c, CoarseRange, CoarseSteps);
    SweepHeightsAround(c, FineRange, FineSteps);
  }

  /** The point `plot_focus_results` marks: `np.argmax` of the sharpness
      values, with its height. */
  function PlotMarker(rs: seq<SweepEntry>): (m: Result<SweepEntry, Fault>)
    ensures m == BestEntry(rs)
  {
    if |rs| == 0 then Err(EmptySequence)
    else
      var zs := seq(|rs|, i requires 0 <= i < |rs| => rs[i].z);
      var k := FirstMax(Sharpnesses(rs));
      Ok(SweepEntry(zs[k], Sharpnesses(rs)[k]))
  }

  /** The JSON record `save_focus_calibration` writes. */
  datatype FocusRecord = FocusRecord(optimalZ: real, maxSharpness: Option<real>, centerX: real, centerY: real)

  /** Both sweeps of an automatic run and the record they produce. */
  datatype FocusRun = FocusRun(coarse: seq<SweepEntry>, fine: seq<SweepEntry>, record: FocusRecord)

  /** The heights a sweep visited, in order. */
  predicate Swept(rs: seq<SweepEntry>, zs: seq<real>) {
    |rs| == |zs| && forall i :: 0 <= i < |rs| ==> rs[i].z == zs[i]
  }

  /** The best of a fine sweep around the best of a coarse one is within
      5 mm of where the coarse sweep was centred. */
  lemma TwoStageBound(z0: real, coarse: seq<SweepEntry>, fine: seq<SweepEntry>)
    requires Swept(coarse, SweepHeights(z0, CoarseRange, CoarseSteps))
    requires BestEntry(coarse).Ok?
    requires Swept(fine, SweepHeights(BestEntry(coarse).value.z, FineRange, FineSteps))
    requires BestEntry(fine).Ok?
    ensures z0 - 5.0 <= BestEntry(fine).value.z <= z0 + 5.0
  {
    var cb, fb := BestEntry(coarse).value, BestEntry(fine).value;
    SweepHeightsAround(z0, CoarseRange, CoarseSteps);
    var i :| 0 <= i < |coarse| && coarse[i] == cb;
    assert cb.z in SweepHeights(z0, CoarseRange, CoarseSteps);
    SweepHeightsAround(cb.z, FineRange, FineSteps);
    var j :| 0 <= j < |fine| && fine[j] == fb;
    assert fb.z in SweepHeights(cb.z, FineRange, FineSteps);
  }

  /** The record of an automatic run: the fine sweep's best height and
      sharpness, with the centre of the loaded slide record. */
  function AutoRecord(slide: SlideRecord, fine: seq<SweepEntry>): FocusRecord
    requires BestEntry(fine).Ok?
  {
    FocusRecord(BestEntry(fine).value.z, Some(BestEntry(fine).value.sharpness), slide.centerX, slide.centerY)
  }

  /** The commands of `setup_positioning` when every one is acknowledged. */
  function CenterScript(slide: SlideRecord): seq<Command> {
    [Home, LinearMove(DefaultFeedrate, AbsoluteWords(Some(slide.centerX), Some(slide.centerY), Some(slide.centerZ)))]
  }

  /** The height the operator settles on in manual mode, starting from the
      calibrated centre. */
  function ManualHeight(slide: SlideRecord, keys: seq<char>): real {
    Displace(Position(slide.centerX, slide.centerY, slide.centerZ), Drive(FocusLayout, DefaultStepKey, keys).moves).z
  }

  class FocusCalibrator {
    const printer: Printer
    const camera: Camera
    /** `slide_position`, once loaded. */
    var slide: Option<SlideRecord>

    constructor (printer: Printer, camera: Camera)
      ensures this.printer == printer && this.camera == camera && slide == None
    {
      this.printer := printer;
      this.camera := camera;
      slide := None;
    }

    /** `load_slide_position`: a missing record is an error. */
    method LoadSlidePosition(stored: Option<SlideRecord>) returns (r: Outcome<Fault>)
      modifies this`slide
      ensures stored.None? ==> r == Fail(SlideNotCalibrated) && slide == old(slide)
      ensures stored.Some? ==> r == Pass && slide == stored
    {
      if stored.None? {
        return Fail(SlideNotCalibrated);
      }
      slide := stored;
      return Pass;
    }

    /** `setup_positioning`: home, then go to the calibrated slide centre. */
    method SetupPositioning() returns (r: Outcome<Fault>)
      requires slide.Some?
      modifies printer`sent, printer`replies, printer`position
      ensures !printer.connected ==> r == Fail(PrinterNotConnected) && printer.sent == old(printer.sent)
      ensures r.Pass? ==>
        && printer.sent == old(printer.sent) + CenterScript(slide.value)
        && printer.position == Position(slide.value.centerX, slide.value.centerY, slide.value.centerZ)
      ensures printer.sent <= old(printer.sent) + CenterScript(slide.value)
    {
      var s := slide.value;
      r := printer.HomePrinter();
      if r.Fail? {
        return;
      }
      r := printer.MoveToPosition(Some(s.centerX), Some(s.centerY), Some(s.centerZ), DefaultFeedrate);
    }

    /** `automated_focus_sweep`: a sweep centred on the current height. */
    method AutomatedFocusSweep(range: real, steps: nat, sharpness: Frame -> real)
      returns (r: Result<(seq<SweepEntry>, SweepEntry), Fault>)
      modifies camera`feed, printer`sent, printer`replies, printer`position
      ensures r.Ok? ==> Swept(r.value.0, SweepHeights(old(printer.position).z, range, steps))
      ensures r.Ok? ==> BestEntry(r.value.0) == Ok(r.value.1)
      ensures r.Ok? ==> |old(camera.feed)| >= steps && camera.feed == old(camera.feed)[steps..]
      ensures printer.position.x == old(printer.position.x) && printer.position.y == old(printer.position.y)
      ensures camera.isConnected && printer.connected && steps > 0
              && Acknowledges(old(printer.replies), steps) && Delivers(old(camera.feed), steps) ==>
        r.Ok? && printer.replies == old(printer.replies)[steps..]
    {
      var current := printer.GetPosition();
      var zs := SweepHeights(current.z, range, steps);
      r := camera.FocusSweepAnalysis(zs, printer, sharpness);
    }

    /** `fine_focus_sweep`: a sweep centred on a given height. */
    method FineFocusSweep(bestZ: real, range: real, steps: nat, sharpness: Frame -> real)
      returns (r: Result<(seq<SweepEntry>, SweepEntry), Fault>)
      modifies camera`feed, printer`sent, printer`replies, printer`position
      ensures r.Ok? ==> Swept(r.value.0, SweepHeights(bestZ, range, steps))
      ensures r.Ok? ==> BestEntry(r.value.0) == Ok(r.value.1)
      ensures r.Ok? ==> |old(camera.feed)| >= steps && camera.feed == old(camera.feed)[steps..]
      ensures printer.position.x == old(printer.position.x) && printer.position.y == old(printer.position.y)
      ensures camera.isConnected && printer.connected && steps > 0
              && Acknowledges(old(printer.replies), steps) && Delivers(old(camera.feed), steps) ==>
        r.Ok? && printer.replies == old(printer.replies)[steps..]
    {
      var zs := SweepHeights(bestZ, range, steps);
      r := camera.FocusSweepAnalysis(zs, printer, sharpness);
    }

    /** `test_focus_position`: go to the height and score one frame there. */
    method TestFocusPosition(optimalZ: real, sharpness: Frame -> real) returns (r: Result<real, Fault>)
      modifies camera`feed, printer`sent, printer`replies, printer`position
      ensures printer.position == Position(old(printer.position).x, old(printer.position).y, optimalZ)
      ensures r.Ok? ==> printer.sent == old(printer.sent) + [ZMove(optimalZ)]
      ensures r.Ok? ==>
        && |old(camera.feed)| > 0 && old(camera.feed)[0].Some?
        && camera.feed == old(camera.feed)[1..]
        && r.value == sharpness(old(camera.feed)[0].value)
      ensures camera.isConnected && printer.connected && Acknowledges(old(printer.replies), 1) && Delivers(old(camera.feed), 1) ==>
        r.Ok? && printer.replies == old(printer.replies)[1..]
    {
      if Acknowledges(printer.replies, 1) {
        AwaitAccepted(printer.replies);
      }
      var moved := printer.MoveToPosition(None, None, Some(optimalZ), DefaultFeedrate);
      if moved.Fail? {
        return Err(moved.error);
      }
      var frame := camera.CaptureFrame();
      if frame.Err? {
        return Err(frame.error);
      }
      return Ok(sharpness(frame.value));
    }

    /** The coarse sweep, the fine sweep around its best, and the final test
        capture; the record carries the fine sweep's best. */
    method TwoStageSweep(sharpness: Frame -> real) returns (r: Result<FocusRun, Fault>)
      requires slide.Some?
      modifies camera`feed, printer`sent, printer`replies, printer`position
      ensures r.Ok? ==>
        && Swept(r.value.coarse, SweepHeights(old(printer.position).z, CoarseRange, CoarseSteps))
        && BestEntry(r.value.coarse).Ok?
        && Swept(r.value.fine, SweepHeights(BestEntry(r.value.coarse).value.z, FineRange, FineSteps))
        && BestEntry(r.value.fine).Ok?
        && r.value.record == AutoRecord(slide.value, r.value.fine)
        && printer.position.z == r.value.record.optimalZ
      ensures printer.position.x == old(printer.position.x) && printer.position.y == old(printer.position.y)
      ensures var n := CoarseSteps + FineSteps + 1;
        camera.isConnected && printer.connected && Acknowledges(old(printer.replies), n) && Delivers(old(camera.feed), n) ==>
          r.Ok? && printer.replies == old(printer.replies)[n..]
    {
      ghost var replies0, feed0 := printer.replies, camera.feed;
      ghost var coop := camera.isConnected && printer.connected
                        && Acknowledges(replies0, CoarseSteps + FineSteps + 1) && Delivers(feed0, CoarseSteps + FineSteps + 1);
      if coop {
        CooperatesSplit(replies0, feed0, CoarseSteps, FineSteps + 1);
        CooperatesSplit(replies0[CoarseSteps..], feed0[CoarseSteps..], FineSteps, 1);
        assert replies0[CoarseSteps..][FineSteps..] == replies0[CoarseSteps + FineSteps..];
        assert feed0[CoarseSteps..][FineSteps..] == feed0[CoarseSteps + FineSteps..];
        assert replies0[CoarseSteps + FineSteps..][1..] == replies0[CoarseSteps + FineSteps + 1..];
      }
      var coarse := AutomatedFocusSweep(CoarseRange, CoarseSteps, sharpness);
      if coarse.Err? {
        assert !coop;
        return Err(coarse.error);
      }
      var (coarseResults, coarseBest) := coarse.value;
      var fine := FineFocusSweep(coarseBest.z, FineRange, FineSteps, sharpness);
      if fine.Err? {
        assert !coop;
        return Err(fine.error);
      }
      var (fineResults, fineBest) := fine.value;
      var tested := TestFocusPosition(fineBest.z, sharpness);
      if tested.Err? {
        assert !coop;
        return Err(tested.error);
      }
      var record := FocusRecord(fineBest.z, Some(fineBest.sharpness), slide.value.centerX, slide.value.centerY);
      return Ok(FocusRun(coarseResults, fineResults, record));
    }

    /** `manual_focus_selection`: jog with r raising Z; 'f' records the height,
        moves there and shows one more frame. */
    method ManualFocusSelection(keys: seq<char>) returns (r: Result<Answer<real>, Fault>)
      modifies camera`feed, printer`sent, printer`replies, printer`position
      ensures var t := Drive(FocusLayout, DefaultStepKey, keys);
        r.Ok? ==>
          && (r.value.Picked? <==> t.ending == Chosen)
          && (r.value.Cancelled? <==> t.ending == Quitted)
          && (r.value.Picked? ==> r.value.value == Displace(old(printer.position), t.moves).z)
          && printer.position == Displace(old(printer.position), t.moves)
          && printer.sent == old(printer.sent) + Scripts(t.moves)
               + (if r.value.Picked? then [ZMove(r.value.value)] else [])
          && Consumed(old(camera.feed), camera.feed, t.used + (if r.value.Picked? then 1 else 0))
    {
      var session := Session(FocusLayout, printer, camera, keys, DefaultStepKey);
      if session.Err? {
        return Err(session.error);
      }
      var ending := session.value.ending;
      if ending == Chosen {
        var pos := printer.GetPosition();
        var moved := printer.MoveToPosition(None, None, Some(pos.z), DefaultFeedrate);
        if moved.Fail? {
          return Err(moved.error);
        }
        var frame := camera.CaptureFrame();
        if frame.Err? {
          return Err(frame.error);
        }
        ConsumedNext(old(camera.feed), session.value.used);
        return Ok(Picked(pos.z));
      } else if ending == Quitted {
        return Ok(Cancelled);
      }
      return Ok(Pending);
    }

    /** `interactive_xy_selection`: jog X and Y only; 'f' selects. */
    method InteractiveXYSelection(keys: seq<char>) returns (r: Result<Answer<(real, real)>, Fault>)
      modifies camera`feed, printer`sent, printer`replies, printer`position
      ensures var t := Drive(PlanarLayout, DefaultStepKey, keys);
        r.Ok? ==>
          && (r.value.Picked? <==> t.ending == Chosen)
          && (r.value.Cancelled? <==> t.ending == Quitted)
          && printer.sent == old(printer.sent) + Scripts(t.moves)
          && printer.position == Displace(old(printer.position), t.moves)
          && (r.value.Picked? ==> r.value.value == (printer.position.x, printer.position.y))
    {
      var session := Session(PlanarLayout, printer, camera, keys, DefaultStepKey);
      if session.Err? {
        return Err(session.error);
      }
      var ending := session.value.ending;
      if ending == Chosen {
        var pos := printer.GetPosition();
        return Ok(Picked((pos.x, pos.y)));
      } else if ending == Quitted {
        return Ok(Cancelled);
      }
      return Ok(Pending);
    }

    /** The `try` block of `run_calibration`: load, connect, set up, then the
        mode after stripping the input: "3" is manual, "2" is X/Y by hand
        then the two sweeps, anything else the two sweeps at the centre. */
    method RunConnected(stored: Option<SlideRecord>, w: Wiring, mode: string, keys: seq<char>, sharpness: Frame -> real)
      returns (r: Result<Answer<FocusRecord>, Fault>)
      modifies this`slide, camera`feed, camera`hasCapture, camera`isConnected, camera`frameWidth, camera`frameHeight
      modifies printer`sent, printer`replies, printer`position, printer`connected
      ensures stored.None? ==> r == Err(SlideNotCalibrated)
      ensures r.Ok? ==> stored.Some? && w.discovered.Some? && w.printerOpens && w.cameraOpens
      ensures r.Ok? && r.value.Picked? ==>
        r.value.value.centerX == stored.value.centerX && r.value.value.centerY == stored.value.centerY
      ensures r.Ok? && r.value.Picked? && Strip(mode) == "3" ==>
        && r.value.value.maxSharpness == None
        && r.value.value.optimalZ == ManualHeight(stored.value, keys)
        && r.value.value.optimalZ >= stored.value.centerZ
      ensures r.Ok? && r.value.Picked? && Strip(mode) != "3" ==>
        && r.value.value.maxSharpness.Some?
        && stored.value.centerZ - 5.0 <= r.value.value.optimalZ <= stored.value.centerZ + 5.0
      ensures r.Ok? && Strip(mode) != "3" && Strip(mode) != "2" ==> r.value.Picked?
      ensures r.Ok? && !r.value.Picked? ==>
        Drive(if Strip(mode) == "3" then FocusLayout else PlanarLayout, DefaultStepKey, keys).ending != Chosen
    {
      var loaded := LoadSlidePosition(stored);
      if loaded.Fail? {
        return Err(loaded.error);
      }
      var connected := ConnectHardware(printer, camera, w);
      if connected.Fail? {
        return Err(connected.error);
      }
      var setup := SetupPositioning();
      if setup.Fail? {
        return Err(setup.error);
      }
      var s := slide.value;
      ghost var center := printer.position;
      var choice := Strip(mode);
      if choice == "3" {
        var z :- ManualFocusSelection(keys);
        HeightAfterLoop(center, DefaultStepKey, keys);
        if z.Picked? {
          return Ok(Picked(FocusRecord(z.value, None, s.centerX, s.centerY)));
        }
        return Ok(if z.Cancelled? then Cancelled else Pending);
      } else if choice == "2" {
        var xy :- InteractiveXYSelection(keys);
        HeightAfterLoop(center, DefaultStepKey, keys);
        if !xy.Picked? {
          return Ok(if xy.Cancelled? then Cancelled else Pending);
        }
        var moved := printer.MoveToPosition(Some(xy.value.0), Some(xy.value.1), None, DefaultFeedrate);
        if moved.Fail? {
          return Err(moved.error);
        }
      }
      assert printer.position.z == s.centerZ;
      var run :- TwoStageSweep(sharpness);
      TwoStageBound(s.centerZ, run.coarse, run.fine);
      return Ok(Picked(run.record));
    }

    /** `run_calibration`: the `try` block, then both devices are released. */
    method RunCalibration(stored: Option<SlideRecord>, w: Wiring, mode: string, keys: seq<char>, sharpness: Frame -> real)
      returns (r: Result<Answer<FocusRecord>, Fault>)
      modifies this`slide, camera`feed, camera`hasCapture, camera`isConnected, camera`frameWidth, camera`frameHeight
      modifies printer`sent, printer`replies, printer`position, printer`connected
      ensures stored.None? ==> r == Err(SlideNotCalibrated)
      ensures r.Ok? ==> stored.Some? && w.discovered.Some? && w.printerOpens && w.cameraOpens
      ensures r.Ok? && r.value.Picked? ==>
        r.value.value.centerX == stored.value.centerX && r.value.value.centerY == stored.value.centerY
      ensures r.Ok? && r.value.Picked? && Strip(mode) == "3" ==>
        && r.value.value.maxSharpness == None
        && r.value.value.optimalZ == ManualHeight(stored.value, keys)
        && r.value.value.optimalZ >= stored.value.centerZ
      ensures r.Ok? && r.value.Picked? && Strip(mode) != "3" ==>
        && r.value.value.maxSharpness.Some?
        && stored.value.centerZ - 5.0 <= r.value.value.optimalZ <= stored.value.centerZ + 5.0
      ensures r.Ok? && Strip(mode) != "3" && Strip(mode) != "2" ==> r.value.Picked?
      ensures r.Ok? && !r.value.Picked? ==>
        Drive(if Strip(mode) == "3" then FocusLayout else PlanarLayout, DefaultStepKey, keys).ending != Chosen
      ensures !printer.connected && (camera.hasCapture ==> !camera.isConnected)
    {
      r := RunConnected(stored, w, mode, keys, sharpness);
      printer.Disconnect();
      camera.Disconnect();
    }
  }
}
