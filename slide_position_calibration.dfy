/** Slide position calibration: home, lift to a safe height above the slide
    holder, let the operator jog the camera over the slide centre, visit the
    four corners of a standard slide around that centre, and keep the centre
    as the slide's calibration record. */
module SlidePositionCalibration {
  import opened Wrappers
  import opened Faults
  import opened Jog
  import opened PrinterInterface
  import opened CameraInterface
  import opened JogSession
  import opened Hardware

  /** The slide holder plate is 2.2 mm tall; the camera parks 10 mm above it. */
  const SlideHolderHeight: real := 2.2
  const SafeZ: real := SlideHolderHeight + 10.0

  /** A standard microscope slide, in mm. */
  const SlideWidth: real := 75.0
  const SlideHeight: real := 25.0

  /** Positioning starts over the middle of a 220 x 220 bed. */
  const StartX: real := 110.0
  const StartY: real := 110.0

  /** The commands of `home_and_setup` when every one is acknowledged. */
  const SetupScript: seq<Command> := [Home, LinearMove(DefaultFeedrate, AbsoluteWords(None, None, Some(SafeZ)))]

  /** The first move of `interactive_positioning`. */
  const StartMove: Command := LinearMove(DefaultFeedrate, AbsoluteWords(Some(StartX), Some(StartY), None))

  /** A named X/Y target of the corner test. */
  datatype Target = Target(name: string, x: real, y: real)

  /** The `corner_offsets` walk around a centre. */
  function CornerTargets(center: Position): (ts: seq<Target>)
    ensures |ts| == 5
    // the first four are the corners of an axis-aligned 75 x 25 rectangle, counter-clockwise from bottom left
    ensures ts[0].y == ts[1].y && ts[1].x == ts[2].x && ts[2].y == ts[3].y && ts[3].x == ts[0].x
    ensures ts[1].x - ts[0].x == SlideWidth && ts[2].y - ts[1].y == SlideHeight
    // centred on the slide centre, and the walk ends back there
    ensures ts[0].x + ts[2].x == 2.0 * center.x && ts[0].y + ts[2].y == 2.0 * center.y
    ensures ts[4].x == center.x && ts[4].y == center.y
    ensures ts[0].name == "Bottom Left" && ts[1].name == "Bottom Right"
    ensures ts[2].name == "Top Right" && ts[3].name == "Top Left" && ts[4].name == "Center"
  {
    var hw, hh := SlideWidth / 2.0, SlideHeight / 2.0;
    [ Target("Bottom Left", center.x - hw, center.y - hh),
      Target("Bottom Right", center.x + hw, center.y - hh),
      Target("Top Right", center.x + hw, center.y + hh),
      Target("Top Left", center.x - hw, center.y + hh),
      Target("Center", center.x + 0.0, center.y + 0.0) ]
  }

  /** The absolute move to a target, Z left alone. */
  function Visit(t: Target): Command {
    LinearMove(DefaultFeedrate, AbsoluteWords(Some(t.x), Some(t.y), None))
  }

  /** The commands a walk over the targets sends, in order. */
  function Visits(ts: seq<Target>): (cs: seq<Command>)
    ensures |cs| == |ts|
    decreases |ts|
  {
    if |ts| == 0 then [] else Visits(ts[..|ts| - 1]) + [Visit(ts[|ts| - 1])]
  }

  /** A walk cut short sends a prefix of the whole walk's commands. */
  lemma {:induction false} VisitsPrefix(ts: seq<Target>, n: nat)
    requires n <= |ts|
    ensures Visits(ts[..n]) == Visits(ts)[..n]
    decreases |ts|
  {
    if n < |ts| {
      var init := ts[..|ts| - 1];
      assert ts[..n] == init[..n];
      VisitsPrefix(init, n);
    } else {
      assert ts[..n] == ts;
    }
  }

  /** One more target extends the walk; a prefix of the extended walk is a
      prefix of the whole one. */
  lemma WalkStep(ts: seq<Target>, i: nat, base: seq<Command>, sent: seq<Command>)
    requires i < |ts|
    ensures base + Visits(ts[..i]) + [Visit(ts[i])] == base + Visits(ts[..i + 1])
    ensures sent <= base + Visits(ts[..i]) + [Visit(ts[i])] ==> sent <= base + Visits(ts)
  {
    assert ts[..i + 1][..i] == ts[..i];
    assert Visits(ts[..i + 1]) == Visits(ts[..i]) + [Visit(ts[i])];
    VisitsPrefix(ts, i + 1);
    PrefixOfPrefix(base, Visits(ts), i + 1);
  }

  lemma PrefixOfPrefix(base: seq<Command>, w: seq<Command>, n: nat)
    requires n <= |w|
    ensures base + w[..n] <= base + w
  {
    assert (base + w)[..|base| + n] == base + w[..n];
  }

  /** Executing a walk on the firmware ends at the last target at the height it
      started from. */
  lemma {:induction false} VisitsEnd(p: Position, ts: seq<Target>)
    requires |ts| > 0
    ensures var last := ts[|ts| - 1];
      Run(Machine(false, p), Visits(ts)) == Machine(false, Position(last.x, last.y, p.z))
    decreases |ts|
  {
    var init, last := ts[..|ts| - 1], ts[|ts| - 1];
    var m := Run(Machine(false, p), Visits(init));
    if |init| == 0 {
      assert m == Machine(false, p);
    } else {
      VisitsEnd(p, init);
    }
    RunAppend(Machine(false, p), Visits(init), [Visit(last)]);
    AbsoluteMoveAgrees(m.at, Some(last.x), Some(last.y), None, DefaultFeedrate);
  }

  /** The corner test brings the stage back over the centre without changing Z. */
  lemma CornerTestReturns(p: Position, center: Position)
    ensures Run(Machine(false, p), Visits(CornerTargets(center))) == Machine(false, Position(center.x, center.y, p.z))
  {
    VisitsEnd(p, CornerTargets(center));
  }

  /** The JSON record `save_calibration_data` writes. */
  datatype SlideRecord = SlideRecord(centerX: real, centerY: real, centerZ: real,
                                     holderHeight: real, width: real, height: real)

  function RecordOf(center: Position): SlideRecord {
    SlideRecord(center.x, center.y, center.z, SlideHolderHeight, SlideWidth, SlideHeight)
  }

  /** The centre the operator reaches with the keys: the jogs of the loop from
      the start position at safe height. */
  function PickedCenter(keys: seq<char>): Position {
    Displace(Position(StartX, StartY, SafeZ), Drive(CaptureLayout, DefaultStepKey, keys).moves)
  }

  class Calibrator {
    const printer: Printer
    const camera: Camera

    constructor (printer: Printer, camera: Camera)
      ensures this.printer == printer && this.camera == camera
    {
      this.printer := printer;
      this.camera := camera;
    }

    /** Home, then lift Z to the safe height; X and Y stay at the origin. */
    method HomeAndSetup() returns (r: Outcome<Fault>)
      modifies printer`sent, printer`replies, printer`position
      ensures !printer.connected ==> r == Fail(PrinterNotConnected) && printer.sent == old(printer.sent)
      ensures r.Pass? ==> printer.sent == old(printer.sent) + SetupScript && printer.position == Position(0.0, 0.0, SafeZ)
      ensures printer.sent <= old(printer.sent) + SetupScript
    {
      r := printer.HomePrinter();
      if r.Fail? {
        return;
      }
      r := printer.MoveToPosition(None, None, Some(SafeZ), DefaultFeedrate);
    }

    /** `interactive_positioning`: move to the bed centre, run the jog loop, and
        on 'c' read the position and save an image of it. 'q' gives None. */
    method InteractivePositioning(keys: seq<char>) returns (r: Result<Answer<Position>, Fault>)
      modifies camera`feed, printer`sent, printer`replies, printer`position
      ensures var t := Drive(CaptureLayout, DefaultStepKey, keys);
        var p1 := SetAxes(old(printer.position), Some(StartX), Some(StartY), None);
        && (r.Ok? ==>
          && printer.sent == old(printer.sent) + [StartMove] + Scripts(t.moves)
          && printer.position == Displace(p1, t.moves)
          && (r.value.Picked? <==> t.ending == Chosen)
          && (r.value.Cancelled? <==> t.ending == Quitted)
          && (r.value.Picked? ==> r.value.value == printer.position))
        && printer.sent <= old(printer.sent) + [StartMove] + Scripts(t.moves)
    {
      ghost var t := Drive(CaptureLayout, DefaultStepKey, keys);
      var moved := printer.MoveToPosition(Some(StartX), Some(StartY), None, DefaultFeedrate);
      if moved.Fail? {
        return Err(moved.error);
      }
      var session := Session(CaptureLayout, printer, camera, keys, DefaultStepKey);
      if session.Err? {
        return Err(session.error);
      }
      var ending := session.value.ending;
      if ending == Chosen {
        var pos := printer.GetPosition();
        var image := camera.CaptureFrame();
        if image.Err? {
          return Err(image.error);
        }
        return Ok(Picked(pos));
      } else if ending == Quitted {
        return Ok(Cancelled);
      }
      return Ok(Pending);
    }

    /** One target of the corner test: move there and save an image. */
    method VisitTarget(t: Target) returns (r: Outcome<Fault>)
      modifies camera`feed, printer`sent, printer`replies, printer`position
      ensures r.Pass? ==> printer.sent == old(printer.sent) + [Visit(t)]
      ensures r.Pass? ==> 1 <= |old(camera.feed)| && camera.feed == old(camera.feed)[1..]
      ensures printer.sent <= old(printer.sent) + [Visit(t)]
      ensures printer.position == Position(t.x, t.y, old(printer.position).z)
      ensures printer.connected && camera.isConnected && Acknowledges(old(printer.replies), 1) && Delivers(old(camera.feed), 1) ==>
        r.Pass? && printer.replies == old(printer.replies)[1..]
    {
      if Acknowledges(printer.replies, 1) {
        AwaitAccepted(printer.replies);
      }
      r := printer.MoveToPosition(Some(t.x), Some(t.y), None, DefaultFeedrate);
      if r.Fail? {
        return;
      }
      var image := camera.CaptureFrame();
      if image.Err? {
        return Fail(image.error);
      }
    }

    /** `test_corner_positions`: visit each target and save an image there. */
    method TestCornerPositions(center: Position) returns (r: Outcome<Fault>)
      modifies camera`feed, printer`sent, printer`replies, printer`position
      ensures r.Pass? ==> printer.sent == old(printer.sent) + Visits(CornerTargets(center))
      ensures r.Pass? ==> printer.position == Position(center.x, center.y, old(printer.position).z)
      ensures r.Pass? ==> 5 <= |old(camera.feed)| && camera.feed == old(camera.feed)[5..]
      ensures printer.sent <= old(printer.sent) + Visits(CornerTargets(center))
      ensures printer.position.z == old(printer.position).z
      ensures printer.connected && camera.isConnected && Acknowledges(old(printer.replies), 5) && Delivers(old(camera.feed), 5) ==>
        r.Pass? && printer.replies == old(printer.replies)[5..]
    {
      var targets := CornerTargets(center);
      ghost var base := printer.sent;
      ghost var replies0, feed0 := printer.replies, camera.feed;
      ghost var coop := printer.connected && camera.isConnected && Acknowledges(replies0, 5) && Delivers(feed0, 5);
      for i := 0 to 5
        invariant printer.sent == base + Visits(targets[..i])
        invariant printer.position.z == old(printer.position).z
        invariant i > 0 ==> printer.position == Position(targets[i - 1].x, targets[i - 1].y, old(printer.position).z)
        invariant i <= |old(camera.feed)| && camera.feed == old(camera.feed)[i..]
        invariant coop ==> printer.replies == replies0[i..]
      {
        if coop {
          CooperatesAt(replies0, feed0, 5, i);
        }
        r := VisitTarget(targets[i]);
        WalkStep(targets, i, base, printer.sent);
        if r.Fail? {
          assert !coop;
          return;
        }
      }
      assert targets[..5] == targets;
      return Pass;
    }

    /** `run_calibration`: the record is kept only when a centre was captured
        and the corner test completed; both devices are released in every case. */
    method RunCalibration(w: Wiring, keys: seq<char>) returns (r: Result<Answer<SlideRecord>, Fault>)
      modifies camera`feed, camera`hasCapture, camera`isConnected, camera`frameWidth, camera`frameHeight
      modifies printer`sent, printer`replies, printer`position, printer`connected
      ensures r.Ok? ==> w.discovered.Some? && w.printerOpens && w.cameraOpens
      ensures w.discovered.None? ==> r == Err(NoPrinterFound)
      ensures var t := Drive(CaptureLayout, DefaultStepKey, keys);
        var walk := old(printer.sent) + SetupScript + [StartMove] + Scripts(t.moves);
        && (r.Ok? && r.value.Picked? ==>
          && t.ending == Chosen
          && r.value.value == RecordOf(PickedCenter(keys))
          && printer.sent == walk + Visits(CornerTargets(PickedCenter(keys))))
        && (r.Ok? && !r.value.Picked? ==> printer.sent == walk && t.ending != Chosen)
        && (r.Err? ==> printer.sent <= walk + Visits(CornerTargets(PickedCenter(keys))))
      ensures !printer.connected && (camera.hasCapture ==> !camera.isConnected)
    {
      r := RunConnected(w, keys);
      printer.Disconnect();
      camera.Disconnect();
    }

    /** The `try` block of `run_calibration`. */
    method RunConnected(w: Wiring, keys: seq<char>) returns (r: Result<Answer<SlideRecord>, Fault>)
      modifies camera`feed, camera`hasCapture, camera`isConnected, camera`frameWidth, camera`frameHeight
      modifies printer`sent, printer`replies, printer`position, printer`connected
      ensures r.Ok? ==> w.discovered.Some? && w.printerOpens && w.cameraOpens
      ensures w.discovered.None? ==> r == Err(NoPrinterFound)
      ensures var t := Drive(CaptureLayout, DefaultStepKey, keys);
        var walk := old(printer.sent) + SetupScript + [StartMove] + Scripts(t.moves);
        && (r.Ok? && r.value.Picked? ==>
          && t.ending == Chosen
          && r.value.value == RecordOf(PickedCenter(keys))
          && printer.sent == walk + Visits(CornerTargets(PickedCenter(keys))))
        && (r.Ok? && !r.value.Picked? ==> printer.sent == walk && t.ending != Chosen)
        && (r.Err? ==> printer.sent <= walk + Visits(CornerTargets(PickedCenter(keys))))
    {
      ghost var t := Drive(CaptureLayout, DefaultStepKey, keys);
      ghost var sent0 := printer.sent;
      var connected := ConnectHardware(printer, camera, w);
      if connected.Fail? {
        return Err(connected.error);
      }
      var setup := HomeAndSetup();
      if setup.Fail? {
        return Err(setup.error);
      }
      assert printer.position == Position(0.0, 0.0, SafeZ);
      var center := InteractivePositioning(keys);
      if center.Err? {
        return Err(center.error);
      } else if center.value.Cancelled? {
        return Ok(Cancelled);
      } else if center.value.Pending? {
        return Ok(Pending);
      }
      assert center.value.value == PickedCenter(keys);
      ghost var walked := printer.sent;
      var tested := TestCornerPositions(center.value.value);
      if tested.Fail? {
        return Err(tested.error);
      }
      return Ok(Picked(RecordOf(center.value.value)));
    }
  }
}
