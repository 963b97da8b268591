/** `SlideCornerSelector`: the operator jogs the stage to each of the four
    slide corners in a fixed order and captures each with 'c'; 'q' abandons
    the selection. The step size is a field, so it carries over from one
    corner to the next. */
module SelectSlideCorners {
  import opened Wrappers
  import opened Faults
  import opened Jog
  import opened PrinterInterface
  import opened CameraInterface
  import opened Raster
  import opened JogSession
  import opened Hardware
  import opened Sequences

  /** `CORNER_NAMES`, in capture order. */
  const CornerNames: seq<string> := ["bottom_left", "bottom_right", "top_right", "top_left"]

  /** The selection so far: how it ended, the positions captured (one per
      corner, in order), the step key in force, the keys and frames consumed
      and the jogs issued. */
  datatype CornerTrace = CornerTrace(ending: Ending, captured: seq<Position>, step: StepKey, used: nat, frames: nat, moves: seq<Delta>)

  /** Nothing captured yet; the step key is the selector's. */
  function Fresh(step: StepKey): CornerTrace {
    CornerTrace(Waiting, [], step, 0, 0, [])
  }

  /** The selection driven by the keys from state `st`, with the stage at `p`:
      corner by corner the jog loop runs until its key; a capture records the
      position reached (and takes one more frame, the saved image) and moves on
      to the next corner; 'q' or running out of keys ends it all. After the
      fourth capture the selection has ended `Chosen`. */
  function Select(keys: seq<char>, p: Position, st: CornerTrace): (s: CornerTrace)
    requires st.used <= |keys|
    ensures s.used <= |keys|
    ensures |st.captured| <= 4 ==> |s.captured| <= 4
    ensures |st.captured| <= |s.captured| && s.captured[..|st.captured|] == st.captured
    decreases 4 - |st.captured|
  {
    if |st.captured| >= 4 then st.(ending := Chosen)
    else
      var t := Drive(CaptureLayout, st.step, keys[st.used..]);
      var q := Displace(p, t.moves);
      if t.ending != Chosen then After(st, t, q) else Select(keys, q, After(st, t, q))
  }

  /** All four corners are captured exactly when the selection ends with a
      choice; otherwise fewer were captured and it stopped on the cancel key
      or on the end of the keys. Captures only ever extend the state's. */
  lemma {:induction false} SelectComplete(keys: seq<char>, p: Position, st: CornerTrace)
    requires st.used <= |keys| && |st.captured| <= 4 && st.ending != Chosen
    ensures var s := Select(keys, p, st);
      && (s.ending == Chosen <==> |s.captured| == 4)
      && (s.ending == Quitted ==> 0 < s.used && keys[s.used - 1] == 'q')
    decreases 4 - |st.captured|
  {
    if |st.captured| < 4 {
      var t := Drive(CaptureLayout, st.step, keys[st.used..]);
      DriveEnding(CaptureLayout, st.step, keys[st.used..]);
      var q := Displace(p, t.moves);
      SelectStep(keys, p, st);
      if t.ending == Chosen {
        SelectComplete(keys, q, After(st, t, q));
      } else if t.ending == Quitted {
        assert keys[st.used + t.used - 1] == keys[st.used..][t.used - 1];
      }
    }
  }

  /** The state after corner `|st.captured|` ended with its jog trace `t`. */
  function After(st: CornerTrace, t: Trace, q: Position): CornerTrace {
    if t.ending == Chosen then
      st.(captured := st.captured + [q], step := t.step, used := st.used + t.used,
          frames := st.frames + t.used + 1, moves := st.moves + t.moves)
    else
      st.(ending := t.ending, step := t.step, used := st.used + t.used, frames := st.frames + t.used, moves := st.moves + t.moves)
  }

  /** One corner of the selection: a capture passes on to the next corner,
      anything else is the end result. */
  lemma SelectStep(keys: seq<char>, p: Position, st: CornerTrace)
    requires st.used <= |keys| && |st.captured| < 4
    ensures var t := Drive(CaptureLayout, st.step, keys[st.used..]);
      var q := Displace(p, t.moves);
      Select(keys, p, st) == if t.ending == Chosen then Select(keys, q, After(st, t, q)) else After(st, t, q)
  {
  }

  /** A selection only ever adds jogs and frames to those of its state. */
  lemma {:induction false} SelectExtends(keys: seq<char>, p: Position, st: CornerTrace)
    requires st.used <= |keys|
    ensures var s := Select(keys, p, st); |st.moves| <= |s.moves| && st.frames <= s.frames
    decreases 4 - |st.captured|
  {
    if |st.captured| < 4 {
      var t := Drive(CaptureLayout, st.step, keys[st.used..]);
      var q := Displace(p, t.moves);
      if t.ending == Chosen {
        SelectExtends(keys, q, After(st, t, q));
      }
    }
  }

  /** Devices that cooperate for the whole selection cooperate for the jog
      loop and capture of the corner in progress, on what the corners before
      it left over. */
  lemma CornerReady(keys: seq<char>, p: Position, st: CornerTrace, replies: seq<string>, feed: seq<Option<Frame>>)
    requires st.used <= |keys| && |st.captured| < 4
    ensures var (s, t) := (Select(keys, p, st), Drive(CaptureLayout, st.step, keys[st.used..]));
      var n := if t.ending == Chosen then t.used + 1 else t.used;
      var a := 3 * |st.moves|;
      && |st.moves| <= |s.moves| && st.frames <= s.frames
      && (Acknowledges(replies, 3 * |s.moves|) && Delivers(feed, s.frames) ==>
        && Acknowledges(replies[a..], 3 * |t.moves|) && Delivers(feed[st.frames..], n)
        && replies[a..][3 * |t.moves|..] == replies[3 * |st.moves + t.moves|..])
  {
    var (s, t) := (Select(keys, p, st), Drive(CaptureLayout, st.step, keys[st.used..]));
    var q := Displace(p, t.moves);
    var next := After(st, t, q);
    SelectStep(keys, p, st);
    if t.ending == Chosen {
      SelectExtends(keys, q, next);
    }
    var n := if t.ending == Chosen then t.used + 1 else t.used;
    assert next.frames == st.frames + n && next.moves == st.moves + t.moves;
    if Acknowledges(replies, 3 * |s.moves|) && Delivers(feed, s.frames) {
      AcknowledgesWithin(replies, 3 * |s.moves|, 3 * |st.moves|, 3 * |t.moves|);
      DeliversWithin(feed, s.frames, st.frames, n);
    }
  }

  /** What one corner's jog loop does to the bookkeeping of the selection:
      the keys, frames, commands and stage position of the state `After` it. */
  lemma CornerAdvance(keys: seq<char>, p0: Position, f0: seq<Option<Frame>>, sent0: seq<Command>, st: CornerTrace,
                      here: Position, t: Trace, sent: seq<Command>, pos: Position, feed: seq<Option<Frame>>)
    requires st.used <= |keys| && |st.captured| < 4 && st.frames <= |f0|
    requires here == Displace(p0, st.moves)
    requires t == Drive(CaptureLayout, st.step, keys[st.used..])
    requires sent == sent0 + Scripts(st.moves) + Scripts(t.moves)
    requires pos == Displace(here, t.moves)
    requires var n := if t.ending == Chosen then t.used + 1 else t.used;
      n <= |f0[st.frames..]| && feed == f0[st.frames..][n..]
    ensures var next := After(st, t, pos);
      && Select(keys, here, st) == (if t.ending == Chosen then Select(keys, pos, next) else next)
      && next.used <= |keys| && next.frames <= |f0| && feed == f0[next.frames..]
      && sent == sent0 + Scripts(next.moves) && pos == Displace(p0, next.moves)
      && next.step == t.step && next.ending == (if t.ending == Chosen then st.ending else t.ending)
      && next.captured == (if t.ending == Chosen then st.captured + [pos] else st.captured)
  {
    SelectStep(keys, here, st);
    CornerBooks(p0, f0, sent0, st, here, t, sent, pos, feed);
  }

  /** The frames, commands and stage position of the state `After` a corner
      whose jog loop left trace `t`. */
  lemma CornerBooks(p0: Position, f0: seq<Option<Frame>>, sent0: seq<Command>, st: CornerTrace,
                    here: Position, t: Trace, sent: seq<Command>, pos: Position, feed: seq<Option<Frame>>)
    requires st.frames <= |f0| && here == Displace(p0, st.moves)
    requires sent == sent0 + Scripts(st.moves) + Scripts(t.moves)
    requires pos == Displace(here, t.moves)
    requires var n := if t.ending == Chosen then t.used + 1 else t.used;
      n <= |f0[st.frames..]| && feed == f0[st.frames..][n..]
    ensures var next := After(st, t, pos);
      && next.frames <= |f0| && feed == f0[next.frames..]
      && sent == sent0 + Scripts(next.moves) && pos == Displace(p0, next.moves)
  {
    DropDrop(f0, st.frames, if t.ending == Chosen then t.used + 1 else t.used);
    DisplaceAppend(p0, st.moves, t.moves);
    ScriptsAppend(st.moves, t.moves);
    assert sent0 + Scripts(st.moves) + Scripts(t.moves) == sent0 + (Scripts(st.moves) + Scripts(t.moves));
  }

  /** The stage, the camera feed, the commands sent and the stored corners
      are those of selection state `st`, from the initial ones. */
  ghost predicate Follows(p0: Position, f0: seq<Option<Frame>>, sent0: seq<Command>, corners0: map<string, Position>,
                          st: CornerTrace, pos: Position, feed: seq<Option<Frame>>, sent: seq<Command>,
                          corners: map<string, Position>)
  {
    && |st.captured| <= 4 && corners == Recorded(corners0, st.captured)
    && st.frames <= |f0| && feed == f0[st.frames..]
    && sent == sent0 + Scripts(st.moves) && pos == Displace(p0, st.moves)
  }

  /** One corner's jog loop and capture keep the state followed, and tell how
      the selection goes on. */
  lemma CornerFollows(keys: seq<char>, p0: Position, f0: seq<Option<Frame>>, sent0: seq<Command>,
                      corners0: map<string, Position>, st: CornerTrace,
                      here: Position, feed0: seq<Option<Frame>>, sent1: seq<Command>, before: map<string, Position>,
                      t: Trace, pos: Position, feed: seq<Option<Frame>>, sent: seq<Command>, corners: map<string, Position>)
    requires st.used <= |keys| && |st.captured| < 4
    requires Follows(p0, f0, sent0, corners0, st, here, feed0, sent1, before)
    requires t == Drive(CaptureLayout, st.step, keys[st.used..])
    requires sent == sent1 + Scripts(t.moves) && pos == Displace(here, t.moves)
    requires var n := if t.ending == Chosen then t.used + 1 else t.used;
      n <= |feed0| && feed == feed0[n..]
    requires corners == if t.ending == Chosen then before[CornerNames[|st.captured|] := pos] else before
    ensures var next := After(st, t, pos);
      && Select(keys, here, st) == (if t.ending == Chosen then Select(keys, pos, next) else next)
      && next.used <= |keys| && next.used == st.used + t.used && next.step == t.step && next.moves == st.moves + t.moves
      && next.ending == (if t.ending == Chosen then st.ending else t.ending)
      && |next.captured| == (if t.ending == Chosen then |st.captured| + 1 else |st.captured|)
      && Follows(p0, f0, sent0, corners0, next, pos, feed, sent, corners)
  {
    CornerAdvance(keys, p0, f0, sent0, st, here, t, sent, pos, feed);
    var next := After(st, t, pos);
    if t.ending == Chosen {
      assert next.captured[..|st.captured|] == st.captured;
    }
  }

  /** The corners captured so far, under their names. */
  function Recorded(before: map<string, Position>, captured: seq<Position>): (m: map<string, Position>)
    requires |captured| <= 4
    ensures m.Keys == before.Keys + set j | 0 <= j < |captured| :: CornerNames[j]
    ensures forall j :: 0 <= j < |captured| ==> m[CornerNames[j]] == captured[j]
    ensures forall k :: k in before && k !in CornerNames[..|captured|] ==> m[k] == before[k]
    decreases |captured|
  {
    if |captured| == 0 then before
    else
      var n := |captured| - 1;
      var m := Recorded(before, captured[..n]);
      assert CornerNames[..n + 1] == CornerNames[..n] + [CornerNames[n]];
      m[CornerNames[n] := captured[n]]
  }

  class Selector {
    const printer: Printer
    const camera: Camera
    /** `corners`: captured positions by corner name. */
    var corners: map<string, Position>
    /** `current_step`, a key of the step table. */
    var currentStep: StepKey

    constructor (printer: Printer, camera: Camera)
      ensures this.printer == printer && this.camera == camera
      ensures corners == map[] && currentStep == DefaultStepKey
    {
      this.printer := printer;
      this.camera := camera;
      corners := map[];
      currentStep := DefaultStepKey;
    }

    /** The body of the `for corner` loop: the jog loop, then on 'c' the
        position is stored under the corner's name and an image is saved. */
    method CaptureCorner(name: string, keys: seq<char>) returns (r: Result<Trace, Fault>)
      modifies this`corners, this`currentStep, camera`feed, printer`sent, printer`replies, printer`position
      ensures r.Ok? ==> r.value == Drive(CaptureLayout, old(currentStep), keys) && currentStep == r.value.step
      ensures r.Ok? ==>
        && printer.sent == old(printer.sent) + Scripts(r.value.moves)
        && printer.position == Displace(old(printer.position), r.value.moves)
      ensures r.Ok? ==>
        var n := if r.value.ending == Chosen then r.value.used + 1 else r.value.used;
        n <= |old(camera.feed)| && camera.feed == old(camera.feed)[n..]
      ensures r.Ok? ==> corners == if r.value.ending == Chosen then old(corners)[name := printer.position] else old(corners)
      // devices that accept every jog and deliver every frame, the saved image included
      ensures var t := Drive(CaptureLayout, old(currentStep), keys);
        var frames := if t.ending == Chosen then t.used + 1 else t.used;
        printer.connected && camera.isConnected && Acknowledges(old(printer.replies), 3 * |t.moves|) && Delivers(old(camera.feed), frames) ==>
          r.Ok? && printer.replies == old(printer.replies)[3 * |t.moves|..]
    {
      ghost var t := Drive(CaptureLayout, currentStep, keys);
      ghost var frames := if t.ending == Chosen then t.used + 1 else t.used;
      if Delivers(camera.feed, frames) {
        DeliversWithin(camera.feed, frames, 0, t.used);
        assert camera.feed[0..] == camera.feed;
        if t.ending == Chosen {
          DeliversWithin(camera.feed, frames, t.used, 1);
        }
      }
      r := Session(CaptureLayout, printer, camera, keys, currentStep);
      if r.Err? {
        return;
      }
      currentStep := r.value.step;
      if r.value.ending == Chosen {
        ghost var rest := camera.feed;
        var pos := printer.GetPosition();
        corners := corners[name := pos];
        var image := camera.CaptureFrame();
        if image.Err? {
          return Err(image.error);
        }
        assert camera.feed == old(camera.feed)[r.value.used..][1..];
      }
    }

    /** The body of the `for corner` loop of `select_corners`, with what it
        keeps of the selection state `st`: the state `next` after this corner
        is followed, and the devices fail it only when they do not cooperate
        for the whole selection. */
    method CaptureNext(i: nat, keys: seq<char>, used: nat, ghost p0: Position, ghost f0: seq<Option<Frame>>,
                       ghost sent0: seq<Command>, ghost corners0: map<string, Position>, ghost st: CornerTrace,
                       ghost replies0: seq<string>, ghost coop: bool)
      returns (r: Result<Trace, Fault>, ghost next: CornerTrace)
      requires i < 4 && |st.captured| == i && st.used == used <= |keys| && st.step == currentStep
      requires Follows(p0, f0, sent0, corners0, st, printer.position, camera.feed, printer.sent, corners)
      requires var s := Select(keys, printer.position, st);
        coop ==> && printer.connected && camera.isConnected
                 && Acknowledges(replies0, 3 * |s.moves|) && Delivers(f0, s.frames)
                 && 3 * |st.moves| <= |replies0| && printer.replies == replies0[3 * |st.moves|..]
      modifies this`corners, this`currentStep, camera`feed, printer`sent, printer`replies, printer`position
      ensures r.Err? ==> !coop
      ensures r.Ok? ==>
        && next == After(st, r.value, printer.position)
        && next.used == st.used + r.value.used <= |keys| && next.step == r.value.step == currentStep
        && Select(keys, old(printer.position), st) == (if r.value.ending == Chosen then Select(keys, printer.position, next) else next)
        && next.ending == (if r.value.ending == Chosen then st.ending else r.value.ending)
        && |next.captured| == (if r.value.ending == Chosen then i + 1 else i)
        && Follows(p0, f0, sent0, corners0, next, printer.position, camera.feed, printer.sent, corners)
      ensures r.Ok? && coop ==> 3 * |next.moves| <= |replies0| && printer.replies == replies0[3 * |next.moves|..]
    {
      ghost var here, feed, sent, before := printer.position, camera.feed, printer.sent, corners;
      next := st;
      if coop {
        CornerReady(keys, here, st, replies0, f0);
      }
      r := CaptureCorner(CornerNames[i], keys[used..]);
      if r.Err? {
        return;
      }
      CornerFollows(keys, p0, f0, sent0, corners0, st, here, feed, sent, before,
                    r.value, printer.position, camera.feed, printer.sent, corners);
      next := After(st, r.value, printer.position);
    }

    /** `select_corners`: the ending is Chosen (Python's True) only once all four
        corners are stored; the stage, step and frames are those of the trace. */
    method SelectCorners(keys: seq<char>) returns (r: Result<Ending, Fault>)
      modifies this`corners, this`currentStep, camera`feed, printer`sent, printer`replies, printer`position
      ensures r.Ok? ==>
        var s := Select(keys, old(printer.position), Fresh(old(currentStep)));
        && r.value == s.ending
        && currentStep == s.step
        && corners == Recorded(old(corners), s.captured)
        && s.frames <= |old(camera.feed)| && camera.feed == old(camera.feed)[s.frames..]
        && printer.sent == old(printer.sent) + Scripts(s.moves)
        && printer.position == Displace(old(printer.position), s.moves)
      // devices that accept every jog and deliver every frame the selection reads
      ensures var s := Select(keys, old(printer.position), Fresh(old(currentStep)));
        printer.connected && camera.isConnected && Acknowledges(old(printer.replies), 3 * |s.moves|) && Delivers(old(camera.feed), s.frames) ==>
          r.Ok? && printer.replies == old(printer.replies)[3 * |s.moves|..]
    {
      ghost var st := Fresh(currentStep);
      ghost var goal := Select(keys, old(printer.position), st);
      ghost var coop := printer.connected && camera.isConnected && Acknowledges(old(printer.replies), 3 * |goal.moves|) && Delivers(old(camera.feed), goal.frames);
      assert old(printer.sent) + [] == old(printer.sent);
      var used: nat := 0;
      for i := 0 to 4
        invariant |st.captured| == i && st.used == used <= |keys| && st.step == currentStep && st.ending == Waiting
        invariant Select(keys, printer.position, st) == goal
        invariant Follows(old(printer.position), old(camera.feed), old(printer.sent), old(corners), st, printer.position, camera.feed, printer.sent, corners)
        invariant coop ==> 3 * |st.moves| <= |old(printer.replies)| && printer.replies == old(printer.replies)[3 * |st.moves|..]
      {
        var trace, next := CaptureNext(i, keys, used, old(printer.position), old(camera.feed), old(printer.sent), old(corners),
                                       st, old(printer.replies), coop);
        if trace.Err? {
          return Err(trace.error);
        }
        if trace.value.ending != Chosen {
          return Ok(trace.value.ending);
        }
        st := next;
        used := used + trace.value.used;
      }
      return Ok(Chosen);
    }

    /** `run`: connect, home, select, and hand over the corners to be saved
        only when all four were captured. An exception on the way is caught and
        reported (`error`); the stage and camera are released at the end in
        every case. Without an exception the selection is the one the keys
        drive from the origin, with the selector's step size. */
    method Run(w: Wiring, keys: seq<char>) returns (saved: Option<map<string, Position>>, error: Option<Fault>)
      modifies this`corners, this`currentStep, camera`feed, camera`hasCapture, camera`isConnected
      modifies camera`frameWidth, camera`frameHeight
      modifies printer`sent, printer`replies, printer`position, printer`connected
      ensures saved.Some? ==> error.None?
      ensures !(w.discovered.Some? && w.printerOpens && w.cameraOpens) ==> saved.None? && error.Some?
      ensures w.discovered.Some? && w.printerOpens && w.cameraOpens && AwaitReply(old(printer.replies)).0.Err? ==>
        saved.None? && error.Some? && printer.sent == old(printer.sent) + [Home]
      ensures var s := Select(keys, Origin, Fresh(old(currentStep)));
        error.None? ==>
          && w.discovered.Some? && w.printerOpens && w.cameraOpens && AwaitReply(old(printer.replies)).0.Ok?
          && (saved.Some? <==> s.ending == Chosen)
          && corners == Recorded(old(corners), s.captured)
          && s.frames <= |old(camera.feed)| && camera.feed == old(camera.feed)[s.frames..]
          && printer.sent == old(printer.sent) + [Home] + Scripts(s.moves)
          && printer.position == Displace(Origin, s.moves)
      ensures saved.Some? ==> saved.value == corners && forall j :: 0 <= j < 4 ==> CornerNames[j] in corners
      ensures !printer.connected && (camera.hasCapture ==> !camera.isConnected)
    {
      saved, error := None, None;
      var connected := ConnectHardware(printer, camera, w);
      if connected.Fail? {
        error := Some(connected.error);
      } else {
        var homed := printer.HomePrinter();
        if homed.Fail? {
          error := Some(homed.error);
        } else {
          ghost var step := currentStep;
          var done := SelectCorners(keys);
          if done.Err? {
            error := Some(done.error);
          } else if done.value == Chosen {
            SelectComplete(keys, Origin, Fresh(step));
            saved := Some(corners);
          }
        }
      }
      printer.Disconnect();
      camera.Disconnect();
    }
  }
}
