/** The microscope camera: connection state, guarded frame capture, and the
    focus sweep that moves the stage through a list of heights and keeps the
    sharpest frame. */
module CameraInterface {
  import opened Wrappers
  import opened Faults
  import opened Raster
  import opened Selection
  import opened PrinterInterface

  /** One row of the sweep results: the height and the sharpness measured there. */
  datatype SweepEntry = SweepEntry(z: real, sharpness: real)

  /** The width and height recorded at connection; the frame rate and pixel
      format are driver queries and are not modelled. */
  datatype CameraInfo = CameraInfo(width: Option<int>, height: Option<int>)

  /** The commands of a sweep through `zs`, one per height. */
  function ZMoves(zs: seq<real>): (cs: seq<Command>)
    ensures |cs| == |zs| && forall j :: 0 <= j < |zs| ==> cs[j] == ZMove(zs[j])
  {
    seq(|zs|, j requires 0 <= j < |zs| => ZMove(zs[j]))
  }

  lemma ZMovesSnoc(zs: seq<real>, i: nat)
    requires i < |zs|
    ensures ZMoves(zs[..i + 1]) == ZMoves(zs[..i]) + [ZMove(zs[i])]
  {
  }

  /** After `i` steps of a sweep through `zs` from feed `feed0` and log
      `sent0`: one entry per height, each scoring the frame read there, the
      frames read are gone and one move per height was sent. */
  ghost predicate SweptTo(zs: seq<real>, i: nat, feed0: seq<Option<Frame>>, feed: seq<Option<Frame>>, results: seq<SweepEntry>,
                        sharpness: Frame -> real, sent0: seq<Command>, sent: seq<Command>)
  {
    && i <= |zs| && |results| == i <= |feed0| && feed == feed0[i..]
    && (forall j :: 0 <= j < i ==> results[j].z == zs[j])
    && (forall j :: 0 <= j < i ==> feed0[j].Some? && results[j].sharpness == sharpness(feed0[j].value))
    && sent == sent0 + ZMoves(zs[..i])
  }

  /** One more step, at `zs[i]` on the next frame, extends the sweep. */
  lemma SweptToStep(zs: seq<real>, i: nat, feed0: seq<Option<Frame>>, results: seq<SweepEntry>,
                  sharpness: Frame -> real, sent0: seq<Command>, sent: seq<Command>, e: SweepEntry)
    requires i < |zs| && i < |feed0| && SweptTo(zs, i, feed0, feed0[i..], results, sharpness, sent0, sent)
    requires feed0[i].Some? && e == SweepEntry(zs[i], sharpness(feed0[i].value))
    ensures SweptTo(zs, i + 1, feed0, feed0[i..][1..], results + [e], sharpness, sent0, sent + [ZMove(zs[i])])
  {
    ZMovesSnoc(zs, i);
    assert feed0[i..][1..] == feed0[i + 1..];
  }

  /** Commands sent by the first `n` steps of a sweep: the old log is kept as
      a prefix and each later entry moves to its height. */
  lemma ZMovesSent(sent0: seq<Command>, sent: seq<Command>, zs: seq<real>, n: nat)
    requires n <= |zs| && sent == sent0 + ZMoves(zs[..n])
    ensures |sent0| <= |sent| <= |sent0| + |zs|
    ensures sent[..|sent0|] == sent0
    ensures forall j :: |sent0| <= j < |sent| ==> sent[j] == ZMove(zs[j - |sent0|])
  {
    assert sent[..|sent0|] == sent0;
  }

  /** The command each sweep step sends: an absolute move of Z alone. */
  function ZMove(z: real): Command {
    LinearMove(DefaultFeedrate, AbsoluteWords(None, None, Some(z)))
  }

  function Sharpnesses(rs: seq<SweepEntry>): (s: seq<real>)
    ensures |s| == |rs|
    ensures forall i :: 0 <= i < |rs| ==> s[i] == rs[i].sharpness
  {
    seq(|rs|, i requires 0 <= i < |rs| => rs[i].sharpness)
  }

  /** `max(results, key=sharpness)`: an entry of greatest sharpness; the empty
      list is an error. */
  function BestEntry(rs: seq<SweepEntry>): (r: Result<SweepEntry, Fault>)
    ensures r.Err? <==> rs == []
    ensures r.Err? ==> r.error == EmptySequence
    ensures r.Ok? ==> r.value in rs && forall e :: e in rs ==> e.sharpness <= r.value.sharpness
  {
    if rs == [] then Err(EmptySequence)
    else
      var k := FirstMax(Sharpnesses(rs));
      assert forall e :: e in rs ==> exists j :: 0 <= j < |rs| && rs[j] == e;
      Ok(rs[k])
  }

  /** On ties the earliest entry wins, as Python's `max` keeps the first maximum. */
  lemma BestEntryFirst(rs: seq<SweepEntry>, k: nat)
    requires IsFirstMax(Sharpnesses(rs), k)
    ensures BestEntry(rs) == Ok(rs[k])
  {
    FirstMaxUnique(Sharpnesses(rs), k);
  }

  class Camera {
    /** `cap` is set (even when it failed to open). */
    var hasCapture: bool
    var isConnected: bool
    var frameWidth: Option<int>
    var frameHeight: Option<int>
    /** What the successive `cap.read()` calls return: a frame, or None when the read fails. */
    var feed: seq<Option<Frame>>

    constructor (feed: seq<Option<Frame>>)
      ensures !hasCapture && !isConnected && frameWidth == None && frameHeight == None
      ensures this.feed == feed
    {
      hasCapture := false;
      isConnected := false;
      frameWidth := None;
      frameHeight := None;
      this.feed := feed;
    }

    /** `opens` is whether the device opened; `width` and `height` are what the
        driver reports for it. A failed open leaves the previous state. */
    method Connect(opens: bool, width: int, height: int) returns (ok: bool)
      modifies this`hasCapture, this`isConnected, this`frameWidth, this`frameHeight
      ensures hasCapture && ok == opens
      ensures opens ==> isConnected && frameWidth == Some(width) && frameHeight == Some(height)
      ensures !opens ==> isConnected == old(isConnected) && frameWidth == old(frameWidth) && frameHeight == old(frameHeight)
    {
      hasCapture := true;
      if !opens {
        return false;
      }
      frameWidth := Some(width);
      frameHeight := Some(height);
      isConnected := true;
      return true;
    }

    method CaptureFrame() returns (r: Result<Frame, Fault>)
      modifies this`feed
      ensures !isConnected ==> r == Err(CameraNotConnected) && feed == old(feed)
      ensures isConnected && old(feed) == [] ==> r == Err(CaptureFailed) && feed == []
      ensures isConnected && old(feed) != [] ==>
        && feed == old(feed)[1..]
        && (r.Ok? <==> old(feed)[0].Some?)
        && (r.Ok? ==> r.value == old(feed)[0].value)
        && (r.Err? ==> r.error == CaptureFailed)
    {
      if !isConnected {
        return Err(CameraNotConnected);
      }
      if feed == [] {
        return Err(CaptureFailed);
      }
      var frame := feed[0];
      feed := feed[1..];
      if frame.None? {
        return Err(CaptureFailed);
      }
      return Ok(frame.value);
    }

    /** One step of the sweep: move Z alone, then capture and score a frame.
        The position is updated whether or not the move is acknowledged. */
    method SweepStep(z: real, printer: Printer, sharpness: Frame -> real) returns (r: Result<SweepEntry, Fault>)
      requires isConnected
      modifies this`feed, printer`sent, printer`replies, printer`position
      ensures printer.position == SetAxes(old(printer.position), None, None, Some(z))
      ensures printer.sent == old(printer.sent) || printer.sent == old(printer.sent) + [ZMove(z)]
      ensures r.Ok? ==>
        && printer.sent == old(printer.sent) + [ZMove(z)]
        && old(feed) != [] && old(feed)[0].Some? && feed == old(feed)[1..]
        && r.value == SweepEntry(z, sharpness(old(feed)[0].value))
      ensures printer.connected && Acknowledges(old(printer.replies), 1) && Delivers(old(feed), 1) ==>
        r.Ok? && printer.replies == old(printer.replies)[1..]
    {
      if Acknowledges(printer.replies, 1) {
        AwaitAccepted(printer.replies);
      }
      var moved := printer.MoveToPosition(None, None, Some(z), DefaultFeedrate);
      if moved.Fail? {
        return Err(moved.error);
      }
      var frame := CaptureFrame();
      if frame.Err? {
        return Err(frame.error);
      }
      return Ok(SweepEntry(z, sharpness(frame.value)));
    }

    /** Moves Z to each height in turn, captures a frame and scores it. Fails
        before any move when disconnected; a failing move or capture ends the
        sweep. Only Z is ever commanded. */
    method FocusSweepAnalysis(zs: seq<real>, printer: Printer, sharpness: Frame -> real)
      returns (r: Result<(seq<SweepEntry>, SweepEntry), Fault>)
      modifies this`feed, printer`sent, printer`replies, printer`position
      ensures !isConnected ==> r == Err(CameraNotConnected) && feed == old(feed)
      ensures !isConnected ==> printer.sent == old(printer.sent) && printer.position == old(printer.position)
      ensures printer.position.x == old(printer.position.x) && printer.position.y == old(printer.position.y)
      ensures |old(printer.sent)| <= |printer.sent| <= |old(printer.sent)| + |zs|
      ensures printer.sent[..|old(printer.sent)|] == old(printer.sent)
      ensures forall j :: |old(printer.sent)| <= j < |printer.sent| ==> printer.sent[j] == ZMove(zs[j - |old(printer.sent)|])
      ensures isConnected && zs == [] ==> r == Err(EmptySequence)
      ensures r.Ok? ==>
        var (results, best) := r.value;
        && |results| == |zs| <= |old(feed)|
        && (forall i :: 0 <= i < |zs| ==> results[i].z == zs[i])
        && (forall i :: 0 <= i < |zs| ==> old(feed)[i].Some? && results[i].sharpness == sharpness(old(feed)[i].value))
        && feed == old(feed)[|zs|..]
        && |printer.sent| == |old(printer.sent)| + |zs|
        && printer.position.z == zs[|zs| - 1]
        && BestEntry(results) == Ok(best)
      ensures isConnected && printer.connected && zs != [] && Acknowledges(old(printer.replies), |zs|) && Delivers(old(feed), |zs|) ==>
        r.Ok? && printer.replies == old(printer.replies)[|zs|..]
    {
      if !isConnected {
        return Err(CameraNotConnected);
      }
      var swept := SweepFrames(zs, printer, sharpness);
      ZMovesSent(old(printer.sent), printer.sent, zs, |printer.sent| - |old(printer.sent)|);
      if swept.Err? {
        return Err(swept.error);
      }
      var results := swept.value;
      var best :- BestEntry(results);
      return Ok((results, best));
    }

    /** The loop of the sweep: a step per height until one fails. */
    method SweepFrames(zs: seq<real>, printer: Printer, sharpness: Frame -> real) returns (r: Result<seq<SweepEntry>, Fault>)
      requires isConnected
      modifies this`feed, printer`sent, printer`replies, printer`position
      ensures |old(printer.sent)| <= |printer.sent| <= |old(printer.sent)| + |zs|
      ensures printer.sent == old(printer.sent) + ZMoves(zs[..|printer.sent| - |old(printer.sent)|])
      ensures printer.position.x == old(printer.position.x) && printer.position.y == old(printer.position.y)
      ensures zs == [] ==> r.Ok?
      ensures r.Ok? ==>
        var results := r.value;
        && |results| == |zs| <= |old(feed)|
        && (forall i :: 0 <= i < |zs| ==> results[i].z == zs[i])
        && (forall i :: 0 <= i < |zs| ==> old(feed)[i].Some? && results[i].sharpness == sharpness(old(feed)[i].value))
        && feed == old(feed)[|zs|..]
        && |printer.sent| == |old(printer.sent)| + |zs|
        && (|zs| > 0 ==> printer.position.z == zs[|zs| - 1])
      ensures printer.connected && Acknowledges(old(printer.replies), |zs|) && Delivers(old(feed), |zs|) ==>
        r.Ok? && printer.replies == old(printer.replies)[|zs|..]
    {
      ghost var coop := printer.connected && Acknowledges(old(printer.replies), |zs|) && Delivers(old(feed), |zs|);
      ghost var n;
      r, n := SweepEach(zs, printer, sharpness, coop);
      if r.Err? {
        assert !coop;
        return;
      }
      assert zs[..|zs|] == zs;
    }

    /** The steps of the sweep in turn, up to the first that fails; `n`
        counts the moves sent. */
    method SweepEach(zs: seq<real>, printer: Printer, sharpness: Frame -> real, ghost coop: bool)
      returns (r: Result<seq<SweepEntry>, Fault>, ghost n: nat)
      requires isConnected
      requires coop ==> printer.connected && Acknowledges(printer.replies, |zs|) && Delivers(feed, |zs|)
      modifies this`feed, printer`sent, printer`replies, printer`position
      ensures n <= |zs| && printer.sent == old(printer.sent) + ZMoves(zs[..n])
      ensures zs == [] ==> r.Ok?
      ensures printer.position.x == old(printer.position.x) && printer.position.y == old(printer.position.y)
      ensures r.Ok? ==>
        && n == |zs| && SweptTo(zs, |zs|, old(feed), feed, r.value, sharpness, old(printer.sent), printer.sent)
        && (|zs| > 0 ==> printer.position.z == zs[|zs| - 1])
      ensures coop ==> r.Ok? && printer.replies == old(printer.replies)[|zs|..]
    {
      var results: seq<SweepEntry> := [];
      var i := 0;
      assert zs[..0] == [] && old(feed)[0..] == old(feed);
      while i < |zs|
        invariant SweptTo(zs, i, old(feed), feed, results, sharpness, old(printer.sent), printer.sent)
        invariant printer.position.x == old(printer.position.x) && printer.position.y == old(printer.position.y)
        invariant i > 0 ==> printer.position.z == zs[i - 1]
        invariant coop ==> printer.replies == old(printer.replies)[i..]
      {
        ZMovesSnoc(zs, i);
        if coop {
          CooperatesAt(old(printer.replies), old(feed), |zs|, i);
        }
        ghost var sent := printer.sent;
        var entry := SweepStep(zs[i], printer, sharpness);
        if entry.Err? {
          assert !coop;
          return Err(entry.error), if printer.sent == sent then i else i + 1;
        }
        SweptToStep(zs, i, old(feed), results, sharpness, old(printer.sent), sent, entry.value);
        results := results + [entry.value];
        i := i + 1;
      }
      return Ok(results), |zs|;
    }

    method GetCameraInfo() returns (info: Option<CameraInfo>)
      ensures !isConnected ==> info == None
      ensures isConnected ==> info == Some(CameraInfo(frameWidth, frameHeight))
    {
      if !isConnected {
        return None;
      }
      return Some(CameraInfo(frameWidth, frameHeight));
    }

    /** Only an existing capture handle is released and marks the camera disconnected. */
    method Disconnect()
      modifies this`isConnected
      ensures hasCapture ==> !isConnected
      ensures !hasCapture ==> isConnected == old(isConnected)
    {
      if hasCapture {
        isConnected := false;
      }
    }
  }

  /** The camera feed `f` is what remains of `f0` after `n` frames, each of
      them a frame rather than a read failure. */
  ghost predicate Consumed(f0: seq<Option<Frame>>, f: seq<Option<Frame>>, n: nat) {
    n <= |f0| && f == f0[n..] && forall j :: 0 <= j < n ==> f0[j].Some?
  }

  /** A camera that delivers the next `n` reads: each is a frame rather
      than a failed read. */
  predicate Delivers(feed: seq<Option<Frame>>, n: nat) {
    n <= |feed| && forall j :: 0 <= j < n ==> feed[j].Some?
  }

  /** A camera that delivers the next `n` reads still delivers, after `a`
      of them, the next `m` when `a + m <= n`. */
  lemma DeliversWithin(feed: seq<Option<Frame>>, n: nat, a: nat, m: nat)
    requires Delivers(feed, n) && a + m <= n
    ensures Delivers(feed[a..], m)
  {
    assert forall j :: 0 <= j < m ==> feed[a..][j] == feed[a + j];
  }

  /** Devices that cooperate for `n` steps cooperate for step `i < n` on
      what remains after the first `i`, and that step leaves what remains
      after `i + 1`. */
  lemma CooperatesAt(replies: seq<string>, feed: seq<Option<Frame>>, n: nat, i: nat)
    requires Acknowledges(replies, n) && Delivers(feed, n) && i < n
    ensures Acknowledges(replies[i..], 1) && Delivers(feed[i..], 1)
    ensures replies[i..][1..] == replies[i + 1..]
  {
    AcknowledgesWithin(replies, n, i, 1);
    DeliversWithin(feed, n, i, 1);
  }

  /** Devices that cooperate for `a + b` steps cooperate for the first `a`,
      and then for `b` more on what remains. */
  lemma CooperatesSplit(replies: seq<string>, feed: seq<Option<Frame>>, a: nat, b: nat)
    ensures Acknowledges(replies, a + b) && Delivers(feed, a + b) ==>
      && Acknowledges(replies, a) && Delivers(feed, a)
      && Acknowledges(replies[a..], b) && Delivers(feed[a..], b)
      && replies[a..][b..] == replies[a + b..]
  {
    if Acknowledges(replies, a + b) && Delivers(feed, a + b) {
      AcknowledgesWithin(replies, a + b, 0, a);
      AcknowledgesWithin(replies, a + b, a, b);
      DeliversWithin(feed, a + b, a, b);
    }
  }

  lemma ConsumedNext(f0: seq<Option<Frame>>, n: nat)
    requires n < |f0| && Consumed(f0, f0[n..], n) && f0[n].Some?
    ensures Consumed(f0, f0[n..][1..], n + 1)
  {
    assert f0[n..][1..] == f0[n + 1..];
  }
}
