/** The interactive loops that jog the stage from the keyboard until a key
    ends them: each round captures a live frame, reads one key and acts on it.
    The loops of slide positioning, corner selection, manual focus and X/Y
    selection differ only in the key that makes the choice and in whether
    r/f move Z, so one layout value describes each of them. */
module JogSession {
  import opened Wrappers
  import opened Faults
  import opened Jog
  import opened PrinterInterface
  import opened CameraInterface
  import opened Sequences
  import opened Raster

  /** `choose` ends the loop with a selection ('c' or 'f'); `zAxis` says whether
      r and f are bound to Z moves. 'q' always cancels. */
  datatype Layout = Layout(choose: char, zAxis: bool)

  /** `interactive_positioning` and `select_corners`: 'c' captures, r/f jog Z. */
  const CaptureLayout := Layout('c', true)
  /** `manual_focus_selection`: 'f' records the focus, r/f are listed for Z. */
  const FocusLayout := Layout('f', true)
  /** `interactive_xy_selection`: 'f' selects, X and Y only. */
  const PlanarLayout := Layout('f', false)

  datatype Action = Quit | Choose | SetStep(k: StepKey) | Move(d: Delta) | Idle

  /** The `if/elif` chain of the loops, in its order: 'q', the choice key, the
      digits, then the movement keys; any other key does nothing. */
  function ActionOf(layout: Layout, c: char, step: StepKey): Action {
    if c == 'q' then Quit
    else if c == layout.choose then Choose
    else if StepKeyOf(c).Some? then SetStep(StepKeyOf(c).value)
    else
      var d := if layout.zAxis then AxisDelta(c, StepSize(step)) else PlanarDelta(c, StepSize(step));
      if d.Some? then Move(d.value) else Idle
  }

  /** How a loop left off: cancelled, chosen, or still waiting for keys. */
  datatype Ending = Quitted | Chosen | Waiting

  /** What a positioning loop hands back: the chosen value, None after 'q', or
      nothing yet while it still waits for keys. */
  datatype Answer<T> = Picked(value: T) | Cancelled | Pending

  /** The ending, how many keys were read, the step key then in force, and the
      relative moves issued on the way. */
  datatype Trace = Trace(ending: Ending, used: nat, step: StepKey, moves: seq<Delta>)

  /** The loop driven by a key sequence. */
  function Drive(layout: Layout, step: StepKey, keys: seq<char>): (t: Trace)
    ensures t.used <= |keys|
    decreases |keys|
  {
    if |keys| == 0 then Trace(Waiting, 0, step, [])
    else
      match ActionOf(layout, keys[0], step)
      case Quit => Trace(Quitted, 1, step, [])
      case Choose => Trace(Chosen, 1, step, [])
      case SetStep(k) =>
        var t := Drive(layout, k, keys[1..]);
        t.(used := t.used + 1)
      case Move(d) =>
        var t := Drive(layout, step, keys[1..]);
        t.(used := t.used + 1, moves := [d] + t.moves)
      case Idle =>
        var t := Drive(layout, step, keys[1..]);
        t.(used := t.used + 1)
  }

  /** The loop ends exactly at the first 'q' or choice key, which decides how it
      ends; without one it reads every key and keeps waiting. */
  lemma {:induction false} DriveEnding(layout: Layout, step: StepKey, keys: seq<char>)
    requires layout.choose != 'q'
    ensures var t := Drive(layout, step, keys);
      && (t.ending == Waiting <==> t.used == |keys| && forall j :: 0 <= j < |keys| ==> keys[j] != 'q' && keys[j] != layout.choose)
      && (t.ending == Quitted ==> 0 < t.used && keys[t.used - 1] == 'q')
      && (t.ending == Chosen ==> 0 < t.used && keys[t.used - 1] == layout.choose)
      && (forall j :: 0 <= j < t.used - 1 ==> keys[j] != 'q' && keys[j] != layout.choose)
    decreases |keys|
  {
    if |keys| > 0 {
      var c := keys[0];
      if c != 'q' && c != layout.choose {
        var next := match ActionOf(layout, c, step) case SetStep(k) => k case _ => step;
        DriveEnding(layout, next, keys[1..]);
        assert forall j :: 1 <= j < |keys| ==> keys[j] == keys[1..][j - 1];
      }
    }
  }

  /** Some entry of the step table moves exactly one axis by this delta. */
  ghost predicate IsJog(d: Delta) {
    exists k: StepKey :: OneAxisStep(d, StepSize(k))
  }

  /** Every move is a single-axis jog by a step of the table; without r/f
      bindings Z never moves, and where 'f' is the choice key Z never moves
      down. */
  ghost predicate Jogs(layout: Layout, ms: seq<Delta>) {
    && (forall i :: 0 <= i < |ms| ==> IsJog(ms[i]))
    && (!layout.zAxis ==> forall i :: 0 <= i < |ms| ==> ms[i].dz == 0.0)
    && (layout.choose == 'f' ==> forall i :: 0 <= i < |ms| ==> ms[i].dz >= 0.0)
  }

  /** The loop only ever issues jogs: in particular the Z-down branch of
      `manual_focus_selection`, whose 'f' is taken by the record branch first,
      can never be reached. */
  lemma {:induction false} DriveMoves(layout: Layout, step: StepKey, keys: seq<char>)
    ensures Jogs(layout, Drive(layout, step, keys).moves)
    decreases |keys|
  {
    if |keys| > 0 {
      var c := keys[0];
      match ActionOf(layout, c, step)
      case Quit =>
      case Choose =>
      case SetStep(k) =>
        DriveMoves(layout, k, keys[1..]);
      case Idle =>
        DriveMoves(layout, step, keys[1..]);
      case Move(d) =>
        var rest := Drive(layout, step, keys[1..]).moves;
        DriveMoves(layout, step, keys[1..]);
        AxisDeltaOneAxis(c, StepSize(step));
        assert OneAxisStep(d, StepSize(step));
        var ms := Drive(layout, step, keys).moves;
        assert ms == [d] + rest;
        forall i | 0 <= i < |ms| ensures IsJog(ms[i]) {
          if i > 0 { assert ms[i] == rest[i - 1]; }
        }
    }
  }

  /** The commands `move_relative` sends for a list of jogs, in order. */
  function Scripts(ds: seq<Delta>): (cs: seq<Command>)
    ensures |cs| == 3 * |ds|
    decreases |ds|
  {
    if |ds| == 0 then []
    else
      var d := ds[|ds| - 1];
      Scripts(ds[..|ds| - 1]) + RelativeScript(d.dx, d.dy, d.dz, DefaultFeedrate)
  }

  /** The tracked position after a list of jogs. */
  function Displace(p: Position, ds: seq<Delta>): Position
    decreases |ds|
  {
    if |ds| == 0 then p
    else
      var d := ds[|ds| - 1];
      Shift(Displace(p, ds[..|ds| - 1]), d.dx, d.dy, d.dz)
  }

  /** The tracked position follows what the firmware does with the commands
      sent: executing the scripts from absolute mode reaches `Displace`. */
  lemma {:induction false} DisplaceAgrees(p: Position, ds: seq<Delta>)
    ensures Run(Machine(false, p), Scripts(ds)) == Machine(false, Displace(p, ds))
    decreases |ds|
  {
    if |ds| > 0 {
      var init, d := ds[..|ds| - 1], ds[|ds| - 1];
      DisplaceAgrees(p, init);
      RunAppend(Machine(false, p), Scripts(init), RelativeScript(d.dx, d.dy, d.dz, DefaultFeedrate));
      RelativeMoveAgrees(Displace(p, init), d.dx, d.dy, d.dz, DefaultFeedrate);
    }
  }

  lemma ScriptsSnoc(ds: seq<Delta>, d: Delta, p: Position)
    ensures Scripts(ds + [d]) == Scripts(ds) + RelativeScript(d.dx, d.dy, d.dz, DefaultFeedrate)
    ensures Displace(p, ds + [d]) == Shift(Displace(p, ds), d.dx, d.dy, d.dz)
  {
    assert (ds + [d])[..|ds|] == ds;
  }

  /** Jogs that never lower Z leave the tracked height at or above where it
      started; jogs that never move Z leave it where it was. */
  lemma {:induction false} DisplaceHeight(p: Position, ds: seq<Delta>)
    requires forall i :: 0 <= i < |ds| ==> ds[i].dz >= 0.0
    ensures Displace(p, ds).z >= p.z
    ensures (forall i :: 0 <= i < |ds| ==> ds[i].dz == 0.0) ==> Displace(p, ds).z == p.z
    decreases |ds|
  {
    if |ds| > 0 {
      DisplaceHeight(p, ds[..|ds| - 1]);
    }
  }

  /** X/Y selection keeps the height, and manual focus never ends below the
      height it started from. */
  lemma HeightAfterLoop(p: Position, step: StepKey, keys: seq<char>)
    ensures Displace(p, Drive(PlanarLayout, step, keys).moves).z == p.z
    ensures Displace(p, Drive(FocusLayout, step, keys).moves).z >= p.z
  {
    DriveMoves(PlanarLayout, step, keys);
    DisplaceHeight(p, Drive(PlanarLayout, step, keys).moves);
    DriveMoves(FocusLayout, step, keys);
    DisplaceHeight(p, Drive(FocusLayout, step, keys).moves);
  }

  /** After `i` keys the loop is at step key `step` with `moves` issued, and the
      rest of the keys finish the trace of the whole sequence. */
  ghost predicate Resumes(layout: Layout, start: StepKey, keys: seq<char>, i: nat, step: StepKey, moves: seq<Delta>)
    requires i <= |keys|
  {
    var t := Drive(layout, step, keys[i..]);
    Drive(layout, start, keys) == t.(used := t.used + i, moves := moves + t.moves)
  }

  /** Reading key `i` either ends the trace there or resumes it one key later. */
  lemma DriveAdvance(layout: Layout, start: StepKey, keys: seq<char>, i: nat, step: StepKey, moves: seq<Delta>)
    requires i < |keys| && Resumes(layout, start, keys, i, step, moves)
    ensures match ActionOf(layout, keys[i], step)
      case Quit => Drive(layout, start, keys) == Trace(Quitted, i + 1, step, moves)
      case Choose => Drive(layout, start, keys) == Trace(Chosen, i + 1, step, moves)
      case SetStep(k) => Resumes(layout, start, keys, i + 1, k, moves)
      case Move(d) => Resumes(layout, start, keys, i + 1, step, moves + [d])
      case Idle => Resumes(layout, start, keys, i + 1, step, moves)
  {
    assert keys[i..][0] == keys[i] && keys[i..][1..] == keys[i + 1..];
    match ActionOf(layout, keys[i], step)
    case Quit =>
      assert moves + [] == moves;
    case Choose =>
      assert moves + [] == moves;
    case SetStep(k) =>
    case Idle =>
    case Move(d) =>
      var t := Drive(layout, step, keys[i + 1..]);
      assert moves + ([d] + t.moves) == (moves + [d]) + t.moves;
  }

  /** Starting the loop: nothing read, nothing moved. */
  lemma DriveStart(layout: Layout, start: StepKey, keys: seq<char>)
    ensures Resumes(layout, start, keys, 0, start, [])
  {
    assert keys[0..] == keys;
    assert [] + Drive(layout, start, keys).moves == Drive(layout, start, keys).moves;
  }

  lemma {:induction false} ScriptsAppend(a: seq<Delta>, b: seq<Delta>)
    ensures Scripts(a + b) == Scripts(a) + Scripts(b)
    decreases |b|
  {
    if |b| == 0 {
      assert a + b == a;
    } else {
      var n := |b| - 1;
      assert (a + b)[..|a + b| - 1] == a + b[..n];
      ScriptsAppend(a, b[..n]);
    }
  }

  lemma {:induction false} DisplaceAppend(p: Position, a: seq<Delta>, b: seq<Delta>)
    ensures Displace(p, a + b) == Displace(Displace(p, a), b)
    decreases |b|
  {
    if |b| == 0 {
      assert a + b == a;
    } else {
      var n := |b| - 1;
      assert (a + b)[..|a + b| - 1] == a + b[..n];
      DisplaceAppend(p, a, b[..n]);
    }
  }

  /** The commands an action sends when every one of them is acknowledged. */
  function Issued(a: Action): seq<Command> {
    if a.Move? then RelativeScript(a.d.dx, a.d.dy, a.d.dz, DefaultFeedrate) else []
  }

  /** The jogs an action adds to the trace. */
  function Moved(a: Action): seq<Delta> {
    if a.Move? then [a.d] else []
  }

  /** The tracked position after an action's commands are acknowledged. */
  function Moving(p: Position, a: Action): Position {
    if a.Move? then Shift(p, a.d.dx, a.d.dy, a.d.dz) else p
  }

  /** The step key in force after an action. */
  function NextStep(a: Action, step: StepKey): StepKey {
    if a.SetStep? then a.k else step
  }

  /** A key that does not end the loop resumes the trace one key later, and the
      commands and position it adds are those of its jogs. */
  lemma Continue(layout: Layout, start: StepKey, keys: seq<char>, i: nat, step: StepKey, moves: seq<Delta>, p: Position)
    requires i < |keys| && Resumes(layout, start, keys, i, step, moves)
    requires var a := ActionOf(layout, keys[i], step); !a.Quit? && !a.Choose?
    ensures var a := ActionOf(layout, keys[i], step);
      && Resumes(layout, start, keys, i + 1, NextStep(a, step), moves + Moved(a))
      && Scripts(moves + Moved(a)) == Scripts(moves) + Issued(a)
      && Displace(p, moves + Moved(a)) == Moving(Displace(p, moves), a)
  {
    var a := ActionOf(layout, keys[i], step);
    DriveAdvance(layout, start, keys, i, step, moves);
    if a.Move? {
      ScriptsSnoc(moves, a.d, p);
    } else {
      assert moves + [] == moves;
    }
  }

  /** A round that fails part-way has sent a prefix of what the whole key
      sequence would send. */
  lemma FailPrefix(layout: Layout, start: StepKey, keys: seq<char>, i: nat, step: StepKey, moves: seq<Delta>,
                   base: seq<Command>, sent: seq<Command>)
    requires i < |keys| && Resumes(layout, start, keys, i, step, moves)
    requires sent <= base + Scripts(moves) + Issued(ActionOf(layout, keys[i], step))
    ensures sent <= base + Scripts(Drive(layout, start, keys).moves)
  {
    var t := Drive(layout, step, keys[i..]);
    var whole := Drive(layout, start, keys).moves;
    assert whole == moves + t.moves;
    ScriptsAppend(moves, t.moves);
    var a := ActionOf(layout, keys[i], step);
    var rest := if a.Move? then Drive(layout, step, keys[i + 1..]).moves else t.moves;
    IssuedThenRest(layout, step, keys[i..]);
    assert keys[i..][0] == keys[i] && keys[i..][1..] == keys[i + 1..];
    assert Scripts(t.moves) == Issued(a) + Scripts(rest);
    Regroup(base, Scripts(moves), Issued(a), Scripts(rest));
  }

  /** The scripts of a trace begin with what its first key issues. */
  lemma IssuedThenRest(layout: Layout, step: StepKey, keys: seq<char>)
    requires |keys| > 0
    ensures var a := ActionOf(layout, keys[0], step);
      Scripts(Drive(layout, step, keys).moves) ==
        Issued(a) + Scripts(if a.Move? then Drive(layout, step, keys[1..]).moves else Drive(layout, step, keys).moves)
  {
    var a := ActionOf(layout, keys[0], step);
    if a.Move? {
      var rest := Drive(layout, step, keys[1..]).moves;
      assert Drive(layout, step, keys).moves == [a.d] + rest;
      ScriptsAppend([a.d], rest);
      assert [a.d][..0] == [];
    }
  }

  lemma Regroup(a: seq<Command>, b: seq<Command>, c: seq<Command>, d: seq<Command>)
    ensures a + (b + (c + d)) == (a + b + c) + d
  {
  }

  /** The loop's state after `i` keys: the trace resumes there, the frames
      of those keys have been read from `f0`, and the commands and position
      are those of the jogs issued so far. */
  ghost predicate Jogged(layout: Layout, start: StepKey, keys: seq<char>, i: nat, step: StepKey, moves: seq<Delta>,
                         f0: seq<Option<Frame>>, f: seq<Option<Frame>>, s0: seq<Command>, sent: seq<Command>,
                         p0: Position, pos: Position)
  {
    && i <= |keys| && Resumes(layout, start, keys, i, step, moves) && Consumed(f0, f, i)
    && sent == s0 + Scripts(moves) && pos == Displace(p0, moves)
  }

  /** A round whose key does not end the loop keeps `Jogged` one key later. */
  lemma JoggedStep(layout: Layout, start: StepKey, keys: seq<char>, i: nat, step: StepKey, moves: seq<Delta>,
                   f0: seq<Option<Frame>>, f: seq<Option<Frame>>, s0: seq<Command>, sent: seq<Command>,
                   p0: Position, pos: Position, f': seq<Option<Frame>>, sent': seq<Command>, pos': Position)
    requires i < |keys| && Jogged(layout, start, keys, i, step, moves, f0, f, s0, sent, p0, pos)
    requires var a := ActionOf(layout, keys[i], step); !a.Quit? && !a.Choose?
    requires |f| > 0 && f[0].Some? && f' == f[1..]
    requires var a := ActionOf(layout, keys[i], step); sent' == sent + Issued(a) && pos' == Moving(pos, a)
    ensures var a := ActionOf(layout, keys[i], step);
      Jogged(layout, start, keys, i + 1, NextStep(a, step), moves + Moved(a), f0, f', s0, sent', p0, pos')
  {
    var a := ActionOf(layout, keys[i], step);
    Continue(layout, start, keys, i, step, moves, p0);
    ConsumedNext(f0, i);
    AppendAppend(s0, sent, sent', Scripts(moves), Issued(a));
  }

  /** Devices that cooperate for the whole trace cooperate for the round of
      key `i`: the printer accepts what it issues and the camera delivers its
      frame. */
  lemma SessionReady(layout: Layout, start: StepKey, keys: seq<char>, i: nat, step: StepKey, moves: seq<Delta>,
                     replies: seq<string>, feed: seq<Option<Frame>>)
    requires i < |keys| && Resumes(layout, start, keys, i, step, moves)
    ensures var t := Drive(layout, start, keys);
      var a := ActionOf(layout, keys[i], step);
      var (s, n) := (3 * |moves|, |Issued(a)|);
      Acknowledges(replies, 3 * |t.moves|) && Delivers(feed, t.used) ==>
        && Acknowledges(replies[s..], n) && Delivers(feed[i..], 1)
        && replies[s..][n..] == replies[3 * |moves + Moved(a)|..]
  {
    var t := Drive(layout, start, keys);
    var a := ActionOf(layout, keys[i], step);
    var rest := Drive(layout, step, keys[i..]);
    assert keys[i..][0] == keys[i];
    IssuedThenRest(layout, step, keys[i..]);
    ScriptsAppend(moves, rest.moves);
    var s, n := 3 * |moves|, |Issued(a)|;
    assert s + n <= 3 * |t.moves|;
    assert i < t.used;
    if Acknowledges(replies, 3 * |t.moves|) && Delivers(feed, t.used) {
      AcknowledgesWithin(replies, 3 * |t.moves|, s, n);
      DeliversWithin(feed, t.used, i, 1);
    }
  }

  /** One round: a live frame, then the key. A failing capture or move ends the
      loop with that error, as the exception would. */
  method Round(layout: Layout, printer: Printer, camera: Camera, c: char, step: StepKey)
    returns (r: Outcome<Fault>)
    modifies camera`feed, printer`sent, printer`replies, printer`position
    ensures r.Pass? ==> |old(camera.feed)| > 0 && old(camera.feed)[0].Some? && camera.feed == old(camera.feed)[1..]
    ensures r.Pass? ==>
      && printer.sent == old(printer.sent) + Issued(ActionOf(layout, c, step))
      && printer.position == Moving(old(printer.position), ActionOf(layout, c, step))
    ensures printer.sent <= old(printer.sent) + Issued(ActionOf(layout, c, step))
    ensures !camera.isConnected ==> r == Fail(CameraNotConnected)
    // a printer that accepts the action's commands and a camera that delivers the frame
    ensures var n := |Issued(ActionOf(layout, c, step))|;
      printer.connected && camera.isConnected && Acknowledges(old(printer.replies), n) && Delivers(old(camera.feed), 1) ==>
        r.Pass? && printer.replies == old(printer.replies)[n..]
  {
    if Acknowledges(printer.replies, 3) {
      ExchangeAcknowledged(printer.replies, 3);
    }
    var frame := camera.CaptureFrame();
    if frame.Err? {
      return Fail(frame.error);
    }
    var action := ActionOf(layout, c, step);
    if action.Move? {
      var d := action.d;
      r := printer.MoveRelative(d.dx, d.dy, d.dz, DefaultFeedrate);
      return r;
    }
    return Pass;
  }

  /** The round of key `i` inside the loop, with what it keeps of the loop's
      state: Waiting with the step key and jogs one key later when the key
      does not end the loop, else how the trace ends; on failure a prefix of
      the whole trace's commands, reached only when the devices did not
      cooperate. */
  method Turn(layout: Layout, printer: Printer, camera: Camera, keys: seq<char>, start: StepKey, i: nat,
              step: StepKey, moves: seq<Delta>, ghost f0: seq<Option<Frame>>, ghost s0: seq<Command>,
              ghost p0: Position, ghost replies0: seq<string>, ghost coop: bool)
    returns (r: Result<Ending, Fault>, step': StepKey, moves': seq<Delta>)
    requires i < |keys|
    requires Jogged(layout, start, keys, i, step, moves, f0, camera.feed, s0, printer.sent, p0, printer.position)
    requires coop ==> && printer.connected && camera.isConnected
                      && 3 * |moves| <= |replies0| && printer.replies == replies0[3 * |moves|..]
                      && Acknowledges(replies0, 3 * |Drive(layout, start, keys).moves|) && Delivers(f0, Drive(layout, start, keys).used)
    modifies camera`feed, printer`sent, printer`replies, printer`position
    ensures !camera.isConnected ==> r == Err(CameraNotConnected)
    ensures r.Err? ==> !coop && printer.sent <= s0 + Scripts(Drive(layout, start, keys).moves)
    ensures r.Ok? && r.value != Waiting ==>
      && Drive(layout, start, keys) == Trace(r.value, i + 1, step, moves) && moves' == moves
      && Consumed(f0, camera.feed, i + 1) && printer.sent == old(printer.sent) && printer.position == old(printer.position)
    ensures r.Ok? && r.value == Waiting ==>
      Jogged(layout, start, keys, i + 1, step', moves', f0, camera.feed, s0, printer.sent, p0, printer.position)
    ensures r.Ok? && coop ==> 3 * |moves'| <= |replies0| && printer.replies == replies0[3 * |moves'|..]
  {
    var action := ActionOf(layout, keys[i], step);
    ghost var sent, pos, feed := printer.sent, printer.position, camera.feed;
    if coop {
      SessionReady(layout, start, keys, i, step, moves, replies0, f0);
    }
    var round := Round(layout, printer, camera, keys[i], step);
    if round.Fail? {
      FailPrefix(layout, start, keys, i, step, moves, s0, printer.sent);
      return Err(round.error), step, moves;
    }
    if action.Quit? || action.Choose? {
      ConsumedNext(f0, i);
      DriveAdvance(layout, start, keys, i, step, moves);
      assert moves + Moved(action) == moves;
      return Ok(if action.Quit? then Quitted else Chosen), step, moves;
    }
    JoggedStep(layout, start, keys, i, step, moves, f0, feed, s0, sent, p0, pos, camera.feed, printer.sent, printer.position);
    return Ok(Waiting), NextStep(action, step), moves + Moved(action);
  }

  /** The `while True` loop over the keys as they arrive. */
  method Session(layout: Layout, printer: Printer, camera: Camera, keys: seq<char>, start: StepKey)
    returns (r: Result<Trace, Fault>)
    modifies camera`feed, printer`sent, printer`replies, printer`position
    ensures r.Ok? ==> r.value == Drive(layout, start, keys)
    ensures r.Ok? ==> Consumed(old(camera.feed), camera.feed, r.value.used)
    ensures r.Ok? ==>
      && printer.sent == old(printer.sent) + Scripts(r.value.moves)
      && printer.position == Displace(old(printer.position), r.value.moves)
    ensures r.Err? ==> printer.sent <= old(printer.sent) + Scripts(Drive(layout, start, keys).moves)
    ensures !camera.isConnected && keys != [] ==> r == Err(CameraNotConnected)
    // a printer that accepts every jog's commands and a camera that delivers a
    // frame for every key read: the loop runs to the trace's end
    ensures var t := Drive(layout, start, keys);
      printer.connected && camera.isConnected && Acknowledges(old(printer.replies), 3 * |t.moves|) && Delivers(old(camera.feed), t.used) ==>
        r.Ok? && printer.replies == old(printer.replies)[3 * |t.moves|..]
  {
    ghost var coop := printer.connected && camera.isConnected && Acknowledges(printer.replies, 3 * |Drive(layout, start, keys).moves|) && Delivers(camera.feed, Drive(layout, start, keys).used);
    var step := start;
    var moves: seq<Delta> := [];
    DriveStart(layout, start, keys);
    var i := 0;
    while i < |keys|
      invariant Jogged(layout, start, keys, i, step, moves, old(camera.feed), camera.feed, old(printer.sent), printer.sent, old(printer.position), printer.position)
      invariant !camera.isConnected ==> i == 0
      invariant coop ==> 3 * |moves| <= |old(printer.replies)| && printer.replies == old(printer.replies)[3 * |moves|..]
    {
      var round, step', moves' := Turn(layout, printer, camera, keys, start, i, step, moves, old(camera.feed), old(printer.sent), old(printer.position), old(printer.replies), coop);
      if round.Err? {
        return Err(round.error);
      }
      if round.value != Waiting {
        return Ok(Trace(round.value, i + 1, step, moves));
      }
      step, moves := step', moves';
      i := i + 1;
    }
    assert keys[|keys|..] == [] && moves + [] == moves;
    return Ok(Trace(Waiting, |keys|, step, moves));
  }
}
