/** The stage controller: a G-code printer on a serial line. The class keeps
    the tracked position that the rest of the system reads back, builds the
    commands for absolute and relative moves, and classifies the reply lines. */
module PrinterInterface {
  import opened Wrappers
  import opened Faults
  import opened Text

  datatype Position = Position(x: real, y: real, z: real)

  const Origin: Position := Position(0.0, 0.0, 0.0)

  const DefaultFeedrate: int := 3000

  /** An axis word of a G1 command; the value stands for Python's rendering of it. */
  datatype Word = X(v: real) | Y(v: real) | Z(v: real)

  /** G28, G90, G91 and `G1 F<feedrate> <words>`. */
  datatype Command = Home | AbsoluteMode | RelativeMode | LinearMove(feedrate: int, words: seq<Word>)

  // ---------------------------------------------------------------------
  // Bookkeeping of the tracked position

  /** `move_to_position`: the axes given are set, the others kept. */
  function SetAxes(p: Position, x: Option<real>, y: Option<real>, z: Option<real>): Position {
    Position(if x.Some? then x.value else p.x,
             if y.Some? then y.value else p.y,
             if z.Some? then z.value else p.z)
  }

  /** `move_relative`: each nonzero delta is added (a zero one changes nothing either way). */
  function Shift(p: Position, dx: real, dy: real, dz: real): Position {
    Position(p.x + dx, p.y + dy, p.z + dz)
  }

  /** A relative move followed by the opposite move returns to the start. */
  lemma ShiftInverse(p: Position, dx: real, dy: real, dz: real)
    ensures Shift(Shift(p, dx, dy, dz), -dx, -dy, -dz) == p
  {
  }

  // ---------------------------------------------------------------------
  // Command construction

  /** The words of `move_to_position`: X, Y, Z in that order, for the axes given. */
  function AbsoluteWords(x: Option<real>, y: Option<real>, z: Option<real>): seq<Word> {
    (if x.Some? then [X(x.value)] else [])
    + (if y.Some? then [Y(y.value)] else [])
    + (if z.Some? then [Z(z.value)] else [])
  }

  /** The words of `move_relative`: X, Y, Z in that order, for the nonzero deltas. */
  function RelativeWords(dx: real, dy: real, dz: real): seq<Word> {
    (if dx != 0.0 then [X(dx)] else [])
    + (if dy != 0.0 then [Y(dy)] else [])
    + (if dz != 0.0 then [Z(dz)] else [])
  }

  /** The three commands `move_relative` sends: G91, the move, G90. */
  function RelativeScript(dx: real, dy: real, dz: real, feedrate: int): seq<Command> {
    [RelativeMode, LinearMove(feedrate, RelativeWords(dx, dy, dz)), AbsoluteMode]
  }

  function Rank(w: Word): nat {
    match w
    case X(_) => 0
    case Y(_) => 1
    case Z(_) => 2
  }

  /** Words appear in X, Y, Z order, each axis at most once. */
  predicate AxisOrdered(ws: seq<Word>) {
    forall i, j :: 0 <= i < j < |ws| ==> Rank(ws[i]) < Rank(ws[j])
  }

  predicate HasAxis(ws: seq<Word>, rank: nat) {
    exists i :: 0 <= i < |ws| && Rank(ws[i]) == rank
  }

  // ---------------------------------------------------------------------
  // How the firmware reads the commands: the reference the bookkeeping mirrors

  datatype Machine = Machine(relative: bool, at: Position)

  function ApplyWord(relative: bool, p: Position, w: Word): Position {
    match w
    case X(v) => p.(x := if relative then p.x + v else v)
    case Y(v) => p.(y := if relative then p.y + v else v)
    case Z(v) => p.(z := if relative then p.z + v else v)
  }

  function ApplyWords(relative: bool, p: Position, ws: seq<Word>): Position
    decreases |ws|
  {
    if |ws| == 0 then p else ApplyWords(relative, ApplyWord(relative, p, ws[0]), ws[1..])
  }

  function Execute(m: Machine, c: Command): Machine {
    match c
    case Home => m.(at := Origin)
    case AbsoluteMode => m.(relative := false)
    case RelativeMode => m.(relative := true)
    case LinearMove(_, ws) => m.(at := ApplyWords(m.relative, m.at, ws))
  }

  function Run(m: Machine, cs: seq<Command>): Machine
    decreases |cs|
  {
    if |cs| == 0 then m else Run(Execute(m, cs[0]), cs[1..])
  }

  lemma ApplyWordsAppend(relative: bool, p: Position, a: seq<Word>, b: seq<Word>)
    ensures ApplyWords(relative, p, a + b) == ApplyWords(relative, ApplyWords(relative, p, a), b)
    decreases |a|
  {
    if |a| == 0 {
      assert a + b == b;
    } else {
      assert (a + b)[1..] == a[1..] + b;
      ApplyWordsAppend(relative, ApplyWord(relative, p, a[0]), a[1..], b);
    }
  }

  /** Running two command lists in a row is running their concatenation. */
  lemma {:induction false} RunAppend(m: Machine, a: seq<Command>, b: seq<Command>)
    ensures Run(m, a + b) == Run(Run(m, a), b)
    decreases |a|
  {
    if |a| == 0 {
      assert a + b == b;
    } else {
      assert (a + b)[1..] == a[1..] + b;
      RunAppend(Execute(m, a[0]), a[1..], b);
    }
  }

  /** The G1 command of `move_to_position`, executed in absolute mode, takes the
      stage exactly to the tracked position; its words are in X, Y, Z order and
      name exactly the axes given. */
  lemma AbsoluteMoveAgrees(p: Position, x: Option<real>, y: Option<real>, z: Option<real>, feedrate: int)
    ensures Run(Machine(false, p), [LinearMove(feedrate, AbsoluteWords(x, y, z))]) == Machine(false, SetAxes(p, x, y, z))
    ensures AxisOrdered(AbsoluteWords(x, y, z))
    ensures HasAxis(AbsoluteWords(x, y, z), 0) <==> x.Some?
    ensures HasAxis(AbsoluteWords(x, y, z), 1) <==> y.Some?
    ensures HasAxis(AbsoluteWords(x, y, z), 2) <==> z.Some?
  {
    var a := if x.Some? then [X(x.value)] else [];
    var b := if y.Some? then [Y(y.value)] else [];
    var c := if z.Some? then [Z(z.value)] else [];
    ApplyWordsAppend(false, p, a, b);
    ApplyWordsAppend(false, p, a + b, c);
    var ws := AbsoluteWords(x, y, z);
    assert ws == a + b + c;
    if x.Some? { assert Rank(ws[0]) == 0; }
    if y.Some? { assert Rank(ws[|a|]) == 1; }
    if z.Some? { assert Rank(ws[|a| + |b|]) == 2; }
  }

  /** The three commands of `move_relative`, executed from absolute mode, move the
      stage by the deltas and leave it in absolute mode; zero deltas are omitted. */
  lemma RelativeMoveAgrees(p: Position, dx: real, dy: real, dz: real, feedrate: int)
    ensures Run(Machine(false, p), RelativeScript(dx, dy, dz, feedrate)) == Machine(false, Shift(p, dx, dy, dz))
    ensures AxisOrdered(RelativeWords(dx, dy, dz))
    ensures forall i :: 0 <= i < |RelativeWords(dx, dy, dz)| ==> RelativeWords(dx, dy, dz)[i].v != 0.0
    ensures HasAxis(RelativeWords(dx, dy, dz), 0) <==> dx != 0.0
    ensures HasAxis(RelativeWords(dx, dy, dz), 1) <==> dy != 0.0
    ensures HasAxis(RelativeWords(dx, dy, dz), 2) <==> dz != 0.0
  {
    RelativeWordsShape(dx, dy, dz);
    RelativeWordsShift(p, dx, dy, dz);
    var script := RelativeScript(dx, dy, dz, feedrate);
    var m1 := Execute(Machine(false, p), script[0]);
    assert m1 == Machine(true, p);
    var m2 := Execute(m1, script[1]);
    assert m2 == Machine(true, Shift(p, dx, dy, dz));
    assert Run(Machine(false, p), script) == Run(m1, script[1..]);
    assert Run(m1, script[1..]) == Run(m2, script[2..]);
    assert script[2..] == [AbsoluteMode];
    assert Run(m2, [AbsoluteMode]) == Run(Machine(false, Shift(p, dx, dy, dz)), []);
  }

  /** The words of a relative move: X, Y, Z in that order, each present
      exactly when its delta is nonzero. */
  lemma RelativeWordsShape(dx: real, dy: real, dz: real)
    ensures AxisOrdered(RelativeWords(dx, dy, dz))
    ensures forall i :: 0 <= i < |RelativeWords(dx, dy, dz)| ==> RelativeWords(dx, dy, dz)[i].v != 0.0
    ensures HasAxis(RelativeWords(dx, dy, dz), 0) <==> dx != 0.0
    ensures HasAxis(RelativeWords(dx, dy, dz), 1) <==> dy != 0.0
    ensures HasAxis(RelativeWords(dx, dy, dz), 2) <==> dz != 0.0
  {
    var a := if dx != 0.0 then [X(dx)] else [];
    var b := if dy != 0.0 then [Y(dy)] else [];
    var c := if dz != 0.0 then [Z(dz)] else [];
    var ws := RelativeWords(dx, dy, dz);
    assert ws == a + b + c;
    if dx != 0.0 { assert Rank(ws[0]) == 0; }
    if dy != 0.0 { assert Rank(ws[|a|]) == 1; }
    if dz != 0.0 { assert Rank(ws[|a| + |b|]) == 2; }
  }

  /** In relative mode the words of a relative move shift the stage by the deltas. */
  lemma RelativeWordsShift(p: Position, dx: real, dy: real, dz: real)
    ensures ApplyWords(true, p, RelativeWords(dx, dy, dz)) == Shift(p, dx, dy, dz)
  {
    var a := if dx != 0.0 then [X(dx)] else [];
    var b := if dy != 0.0 then [Y(dy)] else [];
    var c := if dz != 0.0 then [Z(dz)] else [];
    ApplyWordsAppend(true, p, a, b);
    ApplyWordsAppend(true, p, a + b, c);
    assert RelativeWords(dx, dy, dz) == a + b + c;
    assert ApplyWords(true, p, a) == p.(x := p.x + dx);
    assert ApplyWords(true, p, a + b) == p.(x := p.x + dx, y := p.y + dy);
  }

  /** G28 takes the stage to the origin: the position `home_printer` records. */
  lemma HomeAgrees(m: Machine)
    ensures Run(m, [Home]).at == Origin
  {
  }

  // ---------------------------------------------------------------------
  // Reply classification

  datatype Reply = Acknowledged | Rejected | Unrecognised

  /** 'ok' is looked for first, case-insensitively, then 'error'. */
  function Classify(line: string): Reply {
    var lower := Lower(line);
    if Contains(lower, "ok") then Acknowledged
    else if Contains(lower, "error") then Rejected
    else Unrecognised
  }

  /** Case does not matter: a line containing "OK" is an acknowledgement. */
  lemma UpperOkAcknowledges(line: string)
    requires Contains(line, "OK")
    ensures Classify(line) == Acknowledged
  {
    ContainsLower(line, "OK");
    assert Lower("OK") == "ok";
  }

  /** 'ok' wins over 'error': a line containing "ok" in lower or upper case
      is an acknowledgement whatever else it contains. */
  lemma OkBeatsError(line: string)
    requires Contains(line, "ok") || Contains(line, "OK")
    ensures Classify(line) == Acknowledged
  {
    if Contains(line, "ok") {
      ContainsLower(line, "ok");
      assert Lower("ok") == "ok";
    } else {
      UpperOkAcknowledges(line);
    }
  }

  /** Reads reply lines until one is classified: the result of `send_command`
      and the lines left unread. Running out of lines stands for the timeout. */
  function AwaitReply(lines: seq<string>): (res: (Result<string, Fault>, seq<string>))
    ensures |res.1| < |lines| || (lines == [] && res.1 == [])
    ensures res.0.Ok? ==> Classify(res.0.value) == Acknowledged
    ensures res.0.Err? ==> res.0.error == PrinterTimeout || (res.0.error.PrinterError? && Classify(res.0.error.reply) == Rejected)
    decreases |lines|
  {
    if |lines| == 0 then (Err(PrinterTimeout), [])
    else
      var response := Strip(lines[0]);
      match Classify(response)
      case Acknowledged => (Ok(response), lines[1..])
      case Rejected => (Err(PrinterError(response)), lines[1..])
      case Unrecognised => AwaitReply(lines[1..])
  }

  /** A line the wait stops at: its stripped text is an acknowledgement or a rejection. */
  predicate Settles(line: string) {
    Classify(Strip(line)) != Unrecognised
  }

  /** The first line that settles decides the reply: an acknowledgement is
      returned, a rejection raised, and the lines after it are left unread. */
  lemma {:induction false} AwaitReplyFirst(lines: seq<string>, i: nat)
    requires i < |lines| && Settles(lines[i])
    requires forall j :: 0 <= j < i ==> !Settles(lines[j])
    ensures AwaitReply(lines).1 == lines[i + 1..]
    ensures var reply := Strip(lines[i]);
      AwaitReply(lines).0 == if Classify(reply) == Acknowledged then Ok(reply) else Err(PrinterError(reply))
    decreases i
  {
    if i > 0 {
      var rest := lines[1..];
      assert !Settles(lines[0]);
      assert AwaitReply(lines) == AwaitReply(rest);
      forall j | 0 <= j < i - 1
        ensures !Settles(rest[j])
      {
        assert rest[j] == lines[j + 1];
      }
      AwaitReplyFirst(rest, i - 1);
      assert rest[i..] == lines[i + 1..];
    }
  }

  /** When no line settles, the wait times out and every line is consumed. */
  lemma {:induction false} AwaitReplyNone(lines: seq<string>)
    requires forall j :: 0 <= j < |lines| ==> !Settles(lines[j])
    ensures AwaitReply(lines) == (Err(PrinterTimeout), [])
    decreases |lines|
  {
    if |lines| > 0 {
      assert !Settles(lines[0]);
      var rest := lines[1..];
      assert forall j :: 0 <= j < |rest| ==> rest[j] == lines[j + 1];
      AwaitReplyNone(rest);
    }
  }

  /** Sending `n` commands in a row on a connected link, stopping at the first
      failure: how many were written, the outcome, and the unread replies. */
  function Exchange(lines: seq<string>, n: nat): (res: (nat, Outcome<Fault>, seq<string>))
    ensures res.0 <= n
    ensures res.1.Pass? ==> res.0 == n
    decreases n
  {
    if n == 0 then (0, Pass, lines)
    else
      var (reply, rest) := AwaitReply(lines);
      if reply.Err? then (1, Fail(reply.error), rest)
      else
        var (k, out, rest') := Exchange(rest, n - 1);
        (k + 1, out, rest')
  }

  /** The outcomes of `n` waits in a row, each reading on from where the
      previous one stopped, whether or not they succeed. */
  function Waits(lines: seq<string>, n: nat): (ws: seq<Result<string, Fault>>)
    ensures |ws| == n
    decreases n
  {
    if n == 0 then [] else [AwaitReply(lines).0] + Waits(AwaitReply(lines).1, n - 1)
  }

  predicate AllAcknowledged(ws: seq<Result<string, Fault>>) {
    forall i :: 0 <= i < |ws| ==> ws[i].Ok?
  }

  /** A reply line that acknowledges once stripped. */
  predicate Accepts(line: string) {
    Classify(Strip(line)) == Acknowledged
  }

  /** A printer that accepts the next `n` commands: each of the next `n`
      reply lines is an acknowledgement. */
  predicate Acknowledges(lines: seq<string>, n: nat) {
    n <= |lines| && forall j {:trigger Accepts(lines[j])} :: 0 <= j < n ==> Accepts(lines[j])
  }

  /** A printer that accepts the next `n` commands still accepts, after `a`
      of them, the next `m` when `a + m <= n`. */
  lemma AcknowledgesWithin(lines: seq<string>, n: nat, a: nat, m: nat)
    requires Acknowledges(lines, n) && a + m <= n
    ensures Acknowledges(lines[a..], m)
  {
    assert forall j :: 0 <= j < m ==> lines[a..][j] == lines[a + j];
  }

  /** An acknowledging first line is the reply, and only it is consumed. */
  lemma AwaitAccepted(lines: seq<string>)
    requires lines != [] && Accepts(lines[0])
    ensures AwaitReply(lines) == (Ok(Strip(lines[0])), lines[1..])
  {
  }

  /** Acknowledgement lines make every one of the waits acknowledged, each
      wait taking exactly one line. */
  lemma {:induction false} AcknowledgesWaits(lines: seq<string>, n: nat)
    requires Acknowledges(lines, n)
    ensures AllAcknowledged(Waits(lines, n))
    decreases n
  {
    if n > 0 {
      AwaitAccepted(lines);
      var rest := lines[1..];
      assert forall j :: 0 <= j < n - 1 ==> rest[j] == lines[j + 1];
      AcknowledgesWaits(rest, n - 1);
      assert forall i :: 1 <= i < n ==> Waits(lines, n)[i] == Waits(rest, n - 1)[i - 1];
    }
  }

  /** Commands that are each answered by an acknowledgement line are all
      written, the run passes, and each command consumed one line. */
  lemma {:induction false} ExchangeAcknowledged(lines: seq<string>, n: nat)
    requires Acknowledges(lines, n)
    ensures Exchange(lines, n) == (n, Pass, lines[n..])
    decreases n
  {
    if n > 0 {
      AwaitAccepted(lines);
      var rest := lines[1..];
      assert forall j :: 0 <= j < n - 1 ==> rest[j] == lines[j + 1];
      ExchangeAcknowledged(rest, n - 1);
      assert rest[n - 1..] == lines[n..];
    }
  }

  /** Wait `k` (counting from one) reports `e`, and every wait before it an
      acknowledgement. */
  predicate FailsAt(ws: seq<Result<string, Fault>>, k: int, e: Fault) {
    && 1 <= k <= |ws|
    && (forall i :: 0 <= i < k - 1 ==> ws[i].Ok?)
    && ws[k - 1] == Err(e)
  }

  /** The count and outcome of a run of sends whose waits have outcomes
      `ws`: up to and including the first failure. */
  function Settle(ws: seq<Result<string, Fault>>): (nat, Outcome<Fault>)
    decreases |ws|
  {
    if |ws| == 0 then (0, Pass)
    else if ws[0].Err? then (1, Fail(ws[0].error))
    else (Settle(ws[1..]).0 + 1, Settle(ws[1..]).1)
  }

  /** A run of sends passes exactly when each wait is acknowledged; otherwise
      it stops at the first wait that is not, with that wait's error. */
  lemma {:induction false} SettleOutcome(ws: seq<Result<string, Fault>>)
    ensures Settle(ws).1.Pass? <==> AllAcknowledged(ws)
    ensures Settle(ws).1.Fail? ==> FailsAt(ws, Settle(ws).0, Settle(ws).1.error)
    decreases |ws|
  {
    if |ws| > 0 && ws[0].Ok? {
      var later := ws[1..];
      SettleOutcome(later);
      assert forall i :: 1 <= i < |ws| ==> ws[i] == later[i - 1];
      if Settle(later).1.Fail? {
        assert !ws[Settle(later).0].Ok?;
      }
    }
  }

  /** `Exchange` settles the outcomes of its `n` waits. */
  lemma {:induction false} ExchangeSettles(lines: seq<string>, n: nat)
    ensures (Exchange(lines, n).0, Exchange(lines, n).1) == Settle(Waits(lines, n))
    decreases n
  {
    if n > 0 {
      var rest := AwaitReply(lines).1;
      ExchangeSettles(rest, n - 1);
      assert Waits(lines, n)[1..] == Waits(rest, n - 1);
    }
  }

  /** `n` sends pass exactly when each of the `n` waits is acknowledged; a
      failure is the error of the `k`-th wait after `k - 1` acknowledgements,
      and the commands after it are never written. */
  lemma ExchangeOutcome(lines: seq<string>, n: nat)
    ensures Exchange(lines, n).1.Pass? <==> AllAcknowledged(Waits(lines, n))
    ensures Exchange(lines, n).1.Fail? ==> FailsAt(Waits(lines, n), Exchange(lines, n).0, Exchange(lines, n).1.error)
  {
    ExchangeSettles(lines, n);
    SettleOutcome(Waits(lines, n));
  }

  class Printer {
    /** `serial_connection` is set. */
    var connected: bool
    /** `current_position`. */
    var position: Position
    /** Every command written to the serial line, oldest first. */
    var sent: seq<Command>
    /** The reply lines the printer will still send, in order. */
    var replies: seq<string>

    constructor (replies: seq<string>)
      ensures !connected && position == Origin && sent == [] && this.replies == replies
    {
      connected := false;
      position := Origin;
      sent := [];
      this.replies := replies;
    }

    /** With no port given, one is discovered (None when no port answers);
        opening it either succeeds or leaves the previous link as it was. */
    method Connect(port: Option<string>, discovered: Option<string>, opens: bool) returns (r: Result<bool, Fault>)
      modifies this`connected
      ensures port.None? && discovered.None? ==> r == Err(NoPrinterFound) && connected == old(connected)
      ensures port.Some? || discovered.Some? ==> r == Ok(opens) && connected == (opens || old(connected))
    {
      if port.None? && discovered.None? {
        return Err(NoPrinterFound);
      }
      if opens {
        connected := true;
      }
      return Ok(opens);
    }

    method SendCommand(cmd: Command) returns (r: Result<string, Fault>)
      modifies this`sent, this`replies
      ensures !connected ==> r == Err(PrinterNotConnected) && sent == old(sent) && replies == old(replies)
      ensures connected ==> sent == old(sent) + [cmd] && (r, replies) == AwaitReply(old(replies))
    {
      if !connected {
        return Err(PrinterNotConnected);
      }
      sent := sent + [cmd];
      var lines := replies;
      while |lines| > 0
        invariant AwaitReply(lines) == AwaitReply(old(replies))
        decreases |lines|
      {
        var response := Strip(lines[0]);
        lines := lines[1..];
        var kind := Classify(response);
        if kind == Acknowledged {
          replies := lines;
          return Ok(response);
        } else if kind == Rejected {
          replies := lines;
          return Err(PrinterError(response));
        }
      }
      replies := [];
      return Err(PrinterTimeout);
    }

    method HomePrinter() returns (r: Outcome<Fault>)
      modifies this`sent, this`replies, this`position
      ensures !connected ==> r == Fail(PrinterNotConnected) && sent == old(sent) && replies == old(replies)
      ensures connected ==> sent == old(sent) + [Home] && replies == AwaitReply(old(replies)).1
      ensures connected ==> (r.Pass? <==> AwaitReply(old(replies)).0.Ok?)
      ensures position == if r.Pass? then Origin else old(position)
    {
      var reply := SendCommand(Home);
      if reply.Err? {
        return Fail(reply.error);
      }
      position := Origin;
      return Pass;
    }

    /** The tracked position is updated before the command is sent, so it
        changes even when the send fails. */
    method MoveToPosition(x: Option<real>, y: Option<real>, z: Option<real>, feedrate: int) returns (r: Outcome<Fault>)
      modifies this`sent, this`replies, this`position
      ensures position == SetAxes(old(position), x, y, z)
      ensures !connected ==> r == Fail(PrinterNotConnected) && sent == old(sent) && replies == old(replies)
      ensures connected ==> sent == old(sent) + [LinearMove(feedrate, AbsoluteWords(x, y, z))]
      ensures connected ==> replies == AwaitReply(old(replies)).1 && (r.Pass? <==> AwaitReply(old(replies)).0.Ok?)
    {
      position := SetAxes(position, x, y, z);
      var reply := SendCommand(LinearMove(feedrate, AbsoluteWords(x, y, z)));
      if reply.Err? {
        return Fail(reply.error);
      }
      return Pass;
    }

    /** G91, the move, G90; the position is updated once G91 has been accepted,
        before the move itself is sent. */
    method MoveRelative(dx: real, dy: real, dz: real, feedrate: int) returns (r: Outcome<Fault>)
      modifies this`sent, this`replies, this`position
      ensures !connected ==> r == Fail(PrinterNotConnected) && sent == old(sent) && replies == old(replies) && position == old(position)
      ensures connected ==>
        var (k, out, rest) := Exchange(old(replies), 3);
        && sent == old(sent) + RelativeScript(dx, dy, dz, feedrate)[..k]
        && r == out && replies == rest
        && position == if k >= 2 then Shift(old(position), dx, dy, dz) else old(position)
    {
      var script := RelativeScript(dx, dy, dz, feedrate);
      var a := SendCommand(RelativeMode);
      if a.Err? {
        return Fail(a.error);
      }
      position := Shift(position, dx, dy, dz);
      var b := SendCommand(LinearMove(feedrate, RelativeWords(dx, dy, dz)));
      if b.Err? {
        return Fail(b.error);
      }
      var c := SendCommand(AbsoluteMode);
      if c.Err? {
        return Fail(c.error);
      }
      return Pass;
    }

    /** A copy of the tracked position: a value, so the caller cannot alter the original. */
    method GetPosition() returns (p: Position)
      ensures p == position
    {
      p := position;
    }

    method Disconnect()
      modifies this`connected
      ensures !connected
    {
      connected := false;
    }
  }
}
