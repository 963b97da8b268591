# Castle-Lite slide scanner: a Dafny model of its control logic

Castle-Lite is a slide scanner. A 3D printer carries the camera over a
microscope slide, and a USB camera takes the pictures. Python scripts
drive it in three stages:

- **Calibration.**
  - Locate the slide centre (`slide_position_calibration.py`).
  - Find the best focus height (`focus_calibration.py`).
  - Measure the field of view and plan a covering grid of images (`coverage_planning.py`).
  - Record the four slide corners (`select_slide_corners.py`).
  - Look for the slide borders (`test_slide_border_detection.py`).
- **Sweep.** Visit a grid interpolated between the four corners, refocus
  tiles that are not sharp enough, and stitch each tile onto its
  neighbour (`sweep_and_stitch.py`).
- **Baseline mosaic.** Lay the saved tiles side by side in a grid
  (`simple_grid_stitch.py`).

This project models the deterministic bookkeeping around the hardware and
the image library:

- the printer's tracked position, and the G-code commands each move sends;
- how replies are classified;
- the camera's connection guards;
- the grid geometry of every stage;
- the "first strictly best" selection rules;
- the keyboard state machines of the interactive loops;
- the placement of tiles into the mosaic buffers.

Everything the image library computes is a parameter of the model:
sharpness, edge counts, phase-correlation peaks, ORB features and
matches, homographies and warps.

Layout, one module per source file, plus shared modules:

- **Shared modules.**
  - `wrappers.dfy`: `Option`/`Result`/`Outcome`.
  - `faults.dfy`: the exceptions the code raises.
  - `numeric.dfy`: ceiling, absolute value, `np.arange`.
  - `text.dfy`: `strip`, `lower`, `in`, `split`, `replace` and `int()` on
    strings.
  - `selection.dfy`: the first index of a maximum, as Python's `max` and
    `np.argmax` choose it.
  - `grid.dfy`: row-major cell order.
  - `raster.dfy`: images as rows of pixels.
  - `sequences.dfy`: small slicing and concatenation facts.
- **Keyboard and wiring.**
  - `jog.dfy`: the step table and the jog keys.
  - `jog_session.dfy`: the shared key loop.
  - `hardware.dfy`: `connect_hardware`.
- **The scripts.**
  - `printer_interface.dfy`: `PrinterInterface`, as class `Printer`.
  - `camera_interface.dfy`: `CameraInterface`, as class `Camera`.
  - `sweep_and_stitch.dfy`, `simple_grid_stitch.dfy`, `coverage_planning.dfy`,
    `focus_calibration.dfy`, `border_detection.dfy`,
    `slide_position_calibration.dfy` and `select_slide_corners.dfy`.

**State and effects.**

- **The printer** is a class whose fields are updated in place:
  - the connection;
  - the tracked position;
  - `sent`, the commands written so far;
  - `replies`, the queue of reply lines still to come.

  A G-code command is a value: home, absolute mode, relative mode, or a
  linear move with its feedrate and an ordered list of axis words.
  `Run` is the reference semantics of a command sequence: the position
  the machine reaches by running it. Every method is tied to `Run`
  through lemmas.
- **The camera** is a class with a queue `feed` of optional frames. A
  failed read is `None`.
- **The key loops** read a finite sequence of keys.

Procedures that change state are methods whose postconditions give the new
`sent`, `replies`, `position` and `feed` in terms of the old ones.
Computations are functions, with lemmas on them.

**Where the model follows the code rather than the documentation.**

- The registered composite is seeded by the first frame, so it is one frame
  in size. It is not the footprint of the whole grid. A later warp writes
  only inside that frame.
- Registration asks for more than 10 matches, not "at least 10".
- In focus mode 2, the saved record carries the slide centre that was
  loaded, not the X/Y the operator picked.
- The `None` checks on the detected borders in
  `test_slide_border_detection.py` can never fire: a scan always visits
  its centre, so a border is always found (`BorderDetection.BorderSide`).
- The border script closes the devices only on its own early returns. An
  exception raised during a scan leaves them connected.
- A camera that is not connected makes `get_camera_info` return `None`.
  `measure_field_of_view` then fails on indexing it. The model reports
  this as `TypeMismatch`. The same value stands for a width or height
  that is `None`.
- `measure_field_of_view` divides by the pixels-per-mm only after all four
  moves, and the divisions are numpy float64 ones, which do not raise. A
  zero displacement gives an infinite field of view (or NaN for a zero
  frame size). The plan built from an infinite field has no rows or
  columns, so the run fails only later, with an `IndexError` on the first
  test image (`CoveragePlanning.ZeroShiftEmptiesGrid`). A finite zero step
  would make `np.ceil` of an infinite quotient fail with `OverflowError`.
- After refocusing a tile, the sweep leaves the stage at the top of the
  local sweep, z + 0.5. It does not move back to the height it keeps
  (`SweepAndStitch.TileRun`).
- A stage or camera fault during the sweep is not caught, so both devices
  stay connected. They are disconnected only after a complete sweep.
- `test_scan_pattern` on an empty pattern fails with an `IndexError` on its
  first index.
- In `manual_focus_selection`, 'f' is tested as the record key before the
  Z-down branch, so Z can only rise in that loop (`JogSession.DriveMoves`,
  `JogSession.HeightAfterLoop`).

## Model

| member | source | states |
|---|---|---|
| PrinterInterface.Printer.constructor | utils/printer_interface.py:13-17 | a new interface is disconnected, at the origin (0,0,0), and has sent nothing |
| PrinterInterface.Printer.Connect | utils/printer_interface.py:40-60 | with no port given and none discovered it fails with "no printer found"; otherwise the result is whether the port opened, and connects on success |
| PrinterInterface.Printer.SendCommand | utils/printer_interface.py:62-81 | disconnected: raises and sends nothing; connected: appends the command and returns the first reply line that acknowledges, fails on a rejecting line, or times out when the replies run out |
| PrinterInterface.AwaitReply | utils/printer_interface.py:73-81 | the wait consumes at least one line unless none are left; success only on a line classified as acknowledgement; failure is a timeout or a line classified as an error |
| PrinterInterface.AwaitReplyFirst | utils/printer_interface.py:73-81 | the wait is settled by the first line that contains "ok" or "error", in any case: it returns that line's verdict (success on an acknowledgement, its error otherwise) and leaves exactly the lines after it |
| PrinterInterface.AwaitReplyNone | utils/printer_interface.py:72-81 | when no line contains "ok" or "error" the wait reads every line and times out |
| PrinterInterface.AwaitAccepted | utils/printer_interface.py:73-81 | a first line that acknowledges is taken at once: success with that stripped line, the rest left unread |
| PrinterInterface.UpperOkAcknowledges | utils/printer_interface.py:76-77 | matching is case-insensitive: any line containing "OK" is an acknowledgement |
| PrinterInterface.OkBeatsError | utils/printer_interface.py:76-79 | 'ok' is tested before 'error': any line containing "ok" or "OK" is an acknowledgement, whatever else it contains |
| PrinterInterface.Exchange | utils/printer_interface.py:108-122 | of n commands in a row, at most n are written, and all n when the run passes |
| PrinterInterface.SettleOutcome | utils/printer_interface.py:108-122 | a run of waits passes exactly when each is acknowledged; otherwise it stops at the first one that is not, with its error |
| PrinterInterface.ExchangeSettles | utils/printer_interface.py:108-122 | the count and outcome of n sends are those the n successive reply waits settle |
| PrinterInterface.ExchangeOutcome | utils/printer_interface.py:108-122 | n sends pass exactly when each of the n waits is acknowledged; a failure is the k-th wait's error after k-1 acknowledgements |
| PrinterInterface.AcknowledgesWaits | utils/printer_interface.py:73-81 | n acknowledging lines make each of n successive waits succeed |
| PrinterInterface.ExchangeAcknowledged | utils/printer_interface.py:108-122 | n sends on n acknowledging lines all pass and take exactly those n lines |
| PrinterInterface.AcknowledgesWithin | utils/printer_interface.py:73-81 | any stretch of an acknowledging run of lines is itself acknowledging |
| PrinterInterface.Printer.HomePrinter | utils/printer_interface.py:83-88 | sends G28 and resets the tracked position to the origin only when G28 is acknowledged; a failed send leaves the position unchanged |
| PrinterInterface.HomeAgrees | utils/printer_interface.py:83-88 | running G28 takes the machine to the origin |
| PrinterInterface.Printer.MoveToPosition | utils/printer_interface.py:90-104 | sets exactly the given axes and leaves the others, even when the send then fails; sends "G1 F{feedrate}" with X, Y, Z words in that order for the given axes only |
| PrinterInterface.AbsoluteMoveAgrees | utils/printer_interface.py:90-104 | running the absolute command moves the machine exactly as the tracked position says; its words are in X, Y, Z order and present exactly for the given axes |
| PrinterInterface.Printer.MoveRelative | utils/printer_interface.py:106-122 | sends G91, the G1 move and G90, stopping at the first failure; the tracked position is shifted by the deltas once G91 succeeded, even when the move or G90 then fails |
| PrinterInterface.RelativeMoveAgrees | utils/printer_interface.py:106-122 | running G91, the G1 command, G90 shifts the machine by (dx,dy,dz) and leaves it in absolute mode; zero deltas are left out of the command, nonzero ones are present in X, Y, Z order |
| PrinterInterface.RelativeWordsShape | utils/printer_interface.py:109-119 | the relative command carries a word for an axis exactly when its delta is nonzero, in X, Y, Z order |
| PrinterInterface.RelativeWordsShift | utils/printer_interface.py:109-119 | in relative mode the command's words add exactly the deltas |
| PrinterInterface.ShiftInverse | utils/printer_interface.py:106-119 | a relative move followed by the opposite move restores the position |
| PrinterInterface.RunAppend | utils/printer_interface.py:62-122 | running two command sequences one after the other is the same as running their concatenation |
| PrinterInterface.ApplyWordsAppend | utils/printer_interface.py:92-119 | the axis words of a command apply left to right |
| PrinterInterface.Printer.GetPosition | utils/printer_interface.py:124-126 | returns the tracked position, as a value, so callers cannot alias it |
| PrinterInterface.Printer.Disconnect | utils/printer_interface.py:128-133 | the printer is disconnected afterwards |
| CameraInterface.Camera.constructor | utils/camera_interface.py:14-19 | no capture handle, not connected, width and height unset |
| CameraInterface.Camera.Connect | utils/camera_interface.py:21-42 | always creates the handle; on success connects and records width and height; on failure returns false and leaves connection, width and height as they were |
| CameraInterface.Camera.CaptureFrame | utils/camera_interface.py:44-53 | raises unless connected, without reading; otherwise reads one frame from the feed, and a failed read raises "failed to capture" |
| CameraInterface.DeliversWithin | utils/camera_interface.py:44-53 | any stretch of a run of good reads is itself a run of good reads |
| CameraInterface.CooperatesAt | utils/camera_interface.py:44-53 | within n cooperating commands and reads, the i-th command and read are cooperating on what the first i left |
| CameraInterface.CooperatesSplit | utils/camera_interface.py:44-53 | a + b cooperating commands and reads are a cooperating, then b cooperating on what the first a left |
| CameraInterface.Camera.SweepStep | utils/camera_interface.py:121-139 | one sweep step moves only Z, then captures and scores one frame, tagging the entry with its z; when the printer accepts one reply line per command and the camera delivers a good frame per read, it succeeds and takes exactly one reply line |
| CameraInterface.Camera.SweepFrames | utils/camera_interface.py:118-139 | the sent commands are the Z-only moves of a prefix of the heights; on success there is one entry per height, in order, scoring the next frames of the feed, and X and Y never move; when the printer accepts one reply line per command and the camera delivers a good frame per read, it succeeds and takes one reply line per height |
| CameraInterface.Camera.FocusSweepAnalysis | utils/camera_interface.py:108-147 | raises before any move when disconnected; each command sent is a Z-only move to the next height; on success one entry per height, tagged with it, and the best is the first of greatest sharpness; an empty height list fails as `max` does; connected, with a non-empty height list and devices that cooperate for every height, it succeeds and takes one reply line per height |
| CameraInterface.ZMovesSent | utils/camera_interface.py:118-122 | after any prefix of the sweep, the new commands are the Z moves of the heights in order and at most one per height |
| CameraInterface.BestEntry | utils/camera_interface.py:144 | `max` by sharpness: fails exactly on an empty list; otherwise an entry of the list that no other entry beats |
| CameraInterface.BestEntryFirst | utils/camera_interface.py:144 | `max` keeps the first of equal maxima: the result is the entry at the first index of the greatest sharpness |
| CameraInterface.Camera.GetCameraInfo | utils/camera_interface.py:149-159 | None when disconnected, otherwise the width and height recorded at connect |
| CameraInterface.Camera.Disconnect | utils/camera_interface.py:161-167 | clears the connection only when a capture handle exists |
| CameraInterface.ConsumedNext | utils/camera_interface.py:44-53 | reading one more good frame extends the consumed prefix of the feed by one |
| Hardware.ConnectHardware | calibration/coverage_planning.py:46-56 | succeeds exactly when a printer port is found and opens and the camera opens; each failure is reported in that order; the camera is untouched unless the printer connected |
| Jog.StepKeyOf | calibration/focus_calibration.py:220-221 | exactly the keys '1' to '5' select a step, and key k selects step k |
| Jog.StepSize | calibration/focus_calibration.py:189 | the step table 0.1/0.5/1/5/10 mm gives a positive length for every key |
| Jog.AxisDeltaOneAxis | calibration/slide_position_calibration.py:102-113 | exactly w/s/a/d/r/f move; each moves one axis by plus or minus one step; w/s/a/d never move Z |
| JogSession.Drive | calibration/slide_position_calibration.py:65-116 | the whole key loop as a function of the keys: how it ends, how many keys it reads, the step in force and the jogs it issues; its own contract says it never reads past the keys given, and DriveEnding, DriveMoves and DriveAdvance below state the rest |
| JogSession.DriveEnding | calibration/slide_position_calibration.py:84-98 | the loop waits exactly when no key is 'q' or the choice key; it ends cancelled right after a 'q' and chosen right after the choice key, with neither earlier |
| JogSession.DriveMoves | calibration/focus_calibration.py:201-234 | every move is a single-axis jog by a step of the table; without r/f bindings Z never moves; where 'f' is the record key Z never moves down, so the Z-down branch at line 233 is unreachable |
| JogSession.HeightAfterLoop | calibration/focus_calibration.py:231-234 | after the X/Y selection loop Z is unchanged; after the manual focus loop Z is at least where it started |
| JogSession.DisplaceHeight | calibration/focus_calibration.py:231-234 | jogs that never lower Z leave Z at least where it was, and jogs with no Z part leave it unchanged |
| JogSession.Scripts | calibration/slide_position_calibration.py:102-113 | each jog sends three commands (G91, the move, G90) |
| JogSession.DisplaceAgrees | calibration/slide_position_calibration.py:102-113 | running the jogs' commands moves the machine to the tracked position the jogs produce |
| JogSession.ScriptsSnoc | calibration/slide_position_calibration.py:102-113 | one more jog appends its relative script and shifts the position by its delta |
| JogSession.ScriptsAppend | calibration/slide_position_calibration.py:102-113 | the script of two jog sequences is the concatenation of their scripts |
| JogSession.DisplaceAppend | calibration/slide_position_calibration.py:102-113 | jogging in two parts reaches the same position as jogging at once |
| JogSession.DriveAdvance | calibration/slide_position_calibration.py:84-113 | one key's effect in the loop: 'q' cancels, the choice key chooses, a digit sets the step, a jog key issues its move, other keys are ignored |
| JogSession.DriveStart | calibration/slide_position_calibration.py:55-65 | the loop starts with no keys read, the given step and no moves |
| JogSession.Continue | calibration/slide_position_calibration.py:99-113 | a key that does not end the loop resumes it one key later and adds exactly its own commands and shift |
| JogSession.FailPrefix | calibration/slide_position_calibration.py:99-113 | the commands sent before a failure are a prefix of those of the whole loop |
| JogSession.IssuedThenRest | calibration/slide_position_calibration.py:99-113 | the loop's commands are those of the first key followed by those of the rest |
| JogSession.Round | calibration/slide_position_calibration.py:65-113 | one round captures a live frame (raising unless connected), then sends exactly the command of the key's action and updates the position accordingly; when the printer accepts one reply line per command and the camera delivers a good frame per read, the round does not fail and takes one reply line per command it sends |
| JogSession.JoggedStep | calibration/slide_position_calibration.py:99-113 | a key that does not end the loop keeps frames, commands and position in step with `Drive` one key later |
| JogSession.SessionReady | calibration/slide_position_calibration.py:65-113 | devices that cooperate for the whole loop cooperate for the round at any key the loop reaches, on what the rounds before it left |
| JogSession.Turn | calibration/slide_position_calibration.py:65-113 | one pass of the loop body: a failure only with uncooperative devices, an ending equals `Drive`'s trace, and a key that continues keeps the loop in step with `Drive` |
| JogSession.Session | calibration/slide_position_calibration.py:65-116 | a whole loop equals `Drive` on the keys, consumes one frame per key read, sends the scripts of its jogs and ends at the displaced position; after a failure the sent commands are a prefix of those; with devices that cooperate for all of `Drive`'s jogs and reads it ends normally, three reply lines taken per jog |
| SweepAndStitch.Fraction | sweep_and_stitch.py:31-35 | the fraction of a cell is within [0, 1], and it is 0 when there is only one cell on the axis |
| SweepAndStitch.QuadInterp | sweep_and_stitch.py:24-37 | fills an ny by nx array whose cell (iy, ix) is the bilinear point of the four corners |
| SweepAndStitch.GridHitsCorners | sweep_and_stitch.py:24-37 | for nx, ny > 1 the four grid corners are bottom-left, bottom-right, top-left and top-right |
| SweepAndStitch.GridDegenerate | sweep_and_stitch.py:31-35 | with one column the grid runs along the left edge, with one row along the bottom edge, and a 1x1 grid is exactly bottom-left |
| SweepAndStitch.GridWithinCorners | sweep_and_stitch.py:32-36 | every coordinate of every grid point, Z included, lies within the corners' minimum and maximum |
| SweepAndStitch.GridConstant | sweep_and_stitch.py:32-36 | identical corners give a constant grid |
| SweepAndStitch.MixBetween | sweep_and_stitch.py:32-36 | a weighted mix with weight in [0, 1] lies between its ends |
| SweepAndStitch.CoordLerp | sweep_and_stitch.py:32-36 | interpolating positions interpolates each coordinate |
| SweepAndStitch.GridCount | sweep_and_stitch.py:80-81 | ceil(length/step) + 1 is at least 1 |
| SweepAndStitch.GridCountCovers | sweep_and_stitch.py:78-81 | the grid count spans the length: (n - 1) steps reach it and (n - 2) steps fall short |
| SweepAndStitch.LocalSweepShape | sweep_and_stitch.py:43-45 | the local sweep has 11 heights from z - 0.5 to z + 0.5, the middle one at z |
| SweepAndStitch.PickSharpest | sweep_and_stitch.py:45-58 | no frame (and z_center with -1) exactly when no score beats -1; otherwise the first sample of greatest score, with its height and frame |
| SweepAndStitch.PickSharpestStep | sweep_and_stitch.py:54-57 | a new sample replaces the best only when strictly sharper, so ties keep the earlier sample |
| SweepAndStitch.PickSharpestFindsFrame | sweep_and_stitch.py:45-58 | with nonnegative scores and at least one sample, a frame is always found |
| SweepAndStitch.MoveAndCapture | sweep_and_stitch.py:106-108 | moves to (x, y, z) and, on success, has sent that one move and read the next frame; when the printer accepts one reply line per command and the camera delivers a good frame per read, it succeeds and takes exactly one reply line |
| SweepAndStitch.SharpestAlong | sweep_and_stitch.py:48-58 | visits the heights in order, one move and one frame each, and returns the choice `PickSharpest` makes on their scores; with devices that cooperate for every height it succeeds, one reply line per height |
| SweepAndStitch.LocalZAutofocus | sweep_and_stitch.py:43-58 | the same over the eleven local heights, ending at the last one; with devices that cooperate for eleven moves and reads it succeeds and takes eleven reply lines |
| SweepAndStitch.ShootRule | sweep_and_stitch.py:104-115 | the shot a visit takes from the camera's frames: refocused exactly when the first frame's sharpness is below 30.0; otherwise the first frame at the planned z; after refocusing the sharpest of the eleven sweep frames, the first to reach that sharpness, at its own sweep height; every frame read is a good one |
| SweepAndStitch.ShootDefined | sweep_and_stitch.py:43-58 | with twelve good frames ahead a visit always keeps a frame, because a variance always beats the sweep's -1 |
| SweepAndStitch.VisitTile | sweep_and_stitch.py:104-115 | on success the shot is the one those frames determine, exactly that many frames were read, the commands sent are the move to the target followed, when refocusing, by the eleven sweep moves, and the stage is at the target or at the top of the sweep; with devices that cooperate for twelve commands and reads the visit succeeds, one reply line per command it sent |
| SweepAndStitch.MovesRun | sweep_and_stitch.py:48-50 | executing the sweep's absolute moves leaves the stage at the last sweep height above the sweep's x and y |
| SweepAndStitch.TileRun | sweep_and_stitch.py:104-115 | executing a visit's commands puts the stage exactly at the visit's tracked end position |
| SweepAndStitch.LogRun | sweep_and_stitch.py:102-115 | executing the commands of all visits so far leaves the stage where the last visit ended |
| SweepAndStitch.FedSnoc | sweep_and_stitch.py:102-115 | a visit that takes its shot from the frames the earlier visits left keeps every tile's shot tied to its own frames |
| SweepAndStitch.LogSnoc | sweep_and_stitch.py:102-115 | one more visit appends its commands to the log and its frame count to the frames read |
| SweepAndStitch.TrailStep | sweep_and_stitch.py:102-115 | one more visit extends the record of the sweep: frames read, commands sent, shots tied to frames and the end position |
| SweepAndStitch.PacedStart | sweep_and_stitch.py:102-103 | before the first visit, devices that cooperate for twelve commands and reads per cell are on pace |
| SweepAndStitch.PacedRoom | sweep_and_stitch.py:102-115 | on pace with cells still to visit, the devices cooperate for the next visit's twelve commands and reads |
| SweepAndStitch.PacedStep | sweep_and_stitch.py:102-115 | a visit sending at most twelve commands and reading at most twelve frames keeps the sweep on pace |
| SweepAndStitch.PacedEnd | sweep_and_stitch.py:102-162 | however far the sweep got, each command sent took exactly one reply line |
| SweepAndStitch.Decide | sweep_and_stitch.py:135-162 | a tile is warped exactly when both descriptor sets exist, there are more than 10 matches and a homography is found; missing descriptors are told apart |
| SweepAndStitch.ReferenceVisitedEarlier | sweep_and_stitch.py:131-148 | every tile but the first has a reference (left if ix > 0, else above) visited before it in row-major order |
| SweepAndStitch.WarpOnto | sweep_and_stitch.py:145-160 | a transparent warp keeps the composite's size, overwrites covered pixels and keeps the others |
| SweepAndStitch.CompositeShape | sweep_and_stitch.py:127-145 | the composite always has the first frame's size |
| SweepAndStitch.CompositeKeepsUnwarped | sweep_and_stitch.py:137-162 | a tile that is not warped leaves the composite unchanged |
| SweepAndStitch.CompositeStep | sweep_and_stitch.py:127-162 | each later tile applies its registration to the composite of the tiles before it |
| SweepAndStitch.Seed | sweep_and_stitch.py:127-128 | the first frame is copied into a new buffer |
| SweepAndStitch.WarpInPlace | sweep_and_stitch.py:145-160 | the in-place warp leaves the buffer holding the warped composite |
| SweepAndStitch.VisitedExtend | sweep_and_stitch.py:104-115 | a tile shot at its planned target under the refocus rule keeps every tile at its target |
| SweepAndStitch.SavedExtend | sweep_and_stitch.py:116-117 | saving a new cell's frame keeps the saved map exactly the visited tiles' frames |
| SweepAndStitch.RegisteredExtend | sweep_and_stitch.py:131-162 | a new tile registered against a saved neighbour keeps every later tile registered |
| SweepAndStitch.ProgressStep | sweep_and_stitch.py:102-162 | one more tile preserves the sweep invariant: targets, saved frames, seed and registrations |
| SweepAndStitch.ProcessTile | sweep_and_stitch.py:104-162 | visits, saves and registers one tile: the frames read, the commands sent and the shot kept extend the sweep's record, the cell's frame is saved, and the buffer is created at the first tile and then only changed in place to hold the composite |
| SweepAndStitch.ProcessCell | sweep_and_stitch.py:103-162 | the inner loop body advances the visited cells by (ix, iy) and keeps the sweep invariant, the record of frames read and commands sent included |
| SweepAndStitch.VisitedStep | sweep_and_stitch.py:102-103 | row-major order: the next cell is (ix, iy), and a finished row completes the rows so far |
| SweepAndStitch.NextCellFresh | sweep_and_stitch.py:102-103 | the next cell has not been visited |
| SweepAndStitch.NextCellReference | sweep_and_stitch.py:131-148 | the next cell's reference neighbour has already been visited |
| SweepAndStitch.NextCellFirst | sweep_and_stitch.py:127 | the cell (0, 0) is exactly the one visited first |
| SweepAndStitch.RowDone | sweep_and_stitch.py:102-103 | a finished row completes the rows so far |
| SweepAndStitch.SweepRow | sweep_and_stitch.py:103-162 | a row of the sweep visits its nx cells in order and keeps the sweep invariant and its record |
| SweepAndStitch.Sweep | sweep_and_stitch.py:102-162 | on success the nested loops have visited every grid cell in row-major order, the saved frames cover exactly the grid, the frames read and the commands sent are those the visits' shots account for, and a non-empty grid seeds a fresh composite; with devices that cooperate for twelve commands and reads per cell the sweep succeeds, one reply line taken per command sent |
| SweepAndStitch.SweepAndStitch | sweep_and_stitch.py:78-168 | fails before sending anything or reading a frame when a device does not connect; on success every cell of the ceil+1 grid was visited in row-major order at its interpolated target, each tile's shot is the one its own frames determine, the commands sent are the visits' commands in order and the stage ends where the last visit left it; the saved frames cover exactly the grid; the first tile seeds the composite, and the composite is the fold of the registrations; both devices end disconnected; with both devices found and opened and cooperating for twelve commands and reads per cell, it succeeds |
| SimpleGridStitch.ParseTileNameRoundTrip | simple_grid_stitch.py:33-51 | the name `img_x{ix}_y{iy}.png` that sweep_and_stitch.py:116 writes matches the glob and parses back to (ix, iy) |
| SimpleGridStitch.TileNameGlob | simple_grid_stitch.py:33 | every tile name matches `img_*.png` |
| SimpleGridStitch.NameParts | simple_grid_stitch.py:42 | removing ".png" and splitting on '_' gives the three parts of the name |
| SimpleGridStitch.TileNameInjective | sweep_and_stitch.py:116 | distinct cells get distinct file names |
| SimpleGridStitch.OneUnderscoreSkipped | simple_grid_stitch.py:43 | a name with fewer than three '_' parts is skipped |
| SimpleGridStitch.NonNumericX | simple_grid_stitch.py:44-53 | a name whose x index is not an integer is skipped without error |
| SimpleGridStitch.NoDotInDigits | sweep_and_stitch.py:116 | an index's digits contain neither '.' nor '_' |
| SimpleGridStitch.LoadImages | simple_grid_stitch.py:31-56 | the loop builds the map `Collect` defines from the files in order |
| SimpleGridStitch.CollectKeys | simple_grid_stitch.py:39-51 | a key is loaded exactly when some readable file parses to it |
| SimpleGridStitch.CollectLastWins | simple_grid_stitch.py:51 | with two files for one key, the later one is kept |
| SimpleGridStitch.CollectSnoc | simple_grid_stitch.py:39-53 | one more file adds at most its own key |
| SimpleGridStitch.FindBounds | simple_grid_stitch.py:65-68 | the bounds are the exact minima and maxima of the keys |
| SimpleGridStitch.SimpleGridStitchImages | simple_grid_stitch.py:58-103 | None exactly when there are no images; otherwise a new canvas of (max_x-min_x+1)*w by (max_y-min_y+1)*h whose every pixel is that of the image owning its block, or zero |
| SimpleGridStitch.GridPixelBlock | simple_grid_stitch.py:88-100 | image (x, y) occupies rows from (y-min_y)*h and columns from (x-min_x)*w, pixel for pixel |
| SimpleGridStitch.GridPixelEmpty | simple_grid_stitch.py:85 | the block of a cell with no image stays zero |
| SimpleGridStitch.OwnerBlock | simple_grid_stitch.py:90-100 | a pixel lies in a key's block exactly when that key owns it, so distinct keys have disjoint blocks |
| SimpleGridStitch.DivBlock | simple_grid_stitch.py:94-97 | the block containing a row or column is found by integer division |
| SimpleGridStitch.PlaceBlock | simple_grid_stitch.py:100 | a slice assignment writes the image into its block and leaves every other pixel unchanged |
| SimpleGridStitch.PlaceImage | simple_grid_stitch.py:88-100 | placing one image paints its block and keeps the blocks already painted |
| SimpleGridStitch.PlaceAll | simple_grid_stitch.py:88-100 | after the placement loop every pixel holds the owning image's pixel or zero |
| SimpleGridStitch.PaintedAll | simple_grid_stitch.py:85-100 | once all images are placed, the canvas is the grid mosaic |
| CoveragePlanning.Unwrap | calibration/coverage_planning.py:150-154 | for a peak in [0, dim) the result is the peak or the peak minus dim, and -dim < 2*result <= dim |
| CoveragePlanning.UnwrapRecovers | calibration/coverage_planning.py:150-154 | any shift with -dim < 2*d <= dim is recovered from its residue modulo dim |
| CoveragePlanning.DisplacementRecovers | calibration/coverage_planning.py:147-156 | a peak at the shift taken modulo the size gives the shift back, x (column) first although argmax unravels row first |
| CoveragePlanning.PixelsPerMm | calibration/coverage_planning.py:97-105 | pixels per mm times 5 is the absolute shift, and it is zero exactly when the shift is |
| CoveragePlanning.FieldFrom | calibration/coverage_planning.py:111-121 | the field of view is pixels divided by pixels per mm on each axis as a float64: finite with width = pixels/ppm exactly when ppm is nonzero, infinite for a zero ppm; only a missing size fails, with a TypeMismatch |
| CoveragePlanning.MeasuredFromShifts | calibration/coverage_planning.py:88-121 | with nonzero shifts sx, sy recovered from the peaks, ppm = abs(shift)/5 and the field of view is pixels * 5 / abs(shift) |
| CoveragePlanning.FovScriptParts | calibration/coverage_planning.py:90-108 | the four relative moves are +5 X, -5 X, +5 Y, -5 Y, in that order |
| CoveragePlanning.CoveragePlanner.MeasureFieldOfView | calibration/coverage_planning.py:71-126 | raises before moving when the camera is not connected; on success it has read three frames, sent the four moves one axis at a time with zero net displacement, and stores and returns the field of view measured from those frames; with devices that cooperate for twelve reply lines and three frames it succeeds with that measurement |
| CoveragePlanning.CoveragePlanner.CaptureAfter | calibration/coverage_planning.py:90-102 | a relative move followed by one capture; with devices that cooperate for three reply lines and one frame it succeeds |
| CoveragePlanning.CoveragePlanner.Excursion | calibration/coverage_planning.py:90-108 | a move out, a frame, and the move back: on success the stage is where it started; with devices that cooperate for six reply lines and one frame it succeeds |
| CoveragePlanning.CoveragePlanner.Observe | calibration/coverage_planning.py:88-108 | the three frames of the measurement, with the four moves and the stage back where it started; with devices that cooperate for twelve reply lines and three frames it succeeds |
| CoveragePlanning.CoveragePlanner.Nudge | calibration/coverage_planning.py:90-108 | a relative X/Y move: on success its three commands and the shifted position; a prefix of them otherwise; a printer that acknowledges three lines lets it succeed |
| CoveragePlanning.AxisCount | calibration/coverage_planning.py:176-177 | `int(np.ceil(dim / step))`: fails exactly for a zero or NaN step (Overflow, NaN for a zero dimension), gives no image for an infinite step and ceil(dim/step) otherwise |
| CoveragePlanning.PlanPatternFails | calibration/coverage_planning.py:171-177 | planning fails exactly when one axis's count fails, with the X axis's error first |
| CoveragePlanning.PlannedFinite | calibration/coverage_planning.py:171-211 | with finite nonzero steps the pattern is the one built from step = fov*(100-overlap)/100, ceil(dim/step) and the centred starts |
| CoveragePlanning.PatternUnbounded | calibration/coverage_planning.py:176-202 | a pattern planned with an infinite step has no position, its axis counting zero images |
| CoveragePlanning.ZeroShiftEmptiesGrid | calibration/coverage_planning.py:97-121 | a zero X shift makes the X step infinite, the X count 0 and the pattern empty, so the first test image index is out of range |
| CoveragePlanning.PatternAxes | calibration/coverage_planning.py:171-177 | each axis's step is Scale(fov, (100-overlap)/100) and its count the `AxisCount` of the slide dimension over it |
| CoveragePlanning.StepBounds | calibration/coverage_planning.py:171-173 | with overlap in [0, 100) the step is positive, at most the field, and shorter by exactly overlap percent |
| CoveragePlanning.AxisCovers | calibration/coverage_planning.py:176-190 | count*step covers the slide dimension and one fewer does not; the first and last fields reach the slide edges |
| CoveragePlanning.AxisPlan | calibration/coverage_planning.py:171-190 | a planned axis is covered in the sense of `AxisCovered` |
| CoveragePlanning.PatternCoversSlide | calibration/coverage_planning.py:158-219 | both axes of a planned pattern cover the slide, with the requested overlap |
| CoveragePlanning.PlanPatternDefined | calibration/coverage_planning.py:171-177 | with overlap in [0, 100) and a positive finite field of view the pattern is always defined |
| CoveragePlanning.PlacedSnoc | calibration/coverage_planning.py:196-202 | appending a cell appends its position |
| CoveragePlanning.RowExtend | calibration/coverage_planning.py:193-202 | within a row, the next j appends position (j, i) |
| CoveragePlanning.CellAt | calibration/coverage_planning.py:192-211 | index i*px + j holds grid (j, i) at start + j*step_x, start + i*step_y and the layout's z; the total is px*py |
| CoveragePlanning.PatternAt | calibration/coverage_planning.py:185-211 | the same for the pattern `calculate_scan_pattern` returns, with the centred starts and the optimal z |
| CoveragePlanning.LayoutOf | calibration/coverage_planning.py:185-199 | a planned pattern with at least one image per axis has finite steps and the layout centred on the slide at the optimal z |
| CoveragePlanning.PatternCentred | calibration/coverage_planning.py:189-190 | the grid is centred: first and last x, and first and last row's y, average to the slide centre |
| CoveragePlanning.SpanCentred | calibration/coverage_planning.py:189 | start + (n-1)*step/2 is the centre |
| CoveragePlanning.EndsCentred | calibration/coverage_planning.py:189-195 | the first and last position on an axis average to the centre |
| CoveragePlanning.CoveragePlanner.CalculateScanPattern | calibration/coverage_planning.py:158-219 | the nested loops build exactly the pattern `PlanPattern` defines |
| CoveragePlanning.PrefixTo | calibration/coverage_planning.py:293 | `idxs[:n]` for any n, negative included |
| CoveragePlanning.PyIndex | calibration/coverage_planning.py:294 | Python list indexing: negative indices count from the end, and out of range is an IndexError |
| CoveragePlanning.TourStep | calibration/coverage_planning.py:293-299 | each visit appends one move |
| CoveragePlanning.TestCorners | calibration/coverage_planning.py:283-285 | for 4 or more tests the indices 0, gx-1, total-1, total-gx are the grid cells (0,0), (gx-1,0), (gx-1,gy-1), (0,gy-1) |
| CoveragePlanning.CornerPicks | calibration/coverage_planning.py:283-294 | those indices pick the first, end of first row, last and start of last row positions |
| CoveragePlanning.TestFew | calibration/coverage_planning.py:286-293 | for fewer than 4 tests the first n of first, middle and last are visited |
| CoveragePlanning.TestEmpty | calibration/coverage_planning.py:293-294 | an empty pattern has no valid test index |
| CoveragePlanning.CoveragePlanner.VisitImage | calibration/coverage_planning.py:299-303 | on success one move to the position and one captured frame; with devices that cooperate for one reply line and one frame it succeeds |
| CoveragePlanning.CoveragePlanner.TestScanPattern | calibration/coverage_planning.py:277-306 | on success the chosen indices were all in range and each was visited in order, one move and one frame each; with every index in range and devices that cooperate for one move and one read per index it succeeds |
| CoveragePlanning.CoveragePlanner.constructor | calibration/coverage_planning.py:20-26 | no slide, focus or field of view yet |
| CoveragePlanning.CoveragePlanner.LoadCalibrationData | calibration/coverage_planning.py:28-44 | a missing slide record or focus record raises its own error; the slide record is kept even when the focus record is missing |
| CoveragePlanning.CoveragePlanner.SetupPositioning | calibration/coverage_planning.py:58-68 | homes, then moves to the slide centre at the optimal z |
| CoveragePlanning.CoveragePlanner.RunConnected | calibration/coverage_planning.py:333-352 | the planning run: records loaded, hardware connected, setup, field of view from the first three frames, pattern at 25 percent overlap, 4 test images; the commands are setup, the field-of-view moves and the test tour |
| CoveragePlanning.CoveragePlanner.RunPlanning | calibration/coverage_planning.py:329-362 | the same, and both devices are disconnected afterwards whatever happened |
| FocusCalibration.SweepHeights | calibration/focus_calibration.py:67-69 | `steps` heights from c-range/2 to c+range/2 inclusive, spaced range/(steps-1) |
| FocusCalibration.SweepHeightsWithin | calibration/focus_calibration.py:67-69 | every height lies within c plus or minus range/2 |
| FocusCalibration.SweepHeightsMiddle | calibration/focus_calibration.py:67-69 | with an odd count the middle height is the centre |
| FocusCalibration.SweepHeightsAround | calibration/focus_calibration.py:67-69 | heights are within the range, and centred for odd counts |
| FocusCalibration.SweepPlans | calibration/focus_calibration.py:304-321 | the coarse sweep (8 mm, 17 steps) is spaced 0.5 and the fine one (2 mm, 21 steps) 0.1, each with its centre in the middle |
| FocusCalibration.TwoStageBound | calibration/focus_calibration.py:318-323 | the fine best lies within 5 mm of where the coarse sweep was centred |
| FocusCalibration.PlotMarker | calibration/focus_calibration.py:121-123 | the plot marks the same entry `max` picks: the first of greatest sharpness |
| FocusCalibration.FocusCalibrator.constructor | calibration/focus_calibration.py:20-23 | no slide record yet |
| FocusCalibration.FocusCalibrator.LoadSlidePosition | calibration/focus_calibration.py:25-35 | a missing slide record raises "not calibrated"; otherwise it is kept |
| FocusCalibration.FocusCalibrator.SetupPositioning | calibration/focus_calibration.py:49-60 | homes, then moves to the recorded slide centre |
| FocusCalibration.FocusCalibrator.AutomatedFocusSweep | calibration/focus_calibration.py:62-83 | sweeps the heights around the current z, one frame each, and returns the first best; with a positive step count and devices that cooperate for every height it succeeds |
| FocusCalibration.FocusCalibrator.FineFocusSweep | calibration/focus_calibration.py:85-106 | the same around the given best z, and it succeeds under the same cooperation |
| FocusCalibration.FocusCalibrator.TestFocusPosition | calibration/focus_calibration.py:157-179 | moves Z only to the optimum and returns the sharpness of one frame; with devices that cooperate for one reply line and one frame it succeeds |
| FocusCalibration.FocusCalibrator.TwoStageSweep | calibration/focus_calibration.py:304-324 | coarse sweep, fine sweep around the coarse best, test move; the record is the fine best, never the coarse one, with the stage at its z; with devices that cooperate for the 17 + 21 + 1 moves and reads it succeeds |
| FocusCalibration.FocusCalibrator.ManualFocusSelection | calibration/focus_calibration.py:181-234 | the loop is `Drive` with 'f' as the record key; 'f' returns the z reached, 'q' returns None; the commands sent are the jogs' scripts, then on 'f' one absolute move to that z, and the frames read are one per key plus, on 'f', the final image |
| FocusCalibration.FocusCalibrator.InteractiveXYSelection | calibration/focus_calibration.py:236-272 | the X/Y loop: 'f' returns the X/Y reached, 'q' cancels, and only X/Y jogs are sent |
| FocusCalibration.FocusCalibrator.RunConnected | calibration/focus_calibration.py:278-327 | mode '3' saves the manual z with no sharpness, never below the slide centre's z; other modes save the fine best within 5 mm of it; any mode but '2' or '3' runs the full automatic path; a cancelled selection saves nothing |
| FocusCalibration.FocusCalibrator.RunCalibration | calibration/focus_calibration.py:274-333 | the same, and both devices are disconnected afterwards |
| BorderDetection.PercentBlack | calibration/test_slide_border_detection.py:20-21 | 100 times the fraction of zero pixels: within [0, 100], 0 exactly when no pixel is zero and 100 exactly when all are |
| BorderDetection.RowZeros | calibration/test_slide_border_detection.py:21 | the zero count of a row is at most its length, 0 exactly when no pixel is zero, the length exactly when all are |
| BorderDetection.ZerosBounds | calibration/test_slide_border_detection.py:21 | the same over all rows |
| BorderDetection.PercentRange | calibration/test_slide_border_detection.py:21 | a fraction of a positive total, taken as a percentage, is within [0, 100] with the two ends exact |
| BorderDetection.ScanPositions | calibration/test_slide_border_detection.py:28-51 | the visited positions are centre + k*direction*step for k = 0, 1, ... while within max distance, floor(max/step)+1 of them |
| BorderDetection.ScanCountExact | calibration/test_slide_border_detection.py:31 | the k-th position is within max distance exactly when k is below the sample count |
| BorderDetection.WithinFloor | calibration/test_slide_border_detection.py:31 | k*step <= max exactly when k <= floor(max/step) |
| BorderDetection.ScanSide | calibration/test_slide_border_detection.py:28-51 | the centre is always first, and every position lies within reach on the side the scan heads to |
| BorderDetection.Scores | calibration/test_slide_border_detection.py:43 | edge strengths are nonnegative counts, one per frame |
| BorderDetection.Peak | calibration/test_slide_border_detection.py:53-54 | `np.argmax`: fails only on no samples, else the first position of greatest strength |
| BorderDetection.BorderSide | calibration/test_slide_border_detection.py:53-60 | a border is found exactly when max distance is nonnegative; it is a visited position within reach on the scan's side |
| BorderDetection.Probe | calibration/test_slide_border_detection.py:32-43 | one move and one frame, scored by its edge count; when the printer accepts one reply line per command and the camera delivers a good frame per read, it succeeds and takes one reply line |
| BorderDetection.ScanAlong | calibration/test_slide_border_detection.py:28-51 | visits the scan positions in order, one move and one good frame each, and returns positions and strengths; with devices that cooperate for every position it succeeds |
| BorderDetection.FindBorder | calibration/test_slide_border_detection.py:23-60 | sends the scan's moves and returns the first position of greatest edge strength, within reach on the scan's side; with a nonnegative max distance and devices that cooperate for every scan position it succeeds |
| BorderDetection.PairBorders | calibration/test_slide_border_detection.py:93-95 | the borders of the negative then the positive 1 mm scan about a centre, the second scan reading the frames after the first's |
| BorderDetection.ScanPair | calibration/test_slide_border_detection.py:93-95 | the two scans read 2n frames (n positions each) and send the negative scan's moves then the positive scan's; the result is `PairBorders` of the frames read; with a nonnegative max distance and devices that cooperate for 2n moves and reads it succeeds |
| BorderDetection.ScanGuard | calibration/test_slide_border_detection.py:28-31 | the loop condition `abs(pos - center) <= max_distance` holds exactly while the k-th scan position exists, and that position is the current one |
| BorderDetection.WalkedStep | calibration/test_slide_border_detection.py:32-51 | one more probe keeps the scan's record: one more frame read, one more move sent, its strength appended |
| BorderDetection.PairJoined | calibration/test_slide_border_detection.py:93-95 | the negative scan and then the positive one read 2n frames in turn and send their moves in turn; the borders are those `PairBorders` defines |
| BorderDetection.PairReady | calibration/test_slide_border_detection.py:93-95 | devices that cooperate for the pair of scans cooperate for each scan in turn |
| BorderDetection.Locate | calibration/test_slide_border_detection.py:89-111 | the four borders from the frames the scans read in turn: top and bottom about the centre's Y over 25 mm, then left and right about its X over 75 mm |
| BorderDetection.LocateBrackets | calibration/test_slide_border_detection.py:89-111 | the four scans always find a border: each is a position its scan visited, top <= centre Y <= bottom and left <= centre X <= right, all within reach |
| BorderDetection.MidY | calibration/test_slide_border_detection.py:103 | `mid_y` lies between top and bottom |
| BorderDetection.ScannedIntro | calibration/test_slide_border_detection.py:89-111 | the vertical pair of scans followed by the horizontal pair at `mid_y` reads the frames and sends the commands `Scanned` describes |
| BorderDetection.ScanBorders | calibration/test_slide_border_detection.py:89-111 | top is scanned towards -Y and bottom towards +Y, 25 mm, then left and right along X, 75 mm, at Y = mid_y; the borders are `Locate` of the frames read, the frames consumed are exactly the scans', and the commands are the four scans' moves in that order; with devices that cooperate for all four scans it succeeds |
| BorderDetection.DetectBorders | calibration/test_slide_border_detection.py:62-127 | the connection and load failures in their order, each closing what was opened; on success the borders, frames and commands are those of the four scans from the stored slide centre (`Scanned`), and both devices are closed |
| SlidePositionCalibration.CornerTargets | calibration/slide_position_calibration.py:123-136 | the targets are BL, BR, TR, TL, an axis-aligned 75 by 25 rectangle centred on the centre, then the centre itself |
| SlidePositionCalibration.Visits | calibration/slide_position_calibration.py:134-139 | one X/Y-only move per target |
| SlidePositionCalibration.VisitsPrefix | calibration/slide_position_calibration.py:134-139 | the first n visits send the first n moves |
| SlidePositionCalibration.WalkStep | calibration/slide_position_calibration.py:134-139 | each visit appends one move, and a prefix stays a prefix of the whole walk |
| SlidePositionCalibration.PrefixOfPrefix | calibration/slide_position_calibration.py:134-139 | a cut walk is a prefix of the whole walk |
| SlidePositionCalibration.VisitsEnd | calibration/slide_position_calibration.py:134-139 | a walk ends at the last target's X/Y with Z unchanged |
| SlidePositionCalibration.CornerTestReturns | calibration/slide_position_calibration.py:126-139 | the corner test ends back at the centre, Z unchanged |
| SlidePositionCalibration.Calibrator.constructor | calibration/slide_position_calibration.py:19-22 | holds the printer and camera |
| SlidePositionCalibration.Calibrator.HomeAndSetup | calibration/slide_position_calibration.py:36-44 | homes and raises Z to the safe height 2.2 + 10 = 12.2 |
| SlidePositionCalibration.Calibrator.InteractivePositioning | calibration/slide_position_calibration.py:46-116 | starts at (110, 110), runs the capture loop; 'c' returns the position reached, 'q' returns None |
| SlidePositionCalibration.Calibrator.VisitTarget | calibration/slide_position_calibration.py:134-146 | one X/Y move to the target and one saved frame; when the printer accepts one reply line per command and the camera delivers a good frame per read, it passes and takes one reply line |
| SlidePositionCalibration.Calibrator.TestCornerPositions | calibration/slide_position_calibration.py:118-150 | the five visits in order, one frame each, ending at the centre with Z unchanged; with devices that cooperate for five moves and reads it passes |
| SlidePositionCalibration.Calibrator.RunConnected | calibration/slide_position_calibration.py:181-190 | a captured centre leads to the corner test and the record (centre X/Y/Z, width 75, height 25, holder 2.2); a cancelled one skips both |
| SlidePositionCalibration.Calibrator.RunCalibration | calibration/slide_position_calibration.py:176-202 | the same, and both devices are disconnected afterwards |
| SelectSlideCorners.Select | calibration/select_slide_corners.py:50-96 | the selection reads at most the keys given and only ever adds captures, never more than four |
| SelectSlideCorners.SelectComplete | calibration/select_slide_corners.py:50-96 | it ends with a selection exactly when all four corners are captured, and 'q' cancels it |
| SelectSlideCorners.SelectStep | calibration/select_slide_corners.py:52-80 | one corner runs the loop until its key; a capture moves on to the next corner from the position reached |
| SelectSlideCorners.CornerAdvance | calibration/select_slide_corners.py:52-95 | one corner's loop advances keys, frames (one more for the saved image), commands and position as the trace says |
| SelectSlideCorners.CornerFollows | calibration/select_slide_corners.py:50-96 | the corner loop keeps the selector's state in step with `Select` |
| SelectSlideCorners.CornerBooks | calibration/select_slide_corners.py:52-95 | after one corner the frames read, the commands sent and the stage position are those of the state `After` it |
| SelectSlideCorners.SelectExtends | calibration/select_slide_corners.py:50-96 | a selection only adds jogs and frames to those of the state it starts from |
| SelectSlideCorners.CornerReady | calibration/select_slide_corners.py:50-96 | devices that cooperate for the whole selection cooperate for the corner in progress, on what the earlier corners left |
| SelectSlideCorners.Recorded | calibration/select_slide_corners.py:69-71 | the corners map holds exactly the captured corners under their names, in the fixed order, and keeps other entries |
| SelectSlideCorners.Selector.constructor | calibration/select_slide_corners.py:21-26 | no corners yet, step key 3 (1.0 mm) |
| SelectSlideCorners.Selector.CaptureCorner | calibration/select_slide_corners.py:52-95 | one corner: the loop with the persisting step field; 'c' stores the position reached under the corner's name; with devices that cooperate for the loop's jogs and reads (one more frame for a capture) it does not fail |
| SelectSlideCorners.Selector.CaptureNext | calibration/select_slide_corners.py:50-96 | one pass of the corner loop: a failure only with uncooperative devices; otherwise the selector moves to the state `After` the corner, still in step with `Select` |
| SelectSlideCorners.Selector.SelectCorners | calibration/select_slide_corners.py:41-96 | corners captured strictly in the order bottom_left, bottom_right, top_right, top_left; the result, map, step, frames and commands are those of `Select`; with devices that cooperate for all of `Select`'s jogs and frames it does not fail |
| SelectSlideCorners.Selector.Run | calibration/select_slide_corners.py:106-119 | a connect or homing failure is caught and reported and saves nothing; otherwise the corners are saved exactly when the selection the keys drive from the origin ends with all four captured, the map is that selection's, the commands sent are G28 then the selection's jogs; the devices are disconnected in every case |
| Numeric.Ceil | sweep_and_stitch.py:80-81 | the least integer not below its argument |
| Numeric.CeilCovers | calibration/coverage_planning.py:176-177 | ceil(d/s) steps of s cover d and one fewer does not |
| Numeric.Arange | sweep_and_stitch.py:44 | `np.arange`: ceil((stop-start)/step) samples, step apart, from start, each below stop |
| Numeric.Abs | calibration/coverage_planning.py:97-105 | the absolute value |
| Numeric.Quotient | calibration/coverage_planning.py:111-112 | numpy division of a finite number: exact for a nonzero divisor, a signed infinity or NaN for zero, zero over an infinity |
| Numeric.Scale | calibration/coverage_planning.py:171-173 | numpy multiplication by a finite factor: exact on finite values, an infinity keeps or flips sign, and times zero or a NaN is NaN |
| Numeric.IntCeil | calibration/coverage_planning.py:176-177 | `int(np.ceil(x))`: the least integer not below a finite x, OverflowError for an infinity and ValueError for NaN |
| Selection.FirstMax | calibration/test_slide_border_detection.py:53 | the first index of a maximal element |
| Selection.FirstMaxUnique | calibration/focus_calibration.py:121 | the first maximal index is unique |
| Grid.RowMajorLength | calibration/coverage_planning.py:192-193 | nx*ny cells |
| Grid.RowMajorAt | calibration/coverage_planning.py:192-202 | cell (ix, iy) is at index iy*nx + ix |
| Grid.RowMajorIndex | calibration/coverage_planning.py:192-202 | every index k is iy*nx + ix of its cell |
| Grid.RowMajorInRange | calibration/coverage_planning.py:192-193 | every cell is within the grid |
| Grid.RowMajorOrdered | sweep_and_stitch.py:102-103 | earlier cells come before later ones row by row: all ix of row 0, then row 1, ... |
| Grid.RowMajorCovers | sweep_and_stitch.py:102-103 | the order contains exactly the cells of the grid |
| Text.Strip | utils/printer_interface.py:68 | `str.strip`: a nonempty result has no whitespace at either end |
| Text.StripLeftSpaces | utils/printer_interface.py:68 | everything stripped on the left is whitespace |
| Text.StripRightSpaces | utils/printer_interface.py:68 | everything stripped on the right is whitespace |
| Text.StripTrimmed | utils/printer_interface.py:68 | the stripped string is a middle part of the input with only whitespace before and after it; with Strip's own ends it is the longest such part |
| Text.StripNoSpace | calibration/focus_calibration.py:285 | a string with no whitespace is its own strip |
| Text.ContainsLower | utils/printer_interface.py:76 | lower-casing keeps every occurrence, lower-cased |
| Text.Split | simple_grid_stitch.py:42 | `str.split` always gives at least one part |
| Text.SplitJoin | simple_grid_stitch.py:42 | splitting a + sep + b gives a's part before b's parts |
| Text.SplitNoSep | simple_grid_stitch.py:42 | a string without the separator splits into itself |
| Text.ReplaceSuffix | simple_grid_stitch.py:42 | replacing a suffix pattern whose first character does not occur before it |
| Text.Digits | sweep_and_stitch.py:116 | the decimal digits of a natural number |
| Text.DecValueDigits | simple_grid_stitch.py:47-48 | reading the digits back gives the number |
| Text.ParseDigits | simple_grid_stitch.py:47-48 | `int()` on a number's digits gives the number |

## Left out

- Serial I/O: port discovery by glob (`find_printer_port`), the baud rate, the 2-second settle, buffer flushes, '\n' framing and encoding. The model keeps the command sent and the queue of reply lines.
- The `send_command` timeout: waiting on the clock is modelled as the reply queue running out.
- Lines that neither acknowledge nor fail are skipped, as in the code.
- Success under cooperating devices is stated only for the plainest cooperation: each command's reply is the next line, and it acknowledges; each read is the next frame, and it is good. The code also succeeds when lines that neither acknowledge nor fail come before an acknowledgement. The contracts of the device-driving methods (`SweepAndStitch.Sweep`, `JogSession.Session`, `BorderDetection.ScanBorders` and the others with a cooperation clause) do not claim success in that case.
- Axis values in G-code are real numbers in the command datatype. Python's float formatting of `X{x}` is not modelled.
- Floating point: all quantities are Dafny reals, so `np.linspace`/`np.arange` rounding and `int(np.ceil(...))` truncation of huge values are not modelled.
- Image processing, passed in as functions: Laplacian sharpness, thresholding and Canny edge counts, FFT phase correlation, ORB features, brute-force matching, RANSAC homographies, perspective warps.
- Drawing: cross-hairs, text overlays, `imshow`, the live progress map in `sweep_and_stitch.py`, matplotlib plots (`visualize_scan_pattern`, the drawing in `plot_focus_results`). The blocking `waitKey(0)` after a manual focus is also left out.
- Keyboard input is a finite key sequence. A loop that runs out of keys ends `Waiting`, which stands for still blocking.
- Persistence: JSON files are values passed in or returned, and image writes are left out. Left out with them are the timestamps, dates and notes fields, `os.makedirs`, and `capture_and_save`'s writing; only its frame read is kept.
- Sleeps (`time.sleep`): they have no effect on the model.
- `glob` order: `load_images` is modelled over files in any given order, and later duplicates win.
- `simple_grid_stitch` places images in a loop over the key set, not in dict insertion order. The result does not depend on the order, because blocks are disjoint.
- SimpleGridStitch.SimpleGridStitchImages: requires every image to have the sample image's size. Python would raise on a mismatched slice.
- SimpleGridStitch.SimpleGridStitchImages: takes the sample key as a parameter, where the code takes the first dict value.
- `get_camera_info`'s fps and format fields, which come from the camera driver.
- `live_preview` and `calculate_sharpness` in `camera_interface.py`: a UI loop, and an image-library call modelled as a function parameter.
- The `__main__` test blocks of the interface files.
- `run_slide_scan_complete.py`, `scan_both_regions.py` and `slide_scanner.py`: process orchestration. `scanning.production_scanner`, which `slide_scanner.py` imports, is not part of this model.
- The second copies of `coverage_planning.py`, `camera_interface.py` and `printer_interface.py` are identical to the first, and the first copy is cited.
- Text.ParseInt: models `int()` on ASCII digits with an optional sign and surrounding whitespace. Unicode digits and `_` separators, which Python also accepts, are not modelled; split parts never contain `_`.
- Text.Lower: lower-cases ASCII letters only.
- Text.Strip: strips ASCII whitespace only. Python also strips Unicode spaces such as U+0085 and U+00A0; the lines the code strips are printer replies and keyboard input.
