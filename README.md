# Plot line handles: position logic

This project models the position logic of the draggable handles that the
instrument UI lays over its plots (`src/plot_line_handle.cpp`). A handle is a
small widget that slides along one axis of a parent "handles area". The model
covers all four kinds of handle:

- bounded horizontal and vertical handles (`PlotLineHandleH`, `PlotLineHandleV`);
- free horizontal and vertical handles (`FreePlotLineHandleH`, `FreePlotLineHandleV`);
- `RoundedHandleV`, a free vertical handle that differs only in its size.

A bounded handle clamps its widget origin into the padded range of the area and
reports the clamped centre as its position. A free handle reports the unclamped
centre. It clamps only the widget origin, and it raises a "beyond" flag on the
side that was overrun.

Layout:

- `geometry.dfy`, module `HandleGeometry`: integer geometry along the axis of
  motion. It covers the origin/centre conversions, the clamping limits, the
  clamp itself and the handle sizes set by the constructors.
- `handle_model.dfy`, module `HandleModel`: the state of a handle as a value,
  with one function per operation giving the state after it. The emitted
  `positionChanged` and `grabbedChanged` signals are logs in that state. The
  module proves what each operation guarantees, and an invariant kept by any
  sequence of operations.
- `plot_line_handle.dfy`, module `PlotLineHandles`: class `PlotLineHandle`,
  whose fields the methods update in place, as the C++ members do. The `kind`
  constant picks the bounded or the free `moveWithinParent`, in place of the
  virtual call. Each method that changes the handle is proved to produce the
  state given by the matching `HandleModel` function and to keep the invariant.

The parent area is replaced by constants fixed at construction: its two
paddings and its length along the axis. For a horizontal handle these are
`leftPadding`, `rightPadding` and `width`; for a vertical one `topPadding`,
`bottomPadding` and `height`. A new handle has its widget at (0, 0) and position
0. Widget sizes are non-negative, so C++'s truncating `width() / 2` equals
Dafny's division.

Two behaviours of the code are modelled as written:

- A bounded handle decides whether to move and signal by comparing the new
  centre with the centre of its current widget origin. A free handle compares
  with `m_current_pos`.
- `setPosition` tests `m_current_pos` before it moves anything. On a new handle
  the widget origin (0, 0) need not be the origin of position 0, so
  `setPosition(0)` leaves the widget where it is.

## Model

| member | source | states |
|---|---|---|
| `HandleGeometry.CenterToOrigin` | src/plot_line_handle.cpp:174-180 | centerPosToOrigin gives the origin whose centre is the given position (vertical twin at lines 265-271) |
| `HandleGeometry.CenterOriginRoundTrip` | src/plot_line_handle.cpp:166-180 | originPosToCenter and centerPosToOrigin undo each other in both directions |
| `HandleGeometry.CenterDeterminesOrigin` | src/plot_line_handle.cpp:132-135 | two origins have the same centre iff they are equal, so a centre change means the widget moves |
| `HandleGeometry.Clamp` | src/plot_line_handle.cpp:124-130 | the clamped origin lies in [lower_limit, upper_limit] when that range is non-empty; an origin already in range is kept; a request below lower_limit goes to lower_limit and any other request above upper_limit to upper_limit, also when the range is empty |
| `HandleGeometry.ClampIsNearest` | src/plot_line_handle.cpp:127-130 | the clamped origin is the point of the range nearest to the request |
| `HandleGeometry.LimitsAsCenters` | src/plot_line_handle.cpp:124-125 | the limits are the origins of centres 0 and areaLength - nearPadding - farPadding - 1; an origin is below, inside or above the range exactly when its centre is |
| `HandleGeometry.ClampedCenterInRange` | src/plot_line_handle.cpp:124-132 | after clamping, the centre lies in [0, areaLength - nearPadding - farPadding - 1] |
| `HandleGeometry.ClampCenter` | src/plot_line_handle.cpp:101-104 | a requested centre pulled into the padded range: in range, unchanged if already in range, 0 or the last position otherwise |
| `HandleGeometry.ClampCommutesWithCenter` | src/plot_line_handle.cpp:104-132 | clamping the origin of a centre gives the origin of the clamped centre |
| `HandleGeometry.HandleSize` | src/plot_line_handle.cpp:84-94 | the fixed widget size: along the axis of motion exactly the icon's length, across it icon plus inner spacing (vertical at lines 182-192, rounded at 416-428) |
| `HandleModel.MovedTo` | src/plot_line_handle.cpp:136 | move() sets the origin on the axis of motion and changes nothing else: the other coordinate, position, flags, grab state and logs are kept |
| `HandleModel.MoveClearsSilent` | src/plot_line_handle.cpp:141 | after any move, loud or silent, bounded or free, the silent flag is false (also lines 233, 315, 387) |
| `HandleModel.BoundedMovePlaces` | src/plot_line_handle.cpp:118-143 | a bounded move leaves the origin at the clamped request, even when move() is skipped, records the centre of that origin, keeps the other coordinate, and the centre is in range |
| `HandleModel.BoundedMoveAnnounces` | src/plot_line_handle.cpp:132-142 | positionChanged is emitted iff the clamped centre differs from the centre of the previous origin and the move is not silent; its value is the new m_current_pos; grab state and flags are unchanged |
| `HandleModel.FreeMoveFlags` | src/plot_line_handle.cpp:294-316 | a free move to a new centre records the unclamped centre and clamps only the origin; beyondLeft iff x < lower_limit, beyondRight iff x >= lower_limit and x > upper_limit; at most one flag; the flags say on which side of the range the position lies; emitted unless silent; the other coordinate, m_grabbed and the grab signals are kept |
| `HandleModel.FreeMoveSameCenter` | src/plot_line_handle.cpp:366-388 | a free move whose centre equals m_current_pos changes nothing but the silent flag |
| `HandleModel.SilentMoveMatchesLoud` | src/plot_line_handle.cpp:39-43 | moveSilently updates the state as the loud move would and emits nothing |
| `HandleModel.AnnouncesOnlyWhenLoud` | src/plot_line_handle.cpp:138-139 | a move emits positionChanged only when entered with the silent flag down (also lines 230, 309, 381) |
| `HandleModel.MoveIdempotent` | src/plot_line_handle.cpp:211-235 | repeating a move to the same point changes nothing and emits nothing, for every kind of handle |
| `HandleModel.SetSamePositionIsNoOp` | src/plot_line_handle.cpp:199-209 | setPosition and setPositionSilenty with the recorded position change nothing and emit nothing |
| `HandleModel.SilentSetMatchesLoud` | src/plot_line_handle.cpp:205-209 | setPositionSilenty has the effect of setPosition without emitting |
| `HandleModel.SetPositionReaches` | src/plot_line_handle.cpp:101-143 | after setPosition(p) a free handle is at p, a bounded handle at p pulled into the padded range |
| `HandleModel.SetGrabbedSpec` | src/plot_line_handle.cpp:76-82 | afterwards m_grabbed equals the argument; grabbedChanged is emitted iff the value changed; nothing else changes; a second call changes nothing |
| `HandleModel.InitialInv` | src/plot_line_handle.cpp:28-37 | a newly built handle satisfies the invariant |
| `HandleModel.MovePreservesInv` | src/plot_line_handle.cpp:118-143 | a move, even one entered with the silent flag raised, ends in a state that satisfies the invariant |
| `HandleModel.ApplyPreservesInv` | src/plot_line_handle.cpp:76-111 | every public operation keeps the invariant |
| `HandleModel.RunPreservesInv` | src/plot_line_handle.cpp:96-143 | the invariant holds after any sequence of operations; for free handles the flags then always tell on which side of the range the position lies |
| `HandleModel.BoundedAnnouncesOnlyInRange` | src/plot_line_handle.cpp:225-234 | from construction on, a bounded handle's position and every positionChanged value lie in [0, areaLength - nearPadding - farPadding - 1] |
| `HandleModel.RunExtendsLogs` | src/plot_line_handle.cpp:135-140 | emitted signals are never taken back: the logs only grow |
| `HandleModel.QuietRunAnnouncesNothing` | src/plot_line_handle.cpp:107-111 | any sequence of silent moves, silent position changes and grab changes emits no positionChanged |
| `PlotLineHandles.PlotLineHandle.constructor` | src/plot_line_handle.cpp:28-37 | sizes as HandleSize, widget at (0, 0), position 0, not silent, not grabbed, no flags, nothing emitted |
| `PlotLineHandles.PlotLineHandle.Position` | src/plot_line_handle.cpp:45-48 | returns m_current_pos |
| `PlotLineHandles.PlotLineHandle.MoveWithinParent` | src/plot_line_handle.cpp:357-388 | the state after the bounded or the free move, as HandleModel.MoveWithinParent; keeps the invariant |
| `PlotLineHandles.PlotLineHandle.MoveBounded` | src/plot_line_handle.cpp:118-143 | the fields after the bounded move, as HandleModel.BoundedMove; keeps the invariant, even when entered with the silent flag raised |
| `PlotLineHandles.PlotLineHandle.MoveFree` | src/plot_line_handle.cpp:285-316 | the fields after the free move, as HandleModel.FreeMove; keeps the invariant, even when entered with the silent flag raised |
| `PlotLineHandles.PlotLineHandle.MoveSilently` | src/plot_line_handle.cpp:39-43 | the state after a silent move; keeps the invariant |
| `PlotLineHandles.PlotLineHandle.SetPosition` | src/plot_line_handle.cpp:101-105 | the state after setPosition; keeps the invariant |
| `PlotLineHandles.PlotLineHandle.SetPositionSilently` | src/plot_line_handle.cpp:107-111 | the state after setPositionSilenty; keeps the invariant |
| `PlotLineHandles.PlotLineHandle.SetGrabbed` | src/plot_line_handle.cpp:76-82 | the state after setGrabbed; keeps the invariant |
| `PlotLineHandles.PlotLineHandle.TriggerMove` | src/plot_line_handle.cpp:96-99 | emits positionChanged with m_current_pos and changes nothing else (vertical twin at lines 194-197) |

## Left out

- `paintEvent` of every class, `setPen`/`pen`, `setInnerSpacing` and `RoundedHandleV`'s colour accessors: drawing only, no position logic.
- `mousePressEvent` / `mouseReleaseEvent` and the `mouseReleased` signal: Qt event forwarding.
- `update()` repaint requests: not recorded.
- The parent lookup through `parent()`: the area's paddings and length are constants fixed at construction, so an area that is resized or re-padded later is not modelled.
- 32-bit `int` overflow: positions and sizes are unbounded integers.
- The signals' delivery to connected slots: emission is recorded in the logs only, and each move is one step. The source emits `positionChanged` before it sets `m_current_pos` and clears `m_enable_silent_move` (lines 139 and 141-142, 231 and 233-234, 310 and 313-315, 382 and 385-387). Emission happens only while the silent flag is down (lines 138, 230, 309, 381), so a directly connected slot always runs with the flag down. But it runs before the move is finished: a slot that reads `position()` sees the old value. A slot that calls `setPosition` records a position, and when it returns, the outer move overwrites `m_current_pos` with its own centre (lines 142, 234, 313, 385). The widget stays where the nested move put it. The model does not capture this re-entrant ordering.
- `src/hw_dac.h`: declarations of wrappers over the external libiio driver and floating-point calibration data, with no behaviour shown.
