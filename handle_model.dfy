/** Value model of one plot line handle: the state its position logic keeps, one
    function per operation giving the state after it, and what these operations
    guarantee, alone and over any sequence of them.

    The emitted signals are part of the state as logs: `positionSignals` holds the
    values of every positionChanged emitted so far, `grabbedSignals` those of every
    grabbedChanged.
 */
module HandleModel {
  import opened HandleGeometry

  /** Bounded handles (PlotLineHandleH/V) clamp their reported position; free handles
      (FreePlotLineHandleH/V and RoundedHandleV) report it unclamped and flag the
      side they overran. */
  datatype Kind = Bounded | Free

  /** What a handle never changes: its kind, its axis and the geometry along it. */
  datatype Config = Config(kind: Kind, axis: Axis, geom: Geometry)

  /** The state of a handle. `beyondLow`/`beyondHigh` are m_isBeyondLeft/m_isBeyondRight
      of a free horizontal handle and m_isBeyondTop/m_isBeyondBottom of a free vertical
      one; a bounded handle has them too and never sets them. */
  datatype HandleState = HandleState(
    x: int,
    y: int,
    pos: int,
    silent: bool,
    grabbed: bool,
    beyondLow: bool,
    beyondHigh: bool,
    positionSignals: seq<int>,
    grabbedSignals: seq<bool>)

  /** A freshly constructed handle: widget at the parent's origin, position 0, not
      grabbed, not silent, nothing emitted. */
  function Initial(): HandleState
  {
    HandleState(0, 0, 0, false, false, false, false, [], [])
  }

  /** The widget origin along the axis of motion. */
  function Along(axis: Axis, h: HandleState): int
  {
    if axis == Horizontal then h.x else h.y
  }

  /** move(): the widget origin set along the axis of motion, the other coordinate kept. */
  function MovedTo(axis: Axis, h: HandleState, origin: int): (r: HandleState)
    ensures Along(axis, r) == origin
    ensures axis == Horizontal ==> r.y == h.y
    ensures axis == Vertical ==> r.x == h.x
    ensures r.(x := h.x, y := h.y) == h
  {
    if axis == Horizontal then h.(x := origin) else h.(y := origin)
  }

  /** The coordinate of moveWithinParent(x, y) a handle reads; the other is unused. */
  function Requested(axis: Axis, x: int, y: int): int
  {
    if axis == Horizontal then x else y
  }

  /** positionChanged(center), emitted only when the move is not silent. */
  function Announce(h: HandleState, center: int): seq<int>
  {
    if h.silent then h.positionSignals else h.positionSignals + [center]
  }

  /** moveWithinParent of a bounded handle: clamp the requested origin, move the
      widget and announce the new centre if the centre differs from that of the old
      origin, then clear the silent flag and record the centre. */
  function BoundedMove(c: Config, h: HandleState, x: int, y: int): HandleState
  {
    var origin := Clamp(c.geom, Requested(c.axis, x, y));
    var center := OriginToCenter(c.geom, origin);
    var oldCenter := OriginToCenter(c.geom, Along(c.axis, h));
    var moved :=
      if center != oldCenter then MovedTo(c.axis, h, origin).(positionSignals := Announce(h, center))
      else h;
    moved.(silent := false, pos := center)
  }

  /** moveWithinParent of a free handle: if the unclamped centre differs from the
      recorded position, reset the beyond flags, clamp the origin raising the flag of
      the side overrun, move the widget, announce the centre unless silent and record
      it; in every case clear the silent flag. */
  function FreeMove(c: Config, h: HandleState, x: int, y: int): HandleState
  {
    var request := Requested(c.axis, x, y);
    var center := OriginToCenter(c.geom, request);
    if center != h.pos then
      var low := request < LowerLimit(c.geom);
      var high := !low && request > UpperLimit(c.geom);
      MovedTo(c.axis, h, Clamp(c.geom, request)).(
        beyondLow := low, beyondHigh := high,
        positionSignals := Announce(h, center), pos := center, silent := false)
    else
      h.(silent := false)
  }

  /** The virtual moveWithinParent, dispatched on the kind of handle. */
  function MoveWithinParent(c: Config, h: HandleState, x: int, y: int): HandleState
  {
    match c.kind
    case Bounded => BoundedMove(c, h, x, y)
    case Free => FreeMove(c, h, x, y)
  }

  /** moveSilently: raise the silent flag, then move within the parent. */
  function MoveSilently(c: Config, h: HandleState, x: int, y: int): HandleState
  {
    MoveWithinParent(c, h.(silent := true), x, y)
  }

  /** The point setPosition hands to the move: the origin of the requested centre on
      the axis of motion, 0 on the other. */
  function TargetX(c: Config, pos: int): int
  {
    if c.axis == Horizontal then CenterToOrigin(c.geom, pos) else 0
  }

  function TargetY(c: Config, pos: int): int
  {
    if c.axis == Horizontal then 0 else CenterToOrigin(c.geom, pos)
  }

  /** setPosition: move the centre to `pos` unless it is already the recorded position. */
  function SetPosition(c: Config, h: HandleState, pos: int): HandleState
  {
    if h.pos != pos then MoveWithinParent(c, h, TargetX(c, pos), TargetY(c, pos)) else h
  }

  /** setPositionSilenty: the same, through moveSilently. */
  function SetPositionSilently(c: Config, h: HandleState, pos: int): HandleState
  {
    if h.pos != pos then MoveSilently(c, h, TargetX(c, pos), TargetY(c, pos)) else h
  }

  /** setGrabbed: store the new value and announce it, only when it changes. */
  function SetGrabbed(h: HandleState, grabbed: bool): HandleState
  {
    if h.grabbed != grabbed then
      h.(grabbed := grabbed, grabbedSignals := h.grabbedSignals + [grabbed])
    else h
  }

  /** triggerMove: announce the recorded position again. */
  function TriggerMove(h: HandleState): HandleState
  {
    h.(positionSignals := h.positionSignals + [h.pos])
  }

  /** The operations a handle's users can call. */
  datatype Op =
    | Drag(x: int, y: int)             // moveWithinParent, as the handles area does
    | MoveQuietly(qx: int, qy: int)    // moveSilently
    | Place(pos: int)                  // setPosition
    | PlaceQuietly(qpos: int)          // setPositionSilenty
    | Grab(grabbed: bool)              // setGrabbed
    | Trigger                          // triggerMove

  function Apply(c: Config, h: HandleState, op: Op): HandleState
  {
    match op
    case Drag(x, y) => MoveWithinParent(c, h, x, y)
    case MoveQuietly(x, y) => MoveSilently(c, h, x, y)
    case Place(p) => SetPosition(c, h, p)
    case PlaceQuietly(p) => SetPositionSilently(c, h, p)
    case Grab(b) => SetGrabbed(h, b)
    case Trigger => TriggerMove(h)
  }

  function Run(c: Config, h: HandleState, ops: seq<Op>): HandleState
    decreases |ops|
  {
    if ops == [] then h else Run(c, Apply(c, h, ops[0]), ops[1..])
  }

  /** Operations that never announce a position. */
  predicate IsQuiet(op: Op)
  {
    op.MoveQuietly? || op.PlaceQuietly? || op.Grab?
  }

  predicate AllInRange(g: Geometry, s: seq<int>)
  {
    forall i :: 0 <= i < |s| ==> InRange(g, s[i])
  }

  /** What holds of a handle between calls. No move is half done, so the silent flag
      is down. The beyond flags never both hold, and a bounded handle never raises
      them. When the padded range is not empty: a bounded handle's position and every
      position it ever announced lie in it, and a free handle's flags say exactly on
      which side of it the position lies. */
  predicate Inv(c: Config, h: HandleState)
  {
    && !h.silent
    && !(h.beyondLow && h.beyondHigh)
    && match c.kind
       case Bounded =>
         && !h.beyondLow && !h.beyondHigh
         && (Fits(c.geom) ==> InRange(c.geom, h.pos) && AllInRange(c.geom, h.positionSignals))
       case Free =>
         Fits(c.geom) ==>
           && (h.beyondLow <==> h.pos < 0)
           && (h.beyondHigh <==> h.pos >= Span(c.geom))
  }

  /** Inv, except that a move may be under way with the silent flag raised. */
  predicate InvAnySilent(c: Config, h: HandleState)
  {
    Inv(c, h.(silent := false))
  }

  // ---------------------------------------------------------------------------
  // One move

  /** Every move, silent or not, of either kind, leaves the silent flag down. */
  lemma MoveClearsSilent(c: Config, h: HandleState, x: int, y: int)
    ensures !MoveWithinParent(c, h, x, y).silent
    ensures !MoveSilently(c, h, x, y).silent
  {
  }

  /** A bounded move puts the widget origin at the clamped request, even when the
      widget is not moved because it is already there, records the centre of that
      origin, and leaves the other coordinate alone. Its centre lies in the padded
      range whenever that range is not empty. */
  lemma BoundedMovePlaces(c: Config, h: HandleState, x: int, y: int)
    requires c.kind == Bounded
    ensures var r := MoveWithinParent(c, h, x, y);
      && Along(c.axis, r) == Clamp(c.geom, Requested(c.axis, x, y))
      && r.pos == OriginToCenter(c.geom, Along(c.axis, r))
      && (c.axis == Horizontal ==> r.y == h.y)
      && (c.axis == Vertical ==> r.x == h.x)
      && (Fits(c.geom) ==> InRange(c.geom, r.pos))
  {
    var origin := Clamp(c.geom, Requested(c.axis, x, y));
    CenterDeterminesOrigin(c.geom, origin, Along(c.axis, h));
    if Fits(c.geom) {
      ClampedCenterInRange(c.geom, Requested(c.axis, x, y));
    }
  }

  /** A bounded move announces exactly when the clamped centre differs from the centre
      of the previous origin and the move is not silent, and what it announces is the
      new position. Nothing else about the handle changes but origin and position. */
  lemma BoundedMoveAnnounces(c: Config, h: HandleState, x: int, y: int)
    requires c.kind == Bounded
    ensures var r := MoveWithinParent(c, h, x, y);
      && r.positionSignals ==
           (if r.pos != OriginToCenter(c.geom, Along(c.axis, h)) && !h.silent
            then h.positionSignals + [r.pos] else h.positionSignals)
      && r.grabbed == h.grabbed && r.grabbedSignals == h.grabbedSignals
      && r.beyondLow == h.beyondLow && r.beyondHigh == h.beyondHigh
  {
  }

  /** A free move whose centre equals the recorded position changes nothing but the
      silent flag. */
  lemma FreeMoveSameCenter(c: Config, h: HandleState, x: int, y: int)
    requires c.kind == Free
    requires OriginToCenter(c.geom, Requested(c.axis, x, y)) == h.pos
    ensures MoveWithinParent(c, h, x, y) == h.(silent := false)
  {
  }

  /** A free move to a new centre records the unclamped centre, clamps only the widget
      origin, keeps the other coordinate and the grab state, and raises the flag of the
      side overrun: the low flag exactly when the
      request lies below the range, the high flag exactly when it lies above it and
      not below. So at most one flag holds, and the flags tell on which side of
      [0, Span - 1] the position lies. The new position is announced unless silent. */
  lemma FreeMoveFlags(c: Config, h: HandleState, x: int, y: int)
    requires c.kind == Free
    requires OriginToCenter(c.geom, Requested(c.axis, x, y)) != h.pos
    ensures var request := Requested(c.axis, x, y);
      var r := MoveWithinParent(c, h, x, y);
      && r.pos == OriginToCenter(c.geom, request)
      && Along(c.axis, r) == Clamp(c.geom, request)
      && (r.beyondLow <==> request < LowerLimit(c.geom))
      && (r.beyondHigh <==> LowerLimit(c.geom) <= request && request > UpperLimit(c.geom))
      && !(r.beyondLow && r.beyondHigh)
      && (r.beyondLow <==> r.pos < 0)
      && (r.beyondHigh <==> 0 <= r.pos && r.pos >= Span(c.geom))
      && r.positionSignals == (if h.silent then h.positionSignals else h.positionSignals + [r.pos])
      && !r.silent
      && r.grabbed == h.grabbed && r.grabbedSignals == h.grabbedSignals
      && (c.axis == Horizontal ==> r.y == h.y)
      && (c.axis == Vertical ==> r.x == h.x)
  {
    LimitsAsCenters(c.geom, Requested(c.axis, x, y));
  }

  /** A silent move updates the handle exactly as the same move made loudly would,
      and announces nothing. */
  lemma SilentMoveMatchesLoud(c: Config, h: HandleState, x: int, y: int)
    ensures MoveSilently(c, h, x, y) ==
            MoveWithinParent(c, h.(silent := false), x, y).(positionSignals := h.positionSignals)
    ensures MoveSilently(c, h, x, y).positionSignals == h.positionSignals
  {
    var quiet, loud := h.(silent := true), h.(silent := false);
    var request := Requested(c.axis, x, y);
    if c.kind == Bounded {
      var origin := Clamp(c.geom, request);
      if OriginToCenter(c.geom, origin) != OriginToCenter(c.geom, Along(c.axis, h)) {
        assert MovedTo(c.axis, quiet, origin).(silent := false) == MovedTo(c.axis, loud, origin);
      }
    } else if OriginToCenter(c.geom, request) != h.pos {
      assert MovedTo(c.axis, quiet, Clamp(c.geom, request)).(silent := false)
          == MovedTo(c.axis, loud, Clamp(c.geom, request));
    }
  }

  /** A move announces a position only when it was entered with the silent flag down,
      so a slot connected to positionChanged never runs inside a silent move. */
  lemma AnnouncesOnlyWhenLoud(c: Config, h: HandleState, x: int, y: int)
    ensures MoveWithinParent(c, h, x, y).positionSignals != h.positionSignals ==> !h.silent
  {
  }

  /** Repeating a move to the same point changes nothing and announces nothing. */
  lemma MoveIdempotent(c: Config, h: HandleState, x: int, y: int)
    ensures var r := MoveWithinParent(c, h, x, y);
      MoveWithinParent(c, r, x, y) == r
  {
    if c.kind == Bounded {
      var origin := Clamp(c.geom, Requested(c.axis, x, y));
      CenterDeterminesOrigin(c.geom, origin, Along(c.axis, h));
    }
  }

  // ---------------------------------------------------------------------------
  // setPosition, setPositionSilenty, setGrabbed

  /** Setting the position already recorded is a no-op, loud or silent: no state
      changes and nothing is announced. */
  lemma SetSamePositionIsNoOp(c: Config, h: HandleState, pos: int)
    requires h.pos == pos
    ensures SetPosition(c, h, pos) == h
    ensures SetPositionSilently(c, h, pos) == h
  {
  }

  /** setPositionSilenty has the effect of setPosition, without announcing anything. */
  lemma SilentSetMatchesLoud(c: Config, h: HandleState, pos: int)
    requires !h.silent
    ensures SetPositionSilently(c, h, pos) == SetPosition(c, h, pos).(positionSignals := h.positionSignals)
  {
    if h.pos != pos {
      assert h.(silent := false) == h;
      SilentMoveMatchesLoud(c, h, TargetX(c, pos), TargetY(c, pos));
    }
  }

  /** Where setPosition leaves the handle: a free handle at exactly the requested
      position, a bounded one at the request pulled into the padded range. */
  lemma SetPositionReaches(c: Config, h: HandleState, pos: int)
    requires Inv(c, h)
    ensures c.kind == Free ==> SetPosition(c, h, pos).pos == pos
    ensures c.kind == Bounded && Fits(c.geom) ==> SetPosition(c, h, pos).pos == ClampCenter(c.geom, pos)
  {
    if c.kind == Bounded && Fits(c.geom) && h.pos != pos {
      var request := Requested(c.axis, TargetX(c, pos), TargetY(c, pos));
      assert request == CenterToOrigin(c.geom, pos);
      ClampCommutesWithCenter(c.geom, pos);
    }
  }

  /** setGrabbed stores the value, announces it exactly when it changes, changes
      nothing else, and is idempotent. */
  lemma SetGrabbedSpec(h: HandleState, grabbed: bool)
    ensures var r := SetGrabbed(h, grabbed);
      && r.grabbed == grabbed
      && r.grabbedSignals == (if h.grabbed != grabbed then h.grabbedSignals + [grabbed] else h.grabbedSignals)
      && r.(grabbed := h.grabbed, grabbedSignals := h.grabbedSignals) == h
      && SetGrabbed(r, grabbed) == r
  {
  }

  // ---------------------------------------------------------------------------
  // The invariant and sequences of operations

  lemma InitialInv(c: Config)
    ensures Inv(c, Initial())
  {
    if Fits(c.geom) {
      LimitsAsCenters(c.geom, 0);
    }
  }

  /** A move from a state that satisfies the invariant, perhaps with the silent flag
      raised, ends in a state that satisfies it. */
  lemma MovePreservesInv(c: Config, h: HandleState, x: int, y: int)
    requires InvAnySilent(c, h)
    ensures Inv(c, MoveWithinParent(c, h, x, y))
  {
    var r := MoveWithinParent(c, h, x, y);
    match c.kind
    case Bounded =>
      BoundedMovePlaces(c, h, x, y);
      BoundedMoveAnnounces(c, h, x, y);
      if Fits(c.geom) {
        forall i | 0 <= i < |r.positionSignals|
          ensures InRange(c.geom, r.positionSignals[i])
        {
          if i < |h.positionSignals| {
            assert r.positionSignals[i] == h.positionSignals[i];
          }
        }
      }
    case Free =>
      if OriginToCenter(c.geom, Requested(c.axis, x, y)) != h.pos {
        FreeMoveFlags(c, h, x, y);
      }
  }

  lemma ApplyPreservesInv(c: Config, h: HandleState, op: Op)
    requires Inv(c, h)
    ensures Inv(c, Apply(c, h, op))
  {
    match op
    case Drag(x, y) => MovePreservesInv(c, h, x, y);
    case MoveQuietly(x, y) => MovePreservesInv(c, h.(silent := true), x, y);
    case Place(p) =>
      if h.pos != p { MovePreservesInv(c, h, TargetX(c, p), TargetY(c, p)); }
    case PlaceQuietly(p) =>
      if h.pos != p { MovePreservesInv(c, h.(silent := true), TargetX(c, p), TargetY(c, p)); }
    case Grab(b) =>
    case Trigger =>
      var r := TriggerMove(h);
      if c.kind == Bounded && Fits(c.geom) {
        forall i | 0 <= i < |r.positionSignals|
          ensures InRange(c.geom, r.positionSignals[i])
        {
          if i < |h.positionSignals| {
            assert r.positionSignals[i] == h.positionSignals[i];
          }
        }
      }
  }

  /** The invariant holds after any sequence of operations. */
  lemma {:induction false} RunPreservesInv(c: Config, h: HandleState, ops: seq<Op>)
    requires Inv(c, h)
    ensures Inv(c, Run(c, h, ops))
    decreases |ops|
  {
    if ops != [] {
      ApplyPreservesInv(c, h, ops[0]);
      RunPreservesInv(c, Apply(c, h, ops[0]), ops[1..]);
    }
  }

  /** Whatever a newly built bounded handle is asked to do, every position it
      announces and the position it reports lie in the padded range. */
  lemma BoundedAnnouncesOnlyInRange(c: Config, ops: seq<Op>)
    requires c.kind == Bounded && Fits(c.geom)
    ensures var r := Run(c, Initial(), ops);
      InRange(c.geom, r.pos) && AllInRange(c.geom, r.positionSignals)
  {
    InitialInv(c);
    RunPreservesInv(c, Initial(), ops);
  }

  /** The signal logs only grow: nothing once announced is taken back. */
  lemma ApplyExtendsLogs(c: Config, h: HandleState, op: Op)
    ensures h.positionSignals <= Apply(c, h, op).positionSignals
    ensures h.grabbedSignals <= Apply(c, h, op).grabbedSignals
  {
    match op
    case Drag(x, y) => MoveExtendsLogs(c, h, x, y);
    case MoveQuietly(x, y) => MoveExtendsLogs(c, h.(silent := true), x, y);
    case Place(p) => MoveExtendsLogs(c, h, TargetX(c, p), TargetY(c, p));
    case PlaceQuietly(p) => MoveExtendsLogs(c, h.(silent := true), TargetX(c, p), TargetY(c, p));
    case Grab(b) =>
    case Trigger =>
  }

  lemma MoveExtendsLogs(c: Config, h: HandleState, x: int, y: int)
    ensures h.positionSignals <= MoveWithinParent(c, h, x, y).positionSignals
    ensures h.grabbedSignals == MoveWithinParent(c, h, x, y).grabbedSignals
  {
  }

  lemma {:induction false} RunExtendsLogs(c: Config, h: HandleState, ops: seq<Op>)
    ensures h.positionSignals <= Run(c, h, ops).positionSignals
    ensures h.grabbedSignals <= Run(c, h, ops).grabbedSignals
    decreases |ops|
  {
    if ops != [] {
      ApplyExtendsLogs(c, h, ops[0]);
      RunExtendsLogs(c, Apply(c, h, ops[0]), ops[1..]);
    }
  }

  /** Silent moves, silent position changes and grabbing never announce a position,
      however many of them are made. */
  lemma {:induction false} QuietRunAnnouncesNothing(c: Config, h: HandleState, ops: seq<Op>)
    requires forall i :: 0 <= i < |ops| ==> IsQuiet(ops[i])
    ensures Run(c, h, ops).positionSignals == h.positionSignals
    decreases |ops|
  {
    if ops != [] {
      assert IsQuiet(ops[0]);
      QuietRunAnnouncesNothing(c, Apply(c, h, ops[0]), ops[1..]);
    }
  }
}
