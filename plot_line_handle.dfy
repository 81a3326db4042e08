/** The handle widget as the program keeps it: an object whose methods update its
    position fields in place. One class covers the horizontal and vertical, bounded
    and free handles; `kind` selects which moveWithinParent runs, as the virtual call
    does. The parent handles area is fixed at construction: its two paddings and its
    length along the handle's axis. Signals are recorded in ghost logs.

    Every method that changes the handle is proved to leave the object in the state
    the matching HandleModel function describes, and to keep HandleModel.Inv.
 */
module PlotLineHandles {
  import opened HandleGeometry
  import opened HandleModel

  class PlotLineHandle {
    const kind: Kind
    const axis: Axis
    const width: nat         // m_width, fixed by the constructor
    const height: nat        // m_height
    const nearPadding: int   // leftPadding() or topPadding() of the parent area
    const farPadding: int    // rightPadding() or bottomPadding()
    const areaLength: nat    // width() or height() of the parent area

    var x: int               // widget origin, x()
    var y: int               // widget origin, y()
    var currentPos: int      // m_current_pos
    var enableSilentMove: bool
    var grabbed: bool
    var isBeyondLow: bool    // m_isBeyondLeft / m_isBeyondTop
    var isBeyondHigh: bool   // m_isBeyondRight / m_isBeyondBottom
    ghost var positionSignals: seq<int>   // every positionChanged emitted
    ghost var grabbedSignals: seq<bool>   // every grabbedChanged emitted

    function Geom(): Geometry
    {
      Geometry(nearPadding, farPadding, areaLength, if axis == Horizontal then width else height)
    }

    function Cfg(): Config
    {
      Config(kind, axis, Geom())
    }

    ghost function State(): HandleState
      reads this
    {
      HandleState(x, y, currentPos, enableSilentMove, grabbed, isBeyondLow, isBeyondHigh,
                  positionSignals, grabbedSignals)
    }

    ghost predicate Valid()
      reads this
    {
      Inv(Cfg(), State())
    }

    /** The constructors: size set-up from the icon, everything else at rest. A rounded
        handle is a free vertical one. */
    constructor (kind: Kind, axis: Axis, shape: Shape, imageWidth: nat, imageHeight: nat,
                 nearPadding: int, farPadding: int, areaLength: nat)
      requires shape == Rounded ==> axis == Vertical && kind == Free
      ensures this.kind == kind && this.axis == axis
      ensures this.nearPadding == nearPadding && this.farPadding == farPadding && this.areaLength == areaLength
      ensures Size(width, height) == HandleSize(axis, shape, imageWidth, imageHeight)
      ensures State() == Initial()
      ensures Valid()
    {
      var size := HandleSize(axis, shape, imageWidth, imageHeight);
      this.kind, this.axis := kind, axis;
      this.width, this.height := size.width, size.height;
      this.nearPadding, this.farPadding, this.areaLength := nearPadding, farPadding, areaLength;
      x, y := 0, 0;
      currentPos := 0;
      enableSilentMove := false;
      grabbed := false;
      isBeyondLow, isBeyondHigh := false, false;
      positionSignals, grabbedSignals := [], [];
      new;
      InitialInv(Cfg());
    }

    /** position() */
    method Position() returns (pos: int)
      ensures pos == State().pos
    {
      pos := currentPos;
    }

    /** moveWithinParent, dispatched on the kind of handle. May be entered with the
        silent flag raised by moveSilently. */
    method MoveWithinParent(x0: int, y0: int)
      requires InvAnySilent(Cfg(), State())
      modifies this
      ensures State() == HandleModel.MoveWithinParent(Cfg(), old(State()), x0, y0)
      ensures Valid()
    {
      if kind == Bounded {
        MoveBounded(x0, y0);
      } else {
        MoveFree(x0, y0);
      }
    }

    /** PlotLineHandleH::moveWithinParent and PlotLineHandleV::moveWithinParent. */
    method MoveBounded(x0: int, y0: int)
      requires kind == Bounded
      requires InvAnySilent(Cfg(), State())
      modifies this
      ensures State() == BoundedMove(Cfg(), old(State()), x0, y0)
      ensures Valid()
    {
      MovePreservesInv(Cfg(), State(), x0, y0);
      var g := Geom();
      var lowerLimit := LowerLimit(g);
      var upperLimit := UpperLimit(g);
      var origin := if axis == Horizontal then x0 else y0;
      if origin < lowerLimit {
        origin := lowerLimit;
      } else if origin > upperLimit {
        origin := upperLimit;
      }
      var centerPos := OriginToCenter(g, origin);
      var oldCenterPos := OriginToCenter(g, if axis == Horizontal then x else y);
      if centerPos != oldCenterPos {
        if axis == Horizontal { x := origin; } else { y := origin; }
        if !enableSilentMove {
          positionSignals := positionSignals + [centerPos];
        }
      }
      enableSilentMove := false;
      currentPos := centerPos;
    }

    /** FreePlotLineHandleH::moveWithinParent and FreePlotLineHandleV::moveWithinParent. */
    method MoveFree(x0: int, y0: int)
      requires kind == Free
      requires InvAnySilent(Cfg(), State())
      modifies this
      ensures State() == FreeMove(Cfg(), old(State()), x0, y0)
      ensures Valid()
    {
      MovePreservesInv(Cfg(), State(), x0, y0);
      var g := Geom();
      var lowerLimit := LowerLimit(g);
      var upperLimit := UpperLimit(g);
      var origin := if axis == Horizontal then x0 else y0;
      var centerPos := OriginToCenter(g, origin);
      var oldCenterPos := currentPos;
      if centerPos != oldCenterPos {
        isBeyondLow := false;
        isBeyondHigh := false;
        if origin < lowerLimit {
          origin := lowerLimit;
          isBeyondLow := true;
        } else if origin > upperLimit {
          origin := upperLimit;
          isBeyondHigh := true;
        }
        if axis == Horizontal { x := origin; } else { y := origin; }
        if !enableSilentMove {
          positionSignals := positionSignals + [centerPos];
        }
        currentPos := centerPos;
      }
      enableSilentMove := false;
    }

    /** moveSilently */
    method MoveSilently(x0: int, y0: int)
      requires Valid()
      modifies this
      ensures State() == HandleModel.MoveSilently(Cfg(), old(State()), x0, y0)
      ensures Valid()
    {
      enableSilentMove := true;
      MoveWithinParent(x0, y0);
    }

    /** setPosition */
    method SetPosition(pos: int)
      requires Valid()
      modifies this
      ensures State() == HandleModel.SetPosition(Cfg(), old(State()), pos)
      ensures Valid()
    {
      if currentPos != pos {
        var origin := CenterToOrigin(Geom(), pos);
        if axis == Horizontal {
          MoveWithinParent(origin, 0);
        } else {
          MoveWithinParent(0, origin);
        }
      }
    }

    /** setPositionSilenty */
    method SetPositionSilently(pos: int)
      requires Valid()
      modifies this
      ensures State() == HandleModel.SetPositionSilently(Cfg(), old(State()), pos)
      ensures Valid()
    {
      if currentPos != pos {
        var origin := CenterToOrigin(Geom(), pos);
        if axis == Horizontal {
          MoveSilently(origin, 0);
        } else {
          MoveSilently(0, origin);
        }
      }
    }

    /** setGrabbed */
    method SetGrabbed(grabbed: bool)
      requires Valid()
      modifies this
      ensures State() == HandleModel.SetGrabbed(old(State()), grabbed)
      ensures Valid()
    {
      if this.grabbed != grabbed {
        this.grabbed := grabbed;
        grabbedSignals := grabbedSignals + [grabbed];
      }
    }

    /** triggerMove */
    method TriggerMove()
      requires Valid()
      modifies this
      ensures State() == HandleModel.TriggerMove(old(State()))
      ensures Valid()
    {
      ApplyPreservesInv(Cfg(), State(), Trigger);
      positionSignals := positionSignals + [currentPos];
    }
  }
}
