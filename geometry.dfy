/** Integer geometry of a draggable plot handle inside its parent handles area.

    A handle slides along one axis. Along that axis the parent area has a padding
    on each side and a length, and the handle widget has its own length. The handle's
    widget origin (its top-left corner) and the plot position of its centre line
    differ by a fixed offset; after its first move a bounded handle keeps its origin
    inside the padded range of the area.
 */
module HandleGeometry {

  /** The direction a handle is dragged in: horizontal handles slide along x,
      vertical handles along y. */
  datatype Axis = Horizontal | Vertical

  /** The parent area and the handle, measured along the axis of motion:
      left padding, right padding, area width and handle width for a horizontal
      handle; top padding, bottom padding, area height and handle height for a
      vertical one. Widget sizes are never negative. */
  datatype Geometry = Geometry(nearPadding: int, farPadding: int, areaLength: nat, handleLength: nat)

  /** The offset from widget origin to centre position: minus the near padding,
      plus half the handle (C++ integer division; the length is non-negative, so
      truncation and Dafny's division agree). */
  function Offset(g: Geometry): int
  {
    -g.nearPadding + g.handleLength / 2
  }

  /** originPosToCenter: the plot position of the centre line of a handle whose
      widget origin is `origin`. */
  function OriginToCenter(g: Geometry, origin: int): int
  {
    origin + Offset(g)
  }

  /** centerPosToOrigin: the widget origin that puts the centre line at `center`. */
  function CenterToOrigin(g: Geometry, center: int): (origin: int)
    ensures OriginToCenter(g, origin) == center
  {
    center - Offset(g)
  }

  /** Smallest origin a bounded handle may take: its centre sits on the near padding. */
  function LowerLimit(g: Geometry): int
  {
    0 + g.nearPadding - g.handleLength / 2
  }

  /** Largest origin a bounded handle may take: its centre sits on the last pixel
      before the far padding. */
  function UpperLimit(g: Geometry): int
  {
    g.areaLength - g.farPadding - g.handleLength / 2 - 1
  }

  /** Number of centre positions inside the padded range. */
  function Span(g: Geometry): int
  {
    g.areaLength - g.nearPadding - g.farPadding
  }

  /** The padded range is not empty. */
  predicate Fits(g: Geometry)
  {
    LowerLimit(g) <= UpperLimit(g)
  }

  /** A centre position inside the padded range. */
  predicate InRange(g: Geometry, center: int)
  {
    0 <= center < Span(g)
  }

  /** The clamping of moveWithinParent: below the lower limit goes to the lower limit,
      otherwise above the upper limit goes to the upper limit. When the range is empty
      an origin below it is still sent to the lower limit, which then lies above the
      upper one. */
  function Clamp(g: Geometry, origin: int): (r: int)
    ensures Fits(g) ==> LowerLimit(g) <= r <= UpperLimit(g)
    ensures LowerLimit(g) <= origin <= UpperLimit(g) ==> r == origin
    ensures r == origin || r == LowerLimit(g) || r == UpperLimit(g)
    ensures origin < LowerLimit(g) ==> r == LowerLimit(g)
    ensures LowerLimit(g) <= origin && origin > UpperLimit(g) ==> r == UpperLimit(g)
  {
    if origin < LowerLimit(g) then LowerLimit(g)
    else if origin > UpperLimit(g) then UpperLimit(g)
    else origin
  }

  function Distance(a: int, b: int): nat
  {
    if a <= b then b - a else a - b
  }

  /** Clamping picks the origin of the padded range nearest to the requested one. */
  lemma ClampIsNearest(g: Geometry, origin: int, other: int)
    requires LowerLimit(g) <= other <= UpperLimit(g)
    ensures Distance(Clamp(g, origin), origin) <= Distance(other, origin)
  {
  }

  /** The two conversions are inverse to each other, in both directions. */
  lemma CenterOriginRoundTrip(g: Geometry, origin: int, center: int)
    ensures CenterToOrigin(g, OriginToCenter(g, origin)) == origin
    ensures OriginToCenter(g, CenterToOrigin(g, center)) == center
  {
  }

  /** Two origins have the same centre exactly when they are equal: a handle's centre
      changes exactly when its widget would move. */
  lemma CenterDeterminesOrigin(g: Geometry, a: int, b: int)
    ensures OriginToCenter(g, a) == OriginToCenter(g, b) <==> a == b
  {
  }

  /** The limits of the origin correspond to the centre positions 0 and Span - 1, so an
      origin lies in the padded range exactly when its centre does. */
  lemma LimitsAsCenters(g: Geometry, origin: int)
    ensures OriginToCenter(g, LowerLimit(g)) == 0
    ensures OriginToCenter(g, UpperLimit(g)) == Span(g) - 1
    ensures Fits(g) <==> Span(g) >= 1
    ensures origin < LowerLimit(g) <==> OriginToCenter(g, origin) < 0
    ensures origin > UpperLimit(g) <==> OriginToCenter(g, origin) >= Span(g)
    ensures LowerLimit(g) <= origin <= UpperLimit(g) <==> InRange(g, OriginToCenter(g, origin))
  {
  }

  /** After clamping, a bounded handle's centre lies in [0, Span - 1]: from the near
      padding up to one pixel before the far padding. */
  lemma ClampedCenterInRange(g: Geometry, origin: int)
    requires Fits(g)
    ensures InRange(g, OriginToCenter(g, Clamp(g, origin)))
  {
    LimitsAsCenters(g, Clamp(g, origin));
  }

  /** The centre position a clamped origin stands for: the requested centre pulled into
      the padded range. */
  function ClampCenter(g: Geometry, center: int): (r: int)
    requires Fits(g)
    ensures InRange(g, r)
    ensures InRange(g, center) ==> r == center
    ensures center < 0 ==> r == 0
    ensures center >= Span(g) ==> r == Span(g) - 1
  {
    if center < 0 then 0 else if center >= Span(g) then Span(g) - 1 else center
  }

  /** Clamping an origin and clamping its centre are the same operation. */
  lemma ClampCommutesWithCenter(g: Geometry, center: int)
    requires Fits(g)
    ensures OriginToCenter(g, Clamp(g, CenterToOrigin(g, center))) == ClampCenter(g, center)
  {
    LimitsAsCenters(g, CenterToOrigin(g, center));
  }

  /** How the handle shapes lay out their icon: plain handles put half the icon's length
      of spacing beside it (a line drawn to the plot), the rounded vertical handle a
      whole icon height. */
  datatype Shape = Plain | Rounded

  datatype Size = Size(width: nat, height: nat)

  /** The fixed widget size a handle's constructor sets (minimum and maximum size
      both). Along its axis of motion the handle is exactly as long as its icon, so
      half the handle length is the icon's middle; across it, the icon plus the
      inner spacing (the outer spacing is 0). */
  function HandleSize(axis: Axis, shape: Shape, imageWidth: nat, imageHeight: nat): (s: Size)
    requires shape == Rounded ==> axis == Vertical
    ensures AlongAxis(axis, s) == if axis == Horizontal then imageWidth else imageHeight
    ensures axis == Horizontal ==> s.width == imageWidth && s.height == imageWidth / 2 + imageHeight
    ensures axis == Vertical && shape == Plain ==> s.height == imageHeight && s.width == imageHeight / 2 + imageWidth
    ensures axis == Vertical && shape == Rounded ==> s.height == imageHeight && s.width == imageHeight + imageWidth
  {
    var outerSpacing := 0;
    match axis
    case Horizontal =>
      var innerSpacing := imageWidth / 2;
      Size(imageWidth, innerSpacing + imageHeight + outerSpacing)
    case Vertical =>
      var innerSpacing := if shape == Rounded then imageHeight else imageHeight / 2;
      Size(innerSpacing + imageWidth + outerSpacing, imageHeight)
  }

  /** The handle's length along its axis of motion. */
  function AlongAxis(axis: Axis, s: Size): nat
  {
    if axis == Horizontal then s.width else s.height
  }
}
