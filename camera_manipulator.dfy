/**
 * The interactive camera of the OSG renderer
 * (modules/render/render_osg_camera_manipulator.cpp): the camera circles the
 * scene on an ellipse at angle `angle`, turns its view by a small
 * `lookAtOffset` before it starts to circle, and moves up and down between
 * MinHeight and MaxHeight. Single-precision floats are modelled as reals.
 */
module CameraManipulator {
  import Arith

  /** osg::PI (a double constant; here as the same decimal). */
  const Pi: real := 3.14159265358979323846

  /** osg::PI_4: the largest look-at offset either way. */
  const MaxLookAtOffset: real := Pi / 4.0

  /** The height limits and the initial height. */
  const MaxHeight: real := 4.0
  const MinHeight: real := 0.6
  const InitialHeight: real := 1.6

  /** The step of one arrow key or one wheel notch. */
  const KeyStep: real := 0.1

  // ---------------------------------------------------------------------------
  // rotate and modifyHeight as functions of the old state

  /**
   * The look-at offset after rotate(delta): it moves by delta, stopping at
   * +-MaxLookAtOffset, unless it already sits at the limit in delta's
   * direction.
   */
  function OffsetAfter(offset: real, delta: real): real
  {
    if delta > 0.0 then
      (if offset < MaxLookAtOffset then Arith.Min(offset + delta, MaxLookAtOffset) else offset)
    else
      (if offset > -MaxLookAtOffset then Arith.Max(offset + delta, -MaxLookAtOffset) else offset)
  }

  /** The angle after rotate(delta), before the correction into [0, 2*Pi]. */
  function TurnedAngle(angle: real, offset: real, delta: real): real
  {
    if delta > 0.0 then
      (if offset < MaxLookAtOffset then angle else angle + delta)
    else
      (if offset > -MaxLookAtOffset then angle else angle + delta)
  }

  /** rotate's single correction: subtract 2*Pi above 2*Pi, add it below 0. */
  function Wrap(angle: real): real
  {
    if angle > 2.0 * Pi then angle - 2.0 * Pi
    else if angle < 0.0 then angle + 2.0 * Pi
    else angle
  }

  /** The angle after rotate(delta). */
  function AngleAfter(angle: real, offset: real, delta: real): real
  {
    Wrap(TurnedAngle(angle, offset, delta))
  }

  /** The height after modifyHeight(delta): moved by delta, stopping at the limit in delta's direction. */
  function HeightAfter(height: real, delta: real): real
  {
    if delta > 0.0 then Arith.Min(height + delta, MaxHeight) else Arith.Max(height + delta, MinHeight)
  }

  // ---------------------------------------------------------------------------
  // Properties of rotate and modifyHeight

  /** rotate keeps the look-at offset within +-MaxLookAtOffset. */
  lemma OffsetStaysBounded(offset: real, delta: real)
    requires -MaxLookAtOffset <= offset <= MaxLookAtOffset
    ensures -MaxLookAtOffset <= OffsetAfter(offset, delta) <= MaxLookAtOffset
  {
  }

  /**
   * rotate turns the camera around the scene only when the offset already
   * sits at its limit in delta's direction, and then leaves the offset
   * where it is; otherwise only the offset moves, towards delta's sign.
   */
  lemma TurnOnlyWhenSaturated(angle: real, offset: real, delta: real)
    ensures TurnedAngle(angle, offset, delta) != angle ==>
      && (if delta > 0.0 then offset >= MaxLookAtOffset else offset <= -MaxLookAtOffset)
      && OffsetAfter(offset, delta) == offset
    ensures OffsetAfter(offset, delta) != offset ==> TurnedAngle(angle, offset, delta) == angle
    ensures delta > 0.0 ==> OffsetAfter(offset, delta) >= offset
    ensures delta <= 0.0 ==> OffsetAfter(offset, delta) <= offset
  {
  }

  /** A turn of at most a full circle from an angle in [0, 2*Pi] stays in [0, 2*Pi] after the one correction. */
  lemma AngleStaysInRange(angle: real, offset: real, delta: real)
    requires 0.0 <= angle <= 2.0 * Pi
    requires -2.0 * Pi <= delta <= 2.0 * Pi
    ensures 0.0 <= AngleAfter(angle, offset, delta) <= 2.0 * Pi
  {
  }

  /** The correction changes the angle by exactly one full circle, or not at all. */
  lemma WrapIsFullTurn(angle: real)
    ensures Wrap(angle) == angle || Wrap(angle) == angle - 2.0 * Pi || Wrap(angle) == angle + 2.0 * Pi
    ensures 0.0 <= angle <= 2.0 * Pi ==> Wrap(angle) == angle
  {
  }

  /**
   * modifyHeight keeps the height within [MinHeight, MaxHeight]; a positive
   * delta never lowers it and any other delta never raises it.
   */
  lemma HeightStaysBounded(height: real, delta: real)
    requires MinHeight <= height <= MaxHeight
    ensures MinHeight <= HeightAfter(height, delta) <= MaxHeight
    ensures delta > 0.0 ==> height <= HeightAfter(height, delta)
    ensures delta <= 0.0 ==> HeightAfter(height, delta) <= height
  {
  }

  /** Within the limits, modifyHeight moves by exactly delta. */
  lemma HeightExactInside(height: real, delta: real)
    requires MinHeight <= height + delta <= MaxHeight
    ensures HeightAfter(height, delta) == height + delta
  {
  }

  // ---------------------------------------------------------------------------
  // Events

  datatype Key = KeySpace | KeyLeft | KeyRight | OtherKey(code: int)

  /** osgGA::GUIEventAdapter::ScrollingMotion. */
  datatype ScrollingMotion = ScrollNone | ScrollLeft | ScrollRight | ScrollUp | ScrollDown | Scroll2D

  /** The rotation a wheel motion asks for, if any. */
  function WheelDelta(sm: ScrollingMotion): (d: real)
    ensures d == KeyStep <==> sm == ScrollDown || sm == ScrollRight
    ensures d == -KeyStep <==> sm == ScrollUp || sm == ScrollLeft
    ensures d == 0.0 <==> sm == ScrollNone || sm == Scroll2D
  {
    match sm
    case ScrollDown => KeyStep
    case ScrollRight => KeyStep
    case ScrollUp => -KeyStep
    case ScrollLeft => -KeyStep
    case _ => 0.0
  }

  // ---------------------------------------------------------------------------
  // RenderOsgCameraManipulator

  class Manipulator {
    var angle: real
    var lookAtOffset: real
    var height: real
    var eyePosScale: real

    /** What every method keeps: the offset and the height within their limits, the eye scale at 1. */
    predicate Valid()
      reads this
    {
      && -MaxLookAtOffset <= lookAtOffset <= MaxLookAtOffset
      && MinHeight <= height <= MaxHeight
      && eyePosScale == 1.0
    }

    constructor ()
      ensures Valid()
      ensures angle == Pi && lookAtOffset == 0.0 && height == InitialHeight && eyePosScale == 1.0
    {
      angle := Pi;
      lookAtOffset := 0.0;
      height := InitialHeight;
      eyePosScale := 1.0;
    }

    /** home: back to the initial angle, offset and scale; the height stays. */
    method Home()
      requires Valid()
      modifies this
      ensures Valid()
      ensures angle == Pi && lookAtOffset == 0.0 && eyePosScale == 1.0
      ensures height == old(height)
    {
      angle := Pi;
      lookAtOffset := 0.0;
      eyePosScale := 1.0;
    }

    method Rotate(delta: real)
      requires Valid()
      modifies this
      ensures Valid()
      ensures lookAtOffset == OffsetAfter(old(lookAtOffset), delta)
      ensures angle == AngleAfter(old(angle), old(lookAtOffset), delta)
      ensures height == old(height) && eyePosScale == old(eyePosScale)
      ensures 0.0 <= old(angle) <= 2.0 * Pi && -2.0 * Pi <= delta <= 2.0 * Pi ==> 0.0 <= angle <= 2.0 * Pi
    {
      OffsetStaysBounded(lookAtOffset, delta);
      if 0.0 <= angle <= 2.0 * Pi && -2.0 * Pi <= delta <= 2.0 * Pi {
        AngleStaysInRange(angle, lookAtOffset, delta);
      }
      if delta > 0.0 {
        if lookAtOffset < MaxLookAtOffset {
          lookAtOffset := Arith.Min(lookAtOffset + delta, MaxLookAtOffset);
        } else {
          angle := angle + delta;
        }
      } else {
        if lookAtOffset > -MaxLookAtOffset {
          lookAtOffset := Arith.Max(lookAtOffset + delta, -MaxLookAtOffset);
        } else {
          angle := angle + delta;
        }
      }
      if angle > 2.0 * Pi {
        angle := angle - 2.0 * Pi;
      } else if angle < 0.0 {
        angle := angle + 2.0 * Pi;
      }
    }

    method ModifyHeight(delta: real)
      requires Valid()
      modifies this
      ensures Valid()
      ensures height == HeightAfter(old(height), delta)
      ensures angle == old(angle) && lookAtOffset == old(lookAtOffset) && eyePosScale == old(eyePosScale)
    {
      HeightStaysBounded(height, delta);
      if delta > 0.0 {
        height := Arith.Min(height + delta, MaxHeight);
      } else {
        height := Arith.Max(height + delta, MinHeight);
      }
    }

    /** handleKeyDown: Space goes home, Left and Right rotate by one step; other keys are not handled. */
    method HandleKeyDown(key: Key) returns (handled: bool)
      requires Valid()
      modifies this
      ensures Valid()
      ensures handled <==> !key.OtherKey?
      ensures key == KeySpace ==>
        angle == Pi && lookAtOffset == 0.0 && height == old(height)
      ensures key == KeyLeft ==>
        && lookAtOffset == OffsetAfter(old(lookAtOffset), -KeyStep)
        && angle == AngleAfter(old(angle), old(lookAtOffset), -KeyStep)
        && height == old(height)
      ensures key == KeyRight ==>
        && lookAtOffset == OffsetAfter(old(lookAtOffset), KeyStep)
        && angle == AngleAfter(old(angle), old(lookAtOffset), KeyStep)
        && height == old(height)
      ensures key.OtherKey? ==> angle == old(angle) && lookAtOffset == old(lookAtOffset) && height == old(height)
    {
      handled := false;
      if key == KeySpace {
        Home();
        handled := true;
      } else if key == KeyLeft {
        Rotate(-KeyStep);
        handled := true;
      } else if key == KeyRight {
        Rotate(KeyStep);
        handled := true;
      }
    }

    /** handleMouseWheel: down or right rotates one step forward, up or left one step back. */
    method HandleMouseWheel(sm: ScrollingMotion) returns (handled: bool)
      requires Valid()
      modifies this
      ensures Valid()
      ensures handled <==> sm != ScrollNone && sm != Scroll2D
      ensures handled ==>
        && lookAtOffset == OffsetAfter(old(lookAtOffset), WheelDelta(sm))
        && angle == AngleAfter(old(angle), old(lookAtOffset), WheelDelta(sm))
      ensures !handled ==> angle == old(angle) && lookAtOffset == old(lookAtOffset)
      ensures height == old(height)
    {
      handled := false;
      if sm == ScrollDown || sm == ScrollRight {
        Rotate(KeyStep);
        handled := true;
      } else if sm == ScrollUp || sm == ScrollLeft {
        Rotate(-KeyStep);
        handled := true;
      }
    }

    /** performMovementLeftMouseButton: a horizontal drag rotates, a vertical one changes the height. */
    method PerformMovementLeftMouseButton(dx: real, dy: real) returns (handled: bool)
      requires Valid()
      modifies this
      ensures Valid()
      ensures handled
      ensures lookAtOffset == OffsetAfter(old(lookAtOffset), -2.0 * dx)
      ensures angle == AngleAfter(old(angle), old(lookAtOffset), -2.0 * dx)
      ensures height == HeightAfter(old(height), -dy)
    {
      Rotate(-2.0 * dx);
      ModifyHeight(-dy);
      handled := true;
    }

    /** The z coordinate of the eye: the height, times the eye scale. */
    function EyeZ(): (z: real)
      reads this
      ensures Valid() ==> z == height && MinHeight <= z <= MaxHeight
    {
      height * eyePosScale
    }

    /** The z coordinate of the point looked at: a quarter of the height, always below the eye. */
    function LookAtZ(): (z: real)
      reads this
      ensures Valid() ==> 0.0 < z < EyeZ()
    {
      height * 0.25
    }

    /** indentFactor: the ellipse shrinks by up to a tenth as the camera rises. */
    function IndentFactor(): (f: real)
      reads this
      ensures Valid() ==> 0.9 <= f <= 1.0
      ensures Valid() && height == MinHeight ==> f == 1.0
      ensures Valid() && height == MaxHeight ==> f == 0.9
    {
      1.0 - 0.1 * ((height - MinHeight) / (MaxHeight - MinHeight))
    }
  }
}
