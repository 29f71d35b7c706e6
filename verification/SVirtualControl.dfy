/**
 * SVirtualControl (SVirtualControl.cpp): the runtime widget of one virtual
 * control. Modelled: its hit test, the press, release and tick bookkeeping,
 * the placement of its box (the corrected values and AlignBoxIntoScreen),
 * reset and recentring, and its list of child widgets. The geometry the
 * widget reads (the canvas's local size, the scale factor) is passed in;
 * control events, input injection and painting are not modelled.
 */
module VirtualControlWidget {
  import opened Common
  import opened VirtualControlTypes

  /** A box of size `size` centred on `p` lies within [0, screen] on both axes. */
  predicate BoxInScreen(p: Vec2, size: Vec2, screen: Vec2)
  {
    p.x - size.x * 0.5 >= 0.0 && p.x + size.x * 0.5 <= screen.x
    && p.y - size.y * 0.5 >= 0.0 && p.y + size.y * 0.5 <= screen.y
  }

  /** One axis of AlignBoxIntoScreen: clamp to the low edge, then to the high edge. */
  function AlignAxis(p: real, size: real, screen: real): (r: real)
    requires size <= screen
    ensures r - size * 0.5 >= 0.0 && r + size * 0.5 <= screen
    ensures r == Clamp(p, size * 0.5, screen - size * 0.5)
  {
    var low := if p - size * 0.5 < 0.0 then size * 0.5 else p;
    if low + size * 0.5 > screen then screen - size * 0.5 else low
  }

  /**
   * AlignBoxIntoScreen: a box larger than the screen on either axis is left
   * where it is; otherwise the centre moves the least distance that puts the
   * whole box on screen.
   */
  function AlignBoxIntoScreen(position: Vec2, size: Vec2, screen: Vec2): (r: Vec2)
    ensures (size.x > screen.x || size.y > screen.y) ==> r == position
    ensures size.x <= screen.x && size.y <= screen.y ==>
      BoxInScreen(r, size, screen)
      && r == Vec2(Clamp(position.x, size.x * 0.5, screen.x - size.x * 0.5),
                   Clamp(position.y, size.y * 0.5, screen.y - size.y * 0.5))
    ensures BoxInScreen(position, size, screen) ==> r == position
  {
    if size.x > screen.x || size.y > screen.y then position
    else Vec2(AlignAxis(position.x, size.x, screen.x), AlignAxis(position.y, size.y, screen.y))
  }

  /** Aligning a second time changes nothing. */
  lemma AlignBoxIntoScreenIdempotent(position: Vec2, size: Vec2, screen: Vec2)
    ensures var r := AlignBoxIntoScreen(position, size, screen);
      AlignBoxIntoScreen(r, size, screen) == r
  {
  }

  /** ResolveRelativePosition: a normalized position scaled to the size it is relative to. */
  function ResolveRelativePosition(position: Vec2, relativeTo: Vec2): Vec2
  {
    position.Times(relativeTo)
  }

  /** Dividing by a non-zero size gives the normalized position back. */
  lemma ResolveRelativePositionInverse(position: Vec2, relativeTo: Vec2)
    requires relativeTo.x != 0.0 && relativeTo.y != 0.0
    ensures var r := ResolveRelativePosition(position, relativeTo);
      r.x / relativeTo.x == position.x && r.y / relativeTo.y == position.y
  {
  }

  /** A normalized position in [0,1]² resolves to a point inside the box [0, relativeTo]. */
  lemma ResolveRelativePositionInside(position: Vec2, relativeTo: Vec2)
    requires 0.0 <= position.x <= 1.0 && 0.0 <= position.y <= 1.0
    requires relativeTo.x >= 0.0 && relativeTo.y >= 0.0
    ensures var r := ResolveRelativePosition(position, relativeTo);
      0.0 <= r.x <= relativeTo.x && 0.0 <= r.y <= relativeTo.y
  {
    var r := ResolveRelativePosition(position, relativeTo);
    var a, b := position.x, relativeTo.x;
    assert r.x == a * b;
    MulNonNegative(a, b);
    MulNonNegative(1.0 - a, b);
    assert b - r.x == (1.0 - a) * b;
    var c, d := position.y, relativeTo.y;
    assert r.y == c * d;
    MulNonNegative(c, d);
    MulNonNegative(1.0 - c, d);
    assert d - r.y == (1.0 - c) * d;
  }

  lemma MulNonNegative(a: real, b: real)
    requires a >= 0.0 && b >= 0.0
    ensures a * b >= 0.0
  {
  }

  /** `FMath::Abs(FVector2D::Distance(a, b)) <= radius`, without the square root. */
  predicate WithinRadius(a: Vec2, b: Vec2, radius: real)
  {
    radius >= 0.0 && (b.x - a.x) * (b.x - a.x) + (b.y - a.y) * (b.y - a.y) <= radius * radius
  }

  /** The inclusive square test of IsInside. */
  predicate InSquare(center: Vec2, size: Vec2, p: Vec2)
  {
    p.x >= center.x - size.x * 0.5 && p.x <= center.x + size.x * 0.5
    && p.y >= center.y - size.y * 0.5 && p.y <= center.y + size.y * 0.5
  }

  class SVirtualControl {
    /** The control's data (VirtualControl). */
    var control: VirtualControl
    var capturePointerIndex: int
    var isPressed: bool
    var refreshPosition: bool
    var autoPositioning: bool
    var useLandscapePosition: bool
    var mustBeReset: bool
    /** Whether the widget's visibility lets hit tests through (Visible, not Hidden). */
    var hitTestVisible: bool
    var absoluteCenter: Vec2
    var correctedCenter: Vec2
    var correctedVisualSize: Vec2
    var correctedInteractionSize: Vec2
    var correctedOffset: Vec2
    var correctedInteractionRadiusSize: real
    var currentScaleFactor: real
    var currentTime: real
    var deltaTime: real
    var elapsedTime: real
    var lastElapsedTime: real
    var childControls: seq<SVirtualControl>

    /**
     * Construct and InitDefaultValues: released, no captured pointer, its
     * position to be computed on the next tick, in landscape. A control
     * that starts hidden is not hit-testable.
     */
    constructor(c: VirtualControl, autoPosition: bool)
      ensures control == c && autoPositioning == autoPosition
      ensures !isPressed && capturePointerIndex == -1 && refreshPosition && useLandscapePosition && !mustBeReset
      ensures hitTestVisible == !c.behaviour.startHidden
      ensures childControls == []
    {
      control := c;
      autoPositioning := autoPosition;
      isPressed := false;
      refreshPosition := true;
      useLandscapePosition := true;
      capturePointerIndex := -1;
      mustBeReset := false;
      hitTestVisible := !c.behaviour.startHidden;
      childControls := [];
    }

    /**
     * IsInside: never while a pointer is captured or the widget is not
     * hit-testable; otherwise the inclusive square test, or the distance to
     * the centre against the radius.
     */
    predicate IsInside(finger: Vec2)
      reads this
    {
      capturePointerIndex == -1 && hitTestVisible &&
      match control.interactionShape
      case Square => InSquare(absoluteCenter, correctedInteractionSize, finger)
      case Circle => WithinRadius(absoluteCenter, finger, correctedInteractionRadiusSize)
    }

    /** The hit test's edge cases: a captured widget is never hit; the square's corners and the circle's rim are. */
    lemma IsInsideEdges(finger: Vec2)
      ensures capturePointerIndex != -1 ==> !IsInside(finger)
      ensures capturePointerIndex == -1 && hitTestVisible && control.interactionShape == Square ==>
        (IsInside(finger) <==> InSquare(absoluteCenter, correctedInteractionSize, finger))
      ensures (capturePointerIndex == -1 && hitTestVisible && control.interactionShape == Square
        && correctedInteractionSize.x >= 0.0 && correctedInteractionSize.y >= 0.0) ==>
        IsInside(absoluteCenter.Plus(correctedInteractionSize.Scale(0.5)))
      ensures (capturePointerIndex == -1 && hitTestVisible && control.interactionShape == Circle
        && correctedInteractionRadiusSize >= 0.0) ==>
        IsInside(absoluteCenter.Plus(Vec2(correctedInteractionRadiusSize, 0.0)))
    {
    }

    /** OnPress: the widget is pressed and captures the pointer; a control that recentres on touch moves there. Returns bBlockTouchRegion. */
    method OnPress(pointerIndex: int, localCoord: Vec2) returns (blockTouchRegion: bool)
      modifies this`isPressed, this`capturePointerIndex, this`mustBeReset, this`correctedCenter
      ensures isPressed && capturePointerIndex == pointerIndex
      ensures blockTouchRegion == control.behaviour.blockTouchRegion
      ensures control.behaviour.recenterOnTouch ==> correctedCenter == localCoord && !mustBeReset
      ensures !control.behaviour.recenterOnTouch ==> correctedCenter == old(correctedCenter) && mustBeReset == old(mustBeReset)
    {
      isPressed := true;
      capturePointerIndex := pointerIndex;
      if control.behaviour.recenterOnTouch {
        Recenter(localCoord);
      }
      blockTouchRegion := control.behaviour.blockTouchRegion;
    }

    /** OnRelease: released, no captured pointer, and the press duration moves to LastElapsedTime. */
    method OnRelease()
      modifies this`isPressed, this`capturePointerIndex, this`lastElapsedTime, this`elapsedTime
      ensures !isPressed && capturePointerIndex == -1
      ensures lastElapsedTime == old(elapsedTime) && elapsedTime == 0.0
    {
      isPressed := false;
      capturePointerIndex := -1;
      lastElapsedTime := elapsedTime;
      elapsedTime := 0.0;
    }

    /**
     * OnTick: nothing for a child. Otherwise it records the time, adds the
     * frame time to ElapsedTime while pressed, and, when a refresh is due
     * (or forced), recomputes the corrected values from the centre of the
     * current orientation and aligns the box into the canvas. With
     * auto-positioning the source leaves the centre unset; it is the
     * parameter `unsetCenter` here.
     */
    method OnTick(localSize: Vec2, scaleFactor: real, time: real, dt: real, forceUpdate: bool, orientToLandscape: bool, unsetCenter: Vec2)
      modifies this`currentTime, this`deltaTime, this`elapsedTime, this`refreshPosition, this`currentScaleFactor,
        this`useLandscapePosition, this`correctedOffset, this`absoluteCenter, this`correctedCenter,
        this`correctedVisualSize, this`correctedInteractionSize, this`correctedInteractionRadiusSize
      ensures control.link.isChild ==> unchanged(this)
      ensures !control.link.isChild ==>
        currentTime == time && deltaTime == dt && currentScaleFactor == scaleFactor
        && useLandscapePosition == orientToLandscape && !refreshPosition
        && elapsedTime == old(elapsedTime) + (if isPressed then dt else 0.0)
      ensures !control.link.isChild && (old(refreshPosition) || forceUpdate) ==>
        var center := if autoPositioning then unsetCenter
          else if orientToLandscape then control.landscapeCenter else control.portraitCenter;
        correctedVisualSize == control.visualSize.Scale(scaleFactor)
        && absoluteCenter == ResolveRelativePosition(center, localSize)
        && correctedCenter == AlignBoxIntoScreen(absoluteCenter, correctedVisualSize, localSize)
      ensures !control.link.isChild && !(old(refreshPosition) || forceUpdate) ==>
        correctedCenter == old(correctedCenter) && absoluteCenter == old(absoluteCenter)
        && correctedVisualSize == old(correctedVisualSize)
    {
      if control.link.isChild {
        return;
      }
      Advance(scaleFactor, time, dt, forceUpdate, orientToLandscape);
      if refreshPosition {
        var center := if autoPositioning then unsetCenter
          else if useLandscapePosition then control.landscapeCenter else control.portraitCenter;
        Refresh(center, localSize, scaleFactor);
      }
    }

    /** OnTick's bookkeeping: the time, the press duration, the refresh flag, the scale and the orientation. */
    method Advance(scaleFactor: real, time: real, dt: real, forceUpdate: bool, orientToLandscape: bool)
      modifies this`currentTime, this`deltaTime, this`elapsedTime, this`refreshPosition, this`currentScaleFactor,
        this`useLandscapePosition
      ensures currentTime == time && deltaTime == dt && currentScaleFactor == scaleFactor
      ensures useLandscapePosition == orientToLandscape
      ensures elapsedTime == old(elapsedTime) + (if isPressed then dt else 0.0)
      ensures refreshPosition == (old(refreshPosition) || forceUpdate)
    {
      currentTime := time;
      deltaTime := dt;
      if isPressed {
        elapsedTime := elapsedTime + dt;
      }
      if forceUpdate {
        refreshPosition := true;
      }
      currentScaleFactor := scaleFactor;
      useLandscapePosition := orientToLandscape;
    }

    /** OnTick's refresh of a top-level control: corrected values from `center`, then the box aligned into the canvas. */
    method Refresh(center: Vec2, localSize: Vec2, scaleFactor: real)
      modifies this`correctedOffset, this`absoluteCenter, this`correctedCenter, this`correctedVisualSize,
        this`correctedInteractionSize, this`correctedInteractionRadiusSize, this`refreshPosition
      ensures !refreshPosition
      ensures !control.link.isChild ==> correctedOffset == Zero2 && absoluteCenter == ResolveRelativePosition(center, localSize)
      ensures correctedVisualSize == control.visualSize.Scale(scaleFactor)
      ensures correctedCenter == AlignBoxIntoScreen(absoluteCenter, correctedVisualSize, localSize)
    {
      CalculateCorrectedValues(center, Zero2, localSize, scaleFactor);
      correctedCenter := AlignBoxIntoScreen(correctedCenter, correctedVisualSize, localSize);
      refreshPosition := false;
    }

    /**
     * CalculateCorrectedValues: a child's offset is scaled, a parent's is
     * not; the centre is resolved against the canvas size, then offset; the
     * visual size, and the interaction size or radius of the control's
     * shape, are scaled.
     */
    method CalculateCorrectedValues(center: Vec2, offset: Vec2, localSize: Vec2, scaleFactor: real)
      modifies this`correctedOffset, this`absoluteCenter, this`correctedCenter, this`correctedVisualSize,
        this`correctedInteractionSize, this`correctedInteractionRadiusSize
      ensures correctedOffset == (if control.link.isChild then offset.Scale(scaleFactor) else offset)
      ensures absoluteCenter == ResolveRelativePosition(center, localSize).Plus(correctedOffset)
      ensures correctedCenter == absoluteCenter
      ensures correctedVisualSize == control.visualSize.Scale(scaleFactor)
      ensures control.interactionShape == Square ==>
        correctedInteractionSize == control.interactionSize.Scale(scaleFactor)
        && correctedInteractionRadiusSize == old(correctedInteractionRadiusSize)
      ensures control.interactionShape == Circle ==>
        correctedInteractionRadiusSize == control.interactionRadiusSize * scaleFactor
        && correctedInteractionSize == old(correctedInteractionSize)
    {
      correctedOffset := if control.link.isChild then offset.Scale(scaleFactor) else offset;
      absoluteCenter := ResolveRelativePosition(center, localSize).Plus(correctedOffset);
      correctedCenter := absoluteCenter;
      correctedVisualSize := control.visualSize.Scale(scaleFactor);
      match control.interactionShape
      case Square =>
        correctedInteractionSize := control.interactionSize.Scale(scaleFactor);
      case Circle =>
        correctedInteractionRadiusSize := control.interactionRadiusSize * scaleFactor;
    }

    /** Recenter: the control's own centre moves to the touch. */
    method Recenter(desiredPosition: Vec2)
      modifies this`mustBeReset, this`correctedCenter
      ensures !mustBeReset && correctedCenter == desiredPosition
    {
      mustBeReset := false;
      correctedCenter := desiredPosition;
    }

    /** Reset: back to the centre computed at the last refresh. */
    method Reset()
      modifies this`mustBeReset, this`correctedCenter
      ensures !mustBeReset && correctedCenter == absoluteCenter
    {
      mustBeReset := false;
      correctedCenter := absoluteCenter;
    }

    /** ResetChild: a child's centre is its parent's position plus its corrected offset. */
    method ResetChild(parentPosition: Vec2)
      modifies this`mustBeReset, this`correctedCenter, this`absoluteCenter
      ensures !mustBeReset && correctedCenter == absoluteCenter == parentPosition.Plus(correctedOffset)
    {
      mustBeReset := false;
      absoluteCenter := parentPosition.Plus(correctedOffset);
      correctedCenter := absoluteCenter;
    }

    /** RecenterChild: only a child that moves with its parent follows it. */
    method RecenterChild(parentPosition: Vec2)
      modifies this`correctedCenter, this`absoluteCenter
      ensures control.link.moveWhenParentRecenter ==>
        correctedCenter == absoluteCenter == parentPosition.Plus(correctedOffset)
      ensures !control.link.moveWhenParentRecenter ==> unchanged(this)
    {
      if control.link.moveWhenParentRecenter {
        absoluteCenter := parentPosition.Plus(correctedOffset);
        correctedCenter := absoluteCenter;
      }
    }

    /** AddChild: a null widget is refused; any other is appended. */
    method AddChild(other: SVirtualControl?) returns (added: bool)
      modifies this`childControls
      ensures added <==> other != null
      ensures childControls == if added then old(childControls) + [other] else old(childControls)
    {
      if other != null {
        childControls := childControls + [other];
        return true;
      }
      return false;
    }

    /** RemoveChild: a widget that is not a child is refused; otherwise every occurrence is removed. */
    method RemoveChild(child: SVirtualControl) returns (removed: bool)
      modifies this`childControls
      ensures removed <==> child in old(childControls)
      ensures childControls == Without(old(childControls), child)
      ensures child !in childControls
    {
      if child in childControls {
        childControls := Without(childControls, child);
        return true;
      }
      return false;
    }

    /** Whether this widget has child widgets (SVirtualControl::IsParent). */
    predicate IsParent()
      reads this
    {
      |childControls| > 0
    }

    /**
     * SetLocalPosition, as written: the resolved centre is computed and then
     * discarded, so a normalized position is stored unresolved.
     */
    method SetLocalPosition(newPosition: Vec2, isNormalized: bool, parentSize: Vec2)
      modifies this`correctedCenter, this`absoluteCenter
      ensures correctedCenter == absoluteCenter == newPosition
    {
      var center := newPosition;
      if isNormalized {
        center := ResolveRelativePosition(center, parentSize);
      }
      absoluteCenter := newPosition;
      correctedCenter := absoluteCenter;
    }

    /** SetLocalPosition as its documentation intends: a normalized position is resolved against the parent's size. */
    method SetLocalPositionResolved(newPosition: Vec2, isNormalized: bool, parentSize: Vec2)
      modifies this`correctedCenter, this`absoluteCenter
      ensures correctedCenter == absoluteCenter == LocalPosition(newPosition, isNormalized, parentSize)
    {
      absoluteCenter := LocalPosition(newPosition, isNormalized, parentSize);
      correctedCenter := absoluteCenter;
    }
  }

  /** The centre SetLocalPosition should store: a normalized position resolved against the parent's size. */
  function LocalPosition(newPosition: Vec2, isNormalized: bool, parentSize: Vec2): (r: Vec2)
    ensures !isNormalized ==> r == newPosition
    ensures isNormalized ==> r == ResolveRelativePosition(newPosition, parentSize)
  {
    if isNormalized then ResolveRelativePosition(newPosition, parentSize) else newPosition
  }

  /**
   * The stored position as written differs from the intended one for a
   * normalized centre on a 1920x1080 canvas: (0.5, 0.5) stays (0.5, 0.5)
   * instead of (960, 540).
   */
  lemma SetLocalPositionIgnoresNormalization()
    ensures LocalPosition(Vec2(0.5, 0.5), true, Vec2(1920.0, 1080.0)) == Vec2(960.0, 540.0)
    ensures LocalPosition(Vec2(0.5, 0.5), true, Vec2(1920.0, 1080.0)) != Vec2(0.5, 0.5)
  {
  }
}
