// The drag-to-approve gesture: a horizontal drag past a fraction of the
// element's width and a minimum distance fires the right (approve) or left
// (reject) callback. Pointer positions are integer pixels; the ratios the
// handler computes are reals, with the two non-finite values a JavaScript
// division by a zero width can produce written out.
module Swipe {
  import opened Common

  datatype Direction = Left | Right

  /** A JavaScript number as the handler's ratios can produce it. */
  datatype Ratio = Finite(value: real) | Infinite | NotANumber

  /** The callbacks the handler fires, in order. */
  datatype Callback =
    | SwipeStart
    | SwipeMove(deltaX: int, direction: Direction, progress: Ratio)
    | SwipeCancel
    | SwipedRight
    | SwipedLeft

  const DefaultThreshold: real := 0.4
  const DefaultMinDistance: real := 50.0
  /** Overlay opacity never exceeds this. */
  const MaxOpacity: real := 0.8
  /** How far past its width a swiped element slides, in pixels. */
  const OffScreenMargin := 50

  /**
   * `options.x || d`: `undefined` (here `None`) and `0` are both falsy, so
   * both take the default.
   */
  function OrDefault(supplied: Option<real>, d: real): (r: real)
    ensures r == d <==> supplied.None? || supplied.value == 0.0 || supplied.value == d
    ensures supplied.Some? && supplied.value != 0.0 ==> r == supplied.value
  {
    if supplied.Some? && supplied.value != 0.0 then supplied.value else d
  }

  function Abs(x: int): (r: nat)
    ensures r == x || r == -x
  {
    if x < 0 then -x else x
  }

  /** `deltaX > 0 ? 'right' : 'left'`. */
  function DirectionOf(dx: int): (d: Direction)
    ensures d == Right <==> dx > 0
  {
    if dx > 0 then Right else Left
  }

  /** `Math.abs(dx) / width`, where a zero width gives `Infinity` or, for `0/0`, `NaN`. */
  function SwipeFraction(dx: int, width: nat): (r: Ratio)
    ensures r.NotANumber? <==> width == 0 && dx == 0
    ensures r.Infinite? <==> width == 0 && dx != 0
    ensures r.Finite? ==> r.value >= 0.0 && r.value * width as real == Abs(dx) as real
  {
    if width == 0 then (if dx == 0 then NotANumber else Infinite)
    else Finite(Abs(dx) as real / width as real)
  }

  /** `Math.min(fraction, 1)`; `Math.min` of `NaN` is `NaN`. */
  function Progress(dx: int, width: nat): (p: Ratio)
  {
    match SwipeFraction(dx, width)
    case Finite(f) => Finite(if f < 1.0 then f else 1.0)
    case Infinite => Finite(1.0)
    case NotANumber => NotANumber
  }

  /** `Math.min(progress * 2, 0.8)`. */
  function Opacity(progress: Ratio): (o: Ratio)
    requires !progress.Infinite?
  {
    match progress
    case Finite(p) => Finite(if 2.0 * p < MaxOpacity then 2.0 * p else MaxOpacity)
    case NotANumber => NotANumber
  }

  /** `swipePercent >= threshold`; every comparison with `NaN` is false. */
  predicate ReachesThreshold(fraction: Ratio, threshold: real)
  {
    match fraction
    case Finite(f) => f >= threshold
    case Infinite => true
    case NotANumber => false
  }

  /** Whether `endSwipe` counts the drag as a swipe. */
  predicate IsSwipe(dx: int, width: nat, threshold: real, minDistance: real)
  {
    ReachesThreshold(SwipeFraction(dx, width), threshold) && Abs(dx) as real >= minDistance
  }

  /** The overlay label for a direction. */
  function Label(d: Direction): (s: string)
    ensures |s| >= 8 && s[0] == (if d == Right then '✓' else '✗')
  {
    if d == Right then "✓ Approve" else "✗ Reject"
  }

  class SwipeGestureHandler {
    const threshold: real
    const minDistance: real
    var isDragging: bool
    var startX: int
    var startY: int
    var currentX: int
    var currentY: int
    var deltaX: int
    var deltaY: int
    var initialized: bool
    /** The element's own touch and mouse-down listeners are attached. */
    var listening: bool
    /** The document-level mouse move and up listeners are attached. */
    var documentListening: bool
    /** The element's `translateX`, in pixels. */
    var offset: int
    var elementOpacity: real
    var overlayOpacity: Ratio
    var overlayLabel: string
    /** Directions whose swipe callback waits for the 300 ms slide-out. */
    var scheduled: seq<Direction>
    var callbacks: seq<Callback>

    /** The deltas are always the current point minus the start point. */
    predicate Valid()
      reads this
    {
      deltaX == currentX - startX && deltaY == currentY - startY
    }

    constructor (thresholdOption: Option<real>, minDistanceOption: Option<real>)
      ensures threshold == OrDefault(thresholdOption, DefaultThreshold)
      ensures minDistance == OrDefault(minDistanceOption, DefaultMinDistance)
      ensures !isDragging && startX == 0 && startY == 0 && currentX == 0 && currentY == 0
      ensures deltaX == 0 && deltaY == 0
      ensures initialized && listening && !documentListening
      ensures scheduled == [] && callbacks == []
      ensures Valid()
    {
      threshold := OrDefault(thresholdOption, DefaultThreshold);
      minDistance := OrDefault(minDistanceOption, DefaultMinDistance);
      isDragging := false;
      startX, startY, currentX, currentY, deltaX, deltaY := 0, 0, 0, 0, 0, 0;
      initialized := false;
      listening := false;
      documentListening := false;
      offset := 0;
      elementOpacity := 1.0;
      overlayOpacity := Finite(0.0);
      overlayLabel := "";
      scheduled := [];
      callbacks := [];
      new;
      Init();
    }

    /** `init`: attaches the listeners once; a second call changes nothing. */
    method Init()
      modifies this
      ensures initialized
      ensures !old(initialized) ==> listening
      ensures old(initialized) ==> listening == old(listening)
      ensures !old(initialized) ==> overlayOpacity == Finite(0.0)
      ensures old(initialized) ==> overlayOpacity == old(overlayOpacity)
      ensures isDragging == old(isDragging) && startX == old(startX) && startY == old(startY)
      ensures currentX == old(currentX) && currentY == old(currentY)
      ensures deltaX == old(deltaX) && deltaY == old(deltaY)
      ensures documentListening == old(documentListening) && offset == old(offset)
      ensures elementOpacity == old(elementOpacity) && overlayLabel == old(overlayLabel)
      ensures scheduled == old(scheduled) && callbacks == old(callbacks)
    {
      if initialized {
        return;
      }
      overlayOpacity := Finite(0.0);
      listening := true;
      initialized := true;
    }

    /** `destroy`: every listener goes, the transform is cleared, and `init` may run again. */
    method Destroy()
      modifies this
      ensures !initialized && !listening && !documentListening && offset == 0
      ensures isDragging == old(isDragging) && startX == old(startX) && startY == old(startY)
      ensures currentX == old(currentX) && currentY == old(currentY)
      ensures deltaX == old(deltaX) && deltaY == old(deltaY)
      ensures elementOpacity == old(elementOpacity) && overlayOpacity == old(overlayOpacity)
      ensures overlayLabel == old(overlayLabel) && scheduled == old(scheduled) && callbacks == old(callbacks)
    {
      listening := false;
      documentListening := false;
      offset := 0;
      initialized := false;
    }

    /** `startSwipe`: dragging from (x, y) with zero deltas. */
    method StartSwipe(x: int, y: int)
      modifies this
      ensures isDragging && startX == x && startY == y && currentX == x && currentY == y
      ensures deltaX == 0 && deltaY == 0
      ensures callbacks == old(callbacks) + [SwipeStart]
      ensures initialized == old(initialized) && listening == old(listening)
      ensures documentListening == old(documentListening) && offset == old(offset)
      ensures elementOpacity == old(elementOpacity) && overlayOpacity == old(overlayOpacity)
      ensures overlayLabel == old(overlayLabel) && scheduled == old(scheduled)
      ensures Valid()
    {
      isDragging := true;
      startX, startY := x, y;
      currentX, currentY := x, y;
      deltaX, deltaY := 0, 0;
      callbacks := callbacks + [SwipeStart];
    }

    method HandleTouchStart(x: int, y: int)
      modifies this
      ensures isDragging && startX == x && startY == y && deltaX == 0 && deltaY == 0
      ensures callbacks == old(callbacks) + [SwipeStart]
      ensures documentListening == old(documentListening) && scheduled == old(scheduled)
      ensures Valid()
    {
      StartSwipe(x, y);
    }

    /** Mouse-down starts a drag only for the main button. */
    method HandleMouseDown(button: int, x: int, y: int)
      modifies this
      ensures button != 0 ==> isDragging == old(isDragging) && startX == old(startX) && startY == old(startY)
                              && callbacks == old(callbacks) && documentListening == old(documentListening)
      ensures button == 0 ==> isDragging && startX == x && startY == y && deltaX == 0 && deltaY == 0
                              && callbacks == old(callbacks) + [SwipeStart] && documentListening
      ensures deltaX == (if button == 0 then 0 else old(deltaX)) && scheduled == old(scheduled)
      ensures old(Valid()) ==> Valid()
    {
      if button != 0 {
        return;
      }
      StartSwipe(x, y);
      documentListening := true;
    }

    /** `updateOverlay`: tint and overlayLabel by direction, opacity from the progress. */
    method UpdateOverlay(direction: Direction, progress: Ratio)
      requires !progress.Infinite?
      modifies this
      ensures overlayOpacity == Opacity(progress) && overlayLabel == Label(direction)
      ensures isDragging == old(isDragging) && startX == old(startX) && startY == old(startY)
      ensures currentX == old(currentX) && currentY == old(currentY)
      ensures deltaX == old(deltaX) && deltaY == old(deltaY)
      ensures initialized == old(initialized) && listening == old(listening)
      ensures documentListening == old(documentListening) && offset == old(offset)
      ensures elementOpacity == old(elementOpacity) && scheduled == old(scheduled) && callbacks == old(callbacks)
    {
      overlayOpacity := Opacity(progress);
      overlayLabel := Label(direction);
    }

    /**
     * `updateSwipe`: the deltas follow the pointer; a mostly vertical move
     * stops there, any other one moves the element and reports the move.
     * The animation frame is taken to run at once.
     */
    method UpdateSwipe(x: int, y: int, width: nat)
      modifies this
      ensures currentX == x && currentY == y
      ensures deltaX == x - old(startX) && deltaY == y - old(startY)
      ensures Abs(deltaX) < Abs(deltaY) ==>
                callbacks == old(callbacks) && offset == old(offset)
                && overlayOpacity == old(overlayOpacity) && overlayLabel == old(overlayLabel)
      ensures Abs(deltaX) >= Abs(deltaY) ==>
                callbacks == old(callbacks) + [SwipeMove(deltaX, DirectionOf(deltaX), Progress(deltaX, width))]
                && offset == deltaX
                && overlayOpacity == Opacity(Progress(deltaX, width)) && overlayLabel == Label(DirectionOf(deltaX))
      ensures isDragging == old(isDragging) && startX == old(startX) && startY == old(startY)
      ensures initialized == old(initialized) && listening == old(listening)
      ensures documentListening == old(documentListening) && elementOpacity == old(elementOpacity)
      ensures scheduled == old(scheduled)
      ensures Valid()
    {
      currentX, currentY := x, y;
      deltaX := x - startX;
      deltaY := y - startY;
      if Abs(deltaX) < Abs(deltaY) {
        return;
      }
      var progress := Progress(deltaX, width);
      var direction := DirectionOf(deltaX);
      offset := deltaX;
      UpdateOverlay(direction, progress);
      callbacks := callbacks + [SwipeMove(deltaX, direction, progress)];
    }

    /**
     * A touch move: ignored unless dragging; `preventDefault` tells whether
     * page scrolling is suppressed, which happens for a mostly horizontal move.
     */
    method HandleTouchMove(x: int, y: int, width: nat) returns (preventDefault: bool)
      modifies this
      ensures !old(isDragging) ==> preventDefault == false && currentX == old(currentX) && currentY == old(currentY)
                                   && callbacks == old(callbacks)
      ensures old(isDragging) ==> currentX == x && currentY == y
                                  && preventDefault == (Abs(deltaX) > Abs(deltaY))
      ensures isDragging == old(isDragging) && scheduled == old(scheduled)
      ensures old(Valid()) ==> Valid()
    {
      if !isDragging {
        return false;
      }
      UpdateSwipe(x, y, width);
      preventDefault := Abs(deltaX) > Abs(deltaY);
    }

    /** A mouse move on the document: ignored unless dragging. */
    method HandleMouseMove(x: int, y: int, width: nat)
      modifies this
      ensures !old(isDragging) ==> currentX == old(currentX) && currentY == old(currentY) && callbacks == old(callbacks)
      ensures old(isDragging) ==> currentX == x && currentY == y
      ensures isDragging == old(isDragging) && scheduled == old(scheduled)
      ensures old(Valid()) ==> Valid()
    {
      if !isDragging {
        return;
      }
      UpdateSwipe(x, y, width);
    }

    /** `animateOffScreen`: slide out past the edge; the callback fires 300 ms later. */
    method AnimateOffScreen(direction: Direction, width: nat)
      modifies this
      ensures offset == (if direction == Right then width + OffScreenMargin else -(width + OffScreenMargin))
      ensures elementOpacity == 0.0 && scheduled == old(scheduled) + [direction]
      ensures isDragging == old(isDragging) && startX == old(startX) && startY == old(startY)
      ensures currentX == old(currentX) && currentY == old(currentY)
      ensures deltaX == old(deltaX) && deltaY == old(deltaY)
      ensures initialized == old(initialized) && listening == old(listening)
      ensures documentListening == old(documentListening) && overlayOpacity == old(overlayOpacity)
      ensures overlayLabel == old(overlayLabel) && callbacks == old(callbacks)
    {
      offset := if direction == Right then width + OffScreenMargin else -(width + OffScreenMargin);
      elementOpacity := 0.0;
      scheduled := scheduled + [direction];
    }

    /** `cancelSwipe`: back to the start with a clear overlay. */
    method CancelSwipe()
      modifies this
      ensures offset == 0 && overlayOpacity == Finite(0.0)
      ensures callbacks == old(callbacks) + [SwipeCancel]
      ensures isDragging == old(isDragging) && startX == old(startX) && startY == old(startY)
      ensures currentX == old(currentX) && currentY == old(currentY)
      ensures deltaX == old(deltaX) && deltaY == old(deltaY)
      ensures initialized == old(initialized) && listening == old(listening)
      ensures documentListening == old(documentListening) && elementOpacity == old(elementOpacity)
      ensures overlayLabel == old(overlayLabel) && scheduled == old(scheduled)
    {
      offset := 0;
      overlayOpacity := Finite(0.0);
      callbacks := callbacks + [SwipeCancel];
    }

    /**
     * `endSwipe`: the drag always ends; a swipe schedules the callback of its
     * direction, anything shorter cancels.
     */
    method EndSwipe(width: nat)
      modifies this
      ensures !isDragging
      ensures IsSwipe(old(deltaX), width, threshold, minDistance) ==>
                scheduled == old(scheduled) + [DirectionOf(old(deltaX))] && callbacks == old(callbacks)
      ensures !IsSwipe(old(deltaX), width, threshold, minDistance) ==>
                scheduled == old(scheduled) && callbacks == old(callbacks) + [SwipeCancel] && offset == 0
      ensures startX == old(startX) && startY == old(startY) && currentX == old(currentX) && currentY == old(currentY)
      ensures deltaX == old(deltaX) && deltaY == old(deltaY)
      ensures initialized == old(initialized) && listening == old(listening)
      ensures documentListening == old(documentListening)
      ensures old(Valid()) ==> Valid()
    {
      var direction := DirectionOf(deltaX);
      isDragging := false;
      if IsSwipe(deltaX, width, threshold, minDistance) {
        AnimateOffScreen(direction, width);
      } else {
        CancelSwipe();
      }
    }

    /** A touch end or cancel: ignored unless dragging. */
    method HandleTouchEnd(width: nat)
      modifies this
      ensures !isDragging
      ensures !old(isDragging) ==> scheduled == old(scheduled) && callbacks == old(callbacks)
      ensures old(isDragging) && IsSwipe(old(deltaX), width, threshold, minDistance) ==>
                scheduled == old(scheduled) + [DirectionOf(old(deltaX))]
      ensures old(isDragging) && !IsSwipe(old(deltaX), width, threshold, minDistance) ==>
                callbacks == old(callbacks) + [SwipeCancel]
      ensures documentListening == old(documentListening)
      ensures old(Valid()) ==> Valid()
    {
      if !isDragging {
        return;
      }
      EndSwipe(width);
    }

    /** A mouse up on the document: ignored unless dragging; ends the drag and detaches the document listeners. */
    method HandleMouseUp(width: nat)
      modifies this
      ensures !isDragging
      ensures !old(isDragging) ==> scheduled == old(scheduled) && callbacks == old(callbacks)
                                   && documentListening == old(documentListening)
      ensures old(isDragging) ==> !documentListening
      ensures old(isDragging) && IsSwipe(old(deltaX), width, threshold, minDistance) ==>
                scheduled == old(scheduled) + [DirectionOf(old(deltaX))]
      ensures old(isDragging) && !IsSwipe(old(deltaX), width, threshold, minDistance) ==>
                callbacks == old(callbacks) + [SwipeCancel]
      ensures old(Valid()) ==> Valid()
    {
      if !isDragging {
        return;
      }
      documentListening := false;
      EndSwipe(width);
    }

    /** The slide-out timeout fires: the oldest scheduled swipe reaches its callback. */
    method OnSlideOutDone()
      requires scheduled != []
      modifies this
      ensures scheduled == old(scheduled[1..])
      ensures callbacks == old(callbacks) + [if old(scheduled[0]) == Right then SwipedRight else SwipedLeft]
      ensures isDragging == old(isDragging) && offset == old(offset) && deltaX == old(deltaX)
      ensures old(Valid()) ==> Valid()
    {
      var direction := scheduled[0];
      scheduled := scheduled[1..];
      callbacks := callbacks + [if direction == Right then SwipedRight else SwipedLeft];
    }

    /** `reset`: the element back in place and opaque, the overlay clear. */
    method Reset()
      modifies this
      ensures offset == 0 && elementOpacity == 1.0 && overlayOpacity == Finite(0.0)
      ensures isDragging == old(isDragging) && deltaX == old(deltaX) && deltaY == old(deltaY)
      ensures scheduled == old(scheduled) && callbacks == old(callbacks)
      ensures old(Valid()) ==> Valid()
    {
      offset := 0;
      elementOpacity := 1.0;
      overlayOpacity := Finite(0.0);
    }
  }

  /** A zero option is falsy and takes the default, exactly as a missing one does. */
  lemma ZeroOptionTakesDefault()
    ensures OrDefault(Some(0.0), DefaultThreshold) == OrDefault(None, DefaultThreshold) == DefaultThreshold
    ensures OrDefault(Some(0.0), DefaultMinDistance) == OrDefault(None, DefaultMinDistance) == DefaultMinDistance
  {
  }

  /** Progress is a number in [0, 1], except `NaN` for a zero move over a zero width. */
  lemma ProgressInUnitInterval(dx: int, width: nat)
    ensures Progress(dx, width).NotANumber? <==> width == 0 && dx == 0
    ensures !Progress(dx, width).Infinite?
    ensures Progress(dx, width).Finite? ==> 0.0 <= Progress(dx, width).value <= 1.0
    ensures Progress(dx, width) == Finite(1.0) <==> Abs(dx) >= width && !(width == 0 && dx == 0)
  {
    if width > 0 {
      var f := Abs(dx) as real / width as real;
      if Abs(dx) >= width {
        assert f >= 1.0;
      } else {
        assert f * width as real == Abs(dx) as real;
        assert f < 1.0;
      }
    }
  }

  /** The overlay opacity is a number in [0, 0.8] whenever the progress is. */
  lemma OpacityBounded(dx: int, width: nat)
    requires !(width == 0 && dx == 0)
    ensures Progress(dx, width).Finite? && Opacity(Progress(dx, width)).Finite?
    ensures 0.0 <= Opacity(Progress(dx, width)).value <= MaxOpacity
  {
    ProgressInUnitInterval(dx, width);
  }

  /**
   * A swipe is recognised exactly when the pointer moved at least the
   * minimum distance and a fraction of the width of at least the threshold;
   * over a zero width any non-zero move reaches every threshold.
   */
  lemma SwipeIff(dx: int, width: nat, threshold: real, minDistance: real)
    ensures IsSwipe(dx, width, threshold, minDistance) <==>
              Abs(dx) as real >= minDistance
              && (if width == 0 then dx != 0 else Abs(dx) as real >= threshold * width as real)
  {
    if width > 0 {
      var f := Abs(dx) as real / width as real;
      assert f * width as real == Abs(dx) as real;
      assert f >= threshold <==> f * width as real >= threshold * width as real;
    }
  }

  /** With the defaults, a 200-pixel-wide card needs an 80-pixel drag: the threshold dominates. */
  lemma DefaultSwipeOnNarrowCard()
    ensures IsSwipe(80, 200, DefaultThreshold, DefaultMinDistance)
    ensures !IsSwipe(79, 200, DefaultThreshold, DefaultMinDistance)
    ensures !IsSwipe(-79, 200, DefaultThreshold, DefaultMinDistance)
  {
    SwipeIff(80, 200, DefaultThreshold, DefaultMinDistance);
    SwipeIff(79, 200, DefaultThreshold, DefaultMinDistance);
    SwipeIff(-79, 200, DefaultThreshold, DefaultMinDistance);
  }
}
