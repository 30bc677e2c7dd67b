/**
 * The magnetic button: while the pointer moves over it, the button is offset
 * by 0.4 times the pointer's distance from the button's centre; it snaps back
 * when the pointer leaves; a click spawns a particle burst at the centre and
 * calls the optional `onClick` callback. The element's bounding box is passed
 * in, `None` standing for a ref that is not attached yet.
 */
module Magnetic {
  import opened Wrappers

  /** The magnetic pull strength. */
  const Pull: real := 0.4

  datatype Point = Point(x: real, y: real)

  /** `getBoundingClientRect()`: `left`, `top`, `width`, `height`. */
  datatype Rect = Rect(left: real, top: real, width: real, height: real)

  function Center(r: Rect): Point {
    Point(r.left + r.width / 2.0, r.top + r.height / 2.0)
  }

  /**
   * The offset along one axis for a pointer at `pointer` over an element
   * spanning `size` from `start`: zero at the centre, towards the pointer, and
   * covering only part of the way.
   */
  function Offset(pointer: real, start: real, size: real): (d: real)
    ensures pointer == start + size / 2.0 ==> d == 0.0
    ensures pointer > start + size / 2.0 ==> 0.0 < d < pointer - (start + size / 2.0)
    ensures pointer < start + size / 2.0 ==> pointer - (start + size / 2.0) < d < 0.0
  {
    (pointer - (start + size / 2.0)) * Pull
  }

  /** The pointer position that produces a given offset. */
  function PointerFor(d: real, start: real, size: real): (pointer: real)
    ensures Offset(pointer, start, size) == d
  {
    start + size / 2.0 + d / Pull
  }

  /** Doubling the pointer's distance from the centre doubles the offset: the pull is linear. */
  lemma OffsetLinear(a: real, b: real, start: real, size: real)
    requires a - (start + size / 2.0) == 2.0 * (b - (start + size / 2.0))
    ensures Offset(a, start, size) == 2.0 * Offset(b, start, size)
  {
  }

  /** The offset applied for a pointer at `(clientX, clientY)` over `rect`. */
  function PullTowards(clientX: real, clientY: real, rect: Rect): (p: Point)
    ensures clientX == Center(rect).x && clientY == Center(rect).y ==> p == Point(0.0, 0.0)
  {
    Point(Offset(clientX, rect.left, rect.width), Offset(clientY, rect.top, rect.height))
  }

  class MagneticButton {
    var position: Point
    /** Whether an `onClick` prop was given. */
    const hasOnClick: bool
    /** How many times `onClick` has been called. */
    var clickCalls: nat

    /** `useState({ x: 0, y: 0 })`. */
    constructor (hasOnClick: bool)
      ensures position == Point(0.0, 0.0) && clickCalls == 0
      ensures this.hasOnClick == hasOnClick
    {
      position := Point(0.0, 0.0);
      this.hasOnClick := hasOnClick;
      clickCalls := 0;
    }

    /** `handleMouseMove`: without an element nothing changes. */
    method HandleMouseMove(clientX: real, clientY: real, element: Option<Rect>)
      modifies this
      ensures element.None? ==> position == old(position)
      ensures element.Some? ==> position == PullTowards(clientX, clientY, element.value)
      ensures clickCalls == old(clickCalls)
    {
      if element.None? {
        return;
      }
      var r := element.value;
      var centerX := r.left + r.width / 2.0;
      var centerY := r.top + r.height / 2.0;
      position := Point((clientX - centerX) * Pull, (clientY - centerY) * Pull);
    }

    /** `handleMouseLeave`: back to rest from any state. */
    method HandleMouseLeave()
      modifies this
      ensures position == Point(0.0, 0.0)
      ensures clickCalls == old(clickCalls)
    {
      position := Point(0.0, 0.0);
    }

    /**
     * `handleClick`: without an element nothing happens; otherwise a burst is
     * spawned at the element's centre (returned) and `onClick`, when given,
     * is called once.
     */
    method HandleClick(element: Option<Rect>) returns (burst: Option<Point>)
      modifies this
      ensures element.None? ==> burst == None && clickCalls == old(clickCalls)
      ensures element.Some? ==> burst == Some(Center(element.value))
      ensures element.Some? ==> clickCalls == old(clickCalls) + (if hasOnClick then 1 else 0)
      ensures position == old(position)
    {
      if element.None? {
        return None;
      }
      burst := Some(Center(element.value));
      if hasOnClick {
        clickCalls := clickCalls + 1;
      }
    }
  }
}
