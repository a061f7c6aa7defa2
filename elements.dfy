/**
 * The drawing elements a board holds: the six tool items the board knows how
 * to paint, and any other `type` tag an incoming payload may carry.
 */
module Elements {

  datatype Option<T> = None | Some(value: T)

  /** The `type` of an element. Tags outside the six tool items are kept as
      `Unrecognized` so that the renderer can meet them. */
  datatype ElementType =
    | Line
    | Rectangle
    | Circle
    | Arrow
    | Brush
    | Text
    | Unrecognized(tag: string)

  /** The four shapes whose outline is a cached sketch descriptor. */
  predicate IsRoughShape(kind: ElementType) {
    kind.Line? || kind.Rectangle? || kind.Circle? || kind.Arrow?
  }

  /** One of the six tool items the renderer handles. */
  predicate IsKnown(kind: ElementType) {
    !kind.Unrecognized?
  }

  /** A freehand sample, as collected for a BRUSH stroke. */
  datatype Point = Point(x: int, y: int, pressure: int)

  /** A drawing element. `roughEle` stands for the cached sketch descriptor
      produced when the shape was created; it is an opaque handle here. */
  datatype Element = Element(
    id: int,
    kind: ElementType,
    x1: int, y1: int, x2: int, y2: int,
    points: seq<Point>,
    stroke: string,
    size: int,
    text: string,
    roughEle: nat)
}
