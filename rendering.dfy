/** Abstract stand-ins for the rendering back-end's value types (Cairo.PointD, Cairo.Color). */
module Rendering {

  datatype Point = Point(x: real, y: real)

  /** The value of a PointD that was never assigned. */
  const Origin := Point(0.0, 0.0)

  datatype Color = Color(r: real, g: real, b: real)
}
