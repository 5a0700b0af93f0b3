/**
 * Screen-space geometry shared by the two CPU charts: points and the SVG path
 * commands they emit (moveto, lineto, cubic curveto and closepath of section 8.3
 * of SVG 1.1), kept as data instead of the path strings the components print.
 */
module Geometry {
  import opened Wrappers

  datatype Point = Point(x: real, y: real)

  datatype PathCmd =
    | M(x: real, y: real)
    | L(x: real, y: real)
    | C(x1: real, y1: real, x2: real, y2: real, x: real, y: real)
    | Z

  /** The current point after a command; closepath has none of its own. */
  function Endpoint(c: PathCmd): (p: Option<Point>)
    ensures p.None? <==> c.Z?
  {
    if c.Z? then None else Some(Point(c.x, c.y))
  }
}
