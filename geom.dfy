/** Integer points of the diagram plane (the `geom.Point` the node interface uses). */
module Geom {

  /** A point with integer coordinates. Coordinates are unbounded: a translation never wraps around. */
  datatype Point = Point(x: int, y: int) {

    /** This point moved by `dx` along the x-axis and by `dy` along the y-axis. */
    function Translated(dx: int, dy: int): (r: Point)
      ensures r.x - x == dx && r.y - y == dy
    {
      Point(x + dx, y + dy)
    }
  }
}
