/** Points and sizes on the Konva stage. */
module Geometry {
  datatype Point = Point(x: real, y: real)

  datatype Dimensions = Dimensions(width: real, height: real)
}
