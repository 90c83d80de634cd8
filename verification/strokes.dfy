/** The stroke vocabulary of the web client (apps/web/types/canvasTools.ts):
    a freehand pencil stroke is an ordered list of points with a colour,
    a width and the id of its author. */
module Strokes {

  /** A canvas position in pixels (the pointer's offset in the canvas). */
  datatype Point = Point(x: int, y: int)

  /** The only tool kind the type admits is the literal `"pencil"`. */
  datatype Tool = Pencil {
    function Name(): string { "pencil" }
  }

  datatype Stroke = Stroke(
    id: string,
    tool: Tool,
    points: seq<Point>,
    color: string,
    width: int,
    userId: string)
}
