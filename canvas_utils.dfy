/** Two small helpers of the drawing extractor: painting an RGBA payload onto a canvas
    (drawRgbaOnCanvas) and turning a client position into element coordinates under a CSS
    zoom (layoutMap.getShelfPointer). */
module CanvasUtils {
  import opened Common

  newtype byte = x: int | 0 <= x < 256

  /** What a canvas holds: blank after a clear, a painted RGBA image (four bytes per pixel,
      row by row), or content painted earlier by something else. */
  datatype Content = Blank | Rgba(bytes: seq<byte>) | Earlier(tag: nat)

  datatype Canvas = Canvas(width: nat, height: nat, content: Content)

  /** The outcome of drawRgbaOnCanvas: the canvas afterwards, and whether the ImageData
      constructor threw (it refuses a zero width or height), which leaves the canvas as it
      was. */
  datatype RgbaOutcome = RgbaOutcome(canvas: Canvas, threw: bool)

  /** drawRgbaOnCanvas: a payload of exactly width * height * 4 bytes is painted at that
      size; any other payload resizes the canvas and clears it. */
  function DrawRgba(c: Canvas, width: nat, height: nat, bytes: seq<byte>): (r: RgbaOutcome)
    ensures !r.threw ==> r.canvas.width == width && r.canvas.height == height
    ensures r.canvas.content.Rgba? && !r.threw <==> |bytes| == width * height * 4 && width > 0 && height > 0
    ensures r.canvas.content.Rgba? && !r.threw ==> r.canvas.content.bytes == bytes
    ensures |bytes| != width * height * 4 ==> r.canvas == Canvas(width, height, Blank) && !r.threw
    ensures r.threw ==> r.canvas == c && (width == 0 || height == 0)
  {
    if |bytes| != width * height * 4 then RgbaOutcome(Canvas(width, height, Blank), false)
    else if width == 0 || height == 0 then RgbaOutcome(c, true)
    else RgbaOutcome(Canvas(width, height, Rgba(bytes)), false)
  }

  /** getShelfPointer: the client position relative to the element's top-left corner,
      divided by the zoom; the origin when there is no element. None stands for the
      non-finite result of a zero zoom. */
  function ShelfPointer(element: Option<Rect>, zoom: real, clientX: real, clientY: real): (r: Option<Point>)
    ensures element.None? ==> r == Some(Point(0.0, 0.0))
    ensures element.Some? ==> (r.None? <==> zoom == 0.0)
    ensures element.Some? && r.Some? ==>
              r.value.x * zoom + element.value.x == clientX && r.value.y * zoom + element.value.y == clientY
  {
    if element.None? then Some(Point(0.0, 0.0))
    else if zoom == 0.0 then None
    else Some(Point((clientX - element.value.x) / zoom, (clientY - element.value.y) / zoom))
  }

}
