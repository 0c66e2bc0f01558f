/**
 * Video frames (numpy arrays, described by their shape) and the OpenCV drawing
 * commands the detection overlay puts on a copy of a frame.
 */
module Frames {
  import opened PyJson

  /** What a frame's pixels are: all zeros, or captured content known only by its identity. */
  datatype Pixels = Zeros | Captured(id: nat)

  /** An OpenCV colour, in OpenCV's blue-green-red order. */
  datatype Color = Color(b: int, g: int, r: int)

  const Red := Color(0, 0, 255)
  const Green := Color(0, 255, 0)
  const Black := Color(0, 0, 0)
  const White := Color(255, 255, 255)

  datatype Point = Point(x: int, y: int)

  /** The text of a caption: `"<class_name> <confidence:.2f>"` or `"ID:<object_id>"`. */
  datatype Caption = ClassCaption(className: string, confidence: Json) | IdCaption(id: Json)

  /** One OpenCV drawing call on the display frame. */
  datatype Draw =
    | Box(corner1: Point, corner2: Point, color: Color, thickness: int)   // cv2.rectangle; thickness -1 fills
    | Text(caption: Caption, origin: Point, fontScale: real, color: Color, thickness: int)   // cv2.putText

  /** A numpy image: its shape, its pixels, and the drawing calls made on it so far. */
  datatype Image = Image(shape: seq<int>, pixels: Pixels, drawn: seq<Draw>)

  /** `np.zeros((480, 640, 3), dtype=np.uint8)`. */
  const BlankFrame := Image([480, 640, 3], Zeros, [])

  /** Range of a C `int`: OpenCV refuses point coordinates outside it. */
  predicate IsCInt(v: int) { -0x8000_0000 <= v < 0x8000_0000 }

  predicate PointFits(p: Point) { IsCInt(p.x) && IsCInt(p.y) }

  /** Whether OpenCV accepts the call rather than raising on an out-of-range coordinate. */
  predicate Drawable(d: Draw)
  {
    match d
    case Box(p1, p2, _, _) => PointFits(p1) && PointFits(p2)
    case Text(_, o, _, _, _) => PointFits(o)
  }
}
