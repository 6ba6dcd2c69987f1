/** The drawing surface, seen as the sequence of drawing calls made on it. */
module Canvas {

  datatype Color = White | Green | RosyBrown | Rgb(r: int, g: int, b: int)

  datatype Command =
    | Text(x: int, y: int, text: string, color: Color)
    | Point(x: int, y: int, color: Color)
    | CircleFilled(x: int, y: int, radius: int, color: Color)
}
