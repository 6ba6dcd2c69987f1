/** The world objects (src/objects): grass tufts, trees and the exit. Each is
    drawn by one of two passes, the foreground one or the background one,
    at the screen point the camera gives it. */
module Objects {
  import opened Point2D
  import opened Point3D
  import opened Canvas
  import opened DrawHelpers
  import opened Constants

  /** object_t with its three subclasses; a grass tuft keeps the glyph its
      constructor chose. */
  datatype WorldObject =
    | Grass(position: Point3F, glyph: string)
    | Tree(position: Point3F)
    | Exit(position: Point3F)

  /** The glyph for each kind of grass tuft: leaning right or left. */
  const GrassRight: string := "///"
  const GrassLeft: string := "\\\\\\"

  /** The tree sprite, line by line. Its raw string literal starts with a
      line break, so the first of its five lines is empty. */
  const TreeLines: seq<string> := ["", " /\\", "/||\\", "/||\\", " ||"]
  const TreeGlyph: string := JoinLines(TreeLines)

  /** The exit sprite: a door of four lines. */
  const ExitLines: seq<string> := ["/-\\", "| |", "| |", "\\-/"]
  const ExitGlyph: string := JoinLines(ExitLines)

  const TreeForeground: Color := Rgb(48, 150, 0)
  const TreeBackground: Color := Rgb(32, 90, 0)
  const ExitForeground: Color := Rgb(0, 0, 255)
  const ExitBackground: Color := Rgb(0, 0, 192)

  /** The glyph switch of grass_t's constructor: type 0 leans right, type 1
      leans left and any other type leaves the glyph empty. */
  function GrassGlyph(grassType: int): (g: string)
    ensures g == GrassRight <==> grassType == 0
    ensures g == GrassLeft <==> grassType == 1
    ensures g == "" <==> grassType != 0 && grassType != 1
    ensures NoNewline(g)
  {
    match grassType
    case 0 => GrassRight
    case 1 => GrassLeft
    case _ => ""
  }

  /** grass_t(pos, grass_type): the tuft stands where it was put and is
      visible exactly when its type is one the switch knows. */
  function MakeGrass(pos: Point3F, grassType: int): (o: WorldObject)
    ensures o.Grass? && o.position == pos
    ensures o.glyph != "" <==> grassType == 0 || grassType == 1
    ensures |o.glyph| == 3 || o.glyph == ""
  {
    Grass(pos, GrassGlyph(grassType))
  }

  /** The colour each kind of object is drawn in by each pass. */
  function PassColor(o: WorldObject, front: bool): Color {
    match o
    case Grass(_, _) => Green
    case Tree(_) => if front then TreeForeground else TreeBackground
    case Exit(_) => if front then ExitForeground else ExitBackground
  }

  /** draw_foreground of each kind of object: always at least one text, at
      the point's column and in the kind's foreground colour. A tuft is one
      text on the point's own row; a tree or the exit stands with its last
      line on the row-quantized anchor. */
  function DrawForeground(o: WorldObject, p: Point2): (cmds: seq<Command>)
    ensures |cmds| >= 1
    ensures forall i :: 0 <= i < |cmds| ==>
      cmds[i].Text? && cmds[i].x == p.x && cmds[i].color == PassColor(o, true)
    ensures o.Grass? ==> |cmds| == 1 && cmds[0].y == p.y && cmds[0].text == o.glyph
    ensures !o.Grass? ==> cmds[|cmds| - 1].y == QuantizeRow(p.y)
  {
    match o
    case Grass(_, glyph) => [Text(p.x, p.y, glyph, Green)]
    case Tree(_) =>
      DrawCharsShape(p, TreeForeground, TreeGlyph);
      DrawCharsSpec(p, TreeForeground, TreeGlyph)
    case Exit(_) =>
      DrawCharsShape(p, ExitForeground, ExitGlyph);
      DrawCharsSpec(p, ExitForeground, ExitGlyph)
  }

  /** draw_background of each kind of object: nothing exactly for grass;
      otherwise texts at the point's column in the kind's background
      colour, the last on the row-quantized anchor. */
  function DrawBackground(o: WorldObject, p: Point2): (cmds: seq<Command>)
    ensures o.Grass? ==> cmds == []
    ensures !o.Grass? ==> |cmds| >= 1
    ensures forall i :: 0 <= i < |cmds| ==>
      cmds[i].Text? && cmds[i].x == p.x && cmds[i].color == PassColor(o, false)
    ensures !o.Grass? ==> cmds[|cmds| - 1].y == QuantizeRow(p.y)
  {
    match o
    case Grass(_, _) => []
    case Tree(_) =>
      DrawCharsShape(p, TreeBackground, TreeGlyph);
      DrawCharsSpec(p, TreeBackground, TreeGlyph)
    case Exit(_) =>
      DrawCharsShape(p, ExitBackground, ExitGlyph);
      DrawCharsSpec(p, ExitBackground, ExitGlyph)
  }

  /** Splitting a string made by joining newline-free lines gives those
      lines back, one newline fewer than lines. */
  lemma GlyphLines(str: string, lines: seq<string>)
    requires |lines| >= 1 && str == JoinLines(lines)
    requires forall i :: 0 <= i < |lines| ==> NoNewline(lines[i])
    ensures CountNewlines(str) == |lines| - 1
    ensures LinesFrom(str, 0) == lines
  {
    LinesOfJoinLines(lines);
    LinesCount(str, 0);
    assert str[0..] == str;
  }

  /** The calls of draw_chars for a string whose lines are known. */
  lemma DrawCharsByLines(p: Point2, color: Color, str: string, lines: seq<string>)
    requires LinesFrom(str, 0) == lines && CountNewlines(str) == |lines| - 1
    ensures var cmds := DrawCharsSpec(p, color, str);
      && |cmds| == |lines|
      && forall i :: 0 <= i < |lines| ==>
           cmds[i] == Text(p.x, QuantizeRow(p.y) - (|lines| - 1 - i) * RowHeight, lines[i], color)
  {
    var cmds := DrawCharsSpec(p, color, str);
    var n := |lines| - 1;
    var top := QuantizeRow(p.y) - n * RowHeight;
    forall i | 0 <= i < |lines|
      ensures cmds[i] == Text(p.x, QuantizeRow(p.y) - (n - i) * RowHeight, lines[i], color)
    {
      assert cmds[i] == Text(p.x, top + i * RowHeight, lines[i], color);
      assert top + i * RowHeight == QuantizeRow(p.y) - (n - i) * RowHeight;
    }
  }

  /** The calls draw_chars makes for a string given as its lines: one per
      line, the last on the anchor row and each earlier one a row higher. */
  lemma DrawCharsOfLines(p: Point2, color: Color, str: string, lines: seq<string>)
    requires |lines| >= 1 && str == JoinLines(lines)
    requires forall i :: 0 <= i < |lines| ==> NoNewline(lines[i])
    ensures var cmds := DrawCharsSpec(p, color, str);
      && |cmds| == |lines|
      && forall i :: 0 <= i < |lines| ==>
           cmds[i] == Text(p.x, QuantizeRow(p.y) - (|lines| - 1 - i) * RowHeight, lines[i], color)
  {
    GlyphLines(str, lines);
    DrawCharsByLines(p, color, str, lines);
  }

  /** The sprites are the raw strings of tree.cpp and exit.cpp. */
  lemma SpriteLiterals()
    ensures TreeGlyph == "\n /\\\n/||\\\n/||\\\n ||"
    ensures ExitGlyph == "/-\\\n| |\n| |\n\\-/"
  {
  }

  /** The tree sprite is five lines, the first of them empty. */
  lemma TreeGlyphSplit()
    ensures LinesFrom(TreeGlyph, 0) == TreeLines && TreeLines[0] == ""
    ensures CountNewlines(TreeGlyph) == 4
  {
    GlyphLines(TreeGlyph, TreeLines);
  }

  /** The exit sprite is four lines. */
  lemma ExitGlyphSplit()
    ensures LinesFrom(ExitGlyph, 0) == ExitLines
    ensures CountNewlines(ExitGlyph) == 3
  {
    GlyphLines(ExitGlyph, ExitLines);
  }

  /** A grass tuft is one green text call placed exactly at the point, in
      the foreground only. */
  lemma GrassPasses(pos: Point3F, glyph: string, p: Point2)
    ensures DrawForeground(Grass(pos, glyph), p) == [Text(p.x, p.y, glyph, Green)]
    ensures DrawBackground(Grass(pos, glyph), p) == []
  {
  }

  /** Unlike the sprites, a tuft is not snapped to a text row: at y = 5 it
      stays on 5 where draw_chars would have moved it to 4. */
  lemma GrassIsNotRowAligned()
    ensures DrawForeground(Grass(WorldCenter, GrassRight), Point2(0, 5))
         != DrawCharsSpec(Point2(0, 5), Green, GrassRight)
  {
    DrawCharsOfLines(Point2(0, 5), Green, GrassRight, [GrassRight]);
    assert QuantizeRow(5) == 4;
  }

  /** draw_chars in two colours makes the same calls but for the colour. */
  lemma Recolored(p: Point2, c1: Color, c2: Color, str: string)
    ensures |DrawCharsSpec(p, c1, str)| == |DrawCharsSpec(p, c2, str)|
    ensures forall i :: 0 <= i < |DrawCharsSpec(p, c1, str)| ==>
      var a := DrawCharsSpec(p, c1, str)[i]; DrawCharsSpec(p, c2, str)[i] == Text(a.x, a.y, a.text, c2)
  {
  }

  /** A tree or the exit draws the same lines at the same rows in both
      passes, only in its darker shade in the background one. */
  lemma SpritePasses(o: WorldObject, p: Point2)
    requires !o.Grass?
    ensures var fg := DrawForeground(o, p);
      var bg := DrawBackground(o, p);
      && |fg| == |bg|
      && forall i :: 0 <= i < |fg| ==>
           bg[i] == Text(fg[i].x, fg[i].y, fg[i].text, PassColor(o, false))
  {
    if o.Tree? {
      Recolored(p, TreeForeground, TreeBackground, TreeGlyph);
    } else {
      Recolored(p, ExitForeground, ExitBackground, ExitGlyph);
    }
  }
}
