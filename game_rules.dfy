/** The value-level rules of GameState (src/gamestate.cpp): which pass draws
    an object, the leg sprite of each walk frame, the player sprite, the
    win distance and the exit timer. The class in module Game applies them
    to its fields. */
module GameRules {
  import Point2D
  import opened Point3D
  import opened Canvas
  import opened Constants
  import opened DrawHelpers
  import opened Objects

  // ---------------------------------------------------------------------
  // Draw passes

  /** project_info_t: the screen point of a world point, and its signed
      depth along the camera normal, (point - player_pos) . normal. */
  datatype ProjectionInfo = ProjectionInfo(projection: Point2D.Point2, distance: real)

  /** get_projection_info for a camera at `pos` looking along `normal`. The
      depth is exact; the screen point comes from the float oracle. */
  function ProjectionInfoOf(ops: FloatOps, pos: Point3F, normal: Point3F, point: Point3F): ProjectionInfo {
    ProjectionInfo(ops.project(pos, normal, point), Dot(Sub(point, pos), normal))
  }

  /** The foreground pass takes the objects of depth zero or more; the
      background pass takes those of negative depth. (The comment on
      project_info_t says a negative depth is in front; the passes do the
      opposite, and this model follows the passes.) */
  predicate InForeground(info: ProjectionInfo) {
    info.distance >= 0.0
  }

  /** What one object adds to the foreground (`front`) or background pass. */
  function ObjectPass(o: WorldObject, info: ProjectionInfo, front: bool): seq<Command> {
    if InForeground(info) != front then []
    else if front then DrawForeground(o, info.projection)
    else DrawBackground(o, info.projection)
  }

  /** The calls draw_objects_foreground (`front`) or
      draw_objects_background makes for `objs`, in order. */
  function PassCommands(objs: seq<WorldObject>, ops: FloatOps, pos: Point3F, normal: Point3F, front: bool): seq<Command>
  {
    if |objs| == 0 then []
    else
      var last := objs[|objs| - 1];
      PassCommands(objs[..|objs| - 1], ops, pos, normal, front)
        + ObjectPass(last, ProjectionInfoOf(ops, pos, normal, last.position), front)
  }

  /** The objects a pass draws, in order. */
  function Selected(objs: seq<WorldObject>, ops: FloatOps, pos: Point3F, normal: Point3F, front: bool): seq<WorldObject>
  {
    if |objs| == 0 then []
    else
      var last := objs[|objs| - 1];
      Selected(objs[..|objs| - 1], ops, pos, normal, front)
        + (if InForeground(ProjectionInfoOf(ops, pos, normal, last.position)) == front then [last] else [])
  }

  /** The draw calls of the objects in `sel`, each in pass `front`. */
  function DrawEach(sel: seq<WorldObject>, ops: FloatOps, pos: Point3F, normal: Point3F, front: bool): seq<Command>
  {
    if |sel| == 0 then []
    else
      var last := sel[|sel| - 1];
      var p := ProjectionInfoOf(ops, pos, normal, last.position).projection;
      DrawEach(sel[..|sel| - 1], ops, pos, normal, front)
        + (if front then DrawForeground(last, p) else DrawBackground(last, p))
  }

  /** Every object is drawn in exactly one of the two passes: together the
      passes select each object once, the foreground one those of depth
      zero or more and the background one those of negative depth. */
  lemma {:induction false} PassesPartition(objs: seq<WorldObject>, ops: FloatOps, pos: Point3F, normal: Point3F)
    ensures multiset(Selected(objs, ops, pos, normal, true)) + multiset(Selected(objs, ops, pos, normal, false))
         == multiset(objs)
    ensures forall o :: o in Selected(objs, ops, pos, normal, true) ==> Dot(Sub(o.position, pos), normal) >= 0.0
    ensures forall o :: o in Selected(objs, ops, pos, normal, false) ==> Dot(Sub(o.position, pos), normal) < 0.0
  {
    if |objs| > 0 {
      var init := objs[..|objs| - 1];
      PassesPartition(init, ops, pos, normal);
      assert objs == init + [objs[|objs| - 1]];
    }
  }

  /** A pass is the draw calls of exactly the objects it selects. */
  lemma {:induction false} PassDrawsSelected(objs: seq<WorldObject>, ops: FloatOps, pos: Point3F, normal: Point3F, front: bool)
    ensures PassCommands(objs, ops, pos, normal, front) == DrawEach(Selected(objs, ops, pos, normal, front), ops, pos, normal, front)
  {
    if |objs| > 0 {
      var init := objs[..|objs| - 1];
      var last := objs[|objs| - 1];
      PassDrawsSelected(init, ops, pos, normal, front);
      var s := Selected(init, ops, pos, normal, front);
      if InForeground(ProjectionInfoOf(ops, pos, normal, last.position)) == front {
        assert (s + [last])[..|s|] == s;
      } else {
        assert s + [] == s;
      }
    }
  }

  // ---------------------------------------------------------------------
  // Leg sprite

  /** get_legs_str_left: the legs of each walk frame when facing left, and
      an empty string for a frame outside the cycle. */
  function LegsLeft(stepFrame: int): (s: string)
    ensures |s| == 3 <==> 0 <= stepFrame < StepFrameCount
    ensures s == "" <==> !(0 <= stepFrame < StepFrameCount)
    ensures NoNewline(s)
  {
    match stepFrame
    case 0 => "/ \\"
    case 1 => " |\\"
    case 2 => " | "
    case 3 => "/| "
    case _ => ""
  }

  /** The slash patch of get_legs_str: '/' and '\' trade places, any other
      character stays. */
  function SwapSlash(c: char): (d: char)
    ensures (c == '/' <==> d == '\\') && (c == '\\' <==> d == '/')
    ensures c != '/' && c != '\\' ==> d == c
  {
    if c == '\\' then '/' else if c == '/' then '\\' else c
  }

  /** A sprite seen in a mirror: reversed, with the slashes swapped. */
  function Mirrored(s: string): (m: string)
    ensures |m| == |s|
  {
    seq(|s|, i requires 0 <= i < |s| => SwapSlash(s[|s| - 1 - i]))
  }

  /** Mirroring twice gives the sprite back. */
  lemma MirroredTwice(s: string)
    ensures Mirrored(Mirrored(s)) == s
  {
    var m := Mirrored(s);
    forall i | 0 <= i < |s|
      ensures Mirrored(m)[i] == s[i]
    {
      var j := |s| - 1 - i;
      assert m[j] == SwapSlash(s[|s| - 1 - j]);
      assert |s| - 1 - j == i;
      assert Mirrored(m)[i] == SwapSlash(m[j]);
    }
  }

  /** A mirrored sprite has a line break where the original has one. */
  lemma MirroredKeepsLines(s: string)
    ensures NoNewline(s) <==> NoNewline(Mirrored(s))
  {
    var m := Mirrored(s);
    if '\n' in s {
      var k :| 0 <= k < |s| && s[k] == '\n';
      var j := |s| - 1 - k;
      assert m[j] == SwapSlash(s[|s| - 1 - j]);
      assert |s| - 1 - j == k;
    }
    if '\n' in m {
      var k :| 0 <= k < |m| && m[k] == '\n';
      assert m[k] == SwapSlash(s[|s| - 1 - k]);
    }
  }

  /** get_legs_str: the left-facing legs, mirrored when facing right. */
  function Legs(facingRight: bool, stepFrame: int): string {
    if facingRight then Mirrored(LegsLeft(stepFrame)) else LegsLeft(stepFrame)
  }

  /** Facing right, the four frames are "/ \", "/| ", " | " and " |\": the
      left cycle with frames 1 and 3 traded. */
  lemma LegsRightFrames()
    ensures Legs(true, 0) == "/ \\" && Legs(true, 1) == "/| "
    ensures Legs(true, 2) == " | " && Legs(true, 3) == " |\\"
    ensures forall f :: 0 <= f < StepFrameCount ==> |Legs(true, f)| == |Legs(false, f)| == 3
  {
    assert Legs(true, 0) == [SwapSlash('\\'), SwapSlash(' '), SwapSlash('/')];
    assert Legs(true, 1) == [SwapSlash('\\'), SwapSlash('|'), SwapSlash(' ')];
    assert Legs(true, 2) == [SwapSlash(' '), SwapSlash('|'), SwapSlash(' ')];
    assert Legs(true, 3) == [SwapSlash(' '), SwapSlash('|'), SwapSlash('/')];
  }

  // ---------------------------------------------------------------------
  // Player sprite

  /** The head: looking right or left. */
  function Head(facingRight: bool): string {
    if facingRight then " O>" else "<O"
  }

  const Body: string := "/|\\"

  /** The string draw_player formats: head, body and legs on three lines. */
  function PlayerSprite(facingRight: bool, stepFrame: int): string {
    JoinLines([Head(facingRight), Body, Legs(facingRight, stepFrame)])
  }

  /** `fmt::format("{}\n{}\n{}", head, body, legs)` is the sprite. */
  lemma PlayerSpriteFormat(facingRight: bool, stepFrame: int)
    ensures Head(facingRight) + "\n" + Body + "\n" + Legs(facingRight, stepFrame) == PlayerSprite(facingRight, stepFrame)
  {
    var lines := [Head(facingRight), Body, Legs(facingRight, stepFrame)];
    assert JoinLines(lines[2..]) == lines[2];
    assert JoinLines(lines[1..]) == Body + "\n" + lines[2];
  }

  /** Three newline-free lines drawn by draw_chars: the last on the anchor
      row, the others one and two rows above it. */
  lemma ThreeRows(p: Point2D.Point2, color: Color, a: string, b: string, c: string)
    requires NoNewline(a) && NoNewline(b) && NoNewline(c)
    ensures var cmds := DrawCharsSpec(p, color, JoinLines([a, b, c]));
      && |cmds| == 3
      && cmds[0] == Text(p.x, QuantizeRow(p.y) - 2 * RowHeight, a, color)
      && cmds[1] == Text(p.x, QuantizeRow(p.y) - RowHeight, b, color)
      && cmds[2] == Text(p.x, QuantizeRow(p.y), c, color)
  {
    var lines := [a, b, c];
    DrawCharsOfLines(p, color, JoinLines(lines), lines);
    assert lines[0] == a && lines[1] == b && lines[2] == c;
  }

  /** The player is three white lines: the legs on the anchor row of its
      screen point, the body one row up and the head two rows up. */
  lemma PlayerRows(p: Point2D.Point2, facingRight: bool, stepFrame: int)
    ensures var cmds := DrawCharsSpec(p, White, PlayerSprite(facingRight, stepFrame));
      && |cmds| == 3
      && cmds[0] == Text(p.x, QuantizeRow(p.y) - 2 * RowHeight, Head(facingRight), White)
      && cmds[1] == Text(p.x, QuantizeRow(p.y) - RowHeight, Body, White)
      && cmds[2] == Text(p.x, QuantizeRow(p.y), Legs(facingRight, stepFrame), White)
  {
    MirroredKeepsLines(LegsLeft(stepFrame));
    ThreeRows(p, White, Head(facingRight), Body, Legs(facingRight, stepFrame));
  }

  // ---------------------------------------------------------------------
  // Winning and leaving

  /** The win test `(player_pos - exit.position).length() < win_threshold`,
      on squares: a length below 5 is a squared length below 25. */
  predicate NearExit(playerPos: Point3F, exitPos: Point3F) {
    SqLength(Sub(playerPos, exitPos)) < WinThreshold * WinThreshold
  }

  /** is_done: won, and more than two seconds since the win. */
  predicate Done(isWin: bool, winTime: int, now: int) {
    isWin && now - winTime > ExitThresholdMs
  }

  /** Never done before the win, and never in the two seconds after it. */
  lemma NotDoneEarly(isWin: bool, winTime: int, now: int)
    ensures !isWin ==> !Done(isWin, winTime, now)
    ensures now <= winTime + ExitThresholdMs ==> !Done(isWin, winTime, now)
    ensures isWin && now > winTime + ExitThresholdMs ==> Done(isWin, winTime, now)
  {
  }

  /** Once done, done at every later time. */
  lemma DoneStaysDone(isWin: bool, winTime: int, now: int, later: int)
    requires Done(isWin, winTime, now) && now <= later
    ensures Done(isWin, winTime, later)
  {
  }
}
