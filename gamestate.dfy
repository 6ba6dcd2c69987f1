/** The game session (class GameState, src/gamestate.hpp and
    src/gamestate.cpp): the player's facing, walk frame and place on the
    planet, the generated world with its reference to the exit, the win
    latch and the frame it draws. */
module Game {
  import opened Wrappers
  import Point2D
  import opened Point3D
  import opened Canvas
  import opened Constants
  import opened DrawHelpers
  import opened Objects
  import opened World
  import opened Starfield
  import opened GameRules

  /** The walk frame after one step: one on, back to 0 after the last. */
  function NextStepFrame(f: int): (g: int)
    requires 0 <= f < StepFrameCount
    ensures 0 <= g < StepFrameCount
    ensures g == if f == StepFrameCount - 1 then 0 else f + 1
  {
    (f + 1) % StepFrameCount
  }

  /** Four steps bring the walk back to the frame it started from, through
      every other frame on the way. */
  lemma StepFrameCycle(f: int)
    requires 0 <= f < StepFrameCount
    ensures NextStepFrame(NextStepFrame(NextStepFrame(NextStepFrame(f)))) == f
    ensures f != NextStepFrame(f) && f != NextStepFrame(NextStepFrame(f))
    ensures f != NextStepFrame(NextStepFrame(NextStepFrame(f)))
  {
  }

  /** The walk direction for a facing: the oracle's direction when facing
      right, its opposite when facing left. */
  function Facing(facingRight: bool, dir: Point3F): Point3F {
    if facingRight then dir else Neg(dir)
  }

  const Victory: Command := Text(20, 20, "Victory!", White)

  class GameState {
    var facingRight: bool
    var stepFrame: int
    var playerPos: Point3F
    var object1Pos: Point3F
    var object2Pos: Point3F
    var angle: real
    var playerDir: Point3F
    var playerNormal: Point3F
    /** Times in milliseconds on the steady clock. */
    var lastMoveTime: int
    var curTime: int
    var winTime: int
    /** The non-owning exit_object pointer, as an index into `objects`. */
    var exitObject: Option<nat>
    var isWin: bool
    var objects: seq<WorldObject>
    /** The random engine: its draws, and how many of each it has given. */
    const rng: RandomDraws
    var coordDraws: nat
    var typeDraws: nat

    /** exit_object designates an exit among the objects. */
    ghost predicate ExitRefValid()
      reads this
    {
      exitObject.Some? && exitObject.value < |objects| && objects[exitObject.value].Exit?
    }

    /** What holds between calls once the constructor has run. */
    ghost predicate Valid()
      reads this
    {
      0 <= stepFrame < StepFrameCount && ExitRefValid()
    }

    function ExitPosition(): Point3F
      reads this
      requires ExitRefValid()
    {
      objects[exitObject.value].position
    }

    /** GameState(): the field initialisers, then generate_world. */
    constructor (rng: RandomDraws)
      ensures Valid()
      ensures facingRight && stepFrame == 0 && !isWin
      ensures playerPos == Point3F(WorldCenter.x, WorldCenter.y, WorldCenter.z + WorldRadius)
      ensures object1Pos == Point3F(WorldCenter.x + WorldRadius / 10.0, WorldCenter.y, WorldCenter.z + WorldRadius)
      ensures object2Pos == Point3F(WorldCenter.x - WorldRadius / 5.0, WorldCenter.y, WorldCenter.z + WorldRadius)
      ensures angle == 0.0
      ensures playerDir == Point3F(1.0, 0.0, 0.0) && playerNormal == Point3F(0.0, 1.0, 0.0)
      ensures lastMoveTime == 0 && curTime == 0 && winTime == 0
      ensures this.rng == rng
      ensures objects == WorldFrom(rng, 0, 0) && exitObject == Some(ExitIndex)
      ensures coordDraws == WorldSize && typeDraws == GrassCount
    {
      facingRight := true;
      stepFrame := 0;
      playerPos := Point3F(WorldCenter.x, WorldCenter.y, WorldCenter.z + WorldRadius);
      object1Pos := Point3F(WorldCenter.x + WorldRadius / 10.0, WorldCenter.y, WorldCenter.z + WorldRadius);
      object2Pos := Point3F(WorldCenter.x - WorldRadius / 5.0, WorldCenter.y, WorldCenter.z + WorldRadius);
      angle := 0.0;
      playerDir := Point3F(1.0, 0.0, 0.0);
      playerNormal := Point3F(0.0, 1.0, 0.0);
      lastMoveTime := 0;
      curTime := 0;
      winTime := 0;
      exitObject := None;
      isWin := false;
      objects := [];
      this.rng := rng;
      coordDraws := 0;
      typeDraws := 0;
      new;
      GenerateWorld();
    }

    /** generate_random_coords_on_world: the engine's next point. */
    method NextCoords() returns (p: Point3F)
      modifies this`coordDraws
      ensures p == rng.coord(old(coordDraws)) && coordDraws == old(coordDraws) + 1
    {
      p := rng.coord(coordDraws);
      coordDraws := coordDraws + 1;
    }

    /** The grass-type distribution's next value. */
    method NextGrassType() returns (t: int)
      modifies this`typeDraws
      ensures t == rng.grassType(old(typeDraws)) && typeDraws == old(typeDraws) + 1
    {
      t := rng.grassType(typeDraws);
      typeDraws := typeDraws + 1;
    }

    /** generate_grass: appends 300 tufts. */
    method GenerateGrass()
      modifies this`objects, this`coordDraws, this`typeDraws
      ensures objects == old(objects) + GrassObjects(rng, old(coordDraws), old(typeDraws), GrassCount)
      ensures coordDraws == old(coordDraws) + GrassCount && typeDraws == old(typeDraws) + GrassCount
    {
      var i := 0;
      while i < GrassCount
        invariant 0 <= i <= GrassCount
        invariant coordDraws == old(coordDraws) + i && typeDraws == old(typeDraws) + i
        invariant objects == old(objects) + GrassObjects(rng, old(coordDraws), old(typeDraws), i)
      {
        var pos := NextCoords();
        var grassType := NextGrassType();
        GrassObjectsStep(rng, old(coordDraws), old(typeDraws), i);
        objects := objects + [MakeGrass(pos, grassType)];
        i := i + 1;
      }
    }

    /** generate_trees: appends 75 trees. */
    method GenerateTrees()
      modifies this`objects, this`coordDraws
      ensures objects == old(objects) + TreeObjects(rng, old(coordDraws), TreeCount)
      ensures coordDraws == old(coordDraws) + TreeCount
    {
      var i := 0;
      while i < TreeCount
        invariant 0 <= i <= TreeCount
        invariant coordDraws == old(coordDraws) + i
        invariant objects == old(objects) + TreeObjects(rng, old(coordDraws), i)
      {
        var pos := NextCoords();
        TreeObjectsStep(rng, old(coordDraws), i);
        objects := objects + [Tree(pos)];
        i := i + 1;
      }
    }

    /** generate_exit: appends the exit and points exit_object at it. */
    method GenerateExit()
      modifies this`objects, this`coordDraws, this`exitObject
      ensures objects == old(objects) + [Exit(rng.coord(old(coordDraws)))]
      ensures coordDraws == old(coordDraws) + 1
      ensures exitObject == Some(|old(objects)|) && ExitRefValid()
    {
      var pos := NextCoords();
      exitObject := Some(|objects|);
      objects := objects + [Exit(pos)];
    }

    /** generate_world: grass, trees, then the exit, all appended after
      whatever `objects` already holds; exit_object designates the new
      exit. */
    method GenerateWorld()
      modifies this`objects, this`coordDraws, this`typeDraws, this`exitObject
      ensures objects == old(objects) + WorldFrom(rng, old(coordDraws), old(typeDraws))
      ensures exitObject == Some(|old(objects)| + ExitIndex) && ExitRefValid()
      ensures coordDraws == old(coordDraws) + WorldSize && typeDraws == old(typeDraws) + GrassCount
    {
      GenerateGrass();
      GenerateTrees();
      GenerateExit();
      assert objects == old(objects) + WorldFrom(rng, old(coordDraws), old(typeDraws));
    }

    /** inc_step_frame: `++step_frame; step_frame %= step_frame_count`. */
    method IncStepFrame()
      requires 0 <= stepFrame < StepFrameCount
      modifies this`stepFrame
      ensures stepFrame == NextStepFrame(old(stepFrame))
    {
      stepFrame := stepFrame + 1;
      stepFrame := stepFrame % StepFrameCount;
    }

    /** process_before_frame: after more than 250 ms without a move the
      walk animation goes back to its first frame. */
    method ProcessBeforeFrame()
      modifies this`stepFrame
      ensures stepFrame == if curTime - lastMoveTime > StopMoveAnimationThresholdMs then 0 else old(stepFrame)
    {
      if curTime - lastMoveTime > StopMoveAnimationThresholdMs {
        stepFrame := 0;
      }
    }

    /** check_win_condition: the first time the player is near the exit the
      win latches and its time is recorded; after that nothing changes. */
    method CheckWinCondition()
      requires ExitRefValid()
      modifies this`isWin, this`winTime
      ensures isWin == (old(isWin) || NearExit(playerPos, ExitPosition()))
      ensures winTime == if !old(isWin) && isWin then curTime else old(winTime)
    {
      if !isWin && NearExit(playerPos, objects[exitObject.value].position) {
        isWin := true;
        winTime := curTime;
      }
    }

    /** post_process_movement: the walk direction is recomputed from the
      position before the snap (reversed when facing left), the player is
      put back on the sphere, the move is stamped with the current time and
      the win is checked at the new position. */
    method PostProcessMovement(ops: FloatOps)
      requires ExitRefValid()
      modifies this`playerDir, this`playerPos, this`lastMoveTime, this`isWin, this`winTime
      ensures playerDir == Facing(facingRight, ops.walkDirection(old(playerPos), playerNormal))
      ensures playerPos == ops.snapToSphere(old(playerPos))
      ensures lastMoveTime == curTime
      ensures isWin == (old(isWin) || NearExit(playerPos, ExitPosition()))
      ensures winTime == if !old(isWin) && isWin then curTime else old(winTime)
    {
      playerDir := ops.walkDirection(playerPos, playerNormal);
      if !facingRight {
        playerDir := Neg(playerDir);
      }
      playerPos := ops.snapToSphere(playerPos);
      lastMoveTime := curTime;
      CheckWinCondition();
    }

    /** post_process_rotation: the normal turns by `sign` angle steps about
      the axis to the planet's centre, then the movement bookkeeping runs. */
    method PostProcessRotation(ops: FloatOps, sign: int)
      requires ExitRefValid()
      modifies this`playerNormal, this`playerDir, this`playerPos, this`lastMoveTime, this`isWin, this`winTime
      ensures playerNormal == ops.rotateNormal(old(playerNormal), old(playerPos), sign)
      ensures playerDir == Facing(facingRight, ops.walkDirection(old(playerPos), playerNormal))
      ensures playerPos == ops.snapToSphere(old(playerPos))
      ensures lastMoveTime == curTime
      ensures isWin == (old(isWin) || NearExit(playerPos, ExitPosition()))
      ensures winTime == if !old(isWin) && isWin then curTime else old(winTime)
    {
      playerNormal := ops.rotateNormal(playerNormal, playerPos, sign);
      PostProcessMovement(ops);
    }

    /** on_arrow_up: turn by one angle step. Facing and walk frame stay. */
    method OnArrowUp(ops: FloatOps)
      requires Valid()
      modifies this`playerNormal, this`playerDir, this`playerPos, this`lastMoveTime, this`isWin, this`winTime
      ensures Valid()
      ensures playerNormal == ops.rotateNormal(old(playerNormal), old(playerPos), 1)
      ensures playerDir == Facing(facingRight, ops.walkDirection(old(playerPos), playerNormal))
      ensures playerPos == ops.snapToSphere(old(playerPos)) && lastMoveTime == curTime
      ensures isWin == (old(isWin) || NearExit(playerPos, ExitPosition()))
      ensures winTime == if !old(isWin) && isWin then curTime else old(winTime)
    {
      PostProcessRotation(ops, 1);
    }

    /** on_arrow_down: turn by one angle step the other way. */
    method OnArrowDown(ops: FloatOps)
      requires Valid()
      modifies this`playerNormal, this`playerDir, this`playerPos, this`lastMoveTime, this`isWin, this`winTime
      ensures Valid()
      ensures playerNormal == ops.rotateNormal(old(playerNormal), old(playerPos), -1)
      ensures playerDir == Facing(facingRight, ops.walkDirection(old(playerPos), playerNormal))
      ensures playerPos == ops.snapToSphere(old(playerPos)) && lastMoveTime == curTime
      ensures isWin == (old(isWin) || NearExit(playerPos, ExitPosition()))
      ensures winTime == if !old(isWin) && isWin then curTime else old(winTime)
    {
      PostProcessRotation(ops, -1);
    }

    /** on_arrow_right: facing right, a step along the walk direction and
      the next walk frame; facing left, only a turn to the right. Either
      way the movement bookkeeping follows. */
    method OnArrowRight(ops: FloatOps)
      requires Valid()
      modifies this`facingRight, this`stepFrame, this`playerPos, this`playerDir, this`lastMoveTime,
        this`isWin, this`winTime
      ensures Valid() && facingRight
      ensures old(facingRight) ==>
        stepFrame == NextStepFrame(old(stepFrame)) && playerPos == ops.snapToSphere(Add(old(playerPos), old(playerDir)))
      ensures !old(facingRight) ==>
        stepFrame == old(stepFrame) && playerPos == ops.snapToSphere(old(playerPos))
      ensures playerDir == ops.walkDirection(
        if old(facingRight) then Add(old(playerPos), old(playerDir)) else old(playerPos), playerNormal)
      ensures lastMoveTime == curTime
      ensures isWin == (old(isWin) || NearExit(playerPos, ExitPosition()))
      ensures winTime == if !old(isWin) && isWin then curTime else old(winTime)
    {
      if facingRight {
        playerPos := Add(playerPos, playerDir);
        IncStepFrame();
      } else {
        facingRight := true;
      }
      PostProcessMovement(ops);
    }

    /** on_arrow_left: the mirror image of on_arrow_right. */
    method OnArrowLeft(ops: FloatOps)
      requires Valid()
      modifies this`facingRight, this`stepFrame, this`playerPos, this`playerDir, this`lastMoveTime,
        this`isWin, this`winTime
      ensures Valid() && !facingRight
      ensures !old(facingRight) ==>
        stepFrame == NextStepFrame(old(stepFrame)) && playerPos == ops.snapToSphere(Add(old(playerPos), old(playerDir)))
      ensures old(facingRight) ==>
        stepFrame == old(stepFrame) && playerPos == ops.snapToSphere(old(playerPos))
      ensures playerDir == Neg(ops.walkDirection(
        if !old(facingRight) then Add(old(playerPos), old(playerDir)) else old(playerPos), playerNormal))
      ensures lastMoveTime == curTime
      ensures isWin == (old(isWin) || NearExit(playerPos, ExitPosition()))
      ensures winTime == if !old(isWin) && isWin then curTime else old(winTime)
    {
      if !facingRight {
        playerPos := Add(playerPos, playerDir);
        IncStepFrame();
      } else {
        facingRight := false;
      }
      PostProcessMovement(ops);
    }

    /** is_done: the game may end once it has been won for over 2 s. */
    predicate IsDone()
      reads this
      ensures !isWin ==> !IsDone()
      ensures curTime <= winTime + ExitThresholdMs ==> !IsDone()
      ensures isWin && curTime > winTime + ExitThresholdMs ==> IsDone()
    {
      Done(isWin, winTime, curTime)
    }

    /** get_legs_str: the left-facing legs, reversed in place and with their
      slashes swapped when facing right. */
    method GetLegsStr() returns (s: string)
      ensures s == Legs(facingRight, stepFrame)
    {
      var left := LegsLeft(stepFrame);
      if !facingRight {
        return left;
      }
      var a := new char[|left|](i requires 0 <= i < |left| => left[i]);
      var n := a.Length;
      // std::reverse
      var i := 0;
      while i < n / 2
        invariant 0 <= i <= n / 2
        invariant forall k :: 0 <= k < i ==> a[k] == left[n - 1 - k] && a[n - 1 - k] == left[k]
        invariant forall k :: i <= k < n - i ==> a[k] == left[k]
      {
        a[i], a[n - 1 - i] := a[n - 1 - i], a[i];
        i := i + 1;
      }
      // the slash patch
      var j := 0;
      while j < n
        invariant 0 <= j <= n
        invariant forall k :: 0 <= k < j ==> a[k] == SwapSlash(left[n - 1 - k])
        invariant forall k :: j <= k < n ==> a[k] == left[n - 1 - k]
      {
        if a[j] == '\\' {
          a[j] := '/';
        } else if a[j] == '/' {
          a[j] := '\\';
        }
        j := j + 1;
      }
      s := a[..];
    }

    /** draw_background: 200 stars from the two Lehmer streams. */
    static method DrawBackground(width: int, height: int) returns (cmds: seq<Command>)
      requires width > 0 && height > 0
      ensures cmds == Stars(width, height)
    {
      var x := XStart;
      var y := YStart;
      cmds := [];
      var i := 0;
      while i < StarCount
        invariant 0 <= i <= StarCount
        invariant x == StarX(i) && y == StarY(i)
        invariant |cmds| == i
        invariant forall k :: 0 <= k < i ==> cmds[k] == Point(StarX(k + 1) % width, StarY(k + 1) % height, White)
      {
        x := (x * XMult) % ModNum;
        y := (y * YMult) % ModNum;
        cmds := cmds + [Point(x % width, y % height, White)];
        i := i + 1;
      }
    }

    /** draw_objects_foreground: the foreground draw of every object of
      depth zero or more, in order. */
    method DrawObjectsForeground(ops: FloatOps) returns (cmds: seq<Command>)
      ensures cmds == PassCommands(objects, ops, playerPos, playerNormal, true)
    {
      cmds := [];
      var i := 0;
      while i < |objects|
        invariant 0 <= i <= |objects|
        invariant cmds == PassCommands(objects[..i], ops, playerPos, playerNormal, true)
      {
        var info := ProjectionInfoOf(ops, playerPos, playerNormal, objects[i].position);
        if info.distance >= 0.0 {
          cmds := cmds + DrawForeground(objects[i], info.projection);
        }
        assert objects[..i + 1][..i] == objects[..i];
        i := i + 1;
      }
      assert objects[..i] == objects;
    }

    /** draw_objects_background: the background draw of every object of
      negative depth, in order. */
    method DrawObjectsBackground(ops: FloatOps) returns (cmds: seq<Command>)
      ensures cmds == PassCommands(objects, ops, playerPos, playerNormal, false)
    {
      cmds := [];
      var i := 0;
      while i < |objects|
        invariant 0 <= i <= |objects|
        invariant cmds == PassCommands(objects[..i], ops, playerPos, playerNormal, false)
      {
        var info := ProjectionInfoOf(ops, playerPos, playerNormal, objects[i].position);
        if info.distance < 0.0 {
          cmds := cmds + Objects.DrawBackground(objects[i], info.projection);
        }
        assert objects[..i + 1][..i] == objects[..i];
        i := i + 1;
      }
      assert objects[..i] == objects;
    }

    /** draw_player: head, body and legs drawn by draw_chars in white at
      the player's screen point. */
    method DrawPlayer(ops: FloatOps) returns (cmds: seq<Command>)
      ensures cmds == DrawCharsSpec(ops.project(playerPos, playerNormal, playerPos), White,
                                    PlayerSprite(facingRight, stepFrame))
    {
      var pos := ops.project(playerPos, playerNormal, playerPos);
      var legs := GetLegsStr();
      var str := Head(facingRight) + "\n" + Body + "\n" + legs;
      PlayerSpriteFormat(facingRight, stepFrame);
      cmds := DrawChars(pos, White, str);
    }

    /** draw_planet: a filled circle of the world's radius, cast to int,
      around the projected centre. */
    function Planet(ops: FloatOps): (c: Command)
      reads this
      ensures c.CircleFilled? && c.radius == 250 && c.color == RosyBrown
      ensures c.x == ops.project(playerPos, playerNormal, WorldCenter).x
      ensures c.y == ops.project(playerPos, playerNormal, WorldCenter).y
    {
      var center := ops.project(playerPos, playerNormal, WorldCenter);
      CircleFilled(center.x, center.y, Point2D.TruncTowardZero(WorldRadius), RosyBrown)
    }

    /** The calls of one frame drawn in the current state. */
    function Frame(ops: FloatOps, width: int, height: int): seq<Command>
      reads this
      requires width > 0 && height > 0
    {
      Stars(width, height)
        + PassCommands(objects, ops, playerPos, playerNormal, false)
        + [Planet(ops)]
        + DrawCharsSpec(ops.project(playerPos, playerNormal, playerPos), White, PlayerSprite(facingRight, stepFrame))
        + PassCommands(objects, ops, playerPos, playerNormal, true)
        + (if isWin then [Victory] else [])
    }

    /** The drawing part of draw, in the order it draws: the sky, the
      objects behind, the planet, the player, the objects in front and,
      once won, the victory text. */
    method DrawScene(ops: FloatOps, width: int, height: int) returns (canvas: seq<Command>)
      requires width > 0 && height > 0
      ensures canvas == Frame(ops, width, height)
    {
      var stars := DrawBackground(width, height);
      var behind := DrawObjectsBackground(ops);
      var player := DrawPlayer(ops);
      var front := DrawObjectsForeground(ops);
      canvas := stars + behind + [Planet(ops)] + player + front;
      if isWin {
        canvas := canvas + [Victory];
      }
    }

    /** The first two steps of draw: the frame time is stamped and an idle
      walk goes back to its first frame. A finished game stays finished. */
    method BeginFrame(now: int)
      requires Valid()
      modifies this`curTime, this`stepFrame
      ensures Valid() && curTime == now
      ensures stepFrame == if now - lastMoveTime > StopMoveAnimationThresholdMs then 0 else old(stepFrame)
      ensures old(IsDone()) && old(curTime) <= now ==> IsDone()
    {
      ghost var wasDone := IsDone();
      ghost var before := curTime;
      curTime := now;
      ProcessBeforeFrame();
      if wasDone && before <= now {
        DoneStaysDone(isWin, winTime, before, now);
      }
    }

    /** draw: stamps the frame time, resets an idle walk and draws the
      scene. A finished game stays finished for a frame drawn no earlier. */
    method Draw(now: int, ops: FloatOps, width: int, height: int) returns (canvas: seq<Command>)
      requires Valid() && width > 0 && height > 0
      modifies this`curTime, this`stepFrame
      ensures Valid() && curTime == now
      ensures stepFrame == if now - lastMoveTime > StopMoveAnimationThresholdMs then 0 else old(stepFrame)
      ensures canvas == Frame(ops, width, height)
      ensures old(IsDone()) && old(curTime) <= now ==> IsDone()
    {
      BeginFrame(now);
      canvas := DrawScene(ops, width, height);
    }
  }
}
