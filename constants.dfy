/** The game's constants (src/constants.hpp). Times are in milliseconds. */
module Constants {
  import opened Point2D
  import opened Point3D

  const WorldCenter: Point3F := Point3F(0.0, 0.0, 0.0)
  const WorldRadius: real := 250.0
  const CanvasSize: Point2 := Point2(200, 100)
  const WinThreshold: real := 5.0
  const RowHeight: int := 4
  const StepFrameCount: int := 4
  const StopMoveAnimationThresholdMs: int := 250
  const ExitThresholdMs: int := 2000
}
