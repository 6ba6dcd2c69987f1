/** Three-dimensional points (src/geometry/point3f.hpp), with reals standing
    for doubles, and the floating-point operations of the camera that need a
    square root or trigonometry, taken as an oracle. */
module Point3D {
  import opened Point2D

  datatype Point3F = Point3F(x: real, y: real, z: real)

  function Add(a: Point3F, b: Point3F): Point3F {
    Point3F(a.x + b.x, a.y + b.y, a.z + b.z)
  }

  function Sub(a: Point3F, b: Point3F): Point3F {
    Point3F(a.x - b.x, a.y - b.y, a.z - b.z)
  }

  function Neg(a: Point3F): Point3F {
    Point3F(-a.x, -a.y, -a.z)
  }

  function Dot(a: Point3F, b: Point3F): real {
    a.x * b.x + a.y * b.y + a.z * b.z
  }

  /** The squared length; `length()` is its square root. */
  function SqLength(a: Point3F): real {
    Dot(a, a)
  }

  /** The results of the GameState computations that go through
      `normalized()`, `cos` or `sin`, as functions of the state they read:
      - walkDirection(pos, normal): get_world_center_to_player().cross(normal)
      - snapToSphere(pos): world_center + (pos - world_center).normalized() * world_radius
      - rotateNormal(normal, pos, sign): normal * cos(s) + other * sin(s),
        s = sign * angle_step, other = normal.cross(world_center_to_player)
      - project(pos, normal, point): get_projection, the screen point of
        `point` already truncated to a Point2 */
  datatype FloatOps = FloatOps(
    walkDirection: (Point3F, Point3F) -> Point3F,
    snapToSphere: Point3F -> Point3F,
    rotateNormal: (Point3F, Point3F, int) -> Point3F,
    project: (Point3F, Point3F, Point3F) -> Point2)
}
