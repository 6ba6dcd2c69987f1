/** Integer and floating screen points (src/geometry/point2.hpp, point2f.hpp). */
module Point2D {

  /** The range of a C++ `int` on the targets the game is built for. */
  predicate InInt32(v: int) {
    -0x8000_0000 <= v <= 0x7fff_ffff
  }

  type Int32 = v: int | InInt32(v)

  /** Point2F: a screen point with double coordinates (reals here). */
  datatype Point2F = Point2F(x: real, y: real)

  /** Point2: an integer screen point; `Point2(x, y)` stores both unchanged. */
  datatype Point2 = Point2(x: Int32, y: Int32)

  function Abs(r: real): real {
    if r < 0.0 then -r else r
  }

  /** `static_cast<int>` of a double: the fraction is dropped, toward zero. */
  function TruncTowardZero(r: real): (t: int)
    ensures 0.0 <= r ==> t as real <= r < t as real + 1.0
    ensures r < 0.0 ==> t as real - 1.0 < r <= t as real
  {
    if r >= 0.0 then r.Floor else -((-r).Floor)
  }

  /** The converting constructor Point2(const Point2F &). A value that does
      not fit an `int` makes the cast undefined, hence the precondition. */
  function FromPoint2F(p: Point2F): (q: Point2)
    requires InInt32(TruncTowardZero(p.x)) && InInt32(TruncTowardZero(p.y))
    ensures Abs(q.x as real) <= Abs(p.x) < Abs(q.x as real) + 1.0
    ensures Abs(q.y as real) <= Abs(p.y) < Abs(q.y as real) + 1.0
    ensures 0.0 <= q.x as real * p.x && 0.0 <= q.y as real * p.y
  {
    Point2(TruncTowardZero(p.x), TruncTowardZero(p.y))
  }

  /** 2.9 becomes 2 and -2.9 becomes -2: truncation, not rounding or flooring. */
  lemma TruncationExamples()
    ensures FromPoint2F(Point2F(2.9, -2.9)) == Point2(2, -2)
  {
    assert TruncTowardZero(2.9) == 2;
    assert TruncTowardZero(-2.9) == -2;
  }

  /** operator+. Signed overflow is undefined behaviour in C++, so the sums
      must fit. */
  function Add(a: Point2, b: Point2): (r: Point2)
    requires InInt32(a.x + b.x) && InInt32(a.y + b.y)
    ensures r.x - b.x == a.x && r.y - b.y == a.y
  {
    Point2(a.x + b.x, a.y + b.y)
  }

  /** operator-, with the same proviso. */
  function Sub(a: Point2, b: Point2): (r: Point2)
    requires InInt32(a.x - b.x) && InInt32(a.y - b.y)
    ensures r.x + b.x == a.x && r.y + b.y == a.y
  {
    Point2(a.x - b.x, a.y - b.y)
  }

  /** Adding then subtracting the same point gives the original back. */
  lemma AddThenSub(a: Point2, b: Point2)
    requires InInt32(a.x + b.x) && InInt32(a.y + b.y)
    ensures Sub(Add(a, b), b) == a
  {
  }

  /** Subtracting then adding the same point gives the original back. */
  lemma SubThenAdd(a: Point2, b: Point2)
    requires InInt32(a.x - b.x) && InInt32(a.y - b.y)
    ensures Add(Sub(a, b), b) == a
  {
  }
}
