/** The starfield behind the planet (GameState::draw_background): two
    Lehmer (Park–Miller) streams modulo 2^31 - 1, one for the column and one
    for the row of each star. The x stream uses the multiplier of
    std::minstd_rand, 48271; the y stream uses 11141. */
module Starfield {
  import opened Wrappers
  import opened Point2D
  import opened Canvas

  const XStart: int := 3
  const YStart: int := 5
  const XMult: int := 48271
  const YMult: int := 11141
  const ModNum: int := 0x7fff_ffff
  const StarCount: nat := 200

  /** The value of the stream `v := v * mult % mod_num` after k steps from
      `seed`, computed on mathematical integers. */
  function Lehmer(seed: int, mult: int, k: nat): (v: int)
    requires 0 <= seed < ModNum && 0 <= mult
    ensures 0 <= v < ModNum
  {
    if k == 0 then seed else Lehmer(seed, mult, k - 1) * mult % ModNum
  }

  /** The column and row stream of star k (counted from 1). */
  function StarX(k: nat): int {
    Lehmer(XStart, XMult, k)
  }

  function StarY(k: nat): int {
    Lehmer(YStart, YMult, k)
  }

  /** The points draw_background plots on a canvas of the given size: star
      k at the remainders of its raw pair by the width and the height. All
      lie on the canvas, and they do not depend on the game state, so every
      frame shows the same sky. */
  function Stars(width: int, height: int): (pts: seq<Command>)
    requires width > 0 && height > 0
    ensures |pts| == StarCount
    ensures forall i :: 0 <= i < |pts| ==>
      pts[i].Point? && 0 <= pts[i].x < width && 0 <= pts[i].y < height && pts[i].color == White
  {
    seq(StarCount, i requires 0 <= i < StarCount => Point(StarX(i + 1) % width, StarY(i + 1) % height, White))
  }

  /** The first star comes from the raw pair (144813, 55705). */
  lemma FirstStarPair()
    ensures StarX(1) == 144813 && StarY(1) == 55705
  {
  }

  /** One step of the recurrence as the C++ code writes it, on `int`: the
      product is formed in 32 bits, and a product that does not fit is
      signed overflow, undefined behaviour (None). */
  function StepInt32(v: int, mult: int): (r: Option<int>)
    requires 0 <= v < ModNum && 0 <= mult
    ensures r.Some? <==> InInt32(v * mult)
    ensures r.Some? ==> r.value == Lehmer(v, mult, 1)
  {
    if InInt32(v * mult) then Some(v * mult % ModNum) else None
  }

  /** As written, the x stream overflows `int` on its second step and the y
      stream on its third: 144813 * 48271 and 620609405 * 11141 both exceed
      2^31 - 1. */
  lemma StarStepsOverflowInt32()
    ensures StepInt32(XStart, XMult) == Some(StarX(1))
    ensures StepInt32(StarX(1), XMult) == None
    ensures StepInt32(YStart, YMult) == Some(StarY(1))
    ensures StepInt32(StarY(1), YMult) == Some(StarY(2)) && StarY(2) == 620609405
    ensures StepInt32(StarY(2), YMult) == None
  {
    FirstStarPair();
    assert StarY(2) == 55705 * 11141 % ModNum;
  }

  /** The intended recurrence is that of std::minstd_rand, which forms the
      product in 64 bits: from any state below the modulus and for either
      multiplier, the product fits a signed 64-bit integer, so every step of
      Lehmer is the value a 64-bit computation gives. */
  lemma StepFitsInt64(v: int, mult: int)
    requires 0 <= v < ModNum && 0 <= mult < ModNum
    ensures 0 <= v * mult < 0x8000_0000_0000_0000
  {
    MulBelow(v, mult, ModNum);
  }

  lemma MulBelow(a: nat, b: nat, n: nat)
    requires a < n && b < n
    ensures a * b < n * n
  {
    assert a * b <= a * n;
  }
}
