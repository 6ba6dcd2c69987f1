/** The world GameState::generate_world builds: 300 grass tufts, then 75
    trees, then the exit, each at a random point of the planet's surface. */
module World {
  import opened Point3D
  import opened Objects

  /** The game's random engine, as the values its successive draws give:
      `coord(n)` is the point the n-th call of
      generate_random_coords_on_world returns and `grassType(n)` the n-th
      value of the grass-type distribution. */
  datatype RandomDraws = RandomDraws(coord: nat -> Point3F, grassType: nat -> int)

  const GrassCount: nat := 300
  const TreeCount: nat := 75
  const ExitIndex: nat := GrassCount + TreeCount
  const WorldSize: nat := GrassCount + TreeCount + 1

  /** The first n tufts generate_grass makes, from coordinate draw c0 and
      grass-type draw t0 on. */
  function GrassObjects(r: RandomDraws, c0: nat, t0: nat, n: nat): seq<WorldObject> {
    seq(n, i requires 0 <= i < n => MakeGrass(r.coord(c0 + i), r.grassType(t0 + i)))
  }

  /** The first n trees generate_trees makes, from coordinate draw c0 on. */
  function TreeObjects(r: RandomDraws, c0: nat, n: nat): seq<WorldObject> {
    seq(n, i requires 0 <= i < n => Tree(r.coord(c0 + i)))
  }

  /** One more tuft is the next draw of each stream. */
  lemma GrassObjectsStep(r: RandomDraws, c0: nat, t0: nat, n: nat)
    ensures GrassObjects(r, c0, t0, n + 1)
         == GrassObjects(r, c0, t0, n) + [MakeGrass(r.coord(c0 + n), r.grassType(t0 + n))]
  {
  }

  /** One more tree is the next coordinate draw. */
  lemma TreeObjectsStep(r: RandomDraws, c0: nat, n: nat)
    ensures TreeObjects(r, c0, n + 1) == TreeObjects(r, c0, n) + [Tree(r.coord(c0 + n))]
  {
  }

  /** What generate_world appends, from coordinate draw c0 and grass-type
      draw t0 on. */
  function WorldFrom(r: RandomDraws, c0: nat, t0: nat): seq<WorldObject> {
    GrassObjects(r, c0, t0, GrassCount)
      + TreeObjects(r, c0 + GrassCount, TreeCount)
      + [Exit(r.coord(c0 + ExitIndex))]
  }

  /** The generated world has 376 entries: grass at 0..299, trees at
      300..374 and the only exit at 375, each standing at the coordinate
      draw of its own index. */
  lemma WorldLayout(r: RandomDraws, c0: nat, t0: nat)
    ensures var w := WorldFrom(r, c0, t0);
      && |w| == WorldSize == 376
      && (forall i :: 0 <= i < GrassCount ==> w[i].Grass?)
      && (forall i :: GrassCount <= i < ExitIndex ==> w[i].Tree?)
      && (forall i :: 0 <= i < |w| ==> (w[i].Exit? <==> i == ExitIndex))
      && (forall i :: 0 <= i < |w| ==> w[i].position == r.coord(c0 + i))
  {
    var grass := GrassObjects(r, c0, t0, GrassCount);
    var trees := TreeObjects(r, c0 + GrassCount, TreeCount);
    var w := WorldFrom(r, c0, t0);
    assert |grass| == GrassCount && |trees| == TreeCount;
    forall i | 0 <= i < |w|
      ensures (w[i].Exit? <==> i == ExitIndex) && w[i].position == r.coord(c0 + i)
      ensures (i < GrassCount ==> w[i].Grass?) && (GrassCount <= i < ExitIndex ==> w[i].Tree?)
    {
      if i < GrassCount {
        assert w[i] == grass[i] == MakeGrass(r.coord(c0 + i), r.grassType(t0 + i));
        assert w[i].Grass? && w[i].position == r.coord(c0 + i);
      } else if i < ExitIndex {
        assert w[i] == trees[i - GrassCount];
        assert w[i].Tree? && w[i].position == r.coord(c0 + i);
      } else {
        assert w[i] == Exit(r.coord(c0 + ExitIndex));
      }
    }
  }

  /** uniform_int_distribution(0, 1) only draws 0 or 1, so every generated
      tuft has a visible glyph. */
  lemma GeneratedGrassVisible(r: RandomDraws, c0: nat, t0: nat)
    requires forall k :: t0 <= k < t0 + GrassCount ==> 0 <= r.grassType(k) <= 1
    ensures var w := WorldFrom(r, c0, t0);
      forall i :: 0 <= i < GrassCount ==> w[i].Grass? && |w[i].glyph| == 3
  {
    var w := WorldFrom(r, c0, t0);
    forall i | 0 <= i < GrassCount
      ensures w[i].Grass? && |w[i].glyph| == 3
    {
      assert w[i] == MakeGrass(r.coord(c0 + i), r.grassType(t0 + i));
    }
  }
}
