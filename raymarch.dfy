/** The wall caster's per-column ray march (source/raycaster.cc, the column
    loop of on_frame_update).  The march is modelled over the reals: after k
    steps the accumulated distance is exactly k * step, and the test point is
    player + eye * distance, truncated toward zero to a cell.  sinf/cosf of the
    ray angle (`eye`), atan2f and the fisheye cosine are inputs. */
module RayMarch {
  import opened Vec
  import opened Grid
  import opened Angles

  /** The march increment `step`. */
  const Step: real := 0.01

  /** Steps until the distance reaches depth: 30.0 / 0.01. */
  const MaxSteps: int := 3000

  /** sinf and cosf never leave [-1, 1]. */
  predicate UnitBounded(eye: Vec2<real>)
  {
    -1.0 <= eye.x <= 1.0 && -1.0 <= eye.y <= 1.0
  }

  /** The test point after k steps: k moves of eye * step from the player.
      ProbeAtDistance shows it is player + eye * (k * step), the point the
      source computes from the accumulated distance. */
  function Probe(p: Vec2<real>, eye: Vec2<real>, k: int): Vec2<real>
    decreases k
  {
    if k <= 0 then p else Add(Probe(p, eye, k - 1), Scale(eye, Step))
  }

  /** The march guard.  It uses `>`, so x == 24 or y == 24 pass it. */
  predicate OutsideGuard(c: Vec2<int>)
  {
    c.x < 0 || c.x > MapWidth || c.y < 0 || c.y > MapHeight
  }

  /** Why the march stopped: a non-empty tile, the guard, or the distance
      reaching depth with no wall. */
  datatype Stop = WallHit | LeftGrid | OutOfDepth

  /** The march's end: how many steps it took, the last test cell, and why. */
  datatype March = March(steps: int, test: Vec2<int>, stop: Stop)

  /** After k steps the test point is at most k * step from the player on
      each axis, so no probe of the march is farther than depth. */
  lemma {:induction false} ProbeWithinReach(p: Vec2<real>, eye: Vec2<real>, k: nat)
    requires UnitBounded(eye)
    ensures var q := Probe(p, eye, k);
      -(k as real * Step) <= q.x - p.x <= k as real * Step
      && -(k as real * Step) <= q.y - p.y <= k as real * Step
  {
    if k > 0 {
      ProbeWithinReach(p, eye, k - 1);
    }
  }

  /** Two consecutive test points are one step apart, less than a tile. */
  lemma ProbeStep(p: Vec2<real>, eye: Vec2<real>, k: nat)
    requires UnitBounded(eye)
    ensures Near(Probe(p, eye, k + 1), Probe(p, eye, k))
  {
  }

  /** The march from step k on, given that the cell at step k is interior.
      Because the border is walled and each step moves at most one cell, the
      march never passes the guard: it stops on a wall tile inside the grid, or
      on an empty tile after exactly MaxSteps steps. */
  function MarchFrom(tiles: seq<int>, p: Vec2<real>, eye: Vec2<real>, k: nat): (m: March)
    requires MapOk(tiles) && UnitBounded(eye) && k < MaxSteps
    requires Interior(TileOf(Probe(p, eye, k)))
    ensures k < m.steps <= MaxSteps
    ensures m.test == TileOf(Probe(p, eye, m.steps))
    ensures m.stop != LeftGrid && InGrid(m.test)
    ensures m.stop == WallHit ==> GetMapTileAt(tiles, m.test) != 0
    ensures m.stop == OutOfDepth ==> m.steps == MaxSteps && GetMapTileAt(tiles, m.test) == 0
    decreases MaxSteps - k
  {
    var t := TileOf(Probe(p, eye, k + 1));
    ProbeStep(p, eye, k);
    NearTilesAdjacent(Probe(p, eye, k + 1), Probe(p, eye, k));
    NeighbourInGrid(TileOf(Probe(p, eye, k)), t);
    if OutsideGuard(t) then March(k + 1, t, LeftGrid)
    else if GetMapTileAt(tiles, t) != 0 then March(k + 1, t, WallHit)
    else if k + 1 < MaxSteps then
      EmptyTileIsInterior(tiles, t);
      MarchFrom(tiles, p, eye, k + 1)
    else March(k + 1, t, OutOfDepth)
  }

  /** One unfolding of the march: the next cell is inside the grid and passes
      the guard, and the march stops there on a wall, continues from it while
      steps remain, or ends there at depth. */
  lemma MarchStep(tiles: seq<int>, p: Vec2<real>, eye: Vec2<real>, k: nat)
    requires MapOk(tiles) && UnitBounded(eye) && k < MaxSteps
    requires Interior(TileOf(Probe(p, eye, k)))
    ensures var t := TileOf(Probe(p, eye, k + 1));
      InGrid(t) && !OutsideGuard(t)
      && (GetMapTileAt(tiles, t) != 0 ==> MarchFrom(tiles, p, eye, k) == March(k + 1, t, WallHit))
      && (GetMapTileAt(tiles, t) == 0 ==> Interior(t))
      && (GetMapTileAt(tiles, t) == 0 && k + 1 < MaxSteps ==> MarchFrom(tiles, p, eye, k) == MarchFrom(tiles, p, eye, k + 1))
      && (GetMapTileAt(tiles, t) == 0 && k + 1 == MaxSteps ==> MarchFrom(tiles, p, eye, k) == March(k + 1, t, OutOfDepth))
  {
    var t := TileOf(Probe(p, eye, k + 1));
    ProbeStep(p, eye, k);
    NearTilesAdjacent(Probe(p, eye, k + 1), Probe(p, eye, k));
    NeighbourInGrid(TileOf(Probe(p, eye, k)), t);
    if GetMapTileAt(tiles, t) == 0 {
      EmptyTileIsInterior(tiles, t);
    }
  }

  /** The march stops at the first wall: every probe after step k and before
      the last one lands on an empty interior cell. */
  lemma {:induction false} MarchFromFirstWall(tiles: seq<int>, p: Vec2<real>, eye: Vec2<real>, k: nat)
    requires MapOk(tiles) && UnitBounded(eye) && k < MaxSteps
    requires Interior(TileOf(Probe(p, eye, k)))
    ensures forall j :: k < j < MarchFrom(tiles, p, eye, k).steps ==>
      Interior(TileOf(Probe(p, eye, j))) && GetMapTileAt(tiles, TileOf(Probe(p, eye, j))) == 0
    decreases MaxSteps - k
  {
    MarchStep(tiles, p, eye, k);
    var t := TileOf(Probe(p, eye, k + 1));
    if GetMapTileAt(tiles, t) == 0 && k + 1 < MaxSteps {
      MarchFromFirstWall(tiles, p, eye, k + 1);
    }
  }

  /** The test point computed from the accumulated distance is the k-th probe. */
  lemma {:induction false} ProbeAtDistance(p: Vec2<real>, eye: Vec2<real>, k: nat, distance: real)
    requires distance == k as real * Step
    ensures Add(p, Scale(eye, distance)) == Probe(p, eye, k)
  {
    if k == 0 {
      assert Mul(eye.x, 0.0) == 0.0 && Mul(eye.y, 0.0) == 0.0;
    } else {
      var previous := distance - Step;
      ProbeAtDistance(p, eye, k - 1, previous);
      MulDistributes(eye.x, distance, Step);
      MulDistributes(eye.y, distance, Step);
      assert Add(p, Scale(eye, distance)) == Add(Add(p, Scale(eye, previous)), Scale(eye, Step));
      assert Probe(p, eye, k) == Add(Probe(p, eye, k - 1), Scale(eye, Step));
    }
  }

  /** The march from the player: the cell at step 0 is the player's own. */
  function MarchFromPlayer(tiles: seq<int>, p: Vec2<real>, eye: Vec2<real>): (m: March)
    requires MapOk(tiles) && UnitBounded(eye) && Interior(TileOf(p))
    ensures 0 < m.steps <= MaxSteps && InGrid(m.test) && m.stop != LeftGrid
  {
    MarchFrom(tiles, p, eye, 0)
  }

  /** What one column of the wall caster produces. */
  datatype RaySample = RaySample(distance: real, test: Vec2<int>, side: int, sampleX: real)

  /** atan2f of the offset from the hit cell's centre to the hit point. */
  function HitAngle(atan2: (real, real) -> real, point: Vec2<real>, cell: Vec2<int>): real
  {
    atan2(point.y - (cell.y as real + 0.5), point.x - (cell.x as real + 0.5))
  }

  /** The texture coordinate for a side: the fractional part along y for side 1,
      along x for side 0. */
  function SampleFor(side: int, point: Vec2<real>, cell: Vec2<int>): real
  {
    if side == 1 then point.y - cell.y as real else point.x - cell.x as real
  }

  /** The column's result once the march `m` is known.  On a wall hit the
      marched distance is multiplied by the fisheye cosine
      cos(ray_angle - player_angle); when depth is reached with no wall, the
      distance is the marched one, side stays 0 and sample_x keeps the value the
      previous column left; a march leaving the grid reports depth. */
  function CastResult(m: March, p: Vec2<real>, eye: Vec2<real>, atan2: (real, real) -> real,
                      fisheyeCos: real, previousSample: real): RaySample
  {
    var point := Probe(p, eye, m.steps);
    match m.stop
    case WallHit =>
      var side := HitSide(HitAngle(atan2, point, m.test));
      RaySample(Mul(m.steps as real * Step, fisheyeCos), m.test, side, SampleFor(side, point, m.test))
    case LeftGrid => RaySample(Depth, m.test, 0, previousSample)
    case OutOfDepth => RaySample(m.steps as real * Step, m.test, 0, previousSample)
  }

  /** A column reports the march's last cell and a side of 0 or 1; without a
      wall it keeps side 0 and the previous sample_x, reporting depth when the
      march left the grid and the marched distance when it ran out of depth. */
  lemma CastResultShape(m: March, p: Vec2<real>, eye: Vec2<real>, atan2: (real, real) -> real,
                        fisheyeCos: real, previousSample: real)
    ensures var r := CastResult(m, p, eye, atan2, fisheyeCos, previousSample);
      r.test == m.test && (r.side == 0 || r.side == 1)
      && (m.stop != WallHit ==> r.side == 0 && r.sampleX == previousSample)
      && (m.stop == LeftGrid ==> r.distance == Depth)
      && (m.stop == OutOfDepth ==> r.distance == m.steps as real * Step)
  {
  }

  /** One column of the wall caster: the march from the player, then its result. */
  function CastSpec(tiles: seq<int>, p: Vec2<real>, eye: Vec2<real>, atan2: (real, real) -> real,
                    fisheyeCos: real, previousSample: real): RaySample
    requires MapOk(tiles) && UnitBounded(eye) && Interior(TileOf(p))
  {
    CastResult(MarchFromPlayer(tiles, p, eye), p, eye, atan2, fisheyeCos, previousSample)
  }

  /** A ray from a player standing on an interior cell ends on a cell inside the
      grid, so get_map_tile(test) reads inside the table and textures.at never
      throws; the column shows a wall exactly when that cell is non-empty, with
      the side chosen by the hit angle; otherwise the march ran the full depth.
      Every probe before the last is on an empty cell, so the wall a column
      shows is the nearest one along the ray. */
  lemma CastStaysInGrid(tiles: seq<int>, p: Vec2<real>, eye: Vec2<real>, atan2: (real, real) -> real,
                        fisheyeCos: real, previousSample: real)
    requires MapOk(tiles) && UnitBounded(eye) && Interior(TileOf(p))
    ensures var r := CastSpec(tiles, p, eye, atan2, fisheyeCos, previousSample);
      InGrid(r.test) && 0 <= GetMapTileAt(tiles, r.test) < TextureCount
      && (GetMapTileAt(tiles, r.test) != 0 ==>
            r.side == HitSide(HitAngle(atan2, Probe(p, eye, MarchFromPlayer(tiles, p, eye).steps), r.test)))
      && (GetMapTileAt(tiles, r.test) == 0 ==> r.distance == Depth && r.side == 0 && r.sampleX == previousSample)
      && r.test == TileOf(Probe(p, eye, MarchFromPlayer(tiles, p, eye).steps))
      && (forall j :: 0 < j < MarchFromPlayer(tiles, p, eye).steps ==>
            Interior(TileOf(Probe(p, eye, j))) && GetMapTileAt(tiles, TileOf(Probe(p, eye, j))) == 0)
  {
    var m := MarchFromPlayer(tiles, p, eye);
    MarchFromFirstWall(tiles, p, eye, 0);
    assert m.stop == WallHit || m.stop == OutOfDepth;
  }

  /** The accumulated distance after one more step is the next multiple of step. */
  lemma NextDistance(k: int, distance: real)
    requires distance == k as real * Step
    ensures distance + Step == (k + 1) as real * Step
  {
  }

  /** The loop's exit test: the distance stays below depth until MaxSteps steps. */
  lemma DistanceBelowDepth(k: int, distance: real)
    requires 0 <= k <= MaxSteps && distance == k as real * Step
    ensures distance < Depth <==> k < MaxSteps
  {
  }

  /** The column's result when the k-th probe lands on a wall cell, stated
      with the values the loop holds. */
  lemma WallResult(p: Vec2<real>, eye: Vec2<real>, atan2: (real, real) -> real,
                   fisheyeCos: real, previousSample: real, k: nat, distance: real,
                   test: Vec2<int>, side: int, sampleX: real)
    requires distance == k as real * Step
    requires side == HitSide(HitAngle(atan2, Add(p, Scale(eye, distance)), test))
    requires sampleX == SampleFor(side, Add(p, Scale(eye, distance)), test)
    ensures RaySample(Mul(distance, fisheyeCos), test, side, sampleX)
      == CastResult(March(k, test, WallHit), p, eye, atan2, fisheyeCos, previousSample)
  {
    ProbeAtDistance(p, eye, k, distance);
  }

  /** The four sequential range tests applied to a hit: each test that holds
      overwrites side and sample_x. */
  method ClassifyHit(a: real, point: Vec2<real>, test: Vec2<int>, side0: int, sample0: real)
    returns (side: int, sampleX: real)
    ensures side == HitSide(a) && sampleX == SampleFor(side, point, test)
  {
    side, sampleX := side0, sample0;
    if a >= -Pi * 0.25 && a < Pi * 0.25 {
      sampleX := point.y - test.y as real;
      side := 1;
    }
    if a >= Pi * 0.25 && a < Pi * 0.75 {
      sampleX := point.x - test.x as real;
      side := 0;
    }
    if a < -Pi * 0.25 && a >= -Pi * 0.75 {
      sampleX := point.x - test.x as real;
      side := 0;
    }
    if a >= Pi * 0.75 || a < -Pi * 0.75 {
      sampleX := point.y - test.y as real;
      side := 1;
    }
  }

  /** The wall branch of the march: classify the side at the hit point, then
      correct the distance by the fisheye cosine. */
  method HitWall(p: Vec2<real>, eye: Vec2<real>, atan2: (real, real) -> real,
                 fisheyeCos: real, previousSample: real, ghost k: nat, distance0: real,
                 test: Vec2<int>, side0: int, sample0: real)
    returns (distance: real, side: int, sampleX: real)
    requires distance0 == k as real * Step
    ensures RaySample(distance, test, side, sampleX)
      == CastResult(March(k, test, WallHit), p, eye, atan2, fisheyeCos, previousSample)
  {
    var point := Add(p, Scale(eye, distance0));
    side, sampleX := ClassifyHit(HitAngle(atan2, point, test), point, test, side0, sample0);
    WallResult(p, eye, atan2, fisheyeCos, previousSample, k, distance0, test, side, sampleX);
    distance := distance0 * fisheyeCos;
  }

  /** One pass of the march loop's body: one more step of distance, the cell
      under the new test point, then the guard and the tile test; a wall hit
      classifies the side and corrects the distance. */
  method MarchOnce(tiles: seq<int>, p: Vec2<real>, eye: Vec2<real>, atan2: (real, real) -> real,
                   fisheyeCos: real, previousSample: real, ghost k: nat, distance0: real,
                   side0: int, sample0: real)
    returns (hit: bool, distance: real, test: Vec2<int>, side: int, sampleX: real)
    requires MapOk(tiles) && UnitBounded(eye) && k < MaxSteps && Interior(TileOf(Probe(p, eye, k)))
    requires distance0 == k as real * Step
    ensures !hit ==> distance == (k + 1) as real * Step && side == side0 && sampleX == sample0
    ensures !hit && k + 1 < MaxSteps ==>
      (Interior(TileOf(Probe(p, eye, k + 1))) && MarchFrom(tiles, p, eye, k + 1) == MarchFrom(tiles, p, eye, k))
    ensures !hit && k + 1 == MaxSteps ==> MarchFrom(tiles, p, eye, k) == March(k + 1, test, OutOfDepth)
    ensures hit ==> (RaySample(distance, test, side, sampleX)
                     == CastResult(MarchFrom(tiles, p, eye, k), p, eye, atan2, fisheyeCos, previousSample))
  {
    MarchStep(tiles, p, eye, k);
    NextDistance(k, distance0);
    distance := distance0 + Step;
    ProbeAtDistance(p, eye, k + 1, distance);
    test := TileOf(Add(p, Scale(eye, distance)));
    hit, side, sampleX := false, side0, sample0;
    if test.x < 0 || test.x > MapWidth || test.y < 0 || test.y > MapHeight {
      hit := true;
      distance := Depth;
    } else if GetMapTileAt(tiles, test) != 0 {
      hit := true;
      distance, side, sampleX := HitWall(p, eye, atan2, fisheyeCos, previousSample, k + 1, distance, test, side, sampleX);
    }
  }

  /** One column of the wall caster, as the source runs it: step, truncate,
      test the guard, test the tile, and on a hit classify the side and correct
      the distance. */
  method CastRay(tiles: seq<int>, p: Vec2<real>, eye: Vec2<real>, atan2: (real, real) -> real,
                 fisheyeCos: real, previousSample: real)
    returns (r: RaySample)
    requires MapOk(tiles) && UnitBounded(eye) && Interior(TileOf(p))
    ensures r == CastSpec(tiles, p, eye, atan2, fisheyeCos, previousSample)
  {
    var distance := 0.0;
    var hit := false;
    var test := Vec2(0, 0);
    var side := 0;
    var sampleX := previousSample;
    ghost var m0 := MarchFromPlayer(tiles, p, eye);
    ghost var k: nat := 0;
    while !hit && distance < Depth
      invariant 0 <= k <= MaxSteps
      invariant !hit ==> distance == k as real * Step && side == 0 && sampleX == previousSample
      invariant !hit && k < MaxSteps ==> (Interior(TileOf(Probe(p, eye, k))) && MarchFrom(tiles, p, eye, k) == m0)
      invariant !hit && k == MaxSteps ==> m0 == March(k, test, OutOfDepth)
      invariant hit ==> RaySample(distance, test, side, sampleX) == CastResult(m0, p, eye, atan2, fisheyeCos, previousSample)
      decreases (if hit then 0 else MaxSteps - k + 1)
    {
      DistanceBelowDepth(k, distance);
      hit, distance, test, side, sampleX := MarchOnce(tiles, p, eye, atan2, fisheyeCos, previousSample, k, distance, side, sampleX);
      k := k + 1;
    }
    if !hit {
      DistanceBelowDepth(k, distance);
    }
    r := RaySample(distance, test, side, sampleX);
  }
}
