/** The Raycaster application (source/raycaster.cc, class Raycaster): the
    player's pose, the data path, the texture table, the sprite list, the
    depth buffer and the texture coordinate `sample_x` that persists from
    column to column and frame to frame; `on_load` and the phases of
    `on_frame_update`: turning and moving, spawning a fireball, casting one ray
    per screen column, moving and drawing the sprites, and the end-of-frame
    removal and sort.

    sinf, cosf, atan2f and sqrtf are supplied as functions; sinf and cosf stay
    in [-1, 1].  The pixel arithmetic of the sprite billboard is also supplied:
    for an object's angle, distance and texture it yields the screen columns
    its loop visits.  The frame time stays below 0.2 s, so nothing moves a full
    tile in one frame. */
module Raycaster {
  import opened Vec
  import opened Grid
  import opened Angles
  import opened RayMarch
  import opened Objects
  import opened Mrt

  const ScreenWidth: int := 640
  const ScreenHeight: int := 480
  const RotationSpeed: real := 3.0
  const MovementSpeed: real := 4.0
  /** The factor applied to sinf/cosf of the player angle for a fireball. */
  const ProjectileSpeed: real := 5.0

  const BarrelTexture: nat := 9
  const PillarTexture: nat := 10
  const FireballTexture: nat := 11

  /** The files of the texture table, relative to the data path, in the order
      on_load pushes them. */
  const TextureFiles: seq<string> := [
    "res/logo.png",
    "res/wolf3d/WALL91.bmp",
    "res/wolf3d/WALL0.bmp",
    "res/wolf3d/WALL4.bmp",
    "res/wolf3d/WALL10.bmp",
    "res/wolf3d/WALL22.bmp",
    "res/wolf3d/WALL20.bmp",
    "res/wolf3d/WALL18.bmp",
    "res/wolf3d/WALL44.bmp",
    "res/sprites/barrel.png",
    "res/sprites/pillar.png",
    "res/fireball.png"
  ]

  /** The texture table's paths under a data path. */
  function TexturePaths(dataPath: string): (r: seq<string>)
    ensures |r| == TextureCount
    ensures forall i :: 0 <= i < TextureCount ==> r[i] == dataPath + TextureFiles[i]
  {
    seq(|TextureFiles|, i requires 0 <= i < |TextureFiles| => dataPath + TextureFiles[i])
  }

  /** The range of sinf and cosf. */
  type Unit = r: real | -1.0 <= r <= 1.0 witness 0.0

  /** The numeric library: sinf, cosf, atan2f(y, x) and sqrtf. */
  datatype Maths = Maths(sin: real -> Unit, cos: real -> Unit, atan2: (real, real) -> real, sqrt: real -> real)

  /** The sprite's screen columns, for its angle, distance and texture. */
  ghost predicate ColumnsOk(spriteColumns: (real, real, nat) -> seq<int>)
  {
    forall a, d, t :: ColumnsInRange(spriteColumns(a, d, t), ScreenWidth)
  }

  predicate FrameTimeOk(frameTime: real)
  {
    0.0 <= frameTime < 0.2
  }

  /** The constructor's data-path rule: a path not ending in '/' gets one. */
  function NormalizeDataPath(path: string): (r: string)
    requires |path| > 0
    ensures |r| > 0 && r[|r| - 1] == '/'
    ensures path[|path| - 1] == '/' ==> r == path
    ensures path[|path| - 1] != '/' ==> r == path + "/"
  {
    if path[|path| - 1] != '/' then path + "/" else path
  }

  /** Normalising twice is normalising once. */
  lemma NormalizeDataPathIdempotent(path: string)
    requires |path| > 0
    ensures NormalizeDataPath(NormalizeDataPath(path)) == NormalizeDataPath(path)
  {
  }

  /** One speculative move: the displacement is added, and subtracted again
      when the tile under the new position is not empty. */
  function TryMove(tiles: seq<int>, pos: Vec2<real>, d: Vec2<real>): (r: Vec2<real>)
    requires MapOk(tiles) && Interior(TileOf(pos)) && -1.0 < d.x < 1.0 && -1.0 < d.y < 1.0
    ensures Interior(TileOf(r))
    ensures GetMapTileAt(tiles, TileOf(Add(pos, d))) != 0 ==> r == pos
    ensures GetMapTileAt(tiles, TileOf(Add(pos, d))) == 0 ==> r == Add(pos, d)
  {
    var moved := Add(pos, d);
    NearTilesAdjacent(moved, pos);
    NeighbourInGrid(TileOf(pos), TileOf(moved));
    if GetMapTileAt(tiles, TileOf(moved)) != 0 then
      AddThenSubIsIdentity(pos, d);
      Sub(moved, d)
    else
      EmptyTileIsInterior(tiles, TileOf(moved));
      moved
  }

  /** The movement keys, in the order the frame handles them. */
  datatype Move = Forward | Backward | StrafeLeft | StrafeRight

  /** A sine or cosine times a walking step stays below one tile. */
  lemma UnitTimesStep(s: real, step: real)
    requires -1.0 <= s <= 1.0 && 0.0 <= step < 1.0
    ensures -1.0 < Mul(s, step) < 1.0
  {
    if s >= 0.0 {
      assert s * step <= step;
    } else {
      assert (-s) * step <= step;
    }
  }

  /** Each key's displacement, from sinf/cosf of the player angle, in units
      of movement_speed * frame_time: W adds (sin, cos), S subtracts it, A adds
      (-cos, sin) and D adds (cos, -sin).  It is less than a tile on each axis. */
  function Displacement(m: Move, s: real, c: real, frameTime: real): (d: Vec2<real>)
    requires -1.0 <= s <= 1.0 && -1.0 <= c <= 1.0 && FrameTimeOk(frameTime)
    ensures -1.0 < d.x < 1.0 && -1.0 < d.y < 1.0
  {
    var step := MovementSpeed * frameTime;
    UnitTimesStep(s, step);
    UnitTimesStep(c, step);
    match m
    case Forward => Vec2(Mul(s, step), Mul(c, step))
    case Backward => Vec2(-Mul(s, step), -Mul(c, step))
    case StrafeLeft => Vec2(-Mul(c, step), Mul(s, step))
    case StrafeRight => Vec2(Mul(c, step), -Mul(s, step))
  }

  /** A held movement key moves the player if the tile it lands on is empty. */
  function MoveIfHeld(tiles: seq<int>, pos: Vec2<real>, held: bool, m: Move, s: real, c: real, frameTime: real): (r: Vec2<real>)
    requires MapOk(tiles) && Interior(TileOf(pos)) && -1.0 <= s <= 1.0 && -1.0 <= c <= 1.0 && FrameTimeOk(frameTime)
    ensures Interior(TileOf(r))
    ensures !held ==> r == pos
    ensures held ==> r == TryMove(tiles, pos, Displacement(m, s, c, frameTime))
  {
    if held then TryMove(tiles, pos, Displacement(m, s, c, frameTime)) else pos
  }

  /** The player angle after the rotation keys: LEFT turns by
      -rotation_speed * frame_time, RIGHT by +rotation_speed * frame_time;
      no collision test applies to turning. */
  function Turn(angle: real, left: bool, right: bool, frameTime: real): (r: real)
    ensures left == right ==> r == angle
    ensures left && !right ==> r == angle - RotationSpeed * frameTime
    ensures right && !left ==> r == angle + RotationSpeed * frameTime
  {
    var a := if left then angle - RotationSpeed * frameTime else angle;
    if right then a + RotationSpeed * frameTime else a
  }

  /** The position after W, S, A and D, in that order, each tried from where
      the previous one left the player.  `s` and `c` are sinf and cosf of the
      already turned angle. */
  function Walk(tiles: seq<int>, pos: Vec2<real>, input: Input, s: real, c: real, frameTime: real): (r: Vec2<real>)
    requires MapOk(tiles) && WellFormed(input) && Interior(TileOf(pos))
    requires -1.0 <= s <= 1.0 && -1.0 <= c <= 1.0 && FrameTimeOk(frameTime)
    ensures Interior(TileOf(r))
  {
    var p1 := MoveIfHeld(tiles, pos, KeyStateOf(input, ScancodeW).held, Forward, s, c, frameTime);
    var p2 := MoveIfHeld(tiles, p1, KeyStateOf(input, ScancodeS).held, Backward, s, c, frameTime);
    var p3 := MoveIfHeld(tiles, p2, KeyStateOf(input, ScancodeA).held, StrafeLeft, s, c, frameTime);
    MoveIfHeld(tiles, p3, KeyStateOf(input, ScancodeD).held, StrafeRight, s, c, frameTime)
  }

  /** With no movement key held the player stays put; otherwise the player
      ends on an empty tile or where the frame began. */
  lemma WalkStaysOrLandsOnEmpty(tiles: seq<int>, pos: Vec2<real>, input: Input, s: real, c: real, frameTime: real)
    requires MapOk(tiles) && WellFormed(input) && Interior(TileOf(pos))
    requires -1.0 <= s <= 1.0 && -1.0 <= c <= 1.0 && FrameTimeOk(frameTime)
    ensures var r := Walk(tiles, pos, input, s, c, frameTime);
      r == pos || GetMapTileAt(tiles, TileOf(r)) == 0
    ensures !KeyStateOf(input, ScancodeW).held && !KeyStateOf(input, ScancodeS).held
      && !KeyStateOf(input, ScancodeA).held && !KeyStateOf(input, ScancodeD).held
      ==> Walk(tiles, pos, input, s, c, frameTime) == pos
  {
  }

  /** The fireball spawned by SPACE: key 0, at the player, moving at 5 times
      (sinf, cosf) of the player angle, not flagged, textured with texture 11. */
  function Fireball(player: Vec2<real>, s: real, c: real): (o: GameObject)
    ensures o.pos == player && !o.remove && o.texture == FireballTexture
    ensures -1.0 <= s <= 1.0 && -1.0 <= c <= 1.0 ==>
      -ProjectileSpeed <= o.v.x <= ProjectileSpeed && -ProjectileSpeed <= o.v.y <= ProjectileSpeed
  {
    GameObject(player, Vec2(s * ProjectileSpeed, c * ProjectileSpeed), false, FireballTexture)
  }

  /** The sprite list after the SPACE test. */
  function Spawned(objects: seq<Entry>, pressed: bool, player: Vec2<real>, s: real, c: real): (r: seq<Entry>)
    ensures !pressed ==> r == objects
    ensures pressed ==> (|r| == |objects| + 1 && r[..|objects|] == objects
                         && r[|objects|] == Entry(0, Fireball(player, s, c)))
  {
    if pressed then objects + [Entry(0, Fireball(player, s, c))] else objects
  }

  /** What every sprite at the start of a frame satisfies: not flagged, on an
      interior tile, at most 5 tiles per second on each axis, and a texture of
      the table. */
  predicate ObjectOk(o: GameObject)
  {
    !o.remove && Interior(TileOf(o.pos))
    && -ProjectileSpeed <= o.v.x <= ProjectileSpeed && -ProjectileSpeed <= o.v.y <= ProjectileSpeed
    && o.texture < TextureCount
  }

  predicate AllObjectsOk(objects: seq<Entry>)
  {
    forall i :: 0 <= i < |objects| ==> ObjectOk(objects[i].obj)
  }

  /** A fireball leaves from an interior tile with a speed within bounds. */
  lemma FireballOk(player: Vec2<real>, s: real, c: real)
    requires Interior(TileOf(player)) && -1.0 <= s <= 1.0 && -1.0 <= c <= 1.0
    ensures ObjectOk(Fireball(player, s, c))
  {
  }

  /** The sprite's move over one frame: the position advances by v *
      frame_time, and the flag is raised when the new tile is not empty and is
      never cleared. */
  function Advance(tiles: seq<int>, o: GameObject, frameTime: real): (r: GameObject)
    requires MapOk(tiles) && ObjectOk(o) && FrameTimeOk(frameTime)
    ensures r.pos == Add(o.pos, Scale(o.v, frameTime)) && r.v == o.v && r.texture == o.texture
    ensures InGrid(TileOf(r.pos))
    ensures r.remove <==> GetMapTileAt(tiles, TileOf(r.pos)) != 0
    ensures !r.remove ==> ObjectOk(r)
  {
    var step := Scale(o.v, frameTime);
    ScaleBelowOne(o.v, frameTime);
    var pos := Add(o.pos, step);
    SmallStepIsNear(o.pos, step);
    NearTilesAdjacent(pos, o.pos);
    NeighbourInGrid(TileOf(o.pos), TileOf(pos));
    var remove := o.remove || GetMapTileAt(tiles, TileOf(pos)) != 0;
    if !remove then EmptyTileIsInterior(tiles, TileOf(pos)); GameObject(pos, o.v, remove, o.texture)
    else GameObject(pos, o.v, remove, o.texture)
  }

  /** vec.x * vec.x + vec.y * vec.y for the vector from the player to an object. */
  function SquaredDistance(pos: Vec2<real>, player: Vec2<real>): real
  {
    var vec := Sub(pos, player);
    Mul(vec.x, vec.x) + Mul(vec.y, vec.y)
  }

  /** sqrtf of the squared distance between an object and the player. */
  function DistanceFromPlayer(pos: Vec2<real>, player: Vec2<real>, maths: Maths): real
  {
    maths.sqrt(SquaredDistance(pos, player))
  }

  /** sqrtf never decreases on the non-negative reals. */
  ghost predicate SqrtMonotone(maths: Maths)
  {
    forall x: real, y: real :: 0.0 <= x <= y ==> maths.sqrt(x) <= maths.sqrt(y)
  }

  /** A position no farther from the player than another never gets a larger
      sort key: the key truncates a distance that grows with the squared one. */
  lemma KeyFollowsDistance(pa: Vec2<real>, pb: Vec2<real>, player: Vec2<real>, maths: Maths)
    requires SqrtMonotone(maths) && SquaredDistance(pa, player) <= SquaredDistance(pb, player)
    ensures Trunc(DistanceFromPlayer(pa, player, maths)) <= Trunc(DistanceFromPlayer(pb, player, maths))
  {
    var d := Sub(pa, player);
    MulSelfNonNegative(d.x);
    MulSelfNonNegative(d.y);
    TruncMonotone(DistanceFromPlayer(pa, player, maths), DistanceFromPlayer(pb, player, maths));
  }

  /** The object's angular offset from the view direction, wrapped once. */
  function ObjectAngle(pos: Vec2<real>, player: Vec2<real>, angle: real, maths: Maths): (r: real)
    ensures var vec := Sub(pos, player);
      var raw := maths.atan2(maths.cos(angle), maths.sin(angle)) - maths.atan2(vec.y, vec.x);
      (r == raw || r == raw + 2.0 * Pi || r == raw - 2.0 * Pi)
      && ((-1.5 * Pi <= maths.atan2(maths.cos(angle), maths.sin(angle)) <= 1.5 * Pi
           && -1.5 * Pi <= maths.atan2(vec.y, vec.x) <= 1.5 * Pi) ==> -Pi <= r <= Pi)
  {
    var vec := Sub(pos, player);
    WrapObjectAngle(maths.atan2(maths.cos(angle), maths.sin(angle)) - maths.atan2(vec.y, vec.x))
  }

  /** One element after the sprite pass: moved, flagged when it hit a wall,
      and keyed by its distance truncated to an int. */
  function Updated(tiles: seq<int>, e: Entry, player: Vec2<real>, maths: Maths, frameTime: real): (r: Entry)
    requires MapOk(tiles) && ObjectOk(e.obj) && FrameTimeOk(frameTime)
    ensures r.obj == Advance(tiles, e.obj, frameTime)
    ensures r.key == Trunc(DistanceFromPlayer(r.obj.pos, player, maths))
  {
    var o := Advance(tiles, e.obj, frameTime);
    Entry(Trunc(DistanceFromPlayer(o.pos, player, maths)), o)
  }

  function UpdatedAll(tiles: seq<int>, objects: seq<Entry>, player: Vec2<real>, maths: Maths, frameTime: real): (r: seq<Entry>)
    requires MapOk(tiles) && AllObjectsOk(objects) && FrameTimeOk(frameTime)
    ensures |r| == |objects|
    ensures forall i :: 0 <= i < |objects| ==> r[i] == Updated(tiles, objects[i], player, maths, frameTime)
  {
    seq(|objects|, i requires 0 <= i < |objects| => Updated(tiles, objects[i], player, maths, frameTime))
  }

  /** The columns a sprite's loop draws: none when it is outside the field of
      view or not between 0.5 and depth away, otherwise those passing the depth
      test. */
  function SpriteColumnsDrawn(depthBuffer: seq<real>, e: Entry, player: Vec2<real>, angle: real,
                              maths: Maths, spriteColumns: (real, real, nat) -> seq<int>): (r: seq<int>)
    requires |depthBuffer| == ScreenWidth && ColumnsOk(spriteColumns)
    ensures forall c :: c in r ==>
      (0 <= c < ScreenWidth && depthBuffer[c] >= DistanceFromPlayer(e.obj.pos, player, maths))
    ensures (!ObjectVisible(ObjectAngle(e.obj.pos, player, angle, maths),
                            DistanceFromPlayer(e.obj.pos, player, maths), Fov, Depth)) ==> r == []
    ensures ObjectVisible(ObjectAngle(e.obj.pos, player, angle, maths),
                          DistanceFromPlayer(e.obj.pos, player, maths), Fov, Depth) ==>
      r == VisibleColumns(depthBuffer,
                          spriteColumns(ObjectAngle(e.obj.pos, player, angle, maths),
                                        DistanceFromPlayer(e.obj.pos, player, maths), e.obj.texture),
                          DistanceFromPlayer(e.obj.pos, player, maths))
  {
    var distance := DistanceFromPlayer(e.obj.pos, player, maths);
    var objectAngle := ObjectAngle(e.obj.pos, player, angle, maths);
    if ObjectVisible(objectAngle, distance, Fov, Depth) then
      VisibleColumns(depthBuffer, spriteColumns(objectAngle, distance, e.obj.texture), distance)
    else []
  }

  /** The columns each sprite of the pass draws, in list order. */
  ghost function SpritesDrawn(depthBuffer: seq<real>, objects: seq<Entry>, player: Vec2<real>, angle: real,
                              maths: Maths, spriteColumns: (real, real, nat) -> seq<int>): (r: seq<seq<int>>)
    requires |depthBuffer| == ScreenWidth && ColumnsOk(spriteColumns)
    ensures |r| == |objects|
    ensures forall i :: 0 <= i < |objects| ==>
      r[i] == SpriteColumnsDrawn(depthBuffer, objects[i], player, angle, maths, spriteColumns)
  {
    seq(|objects|, i requires 0 <= i < |objects| =>
      SpriteColumnsDrawn(depthBuffer, objects[i], player, angle, maths, spriteColumns))
  }

  /** The list after remove_if and sort. */
  function EndOfFrame(objects: seq<Entry>): (r: seq<Entry>)
    ensures |r| <= |objects| && SortedDesc(r)
  {
    SortByKeyDescSorted(Survivors(objects));
    SortByKeyDesc(Survivors(objects))
  }

  /** After the frame the list holds no flagged object, its keys never
      increase, and it holds exactly the unflagged objects of the sprite pass,
      with equal keys in their previous order. */
  lemma EndOfFrameProperties(objects: seq<Entry>, k: int)
    ensures var r := EndOfFrame(objects);
      SortedDesc(r)
      && multiset(r) == multiset(Survivors(objects))
      && (forall i :: 0 <= i < |r| ==> !r[i].obj.remove)
      && WithKey(r, k) == WithKey(Survivors(objects), k)
  {
    var s := Survivors(objects);
    SortByKeyDescSorted(s);
    SortByKeyDescPermutes(s);
    SortByKeyDescStable(s, k);
    var r := EndOfFrame(objects);
    forall i | 0 <= i < |r|
      ensures !r[i].obj.remove
    {
      assert r[i] in multiset(s);
    }
  }

  /** Every entry that survives the frame is keyed by its own distance from the
      player. */
  lemma EndOfFrameKeyed(tiles: seq<int>, objects: seq<Entry>, player: Vec2<real>, maths: Maths,
                        frameTime: real, e: Entry)
    requires MapOk(tiles) && AllObjectsOk(objects) && FrameTimeOk(frameTime)
    requires e in EndOfFrame(UpdatedAll(tiles, objects, player, maths, frameTime))
    ensures e.key == Trunc(DistanceFromPlayer(e.obj.pos, player, maths))
  {
    var u := UpdatedAll(tiles, objects, player, maths, frameTime);
    EndOfFrameProperties(u, 0);
    assert e in multiset(Survivors(u));
    var i :| 0 <= i < |u| && u[i] == e;
  }

  /** The list the next frame's sprite pass reads runs far to near: an entry
      ahead of another that is no farther from the player has the same key,
      so a strictly nearer sprite is only ahead when the truncation to int
      merges the two distances. */
  lemma EndOfFrameFarToNear(tiles: seq<int>, objects: seq<Entry>, player: Vec2<real>, maths: Maths,
                            frameTime: real)
    requires MapOk(tiles) && AllObjectsOk(objects) && FrameTimeOk(frameTime) && SqrtMonotone(maths)
    ensures var r := EndOfFrame(UpdatedAll(tiles, objects, player, maths, frameTime));
      forall i, j :: 0 <= i < j < |r| && SquaredDistance(r[i].obj.pos, player) <= SquaredDistance(r[j].obj.pos, player)
        ==> r[i].key == r[j].key
  {
    var u := UpdatedAll(tiles, objects, player, maths, frameTime);
    var r := EndOfFrame(u);
    EndOfFrameProperties(u, 0);
    forall i, j | 0 <= i < j < |r| && SquaredDistance(r[i].obj.pos, player) <= SquaredDistance(r[j].obj.pos, player)
      ensures r[i].key == r[j].key
    {
      EndOfFrameKeyed(tiles, objects, player, maths, frameTime, r[i]);
      EndOfFrameKeyed(tiles, objects, player, maths, frameTime, r[j]);
      KeyFollowsDistance(r[i].obj.pos, r[j].obj.pos, player, maths);
    }
  }

  /** The sprites still present at the next frame are exactly the updated
      ones that did not hit a wall, and they meet the start-of-frame
      requirements again. */
  lemma EndOfFrameObjectsOk(tiles: seq<int>, objects: seq<Entry>, player: Vec2<real>, maths: Maths, frameTime: real)
    requires MapOk(tiles) && AllObjectsOk(objects) && FrameTimeOk(frameTime)
    ensures AllObjectsOk(EndOfFrame(UpdatedAll(tiles, objects, player, maths, frameTime)))
  {
    var u := UpdatedAll(tiles, objects, player, maths, frameTime);
    var s := Survivors(u);
    var r := EndOfFrame(u);
    SortByKeyDescPermutes(s);
    forall i | 0 <= i < |r|
      ensures ObjectOk(r[i].obj)
    {
      assert r[i] in multiset(s);
      assert r[i] in u;
      var j :| 0 <= j < |u| && u[j] == r[i];
    }
  }

  /** The sprites on_load places: two barrels in row 2 and two pillars in row
      20, all standing still. */
  const InitialObjects: seq<Entry> := [
    Entry(0, GameObject(Vec2(20.5, 2.5), Vec2(0.0, 0.0), false, BarrelTexture)),
    Entry(0, GameObject(Vec2(5.5, 2.5), Vec2(0.0, 0.0), false, BarrelTexture)),
    Entry(0, GameObject(Vec2(4.5, 20.5), Vec2(0.0, 0.0), false, PillarTexture)),
    Entry(0, GameObject(Vec2(11.5, 20.5), Vec2(0.0, 0.0), false, PillarTexture))
  ]

  /** Every initial sprite stands on an empty, interior tile. */
  lemma InitialObjectsOk()
    ensures AllObjectsOk(InitialObjects) && MapOk(Map)
    ensures forall i :: 0 <= i < |InitialObjects| ==> GetMapTileAt(Map, TileOf(InitialObjects[i].obj.pos)) == 0
  {
    MapIsOk();
    TileAtCell(20, 2);
    TileAtCell(5, 2);
    TileAtCell(4, 20);
    TileAtCell(11, 20);
    assert Trunc(20.5) == 20 && Trunc(2.5) == 2 && Trunc(5.5) == 5;
    assert Trunc(4.5) == 4 && Trunc(20.5) == 20 && Trunc(11.5) == 11;
  }

  /** The angle of the ray for screen column x. */
  function RayAngle(angle: real, x: int): real
  {
    (angle - Fov / 2.0) + (x as real / ScreenWidth as real) * Fov
  }

  /** The rays sweep the field of view from left to right: column 0 looks
      fov / 2 to the left of the player's angle, and every column up to the
      screen width looks at most fov / 2 away from it. */
  lemma RayAngleInView(angle: real, x: int, y: int)
    requires 0 <= x <= y <= ScreenWidth
    ensures RayAngle(angle, 0) == angle - Fov / 2.0
    ensures angle - Fov / 2.0 <= RayAngle(angle, x) <= RayAngle(angle, y) <= angle + Fov / 2.0
  {
  }

  /** One column of the wall caster, from the sample_x the previous column
      left. */
  function ColumnCast(tiles: seq<int>, p: Vec2<real>, angle: real, maths: Maths, x: int, previousSample: real): RaySample
    requires MapOk(tiles) && Interior(TileOf(p))
  {
    var rayAngle := RayAngle(angle, x);
    CastSpec(tiles, p, Vec2(maths.sin(rayAngle), maths.cos(rayAngle)), maths.atan2,
             maths.cos(rayAngle - angle), previousSample)
  }

  /** sample_x as the last column left it, or as it was before the first. */
  function LastSample(columns: seq<RaySample>, sample0: real): real
  {
    if columns == [] then sample0 else columns[|columns| - 1].sampleX
  }

  /** The first n columns of a pass that casts column x from the sample_x
      the previous column left. */
  function Columns(cast: (int, real) -> RaySample, sample0: real, n: nat): (r: seq<RaySample>)
    ensures |r| == n
  {
    if n == 0 then []
    else
      var previous := Columns(cast, sample0, n - 1);
      previous + [cast(n - 1, LastSample(previous, sample0))]
  }

  /** The first n columns of the wall pass. */
  function WallColumns(tiles: seq<int>, p: Vec2<real>, angle: real, maths: Maths, sample0: real, n: nat): (r: seq<RaySample>)
    requires MapOk(tiles) && Interior(TileOf(p))
    ensures |r| == n
  {
    Columns((x, previousSample) => ColumnCast(tiles, p, angle, maths, x, previousSample), sample0, n)
  }

  /** The wall pass grows one column at a time, each cast from the sample_x
      the previous one left. */
  lemma WallColumnsStep(tiles: seq<int>, p: Vec2<real>, angle: real, maths: Maths, sample0: real, n: nat)
    requires MapOk(tiles) && Interior(TileOf(p))
    ensures var previous := WallColumns(tiles, p, angle, maths, sample0, n);
      WallColumns(tiles, p, angle, maths, sample0, n + 1)
      == previous + [ColumnCast(tiles, p, angle, maths, n, LastSample(previous, sample0))]
  {
  }

  /** A column ends on a cell of the grid whose tile indexes the texture
      table, so textures.at never throws; a column that found no wall reports
      depth. */
  predicate ColumnOk(tiles: seq<int>, r: RaySample)
    requires MapOk(tiles)
  {
    InGrid(r.test) && 0 <= GetMapTileAt(tiles, r.test) < TextureCount
    && (GetMapTileAt(tiles, r.test) == 0 ==> r.distance == Depth)
  }

  /** Every single column meets ColumnOk, whatever sample_x it starts from. */
  lemma ColumnCastOk(tiles: seq<int>, p: Vec2<real>, angle: real, maths: Maths, x: int, previousSample: real)
    requires MapOk(tiles) && Interior(TileOf(p))
    ensures ColumnOk(tiles, ColumnCast(tiles, p, angle, maths, x, previousSample))
  {
    var rayAngle := RayAngle(angle, x);
    CastStaysInGrid(tiles, p, Vec2(maths.sin(rayAngle), maths.cos(rayAngle)), maths.atan2,
                    maths.cos(rayAngle - angle), previousSample);
  }

  /** When every single column meets ColumnOk, so does every column of the
      pass. */
  lemma {:induction false} ColumnsInGrid(tiles: seq<int>, cast: (int, real) -> RaySample, sample0: real, n: nat)
    requires MapOk(tiles) && forall x, previousSample :: ColumnOk(tiles, cast(x, previousSample))
    ensures forall x :: 0 <= x < n ==> ColumnOk(tiles, Columns(cast, sample0, n)[x])
  {
    if n > 0 {
      var previous := Columns(cast, sample0, n - 1);
      ColumnsInGrid(tiles, cast, sample0, n - 1);
      assert ColumnOk(tiles, cast(n - 1, LastSample(previous, sample0)));
    }
  }

  /** Every column of the wall pass meets ColumnOk. */
  lemma WallColumnsInGrid(tiles: seq<int>, p: Vec2<real>, angle: real, maths: Maths, sample0: real, n: nat)
    requires MapOk(tiles) && Interior(TileOf(p))
    ensures forall x :: 0 <= x < n ==> ColumnOk(tiles, WallColumns(tiles, p, angle, maths, sample0, n)[x])
  {
    var cast := (x, previousSample) => ColumnCast(tiles, p, angle, maths, x, previousSample);
    forall x, previousSample
      ensures ColumnOk(tiles, cast(x, previousSample))
    {
      ColumnCastOk(tiles, p, angle, maths, x, previousSample);
    }
    ColumnsInGrid(tiles, cast, sample0, n);
  }

  /** The application object. */
  class Raycaster {
    var dataPath: string
    var player: Vec2<real>
    var playerAngle: real
    var sampleX: real
    var textures: seq<string>
    var objects: seq<Entry>
    const depthBuffer: array<real>
    /** The member `map`: the tile table, never changed after construction. */
    const tiles: seq<int>

    /** The state every frame begins and ends in. */
    ghost predicate Valid()
      reads this
    {
      depthBuffer.Length == ScreenWidth && MapOk(tiles) && Interior(TileOf(player)) && AllObjectsOk(objects)
    }

    /** on_load has filled the texture table. */
    predicate Loaded()
      reads this
    {
      |textures| == TextureCount
    }

    /** The player starts at (8, 8), facing angle 0, with an empty sprite
        list, a depth buffer of one entry per screen column, and the data path
        ending in '/'. */
    constructor (path: string)
      requires |path| > 0
      ensures Valid() && fresh(depthBuffer)
      ensures dataPath == NormalizeDataPath(path)
      ensures player == Vec2(8.0, 8.0) && playerAngle == 0.0 && sampleX == 0.0
      ensures textures == [] && objects == [] && tiles == Map
    {
      tiles := Map;
      MapIsOk();
      player := Vec2(8.0, 8.0);
      playerAngle := 0.0;
      sampleX := 0.0;
      textures := [];
      objects := [];
      depthBuffer := new real[ScreenWidth];
      dataPath := path;
      new;
      if dataPath[|dataPath| - 1] != '/' {
        dataPath := dataPath + "/";
      }
    }

    /** The twelve textures, loaded from the data path, and the four props. */
    method OnLoad()
      requires Valid()
      modifies this`textures, this`objects
      ensures Valid() && Loaded()
      ensures textures == TexturePaths(dataPath)
      ensures objects == InitialObjects
    {
      textures := [];
      var i := 0;
      while i < |TextureFiles|
        invariant 0 <= i <= |TextureFiles|
        invariant textures == TexturePaths(dataPath)[..i]
      {
        textures := textures + [dataPath + TextureFiles[i]];
        i := i + 1;
      }
      objects := InitialObjects;
      InitialObjectsOk();
    }

    /** The rotation keys, then W, S, A and D, each applied and undone when
        the player would end on a non-empty tile. */
    method MovePlayer(input: Input, maths: Maths, frameTime: real)
      requires Valid() && WellFormed(input) && FrameTimeOk(frameTime)
      modifies this`player, this`playerAngle
      ensures Valid()
      ensures playerAngle == Turn(old(playerAngle), KeyStateOf(input, ScancodeLeft).held,
                                  KeyStateOf(input, ScancodeRight).held, frameTime)
      ensures player == Walk(tiles, old(player), input, maths.sin(playerAngle), maths.cos(playerAngle), frameTime)
    {
      var angle := playerAngle;
      if KeyStateOf(input, ScancodeLeft).held {
        angle := angle - RotationSpeed * frameTime;
      }
      if KeyStateOf(input, ScancodeRight).held {
        angle := angle + RotationSpeed * frameTime;
      }
      playerAngle := angle;
      var s, c := maths.sin(angle), maths.cos(angle);
      player := MoveKeys(tiles, player, input, s, c, frameTime);
    }

    /** SPACE appends one fireball at the end of the list; nothing else in the
        list changes. */
    method SpawnFireball(input: Input, maths: Maths)
      requires Valid() && WellFormed(input)
      modifies this`objects
      ensures Valid()
      ensures objects == Spawned(old(objects), KeyStateOf(input, ScancodeSpace).pressed,
                                 player, maths.sin(playerAngle), maths.cos(playerAngle))
    {
      if KeyStateOf(input, ScancodeSpace).pressed {
        var o := GameObject(player, Vec2(maths.sin(playerAngle) * ProjectileSpeed,
                                         maths.cos(playerAngle) * ProjectileSpeed),
                            false, FireballTexture);
        FireballOk(player, maths.sin(playerAngle), maths.cos(playerAngle));
        objects := objects + [Entry(0, o)];
      }
    }

    /** The wall pass: one ray per screen column, its distance written to the
        depth buffer, sample_x carried from column to column. */
    method CastWalls(maths: Maths) returns (walls: seq<RaySample>)
      requires Valid() && Loaded()
      modifies this`sampleX, depthBuffer
      ensures walls == WallColumns(tiles, player, playerAngle, maths, old(sampleX), ScreenWidth as nat)
      ensures sampleX == LastSample(walls, old(sampleX))
      ensures forall x :: 0 <= x < ScreenWidth ==> depthBuffer[x] == walls[x].distance
    {
      var p, angle, sample0, table := player, playerAngle, sampleX, textures;
      var sample := sample0;
      walls := [];
      var x := 0;
      while x < ScreenWidth
        invariant 0 <= x <= ScreenWidth
        invariant walls == WallColumns(tiles, p, angle, maths, sample0, x)
        invariant sample == LastSample(walls, sample0)
        invariant forall j :: 0 <= j < x ==> depthBuffer[j] == walls[j].distance
      {
        var r;
        ghost var before := walls;
        r, walls := NextColumn(tiles, p, angle, maths, sample0, x, walls, sample);
        depthBuffer[x] := r.distance;
        var texture := table[GetMapTileAt(tiles, r.test)];
        sample := r.sampleX;
        forall j | 0 <= j <= x
          ensures depthBuffer[j] == walls[j].distance
        {
          if j < x {
            assert walls[j] == before[j];
          }
        }
        x := x + 1;
      }
      sampleX := sample;
    }

    /** The sprite pass over the list in order: each object moves, may be
        flagged, gets its distance key, and is drawn column by column where it
        is visible and not hidden behind a wall.  The depth buffer is only
        read. */
    method UpdateSprites(maths: Maths, frameTime: real, spriteColumns: (real, real, nat) -> seq<int>)
      returns (drawn: seq<seq<int>>)
      requires Valid() && FrameTimeOk(frameTime) && ColumnsOk(spriteColumns)
      modifies this`objects
      ensures objects == UpdatedAll(tiles, old(objects), player, maths, frameTime)
      ensures |drawn| == |objects|
      ensures forall i :: 0 <= i < |objects| ==>
        drawn[i] == SpriteColumnsDrawn(depthBuffer[..], objects[i], player, playerAngle, maths, spriteColumns)
    {
      ghost var before := objects;
      drawn := [];
      var i := 0;
      while i < |objects|
        invariant 0 <= i <= |objects| == |before|
        invariant forall j :: 0 <= j < i ==> objects[j] == Updated(tiles, before[j], player, maths, frameTime)
        invariant forall j :: i <= j < |objects| ==> objects[j] == before[j]
        invariant |drawn| == i
        invariant forall j :: 0 <= j < i ==>
          drawn[j] == SpriteColumnsDrawn(depthBuffer[..], objects[j], player, playerAngle, maths, spriteColumns)
      {
        var e, columns := UpdateSprite(objects[i], maths, frameTime, spriteColumns);
        objects := objects[i := e];
        drawn := drawn + [columns];
        i := i + 1;
      }
    }

    /** The body of the sprite loop for one element: move it, flag it, key
        it by its truncated distance, and draw it. */
    method UpdateSprite(e: Entry, maths: Maths, frameTime: real, spriteColumns: (real, real, nat) -> seq<int>)
      returns (r: Entry, columns: seq<int>)
      requires depthBuffer.Length == ScreenWidth && MapOk(tiles) && ObjectOk(e.obj)
      requires FrameTimeOk(frameTime) && ColumnsOk(spriteColumns)
      ensures r == Updated(tiles, e, player, maths, frameTime)
      ensures columns == SpriteColumnsDrawn(depthBuffer[..], r, player, playerAngle, maths, spriteColumns)
    {
      var o := MoveObject(tiles, e.obj, frameTime);
      r := Entry(Trunc(DistanceFromPlayer(o.pos, player, maths)), o);
      columns := DrawSprite(r, maths, spriteColumns);
    }

    /** The angle test, the distance test and the column loop of one sprite. */
    method DrawSprite(e: Entry, maths: Maths, spriteColumns: (real, real, nat) -> seq<int>)
      returns (columns: seq<int>)
      requires depthBuffer.Length == ScreenWidth && ColumnsOk(spriteColumns)
      ensures columns == SpriteColumnsDrawn(depthBuffer[..], e, player, playerAngle, maths, spriteColumns)
    {
      var vec := Sub(e.obj.pos, player);
      var distance := DistanceFromPlayer(e.obj.pos, player, maths);
      var eye := Vec2(maths.sin(playerAngle), maths.cos(playerAngle));
      var objectAngle := maths.atan2(eye.y, eye.x) - maths.atan2(vec.y, vec.x);
      if objectAngle < -Pi {
        objectAngle := objectAngle + 2.0 * Pi;
      }
      if objectAngle > Pi {
        objectAngle := objectAngle - 2.0 * Pi;
      }
      assert objectAngle == ObjectAngle(e.obj.pos, player, playerAngle, maths);
      var isInFov := Abs(objectAngle) < Fov / 2.0;
      columns := [];
      if isInFov && distance >= 0.5 && distance < Depth {
        columns := DrawSpriteColumns(depthBuffer, spriteColumns(objectAngle, distance, e.obj.texture), distance);
      }
    }

    /** remove_if on the flag, then the stable sort by descending key. */
    method EndFrame()
      modifies this`objects
      ensures objects == EndOfFrame(old(objects))
    {
      objects := Survivors(objects);
      objects := SortByKeyDesc(objects);
    }

    /** on_frame_update: the phases in source order.  `input` is the key
        state the engine holds for this frame; the result lists the wall
        columns and, per sprite of the pass, the columns drawn, each tested
        against the depth buffer this frame's wall pass wrote. */
    method OnFrameUpdate(frameTime: real, input: Input, maths: Maths,
                         spriteColumns: (real, real, nat) -> seq<int>)
      returns (walls: seq<RaySample>, sprites: seq<seq<int>>)
      requires Valid() && Loaded() && WellFormed(input)
      requires FrameTimeOk(frameTime) && ColumnsOk(spriteColumns)
      modifies this`player, this`playerAngle, this`objects, this`sampleX, depthBuffer
      ensures Valid() && Loaded()
      ensures playerAngle == Turn(old(playerAngle), KeyStateOf(input, ScancodeLeft).held,
                                  KeyStateOf(input, ScancodeRight).held, frameTime)
      ensures player == Walk(tiles, old(player), input, maths.sin(playerAngle), maths.cos(playerAngle), frameTime)
      ensures walls == WallColumns(tiles, player, playerAngle, maths, old(sampleX), ScreenWidth as nat)
      ensures sampleX == LastSample(walls, old(sampleX))
      ensures forall x :: 0 <= x < ScreenWidth ==> depthBuffer[x] == walls[x].distance
      ensures objects == EndOfFrame(UpdatedAll(tiles,
        Spawned(old(objects), KeyStateOf(input, ScancodeSpace).pressed,
                player, maths.sin(playerAngle), maths.cos(playerAngle)),
        player, maths, frameTime))
      ensures sprites == SpritesDrawn(depthBuffer[..], UpdatedAll(tiles,
        Spawned(old(objects), KeyStateOf(input, ScancodeSpace).pressed,
                player, maths.sin(playerAngle), maths.cos(playerAngle)),
        player, maths, frameTime), player, playerAngle, maths, spriteColumns)
    {
      MovePlayer(input, maths, frameTime);
      SpawnFireball(input, maths);
      walls := CastWalls(maths);
      sprites := SpritePass(maths, frameTime, spriteColumns);
    }

    /** The sprite loop followed by remove_if and the sort: the list that
        reaches the next frame meets the start-of-frame requirements again. */
    method SpritePass(maths: Maths, frameTime: real, spriteColumns: (real, real, nat) -> seq<int>)
      returns (drawn: seq<seq<int>>)
      requires Valid() && FrameTimeOk(frameTime) && ColumnsOk(spriteColumns)
      modifies this`objects
      ensures Valid()
      ensures objects == EndOfFrame(UpdatedAll(tiles, old(objects), player, maths, frameTime))
      ensures |drawn| == |UpdatedAll(tiles, old(objects), player, maths, frameTime)|
      ensures drawn == SpritesDrawn(depthBuffer[..], UpdatedAll(tiles, old(objects), player, maths, frameTime),
                                    player, playerAngle, maths, spriteColumns)
    {
      ghost var before := objects;
      drawn := UpdateSprites(maths, frameTime, spriteColumns);
      EndOfFrameObjectsOk(tiles, before, player, maths, frameTime);
      EndFrame();
    }
  }

  /** W, S, A and D in the order MovePlayer tests them, each from where the
      previous one left the player. */
  method MoveKeys(tiles: seq<int>, pos: Vec2<real>, input: Input, s: real, c: real, frameTime: real)
    returns (r: Vec2<real>)
    requires MapOk(tiles) && WellFormed(input) && Interior(TileOf(pos))
    requires -1.0 <= s <= 1.0 && -1.0 <= c <= 1.0 && FrameTimeOk(frameTime)
    ensures r == Walk(tiles, pos, input, s, c, frameTime)
  {
    r := MoveKey(tiles, pos, KeyStateOf(input, ScancodeW).held, Forward, s, c, frameTime);
    r := MoveKey(tiles, r, KeyStateOf(input, ScancodeS).held, Backward, s, c, frameTime);
    r := MoveKey(tiles, r, KeyStateOf(input, ScancodeA).held, StrafeLeft, s, c, frameTime);
    r := MoveKey(tiles, r, KeyStateOf(input, ScancodeD).held, StrafeRight, s, c, frameTime);
  }

  /** The sprite's move: the position advances by v * frame_time, and the
      flag is raised when the tile under it is not empty. */
  method MoveObject(tiles: seq<int>, o: GameObject, frameTime: real) returns (r: GameObject)
    requires MapOk(tiles) && ObjectOk(o) && FrameTimeOk(frameTime)
    ensures r == Advance(tiles, o, frameTime)
  {
    var pos := Vec2(o.pos.x + o.v.x * frameTime, o.pos.y + o.v.y * frameTime);
    assert pos == Add(o.pos, Scale(o.v, frameTime));
    ghost var advanced := Advance(tiles, o, frameTime);
    var remove := o.remove;
    if GetMapTileAt(tiles, TileOf(pos)) != 0 {
      remove := true;
    }
    r := GameObject(pos, o.v, remove, o.texture);
  }

  /** The wall pass's next column, x, cast from the sample_x the previous
      column left, appended to the columns cast so far. */
  method NextColumn(tiles: seq<int>, p: Vec2<real>, angle: real, maths: Maths, sample0: real, x: nat,
                    walls: seq<RaySample>, previousSample: real)
    returns (r: RaySample, walls': seq<RaySample>)
    requires MapOk(tiles) && Interior(TileOf(p))
    requires walls == WallColumns(tiles, p, angle, maths, sample0, x)
    requires previousSample == LastSample(walls, sample0)
    ensures walls' == WallColumns(tiles, p, angle, maths, sample0, x + 1)
    ensures walls' == walls + [r] && r.sampleX == LastSample(walls', sample0)
    ensures ColumnOk(tiles, r)
  {
    var rayAngle := RayAngle(angle, x);
    var eye: Vec2<real> := Vec2(maths.sin(rayAngle), maths.cos(rayAngle));
    r := CastRay(tiles, p, eye, maths.atan2, maths.cos(rayAngle - angle), previousSample);
    NextColumnStep(tiles, p, angle, maths, sample0, x, walls, rayAngle, eye, previousSample, r);
    walls' := walls + [r];
  }

  /** The ray cast for column x, from the sample_x the columns so far left,
      extends them to the first x + 1 columns of the pass. */
  lemma NextColumnStep(tiles: seq<int>, p: Vec2<real>, angle: real, maths: Maths, sample0: real, x: nat,
                       walls: seq<RaySample>, rayAngle: real, eye: Vec2<real>, previousSample: real, r: RaySample)
    requires MapOk(tiles) && Interior(TileOf(p))
    requires walls == WallColumns(tiles, p, angle, maths, sample0, x)
    requires previousSample == LastSample(walls, sample0)
    requires rayAngle == RayAngle(angle, x) && eye == Vec2(maths.sin(rayAngle), maths.cos(rayAngle))
    requires r == CastSpec(tiles, p, eye, maths.atan2, maths.cos(rayAngle - angle), previousSample)
    ensures walls + [r] == WallColumns(tiles, p, angle, maths, sample0, x + 1)
    ensures ColumnOk(tiles, r)
  {
    ColumnCastUnfold(tiles, p, angle, maths, x, rayAngle, eye, previousSample, r);
    ColumnCastOk(tiles, p, angle, maths, x, previousSample);
    WallColumnsStep(tiles, p, angle, maths, sample0, x);
  }

  /** A sample of CastSpec for the ray of column x is that column's
      ColumnCast. */
  lemma ColumnCastUnfold(tiles: seq<int>, p: Vec2<real>, angle: real, maths: Maths, x: int,
                         rayAngle: real, eye: Vec2<real>, previousSample: real, r: RaySample)
    requires MapOk(tiles) && Interior(TileOf(p))
    requires rayAngle == RayAngle(angle, x) && eye == Vec2(maths.sin(rayAngle), maths.cos(rayAngle))
    requires r == CastSpec(tiles, p, eye, maths.atan2, maths.cos(rayAngle - angle), previousSample)
    ensures r == ColumnCast(tiles, p, angle, maths, x, previousSample)
  {
  }

  /** One movement key of MovePlayer: the statements of the source for that
      key, applied to the position. */
  method MoveKey(tiles: seq<int>, pos: Vec2<real>, held: bool, m: Move, s: real, c: real, frameTime: real)
    returns (r: Vec2<real>)
    requires MapOk(tiles) && Interior(TileOf(pos)) && -1.0 <= s <= 1.0 && -1.0 <= c <= 1.0 && FrameTimeOk(frameTime)
    ensures r == MoveIfHeld(tiles, pos, held, m, s, c, frameTime)
  {
    r := pos;
    if held {
      var d := Displacement(m, s, c, frameTime);
      r := Vec2(r.x + d.x, r.y + d.y);
      NearTilesAdjacent(r, pos);
      NeighbourInGrid(TileOf(pos), TileOf(r));
      ghost var moved := r;
      if GetMapTileAt(tiles, TileOf(r)) != 0 {
        r := Vec2(r.x - d.x, r.y - d.y);
      }
      assert moved == Add(pos, d);
      assert r == TryMove(tiles, pos, d);
    }
  }
}
