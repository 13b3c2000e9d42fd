/** The exact comparisons around the geometry of source/raycaster.cc: the
    hit-side classifier of the wall caster, the single-step wrap of an
    object's angular offset, and the visibility and occlusion tests of the
    sprite pass.  Angles and distances are reals; trigonometric results are
    inputs. */
module Angles {

  /** The PI macro of the renderer, a decimal literal, not the real pi. */
  const Pi: real := 3.14159
  const Fov: real := Pi / 2.5
  const Depth: real := 30.0

  function Abs(a: real): real
  {
    if a < 0.0 then -a else a
  }

  // The four ranges of atan2(dy, dx) of the offset from a tile's centre to the
  // point where the ray entered the tile.

  predicate EastQuadrant(a: real)
  {
    a >= -Pi * 0.25 && a < Pi * 0.25
  }

  predicate NorthQuadrant(a: real)
  {
    a >= Pi * 0.25 && a < Pi * 0.75
  }

  predicate SouthQuadrant(a: real)
  {
    a < -Pi * 0.25 && a >= -Pi * 0.75
  }

  predicate WestQuadrant(a: real)
  {
    a >= Pi * 0.75 || a < -Pi * 0.75
  }

  /** The four ranges are pairwise disjoint and cover every real, so exactly one
      of the four tests of the wall caster fires. */
  lemma QuadrantsPartition(a: real)
    ensures (if EastQuadrant(a) then 1 else 0) + (if NorthQuadrant(a) then 1 else 0)
          + (if SouthQuadrant(a) then 1 else 0) + (if WestQuadrant(a) then 1 else 0) == 1
  {
  }

  /** The side the four sequential tests leave behind.  Each test overwrites
      the previous one, so the last range that holds decides; `side` starts at
      0.  Side 1 samples the texture along y, side 0 along x. */
  function HitSide(a: real): (side: int)
    ensures side == 1 <==> EastQuadrant(a) || WestQuadrant(a)
    ensures side == 0 <==> NorthQuadrant(a) || SouthQuadrant(a)
  {
    if WestQuadrant(a) then 1
    else if SouthQuadrant(a) then 0
    else if NorthQuadrant(a) then 0
    else if EastQuadrant(a) then 1
    else 0
  }

  /** Ties at the four boundaries go to the range whose lower bound is
      inclusive. */
  lemma QuadrantTies()
    ensures HitSide(-Pi * 0.25) == 1 && HitSide(Pi * 0.25) == 0
    ensures HitSide(Pi * 0.75) == 1 && HitSide(-Pi * 0.75) == 0
  {
  }

  /** The wrap of object_angle: add 2*PI if below -PI, then subtract 2*PI if
      above PI.  At most one correction applies, an angle already in [-PI, PI]
      is returned unchanged, and any angle in [-3*PI, 3*PI] (in particular the
      difference of two atan2 results) lands in [-PI, PI]. */
  function WrapObjectAngle(a: real): (r: real)
    ensures r == a || r == a + 2.0 * Pi || r == a - 2.0 * Pi
    ensures -Pi <= a <= Pi ==> r == a
    ensures -3.0 * Pi <= a <= 3.0 * Pi ==> -Pi <= r <= Pi
    ensures a < -Pi ==> r == a + 2.0 * Pi
    ensures a > Pi ==> r == a - 2.0 * Pi
  {
    var a1 := if a < -Pi then a + 2.0 * Pi else a;
    if a1 > Pi then a1 - 2.0 * Pi else a1
  }

  /** Just past PI the offset comes back just past -PI, after exactly one
      correction. */
  lemma WrapJustAbovePi(e: real)
    requires 0.0 < e <= 2.0 * Pi
    ensures WrapObjectAngle(Pi + e) == -Pi + e
  {
  }

  /** is_in_fov: fabs(object_angle) < fov / 2. */
  predicate InFieldOfView(angle: real, fov: real): (b: bool)
    ensures b <==> -fov / 2.0 < angle < fov / 2.0
  {
    Abs(angle) < fov / 2.0
  }

  /** An object is drawn only inside the field of view and at a distance in
      [0.5, depth). */
  predicate ObjectVisible(angle: real, distance: real, fov: real, depth: real): (b: bool)
    ensures b ==> -fov / 2.0 < angle < fov / 2.0 && 0.5 <= distance < depth
    ensures b <== InFieldOfView(angle, fov) && 0.5 <= distance < depth
  {
    InFieldOfView(angle, fov) && distance >= 0.5 && distance < depth
  }

  predicate ColumnsInRange(columns: seq<int>, width: int)
  {
    forall i :: 0 <= i < |columns| ==> 0 <= columns[i] < width
  }

  /** The sprite columns that pass the depth test depth_buffer[column] >=
      distance, in drawing order. */
  function VisibleColumns(depthBuffer: seq<real>, columns: seq<int>, distance: real): (r: seq<int>)
    requires ColumnsInRange(columns, |depthBuffer|)
    ensures |r| <= |columns|
    ensures forall c :: c in r <==> c in columns && 0 <= c < |depthBuffer| && depthBuffer[c] >= distance
  {
    if columns == [] then []
    else
      var last := columns[|columns| - 1];
      VisibleColumns(depthBuffer, columns[..|columns| - 1], distance)
        + (if depthBuffer[last] >= distance then [last] else [])
  }

  /** The column loop of one sprite: it draws exactly the columns whose
      recorded wall distance is at least the object's distance, and it never
      writes the depth buffer. */
  method DrawSpriteColumns(depthBuffer: array<real>, columns: seq<int>, distance: real)
    returns (drawn: seq<int>)
    requires ColumnsInRange(columns, depthBuffer.Length)
    ensures drawn == VisibleColumns(depthBuffer[..], columns, distance)
  {
    ghost var buffer := depthBuffer[..];
    drawn := [];
    var i := 0;
    while i < |columns|
      invariant 0 <= i <= |columns|
      invariant drawn == VisibleColumns(buffer, columns[..i], distance)
    {
      var column := columns[i];
      assert columns[..i + 1][..i] == columns[..i];
      assert depthBuffer[column] == buffer[column];
      if depthBuffer[column] >= distance {
        drawn := drawn + [column];
      }
      i := i + 1;
    }
    assert columns[..i] == columns;
  }
}
