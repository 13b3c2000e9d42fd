/** The generic two-component vector of include/PixelDraw.hh (vec2<T>) and the
    few real-valued helpers the raycaster needs.  Floating-point coordinates are
    modelled as reals, so positions and displacements are exact. */
module Vec {

  datatype Vec2<T> = Vec2(x: T, y: T)

  /** operator==: both components are equal, which is exactly value equality. */
  function Equals<T(==)>(a: Vec2<T>, b: Vec2<T>): (r: bool)
    ensures r <==> a == b
  {
    a.x == b.x && a.y == b.y
  }

  /** operator!=: some component differs; the exact negation of operator==. */
  function NotEquals<T(==)>(a: Vec2<T>, b: Vec2<T>): (r: bool)
    ensures r == !Equals(a, b)
    ensures r <==> a != b
  {
    a.x != b.x || a.y != b.y
  }

  function Add(a: Vec2<real>, b: Vec2<real>): Vec2<real>
  {
    Vec2(a.x + b.x, a.y + b.y)
  }

  function Sub(a: Vec2<real>, b: Vec2<real>): Vec2<real>
  {
    Vec2(a.x - b.x, a.y - b.y)
  }

  /** The product of a component and a scalar. */
  function Mul(a: real, k: real): real
  {
    a * k
  }

  function Scale(a: Vec2<real>, k: real): Vec2<real>
  {
    Vec2(Mul(a.x, k), Mul(a.y, k))
  }

  /** Subtracting a displacement undoes adding it: over the reals the
      apply-then-revert collision policy restores the position exactly. */
  lemma AddThenSubIsIdentity(p: Vec2<real>, d: Vec2<real>)
    ensures Sub(Add(p, d), d) == p
  {
  }

  /** A square is never negative. */
  lemma MulSelfNonNegative(a: real)
    ensures Mul(a, a) >= 0.0
  {
  }

  /** Multiplication distributes over a sum of scalars. */
  lemma MulDistributes(a: real, d: real, e: real)
    ensures Mul(a, d) == Mul(a, d - e) + Mul(a, e)
  {
  }

  /** A velocity of at most 5 per second on each axis, over less than 0.2
      seconds, moves less than 1 on each axis. */
  lemma ScaleBelowOne(v: Vec2<real>, k: real)
    requires -5.0 <= v.x <= 5.0 && -5.0 <= v.y <= 5.0 && 0.0 <= k < 0.2
    ensures -1.0 < Scale(v, k).x < 1.0 && -1.0 < Scale(v, k).y < 1.0
  {
    ProductBelowOne(v.x, k);
    ProductBelowOne(v.y, k);
  }

  lemma ProductBelowOne(a: real, b: real)
    requires -5.0 <= a <= 5.0 && 0.0 <= b < 0.2
    ensures -1.0 < Mul(a, b) < 1.0
  {
    if a >= 0.0 {
      assert a * b <= 5.0 * b;
    } else {
      assert (-a) * b <= 5.0 * b;
    }
  }
}
