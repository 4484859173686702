/** Screen constants shared by the game and integer rectangles with pygame's
    `Rect` semantics (`colliderect`, `collidelist`, derived edges). */
module Geometry {

  const ScreenWidth: int := 1200
  const ScreenHeight: int := 900

  /** Python's `int(x)` on a float, and pygame's conversion of a float
      coordinate to a `Rect` field: truncation toward zero. */
  function Trunc(r: real): (n: int)
    ensures r >= 0.0 ==> n as real <= r < n as real + 1.0
    ensures r < 0.0 ==> n as real - 1.0 < r <= n as real
  {
    if r >= 0.0 then r.Floor else -((-r).Floor)
  }

  lemma TruncInt(k: int)
    ensures Trunc(k as real) == k
  {
    if k < 0 {
      assert -(k as real) == (-k) as real;
    }
  }

  /** Python's `max`/`min` on numbers, used for clamps. */
  function Max(a: int, b: int): int { if a >= b then a else b }
  function Min(a: int, b: int): int { if a <= b then a else b }
  function MaxR(a: real, b: real): real { if a >= b then a else b }
  function MinR(a: real, b: real): real { if a <= b then a else b }

  /** A pygame `Rect`: integer position and size. */
  datatype Rect = Rect(x: int, y: int, w: int, h: int)
  {
    function Left(): int { x }
    function Top(): int { y }
    function Right(): int { x + w }
    function Bottom(): int { y + h }
    /** pygame computes `centerx` as `x + w / 2` in C integer arithmetic. */
    function CenterX(): int { x + CDiv2(w) }
    function CenterY(): int { y + CDiv2(h) }
  }

  /** C's `n / 2` (truncating toward zero). */
  function CDiv2(n: int): (q: int)
    ensures n >= 0 ==> q == n / 2
  {
    if n >= 0 then n / 2 else -((-n) / 2)
  }

  /** A pygame rectangle built from float arguments. */
  function RectOf(x: real, y: real, w: real, h: real): Rect
  {
    Rect(Trunc(x), Trunc(y), Trunc(w), Trunc(h))
  }

  /** `colliderect`: rectangles of zero width or height collide with nothing;
      otherwise the open areas must overlap (touching edges do not count).
      Negative sizes are normalised the way pygame does, with min/max. */
  predicate Collide(a: Rect, b: Rect)
  {
    a.w != 0 && a.h != 0 && b.w != 0 && b.h != 0 &&
    Min(a.x, a.x + a.w) < Max(b.x, b.x + b.w) &&
    Min(a.y, a.y + a.h) < Max(b.y, b.y + b.h) &&
    Max(a.x, a.x + a.w) > Min(b.x, b.x + b.w) &&
    Max(a.y, a.y + a.h) > Min(b.y, b.y + b.h)
  }

  /** For rectangles of positive size `colliderect` is strict overlap of the
      edges, and it is symmetric. */
  lemma CollidePositive(a: Rect, b: Rect)
    requires a.w > 0 && a.h > 0 && b.w > 0 && b.h > 0
    ensures Collide(a, b) <==>
      a.Left() < b.Right() && b.Left() < a.Right() &&
      a.Top() < b.Bottom() && b.Top() < a.Bottom()
    ensures Collide(a, b) == Collide(b, a)
  {
  }

  /** `collidelist`: index of the first rectangle `r` collides with, or -1. */
  function CollideList(r: Rect, rs: seq<Rect>): (k: int)
    ensures -1 <= k < |rs|
    ensures k >= 0 ==> Collide(r, rs[k])
    ensures forall i :: 0 <= i < (if k < 0 then |rs| else k) ==> !Collide(r, rs[i])
  {
    if rs == [] then -1
    else if Collide(r, rs[0]) then 0
    else
      var k := CollideList(r, rs[1..]);
      if k < 0 then -1 else k + 1
  }
}
