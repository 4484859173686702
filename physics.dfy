/** Ball movement and the three bounce rules of the main game: walls, the
    paddle (with an angle proportional to where the ball lands on it) and a
    brick face chosen by a fixed order with an 8-pixel tolerance. */
module Physics {
  import opened Wrappers
  import opened Geometry

  const BallRadius: int := 10
  /** `ball_max_velocity_x`: the horizontal speed at either end of the
      paddle. */
  const MaxVx: real := 6.0
  /** Each frame a ball moves in this many equal sub-steps. */
  const Steps: int := 3

  const WallPadding: int := 30
  const WallTopPadding: int := 120
  /** `draw_wall`'s rectangle, whose left, right and top edges bound the
      balls; there is no bottom wall. */
  const Walls: Rect := Rect(WallPadding, WallTopPadding, ScreenWidth - WallPadding * 2, ScreenHeight - 150 - WallTopPadding)

  /** A ball record. `id` stands for the identity of the Python dictionary,
      which `last_hit_ball` refers to. */
  datatype Ball = Ball(id: nat, x: real, y: real, vx: real, vy: real)

  /** `vel.length() == 0`. */
  predicate AtRest(b: Ball)
  {
    b.vx == 0.0 && b.vy == 0.0
  }

  function AbsR(r: real): real { if r < 0.0 then -r else r }
  function Abs(n: int): int { if n < 0 then -n else n }

  /** The ball's bounding box, built from floats and so truncated. */
  function BallRect(b: Ball): (r: Rect)
    ensures r.x == Trunc(b.x - BallRadius as real) && r.y == Trunc(b.y - BallRadius as real)
    ensures r.w == 2 * BallRadius && r.h == 2 * BallRadius
  {
    RectOf(b.x - BallRadius as real, b.y - BallRadius as real, (BallRadius * 2) as real, (BallRadius * 2) as real)
  }

  /** `get_x_angle`: the horizontal speed is the ball's offset from the bar's
      centre scaled so that half the bar's width maps to `MaxVx`. */
  function XAngle(bar: Rect, b: Ball): real
    requires bar.w != 0
  {
    (b.x - bar.CenterX() as real) * (MaxVx / (bar.w as real / 2.0))
  }

  /** A centre hit goes straight up, the sign follows the side of the
      centre, the ends of an even-width bar give exactly the maximum, and the
      speed stays within the maximum exactly while the ball is within half a
      width of the centre. */
  lemma XAngleFacts(bar: Rect, b: Ball)
    requires bar.w > 0
    ensures b.x == bar.CenterX() as real ==> XAngle(bar, b) == 0.0
    ensures b.x > bar.CenterX() as real ==> XAngle(bar, b) > 0.0
    ensures b.x < bar.CenterX() as real ==> XAngle(bar, b) < 0.0
    ensures bar.w % 2 == 0 && b.x == bar.Right() as real ==> XAngle(bar, b) == MaxVx
    ensures bar.w % 2 == 0 && b.x == bar.Left() as real ==> XAngle(bar, b) == -MaxVx
    ensures AbsR(XAngle(bar, b)) <= MaxVx <==> AbsR(b.x - bar.CenterX() as real) <= bar.w as real / 2.0
  {
    var off := b.x - bar.CenterX() as real;
    var half := bar.w as real / 2.0;
    assert XAngle(bar, b) == off * (MaxVx / half);
    ScaledFacts(off, half);
    if bar.w % 2 == 0 {
      assert CDiv2(bar.w) * 2 == bar.w;
      assert bar.CenterX() as real == bar.x as real + half;
    }
  }

  /** An offset scaled so that `half` maps to `MaxVx`: zero, the sign and
      the two ends are kept, and the result is within `MaxVx` exactly when
      the offset is within `half`. */
  lemma ScaledFacts(off: real, half: real)
    requires half > 0.0
    ensures var v := off * (MaxVx / half);
      (off == 0.0 ==> v == 0.0) && (off > 0.0 ==> v > 0.0) && (off < 0.0 ==> v < 0.0) &&
      (off == half ==> v == MaxVx) && (off == -half ==> v == -MaxVx) &&
      (AbsR(v) <= MaxVx <==> AbsR(off) <= half)
  {
    var ratio := MaxVx / half;
    assert ratio > 0.0 && ratio * half == MaxVx;
    var v := off * ratio;
    assert (off == 0.0 ==> v == 0.0) && (off > 0.0 ==> v > 0.0) && (off < 0.0 ==> v < 0.0) by {
      MulSign(off, ratio);
      MulSign(-off, ratio);
    }
    assert (off == half ==> v == MaxVx) && (off == -half ==> v == -MaxVx);
    assert AbsR(v) <= MaxVx <==> AbsR(off) <= half by {
      ScaledBound(off, half, ratio);
    }
  }

  lemma ScaledBound(off: real, half: real, ratio: real)
    requires half > 0.0 && ratio > 0.0 && ratio * half == MaxVx
    ensures AbsR(off * ratio) <= MaxVx <==> AbsR(off) <= half
  {
    var a := AbsR(off);
    assert AbsR(off * ratio) == a * ratio by {
      if off < 0.0 {
        assert off * ratio == -(a * ratio);
      }
    }
    assert a * ratio - MaxVx == (a - half) * ratio;
    MulSign(a - half, ratio);
  }

  lemma MulSign(x: real, y: real)
    requires y > 0.0
    ensures x <= 0.0 ==> x * y <= 0.0
    ensures x > 0.0 ==> x * y > 0.0
  {
  }

  /** One frame of motion: three sub-steps of a third of the velocity. */
  method Advance(b: Ball) returns (b': Ball)
    ensures b' == b.(x := b.x + b.vx, y := b.y + b.vy)
  {
    b' := b;
    var i := 0;
    while i < Steps
      invariant 0 <= i <= Steps
      invariant b' == b.(x := b.x + i as real * (b.vx / Steps as real), y := b.y + i as real * (b.vy / Steps as real))
    {
      b' := b'.(x := b'.x + b.vx / Steps as real, y := b'.y + b.vy / Steps as real);
      i := i + 1;
    }
  }

  /** `wall_check_multi`: a ball touching the left or else the right wall
      has its horizontal velocity reversed and is put exactly one radius
      inside; touching the top does the same vertically. */
  function WallChecked(b: Ball): Ball
  {
    var left := Walls.Left() as real;
    var right := Walls.Right() as real;
    var top := Walls.Top() as real;
    var r := BallRadius as real;
    var b1 :=
      if b.x - r <= left then b.(vx := -b.vx, x := left + r)
      else if b.x + r >= right then b.(vx := -b.vx, x := right - r)
      else b;
    if b1.y - r <= top then b1.(vy := -b1.vy, y := top + r) else b1
  }

  /** After the wall check the ball lies within the side walls and below the
      top wall, each speed component keeps its size, and a component is
      reversed only when the ball reached the matching wall. */
  lemma WallCheckConfines(b: Ball)
    ensures var c := WallChecked(b);
      40.0 <= c.x <= 1160.0 && c.y >= 130.0 && c.id == b.id
    ensures var c := WallChecked(b);
      AbsR(c.vx) == AbsR(b.vx) && AbsR(c.vy) == AbsR(b.vy)
    ensures var c := WallChecked(b);
      (40.0 < b.x < 1160.0 ==> c.x == b.x && c.vx == b.vx) &&
      (b.y > 130.0 ==> c.y == b.y && c.vy == b.vy)
    ensures var c := WallChecked(b);
      (b.x <= 40.0 ==> c.x == 40.0 && c.vx == -b.vx) &&
      (40.0 < b.x && b.x >= 1160.0 ==> c.x == 1160.0 && c.vx == -b.vx) &&
      (b.y <= 130.0 ==> c.y == 130.0 && c.vy == -b.vy)
  {
  }

  /** `paddle_check_multi`: a ball overlapping the bar while moving down
      bounces up with the paddle angle (below 0.2 snapped to straight up)
      and is placed one pixel above the bar. The flag is the `last_hit_ball`
      assignment. */
  function PaddleChecked(b: Ball, bar: Rect): (r: (Ball, bool))
    requires bar.w != 0
  {
    if Collide(bar, BallRect(b)) && b.vy > 0.0 then
      var vx := XAngle(bar, b);
      (b.(vx := if AbsR(vx) < 0.2 then 0.0 else vx, vy := -b.vy, y := (bar.Top() - BallRadius - 1) as real), true)
    else (b, false)
  }

  /** The bounce fires exactly on overlap while moving down; it then sends
      the ball up at the paddle angle, never faster sideways than the
      maximum when the ball is over the bar, and changes nothing otherwise. */
  lemma PaddleBounce(b: Ball, bar: Rect)
    requires bar.w > 0
    ensures PaddleChecked(b, bar).1 <==> Collide(bar, BallRect(b)) && b.vy > 0.0
    ensures !PaddleChecked(b, bar).1 ==> PaddleChecked(b, bar).0 == b
    ensures var (c, hit) := PaddleChecked(b, bar);
      hit ==> c.vy < 0.0 && c.vy == -b.vy && c.x == b.x && c.id == b.id &&
              c.y == (bar.Top() - 11) as real &&
              (c.vx == 0.0 || c.vx == XAngle(bar, b)) &&
              (AbsR(XAngle(bar, b)) < 0.2 <==> c.vx == 0.0)
    ensures var (c, hit) := PaddleChecked(b, bar);
      hit && b.x == bar.CenterX() as real ==> c.vx == 0.0
    ensures var (c, hit) := PaddleChecked(b, bar);
      hit && bar.w % 2 == 0 && b.x == bar.Right() as real ==> c.vx == MaxVx
  {
    XAngleFacts(bar, b);
  }

  /** A ball is dropped once its top edge is below the screen. */
  predicate Lost(b: Ball)
  {
    b.y - BallRadius as real > ScreenHeight as real
  }

  /** `detect_collision`'s bounce off a brick: the first of bottom, top,
      right, left whose edges are within 8 pixels and whose velocity points
      into that face; otherwise a vertical bounce. */
  function Deflected(b: Ball, r: Rect, brick: Rect): Ball
  {
    if Abs(r.Bottom() - brick.Top()) < 8 && b.vy > 0.0 then b.(vy := -b.vy)
    else if Abs(r.Top() - brick.Bottom()) < 8 && b.vy < 0.0 then b.(vy := -b.vy)
    else if Abs(r.Right() - brick.Left()) < 8 && b.vx > 0.0 then b.(vx := -b.vx)
    else if Abs(r.Left() - brick.Right()) < 8 && b.vx < 0.0 then b.(vx := -b.vx)
    else b.(vy := -b.vy)
  }

  /** The ball was moving into the brick's top or bottom face. */
  predicate VerticalFace(b: Ball, r: Rect, brick: Rect)
  {
    (Abs(r.Bottom() - brick.Top()) < 8 && b.vy > 0.0) ||
    (Abs(r.Top() - brick.Bottom()) < 8 && b.vy < 0.0)
  }

  /** The ball was moving into the brick's left or right face. */
  predicate SideFace(b: Ball, r: Rect, brick: Rect)
  {
    (Abs(r.Right() - brick.Left()) < 8 && b.vx > 0.0) ||
    (Abs(r.Left() - brick.Right()) < 8 && b.vx < 0.0)
  }

  /** Exactly one velocity component is reversed: the horizontal one iff a
      side face matches and no top or bottom face does. The speed is kept. */
  lemma DeflectionAxis(b: Ball, r: Rect, brick: Rect)
    ensures var d := Deflected(b, r, brick);
      !VerticalFace(b, r, brick) && SideFace(b, r, brick) ==> d == b.(vx := -b.vx)
    ensures var d := Deflected(b, r, brick);
      VerticalFace(b, r, brick) || !SideFace(b, r, brick) ==> d == b.(vy := -b.vy)
    ensures SpeedSq(Deflected(b, r, brick)) == SpeedSq(b)
  {
  }

  /** The square of a ball's speed. */
  function SpeedSq(b: Ball): real
  {
    b.vx * b.vx + b.vy * b.vy
  }

  /** One ball of `move_ball`: move, check the walls, then the paddle. The
      flag says the paddle check fired. */
  function Moved(b: Ball, bar: Rect): (r: (Ball, bool))
    requires bar.w != 0
  {
    PaddleChecked(WallChecked(b.(x := b.x + b.vx, y := b.y + b.vy)), bar)
  }

  /** Moving a ball keeps its identity. */
  lemma MovedId(b: Ball, bar: Rect)
    requires bar.w != 0
    ensures Moved(b, bar).0.id == b.id
  {
  }

  /** The balls the loop of `move_ball` keeps: every ball in order, moved,
      without those now below the screen. */
  function Kept(balls: seq<Ball>, bar: Rect): seq<Ball>
    requires bar.w != 0
  {
    if balls == [] then []
    else
      var n := |balls| - 1;
      var b := Moved(balls[n], bar).0;
      Kept(balls[..n], bar) + (if Lost(b) then [] else [b])
  }

  /** `last_hit_ball` after the ball loop: the moved ball of the last paddle
      bounce, working back from the end of the list. */
  function LastHit(balls: seq<Ball>, bar: Rect, lastHit: Option<nat>): Option<nat>
    requires bar.w != 0
  {
    if balls == [] then lastHit
    else
      var n := |balls| - 1;
      var (b, hit) := Moved(balls[n], bar);
      if hit then Some(b.id) else LastHit(balls[..n], bar, lastHit)
  }

  /** `move_ball` over the ball list once the first ball is moving: the
      balls kept and the last paddle bounce. */
  function MovedAll(balls: seq<Ball>, bar: Rect, lastHit: Option<nat>): (r: (seq<Ball>, Option<nat>))
    requires bar.w != 0
  {
    (Kept(balls, bar), LastHit(balls, bar, lastHit))
  }

  /** Ball `i` is the last ball of the list whose paddle check fires. */
  predicate LastBounce(balls: seq<Ball>, bar: Rect, i: int)
    requires bar.w != 0
  {
    0 <= i < |balls| && Moved(balls[i], bar).1 &&
    forall k :: i < k < |balls| ==> !Moved(balls[k], bar).1
  }

  /** `last_hit_ball` after `move_ball` is the one before or the identity of
      an input ball, and is the one before when no paddle check fired. */
  lemma {:induction false} LastHitFrom(balls: seq<Ball>, bar: Rect, lastHit: Option<nat>)
    requires bar.w > 0
    ensures LastHit(balls, bar, lastHit) == lastHit ||
      exists i :: 0 <= i < |balls| && LastHit(balls, bar, lastHit) == Some(balls[i].id)
    ensures (forall i :: 0 <= i < |balls| ==> !Moved(balls[i], bar).1) ==>
      LastHit(balls, bar, lastHit) == lastHit
  {
    if balls != [] {
      var n := |balls| - 1;
      var init := balls[..n];
      LastHitFrom(init, bar, lastHit);
      MovedId(balls[n], bar);
      assert forall i :: 0 <= i < n ==> init[i] == balls[i];
    }
  }

  /** `last_hit_ball` after `move_ball` names the last ball in the list
      whose paddle check fired. */
  lemma {:induction false} LastHitBounce(balls: seq<Ball>, bar: Rect, lastHit: Option<nat>)
    requires bar.w > 0
    ensures forall i :: LastBounce(balls, bar, i) ==> LastHit(balls, bar, lastHit) == Some(balls[i].id)
  {
    if balls != [] {
      var n := |balls| - 1;
      var init := balls[..n];
      LastHitBounce(init, bar, lastHit);
      MovedId(balls[n], bar);
      if Moved(balls[n], bar).1 {
        assert LastHit(balls, bar, lastHit) == Some(balls[n].id);
        forall i | LastBounce(balls, bar, i)
          ensures i == n
        {
        }
      } else {
        assert LastHit(balls, bar, lastHit) == LastHit(init, bar, lastHit);
        forall i | LastBounce(balls, bar, i)
          ensures LastBounce(init, bar, i)
        {
          assert forall k :: i < k < n ==> init[k] == balls[k];
        }
      }
    }
  }

  /** `last_hit_ball` after `move_ball` names the last ball in the list whose
      paddle check fired, and is left as it was when none fired. */
  lemma LastHitNames(balls: seq<Ball>, bar: Rect, lastHit: Option<nat>)
    requires bar.w > 0
    ensures LastHit(balls, bar, lastHit) == lastHit ||
      exists i :: 0 <= i < |balls| && LastHit(balls, bar, lastHit) == Some(balls[i].id)
    ensures (forall i :: 0 <= i < |balls| ==> !Moved(balls[i], bar).1) ==>
      LastHit(balls, bar, lastHit) == lastHit
    ensures forall i :: LastBounce(balls, bar, i) ==> LastHit(balls, bar, lastHit) == Some(balls[i].id)
  {
    LastHitFrom(balls, bar, lastHit);
    LastHitBounce(balls, bar, lastHit);
  }

  /** Every moved ball that is still on screen is kept. */
  lemma {:induction false} KeptAll(balls: seq<Ball>, bar: Rect)
    requires bar.w != 0
    ensures forall i :: 0 <= i < |balls| && !Lost(Moved(balls[i], bar).0) ==>
      Moved(balls[i], bar).0 in Kept(balls, bar)
  {
    if balls != [] {
      var n := |balls| - 1;
      KeptAll(balls[..n], bar);
      var all := Kept(balls, bar);
      var b := Moved(balls[n], bar).0;
      assert all == Kept(balls[..n], bar) + (if Lost(b) then [] else [b]);
      forall i | 0 <= i < |balls| && !Lost(Moved(balls[i], bar).0)
        ensures Moved(balls[i], bar).0 in all
      {
        if i < n {
          assert balls[..n][i] == balls[i];
        } else {
          assert all[|all| - 1] == b;
        }
      }
    }
  }

  /** When no ball is lost, every ball is kept, moved, in its place. */
  lemma {:induction false} KeptEvery(balls: seq<Ball>, bar: Rect)
    requires bar.w != 0
    requires forall i :: 0 <= i < |balls| ==> !Lost(Moved(balls[i], bar).0)
    ensures |Kept(balls, bar)| == |balls|
    ensures forall i :: 0 <= i < |balls| ==> Kept(balls, bar)[i] == Moved(balls[i], bar).0
  {
    if balls != [] {
      var n := |balls| - 1;
      assert forall i :: 0 <= i < n ==> balls[..n][i] == balls[i];
      KeptEvery(balls[..n], bar);
    }
  }

  /** The kept balls are moved input balls, no more than before, none lost
      and all within the side walls. */
  lemma {:induction false} KeptFrom(balls: seq<Ball>, bar: Rect)
    requires bar.w > 0
    ensures var kept := Kept(balls, bar);
      |kept| <= |balls| &&
      (forall j :: 0 <= j < |kept| ==> !Lost(kept[j]) && 40.0 <= kept[j].x <= 1160.0) &&
      (forall j :: 0 <= j < |kept| ==> exists i :: 0 <= i < |balls| && kept[j] == Moved(balls[i], bar).0)
  {
    if balls != [] {
      var n := |balls| - 1;
      KeptFrom(balls[..n], bar);
      var kept := Kept(balls[..n], bar);
      var b := Moved(balls[n], bar).0;
      WallCheckConfines(balls[n].(x := balls[n].x + balls[n].vx, y := balls[n].y + balls[n].vy));
      var kept' := Kept(balls, bar);
      assert kept' == kept + (if Lost(b) then [] else [b]);
      forall j | 0 <= j < |kept'|
        ensures exists i :: 0 <= i < |balls| && kept'[j] == Moved(balls[i], bar).0
      {
        if j < |kept| {
          var i :| 0 <= i < n && kept[j] == Moved(balls[..n][i], bar).0;
          assert balls[..n][i] == balls[i];
        } else {
          assert kept'[j] == b;
        }
      }
    }
  }

  /** The balls `move_ball` keeps are the moved balls that are still on
      screen, all within the side walls; every moved ball still on screen
      is among them; and `last_hit_ball` names the last ball whose paddle
      check fired, or is unchanged when none fired. */
  lemma MovedAllKeeps(balls: seq<Ball>, bar: Rect, lastHit: Option<nat>)
    requires bar.w > 0
    ensures var (kept, last) := MovedAll(balls, bar, lastHit);
      |kept| <= |balls| &&
      (forall j :: 0 <= j < |kept| ==> !Lost(kept[j]) && 40.0 <= kept[j].x <= 1160.0) &&
      (forall j :: 0 <= j < |kept| ==> exists i :: 0 <= i < |balls| && kept[j] == Moved(balls[i], bar).0) &&
      (last == lastHit || exists i :: 0 <= i < |balls| && last == Some(balls[i].id))
    ensures forall i :: 0 <= i < |balls| && !Lost(Moved(balls[i], bar).0) ==>
      Moved(balls[i], bar).0 in MovedAll(balls, bar, lastHit).0
    ensures (forall i :: 0 <= i < |balls| ==> !Moved(balls[i], bar).1) ==>
      MovedAll(balls, bar, lastHit).1 == lastHit
    ensures forall i :: LastBounce(balls, bar, i) ==> MovedAll(balls, bar, lastHit).1 == Some(balls[i].id)
    ensures (forall i :: 0 <= i < |balls| ==> !Lost(Moved(balls[i], bar).0)) ==>
      |MovedAll(balls, bar, lastHit).0| == |balls| &&
      forall i :: 0 <= i < |balls| ==> MovedAll(balls, bar, lastHit).0[i] == Moved(balls[i], bar).0
  {
    KeptFrom(balls, bar);
    KeptAll(balls, bar);
    if forall i :: 0 <= i < |balls| ==> !Lost(Moved(balls[i], bar).0) {
      KeptEvery(balls, bar);
    }
    LastHitNames(balls, bar, lastHit);
  }
}
