/** The paddle: its size state, the per-frame width smoothing that keeps it
    centred, and the keyboard clamps before and after the ball is launched. */
module Paddles {
  import opened Geometry

  /** `paddle_state`: one value shared by both size pick-ups, so a small and
      a big paddle overwrite each other. */
  datatype PaddleSize = Normal | Small | Big

  const OriginalWidth: int := 200
  const SmallWidth: int := 100
  const BigWidth: int := 280
  const BarHeight: int := 20
  /** `bar_y`: the screen height less the bar height less 100. */
  const BarY: int := ScreenHeight - BarHeight - 100
  /** Paddle movement per frame while a key is held. */
  const Speed: int := 8
  const WallPadding: int := 30
  const EdgeAdjust: int := 8

  function TargetWidth(size: PaddleSize): (w: int)
    ensures SmallWidth <= w <= BigWidth
  {
    match size
    case Small => SmallWidth
    case Big => BigWidth
    case Normal => OriginalWidth
  }

  /** The paddle's horizontal state: `bar_x` and the two widths kept on the
      drawing function (`draw_bar.width`, `draw_bar.stored_width`). */
  datatype Bar = Bar(x: real, width: real, stored: real)

  /** The bar after a reset: centred, normal width. */
  const RestingBar: Bar := Bar(((ScreenWidth - OriginalWidth) / 2) as real, OriginalWidth as real, OriginalWidth as real)

  /** One frame of `draw_bar`: the width closes a tenth of its distance to
      the target and `bar_x` moves left by half the change, so the centre
      stays put. */
  function Smoothed(bar: Bar, size: PaddleSize): (b: Bar)
    ensures b.stored == b.width
    ensures b.width - TargetWidth(size) as real == 0.9 * (bar.width - TargetWidth(size) as real)
    ensures bar.stored == bar.width ==> b.x + b.width / 2.0 == bar.x + bar.width / 2.0
  {
    var w := bar.width + (TargetWidth(size) as real - bar.width) * 0.10;
    Bar(bar.x - (w - bar.stored) / 2.0, w, w)
  }

  /** The rectangle `draw_bar` returns. */
  function BarRect(bar: Bar): (r: Rect)
    ensures r.y == BarY && r.h == BarHeight
    ensures r.x == Trunc(bar.x) && r.w == Trunc(bar.width)
  {
    RectOf(bar.x, BarY as real, bar.width, BarHeight as real)
  }

  /** The paddle is always between the small and the big width. */
  predicate WidthInRange(bar: Bar)
  {
    SmallWidth as real <= bar.width <= BigWidth as real && bar.stored == bar.width
  }

  /** Smoothing never overshoots the target, so the width stays in range and
      the bar rectangle is never empty. */
  lemma SmoothingStaysInRange(bar: Bar, size: PaddleSize)
    requires WidthInRange(bar)
    ensures WidthInRange(Smoothed(bar, size))
    ensures bar.width <= TargetWidth(size) as real ==>
      bar.width <= Smoothed(bar, size).width <= TargetWidth(size) as real
    ensures bar.width >= TargetWidth(size) as real ==>
      TargetWidth(size) as real <= Smoothed(bar, size).width <= bar.width
    ensures BarRect(Smoothed(bar, size)).w >= SmallWidth
  {
  }

  function Pow(r: real, n: nat): real
  {
    if n == 0 then 1.0 else r * Pow(r, n - 1)
  }

  function SmoothedTimes(bar: Bar, size: PaddleSize, n: nat): Bar
  {
    if n == 0 then bar else Smoothed(SmoothedTimes(bar, size, n - 1), size)
  }

  /** After `n` frames with the same size state the distance to the target
      has shrunk to 0.9^n of what it was. */
  lemma SmoothedTimesWidth(bar: Bar, size: PaddleSize, n: nat)
    ensures SmoothedTimes(bar, size, n).width - TargetWidth(size) as real ==
      Pow(0.9, n) * (bar.width - TargetWidth(size) as real)
  {
    SmoothedTimesDecay(bar, size, n);
    DecayIsPow(bar.width - TargetWidth(size) as real, n);
  }

  /** `d` shrunk by the factor 0.9 `n` times. */
  function Decay(d: real, n: nat): real
  {
    if n == 0 then d else 0.9 * Decay(d, n - 1)
  }

  lemma {:induction false} SmoothedTimesDecay(bar: Bar, size: PaddleSize, n: nat)
    ensures SmoothedTimes(bar, size, n).width - TargetWidth(size) as real ==
      Decay(bar.width - TargetWidth(size) as real, n)
  {
    if n > 0 {
      SmoothedTimesDecay(bar, size, n - 1);
    }
  }

  lemma {:induction false} DecayIsPow(d: real, n: nat)
    ensures Decay(d, n) == Pow(0.9, n) * d
  {
    if n > 0 {
      DecayIsPow(d, n - 1);
      ScaleStep(Decay(d, n), Decay(d, n - 1), Pow(0.9, n - 1), Pow(0.9, n), d);
    }
  }

  /** One more factor 0.9 on a product. */
  lemma ScaleStep(e: real, e0: real, p: real, q: real, d: real)
    requires e0 == p * d && e == 0.9 * e0 && q == 0.9 * p
    ensures e == q * d
  {
  }

  /** Smoothing frame after frame never moves the paddle's centre. */
  lemma {:induction false} SmoothedTimesCentre(bar: Bar, size: PaddleSize, n: nat)
    requires bar.stored == bar.width
    ensures SmoothedTimes(bar, size, n).x + SmoothedTimes(bar, size, n).width / 2.0 ==
      bar.x + bar.width / 2.0
    ensures SmoothedTimes(bar, size, n).stored == SmoothedTimes(bar, size, n).width
  {
    if n > 0 {
      SmoothedTimesCentre(bar, size, n - 1);
    }
  }

  /** Arrow-key movement: left first, then right, each clamped to its own
      limit. */
  function KeyMove(x: real, left: bool, right: bool, lo: real, hi: real): (x': real)
    ensures left && !right ==> x' == MaxR(x - Speed as real, lo)
    ensures right && !left ==> x' == MinR(x + Speed as real, hi)
    ensures !left && !right ==> x' == x
  {
    var afterLeft := if left then MaxR(x - Speed as real, lo) else x;
    if right then MinR(afterLeft + Speed as real, hi) else afterLeft
  }

  /** A paddle inside its limits stays inside them and moves at most one
      step; pressing left never ends left of the left limit, and pressing
      right never ends right of the right limit. */
  lemma KeyMoveClamped(x: real, left: bool, right: bool, lo: real, hi: real)
    requires lo <= x <= hi
    ensures lo <= KeyMove(x, left, right, lo, hi) <= hi
    ensures x - Speed as real <= KeyMove(x, left, right, lo, hi) <= x + Speed as real
  {
  }

  /** Limits while the ball rests on the paddle: the ball centre must stay
      between 20 pixels from either end of the paddle. */
  function PreLaunchLimits(ballX: real, width: real): (lim: (real, real))
    ensures lim.0 == Trunc(ballX - (Trunc(width) - 20) as real) as real
    ensures lim.1 == Trunc(ballX - 20.0) as real
  {
    var paddleWidth := Trunc(width);
    (Trunc(ballX - (paddleWidth - 2 * 10) as real) as real, Trunc(ballX - (2 * 10) as real) as real)
  }

  /** Limits after launch: the wall padding less the edge adjustment on the
      left, the same distance from the right wall for the paddle's right end. */
  function PostLaunchLimits(width: real): (lim: (real, real))
    ensures lim.0 == 22.0
    ensures lim.1 + Trunc(width) as real == (ScreenWidth - WallPadding + EdgeAdjust) as real
  {
    ((WallPadding - EdgeAdjust) as real, (ScreenWidth - WallPadding - Trunc(width) + EdgeAdjust) as real)
  }

  /** Within the pre-launch limits a resting ball at an integer position
      stays at least 20 pixels inside both ends of the paddle. */
  lemma PreLaunchKeepsBallOnPaddle(ballX: int, width: real, x: real)
    requires width >= 0.0
    requires PreLaunchLimits(ballX as real, width).0 <= x <= PreLaunchLimits(ballX as real, width).1
    ensures x + 20.0 <= ballX as real <= x + Trunc(width) as real - 20.0
  {
    TruncInt(ballX - (Trunc(width) - 20));
    TruncInt(ballX - 20);
  }
}
