/** The first prototype of the game, `breakout.py`: one ball, a fixed-width
    paddle moved by the arrow keys, bricks laid out in rows of 17 and a
    brick bounce chosen from the ball's previous position. */
module Prototype {
  import opened Geometry

  const BarWidth: int := 200
  const BarHeight: int := 20
  const BarY: int := 830
  const BarSpeed: int := 5
  const Radius: int := 10
  const MaxVx: real := 5.0
  const BlocksPerRow: int := 17
  const BlockWidth: int := 60
  const BlockHeight: int := 25
  const BlockSpace: int := 10

  datatype Rgb = Rgb(r: int, g: int, b: int)

  /** The prototype's own row colours (its orange differs from the game's). */
  const RowColors: seq<Rgb> := [Rgb(255, 0, 0), Rgb(255, 165, 0), Rgb(255, 255, 0),
    Rgb(0, 255, 0), Rgb(0, 0, 255), Rgb(180, 0, 255), Rgb(0, 255, 255)]

  datatype ProtoBlock = ProtoBlock(rect: Rect, color: Rgb)

  /** Where block number `i` goes: column `i mod 17`, row `i div 17`. */
  function BlockAt(i: nat): (b: ProtoBlock)
    ensures b.rect.w == BlockWidth && b.rect.h == BlockHeight
    ensures 0 < b.rect.Left() && b.rect.Right() <= ScreenWidth
    ensures b.color == RowColors[(i / BlocksPerRow) % 7]
  {
    var column := i % BlocksPerRow;
    var row := i / BlocksPerRow;
    ProtoBlock(Rect(column * (BlockWidth + BlockSpace) + BlockSpace,
                    BlockHeight * row + BlockSpace * row + 50, BlockWidth, BlockHeight),
               RowColors[row % 7])
  }

  /** `define_blocks(level)`: 68 blocks on level 0 and one otherwise, block
      `i` at `BlockAt(i)`. */
  method DefineBlocks(level: int) returns (blocks: seq<ProtoBlock>)
    ensures |blocks| == if level == 0 then 68 else 1
    ensures forall i :: 0 <= i < |blocks| ==> blocks[i] == BlockAt(i)
  {
    blocks := [];
    var numBlocks := 1;
    if level == 0 {
      numBlocks := 68;
    }
    var row := 0;
    var column := 0;
    var blocksPerRow := (ScreenWidth - BlockSpace) / (BlockWidth + BlockSpace);
    assert blocksPerRow == BlocksPerRow;
    var i := 0;
    while i < numBlocks
      invariant 0 <= i <= numBlocks && |blocks| == i
      invariant row * BlocksPerRow + column == i && 0 <= row
      invariant 0 <= column <= BlocksPerRow && (i > 0 ==> column >= 1)
      invariant forall j :: 0 <= j < i ==> blocks[j] == BlockAt(j)
    {
      var blockX := column * (BlockWidth + BlockSpace);
      if column >= blocksPerRow {
        row := row + 1;
        column := 0;
        blockX := column * (BlockWidth + BlockSpace);
      }
      DivMod17(i, row, column);
      var color := RowColors[row % |RowColors|];
      blocks := blocks + [ProtoBlock(Rect(blockX + BlockSpace, (BlockHeight * row) + (BlockSpace * row) + 50,
                                          BlockWidth, BlockHeight), color)];
      column := column + 1;
      i := i + 1;
    }
  }

  lemma DivMod17(i: int, row: int, column: int)
    requires i == row * BlocksPerRow + column && 0 <= column < BlocksPerRow
    ensures i / BlocksPerRow == row && i % BlocksPerRow == column
  {
  }

  /** Blocks of one layout never overlap one another. */
  lemma BlocksDisjoint(i: nat, j: nat)
    requires i != j
    ensures !Collide(BlockAt(i).rect, BlockAt(j).rect)
  {
    var ci, ri := i % BlocksPerRow, i / BlocksPerRow;
    var cj, rj := j % BlocksPerRow, j / BlocksPerRow;
    assert i == ri * BlocksPerRow + ci && j == rj * BlocksPerRow + cj;
    CollidePositive(BlockAt(i).rect, BlockAt(j).rect);
  }

  // ---------- one frame ----------

  datatype Ball = Ball(x: real, y: real, vx: real, vy: real)

  datatype ProtoState = ProtoState(ball: Ball, barX: int, lives: int, blocks: seq<ProtoBlock>, running: bool)

  /** Keys held and whether the window was closed this frame. */
  datatype Input = Input(right: bool, left: bool, quit: bool)

  /** The ball's vertical speed is always 5 and its horizontal speed at
      most 5.5, so a frame's move never exceeds the 10-pixel step limit;
      the paddle stays on screen on the 5-pixel grid. */
  predicate Valid(s: ProtoState)
  {
    (s.ball.vy == 5.0 || s.ball.vy == -5.0) &&
    -5.5 <= s.ball.vx <= 5.5 &&
    0 <= s.barX <= ScreenWidth - BarWidth && s.barX % BarSpeed == 0
  }

  /** The state `main_controller` starts from, around a block layout. */
  function Start(blocks: seq<ProtoBlock>): (s: ProtoState)
    ensures Valid(s) && s.lives == 3 && s.running && s.blocks == blocks
  {
    ProtoState(Ball(600.0, 450.0, 0.0, 5.0), (ScreenWidth - BarWidth) / 2, 3, blocks, true)
  }

  /** The wall test that opens each frame: no snapping, only reversal. */
  function Walls(b: Ball): (b': Ball)
    ensures b'.x == b.x && b'.y == b.y
    ensures b'.vx == (if b.x + Radius as real >= ScreenWidth as real || b.x - Radius as real <= 0.0 then -b.vx else b.vx)
    ensures b'.vy == (if b.y - Radius as real <= 0.0 then -b.vy else b.vy)
  {
    var vx := if b.x + Radius as real >= ScreenWidth as real || b.x - Radius as real <= 0.0 then -b.vx else b.vx;
    var vy := if b.y - Radius as real <= 0.0 then -b.vy else b.vy;
    b.(vx := vx, vy := vy)
  }

  /** Arrow keys: right moves 5 while the paddle's right edge is inside the
      screen, left moves 5 while its left edge is right of 0. */
  function Steer(barX: int, input: Input): (x: int)
    ensures 0 <= barX <= ScreenWidth - BarWidth && barX % BarSpeed == 0 ==>
      0 <= x <= ScreenWidth - BarWidth && x % BarSpeed == 0
    ensures -BarSpeed * 2 <= x - barX <= BarSpeed * 2
  {
    var x1 := if input.right && barX + BarWidth < ScreenWidth then barX + BarSpeed else barX;
    if input.left && x1 > 0 then x1 - BarSpeed else x1
  }

  /** `move_towards_ip(position + velocity, 10)` when the velocity is
      shorter than 10: the full step. */
  function Move(b: Ball): (b': Ball)
    requires b.vx * b.vx + b.vy * b.vy <= 100.0
    ensures b'.vx == b.vx && b'.vy == b.vy
    ensures b'.x - b.x == b.vx && b'.y - b.y == b.vy
    ensures (b'.x - b.x) * (b'.x - b.x) + (b'.y - b.y) * (b'.y - b.y) <= 100.0
  {
    b.(x := b.x + b.vx, y := b.y + b.vy)
  }

  /** A valid ball never moves more than 10 pixels in a frame. */
  lemma SpeedBelowStep(b: Ball)
    requires (b.vy == 5.0 || b.vy == -5.0) && -5.5 <= b.vx <= 5.5
    ensures b.vx * b.vx + b.vy * b.vy <= 100.0
  {
    SquareBound(b.vx);
  }

  lemma SquareBound(v: real)
    requires -5.5 <= v <= 5.5
    ensures v * v <= 30.25
  {
    if v >= 0.0 {
      assert v * v <= 5.5 * v by { MulMonotone(v, 5.5, v); }
    } else {
      assert v * v <= 5.5 * -v by { MulMonotone(-v, 5.5, -v); }
    }
  }

  lemma MulMonotone(a: real, c: real, k: real)
    requires a <= c && k >= 0.0
    ensures a * k <= c * k
  {
  }

  /** The box `pygame.draw.circle` reports for the ball. */
  function BallRect(b: Ball): Rect
  {
    Rect(Trunc(b.x) - Radius, Trunc(b.y) - Radius, 2 * Radius, 2 * Radius)
  }

  function Bar(barX: int): Rect
  {
    Rect(barX, BarY, BarWidth, BarHeight)
  }

  /** Paddle hit: the horizontal speed becomes 0.05 per pixel of offset of
      the ball's box from the paddle's centre, the vertical speed is negated
      and the ball is put one pixel above the bar. */
  function Paddle(b: Ball, barX: int, ballRect: Rect): (b': Ball)
    ensures !Collide(Bar(barX), ballRect) ==> b' == b
    ensures Collide(Bar(barX), ballRect) ==>
      b' == Ball(b.x, (BarY - Radius - 1) as real,
                 (ballRect.CenterX() - Bar(barX).CenterX()) as real * (MaxVx / (BarWidth as real / 2.0)), -b.vy)
  {
    if Collide(Bar(barX), ballRect) then
      var offset := (Bar(barX).CenterX() - ballRect.CenterX()) * -1;
      var ratio := MaxVx / (BarWidth as real / 2.0);
      Ball(b.x, (BarY - Radius - 1) as real, offset as real * ratio, -b.vy)
    else b
  }

  /** A paddle bounce off the ball's own box keeps the speed in range. */
  lemma PaddleSpeed(b: Ball, barX: int)
    requires -5.5 <= b.vx <= 5.5
    ensures var b' := Paddle(b, barX, BallRect(b)); -5.5 <= b'.vx <= 5.5 && (b'.vy == b.vy || b'.vy == -b.vy)
  {
    var r := BallRect(b);
    if Collide(Bar(barX), r) {
      CollidePositive(Bar(barX), r);
      assert r.CenterX() == Trunc(b.x);
      assert -110 < r.CenterX() - Bar(barX).CenterX() < 110;
    }
  }

  /** Brick hit, judged from the ball's position before the move: a
      vertical bounce iff it was above the top or below the bottom edge,
      and the ball is put `r + 1` outside the face it struck. */
  function Bounce(b: Ball, prevX: real, prevY: real, block: Rect): (b': Ball)
    ensures (prevY <= block.Top() as real || prevY >= block.Bottom() as real) ==>
      b'.vy == -b.vy && b'.vx == b.vx && b'.x == b.x &&
      b'.y == (if prevY <= block.Top() as real then (block.Top() - Radius - 1) as real
               else (block.Bottom() + Radius + 1) as real)
    ensures !(prevY <= block.Top() as real || prevY >= block.Bottom() as real) ==>
      b'.vx == -b.vx && b'.vy == b.vy && b'.y == b.y &&
      b'.x == (if prevX <= block.Left() as real then (block.Left() - Radius - 1) as real
               else (block.Right() + Radius + 1) as real)
  {
    var vertical := prevY <= block.Top() as real || prevY >= block.Bottom() as real;
    if vertical then
      var y := if prevY <= block.Top() as real then (block.Top() - Radius - 1) as real
               else (block.Bottom() + Radius + 1) as real;
      b.(vy := -b.vy, y := y)
    else
      var x := if prevX <= block.Left() as real then (block.Left() - Radius - 1) as real
               else (block.Right() + Radius + 1) as real;
      b.(vx := -b.vx, x := x)
  }

  /** The brick loop over a copy of the list: every block the (stale) ball
      box overlaps bounces the ball and is removed; the rest are kept in
      order. */
  function Bricks(b: Ball, prevX: real, prevY: real, ballRect: Rect, blocks: seq<ProtoBlock>): (r: (Ball, seq<ProtoBlock>))
    ensures |r.1| <= |blocks|
    ensures (r.0.vx == b.vx || r.0.vx == -b.vx) && (r.0.vy == b.vy || r.0.vy == -b.vy)
    decreases |blocks|
  {
    if blocks == [] then (b, [])
    else
      var hit := Collide(blocks[0].rect, ballRect);
      var b1 := if hit then Bounce(b, prevX, prevY, blocks[0].rect) else b;
      var rest := Bricks(b1, prevX, prevY, ballRect, blocks[1..]);
      (rest.0, (if hit then [] else [blocks[0]]) + rest.1)
  }

  /** The blocks the ball box does not overlap, in order. */
  function Misses(blocks: seq<ProtoBlock>, ballRect: Rect): (r: seq<ProtoBlock>)
    ensures forall k :: 0 <= k < |r| ==> r[k] in blocks && !Collide(r[k].rect, ballRect)
  {
    if blocks == [] then []
    else (if Collide(blocks[0].rect, ballRect) then [] else [blocks[0]]) + Misses(blocks[1..], ballRect)
  }

  /** The loop removes exactly the blocks hit, and when nothing is hit the
      ball and the list are untouched. */
  lemma {:induction false} BricksRemovesHits(b: Ball, prevX: real, prevY: real, ballRect: Rect, blocks: seq<ProtoBlock>)
    ensures Bricks(b, prevX, prevY, ballRect, blocks).1 == Misses(blocks, ballRect)
    ensures (forall k :: 0 <= k < |blocks| ==> !Collide(blocks[k].rect, ballRect)) ==>
      Bricks(b, prevX, prevY, ballRect, blocks) == (b, blocks)
    decreases |blocks|
  {
    if blocks != [] {
      var hit := Collide(blocks[0].rect, ballRect);
      var b1 := if hit then Bounce(b, prevX, prevY, blocks[0].rect) else b;
      BricksRemovesHits(b1, prevX, prevY, ballRect, blocks[1..]);
      assert [blocks[0]] + blocks[1..] == blocks;
    }
  }

  /** The first half of a frame: wall test, quit, steering, the move and
      the paddle test. Also returns the position before the move and the
      ball's box after it, which the brick loop uses. */
  function Advance(s: ProtoState, input: Input): (r: (ProtoState, real, real, Rect))
    requires Valid(s)
    ensures Valid(r.0) && r.0.lives == s.lives && r.0.blocks == s.blocks
    ensures r.0.running == (s.running && !input.quit)
  {
    var b0 := Walls(s.ball);
    var barX := Steer(s.barX, input);
    SpeedBelowStep(b0);
    var b1 := Move(b0);
    var ballRect := BallRect(b1);
    PaddleSpeed(b1, barX);
    var b2 := Paddle(b1, barX, ballRect);
    (s.(ball := b2, barX := barX, running := s.running && !input.quit), b0.x, b0.y, ballRect)
  }

  /** The brick loop applied to the state. */
  function BrickPass(s: ProtoState, prevX: real, prevY: real, ballRect: Rect): (s': ProtoState)
    requires Valid(s)
    ensures Valid(s') && |s'.blocks| <= |s.blocks|
    ensures s'.lives == s.lives && s'.barX == s.barX && s'.running == s.running
  {
    var r := Bricks(s.ball, prevX, prevY, ballRect, s.blocks);
    s.(ball := r.0, blocks := r.1)
  }

  /** The end of a frame: a ball below the screen costs a life and either
      restarts or ends the game; an empty wall ends it too. */
  function Settle(s: ProtoState): (s': ProtoState)
    requires Valid(s)
    ensures Valid(s') && s'.blocks == s.blocks
    ensures s'.lives == s.lives || s'.lives == s.lives - 1
    ensures s.blocks == [] ==> !s'.running
    ensures !s.running ==> !s'.running
  {
    var lost := s.ball.y - Radius as real > ScreenHeight as real;
    var lives := if lost then s.lives - 1 else s.lives;
    var ball := if lost && lives > 0 then Ball(600.0, 450.0, 0.0, 5.0) else s.ball;
    var barX := if lost && lives > 0 then (ScreenWidth - BarWidth) / 2 else s.barX;
    var running := s.running && !(lost && lives <= 0) && |s.blocks| != 0;
    ProtoState(ball, barX, lives, s.blocks, running)
  }

  /** One pass of the prototype's main loop. */
  function Step(s: ProtoState, input: Input): (s': ProtoState)
    requires Valid(s)
    ensures Valid(s')
    ensures s'.lives == s.lives || s'.lives == s.lives - 1
    ensures |s'.blocks| <= |s.blocks|
    ensures input.quit || s'.blocks == [] ==> !s'.running
  {
    var a := Advance(s, input);
    Settle(BrickPass(a.0, a.1, a.2, a.3))
  }

  /** Losing the ball costs a life; with lives left the ball restarts from
      the centre moving down at 5 and the paddle is centred, else the game
      stops. */
  lemma LifeRule(s: ProtoState, input: Input)
    requires Valid(s)
    ensures var s' := Step(s, input);
      (s'.lives == s.lives - 1 && s'.lives > 0 ==>
         s'.ball == Ball(600.0, 450.0, 0.0, 5.0) && s'.barX == 500) &&
      (s'.lives == s.lives - 1 && s'.lives <= 0 ==> !s'.running)
  {
  }

  /** The prototype game's state as the main loop keeps it. */
  class ProtoGame {
    var ball: Ball
    var barX: int
    var lives: int
    var blocks: seq<ProtoBlock>
    var running: bool

    function State(): ProtoState
      reads this
    {
      ProtoState(ball, barX, lives, blocks, running)
    }

    constructor (level: int)
      ensures State() == Start(blocks)
      ensures |blocks| == if level == 0 then 68 else 1
      ensures forall i :: 0 <= i < |blocks| ==> blocks[i] == BlockAt(i)
    {
      ball := Ball(600.0, 450.0, 0.0, 5.0);
      barX := (ScreenWidth - BarWidth) / 2;
      lives := 3;
      running := true;
      var layout := DefineBlocks(level);
      blocks := layout;
    }

    method Frame(input: Input)
      requires Valid(State())
      modifies this
      ensures State() == Step(old(State()), input)
    {
      var prevX, prevY, ballRect := AdvanceBall(input);
      HitBricks(prevX, prevY, ballRect);
      CheckBall();
    }

    method AdvanceBall(input: Input) returns (prevX: real, prevY: real, ballRect: Rect)
      requires Valid(State())
      modifies this
      ensures (State(), prevX, prevY, ballRect) == Advance(old(State()), input)
    {
      ball := Walls(ball);
      if input.quit {
        running := false;
      }
      barX := Steer(barX, input);
      prevX, prevY := ball.x, ball.y;
      SpeedBelowStep(ball);
      ball := Move(ball);
      ballRect := BallRect(ball);
      ball := Paddle(ball, barX, ballRect);
    }

    /** The loop over a copy of the block list. */
    method HitBricks(prevX: real, prevY: real, ballRect: Rect)
      requires Valid(State())
      modifies this
      ensures State() == BrickPass(old(State()), prevX, prevY, ballRect)
    {
      var snapshot := blocks;
      var b := ball;
      var kept: seq<ProtoBlock> := [];
      var i := 0;
      assert snapshot[i..] == snapshot;
      assert kept + Bricks(b, prevX, prevY, ballRect, snapshot).1 == Bricks(b, prevX, prevY, ballRect, snapshot).1;
      while i < |snapshot|
        invariant 0 <= i <= |snapshot|
        invariant Bricks(ball, prevX, prevY, ballRect, snapshot).0 == Bricks(b, prevX, prevY, ballRect, snapshot[i..]).0
        invariant Bricks(ball, prevX, prevY, ballRect, snapshot).1 == kept + Bricks(b, prevX, prevY, ballRect, snapshot[i..]).1
      {
        var block := snapshot[i];
        assert snapshot[i..][1..] == snapshot[i + 1..];
        ghost var rest := Bricks(if Collide(block.rect, ballRect) then Bounce(b, prevX, prevY, block.rect) else b,
                                 prevX, prevY, ballRect, snapshot[i + 1..]);
        assert Bricks(b, prevX, prevY, ballRect, snapshot[i..])
          == (rest.0, (if Collide(block.rect, ballRect) then [] else [block]) + rest.1);
        if Collide(block.rect, ballRect) {
          assert [] + rest.1 == rest.1;
          b := Bounce(b, prevX, prevY, block.rect);
        } else {
          assert kept + ([block] + rest.1) == (kept + [block]) + rest.1;
          kept := kept + [block];
        }
        i := i + 1;
      }
      assert snapshot[i..] == [] && kept + [] == kept;
      ball, blocks := b, kept;
    }

    method CheckBall()
      requires Valid(State())
      modifies this
      ensures State() == Settle(old(State()))
    {
      if ball.y - Radius as real > ScreenHeight as real {
        lives := lives - 1;
        if lives > 0 {
          ball := Ball(600.0, 450.0, 0.0, 5.0);
          barX := (ScreenWidth - BarWidth) / 2;
        } else {
          running := false;
        }
      }
      if |blocks| == 0 {
        running := false;
      }
    }
  }
}
