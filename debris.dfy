/** What happens when a ball or a blast strikes a brick: the brick takes a
    hit and, if it breaks, it bursts into particles, rolls for a drop and is
    removed. The random values the game draws are an injected source. */
module Debris {
  import opened Geometry
  import opened Palette
  import opened Bricks
  import opened Coins
  import opened PowerUps
  import opened Particles
  import opened Drops
  import opened Physics

  /** Particles per broken brick, and points per broken brick. */
  const BurstSize: int := 15
  const BrickPoints: int := 50

  /** The random values of one particle: `randint(3, 6)`,
      `uniform(-3, 3)` and `uniform(-5, -2)`. */
  datatype SparkDraw = SparkDraw(size: int, vx: real, vy: real)
  type Spark = s: SparkDraw | 3 <= s.size <= 6 && -3.0 <= s.vx <= 3.0 && -5.0 <= s.vy <= -2.0
    witness SparkDraw(3, 0.0, -2.0)

  /** The random source: the `k`-th brick broken in a session uses drop roll
      `roll(k)` and the particle draws `spark(15 * k)` to `spark(15 * k + 14)`. */
  datatype Dice = Dice(roll: nat -> real, spark: nat -> Spark)

  /** The lists a strike changes, and the number of bricks broken so far. */
  datatype Field = Field(
    blocks: seq<Brick>,
    particles: seq<ParticleState>,
    coins: seq<CoinState>,
    powerups: seq<PowerUpState>,
    broken: nat)

  /** The rectangles of the bricks, for `collidelist`. */
  function Rects(bs: seq<Brick>): (rs: seq<Rect>)
    ensures |rs| == |bs|
    ensures forall i :: 0 <= i < |bs| ==> rs[i] == bs[i].rect
  {
    if bs == [] then [] else [bs[0].rect] + Rects(bs[1..])
  }

  /** The fifteen particles of a broken brick, from its centre. */
  function Burst(x: int, y: int, color: Rgb, first: nat, dice: Dice): (ps: seq<ParticleState>)
    ensures |ps| == BurstSize
  {
    seq(BurstSize, i requires 0 <= i < BurstSize =>
      var s := dice.spark(first + i);
      NewParticle(x as real, y as real, color, s.size, s.vx, s.vy))
  }

  /** The fifteen-particle loop of a brick break. */
  method SpawnBurst(x: int, y: int, color: Rgb, first: nat, dice: Dice) returns (ps: seq<ParticleState>)
    ensures ps == Burst(x, y, color, first, dice)
  {
    ps := [];
    var i := 0;
    while i < BurstSize
      invariant 0 <= i <= BurstSize
      invariant ps == Burst(x, y, color, first, dice)[..i]
    {
      var s := dice.spark(first + i);
      ps := ps + [NewParticle(x as real, y as real, color, s.size, s.vx, s.vy)];
      i := i + 1;
    }
  }

  /** Brick `k` is hit. If it breaks: particles at its centre, a coin or a
      pick-up 15 pixels left of the centre as the roll decides, and the
      brick leaves the list. Otherwise it only loses a hit point. */
  function Strike(f: Field, k: nat, dice: Dice): (f': Field)
    requires k < |f.blocks|
    ensures |f'.blocks| + f'.broken == |f.blocks| + f.broken
    ensures f'.broken == f.broken || f'.broken == f.broken + 1
    ensures f'.broken == f.broken + 1 <==> f.blocks[k].hp <= 1
    ensures f'.broken == f.broken ==>
      f'.blocks == f.blocks[k := HitBrick(f.blocks[k]).0] &&
      f'.particles == f.particles && f'.coins == f.coins && f'.powerups == f.powerups
    ensures f'.broken == f.broken + 1 ==> f'.blocks == f.blocks[..k] + f.blocks[k + 1..]
  {
    var b := f.blocks[k];
    var (hit, destroyed) := HitBrick(b);
    if !destroyed then f.(blocks := f.blocks[k := hit])
    else
      var cx := b.rect.CenterX();
      var cy := b.rect.CenterY();
      var drop := DropFor(dice.roll(f.broken));
      Field(
        f.blocks[..k] + f.blocks[k + 1..],
        f.particles + Burst(cx, cy, b.color, BurstSize * f.broken, dice),
        if drop == CoinDrop then f.coins + [NewCoin(cx - 15, cy)] else f.coins,
        if drop.PowerDrop? then f.powerups + [NewPowerUp(cx - 15, cy, drop.kind)] else f.powerups,
        f.broken + 1)
  }

  /** The strike as the source performs it: `hit()`, then the particle loop,
      `choose_drop` and the removal. */
  method StrikeBlock(f: Field, k: nat, dice: Dice) returns (f': Field)
    requires k < |f.blocks|
    ensures f' == Strike(f, k, dice)
  {
    var b := f.blocks[k];
    var (hit, destroyed) := HitBrick(b);
    if !destroyed {
      return f.(blocks := f.blocks[k := hit]);
    }
    var cx := b.rect.CenterX();
    var cy := b.rect.CenterY();
    var burst := SpawnBurst(cx, cy, b.color, BurstSize * f.broken, dice);
    var drop := ChooseDrop(dice.roll(f.broken));
    var coins := f.coins;
    var powerups := f.powerups;
    if drop == CoinDrop {
      coins := coins + [NewCoin(cx - 15, cy)];
    } else if drop.PowerDrop? {
      powerups := powerups + [NewPowerUp(cx - 15, cy, drop.kind)];
    }
    f' := Field(f.blocks[..k] + f.blocks[k + 1..], f.particles + burst, coins, powerups, f.broken + 1);
  }

  /** One ball of `detect_collision`: the first brick its box overlaps
      deflects it and is struck. */
  function BallStrike(f: Field, b: Ball, dice: Dice): (r: (Field, Ball))
  {
    var box := BallRect(b);
    var k := CollideList(box, Rects(f.blocks));
    if k < 0 then (f, b) else (Strike(f, k, dice), Deflected(b, box, f.blocks[k].rect))
  }

  /** `detect_collision` over a list of balls, in order; each ball sees the
      bricks the balls before it left. */
  function BallsStrike(f: Field, balls: seq<Ball>, dice: Dice): (r: (Field, seq<Ball>))
    ensures |r.1| == |balls|
  {
    if balls == [] then (f, [])
    else
      var n := |balls| - 1;
      var (f1, done) := BallsStrike(f, balls[..n], dice);
      var (f2, b) := BallStrike(f1, balls[n], dice);
      (f2, done + [b])
  }

  /** Blast against bricks: the first brick the blast overlaps is struck and
      the blast is used up; a blast that touches nothing flies on. */
  function BlastStrike(f: Field, blast: BlastState, dice: Dice): (r: (Field, seq<BlastState>))
  {
    var k := CollideList(blast.rect, Rects(f.blocks));
    if k < 0 then (f, [blast]) else (Strike(f, k, dice), [])
  }

  /** Every blast in order against the bricks the earlier ones left. */
  function BlastsStrike(f: Field, blasts: seq<BlastState>, dice: Dice): (r: (Field, seq<BlastState>))
  {
    if blasts == [] then (f, [])
    else
      var n := |blasts| - 1;
      var (f1, kept) := BlastsStrike(f, blasts[..n], dice);
      var (f2, left) := BlastStrike(f1, blasts[n], dice);
      (f2, kept + left)
  }

  /** Bricks are only ever removed one per break, so the points earned,
      50 per break, are 50 times the number of bricks that disappeared. */
  lemma {:induction false} BallsStrikeCounts(f: Field, balls: seq<Ball>, dice: Dice)
    ensures var (f', _) := BallsStrike(f, balls, dice);
      |f'.blocks| + f'.broken == |f.blocks| + f.broken && f'.broken >= f.broken
    ensures var (f', _) := BallsStrike(f, balls, dice);
      f'.broken - f.broken <= |balls|
  {
    if balls != [] {
      BallsStrikeCounts(f, balls[..|balls| - 1], dice);
    }
  }

  /** `c` is ball `b` after a bounce: same ball, same place, same speed. */
  predicate Rebound(c: Ball, b: Ball)
  {
    c.id == b.id && c.x == b.x && c.y == b.y &&
    SpeedSq(c) == SpeedSq(b)
  }

  /** A ball keeps its identity and position and has at most one velocity
      component reversed, keeping its speed. */
  lemma BallStrikeKeepsBall(f: Field, b: Ball, dice: Dice)
    ensures Rebound(BallStrike(f, b, dice).1, b)
  {
    var box := BallRect(b);
    var k := CollideList(box, Rects(f.blocks));
    if k >= 0 {
      DeflectedRebounds(b, box, f.blocks[k].rect);
    }
  }

  /** A deflection off a brick is a rebound. */
  lemma DeflectedRebounds(b: Ball, box: Rect, brick: Rect)
    ensures Rebound(Deflected(b, box, brick), b)
  {
    DeflectionAxis(b, box, brick);
  }

  /** The same for every ball of the list, in place. */
  lemma {:induction false} BallsStrikeKeepsBalls(f: Field, balls: seq<Ball>, dice: Dice)
    ensures var bs := BallsStrike(f, balls, dice).1;
      forall i :: 0 <= i < |balls| ==> Rebound(bs[i], balls[i])
  {
    if balls != [] {
      var n := |balls| - 1;
      var init := balls[..n];
      var prev := BallsStrike(f, init, dice);
      var last := BallStrike(prev.0, balls[n], dice).1;
      var bs := BallsStrike(f, balls, dice).1;
      assert bs == prev.1 + [last] by {
        BallsStrikeStep(f, balls, dice);
      }
      assert Rebound(last, balls[n]) by {
        BallStrikeKeepsBall(prev.0, balls[n], dice);
      }
      assert forall i :: 0 <= i < n ==> Rebound(prev.1[i], init[i]) by {
        BallsStrikeKeepsBalls(f, init, dice);
      }
      forall i | 0 <= i < |balls|
        ensures Rebound(bs[i], balls[i])
      {
        if i < n {
          assert bs[i] == prev.1[i] && balls[i] == init[i];
        }
      }
    }
  }

  /** The list strike takes the last ball after all the others. */
  lemma BallsStrikeStep(f: Field, balls: seq<Ball>, dice: Dice)
    requires balls != []
    ensures var n := |balls| - 1;
      var prev := BallsStrike(f, balls[..n], dice);
      BallsStrike(f, balls, dice).1 == prev.1 + [BallStrike(prev.0, balls[n], dice).1]
  {
  }

  /** A ball touching no brick passes untouched and strikes nothing. */
  lemma MissLeavesAll(f: Field, b: Ball, dice: Dice)
    requires forall i :: 0 <= i < |f.blocks| ==> !Collide(BallRect(b), f.blocks[i].rect)
    ensures BallStrike(f, b, dice) == (f, b)
  {
  }

  /** The same counting for blasts, and every blast that struck is gone:
      at most one brick is struck per blast. */
  lemma {:induction false} BlastsStrikeCounts(f: Field, blasts: seq<BlastState>, dice: Dice)
    ensures var (f', kept) := BlastsStrike(f, blasts, dice);
      |f'.blocks| + f'.broken == |f.blocks| + f.broken && f'.broken >= f.broken &&
      |kept| <= |blasts| && f'.broken - f.broken <= |blasts| - |kept|
  {
    if blasts != [] {
      BlastsStrikeCounts(f, blasts[..|blasts| - 1], dice);
    }
  }

  /** A brick that breaks adds exactly fifteen particles at its centre and at
      most one falling item, never a fireball. */
  lemma StrikeDebris(f: Field, k: nat, dice: Dice)
    requires k < |f.blocks| && f.blocks[k].hp <= 1
    ensures var f' := Strike(f, k, dice);
      |f'.particles| == |f.particles| + BurstSize &&
      |f'.coins| + |f'.powerups| <= |f.coins| + |f.powerups| + 1 &&
      forall i :: |f.powerups| <= i < |f'.powerups| ==> f'.powerups[i].kind != Fireball
  {
    NoFireballDrops(dice.roll(f.broken));
  }
}
