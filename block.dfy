/** A brick: its size follows its type, and a square type-2 brick with art
    takes two hits. `hit` reports destruction; the hit points never reach 0. */
module Bricks {
  import opened Geometry
  import opened Palette

  datatype Brick = Brick(rect: Rect, color: Rgb, kind: int, hp: int, maxHp: int)

  /** Hit points stay between 1 and the starting value, which is 1 or 2. */
  predicate ValidHp(b: Brick)
  {
    1 <= b.hp <= b.maxHp <= 2
  }

  /** `Block(x, y, color, block_type)`. `squareArt` stands for whether a
      square image exists for the colour, which is what decides the two hit
      points. */
  function NewBrick(x: int, y: int, color: Rgb, kind: int, squareArt: bool): (b: Brick)
    ensures b.rect.x == x && b.rect.y == y
    ensures kind == 2 ==> b.rect.w == 35 && b.rect.h == 35
    ensures kind != 2 ==> b.rect.w == 60 && b.rect.h == 25
    ensures b.hp == 2 <==> kind == 2 && squareArt
    ensures b.color == color && b.kind == kind
    ensures b.maxHp == b.hp && ValidHp(b)
  {
    var hp := if kind == 2 && squareArt then 2 else 1;
    if kind == 2 then Brick(Rect(x, y, 35, 35), color, kind, hp, hp)
    else Brick(Rect(x, y, 60, 25), color, kind, hp, hp)
  }

  /** `hit()`: the brick after the hit and whether it broke. */
  function HitBrick(b: Brick): (r: (Brick, bool))
    ensures r.1 <==> b.hp <= 1
    ensures r.1 ==> r.0 == b
    ensures !r.1 ==> r.0 == b.(hp := b.hp - 1)
    ensures ValidHp(b) ==> ValidHp(r.0) && r.0.hp <= b.hp
  {
    if b.hp <= 1 then (b, true) else (b.(hp := b.hp - 1), false)
  }

  /** The brick after `n` hits, ignoring whether they broke it. */
  function HitTimes(b: Brick, n: nat): Brick
    decreases n
  {
    if n == 0 then b else HitTimes(HitBrick(b).0, n - 1)
  }

  /** Hits never raise the hit points and never take them below 1. */
  lemma {:induction false} HitsKeepHp(b: Brick, n: nat)
    requires ValidHp(b)
    ensures ValidHp(HitTimes(b, n))
    ensures HitTimes(b, n).hp <= b.hp
    ensures HitTimes(b, n).rect == b.rect && HitTimes(b, n).maxHp == b.maxHp
    decreases n
  {
    if n > 0 {
      HitsKeepHp(HitBrick(b).0, n - 1);
    }
  }

  /** A valid brick breaks on exactly hit number `hp`: every earlier hit
      reports survival. */
  lemma {:induction false} BreaksOnHitNumberHp(b: Brick, n: nat)
    requires ValidHp(b)
    ensures n < b.hp - 1 ==> !HitBrick(HitTimes(b, n)).1
    ensures n >= b.hp - 1 ==> HitBrick(HitTimes(b, n)).1
    decreases n
  {
    if n > 0 {
      BreaksOnHitNumberHp(HitBrick(b).0, n - 1);
      if b.hp > 1 {
        assert HitBrick(b).0.hp == b.hp - 1;
      } else {
        assert HitTimes(HitBrick(b).0, n - 1) == b by { HitUnbroken(b, n - 1); }
      }
    }
  }

  /** Hitting a one-point brick leaves it as it is. */
  lemma {:induction false} HitUnbroken(b: Brick, n: nat)
    requires b.hp <= 1
    ensures HitTimes(b, n) == b
  {
    if n > 0 {
      HitUnbroken(b, n - 1);
    }
  }

  /** A square type-2 brick with art survives the first hit and breaks on
      the second; every other new brick breaks on the first. */
  lemma NewBrickHits(x: int, y: int, color: Rgb, kind: int, squareArt: bool)
    ensures var b := NewBrick(x, y, color, kind, squareArt);
      (kind == 2 && squareArt ==> !HitBrick(b).1 && HitBrick(HitBrick(b).0).1) &&
      (!(kind == 2 && squareArt) ==> HitBrick(b).1)
  {
  }

  /** The `Block` object. */
  class Block {
    var rect: Rect
    var color: Rgb
    var kind: int
    var hp: int
    var maxHp: int

    function State(): Brick
      reads this
    {
      Brick(rect, color, kind, hp, maxHp)
    }

    /** Colours outside the palette have no image entry, so the source
        fails on them. */
    constructor (x: int, y: int, color: Rgb, kind: int, squareArt: bool)
      requires color in Colors
      ensures State() == NewBrick(x, y, color, kind, squareArt)
    {
      var b := NewBrick(x, y, color, kind, squareArt);
      rect, this.color, this.kind, hp, maxHp := b.rect, color, kind, b.hp, b.maxHp;
    }

    method Hit() returns (destroyed: bool)
      modifies this
      ensures (State(), destroyed) == HitBrick(old(State()))
    {
      if hp <= 1 {
        return true;
      }
      hp := hp - 1;
      return false;
    }
  }
}
