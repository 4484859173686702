/** Falling pick-ups and the blue blasts the paddle fires upward. */
module PowerUps {
  import opened Geometry

  /** The pick-up kinds the object knows by name; the drop table only ever
      produces the first four. */
  datatype PowerKind = Blast | SmallPaddle | TripleBall | BigPaddle | Fireball | Slow | Shield | Reverse

  const PowerUpSpeed: int := 4

  datatype PowerUpState = PowerUpState(kind: PowerKind, x: int, y: int, rect: Rect)

  /** `PowerUp(x, y, type)`: triple-ball pick-ups are 60 by 60, all others
      30 by 30, with the box's corner at `(x, y)`. */
  function NewPowerUp(x: int, y: int, kind: PowerKind): (p: PowerUpState)
    ensures p.x == x && p.y == y && p.kind == kind
    ensures p.rect.x == x && p.rect.y == y
    ensures kind == TripleBall ==> p.rect.w == 60 && p.rect.h == 60
    ensures kind != TripleBall ==> p.rect.w == 30 && p.rect.h == 30
  {
    var side := if kind == TripleBall then 60 else 30;
    PowerUpState(kind, x, y, Rect(x, y, side, side))
  }

  /** The pick-up one frame later: 4 pixels down, box moved to `(x, y)`. */
  function Dropped(p: PowerUpState): (p': PowerUpState)
    ensures p'.y == p.y + PowerUpSpeed && p'.x == p.x && p'.kind == p.kind
    ensures p'.rect == Rect(p.x, p'.y, p.rect.w, p.rect.h)
  {
    var y := p.y + PowerUpSpeed;
    p.(y := y, rect := p.rect.(x := p.x, y := y))
  }

  predicate PowerUpOffScreen(p: PowerUpState)
  {
    p.y > ScreenHeight
  }

  const BlastSpeed: int := 8
  /** Blasts vanish above this line, the top of the play field. */
  const BlastCeiling: int := 120

  datatype BlastState = BlastState(x: int, y: int, rect: Rect)

  /** `BlueBlast(x, y)`: a 20 by 40 box at `(x, y)`. */
  function NewBlast(x: int, y: int): (b: BlastState)
    ensures b.x == x && b.y == y && b.rect == Rect(x, y, 20, 40)
  {
    BlastState(x, y, Rect(x, y, 20, 40))
  }

  /** The blast one frame later: 8 pixels up, box moved to `(x, y)`. */
  function Risen(b: BlastState): (b': BlastState)
    ensures b'.y == b.y - BlastSpeed && b'.x == b.x
    ensures b'.rect == Rect(b.x, b'.y, b.rect.w, b.rect.h)
  {
    var y := b.y - BlastSpeed;
    b.(y := y, rect := b.rect.(x := b.x, y := y))
  }

  predicate BlastOffScreen(b: BlastState)
  {
    b.y < BlastCeiling
  }

  function DroppedTimes(p: PowerUpState, n: nat): PowerUpState
    decreases n
  {
    if n == 0 then p else Dropped(DroppedTimes(p, n - 1))
  }

  function RisenTimes(b: BlastState, n: nat): BlastState
    decreases n
  {
    if n == 0 then b else Risen(RisenTimes(b, n - 1))
  }

  /** After `n` frames a pick-up has fallen `4 n` pixels and keeps its kind
      and size. */
  lemma {:induction false} DroppedTimesPosition(p: PowerUpState, n: nat)
    ensures DroppedTimes(p, n).y == p.y + PowerUpSpeed * n
    ensures DroppedTimes(p, n).kind == p.kind && DroppedTimes(p, n).x == p.x
    ensures n > 0 ==> DroppedTimes(p, n).rect == Rect(p.x, p.y + PowerUpSpeed * n, p.rect.w, p.rect.h)
    decreases n
  {
    if n > 0 {
      DroppedTimesPosition(p, n - 1);
    }
  }

  /** After `n` frames a blast has risen `8 n` pixels, so one fired at
      height `y` is gone after `(y - 120) / 8 + 1` frames and not before. */
  lemma {:induction false} RisenTimesPosition(b: BlastState, n: nat)
    ensures RisenTimes(b, n).y == b.y - BlastSpeed * n && RisenTimes(b, n).x == b.x
    ensures b.y >= BlastCeiling ==>
      (BlastOffScreen(RisenTimes(b, n)) <==> n >= (b.y - BlastCeiling) / BlastSpeed + 1)
    decreases n
  {
    if n > 0 {
      RisenTimesPosition(b, n - 1);
    }
  }

  /** The `PowerUp` object. */
  class PowerUp {
    var kind: PowerKind
    var x: int
    var y: int
    var rect: Rect

    function State(): PowerUpState
      reads this
    {
      PowerUpState(kind, x, y, rect)
    }

    constructor (x: int, y: int, kind: PowerKind)
      ensures State() == NewPowerUp(x, y, kind)
    {
      var side := if kind == TripleBall then 60 else 30;
      this.kind, this.x, this.y := kind, x, y;
      rect := Rect(x, y, side, side);
    }

    method Update()
      modifies this
      ensures State() == Dropped(old(State()))
    {
      y := y + PowerUpSpeed;
      rect := rect.(x := x, y := y);
    }

    predicate IsOffScreen()
      reads this
    {
      PowerUpOffScreen(State())
    }
  }

  /** The `BlueBlast` object. */
  class BlueBlast {
    var x: int
    var y: int
    var rect: Rect

    function State(): BlastState
      reads this
    {
      BlastState(x, y, rect)
    }

    constructor (x: int, y: int)
      ensures State() == NewBlast(x, y)
    {
      this.x, this.y := x, y;
      rect := Rect(x, y, 20, 40);
    }

    method Update()
      modifies this
      ensures State() == Risen(old(State()))
    {
      y := y - BlastSpeed;
      rect := rect.(x := x, y := y);
    }

    predicate IsOffScreen()
      reads this
    {
      BlastOffScreen(State())
    }
  }
}
