/** A falling coin dropped by a broken brick. */
module Coins {
  import opened Geometry

  const CoinSize: int := 20
  const CoinSpeed: int := 4

  datatype CoinState = CoinState(x: int, y: int, rect: Rect)

  /** `Coin(x, y)`: a 20 by 20 box at `(x, y)`. */
  function NewCoin(x: int, y: int): (c: CoinState)
    ensures c.x == x && c.y == y && c.rect == Rect(x, y, CoinSize, CoinSize)
  {
    CoinState(x, y, Rect(x, y, CoinSize, CoinSize))
  }

  /** The coin one frame later. */
  function Fallen(c: CoinState): (c': CoinState)
    ensures c'.y == c.y + CoinSpeed && c'.rect.y == c'.y
    ensures c'.x == c.x && c'.rect == c.rect.(y := c'.y)
  {
    var y := c.y + CoinSpeed;
    c.(y := y, rect := c.rect.(y := y))
  }

  /** `is_off_screen`: below the bottom edge. */
  predicate OffScreen(c: CoinState)
  {
    c.y > ScreenHeight
  }

  function FallenTimes(c: CoinState, n: nat): CoinState
    decreases n
  {
    if n == 0 then c else Fallen(FallenTimes(c, n - 1))
  }

  /** After `n` frames a coin has dropped exactly `4 n` pixels, straight
      down, and its box still sits on it. */
  lemma {:induction false} FallenTimesPosition(c: CoinState, n: nat)
    requires c.rect.y == c.y
    ensures FallenTimes(c, n).y == c.y + CoinSpeed * n
    ensures FallenTimes(c, n).x == c.x
    ensures FallenTimes(c, n).rect == c.rect.(y := c.y + CoinSpeed * n)
    decreases n
  {
    if n > 0 {
      FallenTimesPosition(c, n - 1);
    }
  }

  /** Each frame moves the coin strictly down, so a coin that is on screen
      leaves it after `(900 - y) / 4 + 1` frames and not before. */
  lemma LeavesScreen(c: CoinState, n: nat)
    requires c.rect.y == c.y && c.y <= ScreenHeight
    ensures OffScreen(FallenTimes(c, n)) <==> n >= (ScreenHeight - c.y) / CoinSpeed + 1
  {
    FallenTimesPosition(c, n);
  }

  /** The `Coin` object. */
  class Coin {
    var x: int
    var y: int
    var rect: Rect

    function State(): CoinState
      reads this
    {
      CoinState(x, y, rect)
    }

    constructor (x: int, y: int)
      ensures State() == NewCoin(x, y)
    {
      this.x, this.y := x, y;
      rect := Rect(x, y, CoinSize, CoinSize);
    }

    method Update()
      modifies this
      ensures State() == Fallen(old(State()))
    {
      y := y + CoinSpeed;
      rect := rect.(y := y);
    }

    predicate IsOffScreen()
      reads this
    {
      OffScreen(State())
    }
  }
}
