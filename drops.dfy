/** The drop roll made when a brick breaks: a walk over a fixed, ordered
    table of weights that splits [0, 1) into bands by cumulative weight. */
module Drops {
  import opened PowerUps

  /** What falls out of a destroyed brick. */
  datatype Drop = CoinDrop | PowerDrop(kind: PowerKind) | NoDrop

  /** The drop table in its declared order. It has no entry for the
      fireball, slow, shield or reverse pick-ups. */
  const DropTable: seq<(Drop, real)> := [
    (CoinDrop, 0.30),
    (PowerDrop(TripleBall), 0.10),
    (PowerDrop(Blast), 0.10),
    (PowerDrop(SmallPaddle), 0.05),
    (PowerDrop(BigPaddle), 0.10),
    (NoDrop, 0.35)
  ]

  /** Sum of the first `k` weights of the table. */
  function Cumulative(k: nat): (total: real)
    requires k <= |DropTable|
  {
    if k == 0 then 0.0 else Cumulative(k - 1) + DropTable[k - 1].1
  }

  /** The bands the table defines, written out as thresholds. */
  function DropFor(roll: real): Drop
  {
    if roll < 0.30 then CoinDrop
    else if roll < 0.40 then PowerDrop(TripleBall)
    else if roll < 0.50 then PowerDrop(Blast)
    else if roll < 0.55 then PowerDrop(SmallPaddle)
    else if roll < 0.65 then PowerDrop(BigPaddle)
    else NoDrop
  }

  /** Entry `i` of the table owns exactly the band between the sums of the
      weights before it and up to it. */
  lemma TableBands(i: nat, roll: real)
    requires i < |DropTable|
    requires Cumulative(i) <= roll < Cumulative(i + 1)
    ensures DropFor(roll) == DropTable[i].0
  {
    assert Cumulative(1) == 0.30 && Cumulative(2) == 0.40 && Cumulative(3) == 0.50;
    assert Cumulative(4) == 0.55 && Cumulative(5) == 0.65 && Cumulative(6) == 1.00;
  }

  /** `choose_drop`: add the weights in table order and return the first
      entry whose running total exceeds the roll; "nothing" if none does. */
  method ChooseDrop(roll: real) returns (d: Drop)
    ensures d == DropFor(roll)
    ensures 0.0 <= roll < 1.0 ==> exists i :: 0 <= i < |DropTable| && DropTable[i].0 == d
  {
    var total := 0.0;
    var i := 0;
    while i < |DropTable|
      invariant 0 <= i <= |DropTable|
      invariant total == Cumulative(i)
      invariant Cumulative(i) <= roll || i == 0
    {
      total := total + DropTable[i].1;
      if roll < total {
        if i == 0 {
          assert DropFor(roll) == CoinDrop;
        } else {
          TableBands(i, roll);
        }
        return DropTable[i].0;
      }
      i := i + 1;
    }
    assert Cumulative(6) == 1.00;
    assert DropTable[5].0 == NoDrop;
    d := NoDrop;
  }

  /** Only the four pick-ups the table names can ever drop. */
  lemma NoFireballDrops(roll: real)
    ensures DropFor(roll).PowerDrop? ==>
      DropFor(roll).kind in {TripleBall, Blast, SmallPaddle, BigPaddle}
    ensures DropFor(roll) != PowerDrop(Fireball)
  {
  }

  /** Larger rolls never move back up the table: the bands are ordered. */
  lemma BandsOrdered(a: real, b: real, i: nat, j: nat)
    requires i < |DropTable| && j < |DropTable|
    requires a <= b && DropFor(a) == DropTable[i].0 && DropFor(b) == DropTable[j].0
    ensures i <= j
  {
  }
}
