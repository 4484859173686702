/** The two timed power-ups of the main game, counted in frames: the blast
    gun that fires on its own, and the paddle size. They are independent;
    only the small and big paddle share a state and overwrite each other. */
module Powers {
  import opened Paddles

  /** `blast_duration` and `paddle_power_duration`, in frames. */
  const BlastDuration: int := 300
  const PaddlePowerDuration: int := 300

  /** `blast_active` and `blast_timer`. */
  datatype Gun = Gun(active: bool, timer: int)

  /** A shot from the left or the right end of the paddle, or none. */
  datatype Shot = NoShot | LeftShot | RightShot

  /** The side the shot fired at timer value `t` comes from. */
  function SideAt(t: int): Shot
  {
    if t % 20 == 0 then LeftShot else RightShot
  }

  /** The shot fired when the timer reaches `t`: one every tenth value. */
  function ShotAt(t: int): Shot
  {
    if t % 10 == 0 then SideAt(t) else NoShot
  }

  /** A fired shot as a list of shots. */
  function ShotList(s: Shot): seq<Shot>
  {
    if s == NoShot then [] else [s]
  }

  /** One frame of the blast auto-fire: an active gun with time left counts
      down; every tenth value it fires, alternating sides; at zero it stops. */
  function GunTick(g: Gun): (r: (Gun, Shot))
  {
    if g.active && g.timer > 0 then
      var t := g.timer - 1;
      (Gun(t > 0, t), ShotAt(t))
    else (g, NoShot)
  }

  /** The gun over `n` frames, with the shots it fires in order. */
  function Salvo(g: Gun, n: nat): (r: (Gun, seq<Shot>))
    decreases n
  {
    if n == 0 then (g, [])
    else
      var (g1, s) := GunTick(g);
      var (g2, rest) := Salvo(g1, n - 1);
      (g2, ShotList(s) + rest)
  }

  /** A stopped gun stays stopped and silent. */
  lemma {:induction false} SalvoIdle(g: Gun, n: nat)
    requires !g.active || g.timer <= 0
    ensures Salvo(g, n) == (g, [])
  {
    if n > 0 {
      assert GunTick(g) == (g, NoShot);
      SalvoIdle(g, n - 1);
      assert Salvo(g, n).1 == [] + Salvo(g, n - 1).1;
    }
  }

  /** The shots a gun with `t` frames left fires, in order: one at every
      timer value below `t` that is a multiple of ten, counting down. */
  function Schedule(t: int): seq<Shot>
    decreases t
  {
    if t <= 0 then [] else ShotList(ShotAt(t - 1)) + Schedule(t - 1)
  }

  /** A gun with `t` frames left, run for at least `t` frames, ends stopped
      at zero having fired exactly its schedule. */
  lemma {:induction false} SalvoRuns(t: int, n: nat)
    requires 0 < t <= n
    ensures Salvo(Gun(true, t), n) == (Gun(false, 0), Schedule(t))
    decreases t
  {
    if t == 1 {
      SalvoIdle(Gun(false, 0), n - 1);
    } else {
      SalvoRuns(t - 1, n - 1);
    }
  }

  /** The side of the shot fired at timer value `10 * j`. */
  function SideOfTen(j: int): Shot
  {
    if j % 2 == 0 then LeftShot else RightShot
  }

  /** `k` shots ten frames apart that end at timer value zero: the `i`-th
      is fired at timer value `10 * (k - 1 - i)`. */
  function Volley(k: nat): seq<Shot>
  {
    if k == 0 then [] else [SideOfTen(k - 1)] + Volley(k - 1)
  }

  /** A volley of `k` shots: the `i`-th from the side of timer value
      `10 * (k - 1 - i)`, never the same side twice in a row, the last
      from the left. */
  lemma {:induction false} VolleyShape(k: nat)
    ensures |Volley(k)| == k
    ensures forall i :: 0 <= i < k ==> Volley(k)[i] == SideOfTen(k - 1 - i)
    ensures forall i :: 0 <= i < k - 1 ==> Volley(k)[i] != Volley(k)[i + 1]
    ensures k > 0 ==> Volley(k)[k - 1] == LeftShot
  {
    if k > 0 {
      VolleyShape(k - 1);
      var v, rest := Volley(k), Volley(k - 1);
      assert v == [SideOfTen(k - 1)] + rest;
      forall i | 0 <= i < k
        ensures v[i] == SideOfTen(k - 1 - i)
      {
        if i > 0 {
          assert v[i] == rest[i - 1];
        }
      }
    }
  }

  /** Shots ten frames apart come from opposite sides. */
  lemma SidesAlternate(t: int)
    requires t % 10 == 0
    ensures SideAt(t) != SideAt(t - 10)
  {
    TenSide(t / 10);
    TenSide(t / 10 - 1);
  }

  /** The side of timer value `10 * j` alternates with the parity of `j`. */
  lemma TenSide(j: int)
    ensures SideAt(10 * j) == SideOfTen(j)
  {
    var h, r := j / 2, j % 2;
    assert j == 2 * h + r;
    DivTwenty(10 * j, h, 10 * r);
  }

  /** The schedule of `t` frames is the volley of one shot per ten frames,
      rounded up. */
  lemma {:induction false} ScheduleVolley(t: int)
    requires t >= 0
    ensures Schedule(t) == Volley((t + 9) / 10)
    decreases t
  {
    if t > 0 {
      ScheduleVolley(t - 1);
      TenStep(t);
      if (t - 1) % 10 == 0 {
        assert ShotAt(t - 1) == SideOfTen((t - 1) / 10) by {
          TenSide((t - 1) / 10);
        }
      }
    }
  }

  /** Division by ten across one step of the countdown. */
  lemma TenStep(t: int)
    requires t >= 1
    ensures (t - 1) % 10 == 0 ==>
      t - 1 == 10 * ((t - 1) / 10) && (t + 9) / 10 == (t + 8) / 10 + 1 && (t + 8) / 10 == (t - 1) / 10
    ensures (t - 1) % 10 != 0 ==> (t + 9) / 10 == (t + 8) / 10
  {
    var q, r := (t - 1) / 10, (t - 1) % 10;
    assert t - 1 == 10 * q + r && 0 <= r < 10;
    DivTen(t + 9, q + 1, r);
    if r == 0 {
      DivTen(t + 8, q, 9);
    } else {
      DivTen(t + 8, q + 1, r - 1);
    }
  }

  /** A gun with `t` frames left, run for at least `t` frames, ends stopped
      at zero after firing one shot per ten frames, rounded up, and the
      `i`-th shot comes from the side of timer value `10 * ((t - 1) / 10) - 10 * i`,
      so the sides alternate. */
  lemma SalvoSchedule(t: int, n: nat)
    requires 0 < t <= n
    ensures Salvo(Gun(true, t), n).0 == Gun(false, 0)
    ensures |Salvo(Gun(true, t), n).1| == (t + 9) / 10
    ensures forall i :: 0 <= i < |Salvo(Gun(true, t), n).1| ==>
      Salvo(Gun(true, t), n).1[i] == SideAt(10 * ((t - 1) / 10) - 10 * i)
  {
    var k := (t + 9) / 10;
    assert Salvo(Gun(true, t), n) == (Gun(false, 0), Volley(k)) by {
      SalvoRuns(t, n);
      ScheduleVolley(t);
    }
    DivTen(t + 9, (t - 1) / 10 + 1, (t - 1) % 10);
    VolleyShape(k);
    forall i | 0 <= i < k
      ensures Volley(k)[i] == SideAt(10 * ((t - 1) / 10) - 10 * i)
    {
      TenSide(k - 1 - i);
    }
  }

  /** Quotient and remainder by ten and by twenty are unique. */
  lemma DivTen(x: int, q: int, r: int)
    requires x == 10 * q + r && 0 <= r < 10
    ensures x / 10 == q && x % 10 == r
  {
  }

  lemma DivTwenty(x: int, q: int, r: int)
    requires x == 20 * q + r && 0 <= r < 20
    ensures x / 20 == q && x % 20 == r
  {
  }

  /** A gun started with a multiple of twenty frames fires one shot per ten
      frames, the first from the right and the last from the left, never
      the same side twice in a row, and ends stopped. */
  lemma BlastRun(t: int)
    requires t > 0 && t % 20 == 0
    ensures Salvo(Gun(true, t), t).0 == Gun(false, 0)
    ensures var shots := Salvo(Gun(true, t), t).1;
      |shots| == t / 10 && shots[0] == RightShot && shots[|shots| - 1] == LeftShot &&
      forall i :: 0 <= i < |shots| - 1 ==> shots[i] != shots[i + 1]
  {
    var m := t / 20;
    assert t / 10 == 2 * m && (t + 9) / 10 == 2 * m by {
      DivTwenty(t, m, 0);
      DivTen(t, 2 * m, 0);
      DivTen(t + 9, 2 * m, 9);
    }
    assert Salvo(Gun(true, t), t) == (Gun(false, 0), Volley(2 * m)) by {
      SalvoRuns(t, t);
      ScheduleVolley(t);
    }
    EvenVolley(m);
  }

  /** An even volley starts from the right and ends on the left. */
  lemma EvenVolley(m: nat)
    requires m > 0
    ensures var v := Volley(2 * m);
      |v| == 2 * m && v[0] == RightShot && v[2 * m - 1] == LeftShot &&
      forall i :: 0 <= i < 2 * m - 1 ==> v[i] != v[i + 1]
  {
    VolleyShape(2 * m);
  }

  /** The full blast power: 300 frames, 30 shots, first from the right and
      last from the left, never the same side twice in a row. */
  lemma FullBlastPower(t: int)
    requires t == BlastDuration
    ensures Salvo(Gun(true, t), t).0 == Gun(false, 0)
    ensures var shots := Salvo(Gun(true, t), t).1;
      |shots| == 30 && shots[0] == RightShot && shots[29] == LeftShot &&
      forall i :: 0 <= i < 29 ==> shots[i] != shots[i + 1]
  {
    BlastRun(t);
  }

  /** `paddle_state` and `paddle_state_timer`. */
  datatype SizePower = SizePower(size: PaddleSize, timer: int)

  /** One frame of the paddle-size timer: a changed paddle counts down and
      returns to normal when the count reaches zero. */
  function SizeTick(p: SizePower): SizePower
  {
    if p.size != Normal then
      var t := p.timer - 1;
      if t <= 0 then SizePower(Normal, t) else SizePower(p.size, t)
    else p
  }

  function SizeTicks(p: SizePower, n: nat): SizePower
    decreases n
  {
    if n == 0 then p else SizeTicks(SizeTick(p), n - 1)
  }

  /** A size power-up with `t` frames left keeps its size for the next
      `t - 1` frames and is back to normal on frame `t`, where it stays. */
  lemma {:induction false} SizeLasts(p: SizePower, n: nat)
    requires p.size != Normal && p.timer >= 1
    ensures n < p.timer ==> SizeTicks(p, n) == SizePower(p.size, p.timer - n)
    ensures n >= p.timer ==> SizeTicks(p, n).size == Normal
    decreases n
  {
    if n > 0 {
      if p.timer == 1 {
        NormalStays(SizeTick(p), n - 1);
      } else {
        SizeLasts(SizeTick(p), n - 1);
      }
    }
  }

  /** A normal paddle has no timer running. */
  lemma {:induction false} NormalStays(p: SizePower, n: nat)
    requires p.size == Normal
    ensures SizeTicks(p, n) == p
  {
    if n > 0 {
      NormalStays(p, n - 1);
    }
  }
}
