/** One frame of the main game, phase by phase, as pure functions over the
    state the game keeps in module globals and in the lists `main_controller`
    hands to `game_loop`. The wall-clock reading `now`, the previous frame's
    duration, the keys held, the events of the frame, the pause menu's answer
    and the random draws are all inputs. */
module GameRules {
  import opened Wrappers
  import opened Geometry
  import opened Bricks
  import opened Coins
  import opened PowerUps
  import opened Particles
  import opened Physics
  import opened Paddles
  import opened Powers
  import opened Timers
  import opened Scores
  import opened Debris
  import opened Sweeps

  /** Where a new ball rests: the middle of the screen, four pixels above
      the paddle. */
  const BallStartX: real := (ScreenWidth / 2) as real
  const BallStartY: real := (BarY - BallRadius - 4) as real
  /** Milliseconds the on-screen tutorial lasts. */
  const TutorialLength: int := 7500
  const CoinPoints: int := 50

  /** The frame-loop state: the balls, the next fresh ball identity and the
      ball the paddle hit last, the bricks and falling things, the blasts in
      flight, the paddle, the two power-up timers, the scoreboard, the two
      level clocks, the outcome and the pause and tutorial flags. */
  datatype Game = Game(
    balls: seq<Ball>,
    nextId: nat,
    lastHit: Option<nat>,
    field: Field,
    blasts: seq<BlastState>,
    bar: Bar,
    gun: Gun,
    paddle: SizePower,
    score: ScoreState,
    gameTimer: TimerState,
    levelTimer: Option<TimerState>,
    win: Option<bool>,
    pauseRequested: bool,
    tutorial: bool,
    tutorialTimer: int)

  /** What `game_loop` returns. */
  datatype Status = Continue | Quit | LevelComplete | GameOver

  predicate TimersValid(g: Game)
  {
    Valid(g.gameTimer) && (g.levelTimer.Some? ==> Valid(g.levelTimer.value))
  }

  /** Every ball was given an identity before `nextId`. */
  predicate IdsBelow(balls: seq<Ball>, next: nat)
  {
    forall i :: 0 <= i < |balls| ==> balls[i].id < next
  }

  /** What every frame keeps: running clocks know their start, the paddle
      width is between the small and the big width, and ball identities are
      fresh below `nextId`. */
  predicate Inv(g: Game)
  {
    TimersValid(g) && WidthInRange(g.bar) && IdsBelow(g.balls, g.nextId)
  }

  // ---------------------------------------------------------------- clocks

  /** Both clocks paused, as at a life loss, a level end, the countdown
      expiry and the pause menu. */
  function PauseBoth(g: Game, now: real): (r: Game)
    requires TimersValid(g)
    ensures TimersValid(r) && r.gameTimer.paused
    ensures r.levelTimer.Some? <==> g.levelTimer.Some?
    ensures r.levelTimer.Some? ==> r.levelTimer.value.paused
    ensures r.gameTimer.startTime == g.gameTimer.startTime
    ensures r == g.(gameTimer := r.gameTimer, levelTimer := r.levelTimer)
  {
    g.(gameTimer := Paused(g.gameTimer, now),
       levelTimer := if g.levelTimer.Some? then Some(Paused(g.levelTimer.value, now)) else None)
  }

  /** Both clocks resumed, after the pause menu. */
  function ResumeBoth(g: Game, now: real): (r: Game)
    requires TimersValid(g)
    ensures TimersValid(r) && !r.gameTimer.paused
    ensures r.levelTimer.Some? <==> g.levelTimer.Some?
    ensures r.levelTimer.Some? ==> !r.levelTimer.value.paused
    ensures r == g.(gameTimer := r.gameTimer, levelTimer := r.levelTimer)
  {
    g.(gameTimer := Resumed(g.gameTimer, now),
       levelTimer := if g.levelTimer.Some? then Some(Resumed(g.levelTimer.value, now)) else None)
  }

  /** The launch rule for a clock: start it if it never ran, else resume it. */
  function StartOrResume(t: TimerState, now: real): (t': TimerState)
    requires Valid(t)
    ensures Valid(t') && !t'.paused && t'.startTime.Some?
    ensures t.startTime == None ==> t'.startTime == Some(now)
    ensures !t.paused ==> t' == t
    ensures t'.elapsed == t.elapsed && t'.mode == t.mode
  {
    if t.startTime == None then Started(t, now) else Resumed(t, now)
  }

  /** Both clocks set running by a launch. */
  function LaunchTimers(g: Game, now: real): (r: Game)
    requires TimersValid(g)
    ensures TimersValid(r) && !r.gameTimer.paused
    ensures r.levelTimer.Some? <==> g.levelTimer.Some?
    ensures r.levelTimer.Some? ==> !r.levelTimer.value.paused
    ensures r == g.(gameTimer := r.gameTimer, levelTimer := r.levelTimer)
  {
    g.(gameTimer := StartOrResume(g.gameTimer, now),
       levelTimer := if g.levelTimer.Some? then Some(StartOrResume(g.levelTimer.value, now)) else None)
  }

  /** `update()` on both clocks: an expired running countdown stops. */
  function UpdateBoth(g: Game, now: real): (r: Game)
    requires TimersValid(g)
    ensures TimersValid(r)
    ensures r.levelTimer.Some? <==> g.levelTimer.Some?
    ensures g.gameTimer.mode == Stopwatch ==> r.gameTimer == g.gameTimer
    ensures r == g.(gameTimer := r.gameTimer, levelTimer := r.levelTimer)
  {
    g.(gameTimer := Updated(g.gameTimer, now),
       levelTimer := if g.levelTimer.Some? then Some(Updated(g.levelTimer.value, now)) else None)
  }

  // ------------------------------------------------------- paddle and reset

  /** `draw_bar`: the width takes a smoothing step toward the size power's
      target and the frame's paddle rectangle is built from the result. */
  function Drawn(g: Game): (r: (Game, Rect))
    requires WidthInRange(g.bar)
    ensures WidthInRange(r.0.bar) && r.1 == BarRect(r.0.bar) && r.1.w >= SmallWidth
    ensures r.0 == g.(bar := r.0.bar)
    ensures r.0.bar.x + r.0.bar.width / 2.0 == g.bar.x + g.bar.width / 2.0
  {
    SmoothingStaysInRange(g.bar, g.paddle.size);
    var bar := Smoothed(g.bar, g.paddle.size);
    (g.(bar := bar), BarRect(bar))
  }

  /** The ball a reset puts on the paddle. */
  function RestingBall(id: nat): (b: Ball)
    ensures AtRest(b) && b.id == id
  {
    Ball(id, BallStartX, BallStartY, 0.0, 0.0)
  }

  /** `reset_all_effects`: powers off, paddle centred at normal width, one
      new resting ball, and nothing falling or flying. The bricks, the score,
      the clocks and the tutorial are kept. */
  function Reset(g: Game): (r: Game)
    ensures TimersValid(g) ==> Inv(r)
    ensures |r.balls| == 1 && AtRest(r.balls[0]) && r.balls[0].x == BallStartX && r.balls[0].y == BallStartY
    ensures forall i :: 0 <= i < |g.balls| ==> g.balls[i].id < g.nextId ==> r.balls[0].id != g.balls[i].id
    ensures r.lastHit == None && r.bar == RestingBar && !r.gun.active && r.paddle.size == Normal
    ensures r.blasts == [] && r.field.coins == [] && r.field.powerups == [] && r.field.particles == []
    ensures r.field.blocks == g.field.blocks && r.field.broken == g.field.broken && r.score == g.score
    ensures r.gameTimer == g.gameTimer && r.levelTimer == g.levelTimer
    ensures r.tutorial == g.tutorial && r.win == g.win && r.pauseRequested == g.pauseRequested
  {
    g.(balls := [RestingBall(g.nextId)], nextId := g.nextId + 1, lastHit := None,
       field := g.field.(particles := [], coins := [], powerups := []),
       blasts := [], bar := RestingBar, gun := Gun(false, 0), paddle := SizePower(Normal, 0))
  }

  // ------------------------------------------------------------------ input

  datatype Key = EscapeKey | SpaceKey | OtherKey
  datatype Event = QuitEvent | KeyDown(key: Key) | MouseDown(button: int) | OtherEvent

  /** What `handle_input` does for the frame: the first event that returns
      decides it, and with no such event the paddle moves. */
  datatype Action = Steer | QuitGame | PauseGame | TutorialLaunch | Launch

  /** The frame's input: the queued events, the arrow (or A/D) keys held,
      whether the mouse is enabled and where it is, the previous frame's
      length in milliseconds, the clock, and the pause menu's answer. */
  datatype Input = Input(
    events: seq<Event>, left: bool, right: bool,
    mouse: bool, mouseX: int, dt: int, now: real, resume: bool)

  /** The action one event triggers; `Steer` means the loop goes on. The
      escape key always pauses; space or a left click ends the tutorial with
      a launch, or else launches a resting ball; anything else is ignored. */
  function EventAction(e: Event, tutorial: bool, atRest: bool, mouse: bool): (a: Action)
    ensures a == QuitGame <==> e == QuitEvent
    ensures a == PauseGame <==> e == KeyDown(EscapeKey)
    ensures a == TutorialLaunch <==> tutorial && (e == KeyDown(SpaceKey) || (mouse && e == MouseDown(1)))
    ensures a == Launch <==> !tutorial && atRest && (e == KeyDown(SpaceKey) || (mouse && e == MouseDown(1)))
  {
    match e
    case QuitEvent => QuitGame
    case KeyDown(k) =>
      if k == EscapeKey then PauseGame
      else if k == SpaceKey && tutorial then TutorialLaunch
      else if k == SpaceKey && atRest then Launch
      else Steer
    case MouseDown(button) =>
      if mouse && button == 1 && tutorial then TutorialLaunch
      else if mouse && button == 1 && atRest then Launch
      else Steer
    case OtherEvent => Steer
  }

  /** The event loop: the first event whose action is not `Steer`. */
  function Decide(events: seq<Event>, tutorial: bool, atRest: bool, mouse: bool): (a: Action)
    ensures a == Steer <==> forall i :: 0 <= i < |events| ==> EventAction(events[i], tutorial, atRest, mouse) == Steer
    ensures a != Steer ==>
      exists i :: 0 <= i < |events| && a == EventAction(events[i], tutorial, atRest, mouse) &&
        forall j :: 0 <= j < i ==> EventAction(events[j], tutorial, atRest, mouse) == Steer
  {
    if events == [] then Steer
    else
      var a := EventAction(events[0], tutorial, atRest, mouse);
      if a != Steer then a
      else
        var rest := Decide(events[1..], tutorial, atRest, mouse);
        assert forall i :: 1 <= i < |events| ==> events[i] == events[1..][i - 1];
        rest
  }

  /** Where the mouse asks the paddle to go: the mouse less half the paddle,
      clamped like the keys before launch and against the wall padding
      itself after launch. */
  function MouseTarget(mouseX: int, width: int, atRest: bool, ballX: real): (t: int)
    ensures !atRest && width <= ScreenWidth - 2 * Paddles.WallPadding ==>
      Paddles.WallPadding <= t <= ScreenWidth - Paddles.WallPadding - width
    ensures !atRest && Paddles.WallPadding <= mouseX - width / 2 <= ScreenWidth - Paddles.WallPadding - width ==>
      t == mouseX - width / 2
  {
    var aim := mouseX - width / 2;
    if atRest then Max(Trunc(ballX - (width - 2 * BallRadius) as real), Min(aim, Trunc(ballX - (2 * BallRadius) as real)))
    else Max(Paddles.WallPadding, Min(aim, ScreenWidth - Paddles.WallPadding - width))
  }

  /** The most the mouse moves the paddle in a frame: 1/120 of the width
      the paddle can travel between the wall paddings. */
  function MouseStep(width: int): real
  {
    (ScreenWidth - Paddles.WallPadding * 2 - width) as real / 120.0
  }

  /** The smoothed mouse follow: the paddle moves toward the target by at
      most one step, never past it, and lands on it once within a step. */
  function MouseFollow(x: real, mouseX: int, width: int, atRest: bool, ballX: real): (x': real)
    ensures var t := MouseTarget(mouseX, width, atRest, ballX) as real;
      (x <= t ==> x' <= t) && (x >= t ==> x' >= t)
    ensures var t := MouseTarget(mouseX, width, atRest, ballX) as real;
      MouseStep(width) >= 0.0 ==>
        (x <= t ==> x <= x') && (x >= t ==> x' <= x) && AbsR(x' - x) <= MouseStep(width) &&
        (AbsR(t - x) <= MouseStep(width) ==> x' == t)
  {
    var target := MouseTarget(mouseX, width, atRest, ballX) as real;
    var step := MouseStep(width);
    if x < target then MinR(x + step, target)
    else if x > target then MaxR(x - step, target)
    else x
  }

  /** The keys' limits for the paddle: they depend on whether the first
      ball still rests. */
  function SteerLimits(g: Game): (real, real)
    requires |g.balls| > 0
  {
    var b := g.balls[0];
    if AtRest(b) then PreLaunchLimits(b.x, g.bar.width) else PostLaunchLimits(g.bar.width)
  }

  /** The paddle position after the keys and, if enabled, the mouse. With
      the keys alone a paddle inside its limits stays inside them and moves
      at most one step, and stays put when no key is held; with the mouse
      and no key the paddle heads for the mouse target without passing it. */
  function Steered(g: Game, inp: Input): (x': real)
    requires |g.balls| > 0
    ensures var lim := SteerLimits(g);
      !inp.mouse && lim.0 <= g.bar.x <= lim.1 ==>
        lim.0 <= x' <= lim.1 && AbsR(x' - g.bar.x) <= Paddles.Speed as real
    ensures !inp.mouse && !inp.left && !inp.right ==> x' == g.bar.x
    ensures inp.mouse && !inp.left && !inp.right ==>
      var t := MouseTarget(inp.mouseX, Trunc(g.bar.width), AtRest(g.balls[0]), g.balls[0].x) as real;
      (g.bar.x <= t ==> x' <= t) && (g.bar.x >= t ==> x' >= t)
  {
    var b := g.balls[0];
    var lim := SteerLimits(g);
    var x := KeyMove(g.bar.x, inp.left, inp.right, lim.0, lim.1);
    assert lim.0 <= g.bar.x <= lim.1 ==> lim.0 <= x <= lim.1 && AbsR(x - g.bar.x) <= Paddles.Speed as real by {
      if lim.0 <= g.bar.x <= lim.1 {
        KeyMoveClamped(g.bar.x, inp.left, inp.right, lim.0, lim.1);
      }
    }
    if inp.mouse then MouseFollow(x, inp.mouseX, Trunc(g.bar.width), AtRest(b), b.x) else x
  }

  /** `handle_input`: `false` asks the game to quit. A quit changes
      nothing, escape only requests the pause, a launch sets the first ball
      moving up and both clocks running, and otherwise only the paddle moves. */
  function Handled(g: Game, bar: Rect, inp: Input): (r: (Game, bool))
    requires Inv(g) && |g.balls| > 0 && bar.w > 0
    ensures Inv(r.0) && |r.0.balls| == |g.balls| && r.0.balls[1..] == g.balls[1..]
    ensures r.0.win == g.win && r.0.score == g.score && r.0.field == g.field
    ensures var a := Decide(inp.events, g.tutorial, AtRest(g.balls[0]), inp.mouse);
      (!r.1 <==> a == QuitGame) &&
      (a == QuitGame ==> r.0 == g) &&
      (a == PauseGame ==> r.0 == g.(pauseRequested := true)) &&
      (a == Steer ==> r.0 == g.(bar := r.0.bar) && r.0.bar == g.bar.(x := r.0.bar.x))
    ensures var a := Decide(inp.events, g.tutorial, AtRest(g.balls[0]), inp.mouse);
      a == TutorialLaunch ==>
        g.tutorial && !r.0.tutorial && r.0.balls[0].vy == -5.0 &&
        r.0.balls[0].vx == XAngle(bar, g.balls[0]) && !r.0.gameTimer.paused
    ensures var a := Decide(inp.events, g.tutorial, AtRest(g.balls[0]), inp.mouse);
      a == Launch ==>
        AtRest(g.balls[0]) && !g.tutorial && NormalLaunch(r.0.balls[0], g.balls[0], bar) &&
        (r.0.balls[0].vx == 0.0 || AbsR(r.0.balls[0].vx) >= 0.5) &&
        !r.0.gameTimer.paused && (r.0.levelTimer.Some? ==> !r.0.levelTimer.value.paused)
  {
    var b := g.balls[0];
    match Decide(inp.events, g.tutorial, AtRest(b), inp.mouse)
    case QuitGame => (g, false)
    case PauseGame => (g.(pauseRequested := true), true)
    case TutorialLaunch => (TutorialLaunched(g, bar, inp.now), true)
    case Launch => (Launched(g, bar, inp.now), true)
    case Steer => (g.(bar := g.bar.(x := Steered(g, inp))), true)
  }

  /** What `handle_input` does for each action the event loop settles on. */
  lemma HandledCases(g: Game, bar: Rect, inp: Input)
    requires Inv(g) && |g.balls| > 0 && bar.w > 0
    ensures var a := Decide(inp.events, g.tutorial, AtRest(g.balls[0]), inp.mouse);
      Handled(g, bar, inp) ==
        match a
        case QuitGame => (g, false)
        case PauseGame => (g.(pauseRequested := true), true)
        case TutorialLaunch => (TutorialLaunched(g, bar, inp.now), true)
        case Launch => (Launched(g, bar, inp.now), true)
        case Steer => (g.(bar := g.bar.(x := Steered(g, inp))), true)
  {
  }

  /** The tutorial's launch: the ball leaves at speed 5 up with the paddle
      angle, the tutorial ends and both clocks run. */
  function TutorialLaunched(g: Game, bar: Rect, now: real): (r: Game)
    requires Inv(g) && |g.balls| > 0 && bar.w > 0
    ensures Inv(r) && |r.balls| == |g.balls| && r.balls[1..] == g.balls[1..]
    ensures r.win == g.win && r.score == g.score && r.field == g.field && r.bar == g.bar
    ensures !r.tutorial && r.balls[0].vy == -5.0 && r.balls[0].vx == XAngle(bar, g.balls[0])
    ensures !r.gameTimer.paused && (r.levelTimer.Some? ==> !r.levelTimer.value.paused)
  {
    var b := g.balls[0];
    var b' := b.(vx := XAngle(bar, b), vy := -5.0);
    LaunchKeeps(g.(tutorial := false), b', now);
    LaunchTimers(g.(tutorial := false, balls := g.balls[0 := b']), now)
  }

  /** Ball `c` is ball `b` after the normal launch: a ball within 3 pixels
      of the paddle's centre is first put on it, then it leaves at speed 6
      up with the paddle angle of its new place, flattened to straight up
      below 0.5. */
  predicate NormalLaunch(c: Ball, b: Ball, bar: Rect)
    requires bar.w != 0
  {
    var cx := bar.CenterX() as real;
    var v := XAngle(bar, c);
    c.id == b.id && c.y == b.y && c.vy == -6.0 &&
    c.x == (if AbsR(b.x - cx) < 3.0 then cx else b.x) &&
    c.vx == (if AbsR(v) < 0.5 then 0.0 else v)
  }

  /** After the normal launch the ball goes straight up when it started
      within 3 pixels of the centre, otherwise leans to its side of the
      centre, and never drifts sideways slower than 0.5. */
  lemma LaunchDirection(c: Ball, b: Ball, bar: Rect)
    requires bar.w > 0 && NormalLaunch(c, b, bar)
    ensures AbsR(b.x - bar.CenterX() as real) < 3.0 ==> c.vx == 0.0
    ensures c.vx > 0.0 ==> b.x > bar.CenterX() as real
    ensures c.vx < 0.0 ==> b.x < bar.CenterX() as real
    ensures c.vx == 0.0 || AbsR(c.vx) >= 0.5
  {
    XAngleFacts(bar, c);
  }

  /** The normal launch from rest: the first ball is launched as
      `NormalLaunch` says and both clocks run. */
  function Launched(g: Game, bar: Rect, now: real): (r: Game)
    requires Inv(g) && |g.balls| > 0 && bar.w > 0
    ensures Inv(r) && |r.balls| == |g.balls| && r.balls[1..] == g.balls[1..]
    ensures r.win == g.win && r.score == g.score && r.field == g.field && r.bar == g.bar
    ensures r.tutorial == g.tutorial && NormalLaunch(r.balls[0], g.balls[0], bar)
    ensures r.balls[0].vx == 0.0 || AbsR(r.balls[0].vx) >= 0.5
    ensures !r.gameTimer.paused && (r.levelTimer.Some? ==> !r.levelTimer.value.paused)
  {
    var b := g.balls[0];
    var cx := bar.CenterX() as real;
    var b1 := if AbsR(b.x - cx) < 3.0 then b.(x := cx) else b;
    var vx := XAngle(bar, b1);
    var b' := b1.(vx := if AbsR(vx) < 0.5 then 0.0 else vx, vy := -6.0);
    assert NormalLaunch(b', b, bar) by {
      assert b'.x == b1.x && b'.y == b.y && b'.id == b.id;
      SameAngle(bar, b1, b');
      assert b'.vx == (if AbsR(vx) < 0.5 then 0.0 else vx);
    }
    LaunchDirection(b', b, bar);
    LaunchKeeps(g, b', now);
    LaunchTimers(g.(balls := g.balls[0 := b']), now)
  }

  /** The paddle angle depends on the ball's position only. */
  lemma SameAngle(bar: Rect, b: Ball, c: Ball)
    requires bar.w != 0 && b.x == c.x
    ensures XAngle(bar, b) == XAngle(bar, c)
  {
  }

  /** A launch replaces the first ball by one with the same identity and
      starts the clocks; the invariant and everything else is kept. */
  lemma LaunchKeeps(g: Game, b: Ball, now: real)
    requires Inv(g) && |g.balls| > 0 && b.id == g.balls[0].id
    ensures var r := LaunchTimers(g.(balls := g.balls[0 := b]), now);
      Inv(r) && |r.balls| == |g.balls| && r.balls[0] == b && r.balls[1..] == g.balls[1..] &&
      r.win == g.win && r.score == g.score && r.field == g.field && r.bar == g.bar &&
      r.tutorial == g.tutorial && !r.gameTimer.paused && (r.levelTimer.Some? ==> !r.levelTimer.value.paused)
  {
    var g1 := g.(balls := g.balls[0 := b]);
    assert g1.balls[1..] == g.balls[1..];
    assert IdsBelow(g1.balls, g1.nextId) by {
      forall i | 0 <= i < |g1.balls| ensures g1.balls[i].id < g1.nextId {
        assert g1.balls[i].id == g.balls[i].id;
      }
    }
  }

  // ------------------------------------------------------ bricks and actors

  /** `detect_collision`: 50 points per brick broken, and every brick that
      disappears was broken by one of the balls. */
  function Collided(g: Game, dice: Dice): (r: Game)
    requires Inv(g)
    ensures Inv(r) && |r.balls| == |g.balls|
    ensures |r.field.blocks| <= |g.field.blocks| <= |r.field.blocks| + |g.balls|
    ensures r.score == g.score.(score := g.score.score + BrickPoints * (|g.field.blocks| - |r.field.blocks|))
    ensures |r.field.blocks| + r.field.broken == |g.field.blocks| + g.field.broken
    ensures r.blasts == g.blasts && r.bar == g.bar && r.gun == g.gun && r.paddle == g.paddle
  {
    BallsStrikeKeepsBalls(g.field, g.balls, dice);
    BallsStrikeCounts(g.field, g.balls, dice);
    var (f, bs) := BallsStrike(g.field, g.balls, dice);
    g.(field := f, balls := bs, score := Scored(g.score, BrickPoints * (f.broken - g.field.broken)))
  }

  /** The tutorial clock adds the last frame's length and the tutorial ends
      once it reaches the full length. */
  function Tutored(g: Game, dt: int): (r: Game)
    ensures !g.tutorial ==> r == g
    ensures g.tutorial ==>
      r.tutorialTimer == g.tutorialTimer + dt && (r.tutorial <==> r.tutorialTimer < TutorialLength)
    ensures r == g.(tutorial := r.tutorial, tutorialTimer := r.tutorialTimer)
  {
    if g.tutorial then
      var t := g.tutorialTimer + dt;
      g.(tutorialTimer := t, tutorial := t < TutorialLength)
    else g
  }

  /** Particles move, and exactly the dead ones are removed: every moved
      particle that is not dead stays, none left is dead, and each one left
      is a moved particle of the list. */
  function Aged(g: Game): (r: Game)
    ensures |r.field.particles| <= |g.field.particles|
    ensures forall i :: 0 <= i < |r.field.particles| ==> !Dead(r.field.particles[i])
    ensures forall j :: 0 <= j < |r.field.particles| ==>
      exists i :: 0 <= i < |g.field.particles| && r.field.particles[j] == Particles.Moved(g.field.particles[i])
    ensures forall i :: 0 <= i < |g.field.particles| && !Dead(Particles.Moved(g.field.particles[i])) ==>
      Particles.Moved(g.field.particles[i]) in r.field.particles
    ensures r == g.(field := g.field.(particles := r.field.particles))
  {
    SweptFacts(g.field.particles, Particles.Moved, Dead);
    g.(field := g.field.(particles := Swept(g.field.particles, Particles.Moved, Dead)))
  }

  /** Coins fall, and exactly those below the screen are removed: every
      fallen coin still on screen stays, and each one left is a fallen coin
      of the list. */
  function Fell(g: Game): (r: Game)
    ensures |r.field.coins| <= |g.field.coins|
    ensures forall i :: 0 <= i < |r.field.coins| ==> !OffScreen(r.field.coins[i])
    ensures forall j :: 0 <= j < |r.field.coins| ==>
      exists i :: 0 <= i < |g.field.coins| && r.field.coins[j] == Fallen(g.field.coins[i])
    ensures forall i :: 0 <= i < |g.field.coins| && !OffScreen(Fallen(g.field.coins[i])) ==>
      Fallen(g.field.coins[i]) in r.field.coins
    ensures r == g.(field := g.field.(coins := r.field.coins))
  {
    SweptFacts(g.field.coins, Fallen, OffScreen);
    g.(field := g.field.(coins := Swept(g.field.coins, Fallen, OffScreen)))
  }

  /** A coin is caught when its bottom has reached the paddle's top and it
      overlaps the paddle. */
  function CatchTest(bar: Rect): CoinState -> bool
  {
    (c: CoinState) => c.rect.Bottom() >= bar.Top() && Collide(c.rect, bar)
  }

  /** Caught coins leave the list and score 50 each; no coin left touches
      the paddle from above. */
  function CoinsCaught(g: Game, bar: Rect): (r: Game)
    ensures |r.field.coins| <= |g.field.coins|
    ensures r.score == g.score.(score := g.score.score + CoinPoints * (|g.field.coins| - |r.field.coins|))
    ensures forall i :: 0 <= i < |r.field.coins| ==>
      r.field.coins[i] in g.field.coins && !CatchTest(bar)(r.field.coins[i])
    ensures r == g.(field := g.field.(coins := r.field.coins), score := r.score)
  {
    var test := CatchTest(bar);
    RemainingFacts(g.field.coins, test);
    g.(field := g.field.(coins := Remaining(g.field.coins, test)),
       score := Scored(g.score, CoinPoints * Taken(g.field.coins, test)))
  }

  /** Pick-ups fall, and exactly those below the screen are removed: every
      fallen pick-up still on screen stays, and each one left is a fallen
      pick-up of the list. */
  function Drift(g: Game): (r: Game)
    ensures |r.field.powerups| <= |g.field.powerups|
    ensures forall i :: 0 <= i < |r.field.powerups| ==> !PowerUpOffScreen(r.field.powerups[i])
    ensures forall j :: 0 <= j < |r.field.powerups| ==>
      exists i :: 0 <= i < |g.field.powerups| && r.field.powerups[j] == Dropped(g.field.powerups[i])
    ensures forall i :: 0 <= i < |g.field.powerups| && !PowerUpOffScreen(Dropped(g.field.powerups[i])) ==>
      Dropped(g.field.powerups[i]) in r.field.powerups
    ensures r == g.(field := g.field.(powerups := r.field.powerups))
  {
    SweptFacts(g.field.powerups, Dropped, PowerUpOffScreen);
    g.(field := g.field.(powerups := Swept(g.field.powerups, Dropped, PowerUpOffScreen)))
  }

  /** Index of the ball with identity `id`, or -1. */
  function IndexOfId(balls: seq<Ball>, id: nat): (k: int)
    ensures -1 <= k < |balls|
    ensures k >= 0 ==> balls[k].id == id && forall i :: 0 <= i < k ==> balls[i].id != id
    ensures k < 0 ==> forall i :: 0 <= i < |balls| ==> balls[i].id != id
  {
    if balls == [] then -1
    else if balls[0].id == id then 0
    else
      var k := IndexOfId(balls[1..], id);
      assert forall i :: 1 <= i < |balls| ==> balls[i] == balls[1..][i - 1];
      if k < 0 then -1 else k + 1
  }

  /** The ball the triple spawns from: the last one the paddle hit if it is
      still in play, else the first. */
  function TripleBase(balls: seq<Ball>, lastHit: Option<nat>): (b: Ball)
    requires |balls| > 0
    ensures b in balls
    ensures (lastHit.None? || forall i :: 0 <= i < |balls| ==> balls[i].id != lastHit.value) ==> b == balls[0]
    ensures lastHit.Some? && (exists i :: 0 <= i < |balls| && balls[i].id == lastHit.value) ==> b.id == lastHit.value
  {
    var k := if lastHit.Some? then IndexOfId(balls, lastHit.value) else -1;
    if k >= 0 then balls[k] else balls[0]
  }

  /** `spawn_triple_ball`: nothing without a ball; otherwise exactly two new
      balls, 25 pixels either side of the base, moving up at 5 and outward at
      the base's horizontal speed (3 if it has none), after the untouched
      existing balls. */
  function Tripled(g: Game): (r: Game)
    ensures g.balls == [] ==> r == g
    ensures g.balls != [] ==>
      var base := TripleBase(g.balls, g.lastHit);
      var n := |g.balls|;
      var v := if base.vx != 0.0 then AbsR(base.vx) else 3.0;
      |r.balls| == n + 2 && r.balls[..n] == g.balls && r.nextId == g.nextId + 2 &&
      r.balls[n] == Ball(g.nextId, base.x - 25.0, base.y, -v, -5.0) &&
      r.balls[n + 1] == Ball(g.nextId + 1, base.x + 25.0, base.y, v, -5.0) && v > 0.0
    ensures IdsBelow(g.balls, g.nextId) ==> IdsBelow(r.balls, r.nextId)
    ensures r == g.(balls := r.balls, nextId := r.nextId)
  {
    if g.balls == [] then g
    else
      var base := TripleBase(g.balls, g.lastHit);
      var v := AbsR(if base.vx != 0.0 then base.vx else 3.0);
      var r := g.(balls := g.balls + [Ball(g.nextId, base.x - 25.0, base.y, -v, -5.0),
                                      Ball(g.nextId + 1, base.x + 25.0, base.y, v, -5.0)],
                  nextId := g.nextId + 2);
      assert r.balls[..|g.balls|] == g.balls;
      r
  }

  /** `Tripled` on a game with balls, spelled out. */
  lemma TripledBalls(g: Game)
    requires g.balls != []
    ensures var base := TripleBase(g.balls, g.lastHit);
      var v := AbsR(if base.vx != 0.0 then base.vx else 3.0);
      Tripled(g) == g.(balls := g.balls + [Ball(g.nextId, base.x - 25.0, base.y, -v, -5.0),
                                           Ball(g.nextId + 1, base.x + 25.0, base.y, v, -5.0)],
                       nextId := g.nextId + 2)
  {
  }

  /** The effect of a caught pick-up. The blast gun and the paddle size are
      independent; the small and big paddle share one state, so the later one
      wins; kinds the drop table never produces do nothing. */
  function Apply(g: Game, kind: PowerKind): (r: Game)
    ensures kind == Blast ==> r == g.(gun := Gun(true, BlastDuration))
    ensures kind == SmallPaddle ==> r == g.(paddle := SizePower(Small, PaddlePowerDuration))
    ensures kind == BigPaddle ==> r == g.(paddle := SizePower(Big, PaddlePowerDuration))
    ensures kind == TripleBall ==> r == Tripled(g)
    ensures kind !in {Blast, SmallPaddle, TripleBall, BigPaddle} ==> r == g
  {
    match kind
    case Blast => g.(gun := Gun(true, BlastDuration))
    case SmallPaddle => g.(paddle := SizePower(Small, PaddlePowerDuration))
    case TripleBall => Tripled(g)
    case BigPaddle => g.(paddle := SizePower(Big, PaddlePowerDuration))
    case _ => g
  }

  /** A pick-up is collected when the paddle overlaps it. */
  function GrabTest(bar: Rect): PowerUpState -> bool
  {
    (p: PowerUpState) => Collide(bar, p.rect)
  }

  /** The pick-ups of `pus` the paddle overlaps are applied in order and
      removed; the others stay, in order. */
  function Collect(g: Game, pus: seq<PowerUpState>, bar: Rect): (r: Game)
  {
    if pus == [] then g.(field := g.field.(powerups := []))
    else
      var n := |pus| - 1;
      var g1 := Collect(g, pus[..n], bar);
      if Collide(bar, pus[n].rect) then Apply(g1, pus[n].kind)
      else g1.(field := g1.field.(powerups := g1.field.powerups + [pus[n]]))
  }

  /** The collection loop over the pick-ups in play. */
  function PickedUp(g: Game, bar: Rect): (r: Game)
  {
    Collect(g, g.field.powerups, bar)
  }

  /** The blast a shot adds, from the paddle's left or right end. */
  function Fired(blasts: seq<BlastState>, shot: Shot, bar: Rect): (r: seq<BlastState>)
    ensures shot == NoShot ==> r == blasts
    ensures shot != NoShot ==> |r| == |blasts| + 1 && r[..|blasts|] == blasts && r[|blasts|].y == bar.Top() - 20
    ensures shot == LeftShot ==> r[|blasts|].x == bar.Left() + 2
    ensures shot == RightShot ==> r[|blasts|].x == bar.Right() - 22
  {
    match shot
    case NoShot => blasts
    case LeftShot => blasts + [NewBlast(bar.Left() + 2, bar.Top() - 20)]
    case RightShot => blasts + [NewBlast(bar.Right() - 22, bar.Top() - 20)]
  }

  /** The blast power's frame: the gun ticks and its shot, if any, joins the
      blasts. */
  function Autofire(g: Game, bar: Rect): (r: Game)
    ensures r == g.(gun := r.gun, blasts := r.blasts)
    ensures !(g.gun.active && g.gun.timer > 0) ==> r == g
    ensures g.gun.active && g.gun.timer > 0 ==>
      r.gun.timer == g.gun.timer - 1 && (r.gun.active <==> r.gun.timer > 0)
    ensures |g.blasts| <= |r.blasts| <= |g.blasts| + 1 && r.blasts[..|g.blasts|] == g.blasts
    ensures |r.blasts| == |g.blasts| + 1 <==> g.gun.active && g.gun.timer > 0 && (g.gun.timer - 1) % 10 == 0
  {
    var (gun, shot) := GunTick(g.gun);
    g.(gun := gun, blasts := Fired(g.blasts, shot, bar))
  }

  /** The paddle-size power's frame. */
  function SizeTicked(g: Game): (r: Game)
    ensures r == g.(paddle := r.paddle)
    ensures g.paddle.size == Normal ==> r == g
    ensures g.paddle.size != Normal ==>
      r.paddle.timer == g.paddle.timer - 1 && (r.paddle.size == Normal <==> r.paddle.timer <= 0) &&
      (r.paddle.size != Normal ==> r.paddle.size == g.paddle.size)
  {
    g.(paddle := SizeTick(g.paddle))
  }

  /** Blasts rise, and exactly those above the play field are removed:
      every risen blast still in the field stays, and each one left is a
      risen blast of the list. */
  function BlastsFly(g: Game): (r: Game)
    ensures |r.blasts| <= |g.blasts|
    ensures forall i :: 0 <= i < |r.blasts| ==> !BlastOffScreen(r.blasts[i])
    ensures forall j :: 0 <= j < |r.blasts| ==>
      exists i :: 0 <= i < |g.blasts| && r.blasts[j] == Risen(g.blasts[i])
    ensures forall i :: 0 <= i < |g.blasts| && !BlastOffScreen(Risen(g.blasts[i])) ==>
      Risen(g.blasts[i]) in r.blasts
    ensures r == g.(blasts := r.blasts)
  {
    SweptFacts(g.blasts, Risen, BlastOffScreen);
    g.(blasts := Swept(g.blasts, Risen, BlastOffScreen))
  }

  /** Blasts against the bricks: 50 points per brick broken, and each brick
      that disappears used up one blast. */
  function BlastsHit(g: Game, dice: Dice): (r: Game)
    ensures |r.blasts| <= |g.blasts|
    ensures |r.field.blocks| <= |g.field.blocks| && |g.field.blocks| - |r.field.blocks| <= |g.blasts| - |r.blasts|
    ensures r.score == g.score.(score := g.score.score + BrickPoints * (|g.field.blocks| - |r.field.blocks|))
    ensures |r.field.blocks| + r.field.broken == |g.field.blocks| + g.field.broken
    ensures r == g.(field := r.field, blasts := r.blasts, score := r.score)
  {
    BlastsStrikeCounts(g.field, g.blasts, dice);
    var (f, kept) := BlastsStrike(g.field, g.blasts, dice);
    g.(field := f, blasts := kept, score := Scored(g.score, BrickPoints * (f.broken - g.field.broken)))
  }

  // ------------------------------------------------------- balls and lives

  /** The balls `move_ball` keeps keep their ids below the next id, none is
      lost, and some is kept exactly when some moved ball is still on
      screen. */
  lemma MovedBalls(balls: seq<Ball>, bar: Rect, lastHit: Option<nat>, next: nat)
    requires IdsBelow(balls, next) && bar.w > 0
    ensures var kept := MovedAll(balls, bar, lastHit).0;
      IdsBelow(kept, next) && |kept| <= |balls| &&
      (forall i :: 0 <= i < |kept| ==> !Lost(kept[i])) &&
      (|kept| > 0 <==> exists i :: 0 <= i < |balls| && !Lost(Physics.Moved(balls[i], bar).0))
  {
    var kept := Physics.Kept(balls, bar);
    assert MovedAll(balls, bar, lastHit).0 == kept;
    Physics.KeptFrom(balls, bar);
    assert IdsBelow(kept, next) by {
      forall j | 0 <= j < |kept|
        ensures kept[j].id < next
      {
        var i :| 0 <= i < |balls| && kept[j] == Physics.Moved(balls[i], bar).0;
        Physics.MovedId(balls[i], bar);
      }
    }
    assert |kept| > 0 ==> exists i :: 0 <= i < |balls| && !Lost(Physics.Moved(balls[i], bar).0) by {
      if |kept| > 0 {
        var i :| 0 <= i < |balls| && kept[0] == Physics.Moved(balls[i], bar).0;
      }
    }
    Physics.KeptAll(balls, bar);
  }

  /** `move_ball`: nothing moves while the first ball rests; otherwise every
      ball moves, the lost ones are dropped, `last_hit_ball` follows the
      paddle, and the flag is false exactly when every moved ball fell. */
  function MoveBall(g: Game, bar: Rect): (r: (Game, bool))
    requires Inv(g) && |g.balls| > 0 && bar.w > 0
    ensures Inv(r.0)
    ensures AtRest(g.balls[0]) ==> r == (g, true)
    ensures !AtRest(g.balls[0]) ==>
      r.0 == g.(balls := r.0.balls, lastHit := r.0.lastHit) &&
      (r.1 <==> |r.0.balls| > 0) && |r.0.balls| <= |g.balls| &&
      forall i :: 0 <= i < |r.0.balls| ==> !Lost(r.0.balls[i])
    ensures !AtRest(g.balls[0]) ==>
      (r.0.balls, r.0.lastHit) == MovedAll(g.balls, bar, g.lastHit) &&
      (r.1 <==> exists i :: 0 <= i < |g.balls| && !Lost(Physics.Moved(g.balls[i], bar).0))
  {
    if AtRest(g.balls[0]) then (g, true)
    else
      MovedBalls(g.balls, bar, g.lastHit, g.nextId);
      var (kept, last) := MovedAll(g.balls, bar, g.lastHit);
      (g.(balls := kept, lastHit := last), |kept| > 0)
  }

  /** `update_scoreboard` after the last ball is lost: a life goes and both
      clocks stop. With lives left, play goes on from exactly one resting
      ball, nothing falling or flying, both powers off and the paddle reset;
      otherwise the game is lost. */
  function LostBall(g: Game, now: real): (r: (Game, bool))
    requires Inv(g)
    ensures Inv(r.0)
    ensures r.0.score == g.score.(lives := g.score.lives - 1)
    ensures r.0.gameTimer.paused && (r.0.levelTimer.Some? ==> r.0.levelTimer.value.paused)
    ensures r.0.field.blocks == g.field.blocks && r.0.field.broken == g.field.broken
    ensures r.1 <==> g.score.lives > 1
    ensures r.1 ==>
      r.0.balls == [RestingBall(g.nextId)] && r.0.balls[0].x == BallStartX && r.0.balls[0].y == BallStartY &&
      r.0.blasts == [] && r.0.field.coins == [] && r.0.field.powerups == [] && r.0.field.particles == [] &&
      r.0.paddle.size == Normal && !r.0.gun.active && r.0.lastHit == None && r.0.bar == RestingBar &&
      r.0.win == g.win
    ensures !r.1 ==> r.0.win == Some(false) && r.0.balls == g.balls
  {
    var g1 := PauseBoth(g.(score := LifeLost(g.score)), now);
    if g1.score.lives > 0 then (Reset(g1.(lastHit := None)), true)
    else (PauseBoth(g1, now).(win := Some(false)), false)
  }

  /** A level countdown exists and reads zero. */
  predicate CountdownOver(g: Game, now: real)
    requires TimersValid(g)
  {
    g.levelTimer.Some? && Reading(g.levelTimer.value, now) <= 0.0
  }

  // ------------------------------------------------------------- the frame

  /** Drawing the paddle, the respawn when no ball is left, and input. */
  function Opening(g: Game, inp: Input): (r: (Game, Rect, bool))
    requires Inv(g)
    ensures Inv(r.0) && r.1.w >= SmallWidth && |r.0.balls| > 0
    ensures r.0.score == g.score && r.0.field.blocks == g.field.blocks && r.0.field.broken == g.field.broken
    ensures r.0.win == g.win
  {
    var (g1, bar) := Drawn(g);
    var g2 := if g1.balls == [] then Reset(g1) else g1;
    var (g3, go) := Handled(g2, bar, inp);
    (g3, bar, go)
  }

  /** Brick hits, the tutorial clock, particles, coins, pick-ups, the two
      power timers and the blasts. Points only come from bricks and coins,
      and every brick that disappears was broken. */
  function Middle(g: Game, bar: Rect, inp: Input, dice: Dice): (r: Game)
    requires Inv(g) && |g.balls| > 0
    ensures Inv(r) && |r.balls| > 0
    ensures r.score.score >= g.score.score + BrickPoints * (|g.field.blocks| - |r.field.blocks|)
    ensures |r.field.blocks| <= |g.field.blocks|
    ensures |r.field.blocks| + r.field.broken == |g.field.blocks| + g.field.broken
    ensures r.score.lives == g.score.lives && r.win == g.win
  {
    var g1 := Collided(g, dice);
    var g2 := Aged(Tutored(g1, inp.dt));
    var g3 := CoinsCaught(Fell(g2), bar);
    CollectKeepsBalls(Drift(g3), Drift(g3).field.powerups, bar);
    var g4 := PickedUp(Drift(g3), bar);
    var g5 := SizeTicked(Autofire(g4, bar));
    BlastsHit(BlastsFly(g5), dice)
  }

  /** Ball movement, and the life lost when no ball is left: `false` when
      that was the last life. */
  function Survived(g: Game, bar: Rect, now: real): (r: (Game, bool))
    requires Inv(g) && |g.balls| > 0 && bar.w > 0
    ensures Inv(r.0) && (r.1 ==> |r.0.balls| > 0)
    ensures !r.1 ==> r.0.win == Some(false) && r.0.gameTimer.paused
    ensures r.0.field.blocks == g.field.blocks && r.0.field.broken == g.field.broken
    ensures r.0.score.score == g.score.score && r.0.pauseRequested == g.pauseRequested
    ensures r.0.score.lives == g.score.lives || r.0.score.lives == g.score.lives - 1
    ensures r.1 ==> r.0.win == g.win
  {
    var (g1, alive) := MoveBall(g, bar);
    if alive then (g1, true) else LostBall(g1, now)
  }

  /** The end of a frame still in play: the countdown expiry loses the game,
      a requested pause stops both clocks until the menu answers, and the
      clocks are updated. */
  function Clocked(g: Game, inp: Input): (r: (Game, Status))
    requires Inv(g)
    ensures Inv(r.0) && r.1 != LevelComplete
    ensures r.0.balls == g.balls && r.0.field == g.field && r.0.score == g.score
    ensures r.1 == GameOver <==> CountdownOver(g, inp.now)
    ensures r.1 == GameOver ==> r.0.win == Some(false) && r.0.gameTimer.paused
    ensures r.1 == Quit <==> !CountdownOver(g, inp.now) && g.pauseRequested && !inp.resume
    ensures r.1 == Continue ==> !r.0.pauseRequested
    ensures r.1 != GameOver ==> r.0.win == g.win
  {
    var now := inp.now;
    if CountdownOver(g, now) then (PauseBoth(g, now).(win := Some(false)), GameOver)
    else if g.pauseRequested then
      var g1 := UpdateBoth(PauseBoth(g, now), now).(pauseRequested := false);
      if !inp.resume then (g1, Quit)
      else (UpdateBoth(ResumeBoth(g1, now), now), Continue)
    else (UpdateBoth(g, now), Continue)
  }

  /** The level-complete check, ball movement and lives, then the clocks.
      The level is complete exactly when no brick is left; the game is lost
      by the last life or by the countdown; play goes on with a ball in
      play. */
  function Closing(g: Game, bar: Rect, inp: Input): (r: (Game, Status))
    requires Inv(g) && |g.balls| > 0 && bar.w > 0
    ensures Inv(r.0)
    ensures r.1 == LevelComplete <==> g.field.blocks == []
    ensures r.1 == LevelComplete ==> r.0.gameTimer.paused && r.0.balls == g.balls
    ensures r.1 == GameOver ==> r.0.win == Some(false) && r.0.gameTimer.paused
    ensures r.1 == Continue ==> |r.0.balls| > 0 && !r.0.pauseRequested
    ensures r.1 == Quit ==> g.pauseRequested && !inp.resume
    ensures r.0.field.blocks == g.field.blocks && r.0.field.broken == g.field.broken
    ensures r.0.score.score == g.score.score
    ensures r.0.score.lives == g.score.lives || r.0.score.lives == g.score.lives - 1
    ensures r.1 != GameOver ==> r.0.win == g.win
  {
    if g.field.blocks == [] then (PauseBoth(g, inp.now), LevelComplete)
    else
      var (g1, more) := Survived(g, bar, inp.now);
      if !more then (g1, GameOver) else Clocked(g1, inp)
  }

  /** `game_loop`: one frame and its status. The invariant holds after it,
      the score never drops and rises by 50 for every brick that
      disappeared, at most one life is lost, and the status reports a
      cleared board, a lost game, a quit or the frame going on. */
  function Frame(g: Game, inp: Input, dice: Dice): (r: (Game, Status))
    requires Inv(g)
    ensures Inv(r.0)
    ensures r.0.score.score >= g.score.score + BrickPoints * (|g.field.blocks| - |r.0.field.blocks|)
    ensures |r.0.field.blocks| <= |g.field.blocks|
    ensures |r.0.field.blocks| + r.0.field.broken == |g.field.blocks| + g.field.broken
    ensures r.0.score.lives == g.score.lives || r.0.score.lives == g.score.lives - 1
    ensures r.1 == LevelComplete ==> r.0.field.blocks == [] && r.0.gameTimer.paused
    ensures r.1 == GameOver ==> r.0.win == Some(false)
    ensures r.1 == Continue ==> r.0.field.blocks != [] && |r.0.balls| > 0 && !r.0.pauseRequested
    ensures r.1 != GameOver ==> r.0.win == g.win
  {
    var (g1, bar, go) := Opening(g, inp);
    if !go then (g1, Quit)
    else Closing(Middle(g1, bar, inp, dice), bar, inp)
  }

  // ---------------------------------------------------------------- lemmas

  /** The collection loop: the pick-ups left are exactly those the paddle
      does not overlap, in order; balls are only appended, with fresh
      identities; score, bricks, blasts, paddle position and clocks are
      untouched. */
  lemma {:induction false} CollectKeepsBalls(g: Game, pus: seq<PowerUpState>, bar: Rect)
    requires Inv(g)
    ensures var r := Collect(g, pus, bar);
      Inv(r) && |r.balls| >= |g.balls| && r.balls[..|g.balls|] == g.balls && r.nextId >= g.nextId
    ensures var r := Collect(g, pus, bar);
      r.field.powerups == Remaining(pus, GrabTest(bar)) &&
      r.score == g.score && r.field.blocks == g.field.blocks && r.field.broken == g.field.broken &&
      r.gameTimer == g.gameTimer && r.levelTimer == g.levelTimer && r.bar == g.bar && r.blasts == g.blasts &&
      r.win == g.win
  {
    if pus != [] {
      var n := |pus| - 1;
      CollectKeepsBalls(g, pus[..n], bar);
      var g1 := Collect(g, pus[..n], bar);
      var r := Collect(g, pus, bar);
      if Collide(bar, pus[n].rect) {
        ApplyKeeps(g1, pus[n].kind);
        assert r == Apply(g1, pus[n].kind);
        assert r.balls[..|g.balls|] == r.balls[..|g1.balls|][..|g.balls|];
      } else {
        assert r == g1.(field := g1.field.(powerups := g1.field.powerups + [pus[n]]));
      }
    }
  }

  /** A pick-up's effect keeps the invariant, only appends balls, and
      leaves the field, score, clocks, paddle position and blasts alone. */
  lemma ApplyKeeps(g: Game, kind: PowerKind)
    requires Inv(g)
    ensures var r := Apply(g, kind);
      Inv(r) && |r.balls| >= |g.balls| && r.balls[..|g.balls|] == g.balls && r.nextId >= g.nextId &&
      r.field == g.field && r.score == g.score && r.gameTimer == g.gameTimer && r.levelTimer == g.levelTimer &&
      r.bar == g.bar && r.blasts == g.blasts && r.win == g.win
  {
    if kind == TripleBall && g.balls != [] {
      var r := Tripled(g);
      assert r.balls[..|g.balls|] == g.balls;
    }
  }

  /** The two timed powers are independent: the blast gun changes only if a
      blast pick-up was caught, the paddle size only if a small or big one
      was. */
  lemma {:induction false} CollectPowers(g: Game, pus: seq<PowerUpState>, bar: Rect)
    ensures (forall i :: 0 <= i < |pus| && Collide(bar, pus[i].rect) ==> pus[i].kind != Blast) ==>
      Collect(g, pus, bar).gun == g.gun
    ensures (forall i :: 0 <= i < |pus| && Collide(bar, pus[i].rect) ==>
        pus[i].kind != SmallPaddle && pus[i].kind != BigPaddle) ==>
      Collect(g, pus, bar).paddle == g.paddle
  {
    if pus != [] {
      var n := |pus| - 1;
      CollectPowers(g, pus[..n], bar);
      assert forall i :: 0 <= i < n ==> pus[..n][i] == pus[i];
    }
  }
}
