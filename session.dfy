/** The game session as the source keeps it: module globals and the lists
    `main_controller` owns, updated in place by the frame's phases. Every
    method is proved to leave exactly the state the corresponding phase
    function of the frame rules describes, so the properties proved there
    hold of this object. */
module Breakout {
  import opened Wrappers
  import opened Geometry
  import opened Bricks
  import opened Coins
  import opened PowerUps
  import opened Particles
  import opened Physics
  import opened Paddles
  import opened Powers
  import opened Timers
  import opened Scores
  import opened Layout
  import opened Debris
  import opened Sweeps
  import opened GameRules
  import opened Campaign

  /** The ball loop of `detect_collision`: each ball strikes the first
      brick its box overlaps, and every brick broken adds 50 points. */
  method StrikeAll(f0: Field, balls: seq<Ball>, dice: Dice) returns (f: Field, done: seq<Ball>, increase: int)
    ensures (f, done) == BallsStrike(f0, balls, dice)
    ensures increase == BrickPoints * (f.broken - f0.broken)
  {
    f, done, increase := f0, [], 0;
    var i := 0;
    while i < |balls|
      invariant 0 <= i <= |balls|
      invariant (f, done) == BallsStrike(f0, balls[..i], dice)
      invariant increase == BrickPoints * (f.broken - f0.broken)
    {
      assert balls[..i + 1][..i] == balls[..i];
      var b := balls[i];
      var box := BallRect(b);
      var k := CollideList(box, Rects(f.blocks));
      if k >= 0 {
        var brick := f.blocks[k].rect;
        var destroyed := f.blocks[k].hp <= 1;
        f := StrikeBlock(f, k, dice);
        b := Deflected(b, box, brick);
        if destroyed {
          increase := increase + BrickPoints;
        }
      }
      done := done + [b];
      i := i + 1;
    }
    assert balls[..i] == balls;
  }

  /** The blast loop: a blast overlapping a brick strikes the first such
      brick and is removed; every brick broken adds 50 points. */
  method BlastAll(f0: Field, blasts: seq<BlastState>, dice: Dice) returns (f: Field, kept: seq<BlastState>, increase: int)
    ensures (f, kept) == BlastsStrike(f0, blasts, dice)
    ensures increase == BrickPoints * (f.broken - f0.broken)
  {
    f, kept, increase := f0, [], 0;
    var i := 0;
    while i < |blasts|
      invariant 0 <= i <= |blasts|
      invariant (f, kept) == BlastsStrike(f0, blasts[..i], dice)
      invariant increase == BrickPoints * (f.broken - f0.broken)
    {
      assert blasts[..i + 1][..i] == blasts[..i];
      var blast := blasts[i];
      var k := CollideList(blast.rect, Rects(f.blocks));
      if k < 0 {
        kept := kept + [blast];
      } else {
        var destroyed := f.blocks[k].hp <= 1;
        f := StrikeBlock(f, k, dice);
        if destroyed {
          increase := increase + BrickPoints;
        }
        assert kept + [] == kept;
      }
      i := i + 1;
    }
    assert blasts[..i] == blasts;
  }

  /** The ball loop of `move_ball`: each ball moves in three sub-steps,
      meets the walls and then the paddle, and is dropped once below the
      screen; the paddle's last bounce is remembered. */
  method MoveAll(balls: seq<Ball>, rect: Rect, lastHit: Option<nat>) returns (kept: seq<Ball>, last: Option<nat>)
    requires rect.w != 0
    ensures (kept, last) == MovedAll(balls, rect, lastHit)
  {
    kept, last := [], lastHit;
    var i := 0;
    while i < |balls|
      invariant 0 <= i <= |balls|
      invariant kept == Kept(balls[..i], rect) && last == LastHit(balls[..i], rect, lastHit)
    {
      assert balls[..i + 1][..i] == balls[..i];
      var b := Advance(balls[i]);
      b := WallChecked(b);
      var (c, hit) := PaddleChecked(b, rect);
      assert (c, hit) == Physics.Moved(balls[i], rect);
      assert Kept(balls[..i + 1], rect) == kept + (if Lost(c) then [] else [c]);
      assert LastHit(balls[..i + 1], rect, lastHit) == (if hit then Some(c.id) else last);
      if hit {
        last := Some(c.id);
      }
      if !Lost(c) {
        kept := kept + [c];
      }
      i := i + 1;
    }
    assert balls[..i] == balls;
  }

  /** The event loop of `handle_input`: the action of the first event that
      is not plain steering. */
  method EventLoop(events: seq<Event>, tutorial: bool, atRest: bool, mouse: bool) returns (a: Action)
    ensures a == Decide(events, tutorial, atRest, mouse)
  {
    a := Steer;
    var i := 0;
    while i < |events| && a == Steer
      invariant 0 <= i <= |events|
      invariant a == Steer ==> Decide(events, tutorial, atRest, mouse) == Decide(events[i..], tutorial, atRest, mouse)
      invariant a != Steer ==> Decide(events, tutorial, atRest, mouse) == a
    {
      assert events[i..][0] == events[i] && events[i..][1..] == events[i + 1..];
      a := EventAction(events[i], tutorial, atRest, mouse);
      i := i + 1;
    }
  }

  /** `last_hit_ball in balls`: the position of the ball with identity
      `id`, or -1. */
  method FindId(balls: seq<Ball>, id: nat) returns (k: int)
    ensures k == IndexOfId(balls, id)
  {
    var i := 0;
    while i < |balls| && balls[i].id != id
      invariant 0 <= i <= |balls|
      invariant forall j :: 0 <= j < i ==> balls[j].id != id
    {
      i := i + 1;
    }
    k := if i < |balls| then i else -1;
  }

  /** The session object. The module globals and the lists the frame loop
      changes in place are held together as one frame-state record. */
  class GameSession {
    /** The globals of the frame loop. */
    var game: Game
    // the locals of `main_controller`
    var level: int
    var maxLevels: int
    var mode: DebugMode
    var squareArt: bool

    /** The whole session the object holds. */
    function Current(): Session
      reads this
    {
      Session(game, level, maxLevels, mode, squareArt)
    }

    /** `main_controller` up to its loop. */
    constructor (mode: DebugMode, tutorialEnabled: bool, records: seq<string>, squareArt: bool)
      ensures Current() == Setup(mode, tutorialEnabled, records, squareArt)
    {
      var level := StartLevel(mode);
      var board := new ScoreBoard(records);
      var loaded := board.State();
      var countdown := mode == CountdownDebug;
      var bricks := DefineBlocks(level, countdown, squareArt);
      var score := if SingleLevel(mode) then loaded.(lives := DebugLives) else loaded;
      var levelTimer := if countdown then Some(NewTimer(Countdown, DebugCountdown)) else LevelClock(level);
      game := Game([], 0, None, Field(bricks, [], [], [], 0), [], RestingBar, Gun(false, 0),
                   SizePower(Normal, 0), score, NewTimer(Stopwatch, DefaultTimeLimit as real), levelTimer,
                   None, false, mode == NoDebug && tutorialEnabled, 0);
      this.level, maxLevels, this.mode, this.squareArt := level, MaxLevels(mode), mode, squareArt;
    }

    // ------------------------------------------------------------- clocks

    /** Both clocks paused (`pause()` on each existing timer). */
    method PauseTimers(now: real)
      requires TimersValid(game)
      modifies this
      ensures Current() == old(Current()).(game := PauseBoth(old(game), now))
    {
      var levelTimer := game.levelTimer;
      if levelTimer.Some? {
        levelTimer := Some(Paused(levelTimer.value, now));
      }
      game := game.(gameTimer := Paused(game.gameTimer, now), levelTimer := levelTimer);
    }

    method ResumeTimers(now: real)
      requires TimersValid(game)
      modifies this
      ensures Current() == old(Current()).(game := ResumeBoth(old(game), now))
    {
      var levelTimer := game.levelTimer;
      if levelTimer.Some? {
        levelTimer := Some(Resumed(levelTimer.value, now));
      }
      game := game.(gameTimer := Resumed(game.gameTimer, now), levelTimer := levelTimer);
    }

    method UpdateTimers(now: real)
      requires TimersValid(game)
      modifies this
      ensures Current() == old(Current()).(game := UpdateBoth(old(game), now))
    {
      var levelTimer := game.levelTimer;
      if levelTimer.Some? {
        levelTimer := Some(Updated(levelTimer.value, now));
      }
      game := game.(gameTimer := Updated(game.gameTimer, now), levelTimer := levelTimer);
    }

    /** The launch starts a clock that never ran and resumes a paused one. */
    method LaunchClocks(now: real)
      requires TimersValid(game)
      modifies this
      ensures Current() == old(Current()).(game := LaunchTimers(old(game), now))
    {
      var levelTimer := game.levelTimer;
      if levelTimer.Some? {
        levelTimer := Some(StartOrResume(levelTimer.value, now));
      }
      game := game.(gameTimer := StartOrResume(game.gameTimer, now), levelTimer := levelTimer);
    }

    // ------------------------------------------------- paddle, reset, input

    /** `draw_bar`, returning the frame's paddle rectangle. */
    method DrawBar() returns (rect: Rect)
      requires WidthInRange(game.bar)
      modifies this
      ensures Current() == old(Current()).(game := Drawn(old(game)).0)
      ensures rect == Drawn(old(game)).1
    {
      SmoothingStaysInRange(game.bar, game.paddle.size);
      game := game.(bar := Smoothed(game.bar, game.paddle.size));
      rect := BarRect(game.bar);
    }

    /** `reset_all_effects`. */
    method ResetAllEffects()
      modifies this
      ensures Current() == old(Current()).(game := Reset(old(game)))
    {
      var g := game;
      game := g.(gun := Gun(false, 0), paddle := SizePower(Normal, 0), lastHit := None, bar := RestingBar,
                 balls := [RestingBall(g.nextId)], nextId := g.nextId + 1, blasts := [],
                 field := g.field.(coins := [], powerups := [], particles := []));
    }

    /** `handle_input`: the event loop stops at the first event that quits,
        pauses or launches; if none does, the keys and the mouse move the
        paddle. */
    method HandleInput(rect: Rect, inp: Input) returns (go: bool)
      requires Inv(game) && |game.balls| > 0 && rect.w > 0
      modifies this
      ensures Current() == old(Current()).(game := Handled(old(game), rect, inp).0)
      ensures go == Handled(old(game), rect, inp).1
    {
      var g := game;
      var b := g.balls[0];
      var a := EventLoop(inp.events, g.tutorial, AtRest(b), inp.mouse);
      HandledCases(g, rect, inp);
      go := true;
      match a
      case QuitGame =>
        go := false;
      case PauseGame =>
        game := g.(pauseRequested := true);
      case TutorialLaunch =>
        game := g.(tutorial := false, balls := g.balls[0 := b.(vx := XAngle(rect, b), vy := -5.0)]);
        LaunchClocks(inp.now);
        assert game == TutorialLaunched(g, rect, inp.now);
      case Launch =>
        var cx := rect.CenterX() as real;
        var b1 := if AbsR(b.x - cx) < 3.0 then b.(x := cx) else b;
        var vx := XAngle(rect, b1);
        game := g.(balls := g.balls[0 := b1.(vx := if AbsR(vx) < 0.5 then 0.0 else vx, vy := -6.0)]);
        LaunchClocks(inp.now);
        assert game == Launched(g, rect, inp.now);
      case Steer =>
        game := g.(bar := g.bar.(x := Steered(g, inp)));
    }

    // ------------------------------------------------- bricks and actors

    /** `detect_collision`: every ball in turn strikes the first brick it
        overlaps; 50 points per brick broken. */
    method DetectCollision(dice: Dice)
      requires Inv(game)
      modifies this
      ensures Current() == old(Current()).(game := Collided(old(game), dice))
    {
      var f, done, increase := StrikeAll(game.field, game.balls, dice);
      game := game.(field := f, balls := done, score := Scored(game.score, increase));
    }

    /** The on-screen tutorial's clock. */
    method AdvanceTutorial(dt: int)
      modifies this
      ensures Current() == old(Current()).(game := Tutored(old(game), dt))
    {
      if game.tutorial {
        var t := game.tutorialTimer + dt;
        game := game.(tutorialTimer := t);
        if t >= TutorialLength {
          game := game.(tutorial := false);
        }
      }
    }

    /** The particle loop: update, then remove the dead. */
    method UpdateParticles()
      modifies this
      ensures Current() == old(Current()).(game := Aged(old(game)))
    {
      var ps := Sweep(game.field.particles, Particles.Moved, Dead);
      game := game.(field := game.field.(particles := ps));
    }

    /** The coin loop: update, then remove those below the screen. */
    method UpdateCoins()
      modifies this
      ensures Current() == old(Current()).(game := Fell(old(game)))
    {
      var cs := Sweep(game.field.coins, Fallen, OffScreen);
      game := game.(field := game.field.(coins := cs));
    }

    /** The coins the paddle catches: 50 points each. */
    method CatchCoins(rect: Rect)
      modifies this
      ensures Current() == old(Current()).(game := CoinsCaught(old(game), rect))
    {
      var cs, count := Remove(game.field.coins, CatchTest(rect));
      game := game.(field := game.field.(coins := cs), score := Scored(game.score, CoinPoints * count));
    }

    /** The pick-up loop: update, then remove those below the screen. */
    method UpdatePowerUps()
      modifies this
      ensures Current() == old(Current()).(game := Drift(old(game)))
    {
      var pus := Sweep(game.field.powerups, Dropped, PowerUpOffScreen);
      game := game.(field := game.field.(powerups := pus));
    }

    /** `spawn_triple_ball`, with the search for the last ball the paddle
        hit. */
    method SpawnTripleBall()
      modifies this
      ensures Current() == old(Current()).(game := Tripled(old(game)))
    {
      var g := game;
      if g.balls == [] {
        return;
      }
      var k := -1;
      if g.lastHit.Some? {
        k := FindId(g.balls, g.lastHit.value);
      }
      var base := if k >= 0 then g.balls[k] else g.balls[0];
      assert base == TripleBase(g.balls, g.lastHit);
      TripledBalls(g);
      var v := AbsR(if base.vx != 0.0 then base.vx else 3.0);
      game := g.(balls := g.balls + [Ball(g.nextId, base.x - 25.0, base.y, -v, -5.0),
                                     Ball(g.nextId + 1, base.x + 25.0, base.y, v, -5.0)],
                 nextId := g.nextId + 2);
      assert game == Tripled(g);
    }

    /** The effect of one caught pick-up. */
    method ApplyPower(kind: PowerKind)
      modifies this
      ensures Current() == old(Current()).(game := Apply(old(game), kind))
    {
      match kind
      case Blast =>
        game := game.(gun := Gun(true, BlastDuration));
      case SmallPaddle =>
        game := game.(paddle := SizePower(Small, PaddlePowerDuration));
      case TripleBall =>
        SpawnTripleBall();
      case BigPaddle =>
        game := game.(paddle := SizePower(Big, PaddlePowerDuration));
      case _ =>
    }

    /** The collection loop: every pick-up the paddle overlaps is removed
        and applied, in order. */
    method CollectPowerUps(rect: Rect)
      modifies this
      ensures Current() == old(Current()).(game := PickedUp(old(game), rect))
    {
      var s0 := Current();
      var pus := game.field.powerups;
      game := game.(field := game.field.(powerups := []));
      var i := 0;
      while i < |pus|
        invariant 0 <= i <= |pus|
        invariant Current() == s0.(game := Collect(s0.game, pus[..i], rect))
      {
        assert pus[..i + 1][..i] == pus[..i];
        if Collide(rect, pus[i].rect) {
          ApplyPower(pus[i].kind);
        } else {
          game := game.(field := game.field.(powerups := game.field.powerups + [pus[i]]));
        }
        i := i + 1;
      }
      assert pus[..i] == pus;
    }

    /** The blast power's frame: the gun ticks and its shot is added. */
    method FireBlasts(rect: Rect)
      modifies this
      ensures Current() == old(Current()).(game := Autofire(old(game), rect))
    {
      var (gun, shot) := GunTick(game.gun);
      game := game.(gun := gun, blasts := Fired(game.blasts, shot, rect));
    }

    /** The paddle-size power's frame. */
    method TickPaddlePower()
      modifies this
      ensures Current() == old(Current()).(game := SizeTicked(old(game)))
    {
      var p := game.paddle;
      if p.size != Normal {
        var t := p.timer - 1;
        game := game.(paddle := if t <= 0 then SizePower(Normal, t) else SizePower(p.size, t));
      }
    }

    /** The blast loop: update, then remove those above the field. */
    method UpdateBlasts()
      modifies this
      ensures Current() == old(Current()).(game := BlastsFly(old(game)))
    {
      var bs := Sweep(game.blasts, Risen, BlastOffScreen);
      game := game.(blasts := bs);
    }

    /** Blasts against the bricks: each blast strikes the first brick it
        overlaps and is used up; 50 points per brick broken. */
    method BlastHits(dice: Dice)
      modifies this
      ensures Current() == old(Current()).(game := BlastsHit(old(game), dice))
    {
      var f, kept, increase := BlastAll(game.field, game.blasts, dice);
      game := game.(field := f, blasts := kept, score := Scored(game.score, increase));
    }

    // ------------------------------------------------- balls and lives

    /** `move_ball`: nothing moves while the first ball rests; otherwise
        every ball moves and the lost ones are dropped. */
    method MoveBall(rect: Rect) returns (alive: bool)
      requires Inv(game) && |game.balls| > 0 && rect.w > 0
      modifies this
      ensures Current() == old(Current()).(game := GameRules.MoveBall(old(game), rect).0)
      ensures alive == GameRules.MoveBall(old(game), rect).1
    {
      if AtRest(game.balls[0]) {
        return true;
      }
      var kept, last := MoveAll(game.balls, rect, game.lastHit);
      game := game.(balls := kept, lastHit := last);
      alive := |kept| > 0;
    }

    /** `update_scoreboard`: a life goes and the clocks stop; `false` when
        it was the last. */
    method UpdateScoreboard(now: real) returns (more: bool)
      requires Inv(game)
      modifies this
      ensures Current() == old(Current()).(game := LostBall(old(game), now).0)
      ensures more == LostBall(old(game), now).1
    {
      game := game.(score := LifeLost(game.score));
      PauseTimers(now);
      if game.score.lives > 0 {
        game := game.(lastHit := None);
        ResetAllEffects();
        return true;
      }
      PauseTimers(now);
      game := game.(win := Some(false));
      return false;
    }

    // ------------------------------------------------------ the frame

    /** Drawing the paddle, the respawn when no ball is left, and input. */
    method Open(inp: Input) returns (rect: Rect, go: bool)
      requires Inv(game)
      modifies this
      ensures Current() == old(Current()).(game := Opening(old(game), inp).0)
      ensures rect == Opening(old(game), inp).1 && go == Opening(old(game), inp).2
    {
      rect := DrawBar();
      if game.balls == [] {
        ResetAllEffects();
      }
      go := HandleInput(rect, inp);
    }

    /** The middle of `game_loop`: bricks, tutorial, particles, coins,
        pick-ups, the two powers and the blasts. */
    method Play(rect: Rect, inp: Input, dice: Dice)
      requires Inv(game) && |game.balls| > 0
      modifies this
      ensures Current() == old(Current()).(game := Middle(old(game), rect, inp, dice))
    {
      DetectCollision(dice);
      AdvanceTutorial(inp.dt);
      UpdateParticles();
      UpdateCoins();
      CatchCoins(rect);
      UpdatePowerUps();
      CollectPowerUps(rect);
      FireBlasts(rect);
      TickPaddlePower();
      UpdateBlasts();
      BlastHits(dice);
    }

    /** The end of `game_loop`: the level-complete check, the balls and
        lives, then the clocks. */
    method Close(rect: Rect, inp: Input) returns (status: Status)
      requires Inv(game) && |game.balls| > 0 && rect.w > 0
      modifies this
      ensures Current() == old(Current()).(game := Closing(old(game), rect, inp).0)
      ensures status == Closing(old(game), rect, inp).1
    {
      if game.field.blocks == [] {
        PauseTimers(inp.now);
        return LevelComplete;
      }
      var alive := MoveBall(rect);
      if !alive {
        var more := UpdateScoreboard(inp.now);
        if !more {
          return GameOver;
        }
      }
      status := CheckClocks(inp);
    }

    /** The end of a frame still in play: the countdown expiry, the pause
        menu and the clock updates. */
    method CheckClocks(inp: Input) returns (status: Status)
      requires Inv(game)
      modifies this
      ensures Current() == old(Current()).(game := Clocked(old(game), inp).0)
      ensures status == Clocked(old(game), inp).1
    {
      var now := inp.now;
      if game.levelTimer.Some? && Reading(game.levelTimer.value, now) <= 0.0 {
        PauseTimers(now);
        game := game.(win := Some(false));
        return GameOver;
      }
      if game.pauseRequested {
        PauseTimers(now);
        UpdateTimers(now);
        game := game.(pauseRequested := false);
        if !inp.resume {
          return Quit;
        }
        ResumeTimers(now);
      }
      UpdateTimers(now);
      status := Continue;
    }

    /** `game_loop`: one frame, and its status. */
    method GameLoop(inp: Input, dice: Dice) returns (status: Status)
      requires Inv(game)
      modifies this
      ensures Current() == old(Current()).(game := Frame(old(game), inp, dice).0)
      ensures status == Frame(old(game), inp, dice).1
    {
      var rect, go := Open(inp);
      if !go {
        return Quit;
      }
      Play(rect, inp, dice);
      status := Close(rect, inp);
    }

    // ------------------------------------------------------ the session

    /** The controller's reaction to a frame's status. */
    method AfterStatus(status: Status, now: real) returns (go: bool)
      requires SessionInv(Current())
      modifies this
      ensures (Current(), go) == AfterFrame(old(Current()), status, now)
    {
      match status
      case LevelComplete =>
        if mode == OneBlock {
          PauseTimers(now);
          game := game.(win := Some(true));
          return false;
        }
        level := level + 1;
        if level > maxLevels {
          PauseTimers(now);
          game := game.(win := Some(true));
          return false;
        }
        ResetAllEffects();
        var bricks := DefineBlocks(level, mode == CountdownDebug, squareArt);
        game := game.(field := game.field.(blocks := bricks), levelTimer := LevelClock(level));
        go := true;
      case Continue =>
        go := true;
      case _ =>
        go := false;
    }

    /** One turn of the controller loop: a frame, then the reaction to its
        status. */
    method Turn(inp: Input, dice: Dice) returns (running: bool)
      requires SessionInv(Current())
      modifies this
      ensures (Current(), running) == Step(old(Current()), inp, dice)
    {
      var status := GameLoop(inp, dice);
      running := AfterStatus(status, inp.now);
    }

    /** `main_controller`'s loop over the frames' inputs; `true` when it is
        still running after the last one. */
    method MainController(inputs: seq<Input>, dice: Dice) returns (running: bool)
      requires SessionInv(Current())
      modifies this
      ensures (Current(), running) == Run(old(Current()), inputs, dice)
    {
      var s0 := Current();
      running := true;
      var i := 0;
      while i < |inputs| && running
        invariant 0 <= i <= |inputs|
        invariant SessionInv(Current())
        invariant Run(s0, inputs, dice) == if running then Run(Current(), inputs[i..], dice) else (Current(), false)
      {
        assert inputs[i..][0] == inputs[i] && inputs[i..][1..] == inputs[i + 1..];
        RunStep(Current(), inputs[i..], dice);
        running := Turn(inputs[i], dice);
        i := i + 1;
      }
    }

    /** After the loop: a decided game records the score and the game
        clock's reading, and returns the high-score entry to append. */
    method SaveHighScore(now: real, initials: Option<string>) returns (entry: Option<Entry>)
      requires SessionInv(Current())
      modifies this
      ensures Current() == old(Current()).(game := old(game).(score := Finished(old(Current()), now, initials).0))
      ensures entry == Finished(old(Current()), now, initials).1
    {
      ghost var r := Finished(Current(), now, initials);
      entry := None;
      if game.win.Some? {
        var time := Some(Reading(game.gameTimer, now));
        assert r == (Saved(game.score, time), Some(SavedEntry(game.score, initials, time)));
        entry := Some(SavedEntry(game.score, initials, time));
        game := game.(score := Saved(game.score, time));
      }
      assert game.score == r.0 && entry == r.1;
    }
  }
}
