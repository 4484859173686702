/** The session around the frame loop (`main_controller`): the debug modes,
    the set-up of a new game, the level progression after each cleared
    board, and the records update when the game is decided. */
module Campaign {
  import opened Wrappers
  import opened Levels
  import opened Layout
  import opened Paddles
  import opened Powers
  import opened Timers
  import opened Scores
  import opened Physics
  import opened Debris
  import opened GameRules

  /** The debug argument: none, a start level `"level_1"` to `"level_5"`,
      the single-brick level, the countdown level, or any other non-empty
      value (which only turns the tutorial off). */
  datatype DebugMode = NoDebug | LevelDebug(n: int) | OneBlock | CountdownDebug | OtherDebug

  /** Lives in the two single-level debug modes. */
  const DebugLives: int := 1
  /** Seconds on the clock of the countdown debug level, and the default
      time limit of a countdown level. */
  const DebugCountdown: real := 10.0
  const DefaultTimeLimit: int := 60

  /** The frame state plus the controller's locals: the level, the last
      level, the debug mode and whether bricks use the square art. */
  datatype Session = Session(game: Game, level: int, maxLevels: int, mode: DebugMode, squareArt: bool)

  /** The two modes that play the single debug level 0. */
  predicate SingleLevel(mode: DebugMode)
  {
    mode == OneBlock || mode == CountdownDebug
  }

  /** The first level of the session. */
  function StartLevel(mode: DebugMode): (level: int)
    ensures SingleLevel(mode) ==> level == 0
    ensures mode.LevelDebug? && 1 <= mode.n <= 5 ==> level == mode.n
    ensures !SingleLevel(mode) && !(mode.LevelDebug? && 1 <= mode.n <= 5) ==> level == 1
  {
    if SingleLevel(mode) then 0
    else if mode.LevelDebug? && 1 <= mode.n <= 5 then mode.n
    else 1
  }

  /** The last level before the win. */
  function MaxLevels(mode: DebugMode): (m: int)
    ensures SingleLevel(mode) ==> m == 0
    ensures !SingleLevel(mode) ==> m == LevelCount()
  {
    if SingleLevel(mode) then 0 else LevelCount()
  }

  /** The level clock a level's settings ask for: a countdown of the
      level's time limit (60 seconds if none is given), or none. */
  function LevelClock(level: int): (t: Option<TimerState>)
    ensures LevelSettings(level).timer == StopwatchTimer <==> t == None
    ensures t.Some? ==>
      t.value == NewTimer(Countdown, LevelSettings(level).timeLimit.GetOr(DefaultTimeLimit) as real)
  {
    var st := LevelSettings(level);
    if st.timer == CountdownTimer then Some(NewTimer(Countdown, st.timeLimit.GetOr(DefaultTimeLimit) as real))
    else None
  }

  /** What a session's invariant adds to the frame invariant: the last
      level is the mode's, levels are not negative, and a won game has
      passed the last level (or cleared the single brick). */
  predicate SessionInv(s: Session)
  {
    Inv(s.game) && s.maxLevels == MaxLevels(s.mode) && 0 <= s.level &&
    (s.game.win == Some(true) ==> s.mode == OneBlock || s.level > s.maxLevels)
  }

  /** `main_controller` up to the loop. The score starts fresh, reads the
      records file and in the single-level modes has one life; the game
      clock is a paused stopwatch that never ran, the level clock follows
      the level's settings except in the countdown mode (10 seconds); no
      ball exists yet (the first frame puts one on the paddle); the
      tutorial runs only without a debug mode and when enabled. */
  function Setup(mode: DebugMode, tutorialEnabled: bool, records: seq<string>, squareArt: bool): (s: Session)
    ensures SessionInv(s) && s.mode == mode && s.squareArt == squareArt
    ensures s.level == StartLevel(mode) && s.maxLevels == MaxLevels(mode)
    ensures s.game.field.blocks == Placed(LevelLayout(s.level, mode == CountdownDebug), squareArt)
    ensures s.game.score.score == 0 && s.game.score.lives == (if SingleLevel(mode) then DebugLives else StartingLives)
    ensures s.game.gameTimer == NewTimer(Stopwatch, DefaultTimeLimit as real)
    ensures mode == CountdownDebug ==> s.game.levelTimer == Some(NewTimer(Countdown, DebugCountdown))
    ensures mode != CountdownDebug ==> s.game.levelTimer == LevelClock(s.level)
    ensures s.game.tutorial <==> mode == NoDebug && tutorialEnabled
    ensures s.game.balls == [] && s.game.win == None && !s.game.pauseRequested
    ensures !s.game.gun.active && s.game.paddle.size == Normal
  {
    var level := StartLevel(mode);
    var loaded := Loaded(Fresh, records);
    var score := if SingleLevel(mode) then loaded.(lives := DebugLives) else loaded;
    var levelTimer := if mode == CountdownDebug then Some(NewTimer(Countdown, DebugCountdown)) else LevelClock(level);
    var blocks := Placed(LevelLayout(level, mode == CountdownDebug), squareArt);
    var g := Game([], 0, None, Field(blocks, [], [], [], 0), [], RestingBar, Gun(false, 0),
                  SizePower(Normal, 0), score, NewTimer(Stopwatch, DefaultTimeLimit as real), levelTimer,
                  None, false, mode == NoDebug && tutorialEnabled, 0);
    Session(g, level, MaxLevels(mode), mode, squareArt)
  }

  /** The controller's reaction to a frame's status; `false` ends the loop.
      A cleared board wins the single-brick mode at once; otherwise the
      level advances and, past the last level, the game is won with both
      clocks stopped, or else the effects are reset and the next level's
      bricks and clock are set up. */
  function AfterFrame(s: Session, status: Status, now: real): (r: (Session, bool))
    requires SessionInv(s)
    ensures SessionInv(r.0) && r.0.mode == s.mode && r.0.squareArt == s.squareArt
    ensures r.1 <==> status == Continue || (status == LevelComplete && s.mode != OneBlock && s.level + 1 <= s.maxLevels)
    ensures status != LevelComplete ==> r.0 == s
    ensures status == LevelComplete && (s.mode == OneBlock || s.level + 1 > s.maxLevels) ==>
      r.0.game.win == Some(true) && r.0.game.gameTimer.paused && r.0.game.balls == s.game.balls
    ensures status == LevelComplete && r.1 ==>
      r.0.level == s.level + 1 &&
      r.0.game.field.blocks == Placed(LevelLayout(r.0.level, s.mode == CountdownDebug), s.squareArt) &&
      r.0.game.levelTimer == LevelClock(r.0.level) &&
      |r.0.game.balls| == 1 && AtRest(r.0.game.balls[0]) && r.0.game.field.coins == [] && r.0.game.blasts == []
    ensures r.0.game.score == s.game.score && r.0.level >= s.level
  {
    match status
    case LevelComplete =>
      if s.mode == OneBlock then
        (s.(game := PauseBoth(s.game, now).(win := Some(true))), false)
      else
        var level := s.level + 1;
        if level > s.maxLevels then
          (s.(game := PauseBoth(s.game, now).(win := Some(true)), level := level), false)
        else
          var g := Reset(s.game);
          var blocks := Placed(LevelLayout(level, s.mode == CountdownDebug), s.squareArt);
          (s.(game := g.(field := g.field.(blocks := blocks), levelTimer := LevelClock(level)), level := level), true)
    case Continue => (s, true)
    case _ => (s, false)
  }

  /** One turn of the controller loop: a frame, then the reaction to it. */
  function Step(s: Session, inp: Input, dice: Dice): (r: (Session, bool))
    requires SessionInv(s)
    ensures SessionInv(r.0) && r.0.mode == s.mode
    ensures r.0.game.score.score >= s.game.score.score
    ensures r.0.game.score.lives == s.game.score.lives || r.0.game.score.lives == s.game.score.lives - 1
    ensures r.0.level == s.level || r.0.level == s.level + 1
  {
    var (g, status) := Frame(s.game, inp, dice);
    AfterFrame(s.(game := g), status, inp.now)
  }

  /** The controller loop over the frames' inputs: it stops at the first
      frame that does not continue, or when the inputs run out (`true`:
      still running). */
  function Run(s: Session, inputs: seq<Input>, dice: Dice): (r: (Session, bool))
    requires SessionInv(s)
    ensures SessionInv(r.0) && r.0.mode == s.mode
    ensures r.0.game.score.score >= s.game.score.score && r.0.game.score.lives <= s.game.score.lives
    ensures s.level <= r.0.level <= s.level + |inputs|
    ensures inputs == [] ==> r == (s, true)
    ensures r.0.game.win == Some(true) && s.mode != OneBlock ==> r.0.level > r.0.maxLevels
    decreases |inputs|
  {
    if inputs == [] then (s, true)
    else
      var step := Step(s, inputs[0], dice);
      if step.1 then Run(step.0, inputs[1..], dice) else (step.0, false)
  }

  /** The controller loop takes one turn, then goes on unless it stopped. */
  lemma RunStep(s: Session, inputs: seq<Input>, dice: Dice)
    requires SessionInv(s) && inputs != []
    ensures var step := Step(s, inputs[0], dice);
      Run(s, inputs, dice) == if step.1 then Run(step.0, inputs[1..], dice) else (step.0, false)
  {
  }

  /** After the loop: a decided game saves the record with the game clock's
      reading, and hands back the entry the high-score file gets; a quit
      game saves nothing. */
  function Finished(s: Session, now: real, initials: Option<string>): (r: (ScoreState, Option<Entry>))
    requires SessionInv(s)
    ensures s.game.win == None ==> r == (s.game.score, None)
    ensures s.game.win.Some? ==>
      var time := Reading(s.game.gameTimer, now);
      r.0 == Saved(s.game.score, Some(time)) && r.1 == Some(SavedEntry(s.game.score, initials, Some(time)))
    ensures r.0.highScore >= s.game.score.highScore && r.0.score == s.game.score.score
  {
    if s.game.win.Some? then
      var time := Some(Reading(s.game.gameTimer, now));
      RecordMonotone(s.game.score.highScore, s.game.score.bestTime, s.game.score.score, time.GetOr(0.0));
      (Saved(s.game.score, time), Some(SavedEntry(s.game.score, initials, time)))
    else (s.game.score, None)
  }

  // ---------------------------------------------------------------- lemmas

  /** A normal game starts at level 1 of 5 with three lives, the level-1
      bricks and no level clock. */
  lemma NormalStart(tutorialEnabled: bool, records: seq<string>, squareArt: bool)
    ensures var s := Setup(NoDebug, tutorialEnabled, records, squareArt);
      s.level == 1 && s.maxLevels == 5 && s.game.score.lives == 3 && s.game.levelTimer == None &&
      s.game.field.blocks == Placed(Level1, squareArt)
  {
    var s := Setup(NoDebug, tutorialEnabled, records, squareArt);
    assert s.level == 1;
    TimerRules(1);
    assert LevelLayout(1, false) == Level1;
  }

  /** Level 5, the boss level, is the only level with a clock: 60 seconds. */
  lemma BossClock(level: int)
    requires 1 <= level <= 5
    ensures LevelClock(level).Some? <==> level == 5
    ensures level == 5 ==> LevelClock(level) == Some(NewTimer(Countdown, 60.0))
  {
    TimerRules(level);
  }

  /** In a normal game every cleared board below the last level leads to
      the next one, and the fifth cleared board wins. */
  lemma {:induction false} LevelProgression(s: Session, now: real)
    requires SessionInv(s) && !SingleLevel(s.mode) && 1 <= s.level <= 5
    ensures var (r, go) := AfterFrame(s, LevelComplete, now);
      (go <==> s.level < 5) &&
      (go ==> r.level == s.level + 1 && r.game.field.blocks == Placed(LevelPattern(s.level + 1), s.squareArt)) &&
      (!go ==> r.game.win == Some(true) && r.level == 6)
  {
  }

  /** The single-brick mode is won by clearing its one board, the countdown
      mode likewise, both from level 0. */
  lemma {:induction false} SingleLevelWins(s: Session, now: real)
    requires SessionInv(s) && SingleLevel(s.mode) && s.level == 0
    ensures var (r, go) := AfterFrame(s, LevelComplete, now);
      !go && r.game.win == Some(true)
  {
  }
}
