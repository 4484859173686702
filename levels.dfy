/** Brick layouts and per-level timer rules, with the clamped lookups the
    game uses. A cell is empty, a bare brick type (colour chosen by row) or a
    (type, colour index) pair. */
module Levels {
  import opened Wrappers

  datatype Cell = Empty | Plain(kind: int) | Styled(kind: int, color: int)

  /** Short names that keep the tables readable: `E` is the empty cell `0`,
      `S(t, c)` the pair `(t, c)`. */
  const E: Cell := Empty
  function S(kind: int, color: int): Cell { Styled(kind, color) }

  const Level1: seq<seq<Cell>> := [
    [S(1, 0), S(1, 0), S(1, 0), S(1, 0), S(1, 0), S(1, 0), S(1, 0), S(1, 0), S(1, 0), S(1, 0), S(1, 0), S(1, 0), S(1, 0), S(1, 0), S(1, 0), S(1, 0)],
    [S(1, 1), S(1, 1), S(1, 1), S(1, 1), S(1, 1), S(1, 1), S(1, 1), S(1, 1), S(1, 1), S(1, 1), S(1, 1), S(1, 1), S(1, 1), S(1, 1), S(1, 1), S(1, 1)],
    [S(1, 2), S(1, 2), S(1, 2), S(1, 2), S(1, 2), S(1, 2), S(1, 2), S(1, 2), S(1, 2), S(1, 2), S(1, 2), S(1, 2), S(1, 2), S(1, 2), S(1, 2), S(1, 2)],
    [S(1, 3), S(1, 3), S(1, 3), S(1, 3), S(1, 3), S(1, 3), S(1, 3), S(1, 3), S(1, 3), S(1, 3), S(1, 3), S(1, 3), S(1, 3), S(1, 3), S(1, 3), S(1, 3)]
  ]

  const Level2: seq<seq<Cell>> := [
    [E, E, E, E, S(1, 6), S(1, 6), E, E, E, E, S(1, 6), S(1, 6), E, E, E, E],
    [E, E, E, S(1, 4), S(1, 4), S(1, 4), S(1, 4), E, E, S(1, 4), S(1, 4), S(1, 4), S(1, 4), E, E, E],
    [E, E, S(1, 4), S(2, 3), S(2, 3), S(1, 4), S(1, 4), S(1, 4), S(1, 4), S(1, 4), S(1, 4), S(2, 3), S(2, 3), S(1, 4), E, E],
    [E, S(1, 2), S(1, 2), S(1, 2), S(1, 4), S(1, 4), S(1, 4), S(2, 3), S(2, 3), S(1, 4), S(1, 4), S(1, 4), S(1, 2), S(1, 2), S(1, 2), E],
    [E, E, S(1, 2), E, E, S(1, 4), S(1, 4), S(1, 4), S(1, 4), S(1, 4), E, E, S(1, 2), E, E, E]
  ]

  const Level3: seq<seq<Cell>> := [
    [E, S(2, 0), S(2, 0), S(2, 0), S(2, 0), S(2, 0), E],
    [S(2, 0), S(2, 0), S(2, 0), S(2, 0), S(2, 0), S(2, 0), S(2, 0)],
    [S(2, 0), S(2, 0), S(2, 0), S(2, 0), S(2, 0), S(2, 0), S(2, 0)],
    [S(2, 0), S(1, 6), S(1, 6), E, S(1, 6), S(1, 6), S(2, 0)],
    [S(2, 0), S(1, 6), S(1, 6), E, S(1, 6), S(1, 6), S(2, 0)],
    [S(2, 0), S(2, 0), S(2, 0), S(2, 0), S(2, 0), S(2, 0), S(2, 0)],
    [E, S(2, 0), E, E, E, S(2, 0), E]
  ]

  const Level4: seq<seq<Cell>> := [
    [E, S(2, 6), S(2, 6), S(2, 6), S(2, 6), S(2, 6), E],
    [S(2, 6), E, E, E, E, E, S(2, 6)],
    [S(2, 6), S(1, 6), S(1, 6), E, S(1, 6), S(1, 6), S(2, 6)],
    [S(2, 6), E, E, E, E, E, S(2, 6)],
    [E, S(2, 6), S(2, 6), S(2, 6), S(2, 6), S(2, 6), E],
    [E, E, S(2, 6), E, S(2, 6), E, E]
  ]

  const Level5: seq<seq<Cell>> := [
    [S(1, 4), E, S(1, 4), E, S(2, 3), E, S(2, 3), E, S(1, 2), S(1, 2), S(1, 2), E, S(1, 0), S(1, 0), S(1, 0)],
    [S(1, 4), E, S(1, 4), E, S(2, 3), S(1, 3), S(2, 3), E, S(1, 2), E, E, E, S(2, 0), E, E],
    [S(1, 4), E, S(1, 4), E, S(2, 3), E, S(2, 3), E, S(1, 2), S(2, 2), S(1, 2), E, S(2, 0), E, E],
    [S(1, 4), E, S(1, 4), E, S(2, 3), E, S(2, 3), E, S(1, 2), E, S(1, 2), E, S(2, 0), E, E],
    [S(1, 4), S(1, 4), S(1, 4), E, S(2, 3), E, S(2, 3), E, S(1, 2), S(1, 2), S(1, 2), E, S(1, 0), S(1, 0), S(1, 0)]
  ]

  const LevelLayouts: seq<seq<seq<Cell>>> := [Level1, Level2, Level3, Level4, Level5]

  datatype TimerKind = StopwatchTimer | CountdownTimer

  /** One entry of the settings table: the timer kind and, for a countdown,
      its `time_limit` in seconds (absent keys are `None`). */
  datatype Settings = Settings(timer: TimerKind, timeLimit: Option<int>)

  const LevelSettingsTable: seq<Settings> := [
    Settings(StopwatchTimer, None),
    Settings(StopwatchTimer, None),
    Settings(StopwatchTimer, None),
    Settings(StopwatchTimer, None),
    Settings(CountdownTimer, Some(60))
  ]

  /** `get_level_count`: the number of layouts. */
  function LevelCount(): (n: int)
    ensures n == |LevelLayouts| == |LevelSettingsTable| == 5
  {
    |LevelLayouts|
  }

  /** The level number both lookups actually use: below 1 reads level 1,
      above the last reads the last. */
  function ClampLevel(level: int): (k: int)
    ensures 1 <= k <= LevelCount()
    ensures level < 1 ==> k == 1
    ensures level > LevelCount() ==> k == LevelCount()
    ensures 1 <= level <= LevelCount() ==> k == level
  {
    var k := if level < 1 then 1 else level;
    if k > |LevelLayouts| then |LevelLayouts| else k
  }

  /** `get_level_pattern`. */
  function LevelPattern(level: int): seq<seq<Cell>>
  {
    LevelLayouts[ClampLevel(level) - 1]
  }

  /** `get_level_settings`. */
  function LevelSettings(level: int): Settings
  {
    LevelSettingsTable[ClampLevel(level) - 1]
  }

  /** Out-of-range level numbers read the nearest valid level. */
  lemma LookupsClamp(level: int)
    ensures level < 1 ==> LevelPattern(level) == Level1 && LevelSettings(level) == LevelSettings(1)
    ensures level > 5 ==> LevelPattern(level) == Level5 && LevelSettings(level) == LevelSettings(5)
  {
  }

  /** Levels 1 to 4 run a stopwatch; level 5 is a 60-second countdown. */
  lemma TimerRules(level: int)
    requires 1 <= level <= 5
    ensures level <= 4 ==> LevelSettings(level) == Settings(StopwatchTimer, None)
    ensures level == 5 ==> LevelSettings(level) == Settings(CountdownTimer, Some(60))
  {
  }

  predicate ValidCell(c: Cell)
  {
    match c
    case Empty => true
    case Plain(k) => k == 1 || k == 2
    case Styled(k, color) => (k == 1 || k == 2) && 0 <= color < 7
  }

  /** A non-empty list of rows of equal length, every cell valid. */
  predicate WellFormed(layout: seq<seq<Cell>>)
  {
    |layout| > 0 &&
    (forall r :: 0 <= r < |layout| ==> |layout[r]| == |layout[0]|) &&
    (forall r, c :: 0 <= r < |layout| && 0 <= c < |layout[r]| ==> ValidCell(layout[r][c]))
  }

  lemma LayoutsWellFormed(level: int)
    ensures WellFormed(LevelPattern(level))
    ensures |LevelPattern(level)[0]| > 0
  {
    var k := ClampLevel(level);
    if k == 1 {
      Level1WellFormed();
    } else if k == 2 {
      Level2WellFormed();
    } else if k == 3 {
      Level3WellFormed();
    } else if k == 4 {
      Level4WellFormed();
    } else {
      Level5WellFormed();
    }
  }

  // Each board is a non-empty rectangle of valid cells.

  lemma Level1WellFormed()
    ensures WellFormed(Level1) && |Level1[0]| > 0
  {
  }

  lemma Level2WellFormed()
    ensures WellFormed(Level2) && |Level2[0]| > 0
  {
  }

  lemma Level3WellFormed()
    ensures WellFormed(Level3) && |Level3[0]| > 0
  {
  }

  lemma Level4WellFormed()
    ensures WellFormed(Level4) && |Level4[0]| > 0
  {
  }

  lemma Level5WellFormed()
    ensures WellFormed(Level5) && |Level5[0]| > 0
  {
  }
}
