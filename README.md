# Bonkers Breakout, modelled in Dafny

This project models the game logic of the Bonkers Breakout game, a pygame
Breakout with five levels, bricks of one or two hit points, falling coins
and pick-ups (blast gun, small paddle, big paddle, triple ball), a level
stopwatch and a boss-level countdown, a scoreboard with a records file, a
high-score table and an end screen that asks for the player's initials. The
first prototype of the game (`breakout.py` at the repository root) is
modelled as well.

The model follows the source file by file:

- `block.dfy`, `timer.dfy`, `scoreboard.dfy`, `coin.dfy`, `powerup.dfy` and
  `particle.dfy` model the game objects. Each is a value datatype with pure
  functions that carry the properties, plus a class with the source's
  fields whose methods are proved to move the fields exactly as those
  functions say.
- `levels.dfy` and `layout.dfy` model the level table and the brick
  placement (`define_blocks`); `palette.dfy` holds the colours.
- `drops.dfy`, `paddle.dfy`, `physics.dfy`, `debris.dfy`, `powers.dfy` and
  `sweeps.dfy` model the pieces of the frame: the drop table, the paddle's
  keys, mouse and width smoothing, ball movement and bounces, what a broken
  brick leaves behind, the timed powers, and the list-update idioms.
- `game.dfy` models one frame of `game_loop` as a chain of phase functions
  over a frame-state record. `campaign.dfy` models `main_controller`: the
  debug modes, the set-up, the level progression and the final save.
- `session.dfy` is the imperative session. The `GameSession` class holds
  the frame state and the controller's locals. Each method does one phase
  in place and is proved to leave exactly the state the phase function
  describes.
- `highscores.dfy` and `win_lose.dfy` model the high-score table and the
  end screen. `prototype.dfy` models the prototype. `geometry.dfy` models
  pygame's rectangles, and `text.dfy` the string handling the records file
  needs.

Inputs the game reads from the outside world become parameters:

- the clock (`now`, in seconds, and the frame length in milliseconds);
- the random draws (`Dice`: the drop roll and the particle sparks);
- the keys, mouse and events of a frame (`Input`);
- the records file's lines;
- the pause menu's answer.

Two orders in the code shape the model:

- The frame tests ball–brick collisions before it moves the balls. It
  moves the balls only after the level-complete check, which happens
  before any ball is lost (`scenes/breakout.py:580-734`).
- After launch the arrow keys let the paddle pass the wall padding by 8
  pixels on each side. The mouse target is clamped to the padding itself.
  Before launch both are held so that the ball stays on the paddle
  (`scenes/breakout.py:977-1030`).

## Model

| member | source | states |
|---|---|---|
| Bricks.NewBrick | objects/block.py:71-93 | a type-2 brick is 35×35 and any other 60×25, placed at (x, y); it has 2 hit points exactly when it is type 2 with square art, else 1, and its maximum equals its starting value |
| Bricks.HitBrick | objects/block.py:112-122 | a hit breaks the brick exactly when it has at most 1 hit point and then leaves it unchanged; otherwise it loses one point; hit points stay within 1..maximum and never rise |
| Bricks.HitsKeepHp | objects/block.py:112-122 | after any number of hits the hit points are still between 1 and the maximum, never above the start, and the rectangle and maximum are untouched |
| Bricks.BreaksOnHitNumberHp | objects/block.py:112-122 | a brick reports survival on every hit before hit number `hp` and destruction from then on |
| Bricks.HitUnbroken | objects/block.py:113-114 | further hits on a 1-point brick change nothing |
| Bricks.NewBrickHits | objects/block.py:86-122 | a new square type-2 brick with art breaks on exactly the second hit, every other new brick on the first |
| Bricks.Block.constructor | objects/block.py:71-93 | the object's state is the new brick's |
| Bricks.Block.Hit | objects/block.py:112-122 | the object's new state and the result are those of the hit rule |
| Timers.NewTimer | objects/timer.py:17-23 | a new timer is paused with no start time and nothing elapsed |
| Timers.Started | objects/timer.py:37-39 | start runs the timer from `now`, keeping what has elapsed |
| Timers.Paused | objects/timer.py:42-45 | pause banks the time run since the start; pausing a paused timer changes nothing |
| Timers.Resumed | objects/timer.py:48-51 | resume acts only on a paused timer and then restarts it from `now` |
| Timers.Cleared | objects/timer.py:54-57 | reset gives exactly a new timer of the same mode and length |
| Timers.Reading | objects/timer.py:61-71 | a stopwatch reads elapsed plus running time; a countdown reads what is left, never below 0 |
| Timers.Updated | objects/timer.py:74-78 | only a running countdown that reads 0 changes, and it is paused; a stopwatch is never affected |
| Timers.PauseKeepsReading | objects/timer.py:42-71 | pausing does not change the reading at that instant |
| Timers.PausedIntervalExcluded | objects/timer.py:42-66 | a stopwatch paused at p and resumed at q later reads exactly q − p less than one left running |
| Timers.ExpiredCountdownStaysZero | objects/timer.py:67-78 | an expired countdown is paused by update and reads 0 at every later time |
| Timers.StopwatchMonotone | objects/timer.py:61-66 | a stopwatch reading never decreases as the clock advances |
| Timers.Split60 | objects/timer.py:84-86 | minutes × 60 + seconds equals the whole seconds, with seconds in 0..59 |
| Timers.Display | objects/timer.py:84-88 | readings below 100 minutes show as five characters with a colon in the middle |
| Timers.Timer.constructor | objects/timer.py:17-23 | the object's state is a new timer's |
| Timers.Timer.Start | objects/timer.py:37-39 | the object's new state is the start rule applied to the old one |
| Timers.Timer.Pause | objects/timer.py:42-45 | the object's new state is the pause rule applied to the old one |
| Timers.Timer.Resume | objects/timer.py:48-51 | the object's new state is the resume rule applied to the old one |
| Timers.Timer.Reset | objects/timer.py:54-57 | the object's new state is that of a new timer |
| Timers.Timer.Update | objects/timer.py:74-78 | the object's new state is the update rule applied to the old one |
| Timers.Timer.GetTime | objects/timer.py:61-71 | a stopwatch reads the banked time plus the time since the start while running; a countdown reads what is left of its time after the banked and running time, floored at 0, so never negative |
| Scores.Scored | objects/scoreboard.py:55-56 | adding points raises the score by exactly that amount and changes nothing else |
| Scores.LifeLost | objects/scoreboard.py:59-60 | losing a life takes exactly one life and changes nothing else |
| Scores.ResetRun | objects/scoreboard.py:63-65 | a reset gives score 0 and three lives and keeps the record |
| Scores.Record | objects/scoreboard.py:112-117 | a higher score takes the record with its time; an equal score keeps the faster time, and a stored 0 always gives way; a lower score changes nothing |
| Scores.RecordMonotone | objects/scoreboard.py:112-117 | the high score never decreases: it becomes the larger of the two scores, and an equal score never slows a nonzero best time |
| Scores.RecordIdempotent | objects/scoreboard.py:112-117 | saving the same run a second time leaves the record as it is |
| Scores.NormalizeInitials | objects/scoreboard.py:97-99 | the saved initials are the stripped, uppercased input, or "AAA" when nothing is left; never empty |
| Scores.SavedEntry | objects/scoreboard.py:97-104 | the history line carries the normalised initials, the score, and the time with a missing time read as 0.0 |
| Scores.Saved | objects/scoreboard.py:101-117 | saving updates high score and best time by the record rule and keeps score and lives |
| Scores.Loaded | objects/scoreboard.py:79-89 | the first line gives the high score and the second the best time; an unparsable line gives 0 or 0.0 and a missing line keeps the value |
| Scores.RecordLineRoundTrip | objects/scoreboard.py:79-120 | a high score written as the first records line reads back as the same number |
| Scores.ScoreBoard.constructor | objects/scoreboard.py:31-36 | a new board has score 0, three lives and the record read from the file's lines |
| Scores.ScoreBoard.AddPoints | objects/scoreboard.py:55-56 | the object's new state is the old one with the points added |
| Scores.ScoreBoard.LoseLife | objects/scoreboard.py:59-60 | the object's new state is the old one with one life fewer |
| Scores.ScoreBoard.Reset | objects/scoreboard.py:63-65 | the object's new state is the reset of the old one |
| Scores.ScoreBoard.LoadHighScore | objects/scoreboard.py:79-89 | the object's new state is the old one with the lines' record read in |
| Scores.ScoreBoard.SaveHighScore | objects/scoreboard.py:92-117 | the object's record follows the record rule and the returned entry is the history line written |
| Scores.NewRecord | objects/scoreboard.py:112-117 | the comparison computes the record rule: a higher score replaces the record with its time, an equal score keeps the faster nonzero time |
| Coins.NewCoin | objects/coin.py:16-25 | a new coin sits at (x, y) with a 20×20 box there |
| Coins.Fallen | objects/coin.py:46-48 | one update moves the coin 4 pixels down, box included, and never sideways |
| Coins.FallenTimesPosition | objects/coin.py:46-48 | after n updates the coin is exactly 4n pixels lower, at the same x, with its box on it |
| Coins.LeavesScreen | objects/coin.py:46-65 | an on-screen coin is off screen exactly from update (900 − y) div 4 + 1 on |
| Coins.Coin.constructor | objects/coin.py:16-25 | the object's state is the new coin's |
| Coins.Coin.Update | objects/coin.py:46-48 | the object's new state is the old one fallen one frame |
| PowerUps.NewPowerUp | objects/powerup.py:15-27 | a triple-ball pick-up is 60×60 and every other kind 30×30, with the box's corner at (x, y) |
| PowerUps.Dropped | objects/powerup.py:95-98 | one update moves the pick-up 4 pixels down and puts its box at (x, y), keeping kind and size |
| PowerUps.NewBlast | objects/powerup.py:122-146 | a new blast is a 20×40 box at (x, y) |
| PowerUps.Risen | objects/powerup.py:150-153 | one update moves the blast 8 pixels up and puts its box at (x, y) |
| PowerUps.DroppedTimesPosition | objects/powerup.py:95-98 | after n updates a pick-up is exactly 4n pixels lower with its kind, x and box size kept |
| PowerUps.RisenTimesPosition | objects/powerup.py:150-169 | after n updates a blast is 8n pixels higher, and one fired at height y ≥ 120 is off screen exactly from update (y − 120) div 8 + 1 on |
| PowerUps.PowerUp.constructor | objects/powerup.py:15-27 | the object's state is the new pick-up's |
| PowerUps.PowerUp.Update | objects/powerup.py:95-98 | the object's new state is the old one dropped one frame |
| PowerUps.BlueBlast.constructor | objects/powerup.py:122-146 | the object's state is the new blast's |
| PowerUps.BlueBlast.Update | objects/powerup.py:150-153 | the object's new state is the old one risen one frame |
| Particles.NewParticle | objects/particle.py:14-23 | a new particle has age 0, size in 3..6, horizontal speed in −3..3 and vertical speed in −5..−2 |
| Particles.Moved | objects/particle.py:26-31 | one update moves by the velocity, adds 0.3 to the vertical speed and 1 to the age, keeps the horizontal speed and shrinks the size by 0.1 down to 1 |
| Particles.MovedTimesState | objects/particle.py:26-31 | after n updates the age is up by n, x moved uniformly, y under constant acceleration 0.3, and the size is max(1, size − 0.1n) |
| Particles.SizeBounds | objects/particle.py:31 | the size never grows and never drops below 1 |
| Particles.DeadAfter | objects/particle.py:26-45 | a particle is dead exactly when its age reached 30 or its size shrank to 1, so a new one is dead after at most 30 updates |
| Particles.Particle.constructor | objects/particle.py:14-23 | the object's state is the new particle's |
| Particles.Particle.Update | objects/particle.py:26-31 | the object's new state is the old one moved one frame |
| Levels.LevelCount | scenes/levels.py:84-104 | there are five levels, and the layout and settings tables have the same length |
| Levels.ClampLevel | scenes/levels.py:108-122 | a level below 1 reads level 1, one above the last reads the last, any other reads itself |
| Levels.LookupsClamp | scenes/levels.py:108-122 | out-of-range level numbers get the first or last level's pattern and settings |
| Levels.TimerRules | scenes/levels.py:92-98 | levels 1 to 4 run a stopwatch and level 5 a countdown of 60 seconds |
| Levels.LayoutsWellFormed | scenes/levels.py:36-81 | every level's layout is a non-empty list of equal-length, non-empty rows whose cells are empty or bricks of type 1 or 2 with a colour index 0..6 |
| HighScores.ParseLine | scenes/highscores.py:67-70 | a line is skipped exactly when it does not split into three fields; a kept entry has uppercase initials |
| HighScores.ParsedEntries | scenes/highscores.py:66-70 | the entries read are no more than the lines, all with uppercase initials |
| HighScores.WithKey | scenes/highscores.py:71 | the entries sharing one sort key are a sub-list of the input |
| HighScores.Insert | scenes/highscores.py:71 | inserting into an ordered list keeps it ordered and adds exactly that entry |
| HighScores.SortScores | scenes/highscores.py:71 | the sorted list is a permutation of the input ordered by score descending, then time ascending |
| HighScores.WithKeyInsert | scenes/highscores.py:71 | an inserted entry goes in front of the entries with the same key |
| HighScores.SortStable | scenes/highscores.py:71 | the sort is stable: entries with equal keys keep their file order |
| HighScores.TopScoresProperties | scenes/highscores.py:71-72 | at most ten entries are kept, ordered, a prefix of the sorted list, none of them worse than any entry left out |
| HighScores.OrderedPrefix | scenes/highscores.py:72 | a prefix of an ordered list is ordered and no entry after it is better than one in it |
| HighScores.LoadScores | scenes/highscores.py:61-72 | the loop reads the lines, sorts and cuts to exactly the top-scores function's result, and a malformed number fails the whole load |
| HighScores.ReadLines | scenes/highscores.py:65-69 | the reading loop yields exactly the entries the line-by-line reading defines, and none once a number is malformed |
| HighScores.ReadLine | scenes/highscores.py:66-69 | one line is skipped, read as an entry or fails exactly as the per-line reading says |
| HighScores.ReadNext | scenes/highscores.py:66-70 | one step of the reading loop extends the entries read so far exactly as the line-by-line reading does |
| HighScores.NoneExtends | scenes/highscores.py:66-70 | a line that raises fails the whole file |
| HighScores.Mod60 | scenes/highscores.py:78 | the floored remainder by 60 lies in [0, 60) |
| HighScores.FormatTimeValue | scenes/highscores.py:76-79 | below 100 minutes the text is five characters "MM:SS" whose minutes × 60 + seconds equals the whole seconds, with seconds below 60 |
| EndScreens.SfxVolume | scenes/win_lose.py:37-49 | the volume is in [0, 1] in steps of 1/5: the setting clamped to 0..5 divided by 5; an unreadable config or a missing setting gives 1.0, and a value `int()` rejects (a non-numeric string, null, a list or an object) counts as 5 |
| EndScreens.JsonToIntCases | scenes/win_lose.py:43-46 | `int(value)` fails exactly on null, lists, objects and strings that are not integers; it keeps integers, truncates reals toward zero and reads booleans as 0 and 1 |
| EndScreens.KeyLetter | scenes/win_lose.py:185-186 | a letter key adds a capital letter |
| EndScreens.EditInitials | scenes/win_lose.py:181-186 | RETURN ends entry only when something was typed; BACKSPACE drops the last letter and does nothing on an empty buffer; a letter is added only while there are fewer than three; the buffer stays at most three capitals |
| EndScreens.FrameAsWritten | scenes/win_lose.py:168-186 | one frame's events processed in full, as the code does: the buffer stays valid initials, and entry stays ended once RETURN ended it |
| EndScreens.InitialsAsWritten | scenes/win_lose.py:146-191 | the initials the loop as written returns are at most three capitals (possibly none) |
| EndScreens.EmptyInitialsAsWritten | scenes/win_lose.py:168-191 | a, RETURN and BACKSPACE within one frame make the loop as written return empty initials |
| EndScreens.Frame | scenes/win_lose.py:168-186 | one frame's events up to the RETURN that ends entry: initials stay valid and entry ends only with something typed |
| EndScreens.Initials | scenes/win_lose.py:146-191 | the loop ending at that RETURN returns one to three capitals |
| EndScreens.GetPlayerInitials | scenes/win_lose.py:146-191 | the event loop returns exactly the corrected initials outcome, which when entered is one to three capital letters |
| EndScreens.NewEnd | scenes/win_lose.py:210-225 | the screen starts with "YOU WIN!" or "GAME OVER", no letters shown, YES selected and the buttons invisible |
| EndScreens.Grow | scenes/win_lose.py:247-250 | a letter not yet shown fades in by 0.15, capped at 1; a shown one stays |
| EndScreens.GrowAll | scenes/win_lose.py:246-250 | every letter takes one fade step, in place |
| EndScreens.Animated | scenes/win_lose.py:240-258 | each frame adds at most one letter, fades the others in, never lowers the button alpha, keeps the selection, and keeps the screen valid (states within [0, 1], alpha within [0, 255], done only with all letters shown) |
| EndScreens.FinishedIsStable | scenes/win_lose.py:240-258 | once the title and buttons are fully shown, frames change nothing |
| EndScreens.AllShown | scenes/win_lose.py:300 | a fully shown title has every letter at 1.0 |
| EndScreens.KeyPressed | scenes/win_lose.py:296-316 | before the animation is done a key completes it; afterwards left or a selects YES and right or d selects NO; other keys change nothing |
| EndScreens.SecondKeySelects | scenes/win_lose.py:296-316 | whatever the state, the second key press already selects |
| EndScreens.EndScreen.constructor | scenes/win_lose.py:210-225 | the object's state is the starting screen |
| EndScreens.GrowLetters | scenes/win_lose.py:246-250 | the in-place fade loop leaves every letter faded one step, as `GrowAll` says |
| EndScreens.AllShownYet | scenes/win_lose.py:253 | the check is true exactly when every letter is fully shown |
| EndScreens.EndScreen.Animate | scenes/win_lose.py:240-258 | the object's new state is the animation step of the old one |
| EndScreens.EndScreen.KeyDown | scenes/win_lose.py:296-316 | the object's new state is the key rule applied to the old one |
| Text.Strip | objects/scoreboard.py:79-99 | the result is a slice of the input with no white space at either end, and only white space was cut off |
| Text.Upper | objects/scoreboard.py:97 | every ASCII lower-case letter becomes its capital and every other character is kept, position by position |
| Text.Split | scenes/highscores.py:67 | every field is non-empty and contains no white space |
| Text.SplitJoin | scenes/highscores.py:67 | splitting words joined by single spaces gives back exactly those words, in order, whenever each is non-empty and free of white space — the fields are the maximal non-space runs; this is how a line `initials score time` written by `save_high_score` is read back |
| Text.SplitFirst | scenes/highscores.py:67 | a word, a space and more text split into the word followed by the fields of the rest |
| Text.SplitWord | scenes/highscores.py:67 | a non-empty word without white space is a single field |
| Text.SplitSpaced | scenes/highscores.py:67 | white space in front changes no field |
| Text.SplitBlank | scenes/highscores.py:67 | there is no field exactly when the text is all white space |
| Text.ParseShowInt | objects/scoreboard.py:79-120 | reading back a written integer gives the same integer |
| Text.Pad2 | scenes/highscores.py:79 | the two-digit format is at least two characters, and exactly the two digits of n for 0 ≤ n < 100 |
| Geometry.Trunc | scenes/breakout.py:974-980 | conversion of a float to an integer lands within 1 of it, toward zero |
| Geometry.CollidePositive | scenes/breakout.py:618 | for positive sizes, rectangles collide exactly when their edges overlap strictly, and collision is symmetric |
| Geometry.CollideList | scenes/breakout.py:1130 | the index found is the first rectangle that collides, or −1 when none does |
| Layout.DebugRow | scenes/breakout.py:793-803 | level 0 is one row of 16 cells with a brick only in column 8, and also in column 7 in the countdown debug mode |
| Layout.BrickAt | scenes/breakout.py:823-844 | a bare type takes the row's colour and a pair its own colour index modulo 7; type-2 squares are shifted by (+12, −5) on the 70 × 35 grid; other bricks sit on the grid slot |
| Layout.DefineBlocks | scenes/breakout.py:784-846 | the bricks are exactly those laid out from the level's grid (the debug row for level 0) |
| Layout.PlaceBlocks | scenes/breakout.py:807-846 | the nested placement loops return exactly the bricks of the grid, row-major, skipping zeros; an empty grid gives none |
| Layout.RowBricksIndex | scenes/breakout.py:817-844 | a row yields one brick per non-zero cell, and the brick of cell c comes right after those of the non-zero cells before it |
| Layout.RowsBricksIndex | scenes/breakout.py:817-844 | the grid yields one brick per non-zero cell in row-major order: the brick of cell (r, c) follows exactly the bricks of the non-zero cells before it |
| Layout.NonZeroRowsPrefix | scenes/breakout.py:817-844 | earlier rows never hold more bricks than the whole grid |
| Layout.EmptyLayoutNoBricks | scenes/breakout.py:807-808 | an empty grid gives no bricks |
| Layout.DebugLevelBricks | scenes/breakout.py:793-814 | the one-block debug level has its single brick at x = 605 on the top row, and the countdown debug level adds one at x = 535 |
| Layout.NonZeroDebug | scenes/breakout.py:793-803 | the debug row holds one brick, or two in the countdown debug mode, none before column 7 |
| Drops.TableBands | scenes/breakout.py:1178-1187 | table entry i owns exactly the rolls between the sum of the weights before it and the sum up to it |
| Drops.ChooseDrop | scenes/breakout.py:1178-1187 | the walk over the table returns coin below 0.30, triple ball below 0.40, blast below 0.50, small paddle below 0.55, big paddle below 0.65, otherwise nothing; for a roll in [0, 1) the result is always a table entry |
| Drops.NoFireballDrops | scenes/breakout.py:166-173 | only the triple-ball, blast, small and big pick-ups can drop, never a fireball |
| Drops.BandsOrdered | scenes/breakout.py:1182-1185 | a larger roll never selects an earlier table entry |
| Paddles.TargetWidth | scenes/breakout.py:1243-1248 | the width a size state aims for is between the small (100) and the big (280) width |
| Paddles.Smoothed | scenes/breakout.py:1250-1259 | each frame the width closes 10% of its distance to the target and the bar moves by half the change, so its centre stays put |
| Paddles.BarRect | scenes/breakout.py:1261 | the paddle rectangle is the bar truncated to integers at height 780 and 20 pixels high |
| Paddles.SmoothingStaysInRange | scenes/breakout.py:1250-1253 | smoothing never overshoots the target, so the width stays between 100 and 280 and the rectangle is never empty |
| Paddles.SmoothedTimesWidth | scenes/breakout.py:1250-1253 | after n frames with the same size state the distance to the target is 0.9ⁿ of what it was |
| Paddles.SmoothedTimesCentre | scenes/breakout.py:1255-1259 | smoothing frame after frame never moves the paddle's centre |
| Paddles.KeyMove | scenes/breakout.py:977-1000 | left moves 8 pixels clamped to the left limit, right 8 pixels clamped to the right limit, and no key keeps the bar still |
| Paddles.KeyMoveClamped | scenes/breakout.py:982-1000 | a bar inside its limits stays inside them and moves at most one step |
| Paddles.PreLaunchLimits | scenes/breakout.py:977-980 | before launch the bar must keep the resting ball at least 20 pixels from both ends |
| Paddles.PostLaunchLimits | scenes/breakout.py:990-994 | after launch the bar ranges from x = 22 to where its right end is 8 pixels beyond the right wall padding |
| Paddles.PreLaunchKeepsBallOnPaddle | scenes/breakout.py:977-986 | within the pre-launch limits the resting ball stays at least 20 pixels inside both ends of the paddle |
| Physics.BallRect | scenes/breakout.py:1124-1129 | the ball's box is 20×20 with its corner at the centre less the radius, truncated to integers |
| Physics.XAngleFacts | scenes/breakout.py:1109-1114 | a centre hit gives horizontal speed 0, the sign follows the side of the centre, the ends of an even-width bar give exactly ±6, and the speed stays within 6 exactly while the ball is within half a width of the centre |
| Physics.Advance | scenes/breakout.py:1048-1051 | three equal sub-steps move the ball by exactly its velocity |
| Physics.WallCheckConfines | scenes/breakout.py:1062-1077 | after the wall check the ball is between the side walls and below the top; a component is reversed and the centre put one radius inside only when that wall was reached, left taking precedence over right; there is no bottom wall and speeds keep their size |
| Physics.PaddleBounce | scenes/breakout.py:1084-1114 | the bounce fires exactly when ball and bar overlap while the ball moves down; it reverses the vertical speed, sets the paddle angle (below 0.2 snapped to 0), puts the ball one pixel above the bar and marks it as last hit; otherwise nothing changes |
| Physics.DeflectionAxis | scenes/breakout.py:1136-1145 | exactly one velocity component is reversed: the horizontal one only when a side face matches within 8 pixels and no bottom or top face does; the speed is kept |
| Physics.MovedAllKeeps | scenes/breakout.py:1048-1059 | the balls kept are moved input balls, no more than before, all still on screen and between the side walls; every moved ball still on screen is kept, and all of them in place when none fell; `last_hit_ball` names the last ball in the list whose paddle check fired and is unchanged when none fired |
| Physics.MovedId | scenes/breakout.py:1048-1106 | moving a ball keeps its identity |
| Physics.KeptAll | scenes/breakout.py:1048-1059 | every ball that is still on screen after its move is among the kept balls |
| Physics.KeptEvery | scenes/breakout.py:1048-1059 | when no moved ball falls, the kept list is the whole list, each ball moved in its place |
| Physics.LastHitNames | scenes/breakout.py:1048-1106 | the last-hit ball after the loop is the last ball in list order whose paddle check fired, and the previous one when none fired |
| Physics.LastHitFrom | scenes/breakout.py:1048-1106 | the last-hit ball after the loop is the one before or one of the balls moved, and stays the one before when no paddle check fired |
| Physics.LastHitBounce | scenes/breakout.py:1048-1106 | when a ball's paddle check fired and no later ball's did, that ball is the last-hit ball after the loop |
| Debris.Rects | scenes/breakout.py:1130 | the rectangle list matches the bricks one for one |
| Debris.Burst | scenes/breakout.py:1150-1153 | a broken brick gives exactly fifteen particles |
| Debris.SpawnBurst | scenes/breakout.py:1150-1153 | the particle loop produces exactly the burst |
| Debris.Strike | scenes/breakout.py:1147-1168 | a struck brick that had at most 1 hit point breaks and is removed from the list, counting one more break; otherwise it only loses a point in place and nothing else changes; bricks plus breaks stay constant |
| Debris.StrikeBlock | scenes/breakout.py:1147-1168 | the hit, particle loop, drop roll and removal give exactly the strike |
| Debris.BallsStrikeCounts | scenes/breakout.py:1118-1175 | over all balls, bricks plus breaks stay constant and each ball breaks at most one brick |
| Debris.BallStrikeKeepsBall | scenes/breakout.py:1123-1145 | a ball keeps its identity, position and speed through a brick hit |
| Debris.BallsStrikeKeepsBalls | scenes/breakout.py:1123-1145 | every ball of the list keeps its identity, position and speed, in place |
| Debris.MissLeavesAll | scenes/breakout.py:1130-1132 | a ball overlapping no brick changes neither itself nor the field |
| Debris.BlastsStrikeCounts | scenes/breakout.py:684-720 | bricks plus breaks stay constant, blasts only disappear, and each blast breaks at most one brick and only when it is used up |
| Debris.StrikeDebris | scenes/breakout.py:1149-1168 | a breaking brick adds exactly fifteen particles and at most one coin or pick-up, never a fireball |
| Debris.BallsStrike | scenes/breakout.py:1118-1175 | the ball loop of the collision check keeps every ball: it only changes their velocities and positions, never the number of balls |
| GameRules.PauseBoth | scenes/breakout.py:1442-1446 | both clocks end up paused (the level clock only if one exists) and the game clock keeps its start; nothing else in the frame state changes |
| GameRules.ResumeBoth | scenes/breakout.py:759-763 | both clocks end up running; nothing else changes |
| GameRules.StartOrResume | scenes/breakout.py:906-916 | a launched clock is running and has a start time: a clock that never ran starts at `now`, a running one is untouched, the mode and banked time are kept |
| GameRules.LaunchTimers | scenes/breakout.py:906-916 | after a launch the game clock and any level clock are running; nothing else changes |
| GameRules.UpdateBoth | scenes/breakout.py:765-769 | the clock update keeps the clocks well formed, never changes a stopwatch game clock and changes nothing else |
| GameRules.Drawn | scenes/breakout.py:1239-1261 | the paddle width stays between the small and big widths, its centre stays put, and the frame's paddle rectangle is the one built from the new width |
| GameRules.RestingBall | scenes/breakout.py:1417-1423 | the ball a reset creates is at rest and carries the given identity |
| GameRules.Reset | scenes/breakout.py:1396-1429 | exactly one fresh ball at rest at the start position, the paddle centred at normal width, both powers off, no blast, coin, pick-up or particle left; bricks, score, clocks, tutorial and outcome unchanged; the frame invariant holds |
| GameRules.Decide | scenes/breakout.py:855-970 | the event loop acts on the first event that does something, and goes on to the paddle movement exactly when no event does |
| GameRules.EventAction | scenes/breakout.py:855-944 | an event quits exactly when it is the window close, pauses exactly on escape, launches the tutorial ball exactly on space or an enabled left click during the tutorial, and launches normally exactly on those with a resting ball outside the tutorial |
| GameRules.MouseTarget | scenes/breakout.py:1003-1020 | after launch the mouse target lies between the wall paddings whenever the paddle fits, and is the mouse less half the paddle when that lies between them |
| GameRules.MouseFollow | scenes/breakout.py:1022-1030 | the paddle moves toward the mouse target and never past it, by at most one step of 1/120 of the free width, and lands on the target once within a step |
| GameRules.Steered | scenes/breakout.py:972-1030 | with the keys alone a paddle inside its limits (around the resting ball before launch, the wall padding after) stays inside them and moves at most one 8-pixel step, and stays put with no key held; with the mouse and no key it heads for the mouse target and never passes it |
| GameRules.TutorialLaunched | scenes/breakout.py:870-889 | the tutorial's launch keeps the frame invariant, ends the tutorial, sends the first ball up at 5 with the paddle angle, runs both clocks and touches no other ball, the bricks, the score or the paddle |
| GameRules.Launched | scenes/breakout.py:891-918 | the normal launch keeps the frame invariant; a first ball within 3 pixels of the paddle's centre is put on the centre, otherwise its x is kept; it leaves up at 6 with the paddle angle of that place, flattened to 0 below 0.5; both clocks run; no other ball, the bricks, the score or the paddle change |
| GameRules.LaunchDirection | scenes/breakout.py:893-904 | a normally launched ball goes straight up when it started within 3 pixels of the centre, otherwise leans toward its own side of the centre, and its sideways speed is 0 or at least 0.5 |
| GameRules.Handled | scenes/breakout.py:849-1032 | `false` exactly on a quit, which changes nothing; escape only requests the pause; a tutorial launch ends the tutorial and sends the ball up at 5 with the paddle angle; a normal launch from rest snaps a ball within 3 pixels onto the paddle's centre and sends it up at 6 with the paddle angle of its place, flattened to 0 below 0.5, and sets both clocks running; otherwise only the paddle's x moves; other balls, score and bricks are untouched |
| GameRules.Collided | scenes/breakout.py:1118-1175 | 50 points per brick that disappears, at most one brick per ball, every brick that disappears counted as broken, and the blasts, paddle and powers untouched |
| GameRules.Tutored | scenes/breakout.py:586-600 | the tutorial clock grows by the frame time and the tutorial stays on exactly while it is below 7500 ms; without the tutorial nothing changes |
| GameRules.Aged | scenes/breakout.py:603-607 | every particle is updated once; exactly the updated particles that are still alive stay: each one left is an updated particle of the list, none is dead, and every live updated particle is kept; nothing else changes |
| GameRules.Fell | scenes/breakout.py:610-614 | every coin falls once; exactly the fallen coins still on screen stay: each one left is a fallen coin of the list, none is below the screen, and every fallen coin still on screen is kept; nothing else changes |
| GameRules.CoinsCaught | scenes/breakout.py:617-622 | every caught coin is removed and scores 50; no coin left is one the paddle catches, and each comes from the list |
| GameRules.Drift | scenes/breakout.py:625-629 | every pick-up drops once; exactly the dropped pick-ups still on screen stay: each one left is a dropped pick-up of the list, none is below the screen, and every dropped pick-up still on screen is kept; nothing else changes |
| GameRules.IndexOfId | scenes/breakout.py:1196-1200 | the index of the first ball with the identity, or -1 exactly when no ball has it |
| GameRules.TripleBase | scenes/breakout.py:1196-1200 | the base is the last ball the paddle hit if it is still in play, else the first ball |
| GameRules.Tripled | scenes/breakout.py:1191-1213 | with no ball nothing happens; otherwise the existing balls are kept in order and exactly two new ones with fresh identities are appended, 25 pixels either side of the base, moving up at 5 and outward at the base's horizontal speed (3 when it has none) |
| GameRules.Apply | scenes/breakout.py:636-647 | a blast pick-up arms the gun for 300 frames, a small or big one sets the paddle size for 300 frames, a triple ball spawns two balls, any other kind does nothing |
| GameRules.Fired | scenes/breakout.py:657-661 | a shot appends exactly one blast 20 pixels above the paddle, at its left end plus 2 or its right end less 22; no shot changes nothing |
| GameRules.Autofire | scenes/breakout.py:652-667 | only the gun and the blasts change; an active gun with time left counts down and switches off at zero; a blast is appended, with the old blasts kept in front, exactly when the new count is a multiple of 10; otherwise nothing changes |
| GameRules.SizeTicked | scenes/breakout.py:670-674 | only the paddle power changes; a changed paddle counts down, keeps its size while the count is positive and is normal exactly when it reaches zero; a normal paddle is untouched |
| GameRules.BlastsFly | scenes/breakout.py:677-681 | every blast rises once; exactly the risen blasts still in the play field stay: each one left is a risen blast of the list, none is above the field, and every risen blast still in the field is kept; nothing else changes |
| GameRules.BlastsHit | scenes/breakout.py:684-720 | 50 points per brick that disappears, each such brick used up a blast, and every brick that disappears is counted as broken |
| GameRules.MoveBall | scenes/breakout.py:1037-1059 | nothing moves while the first ball rests; otherwise the balls and the last-hit ball are those of the ball loop, no ball left is below the screen, none was added, and the flag is false exactly when every moved ball fell below the screen |
| GameRules.MovedBalls | scenes/breakout.py:1048-1059 | the kept balls keep ids below the next id, none is lost, and some ball is kept exactly when some moved ball is still on screen |
| GameRules.LostBall | scenes/breakout.py:1432-1468 | a life goes and both clocks stop; with lives left exactly one resting ball remains, the field is cleared, the powers are off and the paddle is reset; on the last life the game is lost |
| GameRules.Opening | scenes/breakout.py:545-575 | after the paddle, the respawn and input, a ball is in play, the paddle is at least the small width, and score, bricks and outcome are untouched |
| GameRules.Middle | scenes/breakout.py:580-720 | points never drop and every brick that disappears adds 50 and is counted as broken; lives and the outcome are untouched and a ball is still in play |
| GameRules.Survived | scenes/breakout.py:730-734 | at most one life is lost; `false` means the game is lost with the game clock stopped; bricks and score are untouched |
| GameRules.Clocked | scenes/breakout.py:736-769 | the game is lost exactly when a level countdown reads zero; a requested pause without a resume quits; going on clears the pause request; balls, bricks and score are untouched |
| GameRules.Closing | scenes/breakout.py:722-769 | the level is complete exactly when no brick is left (clocks stopped, balls untouched); a lost game has the clock stopped; going on keeps a ball in play |
| GameRules.Frame | scenes/breakout.py:536-781 | one frame keeps the invariant, never lowers the score, adds 50 for every brick that disappeared, loses at most one life, and its status reports a cleared board, a lost game, a quit or a frame going on with bricks and a ball left |
| GameRules.CollectKeepsBalls | scenes/breakout.py:632-650 | the pick-ups left are exactly those the paddle does not overlap, in order; existing balls are kept and only fresh ones appended; score, bricks, blasts, paddle and clocks untouched |
| GameRules.CollectPowers | scenes/breakout.py:632-650 | the blast gun changes only if a blast pick-up was caught and the paddle size only if a small or big one was |
| Powers.SalvoIdle | scenes/breakout.py:653-668 | a stopped gun stays stopped and fires nothing |
| Powers.SalvoRuns | scenes/breakout.py:653-668 | a gun with `t` frames left, run for `t` frames or more, stops at zero having fired exactly the shots of its schedule (one at each timer value below `t` that is a multiple of ten) |
| Powers.ScheduleVolley | scenes/breakout.py:657-661 | the schedule of `t` frames is a volley of one shot per ten frames, rounded up, ending at timer value zero |
| Powers.VolleyShape | scenes/breakout.py:657-661 | the `i`-th of `k` volley shots comes from the side of timer value `10 * (k - 1 - i)`, consecutive shots come from opposite sides and the last, at timer value zero, from the left |
| Powers.SalvoSchedule | scenes/breakout.py:653-668 | a gun with `t` frames left stops at zero after firing one shot per ten frames rounded up, the sides following the timer value |
| Powers.SidesAlternate | scenes/breakout.py:657-661 | shots ten frames apart come from opposite ends of the paddle |
| Powers.BlastRun | scenes/breakout.py:653-668 | a gun started with a multiple of twenty frames fires one shot per ten frames, first from the right, last from the left, alternating, and stops |
| Powers.FullBlastPower | scenes/breakout.py:653-668 | a 300-frame blast power fires 30 shots, first from the right and last from the left, never twice in a row from one side, and then stops |
| Powers.SizeLasts | scenes/breakout.py:671-674 | a small or big paddle with `t` frames left keeps its size for `t - 1` frames and is normal from frame `t` on |
| Powers.NormalStays | scenes/breakout.py:671-674 | a normal paddle has no timer running and stays normal |
| Sweeps.Sweep | scenes/breakout.py:603-607 | the update-and-remove loop over a copy of a list computes the swept list |
| Sweeps.SweptFacts | scenes/breakout.py:603-629 | the swept list is no longer than the input, holds no expired item and only advanced input items, holds every advanced item that has not expired, and is every item advanced in place when none expires |
| Sweeps.Remove | scenes/breakout.py:617-622 | the remove-if loop over a copy of a list computes the remaining items and the number removed |
| Sweeps.RemainingFacts | scenes/breakout.py:617-622 | every item is either kept or counted; kept items fail the test and come from the input; nothing is removed when nothing is picked |
| Campaign.StartLevel | scenes/breakout.py:369-427 | the single-brick and countdown debug modes start at level 0, a `level_N` debug mode at level N, anything else at level 1 |
| Campaign.MaxLevels | scenes/breakout.py:384-428 | the single-level debug modes end after level 0, every other session after the last level of the table |
| Campaign.LevelClock | scenes/breakout.py:412-421 | a level has a countdown clock of its time limit (60 seconds by default) exactly when its settings ask for one, and no level clock otherwise |
| Campaign.Setup | scenes/breakout.py:349-454 | a new session starts at the mode's level with that level's bricks, a fresh score read from the records file (one life in the single-level modes), a never-run paused game stopwatch, the level's clock or the 10-second debug countdown, no ball yet, both powers off, and the tutorial on exactly without a debug mode and when enabled |
| Campaign.AfterFrame | scenes/breakout.py:466-523 | only a running frame or a cleared board below the last level keeps the loop going; a cleared single-brick board or last level wins with both clocks stopped; otherwise the next level's bricks and clock come in with one resting ball and the field cleared; the score is never touched |
| Campaign.Step | scenes/breakout.py:457-523 | one controller turn keeps the session invariant, never lowers the score, loses at most one life and advances at most one level |
| Campaign.Run | scenes/breakout.py:456-523 | the controller loop keeps the session invariant, never lowers the score or raises the lives, advances at most one level per frame, and a won game (other than the single-brick mode) is past the last level |
| Campaign.Finished | scenes/breakout.py:525-530 | a decided game saves the record with the game clock's reading and hands back the file entry; a quit game saves nothing; the high score never drops |
| Campaign.NormalStart | scenes/breakout.py:369-431 | a normal game starts at level 1 of 5 with three lives, the level-1 bricks and no level clock |
| Campaign.BossClock | scenes/breakout.py:412-421 | among levels 1 to 5 only level 5 has a clock, a 60-second countdown |
| Campaign.LevelProgression | scenes/breakout.py:490-523 | in a normal game a cleared board below level 5 leads to the next level's bricks, and the fifth cleared board wins |
| Campaign.SingleLevelWins | scenes/breakout.py:481-501 | in the single-brick and countdown modes the first cleared board wins |
| Prototype.BlockAt | breakout.py:280-294 | block number `i` is a 60 by 25 block inside the screen, coloured by its row of 17 |
| Prototype.DefineBlocks | breakout.py:261-296 | level 0 gets 68 blocks and every other level one, block `i` at its place in rows of 17 |
| Prototype.BlocksDisjoint | breakout.py:278-293 | no two blocks of a layout overlap |
| Prototype.Start | breakout.py:138-157 | the game starts with three lives, running, the given blocks and a valid ball and paddle |
| Prototype.Walls | breakout.py:159-163 | the ball reverses horizontally at the side walls and vertically at the top, without moving |
| Prototype.Steer | breakout.py:170-177 | the paddle moves at most 5 pixels each way and stays on screen on the 5-pixel grid |
| Prototype.Move | breakout.py:186-187 | a move shorter than the 10-pixel step limit shifts the ball by exactly its velocity, so it travels no more than 10 pixels, and keeps the velocity |
| Prototype.SpeedBelowStep | breakout.py:148-152 | a ball with vertical speed 5 and horizontal speed at most 5.5 moves less than the 10-pixel step limit in a frame |
| Prototype.Paddle | breakout.py:190-201 | only an overlapping paddle changes the ball: the horizontal speed becomes 0.05 per pixel of the ball's offset from the paddle's centre, the vertical speed reverses and the ball sits one pixel above the paddle |
| Prototype.PaddleSpeed | breakout.py:190-201 | a paddle bounce keeps the horizontal speed within 5.5 and the vertical speed's size |
| Prototype.Bounce | breakout.py:206-219 | a ball that was above or below the brick bounces vertically and is put outside the face it struck; otherwise it bounces horizontally, likewise |
| Prototype.Bricks | breakout.py:204-220 | the brick loop never adds bricks and only reverses the ball's speeds |
| Prototype.Misses | breakout.py:204-220 | the blocks kept are blocks of the list the ball box does not overlap |
| Prototype.BricksRemovesHits | breakout.py:204-220 | the loop removes exactly the blocks the ball box overlaps, and with no overlap leaves ball and list untouched |
| Prototype.Advance | breakout.py:158-201 | the first half of a frame keeps the ball and paddle valid, keeps lives and blocks, and stops running exactly on a quit |
| Prototype.BrickPass | breakout.py:203-220 | the brick pass keeps the ball valid, never adds blocks and leaves lives, paddle and running untouched |
| Prototype.Settle | breakout.py:222-244 | at most one life is lost, and an empty wall or the last life stops the game |
| Prototype.Step | breakout.py:158-250 | one loop pass keeps the state valid, loses at most one life, never adds blocks and stops on a quit or an empty wall |
| Prototype.LifeRule | breakout.py:222-240 | a lost ball with lives left restarts from the centre moving down at 5 with the paddle centred; the last life stops the game |
| Prototype.ProtoGame.constructor | breakout.py:129-157 | the game's fields hold the start state around the level's block layout |
| Prototype.ProtoGame.Frame | breakout.py:158-250 | the fields after a frame are the loop pass applied to those before |
| Prototype.ProtoGame.AdvanceBall | breakout.py:158-201 | the fields after the first half of a frame are its specification applied to those before |
| Prototype.ProtoGame.HitBricks | breakout.py:203-220 | the loop over a copy of the block list leaves the fields the brick pass describes |
| Prototype.ProtoGame.CheckBall | breakout.py:222-244 | the fields after the end-of-frame check are its specification applied to those before |
| Breakout.StrikeAll | scenes/breakout.py:1118-1175 | the ball loop of the collision check computes the bricks, debris and balls the strike specification describes, and reports 50 points per brick broken |
| Breakout.BlastAll | scenes/breakout.py:684-720 | the blast loop computes the bricks, debris and surviving blasts the strike specification describes, and reports 50 points per brick broken |
| Breakout.MoveAll | scenes/breakout.py:1037-1059 | the ball loop of `move_ball` computes the kept balls and the last paddle bounce the movement specification describes |
| Breakout.EventLoop | scenes/breakout.py:854-970 | the loop over a frame's events stops at the first one that does something and returns the action the event-loop specification picks |
| Breakout.FindId | scenes/breakout.py:1197 | the search returns the index of the first ball with the identity, or -1, as the specification says |
| Breakout.GameSession.constructor | scenes/breakout.py:349-454 | a new session object holds exactly the set-up session for the mode, the tutorial setting, the records file and the brick art |
| Breakout.GameSession.PauseTimers | scenes/breakout.py:1442-1446 | the object's clocks are both paused and nothing else changes |
| Breakout.GameSession.ResumeTimers | scenes/breakout.py:759-763 | the object's clocks are both resumed and nothing else changes |
| Breakout.GameSession.UpdateTimers | scenes/breakout.py:765-769 | the object's clocks are both updated and nothing else changes |
| Breakout.GameSession.LaunchClocks | scenes/breakout.py:906-916 | the object's clocks are started or resumed as at a launch and nothing else changes |
| Breakout.GameSession.DrawBar | scenes/breakout.py:1239-1285 | the paddle width takes its smoothing step and the returned rectangle is the frame's paddle |
| Breakout.GameSession.ResetAllEffects | scenes/breakout.py:1396-1429 | the object is left in the reset state: one resting ball, centred normal paddle, powers off, field cleared |
| Breakout.GameSession.HandleInput | scenes/breakout.py:849-1032 | the object and the returned flag are the input handling's result |
| Breakout.GameSession.DetectCollision | scenes/breakout.py:580-581 | the object holds the collision check's result, with its points added to the score |
| Breakout.GameSession.AdvanceTutorial | scenes/breakout.py:586-600 | the tutorial clock advances and the tutorial ends at 7500 ms |
| Breakout.GameSession.UpdateParticles | scenes/breakout.py:603-607 | the particles are moved and the dead ones removed |
| Breakout.GameSession.UpdateCoins | scenes/breakout.py:610-614 | the coins fall and those off screen are removed |
| Breakout.GameSession.CatchCoins | scenes/breakout.py:617-622 | the coins the paddle catches are removed and scored |
| Breakout.GameSession.UpdatePowerUps | scenes/breakout.py:625-629 | the pick-ups fall and those off screen are removed |
| Breakout.GameSession.SpawnTripleBall | scenes/breakout.py:1191-1213 | the object holds the tripled ball list |
| Breakout.GameSession.ApplyPower | scenes/breakout.py:636-647 | the object holds the caught pick-up's effect |
| Breakout.GameSession.CollectPowerUps | scenes/breakout.py:632-650 | the pick-ups the paddle overlaps are applied in order and removed |
| Breakout.GameSession.FireBlasts | scenes/breakout.py:653-668 | the gun ticks and its shot, if any, is added to the blasts |
| Breakout.GameSession.TickPaddlePower | scenes/breakout.py:671-674 | the paddle-size timer ticks and the size returns to normal at zero |
| Breakout.GameSession.UpdateBlasts | scenes/breakout.py:677-681 | the blasts rise and those above the field are removed |
| Breakout.GameSession.BlastHits | scenes/breakout.py:684-720 | the object holds the blast strikes' result, with their points added |
| Breakout.GameSession.MoveBall | scenes/breakout.py:1037-1059 | the object and the flag are the ball movement's result |
| Breakout.GameSession.UpdateScoreboard | scenes/breakout.py:1432-1468 | the object and the flag are the life loss's result |
| Breakout.GameSession.Open | scenes/breakout.py:545-575 | the object, rectangle and flag are the frame opening's result |
| Breakout.GameSession.Play | scenes/breakout.py:580-720 | the object holds the middle of the frame's result |
| Breakout.GameSession.Close | scenes/breakout.py:722-769 | the object and status are the frame closing's result |
| Breakout.GameSession.CheckClocks | scenes/breakout.py:736-769 | the object and status are the countdown, pause and clock update's result |
| Breakout.GameSession.GameLoop | scenes/breakout.py:536-781 | the object and status after a frame are the frame specification applied to the state before, so every frame property holds of the object |
| Breakout.GameSession.AfterStatus | scenes/breakout.py:466-523 | the object and the go-on flag are the controller's reaction to the status |
| Breakout.GameSession.Turn | scenes/breakout.py:456-523 | one turn of the controller loop leaves the object and the flag the controller step describes |
| Breakout.GameSession.MainController | scenes/breakout.py:456-523 | the object and the running flag after the loop are the controller run over the inputs |
| Breakout.GameSession.SaveHighScore | scenes/breakout.py:525-530 | the object's score and the returned file entry are the end-of-game save's result |

## Left out

- Rendering is not modelled: the `draw_*` and `show_*` functions, blits, fonts, images, tinting and the FPS display. The image that decides a brick's hit points comes in as a boolean, the square-art flag.
- Sound and music are not modelled: loading, volumes, `play` and `stop`. They are side effects in the audio library.
- File and configuration input and output are not modelled. The records file arrives as its lines, and the save hands back the line or entry it would write. `reset_today_scores_if_new_day` depends on dates and files, so it is left out.
- pygame event polling, `clock.tick` and `pygame.time.wait` become the `Input` of a frame. So does the blocking wait loop of the pause menu: its answer is `Input.resume`. The boss intro's wait for space and `show_level_complete` only draw and wait, so they are left out.
- Floating-point rounding is not modelled. Ball, particle and paddle arithmetic uses exact reals. pygame's `Rect` of floats is modelled as truncation toward zero.
- The two `random.random` draws, the drop roll and the particle spark, come in through `Dice` and are not modelled as random.
- Time is not modelled as flowing: one `now` reading serves a whole frame, and the frame length arrives in `Input.dt`.
- `Timer.update`'s assignment to `breakout.running` is not modelled, because nothing the game loop reads depends on it.
- Ball identity: the source compares ball dictionaries by value in `last_hit_ball in balls`. The model gives every ball an identity and compares identities, so two balls with equal position and velocity are still different balls.
- The module globals and the lists `main_controller` owns are not separate variables. They are held as one frame-state record in `GameSession.game`.
- `draw_bar.width` and `last_hit_ball` survive from one game to the next in the source, because `init` does not reset them. The model starts every game with the resting paddle and no last hit.
- `debug_countdown_mode` is a global that only the two single-level modes set. The model derives it from the session's own mode. They differ only at level 0, which only those two modes reach.
- `end_screen` is modelled on its own in `win_lose.dfy`. `GameSession.SaveHighScore` takes its initials as a parameter, so the replay choice and the call from `main_controller` are not modelled.
- The `play` wrapper, `init`'s image loading, the mouse-visibility settings and the FPS toggle are not modelled. None of them changes game state.
- The controller loop runs over a finite list of frame inputs. A session that goes on forever is modelled by its finite prefixes.
- Not part of this model: `scenes/flappy.py`, which depends on a pipe module that is not shown; `main.py`; the menu, how-to, tutorial-overlay, loading and pause-overlay screens; and `common.py` except its colour table.
- Prototype.Move: models `move_towards_ip` only for moves within its 10-pixel step limit. `Prototype.SpeedBelowStep` proves that every valid ball's move stays within that limit, so the limit never applies.
- Text.ParseInt: covers white space, an optional sign and ASCII decimal digits. Python's `int` also accepts `_` between digits and non-ASCII decimal digits; these are read as errors here. The program's own writes, `str(int)`, stay inside the modelled subset.
- Text.ParseFloat: covers plain decimals with an optional sign and fraction. Python's `float` also accepts exponents such as `1e5`, `inf` and `nan`; these are read as errors here. The program's own writes stay inside the modelled subset: the `:.2f` times of the score lines, and the `str(float)` best time of the records file whenever it is 0 or at least 0.0001 seconds.
- Text.Upper: capitalises ASCII letters only. Python's `str.upper` also maps other letters, such as é to É and ß to SS. The initials the program accepts are A–Z letters typed on the end screen, so they stay inside the modelled subset.
- Text.Split: its own contract gives only the shape of the fields. Which fields come out is stated by `Text.SplitJoin`, `Text.SplitFirst`, `Text.SplitSpaced` and `Text.SplitBlank`: the maximal non-space runs of the text, in order.
- Debris.BallsStrike: states only that every ball is kept. What each ball does is stated by `Debris.BallStrikeKeepsBall` and `Debris.BallsStrikeCounts`.

## Findings

| source | as written | input that shows it | evidently intended | confidence | as-written member | corrected member |
|---|---|---|---|---|---|---|
| scenes/win_lose.py:168-186 | RETURN with non-empty initials sets the result, but the rest of the frame's event batch is still applied to it | the keys `a`, RETURN, BACKSPACE arriving in one frame return the empty initials "" (`EndScreens.EmptyInitialsAsWritten`); `EndScreens.GetPlayerInitials` is proved to return one to three letters | the returned initials are one to three letters, fixed when RETURN is pressed | not executed | EndScreens.InitialsAsWritten | EndScreens.Initials |
