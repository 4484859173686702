/** Score, lives and the best-score record kept in the records file. The
    files themselves are outside the model: loading takes the file's lines,
    saving returns the history entry it would append. */
module Scores {
  import opened Wrappers
  import opened Text

  datatype ScoreState = ScoreState(score: int, highScore: int, bestTime: real, lives: int)

  const StartingLives: int := 3

  /** The counters before the records file is read. */
  const Fresh: ScoreState := ScoreState(0, 0, 0.0, StartingLives)

  function Scored(s: ScoreState, points: int): (s': ScoreState)
    ensures s'.score == s.score + points
    ensures s' == s.(score := s'.score)
  {
    s.(score := s.score + points)
  }

  function LifeLost(s: ScoreState): (s': ScoreState)
    ensures s'.lives == s.lives - 1
    ensures s' == s.(lives := s'.lives)
  {
    s.(lives := s.lives - 1)
  }

  /** `reset()`: a new run; the record is kept. */
  function ResetRun(s: ScoreState): (s': ScoreState)
    ensures s'.score == Fresh.score && s'.lives == Fresh.lives
    ensures s'.highScore == s.highScore && s'.bestTime == s.bestTime
  {
    s.(score := 0, lives := StartingLives)
  }

  /** The record rule of `save_high_score`: a higher score takes the record
      with its time; an equal score keeps the faster time, and a stored time
      of 0 always gives way. Returns the new high score and best time. */
  function Record(highScore: int, bestTime: real, score: int, time: real): (r: (int, real))
    ensures score > highScore ==> r == (score, time)
    ensures score < highScore ==> r == (highScore, bestTime)
    ensures score == highScore ==>
      r == (highScore, if bestTime == 0.0 || time < bestTime then time else bestTime)
  {
    if score > highScore then (score, time)
    else if score == highScore && (bestTime == 0.0 || time < bestTime) then (highScore, time)
    else (highScore, bestTime)
  }

  /** The high score only ever rises, to the larger of the two scores; an
      equal score never makes a nonzero best time slower. */
  lemma RecordMonotone(highScore: int, bestTime: real, score: int, time: real)
    ensures var r := Record(highScore, bestTime, score, time);
      r.0 >= highScore && r.0 >= score && (r.0 == highScore || r.0 == score) &&
      (score == highScore && bestTime != 0.0 ==> r.1 <= bestTime)
  {
  }

  /** Saving the same run twice changes nothing the second time. */
  lemma RecordIdempotent(highScore: int, bestTime: real, score: int, time: real)
    ensures var r := Record(highScore, bestTime, score, time);
      Record(r.0, r.1, score, time) == r
  {
  }

  /** The initials written with a score: `(initials or "").strip().upper()`,
      and `"AAA"` when nothing is left. */
  function NormalizeInitials(initials: Option<string>): (s: string)
    ensures s != [] && HasNoLower(s)
    ensures initials == None || Strip(initials.value) == [] ==> s == "AAA"
    ensures initials.Some? && Strip(initials.value) != [] ==> s == Upper(Strip(initials.value))
  {
    var raw := if initials.Some? then initials.value else "";
    var t := Upper(Strip(raw));
    if t == [] then "AAA" else t
  }

  /** One line of the score history: initials, score and time. */
  datatype Entry = Entry(initials: string, score: int, time: real)

  /** The history entry `save_high_score` appends; a missing time is 0. */
  function SavedEntry(s: ScoreState, initials: Option<string>, currentTime: Option<real>): (e: Entry)
    ensures e.initials == NormalizeInitials(initials) && e.score == s.score
    ensures e.time == currentTime.GetOr(0.0)
  {
    Entry(NormalizeInitials(initials), s.score, currentTime.GetOr(0.0))
  }

  /** The counters after `save_high_score`. */
  function Saved(s: ScoreState, currentTime: Option<real>): (s': ScoreState)
    ensures (s'.highScore, s'.bestTime) == Record(s.highScore, s.bestTime, s.score, currentTime.GetOr(0.0))
    ensures s'.score == s.score && s'.lives == s.lives
  {
    var r := Record(s.highScore, s.bestTime, s.score, currentTime.GetOr(0.0));
    s.(highScore := r.0, bestTime := r.1)
  }

  /** `load_high_score` over the lines of the records file: the first line
      is the high score, the second the best time; a line that does not
      parse gives 0 (or 0.0), and a missing line keeps the current value. */
  function Loaded(s: ScoreState, lines: seq<string>): (s': ScoreState)
    ensures s'.score == s.score && s'.lives == s.lives
    ensures |lines| == 0 ==> s'.highScore == s.highScore
    ensures |lines| >= 1 ==> s'.highScore == ParseInt(Strip(lines[0])).GetOr(0)
    ensures |lines| < 2 ==> s'.bestTime == s.bestTime
    ensures |lines| >= 2 ==> s'.bestTime == ParseFloat(Strip(lines[1])).GetOr(0.0)
  {
    var high := if |lines| >= 1 then ParseInt(Strip(lines[0])).GetOr(0) else s.highScore;
    var best := if |lines| >= 2 then ParseFloat(Strip(lines[1])).GetOr(0.0) else s.bestTime;
    s.(highScore := high, bestTime := best)
  }

  /** The first line the records file gets back reads as the high score. */
  lemma RecordLineRoundTrip(s: ScoreState, highScore: int)
    ensures Loaded(s, [ShowInt(highScore)]).highScore == highScore
  {
    ParseShowInt(highScore);
    StripNoSpace(ShowInt(highScore));
  }

  /** The record comparison of `save_high_score`: a higher score replaces
      the record with its time; an equal one keeps the faster nonzero time. */
  method NewRecord(highScore: int, bestTime: real, score: int, time: real) returns (h: int, b: real)
    ensures (h, b) == Record(highScore, bestTime, score, time)
  {
    h, b := highScore, bestTime;
    if score > highScore {
      h := score;
      b := time;
    } else if score == highScore {
      if bestTime == 0.0 || time < bestTime {
        b := time;
      }
    }
  }

  /** The `ScoreBoard` object. */
  class ScoreBoard {
    var score: int
    var highScore: int
    var bestTime: real
    var lives: int

    function State(): ScoreState
      reads this
    {
      ScoreState(score, highScore, bestTime, lives)
    }

    /** The counters start fresh and then read the records file, given as
        its lines (a missing file reads as `"0\n0.0"`). */
    constructor (records: seq<string>)
      ensures State() == Loaded(Fresh, records)
    {
      score, highScore, bestTime, lives := 0, 0, 0.0, StartingLives;
      new;
      LoadHighScore(records);
    }

    method AddPoints(points: int)
      modifies this
      ensures State() == Scored(old(State()), points)
    {
      score := score + points;
    }

    method LoseLife()
      modifies this
      ensures State() == LifeLost(old(State()))
    {
      lives := lives - 1;
    }

    method Reset()
      modifies this
      ensures State() == ResetRun(old(State()))
    {
      score := 0;
      lives := StartingLives;
    }

    method LoadHighScore(lines: seq<string>)
      modifies this
      ensures State() == Loaded(old(State()), lines)
    {
      ghost var s0 := State();
      if |lines| >= 1 {
        highScore := ParseInt(Strip(lines[0])).GetOr(0);
      }
      if |lines| >= 2 {
        bestTime := ParseFloat(Strip(lines[1])).GetOr(0.0);
      }
      assert State() == s0.(highScore := highScore, bestTime := bestTime);
    }

    /** Updates the record and returns the history entry written. */
    method SaveHighScore(currentTime: Option<real>, initials: Option<string>) returns (entry: Entry)
      modifies this
      ensures entry == SavedEntry(old(State()), initials, currentTime)
      ensures State() == Saved(old(State()), currentTime)
    {
      ghost var s0 := State();
      var time := if currentTime.Some? then currentTime.value else 0.0;
      var h, b := NewRecord(highScore, bestTime, score, time);
      assert (h, b) == Record(s0.highScore, s0.bestTime, s0.score, currentTime.GetOr(0.0));
      highScore, bestTime := h, b;
      assert State() == ScoreState(s0.score, h, b, s0.lives);
      entry := Entry(NormalizeInitials(initials), score, time);
    }
  }
}
