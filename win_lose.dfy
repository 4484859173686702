/** The end screen: the sound-volume setting, the initials entry buffer and
    the typewriter title with its YES/NO selection. Key codes are pygame's;
    events, the clock and the config file are inputs. */
module EndScreens {
  import opened Wrappers
  import opened Geometry
  import opened Text

  const KeyBackspace: int := 8
  const KeyReturn: int := 13
  const KeyA: int := 97
  const KeyD: int := 100
  const KeyZ: int := 122
  const KeyRight: int := 1073741903
  const KeyLeft: int := 1073741904

  // ---------- sound volume ----------

  /** The JSON values a config entry can hold (arrays and objects are
      `JOther`). */
  datatype Json = JInt(i: int) | JReal(r: real) | JStr(s: string) | JBool(b: bool) | JNull | JOther

  /** Python's `int(value)`, `None` where it raises. */
  function JsonToInt(v: Json): Option<int>
  {
    match v
    case JInt(i) => Some(i)
    case JReal(r) => Some(Trunc(r))
    case JStr(s) => ParseInt(s)
    case JBool(b) => Some(if b then 1 else 0)
    case JNull => None
    case JOther => None
  }

  /** `int(value)` fails exactly on null, other containers and strings
      that are not integers; it keeps integers, truncates reals toward zero
      and reads booleans as 0 and 1. */
  lemma JsonToIntCases(v: Json)
    ensures JsonToInt(v) == None <==> v == JNull || v == JOther || (v.JStr? && ParseInt(v.s) == None)
    ensures v.JInt? ==> JsonToInt(v) == Some(v.i)
    ensures v.JReal? && v.r >= 0.0 ==> JsonToInt(v).value as real <= v.r < JsonToInt(v).value as real + 1.0
    ensures v.JReal? && v.r < 0.0 ==> JsonToInt(v).value as real - 1.0 < v.r <= JsonToInt(v).value as real
    ensures v.JBool? ==> JsonToInt(v) == Some(if v.b then 1 else 0)
  {
  }

  /** `current_sfx_volume`. `config` is the parsed config object, or `None`
      when the file cannot be read or is not an object. */
  function SfxVolume(config: Option<map<string, Json>>): (v: real)
    ensures 0.0 <= v <= 1.0
    ensures (v * 5.0).Floor as real == v * 5.0
    ensures config == None ==> v == 1.0
    ensures config.Some? && "sound_volume" !in config.value ==> v == 1.0
    ensures config.Some? && "sound_volume" in config.value ==>
      var n := JsonToInt(config.value["sound_volume"]);
      v == if n == None then 1.0 else Max(0, Min(5, n.value)) as real / 5.0
  {
    if config == None then 1.0
    else
      var raw := if "sound_volume" in config.value then config.value["sound_volume"] else JInt(5);
      var level := JsonToInt(raw).GetOr(5);
      var clamped := Max(0, Min(5, level));
      clamped as real / 5.0
  }

  // ---------- initials entry ----------

  datatype Event = KeyDown(key: int) | Quit | Other

  predicate IsLetterKey(key: int) { KeyA <= key <= KeyZ }

  /** `chr(key).upper()` for a letter key. */
  function KeyLetter(key: int): (c: char)
    requires IsLetterKey(key)
    ensures 'A' <= c <= 'Z'
  {
    UpperChar(key as char)
  }

  predicate IsInitials(s: string)
  {
    |s| <= 3 && forall i :: 0 <= i < |s| ==> 'A' <= s[i] <= 'Z'
  }

  /** One key press in the initials loop: RETURN finishes when something
      has been typed, BACKSPACE drops the last letter, a letter is added
      while there are fewer than three. Returns the buffer and whether the
      loop goes on. */
  function EditInitials(initials: string, key: int): (r: (string, bool))
    ensures key == KeyReturn && initials != [] ==> r == (initials, false)
    ensures key == KeyBackspace ==> r == (if initials == [] then [] else initials[..|initials| - 1], true)
    ensures IsLetterKey(key) && |initials| < 3 ==> r == (initials + [KeyLetter(key)], true)
    ensures IsInitials(initials) ==> IsInitials(r.0)
    ensures !r.1 ==> r.0 != []
  {
    if key == KeyReturn && initials != [] then (initials, false)
    else if key == KeyBackspace then (if initials == [] then [] else initials[..|initials| - 1], true)
    else if IsLetterKey(key) && |initials| < 3 then (initials + [KeyLetter(key)], true)
    else (initials, true)
  }

  /** How the initials loop ended: with initials, by the window closing
      (the program exits), or still waiting for input when the frames
      given run out. */
  datatype EntryOutcome = Entered(initials: string) | Exited | Waiting(buffer: string)

  /** One frame's events as the source handles them: the whole batch is
      processed even after RETURN has ended entry. Returns `None` when the
      window is closed, else the buffer and whether entry goes on. */
  function FrameAsWritten(initials: string, entering: bool, events: seq<Event>): (r: Option<(string, bool)>)
    ensures r.Some? && IsInitials(initials) ==> IsInitials(r.value.0)
    ensures r.Some? && !entering ==> !r.value.1
    decreases |events|
  {
    if events == [] then Some((initials, entering))
    else
      match events[0]
      case Quit => None
      case Other => FrameAsWritten(initials, entering, events[1..])
      case KeyDown(key) =>
        var e := EditInitials(initials, key);
        FrameAsWritten(e.0, entering && e.1, events[1..])
  }

  /** `get_player_initials` as written, over the frames of events. */
  function InitialsAsWritten(initials: string, frames: seq<seq<Event>>): (r: EntryOutcome)
    ensures IsInitials(initials) && r.Entered? ==> IsInitials(r.initials)
    decreases |frames|
  {
    if frames == [] then Waiting(initials)
    else
      match FrameAsWritten(initials, true, frames[0])
      case None => Exited
      case Some((s, entering)) =>
        if entering then InitialsAsWritten(s, frames[1..]) else Entered(s)
  }

  /** Typing `a`, RETURN and BACKSPACE within one frame ends entry with
      nothing typed: the BACKSPACE after RETURN is still applied. */
  lemma EmptyInitialsAsWritten()
    ensures InitialsAsWritten([], [[KeyDown(KeyA), KeyDown(KeyReturn), KeyDown(KeyBackspace)]]) == Entered([])
  {
    var f := [KeyDown(KeyA), KeyDown(KeyReturn), KeyDown(KeyBackspace)];
    assert KeyA as char == 'a';
    var a := [KeyLetter(KeyA)];
    assert IsLetterKey(KeyA);
    assert [] + a == a;
    assert EditInitials([], KeyA) == (a, true);
    assert EditInitials(a, KeyReturn) == (a, false);
    assert EditInitials(a, KeyBackspace) == ([], true);
    assert f[1..] == [KeyDown(KeyReturn), KeyDown(KeyBackspace)];
    assert f[1..][1..] == [KeyDown(KeyBackspace)];
    assert FrameAsWritten([], false, []) == Some(([], false));
    assert FrameAsWritten(a, false, f[1..][1..]) == Some(([], false));
    assert FrameAsWritten(a, true, f[1..]) == Some(([], false));
    assert FrameAsWritten([], true, f) == Some(([], false));
  }

  /** One frame's events with entry ending at the RETURN that finishes it:
      later events of the frame are not applied. */
  function Frame(initials: string, events: seq<Event>): (r: Option<(string, bool)>)
    ensures r.Some? && IsInitials(initials) ==> IsInitials(r.value.0)
    ensures r.Some? && !r.value.1 ==> r.value.0 != []
    decreases |events|
  {
    if events == [] then Some((initials, true))
    else
      match events[0]
      case Quit => None
      case Other => Frame(initials, events[1..])
      case KeyDown(key) =>
        var e := EditInitials(initials, key);
        if e.1 then Frame(e.0, events[1..]) else Some(e)
  }

  /** The initials loop, ending entry at the RETURN that finishes it. */
  function Initials(initials: string, frames: seq<seq<Event>>): (r: EntryOutcome)
    ensures IsInitials(initials) && r.Entered? ==> IsInitials(r.initials) && r.initials != []
    ensures IsInitials(initials) && r.Waiting? ==> IsInitials(r.buffer)
    decreases |frames|
  {
    if frames == [] then Waiting(initials)
    else
      match Frame(initials, frames[0])
      case None => Exited
      case Some((s, entering)) =>
        if entering then Initials(s, frames[1..]) else Entered(s)
  }

  /** `get_player_initials`: frame by frame, event by event, until entry
      ends. The returned initials are one to three capital letters. */
  method GetPlayerInitials(frames: seq<seq<Event>>) returns (r: EntryOutcome)
    ensures r == Initials([], frames)
    ensures r.Entered? ==> 1 <= |r.initials| <= 3 && IsInitials(r.initials)
  {
    var initials: string := [];
    var f := 0;
    while f < |frames|
      invariant 0 <= f <= |frames|
      invariant IsInitials(initials)
      invariant Initials([], frames) == Initials(initials, frames[f..])
    {
      var events := frames[f];
      ghost var start := initials;
      var k := 0;
      while k < |events|
        invariant 0 <= k <= |events|
        invariant IsInitials(initials)
        invariant Frame(start, events) == Frame(initials, events[k..])
      {
        match events[k] {
          case Quit =>
            return Exited;
          case Other =>
          case KeyDown(key) =>
            var e := EditInitials(initials, key);
            if !e.1 {
              return Entered(e.0);
            }
            initials := e.0;
        }
        k := k + 1;
      }
      f := f + 1;
    }
    return Waiting(initials);
  }

  // ---------- typewriter title and YES/NO selection ----------

  const LetterDelay: int := 40
  const AnimationSpeed: real := 0.15
  const FadeSpeed: int := 40

  datatype Choice = Yes | No

  datatype EndState = EndState(
    fullText: string,
    letterStates: seq<real>,
    lastLetterTime: int,
    typewriterDone: bool,
    buttonsAlpha: int,
    selected: Choice)

  predicate Complete(states: seq<real>)
  {
    forall i :: 0 <= i < |states| ==> states[i] >= 1.0
  }

  /** At most one state per letter, each in `[0, 1]`; the alpha in
      `[0, 255]`; and the typewriter is only done once every letter is. */
  predicate ValidEnd(e: EndState)
  {
    |e.letterStates| <= |e.fullText| &&
    (forall i :: 0 <= i < |e.letterStates| ==> 0.0 <= e.letterStates[i] <= 1.0) &&
    0 <= e.buttonsAlpha <= 255 &&
    (e.typewriterDone ==> |e.letterStates| == |e.fullText| && Complete(e.letterStates))
  }

  /** The screen as `end_screen` sets it up at time `now`. */
  function NewEnd(win: bool, now: int): (e: EndState)
    ensures ValidEnd(e) && e.letterStates == [] && e.selected == Yes && e.buttonsAlpha == 0
    ensures e.fullText == if win then "YOU WIN!" else "GAME OVER"
  {
    EndState(if win then "YOU WIN!" else "GAME OVER", [], now, false, 0, Yes)
  }

  /** One letter's fade-in step, capped at 1. */
  function Grow(x: real): (y: real)
    ensures x < 1.0 ==> y == MinR(x + AnimationSpeed, 1.0)
    ensures x >= 1.0 ==> y == x
  {
    if x < 1.0 then (if x + AnimationSpeed > 1.0 then 1.0 else x + AnimationSpeed) else x
  }

  function GrowAll(s: seq<real>): (r: seq<real>)
    ensures |r| == |s| && forall i :: 0 <= i < |s| ==> r[i] == Grow(s[i])
  {
    if s == [] then [] else [Grow(s[0])] + GrowAll(s[1..])
  }

  /** The typewriter part of one frame at time `now`: a new letter once
      more than 40 ms have passed, every letter faded in a step, and once
      all are shown the buttons fade in by 40 up to 255. */
  function Animated(e: EndState, now: int): (e': EndState)
    ensures ValidEnd(e) ==> ValidEnd(e')
    ensures |e.letterStates| <= |e'.letterStates| <= |e.letterStates| + 1
    ensures forall i :: 0 <= i < |e.letterStates| ==> e'.letterStates[i] == Grow(e.letterStates[i])
    ensures e.buttonsAlpha <= e'.buttonsAlpha && e'.selected == e.selected && e'.fullText == e.fullText
    ensures e.typewriterDone ==> e'.typewriterDone
  {
    var add := |e.letterStates| < |e.fullText| && now - e.lastLetterTime > LetterDelay;
    var states := if add then e.letterStates + [0.0] else e.letterStates;
    var last := if add then now else e.lastLetterTime;
    var grown := GrowAll(states);
    if |grown| == |e.fullText| && Complete(grown) then
      var alpha := if e.buttonsAlpha < 255 then Min(e.buttonsAlpha + FadeSpeed, 255) else e.buttonsAlpha;
      e.(letterStates := grown, lastLetterTime := last, typewriterDone := true, buttonsAlpha := alpha)
    else
      e.(letterStates := grown, lastLetterTime := last)
  }

  /** Once the title and buttons are fully shown, frames change nothing. */
  lemma FinishedIsStable(e: EndState, now: int)
    requires ValidEnd(e) && e.typewriterDone && e.buttonsAlpha == 255
    ensures Animated(e, now) == e
  {
    assert GrowAll(e.letterStates) == e.letterStates;
  }

  function AllShown(n: nat): (r: seq<real>)
    ensures |r| == n && Complete(r) && forall i :: 0 <= i < n ==> r[i] == 1.0
  {
    if n == 0 then [] else AllShown(n - 1) + [1.0]
  }

  /** A key press: before the title and buttons are fully shown it skips
      the animation; afterwards left/`a` selects YES and right/`d` NO. */
  function KeyPressed(e: EndState, key: int): (e': EndState)
    ensures ValidEnd(e) ==> ValidEnd(e')
    ensures !e.typewriterDone || e.buttonsAlpha < 255 ==>
      e' == e.(letterStates := AllShown(|e.fullText|), typewriterDone := true, buttonsAlpha := 255)
    ensures e.typewriterDone && e.buttonsAlpha >= 255 ==>
      e' == e.(selected := if key == KeyLeft || key == KeyA then Yes
                           else if key == KeyRight || key == KeyD then No
                           else e.selected)
  {
    if !e.typewriterDone || e.buttonsAlpha < 255 then
      e.(letterStates := AllShown(|e.fullText|), typewriterDone := true, buttonsAlpha := 255)
    else if key == KeyLeft || key == KeyA then e.(selected := Yes)
    else if key == KeyRight || key == KeyD then e.(selected := No)
    else e
  }

  /** Whatever the state, a second key press is read as a selection. */
  lemma SecondKeySelects(e: EndState, first: int)
    ensures KeyPressed(KeyPressed(e, first), KeyLeft).selected == Yes
    ensures KeyPressed(KeyPressed(e, first), KeyRight).selected == No
  {
  }

  /** The fade-in loop over the letters. */
  method GrowLetters(s: seq<real>) returns (states: seq<real>)
    ensures states == GrowAll(s)
  {
    states := s;
    var i := 0;
    while i < |states|
      invariant 0 <= i <= |states| == |s|
      invariant forall j :: 0 <= j < i ==> states[j] == Grow(s[j])
      invariant forall j :: i <= j < |states| ==> states[j] == s[j]
    {
      if states[i] < 1.0 {
        states := states[i := states[i] + AnimationSpeed];
        if states[i] > 1.0 {
          states := states[i := 1.0];
        }
      }
      i := i + 1;
    }
  }

  /** `all(s >= 1 for s in letter_states)`. */
  method AllShownYet(s: seq<real>) returns (allDone: bool)
    ensures allDone == Complete(s)
  {
    allDone := true;
    var k := 0;
    while k < |s|
      invariant 0 <= k <= |s|
      invariant allDone <==> forall j :: 0 <= j < k ==> s[j] >= 1.0
    {
      allDone := allDone && s[k] >= 1.0;
      k := k + 1;
    }
  }

  /** The state `end_screen` keeps between frames. */
  class EndScreen {
    var fullText: string
    var letterStates: seq<real>
    var lastLetterTime: int
    var typewriterDone: bool
    var buttonsAlpha: int
    var selected: Choice

    function State(): EndState
      reads this
    {
      EndState(fullText, letterStates, lastLetterTime, typewriterDone, buttonsAlpha, selected)
    }

    constructor (win: bool, now: int)
      ensures State() == NewEnd(win, now)
    {
      fullText := if win then "YOU WIN!" else "GAME OVER";
      letterStates, lastLetterTime, typewriterDone := [], now, false;
      buttonsAlpha, selected := 0, Yes;
    }

    /** The typewriter step of one frame. */
    method Animate(now: int)
      modifies this
      ensures State() == Animated(old(State()), now)
    {
      if |letterStates| < |fullText| && now - lastLetterTime > LetterDelay {
        letterStates := letterStates + [0.0];
        lastLetterTime := now;
      }
      var states := GrowLetters(letterStates);
      letterStates := states;
      var allDone := AllShownYet(states);
      if |states| == |fullText| && allDone {
        typewriterDone := true;
        if buttonsAlpha < 255 {
          buttonsAlpha := buttonsAlpha + FadeSpeed;
          if buttonsAlpha > 255 {
            buttonsAlpha := 255;
          }
        }
      }
    }

    method KeyDown(key: int)
      modifies this
      ensures State() == KeyPressed(old(State()), key)
    {
      if !typewriterDone || buttonsAlpha < 255 {
        letterStates := AllShown(|fullText|);
        typewriterDone := true;
        buttonsAlpha := 255;
      } else if key == KeyLeft || key == KeyA {
        selected := Yes;
      } else if key == KeyRight || key == KeyD {
        selected := No;
      }
    }
  }
}
