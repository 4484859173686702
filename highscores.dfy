/** The high-score table: reading score lines, ordering them best first
    and keeping the top ten, and the `MM:SS` time format. */
module HighScores {
  import opened Wrappers
  import opened Geometry
  import opened Text

  datatype Score = Score(initials: string, score: int, time: real)

  /** What one line of a scores file contributes: nothing (it does not
      have exactly three fields), an entry, or a `ValueError` because the
      score or time field is not a number. */
  datatype LineResult = Skip | Row(entry: Score) | Fails

  function ParseLine(line: string): (r: LineResult)
    ensures r.Row? ==> HasNoLower(r.entry.initials)
    ensures |Split(Strip(line))| != 3 <==> r == Skip
  {
    var parts := Split(Strip(line));
    if |parts| != 3 then Skip
    else
      match (ParseInt(parts[1]), ParseFloat(parts[2]))
      case (Some(score), Some(time)) =>
        UpperHasNoLower(parts[0]);
        Row(Score(Upper(parts[0]), score, time))
      case _ => Fails
  }

  /** All entries of `lines` in file order, or `None` if some line raises. */
  function ParseLines(lines: seq<string>): Option<seq<Score>>
  {
    if lines == [] then Some([])
    else
      var prev := ParseLines(lines[..|lines| - 1]);
      if prev.None? then None
      else
        match ParseLine(lines[|lines| - 1])
        case Skip => prev
        case Row(e) => Some(prev.value + [e])
        case Fails => None
  }

  /** The entries read are no more than the lines, all with uppercase
      initials. */
  lemma {:induction false} ParsedEntries(lines: seq<string>)
    ensures ParseLines(lines).Some? ==>
      var rows := ParseLines(lines).value;
      |rows| <= |lines| && forall k :: 0 <= k < |rows| ==> HasNoLower(rows[k].initials)
    decreases |lines|
  {
    if lines != [] {
      var n := |lines| - 1;
      ParsedEntries(lines[..n]);
      var prev := ParseLines(lines[..n]);
      var row := ParseLine(lines[n]);
      if prev.Some? && row.Row? {
        var rows := ParseLines(lines).value;
        assert rows == prev.value + [row.entry];
        forall k | 0 <= k < |rows|
          ensures HasNoLower(rows[k].initials)
        {
          if k < |prev.value| {
            assert rows[k] == prev.value[k];
          }
        }
      }
    }
  }

  /** `a` sorts strictly before `b` under the key `(-score, time)`. */
  predicate Precedes(a: Score, b: Score)
  {
    a.score > b.score || (a.score == b.score && a.time < b.time)
  }

  predicate SameKey(a: Score, b: Score)
  {
    a.score == b.score && a.time == b.time
  }

  /** Best first: no later entry sorts strictly before an earlier one. */
  predicate Ordered(s: seq<Score>)
  {
    forall i, j :: 0 <= i < j < |s| ==> !Precedes(s[j], s[i])
  }

  /** The entries of `s` whose key equals that of `k`, in order. */
  function WithKey(s: seq<Score>, k: Score): (r: seq<Score>)
    ensures |r| <= |s|
  {
    if s == [] then []
    else (if SameKey(s[0], k) then [s[0]] else []) + WithKey(s[1..], k)
  }

  /** Insert `x` in front of the first entry that does not sort strictly
      before it, so it stays ahead of entries with an equal key. */
  function Insert(x: Score, s: seq<Score>): (r: seq<Score>)
    ensures multiset(r) == multiset(s) + multiset{x}
    ensures Ordered(s) ==> Ordered(r)
  {
    if s == [] then [x]
    else if Precedes(s[0], x) then
      var t := Insert(x, s[1..]);
      assert s == [s[0]] + s[1..];
      InsertOrdered(x, s, t);
      [s[0]] + t
    else
      FrontOrdered(x, s);
      [x] + s
  }

  /** Entry `x` may go in front of an ordered `s` that it does not sort
      after. */
  lemma FrontOrdered(x: Score, s: seq<Score>)
    requires s != [] ==> !Precedes(s[0], x)
    ensures Ordered(s) ==> Ordered([x] + s)
  {
    if Ordered(s) {
      forall j | 0 <= j < |s| ensures !Precedes(s[j], x) {
        if j > 0 {
          assert !Precedes(s[j], s[0]);
        }
      }
    }
  }

  /** `s[0]` may stay in front of `x` inserted into the rest of `s`. */
  lemma InsertOrdered(x: Score, s: seq<Score>, t: seq<Score>)
    requires s != [] && Precedes(s[0], x)
    requires multiset(t) == multiset(s[1..]) + multiset{x}
    requires Ordered(s) ==> Ordered(t)
    ensures Ordered(s) ==> Ordered([s[0]] + t)
  {
    if Ordered(s) {
      forall j | 0 <= j < |t| ensures !Precedes(t[j], s[0]) {
        assert t[j] in multiset(t);
        if t[j] != x {
          assert t[j] in multiset(s[1..]);
          var m :| 0 <= m < |s| - 1 && s[1..][m] == t[j];
          assert s[m + 1] == t[j];
        }
      }
    }
  }

  /** `list.sort(key=lambda x: (-x[1], x[2]))`: a stable sort. */
  function SortScores(s: seq<Score>): (r: seq<Score>)
    ensures multiset(r) == multiset(s) && Ordered(r) && |r| == |s|
  {
    if s == [] then []
    else
      assert s == [s[0]] + s[1..];
      Insert(s[0], SortScores(s[1..]))
  }

  lemma WithKeyCons(a: Score, t: seq<Score>, k: Score)
    ensures WithKey([a] + t, k) == (if SameKey(a, k) then [a] else []) + WithKey(t, k)
  {
    assert ([a] + t)[1..] == t;
  }

  lemma {:induction false} WithKeyInsert(x: Score, s: seq<Score>, k: Score)
    ensures WithKey(Insert(x, s), k) ==
      (if SameKey(x, k) then [x] + WithKey(s, k) else WithKey(s, k))
  {
    if s == [] {
      WithKeyCons(x, [], k);
    } else if Precedes(s[0], x) {
      WithKeyInsert(x, s[1..], k);
      WithKeyPassed(x, s, k);
    } else {
      assert Insert(x, s) == [x] + s;
      WithKeyCons(x, s, k);
    }
  }

  /** The step of `WithKeyInsert` where `x` moves past `s[0]`. */
  lemma WithKeyPassed(x: Score, s: seq<Score>, k: Score)
    requires s != [] && Precedes(s[0], x)
    requires WithKey(Insert(x, s[1..]), k) ==
      (if SameKey(x, k) then [x] + WithKey(s[1..], k) else WithKey(s[1..], k))
    ensures WithKey(Insert(x, s), k) ==
      (if SameKey(x, k) then [x] + WithKey(s, k) else WithKey(s, k))
  {
    var t := Insert(x, s[1..]);
    assert Insert(x, s) == [s[0]] + t;
    WithKeyCons(s[0], t, k);
    WithKeyCons(s[0], s[1..], k);
    assert [s[0]] + s[1..] == s;
    if SameKey(x, k) {
      // `s[0]` sorts strictly before `x`, so it cannot share `x`'s key
      assert !SameKey(s[0], k);
      assert WithKey(s, k) == WithKey(s[1..], k);
      assert WithKey(Insert(x, s), k) == WithKey(t, k) == [x] + WithKey(s, k);
    } else if SameKey(s[0], k) {
      assert WithKey(s, k) == [s[0]] + WithKey(s[1..], k);
      assert WithKey(Insert(x, s), k) == [s[0]] + WithKey(t, k) == WithKey(s, k);
    } else {
      assert WithKey(s, k) == WithKey(s[1..], k);
      assert WithKey(Insert(x, s), k) == WithKey(t, k) == WithKey(s, k);
    }
  }

  /** The sort is stable: entries with equal keys keep their file order. */
  lemma {:induction false} SortStable(s: seq<Score>, k: Score)
    ensures WithKey(SortScores(s), k) == WithKey(s, k)
  {
    if s != [] {
      SortStable(s[1..], k);
      WithKeyInsert(s[0], SortScores(s[1..]), k);
    }
  }

  const TopCount: int := 10

  /** `load_scores` over the file's lines (a missing file has none). */
  function TopScores(lines: seq<string>): Option<seq<Score>>
  {
    match ParseLines(lines)
    case None => None
    case Some(rows) =>
      var sorted := SortScores(rows);
      Some(sorted[..Min(TopCount, |sorted|)])
  }

  /** The table shows at most ten entries, best first; no entry left out
      is better than one shown, and the shown ones are exactly the ten
      best of the file in stable order. */
  lemma TopScoresProperties(lines: seq<string>)
    requires ParseLines(lines).Some?
    ensures var top := TopScores(lines).value;
      var rows := ParseLines(lines).value;
      var sorted := SortScores(rows);
      |top| == Min(TopCount, |rows|) && Ordered(top) && top == sorted[..|top|] &&
      (forall i, j :: 0 <= i < |top| <= j < |sorted| ==> !Precedes(sorted[j], top[i])) &&
      multiset(top) <= multiset(rows)
  {
    var sorted := SortScores(ParseLines(lines).value);
    OrderedPrefix(sorted, Min(TopCount, |sorted|));
  }

  /** A prefix of an ordered list is ordered, holds entries of the list,
      and nothing after it is better than anything in it. */
  lemma OrderedPrefix(sorted: seq<Score>, n: nat)
    requires Ordered(sorted) && n <= |sorted|
    ensures Ordered(sorted[..n])
    ensures forall i, j :: 0 <= i < n <= j < |sorted| ==> !Precedes(sorted[j], sorted[..n][i])
    ensures multiset(sorted[..n]) <= multiset(sorted)
  {
    assert sorted == sorted[..n] + sorted[n..];
    assert multiset(sorted) == multiset(sorted[..n]) + multiset(sorted[n..]);
  }

  /** `load_scores`: the reading loop, then the sort and the cut. `None`
      stands for the `ValueError` a malformed number raises. */
  method LoadScores(lines: seq<string>) returns (result: Option<seq<Score>>)
    ensures result == TopScores(lines)
  {
    var rows := ReadLines(lines);
    if rows.None? {
      return None;
    }
    var sorted := SortScores(rows.value);
    result := Some(sorted[..Min(TopCount, |sorted|)]);
  }

  /** The reading loop of `load_scores`: every line in order, the first
      malformed number ending the read. */
  method ReadLines(lines: seq<string>) returns (result: Option<seq<Score>>)
    ensures result == ParseLines(lines)
  {
    var scores: seq<Score> := [];
    var i := 0;
    while i < |lines|
      invariant 0 <= i <= |lines|
      invariant ParseLines(lines[..i]) == Some(scores)
    {
      var next := ReadNext(lines, i, scores);
      if next.None? {
        NoneExtends(lines, i + 1);
        return None;
      }
      scores := next.value;
      i := i + 1;
    }
    assert lines[..i] == lines;
    result := Some(scores);
  }

  /** The entries after line `i`, given those before it. */
  method ReadNext(lines: seq<string>, i: nat, scores: seq<Score>) returns (next: Option<seq<Score>>)
    requires i < |lines| && ParseLines(lines[..i]) == Some(scores)
    ensures next == ParseLines(lines[..i + 1])
  {
    var row := ReadLine(lines[i]);
    ParseLinesStep(lines, i, scores, row);
    next := match row
      case Skip => Some(scores)
      case Row(e) => Some(scores + [e])
      case Fails => None;
  }

  /** Reading one more line extends, keeps or fails the entries so far. */
  lemma ParseLinesStep(lines: seq<string>, i: nat, scores: seq<Score>, row: LineResult)
    requires i < |lines| && ParseLines(lines[..i]) == Some(scores) && row == ParseLine(lines[i])
    ensures row.Fails? ==> ParseLines(lines[..i + 1]) == None
    ensures row.Row? ==> ParseLines(lines[..i + 1]) == Some(scores + [row.entry])
    ensures row.Skip? ==> ParseLines(lines[..i + 1]) == Some(scores)
  {
    assert lines[..i + 1][..i] == lines[..i] && lines[..i + 1][i] == lines[i];
  }

  /** One line of the file: its fields, then its score and its time. */
  method ReadLine(line: string) returns (row: LineResult)
    ensures row == ParseLine(line)
  {
    var parts := Split(Strip(line));
    if |parts| != 3 {
      return Skip;
    }
    var score := ParseInt(parts[1]);
    var time := ParseFloat(parts[2]);
    if score.None? || time.None? {
      return Fails;
    }
    row := Row(Score(Upper(parts[0]), score.value, time.value));
  }

  /** Once a prefix raises, the whole file does. */
  lemma {:induction false} NoneExtends(lines: seq<string>, n: nat)
    requires n <= |lines| && ParseLines(lines[..n]) == None
    ensures ParseLines(lines) == None
    decreases |lines| - n
  {
    if n < |lines| {
      assert lines[..n + 1][..n] == lines[..n];
      NoneExtends(lines, n + 1);
    } else {
      assert lines[..n] == lines;
    }
  }

  /** Python's float `%` by 60: the remainder in `[0, 60)`. */
  function Mod60(s: real): (r: real)
    ensures 0.0 <= r < 60.0
    ensures r == s - 60.0 * (s / 60.0).Floor as real
  {
    s - 60.0 * (s / 60.0).Floor as real
  }

  /** `format_time`: whole minutes and whole seconds, each written with
      at least two digits. */
  function FormatTime(seconds: real): (t: string)
  {
    Pad2(Trunc((seconds / 60.0).Floor as real)) + ":" + Pad2(Trunc(Mod60(seconds)))
  }

  /** Under 100 minutes the text is `MM:SS` and reads back as the whole
      number of seconds. */
  lemma FormatTimeValue(seconds: real)
    requires 0.0 <= seconds < 6000.0
    ensures var t := FormatTime(seconds);
      |t| == 5 && t[2] == ':' && AllDigits(t[..2]) && AllDigits(t[3..]) &&
      DigitsValue(t[..2]) * 60 + DigitsValue(t[3..]) == seconds.Floor &&
      DigitsValue(t[3..]) < 60
  {
    var m := (seconds / 60.0).Floor;
    var r := Mod60(seconds);
    assert Trunc(m as real) == m;
    var sec := Trunc(r);
    assert 0 <= m < 100;
    assert 0 <= sec < 60;
    var t := FormatTime(seconds);
    assert t[..2] == Pad2(m);
    assert t[3..] == Pad2(sec);
    assert seconds == 60.0 * m as real + r;
    assert (60 * m + sec) as real <= seconds < (60 * m + sec + 1) as real;
  }
}
