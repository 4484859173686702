/** The pieces of Python's string handling the game relies on: `str.strip`,
    `str.split()`, `str.upper` on ASCII letters, `int(str)`, `float(str)` for
    plain decimals, `str(int)` and the `:02` integer format. */
module Text {
  import opened Wrappers

  /** Python's `str.isspace`. */
  predicate IsSpace(c: char)
  {
    var n := c as int;
    (9 <= n <= 13) || (28 <= n <= 32) || n == 0x85 || n == 0xA0 || n == 0x1680 ||
    (0x2000 <= n <= 0x200A) || n == 0x2028 || n == 0x2029 || n == 0x202F ||
    n == 0x205F || n == 0x3000
  }

  predicate IsDigit(c: char) { '0' <= c <= '9' }

  predicate NoSpace(s: string) { forall i :: 0 <= i < |s| ==> !IsSpace(s[i]) }

  function StripLeft(s: string): (t: string)
    ensures |t| <= |s| && t == s[|s| - |t|..]
    ensures t == [] || !IsSpace(t[0])
    ensures forall i :: 0 <= i < |s| - |t| ==> IsSpace(s[i])
  {
    if s != [] && IsSpace(s[0]) then StripLeft(s[1..]) else s
  }

  function StripRight(s: string): (t: string)
    ensures |t| <= |s| && t == s[..|t|]
    ensures t == [] || !IsSpace(t[|t| - 1])
    ensures forall i :: |t| <= i < |s| ==> IsSpace(s[i])
  {
    if s != [] && IsSpace(s[|s| - 1]) then StripRight(s[..|s| - 1]) else s
  }

  /** Number of white-space characters `str.strip()` cuts from the front. */
  function LeadingSpaces(s: string): (n: nat)
    ensures n <= |s|
    ensures forall i :: 0 <= i < n ==> IsSpace(s[i])
    ensures n == |s| || !IsSpace(s[n])
  {
    |s| - |StripLeft(s)|
  }

  /** `str.strip()`: the result is a slice of `s` with no white space at
      either end, and only white space was cut off. */
  function Strip(s: string): (t: string)
    ensures LeadingSpaces(s) + |t| <= |s|
    ensures t == s[LeadingSpaces(s)..LeadingSpaces(s) + |t|]
    ensures forall i :: LeadingSpaces(s) + |t| <= i < |s| ==> IsSpace(s[i])
    ensures t == [] || (!IsSpace(t[0]) && !IsSpace(t[|t| - 1]))
  {
    var l := StripLeft(s);
    var r := StripRight(l);
    assert r == s[|s| - |l|..][..|r|] == s[|s| - |l|..|s| - |l| + |r|];
    r
  }

  lemma StripNoSpace(s: string)
    requires NoSpace(s)
    ensures Strip(s) == s
  {
  }

  /** `str.upper()` on ASCII letters. */
  function UpperChar(c: char): (u: char)
    ensures 'a' <= c <= 'z' ==> u as int == c as int - 32
    ensures !('a' <= c <= 'z') ==> u == c
  {
    if 'a' <= c <= 'z' then (c as int - 32) as char else c
  }

  function Upper(s: string): (u: string)
    ensures |u| == |s|
    ensures forall i :: 0 <= i < |s| ==> u[i] == UpperChar(s[i])
  {
    if s == [] then [] else [UpperChar(s[0])] + Upper(s[1..])
  }

  predicate HasNoLower(s: string) { forall i :: 0 <= i < |s| ==> !('a' <= s[i] <= 'z') }

  /** Upper-cased text has no lower-case ASCII letter left. */
  lemma UpperHasNoLower(s: string)
    ensures HasNoLower(Upper(s))
  {
    var u := Upper(s);
    forall i | 0 <= i < |u|
      ensures !('a' <= u[i] <= 'z')
    {
      assert u[i] == UpperChar(s[i]);
    }
  }

  /** The longest prefix of `s` without white space. */
  function Word(s: string): (w: string)
    ensures |w| <= |s| && w == s[..|w|] && NoSpace(w)
    ensures |w| == |s| || IsSpace(s[|w|])
  {
    if s == [] || IsSpace(s[0]) then [] else [s[0]] + Word(s[1..])
  }

  /** `str.split()` with no separator: the maximal runs of non-space
      characters, in order. */
  function Split(s: string): (ws: seq<string>)
    ensures forall k :: 0 <= k < |ws| ==> ws[k] != [] && NoSpace(ws[k])
    decreases |s|
  {
    var t := StripLeft(s);
    if t == [] then []
    else
      var w := Word(t);
      assert t[0] == w[0];
      [w] + Split(t[|w|..])
  }

  /** `" ".join(ws)`: the words with one space between neighbours. */
  function Join(ws: seq<string>): string
  {
    if ws == [] then [] else if |ws| == 1 then ws[0] else ws[0] + " " + Join(ws[1..])
  }

  /** The longest space-free prefix of a word followed by nothing or by
      white space is the word itself. */
  lemma {:induction false} WordOf(w: string, t: string)
    requires NoSpace(w) && (t == [] || IsSpace(t[0]))
    ensures Word(w + t) == w
  {
    if w != [] {
      assert (w + t)[1..] == w[1..] + t;
      WordOf(w[1..], t);
    }
  }

  /** `str.split()` finds no field exactly in blank text. */
  lemma SplitBlank(s: string)
    ensures Split(s) == [] <==> forall i :: 0 <= i < |s| ==> IsSpace(s[i])
  {
    var t := StripLeft(s);
    if t != [] {
      assert t[0] == s[|s| - |t|];
    }
  }

  /** Leading white space does not change the fields. */
  lemma SplitSpaced(s: string)
    ensures Split(" " + s) == Split(s)
  {
    assert (" " + s)[1..] == s;
    assert StripLeft(" " + s) == StripLeft(s);
  }

  /** A single word splits into itself. */
  lemma SplitWord(w: string)
    requires w != [] && NoSpace(w)
    ensures Split(w) == [w]
  {
    assert StripLeft(w) == w;
    WordOf(w, []);
    assert w + [] == w;
    assert w[|w|..] == [];
  }

  /** A word, a space and more text split into the word and the fields of
      the rest. */
  lemma SplitFirst(w: string, rest: string)
    requires w != [] && NoSpace(w)
    ensures Split(w + " " + rest) == [w] + Split(rest)
  {
    var s := w + " " + rest;
    assert StripLeft(s) == s by {
      assert s[0] == w[0];
    }
    assert s == w + (" " + rest);
    WordOf(w, " " + rest);
    assert s[|w|..] == " " + rest;
    SplitSpaced(rest);
  }

  /** `str.split()` recovers the words `" ".join` put together, as long as
      each word is non-empty and has no white space: the fields are the
      maximal runs of non-space characters. */
  lemma {:induction false} SplitJoin(ws: seq<string>)
    requires forall k :: 0 <= k < |ws| ==> ws[k] != [] && NoSpace(ws[k])
    ensures Split(Join(ws)) == ws
  {
    if |ws| == 1 {
      SplitWord(ws[0]);
    } else if |ws| > 1 {
      var tail := ws[1..];
      assert ws == [ws[0]] + tail;
      forall k | 0 <= k < |tail|
        ensures tail[k] != [] && NoSpace(tail[k])
      {
        assert tail[k] == ws[k + 1];
      }
      SplitJoin(tail);
      SplitFirst(ws[0], Join(tail));
    }
  }

  /** Value of a string of decimal digits. */
  function DigitsValue(ds: string): (v: nat)
    requires forall i :: 0 <= i < |ds| ==> IsDigit(ds[i])
  {
    if ds == [] then 0
    else
      assert IsDigit(ds[|ds| - 1]);
      DigitsValue(ds[..|ds| - 1]) * 10 + (ds[|ds| - 1] as int - '0' as int)
  }

  predicate AllDigits(s: string) { forall i :: 0 <= i < |s| ==> IsDigit(s[i]) }

  /** `int(s)` for a string: surrounding white space, an optional sign and at
      least one decimal digit; anything else is the ValueError case, None. */
  function ParseInt(s: string): Option<int>
  {
    ParseSigned(Strip(s))
  }

  /** An optional sign followed by at least one decimal digit. */
  function ParseSigned(t: string): Option<int>
  {
    if t == [] then None
    else
      var neg := t[0] == '-';
      var body := if t[0] == '-' || t[0] == '+' then t[1..] else t;
      if body != [] && AllDigits(body) then
        Some(if neg then -(DigitsValue(body) as int) else DigitsValue(body))
      else None
  }

  function DigitChar(d: nat): (c: char)
    requires d < 10
    ensures IsDigit(c) && c as int - '0' as int == d
  {
    ('0' as int + d) as char
  }

  /** `str(n)` for a natural number. */
  function ShowNat(n: nat): (s: string)
    ensures s != [] && AllDigits(s)
  {
    if n < 10 then [DigitChar(n)] else ShowNat(n / 10) + [DigitChar(n % 10)]
  }

  /** `str(n)` for any integer. */
  function ShowInt(n: int): string
  {
    if n < 0 then "-" + ShowNat(-n) else ShowNat(n)
  }

  lemma {:induction false} ShowNatValue(n: nat)
    ensures DigitsValue(ShowNat(n)) == n
  {
    if n >= 10 {
      var s := ShowNat(n);
      ShowNatValue(n / 10);
      assert s[..|s| - 1] == ShowNat(n / 10);
    }
  }

  /** Reading back what `str(n)` wrote gives `n`: the round trip of the
      records file's first line. */
  lemma ParseShowInt(n: int)
    ensures ParseInt(ShowInt(n)) == Some(n)
  {
    var s := ShowInt(n);
    var m := if n < 0 then -n else n;
    var digits := ShowNat(m);
    ShowNatValue(m);
    assert NoSpace(s) by {
      forall i | 0 <= i < |s| ensures !IsSpace(s[i]) {
        if n < 0 && i > 0 { assert s[i] == digits[i - 1]; }
      }
    }
    StripNoSpace(s);
    SignedDigits(digits);
  }

  /** Digits read back with and without a minus sign. */
  lemma SignedDigits(ds: string)
    requires ds != [] && AllDigits(ds)
    ensures ParseSigned(ds) == Some(DigitsValue(ds) as int)
    ensures ParseSigned("-" + ds) == Some(-(DigitsValue(ds) as int))
  {
    assert IsDigit(ds[0]);
    assert ("-" + ds)[1..] == ds;
  }

  function Pow10(k: nat): (p: nat)
    ensures p >= 1
  {
    if k == 0 then 1 else 10 * Pow10(k - 1)
  }

  /** Value of an unsigned decimal `int[.frac]` with digits on at least one
      side of the point. */
  function DecimalValue(whole: string, frac: string): real
    requires AllDigits(whole) && AllDigits(frac)
  {
    DigitsValue(whole) as real + DigitsValue(frac) as real / Pow10(|frac|) as real
  }

  function IndexOfPoint(s: string): (k: nat)
    ensures k <= |s|
    ensures forall i :: 0 <= i < k ==> s[i] != '.'
    ensures k < |s| ==> s[k] == '.'
  {
    if s == [] then 0 else if s[0] == '.' then 0 else 1 + IndexOfPoint(s[1..])
  }

  /** `float(s)` for plain decimals: surrounding white space, an optional sign,
      digits with at most one decimal point and at least one digit. */
  function ParseFloat(s: string): Option<real>
  {
    var t := Strip(s);
    if t == [] then None
    else
      var neg := t[0] == '-';
      var body := if t[0] == '-' || t[0] == '+' then t[1..] else t;
      var k := IndexOfPoint(body);
      var whole := body[..k];
      var frac := if k < |body| then body[k + 1..] else [];
      if |whole| + |frac| > 0 && AllDigits(whole) && AllDigits(frac) then
        var v := DecimalValue(whole, frac);
        Some(if neg then -v else v)
      else None
  }

  /** The format `f"{n:02}"`: at least two characters, zero-padded after the
      sign. */
  function Pad2(n: int): (s: string)
    ensures |s| >= 2
    ensures 0 <= n < 100 ==> |s| == 2 && AllDigits(s) && DigitsValue(s) == n
  {
    if n < 0 then "-" + ShowNat(-n)
    else
      ShowNatValue(n);
      if n < 10 then
        var s := "0" + ShowNat(n);
        assert s[..1] == "0";
        s
      else ShowNat(n)
  }
}
