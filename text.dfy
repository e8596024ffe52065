/** String operations the source takes from Python's `str` type and `re`
    module: lower-casing, substring tests (`a in b`), `join`, argument-less
    `split`, `strip() == ""`, the patterns `^[A-Z]+` and `\d+`, and decimal
    rendering of integers (`str(n)`, f-strings). Lower-casing and character
    classes cover ASCII (and Latin-1 whitespace); see README. */
module Text {
  import opened Wrappers

  predicate IsUpper(c: char) { 'A' <= c <= 'Z' }

  predicate IsDigit(c: char) { '0' <= c <= '9' }

  /** The characters `str.split()` and `str.strip()` treat as whitespace among
      the first 256 code points. */
  predicate IsSpace(c: char) {
    c == ' ' || ('\t' <= c <= '\r') || ('\U{1C}' <= c <= '\U{1F}') || c == '\U{85}' || c == '\U{A0}'
  }

  function LowerChar(c: char): (r: char)
    ensures IsUpper(c) ==> r as int == c as int + 32
    ensures !IsUpper(c) ==> r == c
  {
    if IsUpper(c) then (c as int + 32) as char else c
  }

  /** `s.lower()` */
  function Lower(s: string): (r: string)
    ensures |r| == |s|
    ensures forall i :: 0 <= i < |s| ==> r[i] == LowerChar(s[i])
  {
    seq(|s|, i requires 0 <= i < |s| => LowerChar(s[i]))
  }

  /** `needle in hay` for strings: some window of `hay` equals `needle`. */
  predicate Contains(hay: string, needle: string)
    decreases |hay|
  {
    |needle| <= |hay| && (hay[..|needle|] == needle || (|hay| > 0 && Contains(hay[1..], needle)))
  }

  lemma {:induction false} ContainsAt(hay: string, needle: string, i: nat)
    requires i + |needle| <= |hay| && hay[i..i + |needle|] == needle
    ensures Contains(hay, needle)
    decreases i
  {
    if i > 0 {
      assert hay[1..][i - 1..i - 1 + |needle|] == hay[i..i + |needle|];
      ContainsAt(hay[1..], needle, i - 1);
    }
  }

  /** A needle with a character the haystack lacks is not found in it. */
  lemma {:induction false} MissingCharNotContained(hay: string, needle: string, c: char)
    requires c in needle && c !in hay
    ensures !Contains(hay, needle)
    decreases |hay|
  {
    if |hay| > 0 && |needle| <= |hay| {
      assert c !in hay[..|needle|] by {
        assert forall x :: x in hay[..|needle|] ==> x in hay;
      }
      assert forall x :: x in hay[1..] ==> x in hay;
      MissingCharNotContained(hay[1..], needle, c);
    }
  }

  /** Text appended after a match keeps the match. */
  lemma {:induction false} ContainsExtend(a: string, b: string, needle: string)
    requires Contains(a, needle)
    ensures Contains(a + b, needle)
    decreases |a|
  {
    assert (a + b)[..|needle|] == a[..|needle|];
    if a[..|needle|] != needle {
      assert (a + b)[1..] == a[1..] + b;
      ContainsExtend(a[1..], b, needle);
    }
  }

  /** A string written between two others is found in the whole. */
  lemma ContainsInfix(prefix: string, needle: string, suffix: string)
    ensures Contains(prefix + needle + suffix, needle)
  {
    var h := prefix + needle + suffix;
    assert h[|prefix|..|prefix| + |needle|] == needle;
    ContainsAt(h, needle, |prefix|);
  }

  /** `any(t in hay for t in terms)` */
  predicate ContainsAny(hay: string, terms: seq<string>) {
    exists k :: 0 <= k < |terms| && Contains(hay, terms[k])
  }

  /** `sep.join(parts)` */
  function Join(parts: seq<string>, sep: string): string
    decreases |parts|
  {
    if |parts| == 0 then ""
    else if |parts| == 1 then parts[0]
    else parts[0] + sep + Join(parts[1..], sep)
  }

  /** `s.strip() == ""`: the string holds whitespace only. */
  predicate IsBlank(s: string) {
    forall i :: 0 <= i < |s| ==> IsSpace(s[i])
  }

  /** `s.lstrip()` */
  function TrimStart(s: string): (r: string)
    ensures |r| <= |s| && r == s[|s| - |r|..]
    ensures IsBlank(s[..|s| - |r|])
    ensures r == [] || !IsSpace(r[0])
    decreases |s|
  {
    if |s| > 0 && IsSpace(s[0]) then TrimStart(s[1..]) else s
  }

  /** `s.rstrip()` */
  function TrimEnd(s: string): (r: string)
    ensures |r| <= |s| && r == s[..|r|]
    ensures IsBlank(s[|r|..])
    ensures r == [] || !IsSpace(r[|r| - 1])
    decreases |s|
  {
    if |s| > 0 && IsSpace(s[|s| - 1]) then
      var init := s[..|s| - 1];
      var r := TrimEnd(init);
      assert r == s[..|r|] by {
        assert init[..|r|] == s[..|r|];
      }
      BlankThenSpace(init[|r|..], s[|s| - 1]);
      assert s[|r|..] == init[|r|..] + [s[|s| - 1]];
      r
    else s
  }

  lemma BlankThenSpace(a: string, c: char)
    requires IsBlank(a) && IsSpace(c)
    ensures IsBlank(a + [c])
  {
    assert forall i :: 0 <= i < |a| ==> (a + [c])[i] == a[i];
  }

  /** `s.strip()`: the piece of `s` left when the whitespace at both ends is
      cut off; it has no whitespace at either end and is empty exactly when
      `s` is blank. */
  function Strip(s: string): (r: string)
    ensures |r| <= |s|
    ensures exists i :: CutAt(s, r, i)
    ensures r == [] || (!IsSpace(r[0]) && !IsSpace(r[|r| - 1]))
    ensures r == [] <==> IsBlank(s)
  {
    var t := TrimStart(s);
    var r := TrimEnd(t);
    TrimBothCut(s);
    assert r == [] ==> IsBlank(s) by {
      if r == [] {
        assert s[..|s| - |t|] == s;
      }
    }
    assert r != [] ==> r[0] == t[0];
    r
  }

  /** `r` is the piece of `s` that starts at `i` and has only whitespace
      before and after it. */
  predicate CutAt(s: string, r: string, i: int) {
    0 <= i && i + |r| <= |s| && r == s[i..i + |r|] && IsBlank(s[..i]) && IsBlank(s[i + |r|..])
  }

  lemma TrimBothCut(s: string)
    ensures CutAt(s, TrimEnd(TrimStart(s)), |s| - |TrimStart(s)|)
  {
    CutOfTrims(s, TrimStart(s), TrimEnd(TrimStart(s)));
  }

  /** A prefix of a suffix, with blanks cut on both sides, is a cut. */
  lemma CutOfTrims(s: string, t: string, r: string)
    requires |t| <= |s| && t == s[|s| - |t|..] && IsBlank(s[..|s| - |t|])
    requires |r| <= |t| && r == t[..|r|] && IsBlank(t[|r|..])
    ensures CutAt(s, r, |s| - |t|)
  {
    var i := |s| - |t|;
    assert r == s[i..i + |r|];
    var after := s[i + |r|..];
    forall j | 0 <= j < |after|
      ensures IsSpace(after[j])
    {
      assert after[j] == t[|r|..][j];
    }
  }

  /** The longest prefix of `s` made of characters satisfying `IsUpper`. */
  function UpperPrefix(s: string): (w: string)
    ensures |w| <= |s| && w == s[..|w|]
    ensures forall i :: 0 <= i < |w| ==> IsUpper(w[i])
    ensures |w| < |s| ==> !IsUpper(s[|w|])
  {
    if |s| == 0 || !IsUpper(s[0]) then "" else [s[0]] + UpperPrefix(s[1..])
  }

  /** The group of `re.match(r'^([A-Z]+)', s)`: `None` exactly when `s` does
      not start with an upper-case letter. */
  function LeadingCode(s: string): (r: Option<string>)
    ensures r.None? <==> (|s| == 0 || !IsUpper(s[0]))
    ensures r.Some? ==> 0 < |r.value| <= |s| && r.value == s[..|r.value|]
                        && (forall i :: 0 <= i < |r.value| ==> IsUpper(r.value[i]))
                        && (|r.value| == |s| || !IsUpper(s[|r.value|]))
  {
    var w := UpperPrefix(s);
    if |w| == 0 then None else Some(w)
  }

  /** The longest prefix of `s` made of decimal digits. */
  function DigitPrefix(s: string): (w: string)
    ensures |w| <= |s| && w == s[..|w|]
    ensures forall i :: 0 <= i < |w| ==> IsDigit(w[i])
    ensures |w| < |s| ==> !IsDigit(s[|w|])
  {
    if |s| == 0 || !IsDigit(s[0]) then "" else [s[0]] + DigitPrefix(s[1..])
  }

  /** `int(ds)` for a string of decimal digits. */
  function DigitsValue(ds: string): nat
    requires forall i :: 0 <= i < |ds| ==> IsDigit(ds[i])
    decreases |ds|
  {
    if |ds| == 0 then 0
    else
      assert IsDigit(ds[|ds| - 1]);
      DigitsValue(ds[..|ds| - 1]) * 10 + (ds[|ds| - 1] as int - '0' as int)
  }

  /** Position `i` holds the first digit of `s`. */
  predicate FirstDigitAt(s: string, i: int) {
    0 <= i < |s| && IsDigit(s[i]) && forall j :: 0 <= j < i ==> !IsDigit(s[j])
  }

  /** `int(re.search(r'(\d+)', s).group(1))`, or `None` when `s` holds no
      digit: the value of the run of digits that starts at the first digit. */
  function FirstNumber(s: string): (r: Option<nat>)
    ensures r.Some? <==> exists i :: 0 <= i < |s| && IsDigit(s[i])
    ensures r.Some? ==> exists i :: FirstDigitAt(s, i) && r.value == DigitsValue(DigitPrefix(s[i..]))
    decreases |s|
  {
    if |s| == 0 then None
    else if IsDigit(s[0]) then
      assert FirstDigitAt(s, 0) && s[0..] == s;
      Some(DigitsValue(DigitPrefix(s)))
    else
      var r := FirstNumber(s[1..]);
      assert forall i :: 1 <= i < |s| ==> s[i] == s[1..][i - 1];
      if r.Some? then FirstDigitShift(s, r.value); r else r
  }

  /** Past a leading non-digit, the first run of digits of `s[1..]` is that of `s`. */
  lemma FirstDigitShift(s: string, v: nat)
    requires |s| > 0 && !IsDigit(s[0])
    requires exists i :: FirstDigitAt(s[1..], i) && v == DigitsValue(DigitPrefix(s[1..][i..]))
    ensures exists i :: FirstDigitAt(s, i) && v == DigitsValue(DigitPrefix(s[i..]))
  {
    var i :| FirstDigitAt(s[1..], i) && v == DigitsValue(DigitPrefix(s[1..][i..]));
    assert s[1..][i..] == s[i + 1..];
    assert forall j :: 1 <= j <= i ==> s[j] == s[1..][j - 1];
    assert FirstDigitAt(s, i + 1);
  }

  /** The longest prefix of `s` containing no whitespace. */
  function WordPrefix(s: string): (w: string)
    ensures |w| <= |s| && w == s[..|w|]
    ensures forall i :: 0 <= i < |w| ==> !IsSpace(w[i])
    ensures |s| > 0 && !IsSpace(s[0]) ==> |w| > 0
  {
    if |s| == 0 || IsSpace(s[0]) then "" else [s[0]] + WordPrefix(s[1..])
  }

  /** `s.split()` with no argument: the maximal runs of non-whitespace, in
      order; there are none exactly when `s` is blank. `WordsSplitAtSpace`
      and `WordsOfRun` pin the result down. */
  function Words(s: string): (ws: seq<string>)
    ensures forall k :: 0 <= k < |ws| ==> |ws[k]| > 0
    ensures forall k, i :: 0 <= k < |ws| && 0 <= i < |ws[k]| ==> !IsSpace(ws[k][i])
    ensures ws == [] <==> IsBlank(s)
    decreases |s|
  {
    if |s| == 0 then []
    else if IsSpace(s[0]) then
      assert forall i :: 1 <= i < |s| ==> s[i] == s[1..][i - 1];
      Words(s[1..])
    else
      var w := WordPrefix(s);
      [w] + Words(s[|w|..])
  }

  /** A whitespace character separates words: the words of `a`, then those of `b`. */
  lemma {:induction false} WordsSplitAtSpace(a: string, c: char, b: string)
    requires IsSpace(c)
    ensures Words(a + [c] + b) == Words(a) + Words(b)
    decreases |a|
  {
    var s := a + [c] + b;
    if |a| == 0 {
      assert s[1..] == b;
    } else if IsSpace(a[0]) {
      assert s[1..] == a[1..] + [c] + b;
      WordsSplitAtSpace(a[1..], c, b);
    } else {
      WordPrefixStopsAtSpace(a, c, b);
      var w := WordPrefix(a);
      assert s[|w|..] == a[|w|..] + [c] + b;
      WordsSplitAtSpace(a[|w|..], c, b);
    }
  }

  lemma {:induction false} WordPrefixStopsAtSpace(a: string, c: char, b: string)
    requires IsSpace(c)
    ensures WordPrefix(a + [c] + b) == WordPrefix(a)
    decreases |a|
  {
    var s := a + [c] + b;
    if |a| > 0 && !IsSpace(a[0]) {
      assert s[1..] == a[1..] + [c] + b;
      WordPrefixStopsAtSpace(a[1..], c, b);
    }
  }

  /** A non-empty run without whitespace is one word. */
  lemma WordsOfRun(s: string)
    requires |s| > 0 && forall i :: 0 <= i < |s| ==> !IsSpace(s[i])
    ensures Words(s) == [s]
  {
    WordPrefixOfRun(s);
    assert s[|s|..] == [];
  }

  lemma {:induction false} WordPrefixOfRun(s: string)
    requires forall i :: 0 <= i < |s| ==> !IsSpace(s[i])
    ensures WordPrefix(s) == s
    decreases |s|
  {
    if |s| > 0 {
      WordPrefixOfRun(s[1..]);
    }
  }

  function DigitChar(d: nat): (c: char)
    requires d < 10
    ensures IsDigit(c) && c as int - '0' as int == d
  {
    ('0' as int + d) as char
  }

  /** `str(n)` for a natural number. */
  function NatToString(n: nat): (r: string)
    ensures |r| > 0
    ensures forall i :: 0 <= i < |r| ==> IsDigit(r[i])
  {
    if n < 10 then [DigitChar(n)] else NatToString(n / 10) + [DigitChar(n % 10)]
  }

  /** Reading back what `str(n)` wrote gives `n`. */
  lemma {:induction false} NatToStringRoundTrip(n: nat)
    ensures DigitsValue(NatToString(n)) == n
  {
    if n >= 10 {
      var prefix := NatToString(n / 10);
      var r := NatToString(n);
      assert r == prefix + [DigitChar(n % 10)];
      assert r[..|r| - 1] == prefix;
      NatToStringRoundTrip(n / 10);
    } else {
      var r := NatToString(n);
      assert r[..|r| - 1] == "";
    }
  }

  /** `str(i)` for an integer: a minus sign exactly for negative `i`, then
      the decimal digits of `|i|`. */
  function IntToString(i: int): (r: string)
    ensures |r| > 0
    ensures (r[0] == '-') <==> i < 0
    ensures i < 0 ==> |r| > 1
    ensures forall k :: (if i < 0 then 1 else 0) <= k < |r| ==> IsDigit(r[k])
    ensures DigitsValue(if i < 0 then r[1..] else r) == if i < 0 then -i else i
  {
    if i < 0 then
      var d := NatToString(-i);
      NatToStringRoundTrip(-i);
      assert ("-" + d)[1..] == d;
      "-" + d
    else
      NatToStringRoundTrip(i);
      NatToString(i)
  }
}
