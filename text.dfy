/** String operations the browser provides and the application relies on:
    `toLowerCase`/`toUpperCase` (ASCII letters), `includes`, `startsWith`,
    `trim`, `split` on one character, `join`, the line split of the CSV reader,
    the decimal reading of `Number()` and `parseFloat`, and the decimal text of
    a natural number. */
module Text {
  import opened Types

  // ---------------------------------------------------------------- case

  function LowerChar(c: char): char {
    if 'A' <= c <= 'Z' then ((c as int) + 32) as char else c
  }

  function UpperChar(c: char): char {
    if 'a' <= c <= 'z' then ((c as int) - 32) as char else c
  }

  /** `s.toLowerCase()` on ASCII letters. */
  function Lower(s: string): (r: string)
    ensures |r| == |s|
    ensures forall i :: 0 <= i < |s| ==> r[i] == LowerChar(s[i])
  {
    seq(|s|, i requires 0 <= i < |s| => LowerChar(s[i]))
  }

  /** `s.toUpperCase()` on ASCII letters. */
  function Upper(s: string): (r: string)
    ensures |r| == |s|
    ensures forall i :: 0 <= i < |s| ==> r[i] == UpperChar(s[i])
  {
    seq(|s|, i requires 0 <= i < |s| => UpperChar(s[i]))
  }

  predicate EqualsIgnoreCase(a: string, b: string) {
    Lower(a) == Lower(b)
  }

  lemma LowerIdempotent(s: string)
    ensures Lower(Lower(s)) == Lower(s)
  {
  }

  // ---------------------------------------------------------------- search

  predicate StartsWith(s: string, prefix: string) {
    |prefix| <= |s| && s[..|prefix|] == prefix
  }

  predicate EndsWith(s: string, suffix: string) {
    |suffix| <= |s| && s[|s| - |suffix|..] == suffix
  }

  /** `s.includes(t)`: `t` occurs in `s` at some position. */
  predicate Contains(s: string, t: string)
    decreases |s|
  {
    StartsWith(s, t) || (|s| > 0 && Contains(s[1..], t))
  }

  /** Occurrence of `t` at position `i` of `s`. */
  predicate OccursAt(s: string, t: string, i: int) {
    0 <= i && i + |t| <= |s| && s[i..i + |t|] == t
  }

  lemma {:induction false} ContainsIff(s: string, t: string)
    ensures Contains(s, t) <==> exists i :: OccursAt(s, t, i)
    decreases |s|
  {
    if StartsWith(s, t) {
      assert OccursAt(s, t, 0);
    } else if |s| > 0 {
      ContainsIff(s[1..], t);
      if exists i :: OccursAt(s[1..], t, i) {
        var i :| OccursAt(s[1..], t, i);
        assert s[i + 1..i + 1 + |t|] == s[1..][i..i + |t|];
        assert OccursAt(s, t, i + 1);
      }
      if exists i :: OccursAt(s, t, i) {
        var i :| OccursAt(s, t, i);
        assert i != 0;
        assert s[1..][i - 1..i - 1 + |t|] == s[i..i + |t|];
        assert OccursAt(s[1..], t, i - 1);
      }
    }
  }

  lemma ContainsEmpty(s: string)
    ensures Contains(s, "")
  {
  }

  // ---------------------------------------------------------------- trim

  /** The white space `trim` removes: the ECMAScript white-space characters
      (tab, vertical tab, form feed, the byte-order mark and every Unicode
      space separator) and the line terminators. */
  predicate IsSpace(c: char) {
    c == ' ' || c == '\t' || c == '\n' || c == '\r' || c == '\U{B}' || c == '\U{C}'
    || c == '\U{A0}' || c == '\U{FEFF}' || c == '\U{2028}' || c == '\U{2029}'
    || c == '\U{1680}' || ('\U{2000}' <= c <= '\U{200A}') || c == '\U{202F}' || c == '\U{205F}' || c == '\U{3000}'
  }

  predicate AllSpace(s: string) {
    forall i :: 0 <= i < |s| ==> IsSpace(s[i])
  }

  /** The number of white-space characters that start `s`. */
  function LeadingSpaces(s: string): (n: nat)
    ensures n <= |s| && AllSpace(s[..n])
    ensures n < |s| ==> !IsSpace(s[n])
    decreases |s|
  {
    if s != [] && IsSpace(s[0]) then
      var k := LeadingSpaces(s[1..]);
      assert s[..k + 1] == [s[0]] + s[1..][..k];
      assert k + 1 < |s| ==> s[k + 1] == s[1..][k];
      k + 1
    else 0
  }

  /** The number of white-space characters that end `s`. */
  function TrailingSpaces(s: string): (n: nat)
    ensures n <= |s| && AllSpace(s[|s| - n..])
    ensures n < |s| ==> !IsSpace(s[|s| - n - 1])
    decreases |s|
  {
    if s != [] && IsSpace(s[|s| - 1]) then
      var p := s[..|s| - 1];
      var k := TrailingSpaces(p);
      assert s[|s| - (k + 1)..] == p[|p| - k..] + [s[|s| - 1]];
      assert k + 1 < |s| ==> s[|s| - (k + 1) - 1] == p[|p| - k - 1];
      k + 1
    else 0
  }

  /** `s.trimStart()`. */
  function TrimStart(s: string): (r: string)
    ensures exists i :: 0 <= i <= |s| && r == s[i..] && AllSpace(s[..i])
    ensures r != [] ==> !IsSpace(r[0])
  {
    var i := LeadingSpaces(s);
    s[i..]
  }

  /** `s.trimEnd()`. */
  function TrimEnd(s: string): (r: string)
    ensures exists j :: 0 <= j <= |s| && r == s[..j] && AllSpace(s[j..])
    ensures r != [] ==> !IsSpace(r[|r| - 1])
  {
    var j := |s| - TrailingSpaces(s);
    s[..j]
  }

  /** `s.trim()`: a slice of `s` that keeps everything between the first and
      the last non-space character. */
  function Trim(s: string): (r: string)
    ensures exists i, j :: 0 <= i <= j <= |s| && r == s[i..j] && AllSpace(s[..i]) && AllSpace(s[j..])
    ensures r != [] ==> !IsSpace(r[0]) && !IsSpace(r[|r| - 1])
  {
    var i := LeadingSpaces(s);
    var t := s[i..];
    var m := TrailingSpaces(t);
    var j := i + (|t| - m);
    assert s[j..] == t[|t| - m..];
    assert i < j ==> s[i..j][0] == s[i] && s[i..j][j - i - 1] == t[|t| - m - 1];
    s[i..j]
  }

  // ---------------------------------------------------------------- split / join

  /** `s.split(sep)` for a one-character separator: the pieces between the
      separators, including empty ones; never an empty list. */
  function Split(s: string, sep: char): (r: seq<string>)
    ensures |r| >= 1
    ensures forall k :: 0 <= k < |r| ==> sep !in r[k]
    decreases |s|
  {
    if s == [] then [""]
    else
      var rest := Split(s[1..], sep);
      if s[0] == sep then [""] + rest
      else [[s[0]] + rest[0]] + rest[1..]
  }

  /** `parts.join(sep)`. */
  function Join(parts: seq<string>, sep: string): string
    decreases |parts|
  {
    if parts == [] then ""
    else if |parts| == 1 then parts[0]
    else parts[0] + sep + Join(parts[1..], sep)
  }

  lemma {:induction false} JoinSplit(s: string, sep: char)
    ensures Join(Split(s, sep), [sep]) == s
    decreases |s|
  {
    if s != [] {
      var rest := Split(s[1..], sep);
      JoinSplit(s[1..], sep);
      if s[0] != sep && |rest| > 1 {
        assert ([[s[0]] + rest[0]] + rest[1..])[1..] == rest[1..];
        assert rest == [rest[0]] + rest[1..];
      } else if s[0] == sep {
        assert ([""] + rest)[1..] == rest;
      }
    }
  }

  lemma {:induction false} SplitAfterSeparator(a: string, b: string, sep: char)
    requires sep !in a
    ensures Split(a + [sep] + b, sep) == [a] + Split(b, sep)
    decreases |a|
  {
    if a == [] {
      assert a + [sep] + b == [sep] + b;
      assert ([sep] + b)[1..] == b;
    } else {
      assert (a + [sep] + b)[1..] == a[1..] + [sep] + b;
      SplitAfterSeparator(a[1..], b, sep);
      assert [a[0]] + a[1..] == a;
    }
  }

  lemma {:induction false} SplitNoSeparator(a: string, sep: char)
    requires sep !in a
    ensures Split(a, sep) == [a]
    decreases |a|
  {
    if a != [] {
      SplitNoSeparator(a[1..], sep);
      assert [a[0]] + a[1..] == a;
    }
  }

  /** Splitting a join gives back the parts, when no part holds the separator. */
  lemma {:induction false} SplitJoin(parts: seq<string>, sep: char)
    requires parts != []
    requires forall k :: 0 <= k < |parts| ==> sep !in parts[k]
    ensures Split(Join(parts, [sep]), sep) == parts
    decreases |parts|
  {
    if |parts| == 1 {
      SplitNoSeparator(parts[0], sep);
    } else {
      SplitJoin(parts[1..], sep);
      SplitAfterSeparator(parts[0], Join(parts[1..], [sep]), sep);
      assert [parts[0]] + parts[1..] == parts;
    }
  }

  // ---------------------------------------------------------------- lines

  predicate IsLineBreak(c: char) {
    c == '\r' || c == '\n'
  }

  /** The pieces of `s` between line-break characters, empty ones included. */
  function SplitAtBreaks(s: string): (r: seq<string>)
    ensures |r| >= 1
    ensures forall k, i :: 0 <= k < |r| && 0 <= i < |r[k]| ==> !IsLineBreak(r[k][i])
    decreases |s|
  {
    if s == [] then [""]
    else
      var rest := SplitAtBreaks(s[1..]);
      if IsLineBreak(s[0]) then [""] + rest
      else [[s[0]] + rest[0]] + rest[1..]
  }

  function NonEmpty(lines: seq<string>): (r: seq<string>)
    ensures forall k :: 0 <= k < |r| ==> r[k] != [] && r[k] in lines
    ensures |r| <= |lines|
  {
    if lines == [] then []
    else if lines[0] == [] then NonEmpty(lines[1..])
    else [lines[0]] + NonEmpty(lines[1..])
  }

  /** `text.split(/[\r\n]+/).filter(line => line)`: splitting at runs of
      line breaks and dropping empty lines gives the same lines as splitting
      at every break character and dropping the empty pieces. */
  function Lines(text: string): (r: seq<string>)
    ensures forall k :: 0 <= k < |r| ==> r[k] != []
    ensures forall k, i :: 0 <= k < |r| && 0 <= i < |r[k]| ==> !IsLineBreak(r[k][i])
  {
    NonEmpty(SplitAtBreaks(text))
  }

  function Concat(parts: seq<string>): string {
    if parts == [] then "" else parts[0] + Concat(parts[1..])
  }

  function RemoveBreaks(s: string): string {
    if s == [] then ""
    else if IsLineBreak(s[0]) then RemoveBreaks(s[1..])
    else [s[0]] + RemoveBreaks(s[1..])
  }

  lemma {:induction false} ConcatNonEmpty(lines: seq<string>)
    ensures Concat(NonEmpty(lines)) == Concat(lines)
  {
    if lines != [] {
      ConcatNonEmpty(lines[1..]);
    }
  }

  lemma {:induction false} ConcatSplitAtBreaks(s: string)
    ensures Concat(SplitAtBreaks(s)) == RemoveBreaks(s)
  {
    if s != [] {
      ConcatSplitAtBreaks(s[1..]);
      var rest := SplitAtBreaks(s[1..]);
      if !IsLineBreak(s[0]) {
        var r := [[s[0]] + rest[0]] + rest[1..];
        assert r[1..] == rest[1..];
        assert Concat(rest) == rest[0] + Concat(rest[1..]);
      } else {
        assert ([""] + rest)[1..] == rest;
      }
    }
  }

  /** The lines hold exactly the text's characters other than line breaks, in order. */
  lemma LinesKeepText(text: string)
    ensures Concat(Lines(text)) == RemoveBreaks(text)
  {
    ConcatNonEmpty(SplitAtBreaks(text));
    ConcatSplitAtBreaks(text);
  }

  // ---------------------------------------------------------------- numbers

  predicate IsDigit(c: char) {
    '0' <= c <= '9'
  }

  function DigitValue(c: char): nat
    requires IsDigit(c)
  {
    (c as int) - ('0' as int)
  }

  function DigitChar(d: nat): char
    requires d < 10
  {
    ((d + ('0' as int)) as char)
  }

  predicate AllDigits(s: string) {
    forall i :: 0 <= i < |s| ==> IsDigit(s[i])
  }

  /** The number written by a string of decimal digits. */
  function DigitsValue(s: string): nat
    requires AllDigits(s)
    decreases |s|
  {
    if s == [] then 0 else DigitsValue(s[..|s| - 1]) * 10 + DigitValue(s[|s| - 1])
  }

  /** The length of the run of digits that starts `s`. */
  function DigitRun(s: string): (n: nat)
    ensures n <= |s| && AllDigits(s[..n])
    ensures n < |s| ==> !IsDigit(s[n])
    decreases |s|
  {
    if s != [] && IsDigit(s[0]) then
      var n := 1 + DigitRun(s[1..]);
      assert forall i :: 1 <= i < n ==> s[..n][i] == s[1..][..n - 1][i - 1];
      n
    else 0
  }

  function Pow10(n: nat): (r: real)
    ensures r >= 1.0
  {
    if n == 0 then 1.0 else 10.0 * Pow10(n - 1)
  }

  /** `10^e` for a signed exponent. */
  function Scale(e: int): (r: real)
    ensures r > 0.0
  {
    if e >= 0 then Pow10(e) else 1.0 / Pow10(-e)
  }

  /** The optional exponent part `e[+-]digits` at position `k`: its value and
      the position after it (no exponent when no digit follows). */
  function ExponentAt(s: string, k: nat): (r: (int, nat))
    requires k <= |s|
    ensures k <= r.1 <= |s|
  {
    if k < |s| && (s[k] == 'e' || s[k] == 'E') then
      var es := if k + 1 < |s| && (s[k + 1] == '+' || s[k + 1] == '-') then 1 else 0;
      var c := DigitRun(s[k + 1 + es..]);
      if c == 0 then (0, k)
      else
        var v: int := DigitsValue(s[k + 1 + es..][..c]);
        (if es == 1 && s[k + 1] == '-' then -v else v, k + 1 + es + c)
    else (0, k)
  }

  /** The length of the optional sign that starts `s`. */
  function SignLength(s: string): (n: nat)
    ensures n <= |s|
  {
    if s != [] && (s[0] == '-' || s[0] == '+') then 1 else 0
  }

  /** The mantissa `digits [. digits]` at position `k` (at least one digit):
      its value and the position after it. */
  function MantissaAt(s: string, k: nat): (r: Option<(real, nat)>)
    requires k <= |s|
    ensures r.Some? ==> k < r.value.1 <= |s|
  {
    var a := DigitRun(s[k..]);
    var k1 := k + a;
    var hasDot := k1 < |s| && s[k1] == '.';
    var b := if hasDot then DigitRun(s[k1 + 1..]) else 0;
    if a + b == 0 then None
    else
      var whole := DigitsValue(s[k..][..a]) as real;
      var frac := if hasDot then DigitsValue(s[k1 + 1..][..b]) as real / Pow10(b) else 0.0;
      Some((whole + frac, if hasDot then k1 + 1 + b else k1))
  }

  /** The longest prefix of `s` that is a decimal literal
      (`[+-] digits [. digits] [e[+-]digits]`, with at least one digit in the
      mantissa): its value and its length. */
  function DecimalPrefix(s: string): (r: Option<(real, nat)>)
    ensures r.Some? ==> 0 < r.value.1 <= |s|
  {
    var k0 := SignLength(s);
    match MantissaAt(s, k0)
    case None => None
    case Some((m, k2)) =>
      var (e, k3) := ExponentAt(s, k2);
      var magnitude := m * Scale(e);
      Some((if k0 == 1 && s[0] == '-' then -magnitude else magnitude, k3))
  }

  /** `Number(s)` on a string, for decimal literals: surrounding white space
      is ignored, the empty string reads as 0, anything else that is not
      exactly one decimal literal is `NaN` (`None`). */
  function ParseNumber(s: string): (r: Option<real>)
    ensures Trim(s) == [] ==> r == Some(0.0)
  {
    var t := Trim(s);
    if t == [] then Some(0.0)
    else match DecimalPrefix(t)
      case Some((v, n)) => if n == |t| then Some(v) else None
      case None => None
  }

  /** `parseFloat(s)`: the longest decimal literal after leading white space. */
  function ParseFloat(s: string): (r: Option<real>)
    ensures TrimStart(s) == [] ==> r.None?
  {
    match DecimalPrefix(TrimStart(s))
    case Some((v, _)) => Some(v)
    case None => None
  }

  /** The decimal text of a natural number (`${n}`). */
  function NatText(n: nat): (r: string)
    ensures |r| >= 1 && AllDigits(r)
  {
    if n < 10 then [DigitChar(n)] else NatText(n / 10) + [DigitChar(n % 10)]
  }

  lemma {:induction false} NatTextValue(n: nat)
    ensures DigitsValue(NatText(n)) == n
  {
    if n >= 10 {
      NatTextValue(n / 10);
      var s := NatText(n);
      assert s[..|s| - 1] == NatText(n / 10);
    }
  }

  /** Reading the decimal text of `n` with `Number()` gives back `n`. */
  lemma NatTextParses(n: nat)
    ensures ParseNumber(NatText(n)) == Some(n as real)
  {
    var s := NatText(n);
    TrimOfNoSpaceEnds(s);
    DecimalPrefixOfDigits(s);
    NatTextValue(n);
  }

  lemma DecimalPrefixOfDigits(s: string)
    requires s != [] && AllDigits(s)
    ensures DecimalPrefix(s) == Some((DigitsValue(s) as real, |s|))
  {
    assert SignLength(s) == 0;
    MantissaOfDigits(s);
    assert ExponentAt(s, |s|) == (0, |s|);
    assert DigitsValue(s) as real * Scale(0) == DigitsValue(s) as real;
  }

  lemma MantissaOfDigits(s: string)
    requires s != [] && AllDigits(s)
    ensures MantissaAt(s, 0) == Some((DigitsValue(s) as real, |s|))
  {
    assert s[0..] == s;
    DigitRunAll(s);
    assert s[0..][..|s|] == s;
  }

  lemma {:induction false} DigitRunAll(s: string)
    requires AllDigits(s)
    ensures DigitRun(s) == |s|
    decreases |s|
  {
    if s != [] {
      DigitRunAll(s[1..]);
    }
  }

  /** `parseFloat` of a string of digits reads its value. */
  lemma ParseFloatOfDigits(s: string)
    requires s != [] && AllDigits(s)
    ensures ParseFloat(s) == Some(DigitsValue(s) as real)
  {
    assert LeadingSpaces(s) == 0;
    assert s[0..] == s;
    DecimalPrefixOfDigits(s);
  }

  /** `parseFloat` reads the longest literal and ignores what follows it, and
      text with no leading literal (a cleared field) is `NaN`. */
  lemma ParseFloatReadsPrefix()
    ensures ParseFloat("12abc") == Some(12.0)
    ensures ParseFloat("") == None
  {
    TrimStartOfTwelve();
    DecimalPrefixOfTwelve();
    DecimalPrefixOfEmpty();
  }

  lemma TrimStartOfTwelve()
    ensures TrimStart("12abc") == "12abc"
  {
    var s := "12abc";
    assert LeadingSpaces(s) == 0;
    assert s[0..] == s;
  }

  lemma DecimalPrefixOfEmpty()
    ensures DecimalPrefix(TrimStart("")) == None
  {
    assert TrimStart("") == "";
    assert SignLength("") == 0 && DigitRun("") == 0;
  }

  lemma DecimalPrefixOfTwelve()
    ensures DecimalPrefix("12abc") == Some((12.0, 2))
  {
    var s := "12abc";
    assert SignLength(s) == 0;
    MantissaOfTwelve();
    assert ExponentAt(s, 2) == (0, 2) by {
      assert s[2] == 'a';
    }
    assert Scale(0) == 1.0;
  }

  lemma MantissaOfTwelve()
    ensures MantissaAt("12abc", 0) == Some((12.0, 2))
  {
    var s := "12abc";
    assert s[0..] == s;
    assert DigitRun(s) == 2 by {
      assert s[1..][1..][0] == 'a';
    }
    assert s[0..][..2] == "12";
    assert DigitsValue("12") == 12 by {
      assert "12"[..1] == "1";
    }
    assert !(2 < |s| && s[2] == '.');
  }

  lemma TrimOfNoSpaceEnds(s: string)
    requires AllDigits(s) && s != []
    ensures Trim(s) == s
  {
    var r := Trim(s);
  }
}
