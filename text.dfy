/** Python's str operations that the two transformations rely on: whitespace
    (`str.isspace`), `strip`, `split`, `join`, `lower`, `upper`, substring
    search (`in`), `replace` with an empty replacement, and `int()` of a
    string.  Case mapping covers ASCII letters only. */
module Text {
  import opened Wrappers

  /** `str.isspace()` for one character: the characters Python's `\s`, `strip()`
      and `split()` treat as whitespace. */
  predicate IsSpace(c: char) {
    var n := c as int;
    n == 0x20 || 0x09 <= n <= 0x0D || 0x1C <= n <= 0x1F || n == 0x85 || n == 0xA0
    || n == 0x1680 || 0x2000 <= n <= 0x200A || n == 0x2028 || n == 0x2029
    || n == 0x202F || n == 0x205F || n == 0x3000
  }

  predicate IsDigit(c: char) { '0' <= c <= '9' }

  predicate IsHexDigit(c: char) { IsDigit(c) || 'a' <= c <= 'f' || 'A' <= c <= 'F' }

  /** A match of the regular expression `[0-9A-Fa-f]+`. */
  predicate IsHex(s: string) {
    |s| > 0 && forall i | 0 <= i < |s| :: IsHexDigit(s[i])
  }

  /** A match of `[\d.]+` (ASCII digits and dots). */
  predicate IsDottedNumber(s: string) {
    |s| > 0 && forall i | 0 <= i < |s| :: IsDigit(s[i]) || s[i] == '.'
  }

  function LowerChar(c: char): char {
    if 'A' <= c <= 'Z' then (c as int + 32) as char else c
  }

  function UpperChar(c: char): char {
    if 'a' <= c <= 'z' then (c as int - 32) as char else c
  }

  function Lower(s: string): (r: string)
    ensures |r| == |s| && forall i | 0 <= i < |s| :: r[i] == LowerChar(s[i])
  {
    seq(|s|, i requires 0 <= i < |s| => LowerChar(s[i]))
  }

  function Upper(s: string): (r: string)
    ensures |r| == |s| && forall i | 0 <= i < |s| :: r[i] == UpperChar(s[i])
  {
    seq(|s|, i requires 0 <= i < |s| => UpperChar(s[i]))
  }

  /** The length of the longest run of characters satisfying `p` that starts at `i`. */
  function Run(s: string, i: nat, p: char -> bool): (n: nat)
    requires i <= |s|
    ensures i + n <= |s|
    ensures forall k | i <= k < i + n :: p(s[k])
    ensures i + n == |s| || !p(s[i + n])
    decreases |s| - i
  {
    if i < |s| && p(s[i]) then 1 + Run(s, i + 1, p) else 0
  }

  function SpaceRun(s: string, i: nat): (n: nat)
    requires i <= |s|
    ensures i + n <= |s|
    ensures forall k | i <= k < i + n :: IsSpace(s[k])
    ensures i + n == |s| || !IsSpace(s[i + n])
  {
    Run(s, i, IsSpace)
  }

  /** The length of `s` once its trailing whitespace is removed. */
  function RStripLength(s: string): (n: nat)
    ensures n <= |s|
    ensures forall k | n <= k < |s| :: IsSpace(s[k])
    ensures n == 0 || !IsSpace(s[n - 1])
  {
    if |s| > 0 && IsSpace(s[|s| - 1]) then RStripLength(s[..|s| - 1]) else |s|
  }

  function RStrip(s: string): string {
    s[..RStripLength(s)]
  }

  function LStrip(s: string): string {
    s[SpaceRun(s, 0)..]
  }

  /** `str.strip()` with no argument. */
  function Strip(s: string): (r: string)
    ensures |r| == 0 || (!IsSpace(r[0]) && !IsSpace(r[|r| - 1]))
  {
    RStrip(LStrip(s))
  }

  /** What `strip()` leaves is a slice of the text with only whitespace cut
      from either end; with the contract of `Strip`, which says the slice
      neither starts nor ends with whitespace, this fixes the result. */
  lemma StripIsSlice(s: string) returns (i: nat, j: nat)
    ensures i <= j <= |s|
    ensures Strip(s) == s[i..j] && AllSpace(s[..i]) && AllSpace(s[j..])
  {
    i := SpaceRun(s, 0);
    var n := RStripLength(s[i..]);
    j := i + n;
    assert s[i..][..n] == s[i..j];
    assert AllSpace(s[j..]) by {
      var t := s[j..];
      forall k | 0 <= k < |t| ensures IsSpace(t[k]) {
        assert t[k] == s[i..][n + k];
      }
    }
  }

  predicate AllSpace(s: string) {
    forall k | 0 <= k < |s| :: IsSpace(s[k])
  }

  /** Trailing whitespace does not change what `strip()` leaves. */
  lemma StripTrailingSpace(x: string, m: nat)
    requires m <= |x|
    requires AllSpace(x[m..])
    ensures Strip(x[..m]) == Strip(x)
  {
    var y := x[..m];
    var l := SpaceRun(x, 0);
    var ly := SpaceRun(y, 0);
    if ly < m {
      assert y[ly] == x[ly];
      assert ly == l;
      var a, b := LStrip(y), LStrip(x);
      assert b == a + x[m..];
      RStripAppendSpace(a, x[m..]);
    } else {
      assert AllSpace(y);
      assert AllSpace(x) by {
        forall k | 0 <= k < |x| ensures IsSpace(x[k]) {
          if k < m { assert x[k] == y[k]; } else { assert x[k] == x[m..][k - m]; }
        }
      }
      AllSpaceStripsEmpty(y);
      AllSpaceStripsEmpty(x);
    }
  }

  lemma AllSpaceStripsEmpty(s: string)
    requires AllSpace(s)
    ensures Strip(s) == []
  {
  }

  lemma RStripAppendSpace(a: string, w: string)
    requires AllSpace(w)
    ensures RStrip(a + w) == RStrip(a)
    decreases |w|
  {
    if |w| > 0 {
      var aw := a + w;
      assert aw[..|aw| - 1] == a + w[..|w| - 1];
      assert IsSpace(aw[|aw| - 1]);
      RStripAppendSpace(a, w[..|w| - 1]);
    } else {
      assert a + w == a;
    }
  }

  /** A string that neither starts nor ends with whitespace is its own strip. */
  lemma StripUnchanged(s: string)
    requires |s| == 0 || (!IsSpace(s[0]) && !IsSpace(s[|s| - 1]))
    ensures Strip(s) == s
  {
  }

  /** The maximal runs of characters that are not separators, in order: Python's
      `str.split()` when `isSep` is `IsSpace`, and `re.split(sep+)` with the
      empty pieces dropped in general. */
  function Tokens(s: string, isSep: char -> bool): (r: seq<string>)
    ensures forall k | 0 <= k < |r| :: |r[k]| > 0
    ensures (forall k | 0 <= k < |s| :: isSep(s[k])) <==> r == []
    decreases |s|
  {
    if s == [] then []
    else if isSep(s[0]) then
      var r := Tokens(s[1..], isSep);
      assert forall k | 0 <= k < |s[1..]| :: s[1..][k] == s[k + 1];
      r
    else
      var n := Run(s, 0, c => !isSep(c));
      [s[..n]] + Tokens(s[n..], isSep)
  }

  /** A token followed by a separator, or by nothing, is read as one token. */
  lemma TokensAfterWord(word: string, rest: string, isSep: char -> bool)
    requires |word| > 0 && forall k | 0 <= k < |word| :: !isSep(word[k])
    requires |rest| > 0 ==> isSep(rest[0])
    ensures Tokens(word + rest, isSep) == [word] + Tokens(rest, isSep)
  {
    var s := word + rest;
    assert s[..|word|] == word && s[|word|..] == rest;
    assert !isSep(s[0]);
    RunOver(s, 0, word, c => !isSep(c));
  }

  /** A leading separator is skipped. */
  lemma TokensAfterSeparator(sep: char, rest: string, isSep: char -> bool)
    requires isSep(sep)
    ensures Tokens([sep] + rest, isSep) == Tokens(rest, isSep)
  {
    assert ([sep] + rest)[1..] == rest;
  }

  /** Tokenizing the separator-joined list of non-empty, separator-free tokens
      gives the tokens back. */
  lemma {:induction false} TokensOfJoin(sep: char, parts: seq<string>, isSep: char -> bool)
    requires isSep(sep)
    requires forall k | 0 <= k < |parts| :: |parts[k]| > 0
    requires forall k, j | 0 <= k < |parts| && 0 <= j < |parts[k]| :: !isSep(parts[k][j])
    ensures Tokens(Join([sep], parts), isSep) == parts
    decreases |parts|
  {
    if |parts| == 1 {
      TokensAfterWord(parts[0], [], isSep);
      assert parts[0] + [] == parts[0];
    } else if |parts| > 1 {
      var tail := Join([sep], parts[1..]);
      assert Join([sep], parts) == parts[0] + ([sep] + tail);
      TokensAfterWord(parts[0], [sep] + tail, isSep);
      TokensAfterSeparator(sep, tail, isSep);
      assert forall k | 0 <= k < |parts| - 1 :: parts[1..][k] == parts[k + 1];
      TokensOfJoin(sep, parts[1..], isSep);
      assert parts == [parts[0]] + parts[1..];
    }
  }

  /** `str.split()` with no argument. */
  function Split(s: string): seq<string> {
    Tokens(s, IsSpace)
  }

  /** `sep.join(parts)`. */
  function Join(sep: string, parts: seq<string>): string
    decreases |parts|
  {
    if |parts| == 0 then ""
    else if |parts| == 1 then parts[0]
    else parts[0] + sep + Join(sep, parts[1..])
  }

  /** Python's `sub in s` for strings. */
  predicate Contains(s: string, sub: string)
    decreases |s|
  {
    |sub| <= |s| && (s[..|sub|] == sub || (|s| > 0 && Contains(s[1..], sub)))
  }

  lemma ContainsAt(s: string, sub: string, i: nat)
    requires i + |sub| <= |s| && s[i..i + |sub|] == sub
    ensures Contains(s, sub)
    decreases i
  {
    if i > 0 {
      assert s[1..][i - 1..i - 1 + |sub|] == s[i..i + |sub|];
      ContainsAt(s[1..], sub, i - 1);
    }
  }

  lemma ContainsWitness(s: string, sub: string) returns (i: nat)
    requires Contains(s, sub)
    ensures i + |sub| <= |s| && s[i..i + |sub|] == sub
    decreases |s|
  {
    if s[..|sub|] == sub {
      i := 0;
    } else {
      var j := ContainsWitness(s[1..], sub);
      i := j + 1;
      assert s[1..][j..j + |sub|] == s[i..i + |sub|];
    }
  }

  /** Text that contains a word contains every tail of the word. */
  lemma ContainsTail(s: string, w: string, k: nat)
    requires Contains(s, w) && k <= |w|
    ensures Contains(s, w[k..])
  {
    var i := ContainsWitness(s, w);
    assert s[i + k..i + |w|] == s[i..i + |w|][k..];
    ContainsAt(s, w[k..], i + k);
  }

  /** `s.startswith(prefix)`. */
  predicate StartsWith(s: string, prefix: string) {
    |prefix| <= |s| && s[..|prefix|] == prefix
  }

  /** A run over a piece of text that ends where the predicate stops holding
      is exactly as long as that piece. */
  lemma RunOver(s: string, i: nat, t: string, p: char -> bool)
    requires i + |t| <= |s| && s[i..i + |t|] == t
    requires forall k | 0 <= k < |t| :: p(t[k])
    requires i + |t| == |s| || !p(s[i + |t|])
    ensures Run(s, i, p) == |t|
  {
  }

  /** `replace(pat, "")` leaves a string without `pat` as it is. */
  lemma {:induction false} RemoveAllAbsent(s: string, pat: string)
    requires |pat| > 0 && !Contains(s, pat)
    ensures RemoveAll(s, pat) == s
    decreases |s|
  {
    if |s| >= |pat| {
      RemoveAllAbsent(s[1..], pat);
    }
  }

  /** Python's `s.replace(pat, "")`: occurrences are removed left to right,
      without overlap, in a single pass. */
  function RemoveAll(s: string, pat: string): string
    requires |pat| > 0
    decreases |s|
  {
    if |s| < |pat| then s
    else if s[..|pat|] == pat then RemoveAll(s[|pat|..], pat)
    else [s[0]] + RemoveAll(s[1..], pat)
  }

  /** Index of the first element of `xs` equal to `x`: Python's `xs.index(x)`
      when `x in xs`. */
  function IndexOf(xs: seq<string>, x: string): (r: Option<nat>)
    ensures r.None? <==> x !in xs
    ensures r.Some? ==> r.value < |xs| && xs[r.value] == x && x !in xs[..r.value]
  {
    if |xs| == 0 then None
    else if xs[0] == x then Some(0)
    else match IndexOf(xs[1..], x)
      case None => None
      case Some(k) => assert xs[..k + 1] == [xs[0]] + xs[1..][..k]; Some(k + 1)
  }

  // ---------------------------------------------------------------------
  // Integers and their decimal text

  function DigitValue(c: char): nat requires IsDigit(c) { c as int - '0' as int }

  function DigitChar(d: nat): (c: char)
    requires d < 10
    ensures IsDigit(c) && DigitValue(c) == d
  {
    ('0' as int + d) as char
  }

  predicate AllDigits(s: string) {
    forall i | 0 <= i < |s| :: IsDigit(s[i])
  }

  function DecimalValue(s: string): nat
    requires AllDigits(s)
  {
    if |s| == 0 then 0 else DecimalValue(s[..|s| - 1]) * 10 + DigitValue(s[|s| - 1])
  }

  function NatToDecimal(n: nat): (s: string)
    ensures |s| > 0 && AllDigits(s)
  {
    if n < 10 then [DigitChar(n)] else NatToDecimal(n / 10) + [DigitChar(n % 10)]
  }

  /** Python's `str(n)` for an integer. */
  function IntToDecimal(n: int): string {
    if n < 0 then "-" + NatToDecimal(-n) else NatToDecimal(n)
  }

  /** The text that Python's `int()` reads as base-10 digits: ASCII digits with
      single underscores allowed between two digits. */
  predicate IsIntegerLiteral(u: string) {
    && |u| > 0 && IsDigit(u[0])
    && forall i | 0 <= i < |u| :: IsDigit(u[i]) || (u[i] == '_' && i + 1 < |u| && IsDigit(u[i + 1]))
  }

  function DropUnderscores(u: string): (d: string)
    requires forall i | 0 <= i < |u| :: IsDigit(u[i]) || u[i] == '_'
    ensures AllDigits(d)
  {
    if |u| == 0 then ""
    else if u[0] == '_' then DropUnderscores(u[1..])
    else [u[0]] + DropUnderscores(u[1..])
  }

  function LiteralValue(u: string): nat
    requires IsIntegerLiteral(u)
  {
    assert forall i | 0 <= i < |u| :: IsDigit(u[i]) || u[i] == '_';
    DecimalValue(DropUnderscores(u))
  }

  /** Python's `int(s)` for a string: surrounding whitespace, an optional sign,
      and an integer literal; `None` stands for the `ValueError` it raises. */
  function PyInt(s: string): Option<int> {
    var t := Strip(s);
    if |t| > 0 && (t[0] == '+' || t[0] == '-') then
      if IsIntegerLiteral(t[1..]) then
        var v: int := LiteralValue(t[1..]);
        Some(if t[0] == '-' then -v else v)
      else None
    else if IsIntegerLiteral(t) then Some(LiteralValue(t))
    else None
  }

  lemma {:induction false} DecimalValueOfNat(n: nat)
    ensures DecimalValue(NatToDecimal(n)) == n
  {
    if n >= 10 {
      var s := NatToDecimal(n);
      assert s[..|s| - 1] == NatToDecimal(n / 10);
      DecimalValueOfNat(n / 10);
    }
  }

  lemma {:induction false} DropUnderscoresOfDigits(s: string)
    requires AllDigits(s)
    ensures DropUnderscores(s) == s
  {
    if |s| > 0 {
      DropUnderscoresOfDigits(s[1..]);
    }
  }

  lemma DecimalIsLiteral(m: nat)
    ensures var d := NatToDecimal(m);
      IsIntegerLiteral(d) && LiteralValue(d) == m && Strip(d) == d
  {
    var d := NatToDecimal(m);
    DecimalValueOfNat(m);
    DropUnderscoresOfDigits(d);
    assert IsIntegerLiteral(d);
    assert !IsSpace(d[0]) && !IsSpace(d[|d| - 1]);
    StripUnchanged(d);
  }

  lemma NegativeDecimalStrip(d: string)
    requires |d| > 0 && AllDigits(d)
    ensures Strip("-" + d) == "-" + d && ("-" + d)[0] == '-' && ("-" + d)[1..] == d
  {
    var s := "-" + d;
    assert !IsSpace(s[0]) && s[|s| - 1] == d[|d| - 1];
    StripUnchanged(s);
  }

  lemma PyIntOfUnsigned(t: string)
    requires Strip(t) == t && IsIntegerLiteral(t)
    ensures PyInt(t) == Some(LiteralValue(t))
  {
  }

  lemma PyIntOfNegative(t: string)
    requires Strip(t) == t && |t| > 0 && t[0] == '-' && IsIntegerLiteral(t[1..])
    ensures PyInt(t) == Some(-(LiteralValue(t[1..]) as int))
  {
  }

  lemma PyIntOfNatDecimal(m: nat)
    ensures PyInt(NatToDecimal(m)) == Some(m)
  {
    DecimalIsLiteral(m);
    PyIntOfUnsigned(NatToDecimal(m));
  }

  lemma PyIntOfNegativeDecimal(m: nat)
    ensures PyInt("-" + NatToDecimal(m)) == Some(-(m as int))
  {
    var d := NatToDecimal(m);
    DecimalIsLiteral(m);
    NegativeDecimalStrip(d);
    PyIntOfNegative("-" + d);
  }

  /** Reading back the decimal text of an integer gives the integer. */
  lemma PyIntOfDecimal(n: int)
    ensures PyInt(IntToDecimal(n)) == Some(n)
  {
    if n < 0 {
      PyIntOfNegativeDecimal(-n);
    } else {
      PyIntOfNatDecimal(n);
    }
  }
}
