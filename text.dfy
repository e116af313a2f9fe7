/** String helpers with Python's meaning: `str.strip()`, `str(int)`, `int(str)`
    for ASCII digits, `str.upper()` on ASCII letters and the `"{}".format(None)`
    rendering. */
module Text {
  import opened Wrappers

  /** `str.isspace()` on one character: the 29 characters `str.strip()` and
      `int()` treat as whitespace (the control characters U+0009 to U+000D and
      U+001C to U+001F, the space, U+0085, and the Unicode space separators). */
  predicate IsSpace(c: char) {
    '\t' <= c <= '\r' || '\U{001C}' <= c <= '\U{001F}' || c == ' ' || c == '\U{0085}' || c == '\U{00A0}' ||
    c == '\U{1680}' || '\U{2000}' <= c <= '\U{200A}' || c == '\U{2028}' || c == '\U{2029}' ||
    c == '\U{202F}' || c == '\U{205F}' || c == '\U{3000}'
  }

  predicate IsDigit(c: char) {
    '0' <= c <= '9'
  }

  /** `s` neither starts nor ends with whitespace. */
  predicate Trimmed(s: string) {
    s == [] || (!IsSpace(s[0]) && !IsSpace(s[|s| - 1]))
  }

  /** Where `strip()` starts keeping characters, scanning forward from `k`:
      the first index at or after `k` that is not whitespace. */
  function KeepFrom(s: string, k: nat): (n: nat)
    requires k <= |s|
    ensures k <= n <= |s|
    ensures forall i :: k <= i < n ==> IsSpace(s[i])
    ensures n == |s| || !IsSpace(s[n])
    decreases |s| - k
  {
    if k < |s| && IsSpace(s[k]) then KeepFrom(s, k + 1) else k
  }

  /** Where `strip()` stops keeping characters, scanning back from `k` to
      `lo`: one past the last index below `k` that is not whitespace. */
  function KeepUntil(s: string, lo: nat, k: nat): (m: nat)
    requires lo <= k <= |s|
    ensures lo <= m <= k
    ensures forall i :: m <= i < k ==> IsSpace(s[i])
    ensures m == lo || !IsSpace(s[m - 1])
  {
    if lo < k && IsSpace(s[k - 1]) then KeepUntil(s, lo, k - 1) else k
  }

  /** `r` is `s` with a run of whitespace cut from its front and one from its back. */
  predicate CutsSpace(s: string, r: string) {
    exists i, j :: 0 <= i <= j <= |s| && r == s[i..j] &&
      (forall k :: 0 <= k < i ==> IsSpace(s[k])) && (forall k :: j <= k < |s| ==> IsSpace(s[k]))
  }

  /** Python's `s.strip()`: `s` with the leading and trailing whitespace removed. */
  function Strip(s: string): (r: string)
    ensures Trimmed(r) && |r| <= |s|
    ensures (forall i :: 0 <= i < |s| ==> !IsSpace(s[i])) ==> r == s
  {
    var n := KeepFrom(s, 0);
    var m := KeepUntil(s, n, |s|);
    assert n < m ==> s[n..m][0] == s[n] && s[n..m][m - n - 1] == s[m - 1];
    s[n..m]
  }

  /** What `strip()` removes is a whitespace run at each end and nothing else. */
  lemma StripCuts(s: string)
    ensures CutsSpace(s, Strip(s))
  {
    var n := KeepFrom(s, 0);
    var m := KeepUntil(s, n, |s|);
    assert Strip(s) == s[n..m];
  }

  /** Strip's contract determines its result: the only trimmed text left by
      cutting whitespace from both ends is the stripped one. */
  lemma StripUnique(s: string, r: string)
    requires Trimmed(r) && CutsSpace(s, r)
    ensures r == Strip(s)
  {
    var t := Strip(s);
    StripCuts(s);
    var i, j := CutOf(s, r);
    var i2, j2 := CutOf(s, t);
    SameCut(s, i, j, i2, j2);
  }

  /** The bounds of a cut whose result is trimmed. */
  lemma CutOf(s: string, r: string) returns (i: nat, j: nat)
    requires Trimmed(r) && CutsSpace(s, r)
    ensures i <= j <= |s| && r == s[i..j]
    ensures forall k :: 0 <= k < i ==> IsSpace(s[k])
    ensures forall k :: j <= k < |s| ==> IsSpace(s[k])
    ensures i < j ==> !IsSpace(s[i]) && !IsSpace(s[j - 1])
  {
    i, j :| 0 <= i <= j <= |s| && r == s[i..j] &&
      (forall k :: 0 <= k < i ==> IsSpace(s[k])) && (forall k :: j <= k < |s| ==> IsSpace(s[k]));
    if i < j {
      assert r[0] == s[i] && r[|r| - 1] == s[j - 1];
    }
  }

  /** Two cuts of whitespace ending in non-whitespace have the same bounds, or are both empty. */
  lemma SameCut(s: string, i: nat, j: nat, i2: nat, j2: nat)
    requires i <= j <= |s| && i2 <= j2 <= |s|
    requires forall k :: 0 <= k < i ==> IsSpace(s[k])
    requires forall k :: j <= k < |s| ==> IsSpace(s[k])
    requires forall k :: 0 <= k < i2 ==> IsSpace(s[k])
    requires forall k :: j2 <= k < |s| ==> IsSpace(s[k])
    requires i < j ==> !IsSpace(s[i]) && !IsSpace(s[j - 1])
    requires i2 < j2 ==> !IsSpace(s[i2]) && !IsSpace(s[j2 - 1])
    ensures s[i..j] == s[i2..j2]
  {
    if i < j && i2 < j2 {
      assert i == i2 && j == j2;
    }
  }

  lemma StripIdempotent(s: string)
    ensures Strip(Strip(s)) == Strip(s)
  {
    var t := Strip(s);
    assert t == [] || (!IsSpace(t[0]) && !IsSpace(t[|t| - 1]));
  }

  /** ASCII `str.upper()`; other characters are left as they are. */
  function Upper(s: string): (r: string)
    ensures |r| == |s|
    ensures forall i :: 0 <= i < |s| ==>
      r[i] == if 'a' <= s[i] <= 'z' then (s[i] as int - 32) as char else s[i]
  {
    if s == [] then [] else
      [if 'a' <= s[0] <= 'z' then (s[0] as int - 32) as char else s[0]] + Upper(s[1..])
  }

  /** Decimal digits of a natural number, most significant first, no leading zero. */
  function NatToString(n: nat): (r: string)
    ensures |r| >= 1
    ensures forall i :: 0 <= i < |r| ==> IsDigit(r[i])
    ensures n > 0 ==> r[0] != '0'
    decreases n
  {
    if n < 10 then [(n + '0' as int) as char]
    else NatToString(n / 10) + [(n % 10 + '0' as int) as char]
  }

  /** Python's `str(i)` for an integer. */
  function IntToString(i: int): (r: string)
    ensures |r| >= 1
    ensures i < 0 <==> r[0] == '-'
  {
    if i < 0 then "-" + NatToString(-i) else NatToString(i)
  }

  /** Value of a non-empty string of decimal digits. */
  function DigitsValue(s: string): (n: nat)
    requires AllDigits(s)
    decreases |s|
  {
    if s == [] then 0 else
      var last := s[|s| - 1];
      assert IsDigit(last);
      DigitsValue(s[..|s| - 1]) * 10 + (last as int - '0' as int)
  }

  predicate AllDigits(s: string) {
    forall i :: 0 <= i < |s| ==> IsDigit(s[i])
  }

  /** The digits of an integer literal as `int()` reads them: ASCII digits,
      with single underscores allowed between two digits. */
  predicate DigitRun(d: string) {
    d != [] && IsDigit(d[0]) && IsDigit(d[|d| - 1]) &&
    (forall i :: 0 <= i < |d| ==> IsDigit(d[i]) || d[i] == '_') &&
    (forall i :: 0 <= i && i + 1 < |d| ==> !DoubleUnderscore(d, i))
  }

  /** Two underscores in a row at index `i`. */
  predicate DoubleUnderscore(d: string, i: nat)
    requires i + 1 < |d|
  {
    d[i] == '_' && d[i + 1] == '_'
  }

  /** The digits of a run, the underscores left out. */
  function DropUnderscores(d: string): (r: string)
    decreases |d|
  {
    if d == [] then []
    else (if d[0] == '_' then [] else [d[0]]) + DropUnderscores(d[1..])
  }

  /** Leaving the underscores out of a digit run leaves its digits, the first
      one unchanged, and a run without underscores as it is. */
  lemma {:induction false} DropUnderscoresDigits(d: string)
    requires forall i :: 0 <= i < |d| ==> IsDigit(d[i]) || d[i] == '_'
    ensures AllDigits(DropUnderscores(d))
    ensures |d| > 0 && IsDigit(d[0]) ==> DropUnderscores(d) != [] && DropUnderscores(d)[0] == d[0]
    ensures AllDigits(d) ==> DropUnderscores(d) == d
    decreases |d|
  {
    if d != [] {
      assert forall i :: 0 <= i < |d[1..]| ==> d[1..][i] == d[i + 1];
      DropUnderscoresDigits(d[1..]);
    }
  }

  /** `int()` on the unsigned part of a literal: the value of a digit run,
      ValueError for anything else. */
  function ParseRun(d: string): (r: Result<nat>)
    ensures r.Ok? <==> DigitRun(d)
    ensures r.Err? ==> r.error == ValueError
  {
    if DigitRun(d) then
      DropUnderscoresDigits(d);
      Ok(DigitsValue(DropUnderscores(d)))
    else Err(ValueError)
  }

  /** `int()` after the whitespace is stripped: an optional sign, then a digit run. */
  function ParseSigned(t: string): (r: Result<int>)
    ensures r.Err? ==> r.error == ValueError
  {
    if t != [] && t[0] == '-' then
      (match ParseRun(t[1..]) case Ok(v) => Ok(-(v as int)) case Err(e) => Err(e))
    else if t != [] && t[0] == '+' then
      (match ParseRun(t[1..]) case Ok(v) => Ok(v as int) case Err(e) => Err(e))
    else
      (match ParseRun(t) case Ok(v) => Ok(v as int) case Err(e) => Err(e))
  }

  /** Python's `int(s)` for a string: surrounding whitespace, an optional sign
      and a run of ASCII digits with single underscores between digits;
      anything else raises ValueError. */
  function ParseInt(s: string): (r: Result<int>)
    ensures r.Err? ==> r.error == ValueError
  {
    ParseSigned(Strip(s))
  }

  lemma {:induction false} DropUnderscoresAppend(x: string, y: string)
    ensures DropUnderscores(x + y) == DropUnderscores(x) + DropUnderscores(y)
    decreases |x|
  {
    if x != [] {
      assert (x + y)[0] == x[0] && (x + y)[1..] == x[1..] + y;
      DropUnderscoresAppend(x[1..], y);
    } else {
      assert x + y == y;
    }
  }

  /** Digits, underscores and signs are not whitespace. */
  lemma NotSpace(c: char)
    requires IsDigit(c) || c == '_' || c == '-' || c == '+'
    ensures !IsSpace(c)
  {
  }

  /** `strip()` keeps a run of digits and underscores as it is. */
  lemma RunTrimmed(s: string)
    requires forall i :: 0 <= i < |s| ==> IsDigit(s[i]) || s[i] == '_'
    ensures Strip(s) == s
  {
    forall i | 0 <= i < |s| ensures !IsSpace(s[i]) {
      NotSpace(s[i]);
    }
  }

  /** Without whitespace or a sign, `int()` reads a string of digits and
      underscores as a digit run. */
  lemma ParseUnsigned(d: string)
    requires forall i :: 0 <= i < |d| ==> IsDigit(d[i]) || d[i] == '_'
    ensures ParseInt(d) == (match ParseRun(d) case Ok(v) => Ok(v as int) case Err(e) => Err(e))
  {
    RunTrimmed(d);
    UnsignedRun(d);
  }

  lemma UnsignedRun(d: string)
    requires d == [] || IsDigit(d[0]) || d[0] == '_'
    ensures ParseSigned(d) == (match ParseRun(d) case Ok(v) => Ok(v as int) case Err(e) => Err(e))
  {
  }

  /** Plain digits are a digit run with nothing to leave out. */
  lemma PlainRun(d: string)
    requires d != [] && AllDigits(d)
    ensures ParseRun(d) == Ok(DigitsValue(d))
  {
    DropUnderscoresDigits(d);
  }

  /** A string of plain digits parses as its value. */
  lemma ParsePlain(d: string)
    requires d != [] && AllDigits(d)
    ensures ParseInt(d) == Ok(DigitsValue(d))
  {
    ParseUnsigned(d);
    PlainRun(d);
  }

  /** Digits, one underscore, digits: a digit run. */
  lemma GroupedIsRun(a: string, b: string)
    requires a != [] && b != [] && AllDigits(a) && AllDigits(b)
    ensures DigitRun(a + "_" + b)
  {
    var g := a + "_" + b;
    assert forall i :: 0 <= i < |a| ==> g[i] == a[i];
    assert forall i :: |a| < i < |g| ==> g[i] == b[i - |a| - 1];
    assert g[|a|] == '_';
    forall i | 0 <= i && i + 1 < |g|
      ensures !DoubleUnderscore(g, i)
    {
      if i == |a| {
        assert g[i + 1] == b[0];
      }
    }
  }

  /** Leaving out the underscore of `a_b` joins the two runs of digits. */
  lemma GroupedDigits(a: string, b: string)
    requires AllDigits(a) && AllDigits(b)
    ensures DropUnderscores(a + "_" + b) == a + b
  {
    DropUnderscoresDigits(a);
    DropUnderscoresDigits(b);
    DropUnderscoresAppend(a, "_");
    assert DropUnderscores("_") == [];
    assert DropUnderscores(a + "_") == a;
    DropUnderscoresAppend(a + "_", b);
  }

  /** An underscore between two runs of digits is ignored: `int("1_000")`
      is `int("1000")`. */
  lemma ParseGrouped(a: string, b: string)
    requires a != [] && b != [] && AllDigits(a) && AllDigits(b)
    ensures ParseInt(a + "_" + b) == ParseInt(a + b) == Ok(DigitsValue(a + b))
  {
    var g, t := a + "_" + b, a + b;
    assert AllDigits(t) by {
      assert forall i :: 0 <= i < |a| ==> t[i] == a[i];
      assert forall i :: |a| <= i < |t| ==> t[i] == b[i - |a|];
    }
    GroupedIsRun(a, b);
    GroupedDigits(a, b);
    assert ParseRun(g) == Ok(DigitsValue(t));
    assert forall i :: 0 <= i < |g| ==> IsDigit(g[i]) || g[i] == '_';
    ParseUnsigned(g);
    ParsePlain(t);
  }

  /** Underscores only go between digits: a string of digits and underscores
      that starts or ends with one, or has two in a row, raises ValueError. */
  lemma ParseMisplacedUnderscore(d: string)
    requires forall i :: 0 <= i < |d| ==> IsDigit(d[i]) || d[i] == '_'
    requires d != []
    requires d[0] == '_' || d[|d| - 1] == '_' ||
      exists i :: 0 <= i && i + 1 < |d| && d[i] == '_' && d[i + 1] == '_'
    ensures ParseInt(d) == Err(ValueError)
  {
    ParseUnsigned(d);
    if d[0] != '_' && d[|d| - 1] != '_' {
      var i :| 0 <= i && i + 1 < |d| && d[i] == '_' && d[i + 1] == '_';
      assert DoubleUnderscore(d, i);
    }
  }

  /** A no-break space pads like a space: `int("\xa07")` is 7. */
  lemma ParseNoBreakSpace()
    ensures ParseInt("\U{00A0}7") == Ok(7)
  {
    var s := "\U{00A0}7";
    assert IsSpace(s[0]) && !IsSpace(s[1]);
    assert KeepFrom(s, 1) == 1 && KeepFrom(s, 0) == 1;
    assert KeepUntil(s, 1, 2) == 2;
    assert Strip(s) == s[1..2] == "7";
    UnsignedRun("7");
    PlainRun("7");
  }

  lemma {:induction false} NatToStringValue(n: nat)
    ensures DigitsValue(NatToString(n)) == n
    decreases n
  {
    if n >= 10 {
      var s := NatToString(n);
      NatToStringValue(n / 10);
      assert s[..|s| - 1] == NatToString(n / 10);
    }
  }

  /** `int(str(i)) == i`: rendering an integer and parsing it back is the identity. */
  lemma IntToStringRoundTrip(i: int)
    ensures ParseInt(IntToString(i)) == Ok(i)
  {
    if i < 0 {
      NegativeRoundTrip(-i);
    } else {
      NatToStringValue(i);
      ParsePlain(NatToString(i));
    }
  }

  lemma NegativeRoundTrip(n: nat)
    requires n > 0
    ensures ParseInt(IntToString(-(n as int))) == Ok(-(n as int))
  {
    NegativeRendering(n);
    NatToStringValue(n);
    ParseNegative(NatToString(n));
  }

  /** `str(-n)` is a minus sign before the digits of `n`. */
  lemma NegativeRendering(n: nat)
    requires n > 0
    ensures IntToString(-(n as int)) == "-" + NatToString(n)
  {
  }

  /** No whitespace in a minus sign followed by digits, so `strip()` keeps it. */
  lemma MinusDigitsTrimmed(d: string)
    requires AllDigits(d)
    ensures Strip("-" + d) == "-" + d
  {
    var s := "-" + d;
    forall k | 0 <= k < |s|
      ensures !IsSpace(s[k])
    {
      if k > 0 {
        assert s[k] == d[k - 1];
      }
      NotSpace(s[k]);
    }
  }

  /** A minus sign before digits parses as the digits' value, negated. */
  lemma ParseNegative(d: string)
    requires d != [] && AllDigits(d)
    ensures ParseInt("-" + d) == Ok(-(DigitsValue(d) as int))
  {
    MinusDigitsTrimmed(d);
    SignedMinus(d);
  }

  lemma DropSign(c: char, d: string)
    ensures ([c] + d)[1..] == d
  {
  }

  /** A minus sign before digits parses as the digits' value negated. */
  lemma SignedMinus(d: string)
    requires d != [] && AllDigits(d)
    ensures ParseSigned("-" + d) == Ok(-(DigitsValue(d) as int))
  {
    DropSign('-', d);
    PlainRun(d);
  }

  /** Python's rendering of an optional string in `"{}".format(x)`. */
  function Render(x: Option<string>): string {
    match x
    case Some(s) => s
    case None => "None"
  }
}
