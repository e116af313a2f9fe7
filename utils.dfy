/** The small helpers of `iatiflattener/lib/utils.py`: date parsing with
    `datetime.strptime(s, "%Y-%m-%d")`, the (year, quarter) pair, `get_first`,
    and the key normalisation of `float_int_string` / `get_if_exists`. */
module Utils {
  import opened Wrappers
  import opened Text

  // ---------------------------------------------------------------- dates

  datatype Date = Date(year: int, month: int, day: int)

  /** Gregorian leap years. */
  predicate IsLeap(y: int) {
    y % 4 == 0 && (y % 100 != 0 || y % 400 == 0)
  }

  function DaysInMonth(y: int, m: int): (n: int)
    requires 1 <= m <= 12
    ensures 28 <= n <= 31
  {
    if m == 2 then (if IsLeap(y) then 29 else 28)
    else if m == 4 || m == 6 || m == 9 || m == 11 then 30
    else 31
  }

  /** A date `datetime.date` accepts. */
  predicate ValidDate(d: Date) {
    1 <= d.year <= 9999 && 1 <= d.month <= 12 && 1 <= d.day <= DaysInMonth(d.year, d.month)
  }

  /** Calendar order; `<=` on `datetime.date`. */
  predicate DateLe(a: Date, b: Date) {
    a.year < b.year || (a.year == b.year && (a.month < b.month || (a.month == b.month && a.day <= b.day)))
  }

  lemma DateLeAntisymmetric(a: Date, b: Date)
    ensures DateLe(a, b) && DateLe(b, a) <==> a == b
  {
  }

  function DigitValue(c: char): int
    requires IsDigit(c)
  {
    c as int - '0' as int
  }

  /** The `%m` directive: `1[0-2]|0[1-9]|[1-9]`, which must be followed by `-`.
      Gives the month and the rest of the input after the `-`. */
  function MonthToken(r: string): (res: Option<(int, string)>)
    ensures res.Some? ==> 1 <= res.value.0 <= 12 && |res.value.1| < |r|
  {
    if |r| >= 3 && r[2] == '-' &&
       ((r[0] == '1' && '0' <= r[1] <= '2') || (r[0] == '0' && '1' <= r[1] <= '9'))
    then Some((DigitValue(r[0]) * 10 + DigitValue(r[1]), r[3..]))
    else if |r| >= 2 && '1' <= r[0] <= '9' && r[1] == '-'
    then Some((DigitValue(r[0]), r[2..]))
    else None
  }

  /** The `%d` directive: `3[01]|[12]\d|0[1-9]|[1-9]| [1-9]`, tried in that order;
      gives the day and the number of characters it consumed. */
  function DayToken(t: string): (res: Option<(int, nat)>)
    ensures res.Some? ==> 1 <= res.value.0 <= 31 && 1 <= res.value.1 <= 2 && res.value.1 <= |t|
  {
    if |t| >= 2 && t[0] == '3' && (t[1] == '0' || t[1] == '1') then Some((30 + DigitValue(t[1]), 2))
    else if |t| >= 2 && (t[0] == '1' || t[0] == '2') && IsDigit(t[1]) then
      Some((DigitValue(t[0]) * 10 + DigitValue(t[1]), 2))
    else if |t| >= 2 && t[0] == '0' && '1' <= t[1] <= '9' then Some((DigitValue(t[1]), 2))
    else if |t| >= 1 && '1' <= t[0] <= '9' then Some((DigitValue(t[0]), 1))
    else if |t| >= 2 && t[0] == ' ' && '1' <= t[1] <= '9' then Some((DigitValue(t[1]), 2))
    else None
  }

  /** Python's `datetime.strptime(s, "%Y-%m-%d").date()`: four digits, `-`, a month,
      `-`, a day, nothing after it, and a date the calendar has. */
  function GetDate(s: string): (r: Result<Date>)
    ensures r.Ok? ==> ValidDate(r.value)
    ensures r.Err? ==> r.error == ValueError
  {
    if |s| < 5 || s[4] != '-' || !(IsDigit(s[0]) && IsDigit(s[1]) && IsDigit(s[2]) && IsDigit(s[3]))
    then Err(ValueError)
    else
      var year := DigitValue(s[0]) * 1000 + DigitValue(s[1]) * 100 + DigitValue(s[2]) * 10 + DigitValue(s[3]);
      match MonthToken(s[5..])
      case None => Err(ValueError)
      case Some((month, rest)) =>
        match DayToken(rest)
        case None => Err(ValueError)
        case Some((day, used)) =>
          if used != |rest| then Err(ValueError)   // "unconverted data remains"
          else if year < 1 || day > DaysInMonth(year, month) then Err(ValueError)
          else Ok(Date(year, month, day))
  }

  /** `get_date` applied to an attribute that may be missing: `strptime(None, ...)`
      raises TypeError. */
  function GetDateOpt(s: Option<string>): (r: Result<Date>)
    ensures s.None? ==> r == Err(TypeError)
    ensures s.Some? ==> r == GetDate(s.value)
  {
    match s
    case None => Err(TypeError)
    case Some(t) => GetDate(t)
  }

  function Digit(n: int): char
    requires 0 <= n <= 9
  {
    (n + '0' as int) as char
  }

  /** `date.isoformat()`: `YYYY-MM-DD`, zero-padded. */
  function IsoFormat(d: Date): (s: string)
    requires ValidDate(d)
    ensures |s| == 10 && s[4] == '-' && s[7] == '-'
  {
    [Digit(d.year / 1000), Digit(d.year / 100 % 10), Digit(d.year / 10 % 10), Digit(d.year % 10), '-',
     Digit(d.month / 10), Digit(d.month % 10), '-', Digit(d.day / 10), Digit(d.day % 10)]
  }

  /** A string in the zero-padded `YYYY-MM-DD` shape. */
  predicate ZeroPadded(s: string) {
    |s| == 10 && s[4] == '-' && s[7] == '-' &&
    IsDigit(s[0]) && IsDigit(s[1]) && IsDigit(s[2]) && IsDigit(s[3]) &&
    IsDigit(s[5]) && IsDigit(s[6]) && IsDigit(s[8]) && IsDigit(s[9])
  }

  lemma DigitRoundTrip(n: int)
    requires 0 <= n <= 9
    ensures IsDigit(Digit(n)) && DigitValue(Digit(n)) == n
  {
  }

  lemma FourDigits(a: int, b: int, c: int, e: int)
    requires 0 <= a <= 9 && 0 <= b <= 9 && 0 <= c <= 9 && 0 <= e <= 9
    ensures var y := a * 1000 + b * 100 + c * 10 + e;
      y / 1000 == a && y / 100 % 10 == b && y / 10 % 10 == c && y % 10 == e
  {
    var y := a * 1000 + b * 100 + c * 10 + e;
    assert y == (a * 10 + b) * 100 + (c * 10 + e);
    assert y / 100 == a * 10 + b;
    assert y == (a * 100 + b * 10 + c) * 10 + e;
    assert y / 10 == a * 100 + b * 10 + c;
    assert y / 1000 == a;
  }

  lemma SplitFourDigits(y: int)
    requires 0 <= y <= 9999
    ensures y == (y / 1000) * 1000 + (y / 100 % 10) * 100 + (y / 10 % 10) * 10 + y % 10
    ensures 0 <= y / 1000 <= 9
  {
    var t := y / 10;
    assert y == t * 10 + y % 10;
    var h := y / 100;
    assert t == h * 10 + t % 10;
    assert t % 10 == y / 10 % 10;
    assert h == (y / 1000) * 10 + h % 10;
  }

  /** The month token and the day token of a zero-padded date string. */
  lemma ZeroPaddedTokens(s: string)
    requires |s| == 10 && s[4] == '-' && s[7] == '-' && IsDigit(s[5]) && IsDigit(s[6]) &&
      IsDigit(s[8]) && IsDigit(s[9])
    requires var m := DigitValue(s[5]) * 10 + DigitValue(s[6]); 1 <= m <= 12
    requires var dd := DigitValue(s[8]) * 10 + DigitValue(s[9]); 1 <= dd <= 31
    ensures MonthToken(s[5..]) == Some((DigitValue(s[5]) * 10 + DigitValue(s[6]), s[8..]))
    ensures DayToken(s[8..]) == Some((DigitValue(s[8]) * 10 + DigitValue(s[9]), 2))
  {
    var r := s[5..];
    assert r[0] == s[5] && r[1] == s[6] && r[2] == '-' && |r| == 5;
    assert r[3..] == s[8..];
    var t := s[8..];
    assert |t| == 2 && t[0] == s[8] && t[1] == s[9];
  }

  /** Every valid date survives a trip through its ISO form. */
  lemma GetDateIsoRoundTrip(d: Date)
    requires ValidDate(d)
    ensures GetDate(IsoFormat(d)) == Ok(d)
  {
    var s := IsoFormat(d);
    SplitFourDigits(d.year);
    DigitRoundTrip(d.year / 1000);
    DigitRoundTrip(d.year / 100 % 10);
    DigitRoundTrip(d.year / 10 % 10);
    DigitRoundTrip(d.year % 10);
    DigitRoundTrip(d.month / 10);
    DigitRoundTrip(d.month % 10);
    DigitRoundTrip(d.day / 10);
    DigitRoundTrip(d.day % 10);
    ZeroPaddedTokens(s);
  }

  /** ISO-formatting the parse of a zero-padded string gives back the string. */
  lemma GetDateZeroPaddedRoundTrip(s: string)
    requires ZeroPadded(s) && GetDate(s).Ok?
    ensures IsoFormat(GetDate(s).value) == s
  {
    ZeroPaddedParse(s);
    var a, b, c, e := DigitValue(s[0]), DigitValue(s[1]), DigitValue(s[2]), DigitValue(s[3]);
    var m1, m2, d1, d2 := DigitValue(s[5]), DigitValue(s[6]), DigitValue(s[8]), DigitValue(s[9]);
    IsoFormatDigits(a, b, c, e, m1, m2, d1, d2);
    var iso := IsoFormat(GetDate(s).value);
    assert iso == [Digit(a), Digit(b), Digit(c), Digit(e), '-', Digit(m1), Digit(m2), '-', Digit(d1), Digit(d2)];
    assert iso == s by {
      forall k | 0 <= k < 10 ensures iso[k] == s[k] {
        if k != 4 && k != 7 {
          assert IsDigit(s[k]);
          assert Digit(DigitValue(s[k])) == s[k];
        }
      }
    }
  }

  /** The date a zero-padded string parses to, digit by digit. */
  lemma ZeroPaddedParse(s: string)
    requires ZeroPadded(s) && GetDate(s).Ok?
    ensures GetDate(s).value == Date(
      DigitValue(s[0]) * 1000 + DigitValue(s[1]) * 100 + DigitValue(s[2]) * 10 + DigitValue(s[3]),
      DigitValue(s[5]) * 10 + DigitValue(s[6]), DigitValue(s[8]) * 10 + DigitValue(s[9]))
  {
    var m := DigitValue(s[5]) * 10 + DigitValue(s[6]);
    var dd := DigitValue(s[8]) * 10 + DigitValue(s[9]);
    var r := s[5..];
    assert r[0] == s[5] && r[1] == s[6] && r[2] == '-' && |r| == 5;
    assert MonthToken(r).Some?;
    assert 1 <= m <= 12;
    var t := s[8..];
    assert r[3..] == t;
    assert |t| == 2 && t[0] == s[8] && t[1] == s[9];
    assert DayToken(t).Some?;
    assert 1 <= dd <= 31;
    ZeroPaddedTokens(s);
  }

  /** The ISO form of a date given by its digits is those digits. */
  lemma IsoFormatDigits(a: int, b: int, c: int, e: int, m1: int, m2: int, d1: int, d2: int)
    requires 0 <= a <= 9 && 0 <= b <= 9 && 0 <= c <= 9 && 0 <= e <= 9
    requires 0 <= m1 <= 9 && 0 <= m2 <= 9 && 0 <= d1 <= 9 && 0 <= d2 <= 9
    requires ValidDate(Date(a * 1000 + b * 100 + c * 10 + e, m1 * 10 + m2, d1 * 10 + d2))
    ensures IsoFormat(Date(a * 1000 + b * 100 + c * 10 + e, m1 * 10 + m2, d1 * 10 + d2)) ==
      [Digit(a), Digit(b), Digit(c), Digit(e), '-', Digit(m1), Digit(m2), '-', Digit(d1), Digit(d2)]
  {
    FourDigits(a, b, c, e);
  }

  lemma GetDateExamples()
    ensures GetDate("2020-02-29") == Ok(Date(2020, 2, 29))
    ensures GetDate("2021-02-29").Err?
    ensures GetDate("2020-13-01").Err?
    ensures GetDate("2010-5-7") == Ok(Date(2010, 5, 7))
    ensures GetDate("2010-05-27 ").Err?
  {
    assert "2020-02-29"[5..] == "02-29";
    assert "02-29"[3..] == "29";
    assert "2021-02-29"[5..] == "02-29";
    assert "2020-13-01"[5..] == "13-01";
    assert "2010-5-7"[5..] == "5-7";
    assert "5-7"[2..] == "7";
    assert "2010-05-27 "[5..] == "05-27 ";
    assert "05-27 "[3..] == "27 ";
  }

  // ------------------------------------------------------------ quarters

  /** `math.ceil(month / 3)`. */
  function Quarter(month: int): (q: int)
    requires 1 <= month <= 12
    ensures 1 <= q <= 4
    ensures 3 * (q - 1) < month <= 3 * q
  {
    (month + 2) / 3
  }

  /** `get_fy_fq_numeric(date)`: the calendar year and the quarter of the month. */
  function GetFyFqNumeric(d: Date): (r: (int, int))
    requires ValidDate(d)
    ensures r.0 == d.year
    ensures 1 <= r.1 <= 4 && 3 * (r.1 - 1) < d.month <= 3 * r.1
  {
    (d.year, Quarter(d.month))
  }

  lemma QuarterOfMonths()
    ensures Quarter(1) == 1 && Quarter(3) == 1 && Quarter(4) == 2 && Quarter(6) == 2
    ensures Quarter(7) == 3 && Quarter(9) == 3 && Quarter(10) == 4 && Quarter(12) == 4
  {
  }

  /** The quarter label `"Q" + str(n)`. */
  function QuarterLabel(q: int): (s: string)
    requires 1 <= q <= 4
    ensures s == ['Q', Digit(q)]
  {
    "Q" + IntToString(q)
  }

  /** `get_fy_fq(s)`: parse the string, then the year and the quarter as `"Qn"`. */
  function GetFyFq(s: Option<string>): (r: Result<(int, string)>)
    ensures r.Ok? <==> GetDateOpt(s).Ok?
    ensures r.Err? ==> r.error == GetDateOpt(s).error
    ensures r.Ok? ==> (r.value.0 == GetDateOpt(s).value.year &&
      exists q :: 1 <= q <= 4 && 3 * (q - 1) < GetDateOpt(s).value.month <= 3 * q && r.value.1 == ['Q', Digit(q)])
  {
    var d :- GetDateOpt(s);
    var (y, q) := GetFyFqNumeric(d);
    Ok((y, QuarterLabel(q)))
  }

  lemma GetFyFqExample()
    ensures GetFyFq(Some("2010-05-27")) == Ok((2010, "Q2"))
  {
    assert "2010-05-27"[5..] == "05-27";
    assert "05-27"[3..] == "27";
  }

  // ------------------------------------------------------------ get_first

  /** An argument `get_first` passes over: None, or a value the caller counts as
      the empty list. */
  predicate Skipped<T>(x: Option<T>, isEmptyList: T -> bool) {
    x.None? || isEmptyList(x.value)
  }

  /** `get_first(args, default)`: the first argument that is neither None nor `[]`. */
  function GetFirst<T>(args: seq<Option<T>>, isEmptyList: T -> bool, default: Option<T>): (r: Option<T>)
    ensures (forall i :: 0 <= i < |args| ==> Skipped(args[i], isEmptyList)) ==> r == default
    ensures forall k :: (0 <= k < |args| && !Skipped(args[k], isEmptyList) &&
      (forall j :: 0 <= j < k ==> Skipped(args[j], isEmptyList))) ==> r == args[k]
  {
    if args == [] then default
    else if !Skipped(args[0], isEmptyList) then args[0]
    else
      var r := GetFirst(args[1..], isEmptyList, default);
      assert forall k :: 1 <= k < |args| ==> args[k] == args[1..][k - 1];
      r
  }

  /** `get_first((a, b), [])` over two lists (XPath results are never None):
      the first non-empty one, else `[]`. */
  function FirstNonEmpty<T>(a: seq<T>, b: seq<T>): (r: seq<T>)
    ensures a != [] ==> r == a
    ensures a == [] ==> r == b
  {
    var isEmptyList := (xs: seq<T>) => xs == [];
    var args := [Some(a), Some(b)];
    assert Skipped(args[0], isEmptyList) <==> a == [];
    assert Skipped(args[1], isEmptyList) <==> b == [];
    GetFirst(args, isEmptyList, Some([])).value
  }

  // ------------------------------------------------ float_int_string / get_if_exists

  /** A spreadsheet cell as pandas hands it over. */
  datatype Cell = StrCell(s: string) | IntCell(i: int) | FloatCell(f: real) | NanCell

  /** `int(x)` of a float truncates toward zero. */
  function Trunc(x: real): (n: int)
    ensures x >= 0.0 ==> n as real <= x < n as real + 1.0
    ensures x < 0.0 ==> n as real - 1.0 < x <= n as real
  {
    if x >= 0.0 then x.Floor else -((-x).Floor)
  }

  /** `float_int_string(x)`: `str(int(x))`, or `str(x)` when `int(x)` raises ValueError. */
  function FloatIntString(x: Cell): (r: string)
    ensures x.IntCell? ==> ParseInt(r) == Ok(x.i)
    ensures x.FloatCell? ==> ParseInt(r) == Ok(Trunc(x.f))
    ensures x.StrCell? && ParseInt(x.s).Ok? ==> ParseInt(r) == ParseInt(x.s)
    ensures x.StrCell? && ParseInt(x.s).Err? ==> r == x.s
    ensures x.NanCell? ==> r == "nan"
  {
    match x
    case IntCell(i) => IntToStringRoundTrip(i); IntToString(i)
    case FloatCell(f) => IntToStringRoundTrip(Trunc(f)); IntToString(Trunc(f))
    case StrCell(s) =>
      (match ParseInt(s)
       case Ok(i) => IntToStringRoundTrip(i); IntToString(i)
       case Err(_) => s)
    case NanCell => "nan"
  }

  /** `get_if_exists(table, x)`: the table entry under the normalised key, or `""`. */
  function GetIfExists(table: map<string, string>, x: Cell): (r: string)
    ensures FloatIntString(x) in table ==> r == table[FloatIntString(x)]
    ensures FloatIntString(x) !in table ==> r == ""
  {
    var key := FloatIntString(x);
    if key in table then table[key] else ""
  }

  /** An integer code finds the same entry whether it arrives as an int, a float
      or its decimal string. */
  lemma GetIfExistsNormalises(table: map<string, string>, i: int)
    ensures GetIfExists(table, IntCell(i)) == GetIfExists(table, FloatCell(i as real))
    ensures GetIfExists(table, IntCell(i)) == GetIfExists(table, StrCell(IntToString(i)))
  {
    IntToStringRoundTrip(i);
    assert Trunc(i as real) == i;
  }
}
