/** Calendar dates as the source uses them: `datetime.date` values, their
    ISO 8601 extended calendar form ("YYYY-MM-DD", ISO 8601:2004 section
    4.1.2.2) from `date.isoformat()`, Python's string ordering, and
    `datetime.strptime(s, "%Y-%m-%d")`. */
module Dates {
  import opened Common

  datatype Date = Date(year: int, month: int, day: int)

  predicate IsLeapYear(y: int) {
    y % 4 == 0 && (y % 100 != 0 || y % 400 == 0)
  }

  function DaysInMonth(y: int, m: int): (n: int)
    requires 1 <= m <= 12
    ensures 28 <= n <= 31
    ensures m == 2 ==> (n == 29 <==> IsLeapYear(y))
  {
    if m == 2 then (if IsLeapYear(y) then 29 else 28)
    else if m == 4 || m == 6 || m == 9 || m == 11 then 30
    else 31
  }

  /** The values `datetime.date` can hold (MINYEAR 1 to MAXYEAR 9999). */
  predicate ValidDate(d: Date) {
    1 <= d.year <= 9999 && 1 <= d.month <= 12 && 1 <= d.day <= DaysInMonth(d.year, d.month)
  }

  /** `a < b` on `datetime.date`. */
  predicate Before(a: Date, b: Date) {
    a.year < b.year
    || (a.year == b.year && a.month < b.month)
    || (a.year == b.year && a.month == b.month && a.day < b.day)
  }

  /** Python's `<` on `str`: code-point lexicographic, a proper prefix is smaller. */
  predicate StrLt(a: string, b: string) {
    if a == [] then b != []
    else if b == [] then false
    else a[0] < b[0] || (a[0] == b[0] && StrLt(a[1..], b[1..]))
  }

  predicate StrLe(a: string, b: string) {
    a == b || StrLt(a, b)
  }

  lemma {:induction false} StrLtIrreflexive(a: string)
    ensures !StrLt(a, a)
  {
    if a != [] { StrLtIrreflexive(a[1..]); }
  }

  lemma {:induction false} StrLtTransitive(a: string, b: string, c: string)
    requires StrLt(a, b) && StrLt(b, c)
    ensures StrLt(a, c)
  {
    if a != [] && b != [] && c != [] && a[0] == b[0] == c[0] {
      StrLtTransitive(a[1..], b[1..], c[1..]);
    }
  }

  lemma {:induction false} StrLtTotal(a: string, b: string)
    ensures StrLt(a, b) || a == b || StrLt(b, a)
  {
    if a != [] && b != [] && a[0] == b[0] {
      StrLtTotal(a[1..], b[1..]);
      if a[1..] == b[1..] {
        assert a == [a[0]] + a[1..] && b == [b[0]] + b[1..];
      }
    }
  }

  /** Comparing two concatenations whose first parts have the same length. */
  lemma {:induction false} StrLtConcat(a1: string, a2: string, b1: string, b2: string)
    requires |a1| == |b1|
    ensures StrLt(a1 + a2, b1 + b2) <==> StrLt(a1, b1) || (a1 == b1 && StrLt(a2, b2))
  {
    if a1 == [] {
      assert a1 + a2 == a2 && b1 + b2 == b2;
    } else {
      assert (a1 + a2)[0] == a1[0] && (b1 + b2)[0] == b1[0];
      assert (a1 + a2)[1..] == a1[1..] + a2 && (b1 + b2)[1..] == b1[1..] + b2;
      StrLtConcat(a1[1..], a2, b1[1..], b2);
      if a1[0] == b1[0] && a1[1..] == b1[1..] {
        assert a1 == [a1[0]] + a1[1..] && b1 == [b1[0]] + b1[1..];
      }
    }
  }

  lemma DigitsValueShort(t: string)
    requires 1 <= |t| <= 2 && AllDigits(t)
    ensures |t| == 1 ==> DigitsValue(t) == DigitValue(t[0])
    ensures |t| == 2 ==> DigitsValue(t) == 10 * DigitValue(t[0]) + DigitValue(t[1])
  {
    assert t[..|t| - 1][..0] == [];
    if |t| == 2 { assert t[..1] == [t[0]]; }
  }

  function Pow10(n: nat): (p: nat)
    ensures p >= 1
  {
    if n == 0 then 1 else 10 * Pow10(n - 1)
  }

  lemma {:induction false} DigitsValueBound(s: string)
    requires AllDigits(s)
    ensures DigitsValue(s) < Pow10(|s|)
  {
    if s != [] { DigitsValueBound(s[..|s| - 1]); }
  }

  function Pad2(n: nat): (s: string)
    requires n < 100
    ensures |s| == 2 && AllDigits(s)
  {
    [DigitChar(n / 10), DigitChar(n % 10)]
  }

  function Pad4(n: nat): (s: string)
    requires n < 10000
    ensures |s| == 4 && AllDigits(s)
  {
    Pad2(n / 100) + Pad2(n % 100)
  }

  /** `date.isoformat()`. */
  function IsoFormat(d: Date): (s: string)
    requires ValidDate(d)
    ensures |s| == 10 && s[4] == '-' && s[7] == '-'
  {
    Pad4(d.year) + "-" + Pad2(d.month) + "-" + Pad2(d.day)
  }

  // ---- datetime.strptime(s, "%Y-%m-%d") ----------------------------------
  // Python turns the format into the regular expression
  //   (?P<Y>\d\d\d\d)-(?P<m>1[0-2]|0[1-9]|[1-9])-(?P<d>3[0-1]|[1-2]\d|0[1-9]|[1-9]| [1-9])
  // requires it to consume the whole string, and then builds the date,
  // which fails for year 0 or a day past the end of the month.

  /** The strings the `%m` group accepts. */
  predicate MonthToken(t: string) {
    (|t| == 1 && '1' <= t[0] <= '9')
    || (|t| == 2 && t[0] == '0' && '1' <= t[1] <= '9')
    || (|t| == 2 && t[0] == '1' && '0' <= t[1] <= '2')
  }

  /** The strings the `%d` group accepts, including a space-padded day. */
  predicate DayToken(t: string) {
    (|t| == 1 && '1' <= t[0] <= '9')
    || (|t| == 2 && t[0] == ' ' && '1' <= t[1] <= '9')
    || (|t| == 2 && t[0] == '0' && '1' <= t[1] <= '9')
    || (|t| == 2 && '1' <= t[0] <= '2' && IsDigit(t[1]))
    || (|t| == 2 && t[0] == '3' && '0' <= t[1] <= '1')
  }

  function MonthValue(t: string): (m: int)
    requires MonthToken(t)
    ensures 1 <= m <= 12
  {
    DigitsValueShort(t);
    DigitsValue(t)
  }

  function DayValue(t: string): (d: int)
    requires DayToken(t)
    ensures 1 <= d <= 31
  {
    if t[0] == ' ' then DigitValue(t[1]) else DigitsValueShort(t); DigitsValue(t)
  }

  /** Index of the first `c` in `s`, or |s| when there is none. */
  function FirstIndexOf(s: string, c: char): (i: nat)
    ensures i <= |s|
    ensures i < |s| ==> s[i] == c
    ensures forall k :: 0 <= k < i ==> s[k] != c
  {
    if s == [] then 0 else if s[0] == c then 0 else 1 + FirstIndexOf(s[1..], c)
  }

  /** `datetime.strptime(s, "%Y-%m-%d").date()`; None stands for ValueError. */
  function ParseYmd(s: string): (r: Option<Date>)
    ensures r.Some? ==> ValidDate(r.value)
  {
    if |s| < 5 || !AllDigits(s[..4]) || s[4] != '-' then None
    else
      var rest := s[5..];
      var j := FirstIndexOf(rest, '-');
      if j == |rest| then None
      else
        var mt, dt := rest[..j], rest[j + 1..];
        if !MonthToken(mt) || !DayToken(dt) then None
        else
          DigitsValueBound(s[..4]);
          assert Pow10(4) == 10000;
          var d := Date(DigitsValue(s[..4]), MonthValue(mt), DayValue(dt));
          if d.year >= 1 && d.day <= DaysInMonth(d.year, d.month) then Some(d) else None
  }

  /** A string that `ParseYmd` accepts is 8 to 10 characters long. */
  lemma ParseYmdLength(s: string)
    requires ParseYmd(s).Some?
    ensures 8 <= |s| <= 10
  {
  }

  lemma Pad2Value(n: nat)
    requires n < 100
    ensures DigitsValue(Pad2(n)) == n
  {
    DigitsValueShort(Pad2(n));
  }

  lemma Pad4Value(n: nat)
    requires n < 10000
    ensures DigitsValue(Pad4(n)) == n
  {
    var s := Pad4(n);
    var hi, lo := Pad2(n / 100), Pad2(n % 100);
    assert s == hi + lo;
    assert s[..3] == hi + [lo[0]];
    assert s[..2] == hi;
    Pad2Value(n / 100);
    assert DigitsValue(s[..3]) == (n / 100) * 10 + (n % 100) / 10;
  }

  /** Round trip: strptime accepts every ISO date and gives back the same date. */
  lemma ParseIsoFormat(d: Date)
    requires ValidDate(d)
    ensures ParseYmd(IsoFormat(d)) == Some(d)
  {
    var s := IsoFormat(d);
    assert s[..4] == Pad4(d.year);
    Pad4Value(d.year);
    var rest := s[5..];
    assert rest == Pad2(d.month) + "-" + Pad2(d.day);
    assert FirstIndexOf(rest[2..], '-') == 0;
    assert FirstIndexOf(rest[1..], '-') == 1;
    assert FirstIndexOf(rest, '-') == 2;
    assert rest[..2] == Pad2(d.month) && rest[3..] == Pad2(d.day);
    Pad2Value(d.month);
    Pad2Value(d.day);
  }

  lemma Pad2Order(a: nat, b: nat)
    requires a < 100 && b < 100
    ensures StrLt(Pad2(a), Pad2(b)) <==> a < b
    ensures Pad2(a) == Pad2(b) <==> a == b
  {
    var sa, sb := Pad2(a), Pad2(b);
    assert sa[1..][1..] == [] && sb[1..][1..] == [];
    StrLtIrreflexive(sa);
    if sa == sb {
      assert sa[0] == sb[0] && sa[1] == sb[1];
      assert DigitValue(sa[0]) == a / 10 && DigitValue(sa[1]) == a % 10;
    }
  }

  lemma Pad4Order(a: nat, b: nat)
    requires a < 10000 && b < 10000
    ensures StrLt(Pad4(a), Pad4(b)) <==> a < b
    ensures Pad4(a) == Pad4(b) <==> a == b
  {
    StrLtConcat(Pad2(a / 100), Pad2(a % 100), Pad2(b / 100), Pad2(b % 100));
    Pad2Order(a / 100, b / 100);
    Pad2Order(a % 100, b % 100);
    if Pad4(a) == Pad4(b) {
      assert Pad4(a)[..2] == Pad2(a / 100) && Pad4(b)[..2] == Pad2(b / 100);
      assert Pad4(a)[2..] == Pad2(a % 100) && Pad4(b)[2..] == Pad2(b % 100);
    }
  }

  /** Comparing ISO strings is comparing dates: the string order the source
      relies on for schedule and file filtering is the calendar order. */
  lemma IsoFormatOrder(a: Date, b: Date)
    requires ValidDate(a) && ValidDate(b)
    ensures StrLt(IsoFormat(a), IsoFormat(b)) <==> Before(a, b)
  {
    var ya, yb := Pad4(a.year), Pad4(b.year);
    var ma, mb := Pad2(a.month), Pad2(b.month);
    var da, db := Pad2(a.day), Pad2(b.day);
    assert IsoFormat(a) == ya + ("-" + ma + "-" + da);
    assert IsoFormat(b) == yb + ("-" + mb + "-" + db);
    StrLtConcat(ya, "-" + ma + "-" + da, yb, "-" + mb + "-" + db);
    Pad4Order(a.year, b.year);
    assert ("-" + ma + "-" + da) == "-" + (ma + ("-" + da));
    assert ("-" + mb + "-" + db) == "-" + (mb + ("-" + db));
    StrLtConcat("-", ma + ("-" + da), "-", mb + ("-" + db));
    StrLtIrreflexive("-");
    StrLtConcat(ma, "-" + da, mb, "-" + db);
    Pad2Order(a.month, b.month);
    StrLtConcat("-", da, "-", db);
    Pad2Order(a.day, b.day);
  }

  /** Distinct dates have distinct ISO strings. */
  lemma IsoFormatInjective(a: Date, b: Date)
    requires ValidDate(a) && ValidDate(b) && IsoFormat(a) == IsoFormat(b)
    ensures a == b
  {
    ParseIsoFormat(a);
    ParseIsoFormat(b);
  }
}
