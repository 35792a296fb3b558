/** Calendar dates of the proleptic Gregorian calendar, as Python's `datetime.date`
    has them: comparison, adding days, the `%Y-%m-%d` rendering (the ISO 8601
    extended calendar-date form, section 4.1.2.2 of ISO 8601:2004) and a strict
    reader of that form. */
module Calendar {
  import opened Values
  import opened Text

  datatype Date = Date(year: int, month: int, day: int)

  predicate IsLeap(y: int)
  {
    y % 4 == 0 && (y % 100 != 0 || y % 400 == 0)
  }

  function DaysInMonth(y: int, m: int): (n: int)
    ensures 28 <= n <= 31
  {
    if m == 2 then (if IsLeap(y) then 29 else 28)
    else if m == 4 || m == 6 || m == 9 || m == 11 then 30
    else 31
  }

  /** A real day of the calendar (any year). */
  predicate Valid(d: Date)
  {
    1 <= d.month <= 12 && 1 <= d.day <= DaysInMonth(d.year, d.month)
  }

  /** A day Python's `date` can hold: years 1 to 9999. */
  predicate Representable(d: Date)
  {
    Valid(d) && 1 <= d.year <= 9999
  }

  type Day = d: Date | Representable(d) witness Date(1, 1, 1)

  /** `a < b` on dates: the earlier day first. */
  predicate Before(a: Date, b: Date)
  {
    a.year < b.year || (a.year == b.year && (a.month < b.month || (a.month == b.month && a.day < b.day)))
  }

  /** The following day: later than `d`, and no valid day lies strictly between. */
  function Next(d: Date): (r: Date)
    requires Valid(d)
    ensures Valid(r) && Before(d, r)
    ensures forall x :: Valid(x) && Before(d, x) ==> !Before(x, r)
  {
    if d.day < DaysInMonth(d.year, d.month) then Date(d.year, d.month, d.day + 1)
    else if d.month < 12 then Date(d.year, d.month + 1, 1)
    else Date(d.year + 1, 1, 1)
  }

  /** `d + timedelta(days=n)`. */
  function AddDays(d: Date, n: nat): (r: Date)
    requires Valid(d)
    decreases n
    ensures Valid(r)
    ensures n > 0 ==> Before(d, r)
    ensures n == 0 ==> r == d
  {
    if n == 0 then d else
      var r := AddDays(Next(d), n - 1);
      assert n - 1 > 0 ==> Before(Next(d), r);
      r
  }

  /** Adding one more day is taking the following day of the sum: `AddDays`
      steps exactly `n` days forward, one `Next` at a time. */
  lemma {:induction false} AddDaysStep(d: Date, n: nat)
    requires Valid(d)
    ensures AddDays(d, n + 1) == Next(AddDays(d, n))
    decreases n
  {
    if n > 0 {
      AddDaysStep(Next(d), n - 1);
    }
  }

  /** Sums of day counts add: `(d + m days) + n days == d + (m + n) days`. */
  lemma {:induction false} AddDaysSum(d: Date, m: nat, n: nat)
    requires Valid(d)
    ensures AddDays(AddDays(d, m), n) == AddDays(d, m + n)
    decreases n
  {
    if n > 0 {
      AddDaysSum(d, m, n - 1);
      AddDaysStep(AddDays(d, m), n - 1);
      AddDaysStep(d, m + n - 1);
    }
  }

  // ---------------------------------------------------------------- %Y-%m-%d

  function Digit(n: int): (c: char)
    requires 0 <= n <= 9
    ensures '0' <= c <= '9'
  {
    ('0' as int + n) as char
  }

  function DigitValue(c: char): int
  {
    c as int - '0' as int
  }

  predicate IsDigit(c: char) { '0' <= c <= '9' }

  function Pad2(n: int): (s: string)
    requires 0 <= n <= 99
    ensures |s| == 2
  {
    [Digit(n / 10), Digit(n % 10)]
  }

  function Pad4(n: int): (s: string)
    requires 0 <= n <= 9999
    ensures |s| == 4
  {
    Pad2(n / 100) + Pad2(n % 100)
  }

  /** `d.strftime("%Y-%m-%d")`, with the year zero-padded to four digits. */
  function Format(d: Day): (s: string)
    ensures |s| == 10 && s[4] == '-' && s[7] == '-'
  {
    Pad4(d.year) + "-" + Pad2(d.month) + "-" + Pad2(d.day)
  }

  function Value2(s: string): int
    requires |s| == 2
  {
    10 * DigitValue(s[0]) + DigitValue(s[1])
  }

  function Value4(s: string): int
    requires |s| == 4
  {
    100 * Value2(s[..2]) + Value2(s[2..])
  }

  predicate DateShaped(s: string)
  {
    && |s| == 10 && s[4] == '-' && s[7] == '-'
    && IsDigit(s[0]) && IsDigit(s[1]) && IsDigit(s[2]) && IsDigit(s[3])
    && IsDigit(s[5]) && IsDigit(s[6]) && IsDigit(s[8]) && IsDigit(s[9])
  }

  /** Reads exactly the form `Format` writes: four, two and two digits separated
      by '-', naming a day of years 1 to 9999. */
  function ParseDate(s: string): (r: Option<Day>)
    ensures r.Some? ==> DateShaped(s)
  {
    if !DateShaped(s) then None
    else
      var d := Date(Value4(s[..4]), Value2(s[5..7]), Value2(s[8..]));
      if Representable(d) then Some(d) else None
  }

  lemma Pad2Value(n: int)
    requires 0 <= n <= 99
    ensures Value2(Pad2(n)) == n
  {
  }

  lemma Pad4Value(n: int)
    requires 0 <= n <= 9999
    ensures Value4(Pad4(n)) == n
  {
    var s := Pad4(n);
    assert s[..2] == Pad2(n / 100) && s[2..] == Pad2(n % 100);
    Pad2Value(n / 100);
    Pad2Value(n % 100);
  }

  lemma Pad2OfValue(s: string)
    requires |s| == 2 && IsDigit(s[0]) && IsDigit(s[1])
    ensures Pad2(Value2(s)) == s
  {
  }

  /** Reading back what `Format` wrote gives the same day. */
  lemma ParseFormat(d: Day)
    ensures ParseDate(Format(d)) == Some(d)
  {
    var s := Format(d);
    assert s[..4] == Pad4(d.year);
    assert s[5..7] == Pad2(d.month);
    assert s[8..] == Pad2(d.day);
    Pad4Value(d.year);
    Pad2Value(d.month);
    Pad2Value(d.day);
  }

  lemma Pad4OfValue(s: string)
    requires |s| == 4 && IsDigit(s[0]) && IsDigit(s[1]) && IsDigit(s[2]) && IsDigit(s[3])
    ensures Pad4(Value4(s)) == s
  {
    var high, low := Value2(s[..2]), Value2(s[2..]);
    Pad2OfValue(s[..2]);
    Pad2OfValue(s[2..]);
    Hundreds(high, low);
    assert s == s[..2] + s[2..];
  }

  lemma Hundreds(high: int, low: int)
    requires 0 <= low < 100
    ensures (100 * high + low) / 100 == high && (100 * high + low) % 100 == low
  {
  }

  /** Whatever `ParseDate` accepts is exactly the rendering of the day it yields. */
  lemma FormatParse(s: string)
    requires ParseDate(s).Some?
    ensures Format(ParseDate(s).value) == s
  {
    Pad4OfValue(s[..4]);
    Pad2OfValue(s[5..7]);
    Pad2OfValue(s[8..]);
    assert s == s[..4] + "-" + s[5..7] + "-" + s[8..];
  }

  // ---------------------------------------------------------------- order

  lemma {:induction false} LexLeAppend(p: string, q: string, p': string, q': string)
    requires |p| == |p'|
    ensures LexLe(p + q, p' + q') <==> LexLt(p, p') || (p == p' && LexLe(q, q'))
  {
    if |p| > 0 {
      LexLeAppend(p[1..], q, p'[1..], q');
      assert (p + q)[0] == p[0] && (p' + q')[0] == p'[0];
      assert (p + q)[1..] == p[1..] + q && (p' + q')[1..] == p'[1..] + q';
      assert LexLe(p + q, p' + q') <==> p[0] < p'[0] || (p[0] == p'[0] && LexLe(p[1..] + q, p'[1..] + q'));
      assert LexLe(p, p') <==> p[0] < p'[0] || (p[0] == p'[0] && LexLe(p[1..], p'[1..]));
      assert p == [p[0]] + p[1..] && p' == [p'[0]] + p'[1..];
      assert p == p' <==> p[0] == p'[0] && p[1..] == p'[1..];
    } else {
      assert p == p' && p + q == q && p' + q' == q';
    }
  }

  lemma LexLeOneChar(a: char, b: char, q: string, q': string)
    ensures LexLe([a] + q, [b] + q') <==> a < b || (a == b && LexLe(q, q'))
  {
    assert ([a] + q)[1..] == q && ([b] + q')[1..] == q';
  }

  lemma Pad2Order(n: int, m: int)
    requires 0 <= n <= 99 && 0 <= m <= 99
    ensures LexLt(Pad2(n), Pad2(m)) <==> n < m
  {
    LexLeOneChar(Digit(n / 10), Digit(m / 10), [Digit(n % 10)], [Digit(m % 10)]);
    LexLeOneChar(Digit(n % 10), Digit(m % 10), [], []);
    assert Pad2(n) == Pad2(m) <==> n == m by { Pad2Value(n); Pad2Value(m); }
  }

  lemma Pad4Order(n: int, m: int)
    requires 0 <= n <= 9999 && 0 <= m <= 9999
    ensures LexLt(Pad4(n), Pad4(m)) <==> n < m
  {
    LexLeAppend(Pad2(n / 100), Pad2(n % 100), Pad2(m / 100), Pad2(m % 100));
    Pad2Order(n / 100, m / 100);
    Pad2Order(n % 100, m % 100);
    assert Pad2(n / 100) == Pad2(m / 100) <==> n / 100 == m / 100 by { Pad2Value(n / 100); Pad2Value(m / 100); }
    assert Pad2(n % 100) == Pad2(m % 100) <==> n % 100 == m % 100 by { Pad2Value(n % 100); Pad2Value(m % 100); }
    assert Pad4(n) == Pad4(m) <==> n == m by { Pad4Value(n); Pad4Value(m); }
  }

  /** Comparing two rendered days as strings (Python `<=` on str) agrees with
      comparing the days: the fixed-width, zero-padded form is what makes the
      string comparison of dates sound. */
  lemma FormatOrder(a: Day, b: Day)
    ensures LexLe(Format(a), Format(b)) <==> !Before(b, a)
  {
    var fa, fb := Format(a), Format(b);
    var ma, mb := "-" + Pad2(a.month) + "-" + Pad2(a.day), "-" + Pad2(b.month) + "-" + Pad2(b.day);
    assert fa == Pad4(a.year) + ma && fb == Pad4(b.year) + mb;
    LexLeAppend(Pad4(a.year), ma, Pad4(b.year), mb);
    Pad4Order(a.year, b.year);
    assert Pad4(a.year) == Pad4(b.year) <==> a.year == b.year by { Pad4Value(a.year); Pad4Value(b.year); }
    var da, db := "-" + Pad2(a.day), "-" + Pad2(b.day);
    assert ma == "-" + (Pad2(a.month) + da) && mb == "-" + (Pad2(b.month) + db);
    LexLeAppend("-", Pad2(a.month) + da, "-", Pad2(b.month) + db);
    LexLeAppend(Pad2(a.month), da, Pad2(b.month), db);
    Pad2Order(a.month, b.month);
    assert Pad2(a.month) == Pad2(b.month) <==> a.month == b.month by { Pad2Value(a.month); Pad2Value(b.month); }
    LexLeAppend("-", Pad2(a.day), "-", Pad2(b.day));
    Pad2Order(a.day, b.day);
    assert LexLe(Pad2(a.day), Pad2(b.day)) <==> a.day <= b.day by {
      Pad2Value(a.day); Pad2Value(b.day);
      if a.day == b.day { LexLeRefl(Pad2(a.day)); }
    }
    assert !LexLt("-", "-");
  }
}
