/** Log timestamps, RFC 3339 in UTC: printing, parsing, and how texts compare. */
module Timestamps {

  // The fraction has up to nine digits, whose trailing zeros are dropped.

  import opened Options

  // Decimal digits

  predicate IsDigit(c: char) {
    '0' <= c <= '9'
  }

  predicate AllDigits(s: string) {
    forall i :: 0 <= i < |s| ==> IsDigit(s[i])
  }

  function DigitChar(d: nat): (c: char)
    requires d < 10
    ensures IsDigit(c) && c as int - '0' as int == d
  {
    ('0' as int + d) as char
  }

  function Pow10(w: nat): (p: nat)
    ensures p >= 1
  {
    if w == 0 then 1 else 10 * Pow10(w - 1)
  }

  /** The last w decimal digits of n. */
  function Pad(n: nat, w: nat): (s: string)
    ensures |s| == w && AllDigits(s)
  {
    if w == 0 then "" else Pad(n / 10, w - 1) + [DigitChar(n % 10)]
  }

  function Num(s: string): nat
    requires AllDigits(s)
  {
    if s == "" then 0 else 10 * Num(s[..|s| - 1]) + (s[|s| - 1] as int - '0' as int)
  }

  lemma {:induction false} NumOfPad(n: nat, w: nat)
    requires n < Pow10(w)
    ensures Num(Pad(n, w)) == n
  {
    if w > 0 {
      NumOfPad(n / 10, w - 1);
      assert Pad(n, w)[..w - 1] == Pad(n / 10, w - 1);
    }
  }

  lemma {:induction false} PadOfNum(s: string)
    requires AllDigits(s)
    ensures Num(s) < Pow10(|s|) && Pad(Num(s), |s|) == s
  {
    if s != "" {
      var n := |s| - 1;
      PadOfNum(s[..n]);
      assert s == s[..n] + [s[n]];
      assert Num(s) / 10 == Num(s[..n]) && Num(s) % 10 == s[n] as int - '0' as int;
      assert DigitChar(Num(s) % 10) == s[n];
    }
  }

  // Text order

  /** Byte-wise comparison, a proper prefix coming first: SQLite's order on TEXT. */
  predicate Less(a: string, b: string) {
    b != "" && (a == "" || a[0] < b[0] || (a[0] == b[0] && Less(a[1..], b[1..])))
  }

  lemma {:induction false} LessIsIrreflexive(a: string)
    ensures !Less(a, a)
  {
    if a != "" { LessIsIrreflexive(a[1..]); }
  }

  lemma {:induction false} LessIsTransitive(a: string, b: string, c: string)
    requires Less(a, b) && Less(b, c)
    ensures Less(a, c)
  {
    if a != "" && a[0] == b[0] && b[0] == c[0] {
      LessIsTransitive(a[1..], b[1..], c[1..]);
    }
  }

  lemma {:induction false} LessIsTotal(a: string, b: string)
    ensures a == b || Less(a, b) || Less(b, a)
  {
    if a != "" && b != "" && a[0] == b[0] {
      LessIsTotal(a[1..], b[1..]);
      if a[1..] == b[1..] {
        assert a == [a[0]] + a[1..] && b == [b[0]] + b[1..];
      }
    }
  }

  /** A common start does not matter. */
  lemma {:induction false} LessAfter(a: string, x: string, y: string)
    ensures Less(a + x, a + y) <==> Less(x, y)
  {
    if a == "" {
      assert a + x == x && a + y == y;
    } else {
      assert (a + x)[1..] == a[1..] + x && (a + y)[1..] == a[1..] + y;
      LessAfter(a[1..], x, y);
    }
  }

  /** Different starts of one length decide alone. */
  lemma {:induction false} LessWithin(a: string, b: string, x: string, y: string)
    requires |a| == |b| && a != b
    ensures Less(a + x, b + y) <==> Less(a, b)
  {
    assert (a + x)[1..] == a[1..] + x && (b + y)[1..] == b[1..] + y;
    if a[0] == b[0] {
      assert a == [a[0]] + a[1..] && b == [b[0]] + b[1..];
      LessWithin(a[1..], b[1..], x, y);
    }
  }

  /** Digits of one width compare like their numbers. */
  lemma {:induction false} LessPad(n: nat, m: nat, w: nat)
    requires n < Pow10(w) && m < Pow10(w)
    ensures Less(Pad(n, w), Pad(m, w)) <==> n < m
    ensures Pad(n, w) == Pad(m, w) <==> n == m
  {
    NumOfPad(n, w);
    NumOfPad(m, w);
    if w > 0 {
      LessPad(n / 10, m / 10, w - 1);
      if n / 10 == m / 10 {
        LessAfter(Pad(n / 10, w - 1), [DigitChar(n % 10)], [DigitChar(m % 10)]);
      } else {
        LessWithin(Pad(n / 10, w - 1), Pad(m / 10, w - 1), [DigitChar(n % 10)], [DigitChar(m % 10)]);
      }
    }
  }

  /** A field of fixed width followed by anything. */
  lemma LessField(n: nat, m: nat, w: nat, x: string, y: string)
    requires n < Pow10(w) && m < Pow10(w)
    ensures Less(Pad(n, w) + x, Pad(m, w) + y) <==> n < m || (n == m && Less(x, y))
  {
    LessPad(n, m, w);
    if n == m {
      LessAfter(Pad(n, w), x, y);
    } else {
      LessWithin(Pad(n, w), Pad(m, w), x, y);
    }
  }

  // Instants

  /** A UTC date and time of day, as its calendar fields. */
  datatype Instant = Instant(year: nat, month: nat, day: nat, hour: nat, minute: nat, second: nat, nano: nat)

  function DaysIn(month: nat, year: nat): nat {
    if month == 2 then (if year % 4 == 0 && (year % 100 != 0 || year % 400 == 0) then 29 else 28)
    else if month == 4 || month == 6 || month == 9 || month == 11 then 30
    else 31
  }

  predicate Valid(t: Instant) {
    && t.year <= 9999 && 1 <= t.month <= 12 && 1 <= t.day <= DaysIn(t.month, t.year)
    && t.hour < 24 && t.minute < 60 && t.second < 60 && t.nano < 1_000_000_000
  }

  /** Days since the first of March of the year zero, the leap day being the last of its year. */
  function DayNumber(year: nat, month: nat, day: nat): int
    requires 1 <= month <= 12
  {
    var y, m := if month <= 2 then year - 1 else year, if month <= 2 then month + 9 else month - 3;
    365 * y + y / 4 - y / 100 + y / 400 + (153 * m + 2) / 5 + day - 1
  }

  /** The first day of the month that follows. */
  function NextMonth(year: nat, month: nat): int
    requires 1 <= month <= 12
  {
    if month == 12 then DayNumber(year + 1, 1, 1) else DayNumber(year, month + 1, 1)
  }

  lemma LastDay(year: nat, month: nat)
    requires 1 <= month <= 12
    ensures DayNumber(year, month, DaysIn(month, year)) + 1 == NextMonth(year, month)
  {
    if month == 1 || month == 2 {
      if month == 2 { LeapYears(year); }
    } else if month <= 6 {
    } else if month <= 9 {
    }
  }

  lemma DaysCountOn(year: nat, month: nat, day: nat, other: nat)
    requires 1 <= month <= 12
    ensures DayNumber(year, month, day) - DayNumber(year, month, other) == day - other
  {
  }

  /** What instants there are: the days of each month are those counted before the first of the next. */
  lemma CalendarExactly(t: Instant)
    ensures Valid(t) <==>
              && t.year <= 9999 && 1 <= t.month <= 12 && 1 <= t.day
              && DayNumber(t.year, t.month, t.day) < NextMonth(t.year, t.month)
              && t.hour <= 23 && t.minute <= 59 && t.second <= 59 && t.nano <= 999_999_999
    ensures DayNumber(1970, 1, 1) == 719_468
  {
    if 1 <= t.month <= 12 {
      LastDay(t.year, t.month);
      DaysCountOn(t.year, t.month, t.day, DaysIn(t.month, t.year));
    }
    hide DayNumber, NextMonth, DaysIn;
    assert DayNumber(1970, 1, 1) == 719_468 by { Epoch(); }
  }

  lemma Epoch()
    ensures DayNumber(1970, 1, 1) == 719_468
  {
  }

  /** A February has its 29th day when another leap day has been counted. */
  lemma LeapYears(year: nat)
    ensures var y := year - 1;
            DaysIn(2, year) == 28 + (year / 4 - y / 4) - (year / 100 - y / 100) + (year / 400 - y / 400)
  {
    Multiples(year);
    FourCounts(year, year / 4, year % 4);
    HundredCounts(year, year / 100, year % 100);
    FourHundredCounts(year, year / 400, year % 400);
  }

  lemma Multiples(year: nat)
    ensures year % 400 == 0 ==> year % 100 == 0
    ensures year % 100 == 0 ==> year % 4 == 0
  {
    assert year == 400 * (year / 400) + year % 400;
    assert year == 100 * (year / 100) + year % 100;
    if year % 400 == 0 { assert year == 100 * (4 * (year / 400)); }
    if year % 100 == 0 { assert year == 4 * (25 * (year / 100)); }
  }

  lemma FourCounts(year: nat, q: int, r: int)
    requires year == 4 * q + r && 0 <= r < 4
    ensures (year - 1) / 4 == if r == 0 then q - 1 else q
  {
  }

  lemma HundredCounts(year: nat, q: int, r: int)
    requires year == 100 * q + r && 0 <= r < 100
    ensures (year - 1) / 100 == if r == 0 then q - 1 else q
  {
  }

  lemma FourHundredCounts(year: nat, q: int, r: int)
    requires year == 400 * q + r && 0 <= r < 400
    ensures (year - 1) / 400 == if r == 0 then q - 1 else q
  {
  }

  predicate SameSecond(t: Instant, u: Instant) {
    t.(nano := 0) == u.(nano := 0)
  }

  predicate Before(t: Instant, u: Instant) {
    || t.year < u.year
    || (t.year == u.year
        && (|| t.month < u.month
            || (t.month == u.month
                && (|| t.day < u.day
                    || (t.day == u.day
                        && (|| t.hour < u.hour
                            || (t.hour == u.hour
                                && (|| t.minute < u.minute
                                    || (t.minute == u.minute
                                        && (t.second < u.second || (t.second == u.second && t.nano < u.nano)))))))))))
  }

  // Printing

  function Trim(s: string): (r: string)
    ensures r <= s
    ensures r != "" ==> r[|r| - 1] != '0'
    ensures forall i :: |r| <= i < |s| ==> s[i] == '0'
  {
    if s != "" && s[|s| - 1] == '0' then Trim(s[..|s| - 1]) else s
  }

  /** The digits after the point: none for a whole second. */
  function Fraction(nano: nat): string {
    Trim(Pad(nano, 9))
  }

  function Tail(fraction: string): string {
    if fraction == "" then "Z" else "." + fraction + "Z"
  }

  /** The date and its T, followed by x. */
  function DateText(t: Instant, x: string): string {
    Pad(t.year, 4) + ("-" + (Pad(t.month, 2) + ("-" + (Pad(t.day, 2) + ("T" + x)))))
  }

  /** The time of day to the second, followed by x. */
  function TimeText(t: Instant, x: string): string {
    Pad(t.hour, 2) + (":" + (Pad(t.minute, 2) + (":" + (Pad(t.second, 2) + x))))
  }

  function Format(t: Instant): string {
    DateText(t, TimeText(t, Tail(Fraction(t.nano))))
  }

  // Parsing

  datatype Parsed = Parsed(value: nat, rest: string)

  /** w digits and a separator. */
  function Field(s: string, w: nat, sep: char): Option<Parsed> {
    if |s| <= w || !AllDigits(s[..w]) || s[w] != sep then None
    else Some(Parsed(Num(s[..w]), s[w + 1..]))
  }

  /** The fraction digits, and nothing after the zone. */
  function ParseTail(s: string): Option<string> {
    if s == "Z" then Some("")
    else if |s| >= 3 && s[0] == '.' && s[|s| - 1] == 'Z' && AllDigits(s[1..|s| - 1]) then Some(s[1..|s| - 1])
    else None
  }

  function Zeros(n: nat): (s: string)
    ensures |s| == n && forall i :: 0 <= i < n ==> s[i] == '0'
  {
    if n == 0 then "" else Zeros(n - 1) + "0"
  }

  /** Nine digits: filled up with zeros, or cut. */
  function NineDigits(fraction: string): (s: string)
    ensures |s| == 9
    ensures AllDigits(fraction) ==> AllDigits(s)
  {
    if |fraction| >= 9 then fraction[..9] else fraction + Zeros(9 - |fraction|)
  }

  function ParseSecond(s: string): Option<Parsed> {
    if |s| < 2 || !AllDigits(s[..2]) then None else Some(Parsed(Num(s[..2]), s[2..]))
  }

  /** What has been read so far, and the text still to read. */
  datatype Partial = Partial(t: Instant, rest: string)

  function ParseDate(s: string): Option<Partial> {
    var year := Field(s, 4, '-');
    if year.None? then None else
    var month := Field(year.value.rest, 2, '-');
    if month.None? then None else
    var day := Field(month.value.rest, 2, 'T');
    if day.None? then None else
    Some(Partial(Instant(year.value.value, month.value.value, day.value.value, 0, 0, 0, 0), day.value.rest))
  }

  function ParseTime(p: Partial): Option<Partial> {
    var hour := Field(p.rest, 2, ':');
    if hour.None? then None else
    var minute := Field(hour.value.rest, 2, ':');
    if minute.None? then None else
    var second := ParseSecond(minute.value.rest);
    if second.None? then None else
    var t := p.t.(hour := hour.value.value, minute := minute.value.value, second := second.value.value);
    Some(Partial(t, second.value.rest))
  }

  /** None is the error of an ill-formed text or an impossible date. */
  function Parse(s: string): Option<Instant> {
    var date := ParseDate(s);
    if date.None? then None else
    var time := ParseTime(date.value);
    if time.None? then None else
    var fraction := ParseTail(time.value.rest);
    if fraction.None? || !AllDigits(fraction.value) then None else
    var t := time.value.t.(nano := Num(NineDigits(fraction.value)));
    if Valid(t) then Some(t) else None
  }

  // Printing then parsing

  lemma FieldOfPad(n: nat, w: nat, sep: char, x: string)
    requires n < Pow10(w)
    ensures Field(Pad(n, w) + ([sep] + x), w, sep) == Some(Parsed(n, x))
  {
    var s := Pad(n, w) + ([sep] + x);
    NumOfPad(n, w);
    assert s[..w] == Pad(n, w);
    assert s[w + 1..] == x;
  }

  lemma PadOfField(s: string, w: nat, sep: char)
    requires Field(s, w, sep).Some?
    ensures var p := Field(s, w, sep).value;
            p.value < Pow10(w) && s == Pad(p.value, w) + ([sep] + p.rest)
  {
    PadOfNum(s[..w]);
    assert s == s[..w] + ([s[w]] + s[w + 1..]);
  }

  lemma SecondOfPad(n: nat, x: string)
    requires n < 100
    ensures ParseSecond(Pad(n, 2) + x) == Some(Parsed(n, x))
  {
    var s := Pad(n, 2) + x;
    assert Pow10(2) == 100 by { assert Pow10(1) == 10; }
    NumOfPad(n, 2);
    assert s[..2] == Pad(n, 2) && s[2..] == x;
  }

  lemma PadOfSecond(s: string)
    requires ParseSecond(s).Some?
    ensures var p := ParseSecond(s).value; s == Pad(p.value, 2) + p.rest
  {
    PadOfNum(s[..2]);
    assert s == s[..2] + s[2..];
  }

  lemma NineDigitsOfTrim(s: string)
    requires |s| == 9
    ensures NineDigits(Trim(s)) == s
  {
  }

  /** A fraction in printed form: at most nine digits, the last not zero. */
  predicate Canonical(fraction: string) {
    |fraction| <= 9 && (fraction != "" ==> fraction[|fraction| - 1] != '0')
  }

  lemma {:induction false} TrimOfZeros(f: string, n: nat)
    requires f != "" ==> f[|f| - 1] != '0'
    ensures Trim(f + Zeros(n)) == f
  {
    if n == 0 {
      assert f + Zeros(0) == f;
    } else {
      assert (f + Zeros(n))[..|f| + n - 1] == f + Zeros(n - 1);
      TrimOfZeros(f, n - 1);
    }
  }

  lemma FractionOfDigits(f: string)
    requires AllDigits(f)
    ensures Num(NineDigits(f)) < 1_000_000_000
    ensures Fraction(Num(NineDigits(f))) == f <==> Canonical(f)
  {
    PadOfNum(NineDigits(f));
    NanosBound();
    if Canonical(f) {
      TrimOfZeros(f, 9 - |f|);
      assert NineDigits(f) == f + Zeros(9 - |f|);
    }
  }

  lemma NanosBound()
    ensures Pow10(9) == 1_000_000_000 && Pow10(4) == 10_000 && Pow10(2) == 100
  {
    assert Pow10(1) == 10;
    assert Pow10(3) == 1000;
    assert Pow10(5) == 100_000;
    assert Pow10(7) == 10_000_000;
  }

  lemma TailParses(f: string)
    requires AllDigits(f)
    ensures ParseTail(Tail(f)) == Some(f)
  {
    if f != "" {
      assert Tail(f)[1..|Tail(f)| - 1] == f;
    }
  }

  lemma TailPrints(s: string)
    requires ParseTail(s).Some?
    ensures Tail(ParseTail(s).value) == s
  {
  }

  lemma DateParses(t: Instant, x: string)
    requires Valid(t)
    ensures ParseDate(DateText(t, x)) == Some(Partial(Instant(t.year, t.month, t.day, 0, 0, 0, 0), x))
  {
    NanosBound();
    var s3 := Pad(t.day, 2) + ("T" + x);
    var s2 := Pad(t.month, 2) + ("-" + s3);
    FieldOfPad(t.year, 4, '-', s2);
    FieldOfPad(t.month, 2, '-', s3);
    FieldOfPad(t.day, 2, 'T', x);
    hide Pad, Field;
  }

  lemma TimeParses(t: Instant, d: Instant, x: string)
    requires Valid(t)
    ensures ParseTime(Partial(d, TimeText(t, x)))
         == Some(Partial(d.(hour := t.hour, minute := t.minute, second := t.second), x))
  {
    NanosBound();
    var s6 := Pad(t.second, 2) + x;
    var s5 := Pad(t.minute, 2) + (":" + s6);
    FieldOfPad(t.hour, 2, ':', s5);
    FieldOfPad(t.minute, 2, ':', s6);
    SecondOfPad(t.second, x);
    hide Pad, Field, ParseSecond;
  }

  /** Every instant survives being printed and parsed. */
  lemma ParseOfFormat(t: Instant)
    requires Valid(t)
    ensures Parse(Format(t)) == Some(t)
  {
    NanosBound();
    var f := Fraction(t.nano);
    DateParses(t, TimeText(t, Tail(f)));
    TimeParses(t, Instant(t.year, t.month, t.day, 0, 0, 0, 0), Tail(f));
    TailParses(f);
    NineDigitsOfTrim(Pad(t.nano, 9));
    NumOfPad(t.nano, 9);
    hide Tail, ParseTail, ParseDate, ParseTime, DateText, TimeText, Num;
  }

  lemma DatePrints(s: string)
    requires ParseDate(s).Some?
    ensures var p := ParseDate(s).value; s == DateText(p.t, p.rest) && |s| == 11 + |p.rest|
  {
    var p1 := Field(s, 4, '-').value;
    var p2 := Field(p1.rest, 2, '-').value;
    PadOfField(s, 4, '-');
    PadOfField(p1.rest, 2, '-');
    PadOfField(p2.rest, 2, 'T');
  }

  lemma TimePrints(p: Partial)
    requires ParseTime(p).Some?
    ensures var q := ParseTime(p).value;
            p.rest == TimeText(q.t, q.rest) && |p.rest| == 8 + |q.rest|
            && q.t == p.t.(hour := q.t.hour, minute := q.t.minute, second := q.t.second)
  {
    var p1 := Field(p.rest, 2, ':').value;
    var p2 := Field(p1.rest, 2, ':').value;
    PadOfField(p.rest, 2, ':');
    PadOfField(p1.rest, 2, ':');
    PadOfSecond(p2.rest);
  }

  /** The fraction digits of a text that parses. */
  function FractionOf(s: string): string {
    if |s| >= 22 then s[20..|s| - 1] else ""
  }

  /** The date and time to the second take nineteen characters. */
  lemma HeadLength(t: Instant, x: string)
    ensures var s := DateText(t, TimeText(t, x)); |s| == 19 + |x| && s[19..] == x
  {
    DateLength(t, TimeText(t, x));
    TimeLength(t, x);
    hide DateText, TimeText;
    var y := TimeText(t, x);
    var s := DateText(t, y);
    assert s[19..] == s[11..][8..];
  }

  lemma DateLength(t: Instant, x: string)
    ensures |DateText(t, x)| == 11 + |x| && DateText(t, x)[11..] == x
  {
    hide Pad;
  }

  lemma TimeLength(t: Instant, x: string)
    ensures |TimeText(t, x)| == 8 + |x| && TimeText(t, x)[8..] == x
  {
    hide Pad;
  }

  lemma TailCancels(f: string, g: string)
    ensures Tail(f) == Tail(g) <==> f == g
  {
    if Tail(f) == Tail(g) && f != "" {
      assert f == Tail(f)[1..|Tail(f)| - 1];
    }
  }

  /** Two texts with the same seconds are the same text exactly when their fractions are. */
  lemma SameHeadSameTail(t: Instant, f: string, g: string)
    ensures DateText(t, TimeText(t, Tail(f))) == DateText(t, TimeText(t, Tail(g))) <==> f == g
  {
    hide DateText, TimeText, Tail;
    HeadLength(t, Tail(f));
    HeadLength(t, Tail(g));
    TailCancels(f, g);
  }

  lemma FractionOfText(t: Instant, f: string)
    ensures FractionOf(DateText(t, TimeText(t, Tail(f)))) == f
  {
    hide DateText, TimeText;
    HeadLength(t, Tail(f));
    var a := DateText(t, TimeText(t, Tail(f)));
    assert f != "" ==> a[20..|a| - 1] == a[19..][1..|a| - 20];
  }

  /** A text that parses is printed back exactly when its fraction is in printed form. */
  lemma FormatOfParse(s: string)
    requires Parse(s).Some?
    ensures var t := Parse(s).value;
            Valid(t) && (Format(t) == s <==> Canonical(FractionOf(s)))
  {
    var date := ParseDate(s).value;
    var time := ParseTime(date).value;
    var f := ParseTail(time.rest).value;
    var t := Parse(s).value;
    DatePrints(s);
    TimePrints(date);
    TailPrints(time.rest);
    FractionOfDigits(f);
    assert s == DateText(t, TimeText(t, Tail(f)));
    FractionOfText(t, f);
    SameHeadSameTail(t, Fraction(t.nano), f);
    hide ParseDate, ParseTime, ParseTail, Fraction, Num, Valid, Canonical, NineDigits, DateText, TimeText, FractionOf;
  }

  // Printed order against time order

  ghost predicate ProperPrefix(a: string, b: string) {
    a < b
  }

  lemma {:induction false} FirstDifference(a: string, b: string) returns (i: nat)
    requires |a| == |b| && Less(a, b)
    ensures i < |a| && a[..i] == b[..i] && a[i] < b[i]
  {
    if a[0] < b[0] {
      i := 0;
    } else {
      i := FirstDifference(a[1..], b[1..]);
      assert a[..i + 1] == [a[0]] + a[1..][..i] && b[..i + 1] == [b[0]] + b[1..][..i];
      i := i + 1;
    }
  }

  lemma LessAt(a: string, b: string, i: nat)
    requires i < |a| && i < |b| && a[..i] == b[..i] && a[i] < b[i]
    ensures Less(a, b) && !Less(b, a)
  {
    assert a == a[..i] + a[i..] && b == b[..i] + b[i..];
    LessAfter(a[..i], a[i..], b[i..]);
    LessAfter(a[..i], b[i..], a[i..]);
  }

  /** Trimmed digits with a difference inside both. */
  lemma TailsDiffer(f: string, g: string, i: nat)
    requires AllDigits(f) && AllDigits(g)
    requires i < |f| && i < |g| && f[..i] == g[..i] && f[i] < g[i]
    ensures Less(Tail(f), Tail(g)) && !Less(Tail(g), Tail(f))
    ensures !ProperPrefix(f, g)
  {
    assert Tail(f)[..i + 1] == "." + f[..i] && Tail(g)[..i + 1] == "." + g[..i];
    LessAt(Tail(f), Tail(g), i + 1);
  }

  /** Digits that begin longer digits: the Z of the shorter text is above any digit and the point. */
  lemma TailOfPrefix(f: string, g: string)
    requires AllDigits(g) && ProperPrefix(f, g)
    ensures Less(Tail(g), Tail(f)) && !Less(Tail(f), Tail(g))
  {
    if f == "" {
      LessAt(Tail(g), Tail(f), 0);
    } else {
      assert Tail(f)[..|f| + 1] == "." + f && Tail(g)[..|f| + 1] == "." + g[..|f|];
      LessAt(Tail(g), Tail(f), |f| + 1);
    }
  }

  /** Of two fractions of one second the earlier sorts first unless its digits begin the later's. */
  lemma TailOrder(n: nat, m: nat)
    requires n < m < 1_000_000_000
    ensures var f, g := Fraction(n), Fraction(m);
            && (Less(Tail(f), Tail(g)) <==> !ProperPrefix(f, g))
            && (Less(Tail(g), Tail(f)) <==> ProperPrefix(f, g))
  {
    hide Pad, Less, Tail, Trim, Pow10;
    var a, b := Pad(n, 9), Pad(m, 9);
    var f, g := Trim(a), Trim(b);
    NanosBound();
    LessPad(n, m, 9);
    var i := FirstDifference(a, b);
    assert i < |g|;
    if i < |f| {
      assert f[..i] == a[..i] && g[..i] == b[..i];
      TailsDiffer(f, g, i);
    } else {
      assert f == a[..|f|] == b[..|f|] == g[..|f|];
      TailOfPrefix(f, g);
    }
  }

  lemma DateOrder(t: Instant, u: Instant, x: string, y: string)
    requires Valid(t) && Valid(u)
    ensures Less(DateText(t, x), DateText(u, y))
       <==> Before(Instant(t.year, t.month, t.day, 0, 0, 0, 0), Instant(u.year, u.month, u.day, 0, 0, 0, 0))
            || (t.year == u.year && t.month == u.month && t.day == u.day && Less(x, y))
  {
    NanosBound();
    var t3, u3 := Pad(t.day, 2) + ("T" + x), Pad(u.day, 2) + ("T" + y);
    var t2, u2 := Pad(t.month, 2) + ("-" + t3), Pad(u.month, 2) + ("-" + u3);
    LessField(t.year, u.year, 4, "-" + t2, "-" + u2);
    LessAfter("-", t2, u2);
    LessField(t.month, u.month, 2, "-" + t3, "-" + u3);
    LessAfter("-", t3, u3);
    LessField(t.day, u.day, 2, "T" + x, "T" + y);
    LessAfter("T", x, y);
    hide Pad, Less;
  }

  lemma TimeOrder(t: Instant, u: Instant, x: string, y: string)
    requires Valid(t) && Valid(u)
    ensures Less(TimeText(t, x), TimeText(u, y))
       <==> Before(Instant(0, 0, 0, t.hour, t.minute, t.second, 0), Instant(0, 0, 0, u.hour, u.minute, u.second, 0))
            || (t.hour == u.hour && t.minute == u.minute && t.second == u.second && Less(x, y))
  {
    NanosBound();
    var t3, u3 := Pad(t.second, 2) + x, Pad(u.second, 2) + y;
    var t2, u2 := Pad(t.minute, 2) + (":" + t3), Pad(u.minute, 2) + (":" + u3);
    LessField(t.hour, u.hour, 2, ":" + t2, ":" + u2);
    LessAfter(":", t2, u2);
    LessField(t.minute, u.minute, 2, ":" + t3, ":" + u3);
    LessAfter(":", t3, u3);
    LessField(t.second, u.second, 2, x, y);
    hide Pad, Less;
  }

  /** For t before u, the text of t sorts before the text of u exactly when they fall in different
      seconds or the fraction digits of t do not begin those of u; otherwise it sorts after. */
  lemma TextOrderExactly(t: Instant, u: Instant)
    requires Valid(t) && Valid(u) && Before(t, u)
    ensures var misordered := SameSecond(t, u) && ProperPrefix(Fraction(t.nano), Fraction(u.nano));
            && (Less(Format(t), Format(u)) <==> !misordered)
            && (Less(Format(u), Format(t)) <==> misordered)
  {
    var x, y := Tail(Fraction(t.nano)), Tail(Fraction(u.nano));
    DateOrder(t, u, TimeText(t, x), TimeText(u, y));
    DateOrder(u, t, TimeText(u, y), TimeText(t, x));
    TimeOrder(t, u, x, y);
    TimeOrder(u, t, y, x);
    if SameSecond(t, u) {
      TailOrder(t.nano, u.nano);
    }
    hide DateText, TimeText, Less, Tail, Fraction, ProperPrefix, DaysIn;
  }

  /** Half a second past sorts after fifty-one hundredths. */
  lemma HalfSortsAfterFiftyOneHundredths()
    ensures var t := Instant(2024, 1, 1, 12, 0, 0, 500_000_000);
            var u := Instant(2024, 1, 1, 12, 0, 0, 510_000_000);
            Valid(t) && Valid(u) && Before(t, u) && Less(Format(u), Format(t))
  {
    hide Format, Less, Fraction;
    FractionOfHalf();
    TextOrderExactly(Instant(2024, 1, 1, 12, 0, 0, 500_000_000), Instant(2024, 1, 1, 12, 0, 0, 510_000_000));
  }

  lemma FractionOfShort(f: string)
    requires AllDigits(f) && Canonical(f)
    ensures Fraction(Num(f) * Pow10(9 - |f|)) == f
  {
    hide Fraction, Num, Pow10;
    FractionOfDigits(f);
    NumShift(f, 9 - |f|);
    assert NineDigits(f) == f + Zeros(9 - |f|);
  }

  lemma FractionOfHalf()
    ensures Fraction(500_000_000) == "5" && Fraction(510_000_000) == "51"
  {
    hide Fraction, Pow10;
    PowersOfTen();
    assert "5"[..0] == "" && "51"[..1] == "5";
    assert Num("5") == 5 && Num("51") == 51;
    FractionOfShort("5");
    FractionOfShort("51");
  }

  lemma PowersOfTen()
    ensures Pow10(8) == 100_000_000 && Pow10(7) == 10_000_000
  {
    assert Pow10(2) == 100;
    assert Pow10(4) == 10_000;
    assert Pow10(6) == 1_000_000;
  }

  lemma {:induction false} NumShift(f: string, n: nat)
    requires AllDigits(f)
    ensures AllDigits(f + Zeros(n)) && Num(f + Zeros(n)) == Num(f) * Pow10(n)
  {
    if n == 0 {
      assert f + Zeros(0) == f;
    } else {
      var shifted := f + Zeros(n - 1);
      NumShift(f, n - 1);
      assert f + Zeros(n) == shifted + "0";
      NumAppendZero(shifted);
      TenTimes(Num(f), Pow10(n - 1));
      hide Num, Zeros;
    }
  }

  lemma NumAppendZero(s: string)
    requires AllDigits(s)
    ensures AllDigits(s + "0") && Num(s + "0") == 10 * Num(s)
  {
    assert (s + "0")[..|s|] == s;
  }

  lemma TenTimes(a: nat, b: nat)
    ensures 10 * (a * b) == a * (10 * b)
  {
  }

  // What the text looks like

  /** Where the fields stand in the text: YYYY-MM-DDThh:mm:ss, the fraction behind a point, and Z. */
  lemma FieldsOfText(t: Instant)
    requires Valid(t)
    ensures var s := Format(t);
            && |s| >= 20 && s[4] == s[7] == '-' && s[10] == 'T' && s[13] == s[16] == ':' && s[|s| - 1] == 'Z'
            && IsNumber(s[..4], t.year) && IsNumber(s[5..7], t.month) && IsNumber(s[8..10], t.day)
            && IsNumber(s[11..13], t.hour) && IsNumber(s[14..16], t.minute) && IsNumber(s[17..19], t.second)
            && (t.nano == 0 <==> |s| == 20)
            && (t.nano > 0 ==> s[19] == '.' && IsFraction(s[20..|s| - 1], t.nano))
  {
    hide DateText, TimeText, Tail, Fraction, IsNumber, IsFraction, DaysIn;
    var rest := Tail(Fraction(t.nano));
    var d := TimeText(t, rest);
    var s := DateText(t, d);
    DateFields(t, d);
    TimeFields(t, rest);
    FractionFields(t.nano);
    assert Format(t) == s;
    assert s[19..] == d[8..];
    assert s[11..13] == d[..2] && s[14..16] == d[3..5] && s[17..19] == d[6..8];
    assert s[13] == d[2] && s[16] == d[5] && s[|s| - 1] == rest[|rest| - 1];
    if t.nano > 0 {
      assert s[20..|s| - 1] == rest[1..|rest| - 1];
    }
  }

  predicate IsNumber(s: string, n: nat) {
    AllDigits(s) && Num(s) == n
  }

  /** The digits of a fraction of a second, the last of them not zero. */
  predicate IsFraction(s: string, nano: nat) {
    && 1 <= |s| <= 9 && AllDigits(s) && s[|s| - 1] != '0'
    && Num(s) * Pow10(9 - |s|) == nano
  }

  lemma DateFields(t: Instant, x: string)
    requires Valid(t)
    ensures var s := DateText(t, x);
            && |s| == 11 + |x| && s[11..] == x && s[4] == s[7] == '-' && s[10] == 'T'
            && IsNumber(s[..4], t.year) && IsNumber(s[5..7], t.month) && IsNumber(s[8..10], t.day)
  {
    hide Pad, Num, Pow10;
    NanosBound();
    NumOfPad(t.year, 4);
    NumOfPad(t.month, 2);
    NumOfPad(t.day, 2);
    var s := DateText(t, x);
    assert s[..4] == Pad(t.year, 4) && s[5..7] == Pad(t.month, 2) && s[8..10] == Pad(t.day, 2);
  }

  lemma TimeFields(t: Instant, x: string)
    requires Valid(t)
    ensures var s := TimeText(t, x);
            && |s| == 8 + |x| && s[8..] == x && s[2] == s[5] == ':'
            && IsNumber(s[..2], t.hour) && IsNumber(s[3..5], t.minute) && IsNumber(s[6..8], t.second)
  {
    hide Pad, Num, Pow10, DaysIn;
    NanosBound();
    NumOfPad(t.hour, 2);
    NumOfPad(t.minute, 2);
    NumOfPad(t.second, 2);
    var s := TimeText(t, x);
    assert s[..2] == Pad(t.hour, 2) && s[3..5] == Pad(t.minute, 2) && s[6..8] == Pad(t.second, 2);
  }

  lemma FractionFields(nano: nat)
    requires nano < 1_000_000_000
    ensures var s := Tail(Fraction(nano));
            && |s| >= 1 && s[|s| - 1] == 'Z' && (nano == 0 <==> |s| == 1)
            && (nano > 0 ==> s[0] == '.' && IsFraction(s[1..|s| - 1], nano))
  {
    hide Fraction, Num, Pow10;
    FractionValue(nano);
    var f := Fraction(nano);
    assert f != "" ==> Tail(f)[1..|Tail(f)| - 1] == f;
  }

  lemma FractionValue(nano: nat)
    requires nano < 1_000_000_000
    ensures var f := Fraction(nano); (nano == 0 <==> f == "") && (f != "" ==> IsFraction(f, nano))
  {
    hide Pad, Zeros, Num, Pow10;
    NanosBound();
    NumOfPad(nano, 9);
    var digits, f := Pad(nano, 9), Fraction(nano);
    assert digits == f + Zeros(9 - |f|) by { SameZeros(digits, f); }
    assert AllDigits(f);
    NumShift(f, 9 - |f|);
    if f == "" {
      NoDigits();
    } else {
      LastDigitCounts(f);
    }
  }

  lemma {:induction false} SameZeros(digits: string, f: string)
    requires f <= digits && forall i :: |f| <= i < |digits| ==> digits[i] == '0'
    ensures digits == f + Zeros(|digits| - |f|)
    decreases |digits|
  {
    if |digits| == |f| {
      assert f + Zeros(0) == f;
    } else {
      var n := |digits| - 1;
      SameZeros(digits[..n], f);
      assert digits == digits[..n] + "0";
    }
  }

  lemma NoDigits()
    ensures Num("") == 0
  {
  }

  lemma LastDigitCounts(f: string)
    requires AllDigits(f) && f != "" && f[|f| - 1] != '0'
    ensures Num(f) > 0
  {
  }
}
