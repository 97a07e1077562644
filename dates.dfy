/** Calendar dates and their `dd-mm-yyyy` text (the `%d-%m-%Y` format shared by
    data_entry.py and main.py). Dates are structured values inside the model;
    text appears only where the program reads or writes it. */
module Dates {
  import opened Wrappers

  /** A day, month and year; `Valid` says which triples are real dates. */
  datatype Date = Date(day: int, month: int, year: int)

  /** Years whose `%Y` text is four digits on every platform. */
  const MinYear := 1000
  const MaxYear := 9999

  /** The `%d-%m-%Y` separator. */
  const Sep := '-'

  predicate IsLeapYear(y: int)
  {
    y % 4 == 0 && (y % 100 != 0 || y % 400 == 0)
  }

  function DaysInMonth(m: int, y: int): (n: int)
    requires 1 <= m <= 12
    ensures 28 <= n <= 31
    ensures m == 2 ==> (n == 29 <==> IsLeapYear(y))
  {
    if m == 2 then (if IsLeapYear(y) then 29 else 28)
    else if m == 4 || m == 6 || m == 9 || m == 11 then 30
    else 31
  }

  /** Gregorian validity, as the `datetime` constructor checks it. */
  predicate Valid(d: Date)
  {
    MinYear <= d.year <= MaxYear && 1 <= d.month <= 12 && 1 <= d.day <= DaysInMonth(d.month, d.year)
  }

  /** Chronological order: `datetime` compares (year, month, day) lexicographically. */
  predicate Le(a: Date, b: Date)
  {
    a.year < b.year || (a.year == b.year && (a.month < b.month || (a.month == b.month && a.day <= b.day)))
  }

  lemma LeTotalOrder(a: Date, b: Date, c: Date)
    ensures Le(a, a)
    ensures Le(a, b) && Le(b, a) ==> a == b
    ensures Le(a, b) && Le(b, c) ==> Le(a, c)
    ensures Le(a, b) || Le(b, a)
  {
  }

  // ---------------------------------------------------------------- digits

  predicate IsDigit(c: char)
  {
    '0' <= c <= '9'
  }

  predicate AllDigits(t: string)
  {
    forall i :: 0 <= i < |t| ==> IsDigit(t[i])
  }

  function DigitValue(c: char): (n: int)
    requires IsDigit(c)
    ensures 0 <= n <= 9
  {
    c as int - '0' as int
  }

  function DigitChar(n: int): (c: char)
    requires 0 <= n <= 9
    ensures IsDigit(c) && DigitValue(c) == n
  {
    ('0' as int + n) as char
  }

  /** The value of a string of decimal digits, most significant first. */
  function Number(t: string): (n: nat)
    requires AllDigits(t)
  {
    if t == [] then 0 else Number(t[..|t| - 1]) * 10 + DigitValue(t[|t| - 1])
  }

  /** Zero-padded two-digit text, as `%d` and `%m` print. */
  function Pad2(n: int): (t: string)
    requires 0 <= n <= 99
    ensures |t| == 2 && AllDigits(t)
  {
    [DigitChar(n / 10), DigitChar(n % 10)]
  }

  /** Four-digit text, as `%Y` prints a year from 1000 to 9999. */
  function Pad4(n: int): (t: string)
    requires 0 <= n <= 9999
    ensures |t| == 4 && AllDigits(t)
  {
    Pad2(n / 100) + Pad2(n % 100)
  }

  lemma Number2(t: string)
    requires |t| == 2 && AllDigits(t)
    ensures Number(t) == DigitValue(t[0]) * 10 + DigitValue(t[1])
  {
    var p1 := t[..1];
    assert p1[..0] == [];
    assert Number(p1) == DigitValue(t[0]);
    assert t[..|t| - 1] == p1;
  }

  lemma Number4(t: string)
    requires |t| == 4 && AllDigits(t)
    ensures Number(t) == ((DigitValue(t[0]) * 10 + DigitValue(t[1])) * 10 + DigitValue(t[2])) * 10 + DigitValue(t[3])
  {
    var p3, p2, p1 := t[..3], t[..2], t[..1];
    assert p3[..2] == p2 && p2[..1] == p1 && p1[..0] == [];
    assert Number(p1) == DigitValue(t[0]);
    assert Number(p2) == Number(p1) * 10 + DigitValue(t[1]);
    assert Number(p3) == Number(p2) * 10 + DigitValue(t[2]);
    assert t[..|t| - 1] == p3;
  }

  lemma Pad2Number(n: int)
    requires 0 <= n <= 99
    ensures Number(Pad2(n)) == n
  {
    Number2(Pad2(n));
  }

  lemma Pad4Number(n: int)
    requires 0 <= n <= 9999
    ensures Number(Pad4(n)) == n
  {
    var t := Pad4(n);
    Number4(t);
    Number2(Pad2(n / 100));
    Number2(Pad2(n % 100));
    Pad2Number(n / 100);
    Pad2Number(n % 100);
  }

  lemma NumberPad2(t: string)
    requires |t| == 2 && AllDigits(t)
    ensures Number(t) <= 99 && Pad2(Number(t)) == t
  {
    Number2(t);
  }

  lemma NumberPad4(t: string)
    requires |t| == 4 && AllDigits(t)
    ensures Number(t) <= 9999 && Pad4(Number(t)) == t
  {
    var hi, lo := t[..2], t[2..];
    assert t == hi + lo;
    Number4(t);
    Number2(hi);
    Number2(lo);
    var n := Number(t);
    assert n == Number(hi) * 100 + Number(lo);
    assert n / 100 == Number(hi) && n % 100 == Number(lo);
    NumberPad2(hi);
    NumberPad2(lo);
  }

  // ---------------------------------------------------------------- splitting

  /** The fields of `s` between occurrences of `sep` (Python's `s.split(sep)`). */
  function Split(s: string, sep: char): (parts: seq<string>)
    ensures |parts| >= 1
    ensures forall i :: 0 <= i < |parts| ==> sep !in parts[i]
  {
    if s == [] then [[]]
    else
      var rest := Split(s[1..], sep);
      if s[0] == sep then [[]] + rest else [[s[0]] + rest[0]] + rest[1..]
  }

  /** Splitting text that holds no separator gives the text itself. */
  lemma {:induction false} SplitNoSep(a: string, sep: char)
    requires sep !in a
    ensures Split(a, sep) == [a]
  {
    if a != [] {
      SplitNoSep(a[1..], sep);
      assert a == [a[0]] + a[1..];
    }
  }

  /** A separator after a separator-free field ends that field. */
  lemma {:induction false} SplitAfterField(a: string, b: string, sep: char)
    requires sep !in a
    ensures Split(a + [sep] + b, sep) == [a] + Split(b, sep)
  {
    var s := a + [sep] + b;
    if a == [] {
      assert s[1..] == b;
    } else {
      assert s[0] == a[0] && s[1..] == a[1..] + [sep] + b;
      SplitAfterField(a[1..], b, sep);
      assert a == [a[0]] + a[1..];
    }
  }

  lemma SplitThree(a: string, b: string, c: string, sep: char)
    requires sep !in a && sep !in b && sep !in c
    ensures Split(a + [sep] + b + [sep] + c, sep) == [a, b, c]
  {
    assert a + [sep] + b + [sep] + c == a + [sep] + (b + [sep] + c);
    SplitAfterField(a, b + [sep] + c, sep);
    SplitAfterField(b, c, sep);
    SplitNoSep(c, sep);
  }

  // ---------------------------------------------------------------- fields

  /** The `%d` directive: `3[01]`, `[12]` and a digit, `0[1-9]`, `[1-9]`, or a
      space and `[1-9]`. */
  function DayField(t: string): (r: Option<int>)
    ensures r.Some? ==> 1 <= r.value <= 31
  {
    if |t| == 1 && '1' <= t[0] <= '9' then Some(DigitValue(t[0]))
    else if |t| == 2 && t[0] == ' ' && '1' <= t[1] <= '9' then Some(DigitValue(t[1]))
    else if |t| == 2 && AllDigits(t) && 1 <= Number(t) <= 31 then Some(Number(t))
    else None
  }

  /** `%d` reads exactly the renderings of a day number from 1 to 31: two
      digits, or for 1 to 9 one digit or a space and a digit. */
  lemma DayFieldReads(t: string, n: int)
    ensures DayField(t) == Some(n) <==>
              1 <= n <= 31 && (t == Pad2(n) || (n <= 9 && (t == [DigitChar(n)] || t == [' ', DigitChar(n)])))
  {
    if 1 <= n <= 31 {
      Pad2Number(n);
    }
    if |t| == 1 && '1' <= t[0] <= '9' {
      assert t == [DigitChar(DigitValue(t[0]))];
    } else if |t| == 2 && t[0] == ' ' && '1' <= t[1] <= '9' {
      assert t == [' ', DigitChar(DigitValue(t[1]))];
    } else if |t| == 2 && AllDigits(t) {
      NumberPad2(t);
    }
  }

  /** The `%m` directive: `1[0-2]`, `0[1-9]` or `[1-9]`. */
  function MonthField(t: string): (r: Option<int>)
    ensures r.Some? ==> 1 <= r.value <= 12
  {
    if |t| == 1 && '1' <= t[0] <= '9' then Some(DigitValue(t[0]))
    else if |t| == 2 && AllDigits(t) && 1 <= Number(t) <= 12 then Some(Number(t))
    else None
  }

  /** `%m` reads exactly the renderings of a month number from 1 to 12: two
      digits, or for 1 to 9 one digit; never a leading space. */
  lemma MonthFieldReads(t: string, n: int)
    ensures MonthField(t) == Some(n) <==> 1 <= n <= 12 && (t == Pad2(n) || (n <= 9 && t == [DigitChar(n)]))
  {
    if 1 <= n <= 12 {
      Pad2Number(n);
    }
    if |t| == 1 && '1' <= t[0] <= '9' {
      assert t == [DigitChar(DigitValue(t[0]))];
    } else if |t| == 2 && AllDigits(t) {
      NumberPad2(t);
    }
  }

  /** The `%Y` directive: exactly four digits, read as their number. */
  function YearField(t: string): (r: Option<int>)
    ensures r.Some? ==> 0 <= r.value <= 9999
  {
    if |t| == 4 && AllDigits(t) then Number4(t); Some(Number(t)) else None
  }

  /** `%Y` reads exactly the four-digit renderings of the numbers 0 to 9999. */
  lemma YearFieldReads(t: string, n: int)
    ensures YearField(t) == Some(n) <==> 0 <= n <= 9999 && t == Pad4(n)
  {
    if 0 <= n <= 9999 {
      Pad4Number(n);
    }
    if |t| == 4 && AllDigits(t) {
      NumberPad4(t);
    }
  }

  // ---------------------------------------------------------------- parse / format

  /** `strptime(s, "%d-%m-%Y")`: the whole text must match the three fields and
      the two separators, and the fields must name a real date. */
  function Parse(s: string): (r: Option<Date>)
    ensures r.Some? ==> Valid(r.value)
  {
    var parts := Split(s, Sep);
    if |parts| != 3 then None
    else
      match (DayField(parts[0]), MonthField(parts[1]), YearField(parts[2]))
      case (Some(d), Some(m), Some(y)) =>
        if MinYear <= y && d <= DaysInMonth(m, y) then Some(Date(d, m, y)) else None
      case _ => None
  }

  /** The canonical `dd-mm-yyyy` shape: zero-padded digits and two separators. */
  predicate Canonical(s: string)
  {
    |s| == 10 && s[2] == Sep && s[5] == Sep && AllDigits(s[..2]) && AllDigits(s[3..5]) && AllDigits(s[6..])
  }

  /** `strftime(d, "%d-%m-%Y")`. */
  function Format(d: Date): (s: string)
    requires Valid(d)
    ensures Canonical(s)
  {
    var s := Pad2(d.day) + [Sep] + Pad2(d.month) + [Sep] + Pad4(d.year);
    assert s[..2] == Pad2(d.day) && s[3..5] == Pad2(d.month) && s[6..] == Pad4(d.year);
    s
  }

  /** Formatting a date and parsing the text back gives the same date. */
  lemma ParseFormat(d: Date)
    requires Valid(d)
    ensures Parse(Format(d)) == Some(d)
  {
    SplitThree(Pad2(d.day), Pad2(d.month), Pad4(d.year), Sep);
    Pad2Number(d.day);
    Pad2Number(d.month);
    Pad4Number(d.year);
  }

  /** Text already in canonical shape that parses is exactly the format of
      what it parses to. */
  lemma FormatParse(s: string)
    requires Canonical(s) && Parse(s).Some?
    ensures Format(Parse(s).value) == s
  {
    var a, b, c := s[..2], s[3..5], s[6..];
    assert s == a + [Sep] + b + [Sep] + c;
    assert Sep !in a && Sep !in b && Sep !in c by {
      assert forall i :: 0 <= i < |a| ==> IsDigit(a[i]);
      assert forall i :: 0 <= i < |b| ==> IsDigit(b[i]);
      assert forall i :: 0 <= i < |c| ==> IsDigit(c[i]);
    }
    SplitThree(a, b, c, Sep);
    var d := Parse(s).value;
    NumberPad2(a);
    NumberPad2(b);
    assert d.day == Number(a) && d.month == Number(b) && d.year == Number(c);
    NumberPad4(c);
  }

  /** On canonical text `Parse` is plain calendar validity of the three
      numbers read from the digit pairs and the year. */
  lemma ParseCanonical(s: string)
    requires Canonical(s)
    ensures var d, m, y := Number(s[..2]), Number(s[3..5]), Number(s[6..]);
            Parse(s) == if 1 <= m <= 12 && 1 <= d <= DaysInMonth(m, y) && MinYear <= y
                        then Some(Date(d, m, y)) else None
  {
    var a, b, c := s[..2], s[3..5], s[6..];
    assert s == a + [Sep] + b + [Sep] + c;
    assert Sep !in a && Sep !in b && Sep !in c by {
      assert forall i :: 0 <= i < |a| ==> IsDigit(a[i]);
      assert forall i :: 0 <= i < |b| ==> IsDigit(b[i]);
      assert forall i :: 0 <= i < |c| ==> IsDigit(c[i]);
    }
    SplitThree(a, b, c, Sep);
    Number2(a);
    Number4(c);
  }

  /** Text without a `-` never parses: a wrong separator is rejected. */
  lemma NoSeparatorRejected(s: string)
    requires Sep !in s
    ensures Parse(s) == None
  {
    SplitNoSep(s, Sep);
  }

  /** 29 February parses exactly in leap years. */
  lemma LeapDay(y: int)
    requires MinYear <= y <= MaxYear
    ensures Parse(Pad2(29) + [Sep] + Pad2(2) + [Sep] + Pad4(y)).Some? <==> IsLeapYear(y)
  {
    var s := Pad2(29) + [Sep] + Pad2(2) + [Sep] + Pad4(y);
    assert s[..2] == Pad2(29) && s[3..5] == Pad2(2) && s[6..] == Pad4(y);
    ParseCanonical(s);
    Pad2Number(29);
    Pad2Number(2);
    Pad4Number(y);
  }

  /** A month number above 12 is rejected. */
  lemma RejectsBadMonth(s: string)
    requires Canonical(s) && Number(s[3..5]) > 12
    ensures Parse(s) == None
  {
    ParseCanonical(s);
  }

  /** A day past the end of its month is rejected (31 April, 30 February). */
  lemma RejectsDayPastMonthEnd(s: string)
    requires Canonical(s) && 1 <= Number(s[3..5]) <= 12
    requires Number(s[..2]) > DaysInMonth(Number(s[3..5]), Number(s[6..]))
    ensures Parse(s) == None
  {
    ParseCanonical(s);
  }

  /** `%d` and `%m` also accept a single digit, and `%d` a space and a
      digit: every such rendering of a valid date parses to that date. */
  lemma AcceptsShortFields(date: Date)
    requires Valid(date) && date.day <= 9 && date.month <= 9
    ensures Parse([DigitChar(date.day)] + [Sep] + [DigitChar(date.month)] + [Sep] + Pad4(date.year)) == Some(date)
    ensures Parse([' ', DigitChar(date.day)] + [Sep] + [DigitChar(date.month)] + [Sep] + Pad4(date.year)) == Some(date)
  {
    var m, y := [DigitChar(date.month)], Pad4(date.year);
    DayFieldReads([DigitChar(date.day)], date.day);
    DayFieldReads([' ', DigitChar(date.day)], date.day);
    MonthFieldReads(m, date.month);
    YearFieldReads(y, date.year);
    SplitThree([DigitChar(date.day)], m, y, Sep);
    SplitThree([' ', DigitChar(date.day)], m, y, Sep);
  }

  /** The instance `1-3-2024`, which `Format` writes back as `01-03-2024`. */
  lemma AcceptsOneDigitFields()
    ensures Parse("1-3-2024") == Some(Date(1, 3, 2024))
  {
    AcceptsShortFields(Date(1, 3, 2024));
    assert Pad4(2024) == "2024" by {
      assert Pad2(20) == "20" && Pad2(24) == "24";
    }
    assert "1-3-2024" == [DigitChar(1)] + [Sep] + [DigitChar(3)] + [Sep] + Pad4(2024);
  }

  lemma FormatPadsFields()
    ensures Format(Date(1, 3, 2024)) == "01-03-2024"
  {
    assert Pad2(1) == "01" && Pad2(3) == "03";
    assert Pad2(20) == "20" && Pad2(24) == "24";
  }
}
