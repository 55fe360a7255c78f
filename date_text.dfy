/**
 * The manual date and time entry of `syncCustomTime`: the date text is split
 * on '-' and the time text on ':', each part is converted with `Number`, and
 * the first three parts of each are destructured into the six arguments of
 * `writeTime`. Nothing is validated: a part that is not a number becomes
 * NaN, a missing part is `undefined`, and both are later written as byte 0.
 */
module DateText {
  import opened Wrappers
  import opened JsValues
  import opened TimeRecord

  predicate IsDigit(c: char) {
    '0' <= c <= '9'
  }

  predicate AllDigits(s: string) {
    forall i :: 0 <= i < |s| ==> IsDigit(s[i])
  }

  /** The number of occurrences of `sep` in `s`. */
  function Occurrences(s: string, sep: char): nat {
    if s == [] then 0 else (if s[0] == sep then 1 else 0) + Occurrences(s[1..], sep)
  }

  /**
   * `String.prototype.split` with a one-character separator: the maximal
   * separator-free pieces between separators, one more than there are
   * separators (so the empty string splits into one empty piece).
   */
  function Split(s: string, sep: char): (parts: seq<string>)
    ensures |parts| == Occurrences(s, sep) + 1
    ensures forall i :: 0 <= i < |parts| ==> sep !in parts[i]
  {
    if s == [] then [[]]
    else
      var rest := Split(s[1..], sep);
      if s[0] == sep then [[]] + rest
      else [[s[0]] + rest[0]] + rest[1..]
  }

  /** `Array.prototype.join`: the pieces with one separator between each two. */
  function Join(parts: seq<string>, sep: char): string
    requires |parts| >= 1
  {
    if |parts| == 1 then parts[0] else parts[0] + [sep] + Join(parts[1..], sep)
  }

  /** Joining the pieces of a split gives back the original text. */
  lemma {:induction false} JoinSplit(s: string, sep: char)
    ensures Join(Split(s, sep), sep) == s
  {
    if s != [] {
      var rest := Split(s[1..], sep);
      JoinSplit(s[1..], sep);
      if s[0] == sep {
        assert Split(s, sep) == [[]] + rest;
        assert Join(Split(s, sep), sep) == [] + [sep] + Join(rest, sep);
      } else if |rest| == 1 {
        assert Split(s, sep) == [[s[0]] + rest[0]];
      } else {
        var parts := Split(s, sep);
        assert parts == [[s[0]] + rest[0]] + rest[1..];
        assert parts[1..] == rest[1..];
        assert Join(parts, sep) == [s[0]] + (rest[0] + [sep] + Join(rest[1..], sep));
      }
    }
  }

  /** A separator-free piece splits into itself alone. */
  lemma {:induction false} SplitWithoutSeparator(a: string, sep: char)
    requires sep !in a
    ensures Split(a, sep) == [a]
  {
    if a != [] {
      SplitWithoutSeparator(a[1..], sep);
      assert [a[0]] + a[1..] == a;
    }
  }

  /** A leading separator-free piece followed by a separator splits off as the first piece. */
  lemma {:induction false} SplitLeadingPiece(a: string, sep: char, t: string)
    requires sep !in a
    ensures Split(a + [sep] + t, sep) == [a] + Split(t, sep)
  {
    if a == [] {
      assert [] + [sep] + t == [sep] + t;
      assert ([sep] + t)[1..] == t;
    } else {
      var s := a + [sep] + t;
      assert s[1..] == a[1..] + [sep] + t;
      SplitLeadingPiece(a[1..], sep, t);
      assert [a[0]] + a[1..] == a;
    }
  }

  /** Splitting separator-free pieces joined by the separator gives back the pieces. */
  lemma {:induction false} SplitJoin(parts: seq<string>, sep: char)
    requires |parts| >= 1
    requires forall i :: 0 <= i < |parts| ==> sep !in parts[i]
    ensures Split(Join(parts, sep), sep) == parts
  {
    if |parts| == 1 {
      SplitWithoutSeparator(parts[0], sep);
    } else {
      SplitJoin(parts[1..], sep);
      SplitLeadingPiece(parts[0], sep, Join(parts[1..], sep));
      assert [parts[0]] + parts[1..] == parts;
    }
  }

  function DigitValue(c: char): (d: nat)
    requires IsDigit(c)
    ensures d < 10
  {
    (c as int) - ('0' as int)
  }

  function DigitChar(d: nat): (c: char)
    requires d < 10
    ensures IsDigit(c) && DigitValue(c) == d
  {
    (('0' as int) + d) as char
  }

  /** 10 to the power `k`. */
  function Pow10(k: nat): (p: nat)
    ensures p >= 1
  {
    if k == 0 then 1 else 10 * Pow10(k - 1)
  }

  /**
   * The value of a string of decimal digits, most significant first; 0 for
   * the empty string. It has fewer digits than the text, and its units digit
   * is the last character.
   */
  function DecimalValue(s: string): (n: nat)
    requires AllDigits(s)
    ensures n < Pow10(|s|)
    ensures |s| >= 1 ==> n % 10 == DigitValue(s[|s| - 1])
  {
    if s == [] then 0 else DecimalValue(s[..|s| - 1]) * 10 + DigitValue(s[|s| - 1])
  }

  /** The shortest decimal text of a non-negative integer, as `String(n)` writes it. */
  function DecimalText(n: nat): (s: string)
    ensures |s| >= 1 && AllDigits(s)
    ensures |s| > 1 ==> s[0] != '0'
  {
    if n < 10 then [DigitChar(n)] else DecimalText(n / 10) + [DigitChar(n % 10)]
  }

  /** Canonical decimal text: digits only, no leading zero unless it is "0" itself. */
  predicate Canonical(s: string) {
    |s| >= 1 && AllDigits(s) && (|s| > 1 ==> s[0] != '0')
  }

  /** Reading back the decimal text of `n` gives `n`. */
  lemma {:induction false} DecimalValueOfText(n: nat)
    ensures DecimalValue(DecimalText(n)) == n
  {
    if n >= 10 {
      DecimalValueOfText(n / 10);
      var s := DecimalText(n);
      assert s[..|s| - 1] == DecimalText(n / 10);
    }
  }

  /** Digit text that does not start with '0' has a positive value. */
  lemma {:induction false} LeadingNonZeroIsPositive(s: string)
    requires |s| >= 1 && AllDigits(s) && s[0] != '0'
    ensures DecimalValue(s) > 0
  {
    if |s| > 1 {
      LeadingNonZeroIsPositive(s[..|s| - 1]);
    }
  }

  /** The other direction: canonical digit text is the decimal text of its value. */
  lemma {:induction false} TextOfDecimalValue(s: string)
    requires Canonical(s)
    ensures DecimalText(DecimalValue(s)) == s
  {
    if |s| > 1 {
      var p := s[..|s| - 1];
      LeadingNonZeroIsPositive(p);
      TextOfDecimalValue(p);
      assert p + [s[|s| - 1]] == s;
    }
  }

  /** Leading zeros do not change the value ("01" is 1). */
  lemma {:induction false} LeadingZeroIgnored(s: string)
    requires AllDigits(s)
    ensures AllDigits("0" + s) && DecimalValue("0" + s) == DecimalValue(s)
  {
    if s != [] {
      var p := s[..|s| - 1];
      LeadingZeroIgnored(p);
      assert ("0" + s)[..|"0" + s| - 1] == "0" + p;
    }
  }

  /**
   * `Number(text)` for the texts this model covers: the empty text is 0,
   * a string of decimal digits is its value, and anything else is NaN.
   */
  function ToNumber(text: string): (v: JsValue)
    ensures v.Num? <==> AllDigits(text)
    ensures v.Num? ==> v.n >= 0
    ensures !v.Num? ==> v == NaN
    ensures text == [] ==> v == Num(0)
  {
    if AllDigits(text) then Num(DecimalValue(text)) else NaN
  }

  /** `Number(String(n)) === n` for non-negative integers. */
  lemma NumberOfDecimalText(n: nat)
    ensures ToNumber(DecimalText(n)) == Num(n)
  {
    DecimalValueOfText(n);
  }

  /** `n` written with `zeros` extra leading zeros, as a date or time input pads it. */
  function Padded(n: nat, zeros: nat): (s: string)
    ensures AllDigits(s) && |s| == zeros + |DecimalText(n)|
  {
    if zeros == 0 then DecimalText(n) else "0" + Padded(n, zeros - 1)
  }

  /** Zero padding does not change what `Number` reads. */
  lemma {:induction false} NumberOfPadded(n: nat, zeros: nat)
    ensures ToNumber(Padded(n, zeros)) == Num(n)
  {
    if zeros == 0 {
      NumberOfDecimalText(n);
    } else {
      NumberOfPadded(n, zeros - 1);
      LeadingZeroIgnored(Padded(n, zeros - 1));
    }
  }

  /** The destructured element `i` of `parts.map(Number)`: `undefined` past the end. */
  function Element(parts: seq<string>, i: nat): JsValue
  {
    if i < |parts| then ToNumber(parts[i]) else Undefined
  }

  /**
   * `const [year, month, day] = dateText.split('-').map(Number)` and
   * `const [hour, minute, second] = timeText.split(':').map(Number)`.
   */
  function ParseDateTime(dateText: string, timeText: string): (f: DateTimeFields)
    ensures f.year != Undefined && f.hour != Undefined
    ensures f.month == Undefined <==> Occurrences(dateText, '-') == 0
    ensures f.day == Undefined <==> Occurrences(dateText, '-') < 2
    ensures f.minute == Undefined <==> Occurrences(timeText, ':') == 0
    ensures f.second == Undefined <==> Occurrences(timeText, ':') < 2
  {
    var date := Split(dateText, '-');
    var time := Split(timeText, ':');
    DateTimeFields(Element(date, 0), Element(date, 1), Element(date, 2),
                   Element(time, 0), Element(time, 1), Element(time, 2))
  }

  /** Text made of three separator-free pieces splits into exactly those pieces. */
  lemma SplitThree(a: string, b: string, c: string, sep: char)
    requires sep !in a && sep !in b && sep !in c
    ensures Split(a + [sep] + b + [sep] + c, sep) == [a, b, c]
  {
    var tail := b + [sep] + c;
    assert a + [sep] + b + [sep] + c == a + [sep] + tail;
    SplitLeadingPiece(a, sep, tail);
    SplitLeadingPiece(b, sep, c);
    SplitWithoutSeparator(c, sep);
  }

  /**
   * Three pieces free of '-' and three free of ':' are read piece by piece:
   * each field is `Number` of its piece, whatever the pieces hold.
   */
  lemma ParseThreePieces(y: string, mo: string, d: string, h: string, mi: string, s: string)
    requires '-' !in y && '-' !in mo && '-' !in d
    requires ':' !in h && ':' !in mi && ':' !in s
    ensures ParseDateTime(y + "-" + mo + "-" + d, h + ":" + mi + ":" + s) ==
      DateTimeFields(ToNumber(y), ToNumber(mo), ToNumber(d), ToNumber(h), ToNumber(mi), ToNumber(s))
  {
    SplitThree(y, mo, d, '-');
    SplitThree(h, mi, s, ':');
  }

  /** Digit text contains neither separator. */
  lemma DigitsHaveNoSeparator(s: string)
    requires AllDigits(s)
    ensures '-' !in s && ':' !in s
  {
  }

  /** The text of a date input, "YYYY-MM-DD", for the given (zero-padded) numbers. */
  function DateInputText(year: nat, yearZeros: nat, month: nat, monthZeros: nat, day: nat, dayZeros: nat): string {
    Padded(year, yearZeros) + "-" + Padded(month, monthZeros) + "-" + Padded(day, dayZeros)
  }

  /** The text of a time input, "HH:MM:SS", for the given (zero-padded) numbers. */
  function TimeInputText(hour: nat, hourZeros: nat, minute: nat, minuteZeros: nat, second: nat, secondZeros: nat): string {
    Padded(hour, hourZeros) + ":" + Padded(minute, minuteZeros) + ":" + Padded(second, secondZeros)
  }

  /** Well-formed input text, padded or not, is parsed into exactly the numbers it shows. */
  lemma ParseWellFormed(year: nat, yz: nat, month: nat, mz: nat, day: nat, dz: nat,
                        hour: nat, hz: nat, minute: nat, iz: nat, second: nat, sz: nat)
    ensures ParseDateTime(DateInputText(year, yz, month, mz, day, dz),
                          TimeInputText(hour, hz, minute, iz, second, sz)) ==
      DateTimeFields(Num(year), Num(month), Num(day), Num(hour), Num(minute), Num(second))
  {
    DigitsHaveNoSeparator(Padded(year, yz));
    DigitsHaveNoSeparator(Padded(month, mz));
    DigitsHaveNoSeparator(Padded(day, dz));
    DigitsHaveNoSeparator(Padded(hour, hz));
    DigitsHaveNoSeparator(Padded(minute, iz));
    DigitsHaveNoSeparator(Padded(second, sz));
    ParseThreePieces(Padded(year, yz), Padded(month, mz), Padded(day, dz),
                     Padded(hour, hz), Padded(minute, iz), Padded(second, sz));
    NumberOfPadded(year, yz);
    NumberOfPadded(month, mz);
    NumberOfPadded(day, dz);
    NumberOfPadded(hour, hz);
    NumberOfPadded(minute, iz);
    NumberOfPadded(second, sz);
  }

  /**
   * End to end: a manual sync of well-formed text within the field widths
   * writes those very numbers at offsets 0 to 6, and today's weekday at 7.
   */
  lemma ManualEntryRoundTrip(year: nat, yz: nat, month: nat, mz: nat, day: nat, dz: nat,
                             hour: nat, hz: nat, minute: nat, iz: nat, second: nat, sz: nat, today: JsDay)
    requires year < 0x1_0000 && month < 0x100 && day < 0x100
    requires hour < 0x100 && minute < 0x100 && second < 0x100
    ensures DecodeCurrentTime(TimeRecordBytes(ParseDateTime(DateInputText(year, yz, month, mz, day, dz),
                                                            TimeInputText(hour, hz, minute, iz, second, sz)), today))
         == Some(CurrentTime(year, month, day, hour, minute, second, WeekdayIndex(today), 0, 0))
  {
    ParseWellFormed(year, yz, month, mz, day, dz, hour, hz, minute, iz, second, sz);
    RoundTrip(year, month, day, hour, minute, second, today);
  }

  /** The value of one more digit appended to digit text. */
  lemma AppendDigit(p: string, c: char)
    requires AllDigits(p) && IsDigit(c)
    ensures AllDigits(p + [c]) && DecimalValue(p + [c]) == 10 * DecimalValue(p) + DigitValue(c)
  {
  }

  /** The value of two decimal digits. */
  lemma TwoDigitValue(s: string)
    requires |s| == 2 && AllDigits(s)
    ensures ToNumber(s) == Num(10 * DigitValue(s[0]) + DigitValue(s[1]))
  {
    AppendDigit([], s[0]);
    AppendDigit([s[0]], s[1]);
    assert [s[0]] + [s[1]] == s;
  }

  /** The value of four decimal digits. */
  lemma FourDigitValue(s: string)
    requires |s| == 4 && AllDigits(s)
    ensures ToNumber(s) == Num(1000 * DigitValue(s[0]) + 100 * DigitValue(s[1]) + 10 * DigitValue(s[2]) + DigitValue(s[3]))
  {
    AppendDigit([], s[0]);
    AppendDigit([s[0]], s[1]);
    AppendDigit([s[0], s[1]], s[2]);
    AppendDigit([s[0], s[1], s[2]], s[3]);
    assert [s[0]] + [s[1]] == [s[0], s[1]];
    assert [s[0], s[1]] + [s[2]] == [s[0], s[1], s[2]];
    assert [s[0], s[1], s[2]] + [s[3]] == s;
  }

  /** "2024-01-15" and "08:30:00" are read as 2024, 1, 15, 8, 30 and 0. */
  lemma ParseExample(dateText: string, timeText: string)
    requires dateText == "2024-01-15" && timeText == "08:30:00"
    ensures ParseDateTime(dateText, timeText) == DateTimeFields(Num(2024), Num(1), Num(15), Num(8), Num(30), Num(0))
  {
    var y, mo, d := dateText[..4], dateText[5..7], dateText[8..];
    var h, mi, sec := timeText[..2], timeText[3..5], timeText[6..];
    assert dateText == y + "-" + mo + "-" + d;
    assert timeText == h + ":" + mi + ":" + sec;
    ParseThreePieces(y, mo, d, h, mi, sec);
    FourDigitValue(y);
    TwoDigitValue(mo);
    TwoDigitValue(d);
    TwoDigitValue(h);
    TwoDigitValue(mi);
    TwoDigitValue(sec);
  }

  /** "2024-01-15" and "08:30:00" are written as E8 07 01 0F 08 1E 00, today's weekday, 00 00. */
  lemma ManualEntryExample(dateText: string, timeText: string, today: JsDay)
    requires dateText == "2024-01-15" && timeText == "08:30:00"
    ensures TimeRecordBytes(ParseDateTime(dateText, timeText), today) ==
      [0xE8, 0x07, 1, 15, 8, 30, 0, WeekdayIndex(today), 0, 0]
  {
    ParseExample(dateText, timeText);
  }

  /**
   * Malformed text is not rejected: "not-a-date" gives three NaN fields,
   * which are written as zero bytes.
   */
  lemma MalformedDateWritesZeros(dateText: string, timeText: string, today: JsDay)
    requires dateText == "not-a-date"
    ensures ParseDateTime(dateText, timeText).year == NaN
    ensures ParseDateTime(dateText, timeText).month == NaN
    ensures ParseDateTime(dateText, timeText).day == NaN
    ensures TimeRecordBytes(ParseDateTime(dateText, timeText), today)[..4] == [0, 0, 0, 0]
  {
    assert dateText == "not" + "-" + "a" + "-" + "date";
    SplitThree("not", "a", "date", '-');
    assert !IsDigit("not"[0]) && !IsDigit("a"[0]) && !IsDigit("date"[0]);
  }

  /**
   * An empty date input gives year `Number("") === 0` and an `undefined`
   * month and day: all four date bytes are zero and a write still happens.
   */
  lemma EmptyDateWritesZeros(timeText: string, today: JsDay)
    ensures ParseDateTime("", timeText).year == Num(0)
    ensures ParseDateTime("", timeText).month == Undefined
    ensures ParseDateTime("", timeText).day == Undefined
    ensures TimeRecordBytes(ParseDateTime("", timeText), today)[..4] == [0, 0, 0, 0]
  {
  }
}
