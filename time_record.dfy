/**
 * The clock record that `writeTime` sends to the band: the Current Time
 * characteristic of the Bluetooth Current Time Service (CTS v1.1,
 * section 3.1), i.e. Exact Time 256 followed by Adjust Reason, ten bytes:
 *
 *   0-1  year, little-endian uint16     5  minutes
 *   2    month                          6  seconds
 *   3    day                            7  day of week
 *   4    hours                          8  fractions of a second (1/256)
 *                                       9  adjust reason
 *
 * No field is range-checked: each is reduced modulo 2^16 or 2^8 by the
 * `DataView` setter. The day of week is taken from the clock at the
 * moment of writing, not from the date being written, and is numbered
 * 0 = Monday ... 6 = Sunday, whereas the Current Time Service numbers
 * Monday ... Sunday as 1 ... 7 and reserves 0 for "unknown".
 */
module TimeRecord {
  import opened Wrappers
  import opened JsValues

  /** Length of the record, `new ArrayBuffer(10)`. */
  const RecordLength := 10

  /** The six values passed to `writeTime(year, month, day, hour, minute, second)`. */
  datatype DateTimeFields = DateTimeFields(
    year: JsValue, month: JsValue, day: JsValue,
    hour: JsValue, minute: JsValue, second: JsValue)

  /** The value of `Date.prototype.getDay`: 0 = Sunday, 1 = Monday, ..., 6 = Saturday. */
  type JsDay = d: int | 0 <= d < 7

  /** The record as a receiver reads it back, field by field. */
  datatype CurrentTime = CurrentTime(
    year: int, month: int, day: int, hours: int, minutes: int, seconds: int,
    dayOfWeek: int, fractions256: int, adjustReason: int)

  /**
   * The weekday byte `writeTime` writes for today: days counted from Monday,
   * so that Monday is 0 and Sunday, which `getDay` calls 0, is 6.
   */
  function WeekdayIndex(today: JsDay): (w: int)
    ensures 0 <= w < 7
    ensures (w + 1) % 7 == today
  {
    (today + 6) % 7
  }

  /** The Day of Week value of the Current Time Service: 1 = Monday ... 7 = Sunday. */
  function CtsDayOfWeek(today: JsDay): (d: int)
    ensures 1 <= d <= 7
  {
    if today == 0 then 7 else today
  }

  /** Every weekday byte the code writes is one less than the standard's value for the same day. */
  lemma WeekdayIsCtsDayMinusOne(today: JsDay)
    ensures WeekdayIndex(today) == CtsDayOfWeek(today) - 1
    ensures WeekdayIndex(today) == 0 <==> today == 1
    ensures WeekdayIndex(today) == 6 <==> today == 0
  {
  }

  /** Distinct days give distinct weekday bytes: the numbering loses nothing. */
  lemma WeekdayIndexInjective(d1: JsDay, d2: JsDay)
    requires WeekdayIndex(d1) == WeekdayIndex(d2)
    ensures d1 == d2
  {
  }

  /** The ten bytes `writeTime` builds for `f`, with `today` the `getDay()` of its own clock reading. */
  function TimeRecordBytes(f: DateTimeFields, today: JsDay): (r: seq<byte>)
    ensures |r| == RecordLength
    ensures r[0] as int + 0x100 * r[1] as int == ToUint16(f.year)
    ensures r[8] == 0 && r[9] == 0
  {
    var year := ToUint16(f.year);
    [year % 0x100, year / 0x100,
     ToUint8(f.month), ToUint8(f.day), ToUint8(f.hour), ToUint8(f.minute), ToUint8(f.second),
     WeekdayIndex(today), 0, 0]
  }

  /**
   * The buffer construction of `writeTime`: a zero-filled ten-byte buffer
   * written through a `DataView`, one setter per offset.
   */
  method EncodeTimeRecord(f: DateTimeFields, today: JsDay) returns (buffer: array<byte>)
    ensures fresh(buffer)
    ensures buffer[..] == TimeRecordBytes(f, today)
  {
    buffer := new byte[RecordLength](_ => 0);
    SetUint16LittleEndian(buffer, 0, f.year);
    SetUint8(buffer, 2, f.month);
    SetUint8(buffer, 3, f.day);
    SetUint8(buffer, 4, f.hour);
    SetUint8(buffer, 5, f.minute);
    SetUint8(buffer, 6, f.second);
    SetUint8(buffer, 7, Num(WeekdayIndex(today)));
    SetUint8(buffer, 8, Num(0));
    SetUint8(buffer, 9, Num(0));
  }

  /** Reading a Current Time value back, as the band does; anything but ten bytes is rejected. */
  function DecodeCurrentTime(bytes: seq<byte>): (r: Option<CurrentTime>)
    ensures r.Some? <==> |bytes| == RecordLength
    ensures r.Some? ==> 0 <= r.value.year < 0x1_0000 && 0 <= r.value.dayOfWeek < 0x100
  {
    if |bytes| != RecordLength then None
    else
      var year := GetUint16LittleEndian(bytes, 0).value;
      Some(CurrentTime(year, bytes[2], bytes[3], bytes[4], bytes[5], bytes[6],
                       bytes[7], bytes[8], bytes[9]))
  }

  /**
   * Decoding what `writeTime` encodes gives back every field reduced the way
   * its `DataView` setter reduces it, today's weekday, and zeros for the
   * fraction and the adjust reason.
   */
  lemma DecodeEncode(f: DateTimeFields, today: JsDay)
    ensures DecodeCurrentTime(TimeRecordBytes(f, today)) ==
      Some(CurrentTime(ToUint16(f.year), ToUint8(f.month), ToUint8(f.day),
                       ToUint8(f.hour), ToUint8(f.minute), ToUint8(f.second),
                       WeekdayIndex(today), 0, 0))
  {
  }

  /**
   * Round trip: a year in 0..65535 and the other five values in 0..255
   * come back unchanged at offsets 0 to 6.
   */
  lemma RoundTrip(year: int, month: int, day: int, hour: int, minute: int, second: int, today: JsDay)
    requires 0 <= year < 0x1_0000
    requires 0 <= month < 0x100 && 0 <= day < 0x100 && 0 <= hour < 0x100
    requires 0 <= minute < 0x100 && 0 <= second < 0x100
    ensures DecodeCurrentTime(TimeRecordBytes(DateTimeFields(Num(year), Num(month), Num(day),
                                                             Num(hour), Num(minute), Num(second)), today))
         == Some(CurrentTime(year, month, day, hour, minute, second, WeekdayIndex(today), 0, 0))
  {
  }

  /**
   * The year bytes for any integer year: the low byte is year mod 256 and
   * the high byte is (year div 256) mod 256, so out-of-range years wrap.
   */
  lemma YearBytes(f: DateTimeFields, today: JsDay)
    requires f.year.Num?
    ensures TimeRecordBytes(f, today)[0] == f.year.n % 0x100
    ensures TimeRecordBytes(f, today)[1] == (f.year.n / 0x100) % 0x100
  {
  }

  /** Offsets 2 to 6 hold month, day, hour, minute and second, each modulo 256; a non-number writes 0. */
  lemma DateAndClockBytes(f: DateTimeFields, today: JsDay)
    ensures var r := TimeRecordBytes(f, today);
      r[2] == ToUint8(f.month) && r[3] == ToUint8(f.day) && r[4] == ToUint8(f.hour) &&
      r[5] == ToUint8(f.minute) && r[6] == ToUint8(f.second)
    ensures f.month.Num? ==> TimeRecordBytes(f, today)[2] == f.month.n % 0x100
    ensures !f.day.Num? ==> TimeRecordBytes(f, today)[3] == 0
  {
  }

  /**
   * The weekday byte depends only on today, never on the date being
   * written, and the date and time bytes never depend on today.
   */
  lemma WeekdayIgnoresWrittenDate(f: DateTimeFields, g: DateTimeFields, today: JsDay, other: JsDay)
    ensures TimeRecordBytes(f, today)[7] == TimeRecordBytes(g, today)[7] == WeekdayIndex(today)
    ensures TimeRecordBytes(f, today)[..7] == TimeRecordBytes(f, other)[..7]
  {
  }

  /** The year 2024 is written as 0xE8, 0x07. */
  lemma Year2024(f: DateTimeFields, today: JsDay)
    requires f.year == Num(2024)
    ensures TimeRecordBytes(f, today)[..2] == [0xE8, 0x07]
  {
  }
}
