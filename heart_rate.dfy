/**
 * The heart-rate reading of `readData`: the byte at offset 1 of the
 * characteristic's value, read with `DataView.getUint8(1)`. The flags byte
 * at offset 0 is not looked at.
 */
module HeartRate {
  import opened Wrappers
  import opened JsValues

  /** `hrValue.getUint8(1)`: the reported value, or the `RangeError` of a payload shorter than two bytes. */
  function ReportedHeartRate(payload: seq<byte>): (r: Result<byte, RangeError>)
    ensures r.Success? <==> |payload| >= 2
    ensures r.Success? ==> r.value == payload[1]
  {
    GetUint8(payload, 1)
  }

  /**
   * The Heart Rate Measurement value as the Heart Rate Service v1.0 lays it
   * out (section 3.1): bit 0 of the flags byte selects a UINT8 value at
   * offset 1 or a little-endian UINT16 value at offsets 1 and 2.
   */
  function MeasuredHeartRate(payload: seq<byte>): (r: Option<int>)
    ensures r.Some? <==> |payload| >= 2 && (payload[0] % 2 == 0 || |payload| >= 3)
    ensures r.Some? ==> 0 <= r.value < 0x1_0000
    ensures r.Some? && payload[0] % 2 == 0 ==> r.value < 0x100
  {
    if |payload| < 2 then None
    else if payload[0] % 2 == 0 then Some(payload[1] as int)
    else GetUint16LittleEndian(payload, 1).ToOption()
  }

  /** With the UINT8 format the reported value is the measured one. */
  lemma AgreesOnUint8Format(payload: seq<byte>)
    requires |payload| >= 2 && payload[0] % 2 == 0
    ensures ReportedHeartRate(payload) == Success(MeasuredHeartRate(payload).value)
  {
  }

  /** With the UINT16 format only the low byte of the measured value is reported. */
  lemma LowByteOnUint16Format(payload: seq<byte>)
    requires |payload| >= 3 && payload[0] % 2 == 1
    ensures ReportedHeartRate(payload).value == MeasuredHeartRate(payload).value % 0x100
  {
  }

  /** A 300 bpm reading sent in the UINT16 format ([0x01, 0x2C, 0x01]) is reported as 44. */
  lemma Uint16ReadingTruncated(payload: seq<byte>)
    requires payload == [0x01, 0x2C, 0x01]
    ensures MeasuredHeartRate(payload) == Some(300)
    ensures ReportedHeartRate(payload) == Success(44)
  {
  }
}
