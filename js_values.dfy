/**
 * The slice of JavaScript's number semantics that the band app relies on:
 * the values handed to `writeTime`, the integer conversions that
 * `DataView.setUint8`/`setUint16` apply, and the `DataView` accessors
 * themselves over a byte buffer.
 */
module JsValues {
  import opened Wrappers

  /** One cell of an `ArrayBuffer`. */
  type byte = b: int | 0 <= b < 256

  /**
   * A JavaScript value as it reaches `writeTime`: an integral Number, NaN
   * (what `Number` gives for text that is not a number), or `undefined`
   * (a destructured element that `split` did not produce).
   */
  datatype JsValue = Num(n: int) | NaN | Undefined

  /** The `RangeError` a `DataView` accessor throws for an offset outside the buffer. */
  datatype RangeError = RangeError

  /**
   * ToUint8 of ECMAScript: the value reduced modulo 2^8, with NaN and
   * `undefined` (whose Number conversion is NaN) becoming 0.
   */
  function ToUint8(v: JsValue): (b: byte)
    ensures v.Num? ==> (v.n - b) % 256 == 0
    ensures v.Num? && 0 <= v.n < 256 ==> b == v.n
    ensures !v.Num? ==> b == 0
  {
    if v.Num? then v.n % 256 else 0
  }

  /** ToUint16 of ECMAScript: the value reduced modulo 2^16, NaN and `undefined` becoming 0. */
  function ToUint16(v: JsValue): (w: int)
    ensures 0 <= w < 0x1_0000
    ensures v.Num? ==> (v.n - w) % 0x1_0000 == 0
    ensures v.Num? && 0 <= v.n < 0x1_0000 ==> w == v.n
    ensures !v.Num? ==> w == 0
  {
    if v.Num? then v.n % 0x1_0000 else 0
  }

  /** `DataView.setUint8(offset, v)`: stores ToUint8(v) at `offset` and nothing else. */
  method SetUint8(buffer: array<byte>, offset: nat, v: JsValue)
    requires offset < buffer.Length
    modifies buffer
    ensures buffer[..] == old(buffer[..])[offset := ToUint8(v)]
  {
    buffer[offset] := ToUint8(v);
  }

  /**
   * `DataView.setUint16(offset, v, true)`: stores ToUint16(v) little-endian,
   * low byte at `offset`, high byte at `offset + 1`, and nothing else.
   */
  method SetUint16LittleEndian(buffer: array<byte>, offset: nat, v: JsValue)
    requires offset + 1 < buffer.Length
    modifies buffer
    ensures buffer[offset] as int + 0x100 * buffer[offset + 1] as int == ToUint16(v)
    ensures buffer[..] == old(buffer[..])[offset := ToUint16(v) % 0x100][offset + 1 := ToUint16(v) / 0x100]
  {
    var w := ToUint16(v);
    buffer[offset] := w % 0x100;
    buffer[offset + 1] := w / 0x100;
  }

  /** `DataView.getUint8(offset)`: the byte at `offset`, or a `RangeError` past the end. */
  function GetUint8(bytes: seq<byte>, offset: int): Result<byte, RangeError>
  {
    if 0 <= offset < |bytes| then Success(bytes[offset]) else Failure(RangeError)
  }

  /** `DataView.getUint16(offset, true)`: the little-endian 16-bit value at `offset`, or a `RangeError`. */
  function GetUint16LittleEndian(bytes: seq<byte>, offset: int): (r: Result<int, RangeError>)
    ensures r.Success? <==> 0 <= offset && offset + 1 < |bytes|
    ensures r.Success? ==> 0 <= r.value < 0x1_0000 && r.value % 0x100 == bytes[offset]
    ensures r.Success? ==> r.value / 0x100 == bytes[offset + 1]
  {
    if 0 <= offset && offset + 1 < |bytes| then Success(bytes[offset] as int + 0x100 * bytes[offset + 1] as int)
    else Failure(RangeError)
  }
}
