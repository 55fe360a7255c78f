# Redmi band web app, modelled in Dafny

The app is a single browser script (`app.js`) that pairs with a fitness band over Web Bluetooth. It sets the band's clock and reads one heart-rate sample. This project models its logic:

- **Clock record** (`TimeRecord`): `writeTime` packs a date, a time and a weekday into a 10-byte buffer. The layout is the Current Time characteristic of the Bluetooth Current Time Service (CTS v1.1, section 3.1): a little-endian 16-bit year, then month, day, hours, minutes, seconds, day of week, Fractions256 and Adjust Reason. Each field goes through a `DataView` setter, which reduces it modulo 2^16 or 2^8 and turns NaN or `undefined` into 0. Nothing is range-checked.
- **Weekday**: the weekday byte comes from the clock at the moment of writing, never from the date being written. It is `(getDay() + 6) % 7`, so 0 = Monday … 6 = Sunday. The Current Time Service numbers the days 1 = Monday … 7 = Sunday and reserves 0 for "unknown". The model keeps the code's numbering and proves the relation to the standard's (`WeekdayIsCtsDayMinusOne`).
- **Manual entry** (`DateText`): `syncCustomTime` splits the date text on `-` and the time text on `:`, and converts each piece with `Number`. Text that is not a number becomes NaN, and a missing piece is `undefined`. Both are written as byte 0. Malformed text is never rejected.
- **Heart rate** (`HeartRate`): `readData` reports the byte at offset 1 of the Heart Rate Measurement value. It ignores the flags byte. The Heart Rate Service v1.0 (section 3.1) uses bit 0 of that byte to choose between an 8-bit and a 16-bit value, so for 16-bit readings only the low byte is reported.
- **Page state** (`BandApp.BandPage`): a class holding the module-level handles and the status text, with one method per action:
  - `connectBand` assigns each handle as its Bluetooth call resolves and clears none. A failed connection keeps what it already resolved, and the handles it did not reach keep their earlier values.
  - A successful `connectBand` *replaces* the status text with the "connected" line. A failed one appends one failure line.
  - The disconnect listener only appends a line. A new listener is registered on each successful device request.
  - Writes are fire-and-forget: `WriteTime` issues the write, and `WriteSettled` is the promise continuation that appends the result line.
- **Bluetooth transport** (`Bluetooth`): the Web Bluetooth calls are methods that resolve or reject nondeterministically.

Where the code and a plain reading of its intent differ, the model follows the code:
- A disconnect clears no handle, so the guards still pass and writes are still issued (`SyncAfterDisconnect`). Whether such a write succeeds is up to the transport.
- A malformed manual date is written as zeros instead of failing (`MalformedDateWritesZeros`).
- A failed connection keeps partial handles.
- The status text is not strictly append-only.

## Model

| member | source | states |
|---|---|---|
| `JsValues.ToUint8` | app.js:70-77 | The stored byte is in 0..255 and congruent to the value modulo 256. It equals the value when the value is already in range, and is 0 for NaN or `undefined`. |
| `JsValues.ToUint16` | app.js:69 | The stored value is in 0..65535 and congruent to the value modulo 65536. It equals the value when in range, and is 0 for NaN or `undefined`. |
| `JsValues.SetUint8` | app.js:70-77 | `setUint8` changes exactly one cell of the buffer, to ToUint8 of the value. |
| `JsValues.SetUint16LittleEndian` | app.js:69 | `setUint16(…, true)` writes low byte then high byte, which together make ToUint16 of the value, and changes nothing else. |
| `JsValues.GetUint16LittleEndian` | app.js:69 | Reading back a little-endian 16-bit value succeeds exactly when both bytes exist. The result is in 0..65535. Its low byte is the first byte and its high byte is the second. |
| `TimeRecord.WeekdayIndex` | app.js:64-65 | The weekday byte is in 0..6 and counts days from Monday: adding one day, modulo 7, gives back `getDay()`. |
| `TimeRecord.CtsDayOfWeek` | app.js:65 | The standard's Day of Week for today is in 1..7. |
| `TimeRecord.WeekdayIsCtsDayMinusOne` | app.js:65 | The written weekday is always one less than the standard's Day of Week. Monday is written as 0 and Sunday as 6. |
| `TimeRecord.WeekdayIndexInjective` | app.js:65 | Different days never share a weekday byte. |
| `TimeRecord.TimeRecordBytes` | app.js:67-77 | The record is exactly 10 bytes. Bytes 0–1 are ToUint16(year) little-endian, and bytes 8 and 9 are 0. |
| `TimeRecord.EncodeTimeRecord` | app.js:67-77 | The freshly allocated ArrayBuffer, filled by the nine DataView writes, holds exactly the record's bytes. |
| `TimeRecord.DecodeCurrentTime` | app.js:67-77 | A reader accepts exactly 10-byte values, and the year it reads is in 0..65535. |
| `TimeRecord.DecodeEncode` | app.js:69-77 | Reading the record back gives each field reduced as its setter reduces it, today's weekday, and zero fraction and adjust reason. |
| `TimeRecord.RoundTrip` | app.js:69-74 | With the year in 0..65535 and the other fields in 0..255, all six values read back unchanged. |
| `TimeRecord.YearBytes` | app.js:69 | For any integer year, byte 0 is year mod 256 and byte 1 is (year div 256) mod 256. |
| `TimeRecord.DateAndClockBytes` | app.js:70-74 | Bytes 2–6 are month, day, hour, minute and second in that order, each modulo 256, with 0 for a non-number. |
| `TimeRecord.WeekdayIgnoresWrittenDate` | app.js:64-75 | Byte 7 depends only on today, never on the date written. Bytes 0–6 never depend on today. |
| `TimeRecord.Year2024` | app.js:69 | The year 2024 is written as 0xE8, 0x07. |
| `DateText.Split` | app.js:53-54 | `split` on one character gives one more piece than there are separators, and no piece contains the separator. |
| `DateText.JoinSplit` | app.js:53-54 | Joining the pieces of a split with the separator restores the text. |
| `DateText.SplitWithoutSeparator` | app.js:53-54 | Text without the separator splits into itself alone. |
| `DateText.SplitLeadingPiece` | app.js:53-54 | A separator-free prefix followed by the separator splits off as the first piece. |
| `DateText.SplitJoin` | app.js:53-54 | Splitting separator-free pieces joined by the separator gives back the pieces. |
| `DateText.SplitThree` | app.js:53-54 | Three separator-free pieces joined by separators split into exactly those three. |
| `DateText.DecimalValue` | app.js:53-54 | The positional value `Number` gives digit text: below 10 to the power of its length, with the last character as its units digit. `DecimalValueOfText` and `TextOfDecimalValue` tie it to `DecimalText` both ways. |
| `DateText.DecimalText` | app.js:53-54 | The decimal text of a non-negative integer is non-empty digits without a leading zero. It is the inverse that the `Number` lemmas use. |
| `DateText.DecimalValueOfText` | app.js:53-54 | Reading the decimal text of n gives n. |
| `DateText.TextOfDecimalValue` | app.js:53-54 | Canonical digit text is the decimal text of its own value. |
| `DateText.LeadingZeroIgnored` | app.js:53-54 | A leading zero does not change the value ("01" is 1). |
| `DateText.ToNumber` | app.js:53-54 | `Number(text)` is a non-negative integer exactly when the text is all digits (the empty text gives 0). Otherwise it is NaN. |
| `DateText.NumberOfDecimalText` | app.js:53-54 | `Number(String(n))` is n. |
| `DateText.Padded` | app.js:53-54 | Zero-padded decimal text is digits, with its length being the padding plus the plain length. |
| `DateText.NumberOfPadded` | app.js:53-54 | Zero padding does not change what `Number` reads. |
| `DateText.ParseDateTime` | app.js:53-54 | The destructuring of the two splits. Year and hour are never `undefined`. Month, day, minute and second are `undefined` exactly when the text has too few separators. `ParseThreePieces`, `ParseWellFormed`, `MalformedDateWritesZeros` and `EmptyDateWritesZeros` state the values. |
| `DateText.ParseThreePieces` | app.js:53-54 | Text made of three separator-free pieces gives `Number` of each piece as year, month, day, and as hour, minute, second. |
| `DateText.ParseWellFormed` | app.js:53-54 | Well-formed date and time text, padded or not, is read as exactly the numbers it shows. |
| `DateText.ManualEntryRoundTrip` | app.js:53-55 | A manual sync of well-formed text within the field widths writes those numbers at offsets 0–6 and today's weekday at 7. |
| `DateText.ParseExample` | app.js:53-54 | "2024-01-15" and "08:30:00" are read as 2024, 1, 15, 8, 30 and 0. |
| `DateText.ManualEntryExample` | app.js:53-77 | That entry is written as E8 07 01 0F 08 1E 00, today's weekday, 00 00. |
| `DateText.MalformedDateWritesZeros` | app.js:52-58 | "not-a-date" is not rejected. It gives three NaN fields, written as four zero bytes. |
| `DateText.EmptyDateWritesZeros` | app.js:53 | An empty date input gives year 0 and an `undefined` month and day, all written as zero bytes. |
| `DateText.TwoDigitValue` | app.js:53-54 | Two digits are read as ten times the first plus the second. |
| `DateText.FourDigitValue` | app.js:53-54 | Four digits are read positionally. |
| `HeartRate.ReportedHeartRate` | app.js:92-93 | The reported value exists exactly when the payload has at least two bytes, and is then the byte at offset 1. |
| `HeartRate.MeasuredHeartRate` | app.js:93 | The standard's reading, chosen by flags bit 0, is 8-bit or 16-bit. It is below 256 in the 8-bit format. |
| `HeartRate.AgreesOnUint8Format` | app.js:93 | With the 8-bit format the reported value is the measured one. |
| `HeartRate.LowByteOnUint16Format` | app.js:93 | With the 16-bit format the reported value is the measured value mod 256. |
| `HeartRate.Uint16ReadingTruncated` | app.js:93 | A 300 bpm reading in the 16-bit format is reported as 44. |
| `Bluetooth.RequestDevice` | app.js:11-14 | A resolved device's name starts with the filter's prefix. |
| `Bluetooth.Connect` | app.js:20 | A resolved server belongs to the device connected. |
| `Bluetooth.GetPrimaryService` | app.js:21-24 | A resolved service is the one asked for, on that server. |
| `Bluetooth.GetCharacteristic` | app.js:22-25 | A resolved characteristic is the one asked for, in that service. |
| `Bluetooth.ReadValue` | app.js:92 | A resolved read gives at most the 512 octets an attribute value can hold. Otherwise the read rejects. |
| `BandApp.ResolveCharacteristic` | app.js:21-25 | A service lookup then a characteristic lookup gives the requested characteristic. On rejection it reports whether 0 or 1 of the two calls resolved. |
| `BandApp.ClockFields` | app.js:42-43 | The automatic sync passes six numbers, so none is written as the NaN fallback 0. The 0-based `getMonth()` becomes the calendar month 1..12. `ClockRoundTrip` gives the bytes. |
| `BandApp.ClockRoundTrip` | app.js:41-43 | The automatic sync writes a valid clock reading exactly, with the month shifted to 1-based, and it reads back unchanged. |
| `BandApp.BandPage.CanSync` | app.js:40-48 | The guard of `syncTimeWithPhone` and `syncCustomTime`. Whenever it passes, the guard of `writeTime` (app.js:62) passes too. `GuardsAgree` proves the two guards equivalent under the page invariant. |
| `BandApp.BandPage.constructor` | app.js:1-7 | At page load there are no handles, no status lines, no listeners, and no writes or reads. |
| `BandApp.BandPage.WriteTime` | app.js:61-82 | With no time characteristic nothing happens. Otherwise exactly one write of the encoded record is issued and left pending, with no status line yet and no handle changed. |
| `BandApp.BandPage.SyncTimeWithPhone` | app.js:39-44 | No write without both a server and a time characteristic. Otherwise one write of the clock reading is issued. |
| `BandApp.BandPage.ConnectBand` | app.js:9-36 | Handles up to the first rejection hold the new values, and the rest keep their old ones. A failure appends one failure line and issues no write. Success replaces the status with the "connected" line and issues the automatic write. |
| `BandApp.BandPage.OpenSession` | app.js:20-30 | After the device is chosen: server, time characteristic and heart-rate characteristic are set in order as each lookup resolves. A failed heart-rate lookup leaves the time characteristic assigned. |
| `BandApp.BandPage.SyncCustomTime` | app.js:47-59 | Connects only when the guard fails. Then writes the parsed fields whenever a time characteristic exists, after the automatic write if the connection succeeded. There is no parse-failure path. |
| `BandApp.BandPage.WriteSettled` | app.js:79-81 | A settled write leaves the pending list and appends "time updated" with the values it was given, or the failure. |
| `BandApp.BandPage.ReadData` | app.js:85-98 | Without a heart-rate characteristic: exactly one "unavailable" line and no read. Otherwise exactly one read. A rejection or a payload under two bytes appends nothing. Otherwise it appends the byte at offset 1, then the step-count notice. |
| `BandApp.BandPage.OnDisconnect` | app.js:16-18 | A disconnect appends one line per listener registered on the device and clears nothing. |
| `BandApp.GuardsAgree` | app.js:40-62 | Under the page invariant, the guard of the automatic sync and that of `writeTime` coincide. |
| `BandApp.SyncAfterDisconnect` | app.js:16-44 | After a successful connection and a disconnect, an automatic sync still writes: two writes in all. |

## Left out

- Web Bluetooth (`requestDevice`, `gatt.connect`, `getPrimaryService`, `getCharacteristic`, `readValue`, `writeValue`) is foreign asynchronous I/O. Each call is a method that resolves or rejects nondeterministically. The rejection text is an abstract `Error`.
- DOM access, `textContent` rendering, the button wiring (app.js:101-104) and `console.error` (app.js:34) are UI plumbing. The status text is a sequence of abstract `StatusLine` entries, not the literal Hungarian strings. The element's initial text is taken as empty.
- `new Date()` is a parameter: `clock` stands for the reading in `syncTimeWithPhone` and `today` for the `getDay()` of the reading in `writeTime`. `SyncCustomTime` uses the same `today` for its automatic and its manual write.
- Concurrency is not modelled: overlapping actions from repeated button presses and the order in which pending writes settle. Settlement is `WriteSettled`, called for any pending write in any order. `syncCustomTime`'s `await connectBand()` is a sequential call.
- DateText.ToNumber: only digit strings and the empty string are converted. Whitespace, signs, decimal points, exponents, hexadecimal and "Infinity" give NaN in the model, although `Number` would give a value.
- DateText.ToNumber: keeps the exact integer of a digit string. `Number` rounds values above 2^53 to the nearest double, and gives Infinity (written as 0) for about 309 digits or more. So `"99999999999999999999"` is 1e20 in JavaScript, whose year bytes are 00 00, where the model writes FF FF. A date or time input never produces such text.
- The `catch` at app.js:56-57 is never reached: for string inputs nothing in its `try` block throws. Its "bad date or time" line is therefore not a `StatusLine`.
- The unhandled rejection of `readData` is the `ReadRejected` or `PayloadTooShort` outcome, with no status line. How the browser reports it is not modelled.
- `stepCharacteristic` (app.js:4) is declared and never assigned. The page invariant keeps it null.
- JsValues.SetUint8: requires the offset to lie inside the buffer instead of modelling the RangeError. Every offset `writeTime` uses is a constant inside its 10-byte buffer.
- JsValues.SetUint16LittleEndian: requires both offsets to lie inside the buffer, for the same reason.
- Non-integral Numbers never reach `writeTime` in this model, so the truncation of fractions by ToUint8/ToUint16 is not modelled.
