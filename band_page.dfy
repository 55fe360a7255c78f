/**
 * The page's module-level state and its actions: connecting to the band,
 * the automatic and the manual clock sync, reading the heart rate, and the
 * handlers that run later (a write's promise settling, the band
 * disconnecting).
 *
 * The handles are assigned one by one as each Bluetooth call resolves and
 * are never cleared: a failed connection keeps whatever it had already
 * resolved, and handles it did not reach keep the values of an earlier
 * connection. The status text is appended to, except that a successful
 * connection replaces it with the "connected" line.
 */
module BandApp {
  import opened Wrappers
  import opened JsValues
  import opened TimeRecord
  import opened DateText
  import opened HeartRate
  import opened Bluetooth

  /** The name prefix of the device filter. */
  const NamePrefix := "Band"
  /** The Current Time Service and its Current Time characteristic. */
  const CurrentTimeUuid := "current_time"
  /** The Heart Rate Service. */
  const HeartRateUuid := "heart_rate"
  /** The Heart Rate Measurement characteristic. */
  const HeartRateMeasurementUuid := "heart_rate_measurement"

  /** One line of the status text. */
  datatype StatusLine =
    | Connected(deviceName: string)
    | ConnectFailed(error: Error)
    | BandDisconnected
    | TimeUpdated(fields: DateTimeFields)
    | TimeUpdateFailed(error: Error)
    | HeartRateUnavailable
    | HeartRateReading(bpm: byte)
    | StepCountNeedsCustomUuid

  /** A reading of the local clock by `new Date()`: `getFullYear()`, `getMonth()` (0-based), `getDate()`, ... */
  datatype WallClock = WallClock(fullYear: int, monthIndex: int, date: int, hours: int, minutes: int, seconds: int)

  /** A value handed to `writeValue`, in the order the writes were issued. */
  datatype TimeWrite = TimeWrite(target: Characteristic, bytes: seq<byte>)

  /** A write whose promise has not settled, with the values its status line will echo. */
  datatype PendingWrite = PendingWrite(target: Characteristic, fields: DateTimeFields)

  /** How far `connectBand` got: all six Bluetooth calls resolved, or the number that did before one rejected. */
  datatype ConnectOutcome = Established | FailedAfter(completed: nat, error: Error)

  /** What `readData` did. */
  datatype ReadOutcome =
    | Unavailable
    | Reported(payload: seq<byte>, bpm: byte)
    | ReadRejected(error: Error)
    | PayloadTooShort(payload: seq<byte>)

  /** The number of Bluetooth calls of `connectBand` that resolved. */
  function Completed(outcome: ConnectOutcome): nat {
    if outcome.Established? then 6 else outcome.completed
  }

  /**
   * The arguments `syncTimeWithPhone` passes to `writeTime`: all six are
   * numbers, so none is written as the NaN fallback 0, and the 0-based month
   * of `getMonth()` becomes the calendar month 1..12.
   */
  function ClockFields(clock: WallClock): (f: DateTimeFields)
    ensures f.year.Num? && f.month.Num? && f.day.Num? && f.hour.Num? && f.minute.Num? && f.second.Num?
    ensures 0 <= clock.monthIndex < 12 ==> 1 <= f.month.n <= 12
  {
    DateTimeFields(Num(clock.fullYear), Num(clock.monthIndex + 1), Num(clock.date),
                   Num(clock.hours), Num(clock.minutes), Num(clock.seconds))
  }

  /** A valid clock reading is written exactly, with a 1-based month, and read back unchanged. */
  lemma ClockRoundTrip(clock: WallClock, today: JsDay)
    requires 0 <= clock.fullYear < 0x1_0000 && 0 <= clock.monthIndex < 12 && 1 <= clock.date <= 31
    requires 0 <= clock.hours < 24 && 0 <= clock.minutes < 60 && 0 <= clock.seconds < 60
    ensures DecodeCurrentTime(TimeRecordBytes(ClockFields(clock), today)) ==
      Some(CurrentTime(clock.fullYear, clock.monthIndex + 1, clock.date, clock.hours, clock.minutes,
                       clock.seconds, WeekdayIndex(today), 0, 0))
  {
  }

  /**
   * `server.getPrimaryService(service)` followed by
   * `getCharacteristic(characteristic)`: the characteristic, or how many of
   * the two calls resolved (0 or 1) before the rejection.
   */
  method ResolveCharacteristic(server: GattServer, service: string, characteristic: string)
      returns (r: Result<Characteristic, (nat, Error)>)
    ensures r.Success? ==> r.value == Characteristic(Service(server, service), characteristic)
    ensures r.Failure? ==> r.error.0 < 2
  {
    var svc := GetPrimaryService(server, service);
    if svc.Failure? {
      return Failure((0, svc.error));
    }
    var found := GetCharacteristic(svc.value, characteristic);
    if found.Failure? {
      return Failure((1, found.error));
    }
    r := Success(found.value);
  }

  /** The page: the globals `connectedDevice` ... `heartRateCharacteristic` and the status text. */
  class BandPage {
    var connectedDevice: Option<Device>
    var gattServer: Option<GattServer>
    var timeCharacteristic: Option<Characteristic>
    var stepCharacteristic: Option<Characteristic>
    var heartRateCharacteristic: Option<Characteristic>
    /** The status text, line by line. */
    var status: seq<StatusLine>
    /** The devices carrying a disconnect listener, once per registration. */
    var listeners: multiset<Device>
    /** Every value written to a characteristic, in the order the writes were issued. */
    var written: seq<TimeWrite>
    /** The writes whose promise has not settled yet. */
    var pending: seq<PendingWrite>
    /** Every characteristic read issued, in order. */
    var readRequests: seq<Characteristic>

    /**
     * What holds between the globals: the step-count handle is never set,
     * each handle is only set after the one resolved before it, and the
     * chosen device carries a disconnect listener.
     */
    ghost predicate Valid()
      reads this
    {
      && stepCharacteristic.None?
      && (gattServer.Some? ==> connectedDevice.Some?)
      && (timeCharacteristic.Some? ==> gattServer.Some?)
      && (heartRateCharacteristic.Some? ==> timeCharacteristic.Some?)
      && (connectedDevice.Some? ==> connectedDevice.value in listeners)
    }

    /**
     * The guard of `syncTimeWithPhone` and `syncCustomTime`: a server and a
     * time characteristic. Whenever it passes, the guard of `writeTime` passes too.
     */
    predicate CanSync()
      reads this
      ensures CanSync() ==> timeCharacteristic.Some?
    {
      gattServer.Some? && timeCharacteristic.Some?
    }

    /** Nothing about the connection changed. */
    twostate predicate HandlesUnchanged()
      reads this
    {
      && connectedDevice == old(connectedDevice)
      && gattServer == old(gattServer)
      && timeCharacteristic == old(timeCharacteristic)
      && stepCharacteristic == old(stepCharacteristic)
      && heartRateCharacteristic == old(heartRateCharacteristic)
      && listeners == old(listeners)
    }

    /**
     * The device handle after `connectBand` got as far as `outcome` says: a
     * newly chosen device with one more listener, or the old one.
     */
    twostate predicate DeviceAfterConnect(outcome: ConnectOutcome)
      reads this
    {
      && (Completed(outcome) == 0 ==> connectedDevice == old(connectedDevice) && listeners == old(listeners))
      && (Completed(outcome) >= 1 ==>
            && connectedDevice.Some? && NamePrefix <= connectedDevice.value.name
            && listeners == old(listeners) + multiset{connectedDevice.value})
    }

    /**
     * The session handles after `connectBand` got as far as `outcome` says:
     * those it reached hold the new values, the others keep their old ones.
     */
    twostate predicate SessionAfterConnect(outcome: ConnectOutcome)
      reads this
    {
      var k := Completed(outcome);
      && stepCharacteristic == old(stepCharacteristic)
      && (k < 2 ==> gattServer == old(gattServer))
      && (k >= 2 ==> connectedDevice.Some? && gattServer == Some(GattServer(connectedDevice.value)))
      && (k < 4 ==> timeCharacteristic == old(timeCharacteristic))
      && (k >= 4 ==> timeCharacteristic == Some(Characteristic(Service(gattServer.value, CurrentTimeUuid), CurrentTimeUuid)))
      && (k < 6 ==> heartRateCharacteristic == old(heartRateCharacteristic))
      && (k == 6 ==> heartRateCharacteristic ==
                     Some(Characteristic(Service(gattServer.value, HeartRateUuid), HeartRateMeasurementUuid)))
    }

    /** All handles after `connectBand` got as far as `outcome` says. */
    twostate predicate HandlesAfterConnect(outcome: ConnectOutcome)
      reads this
    {
      DeviceAfterConnect(outcome) && SessionAfterConnect(outcome)
    }

    /** The page as loaded: no handles, empty status, nothing issued. */
    constructor ()
      ensures Valid()
      ensures connectedDevice.None? && gattServer.None? && timeCharacteristic.None? && heartRateCharacteristic.None?
      ensures status == [] && listeners == multiset{} && written == [] && pending == [] && readRequests == []
    {
      connectedDevice, gattServer, timeCharacteristic := None, None, None;
      stepCharacteristic, heartRateCharacteristic := None, None;
      status, listeners, written, pending, readRequests := [], multiset{}, [], [], [];
    }

    /**
     * `writeTime`: without a time characteristic nothing happens; otherwise
     * the encoded record is written and the write left pending.
     */
    method WriteTime(f: DateTimeFields, today: JsDay)
      requires Valid()
      modifies this
      ensures Valid() && HandlesUnchanged()
      ensures status == old(status) && readRequests == old(readRequests)
      ensures timeCharacteristic.None? ==> written == old(written) && pending == old(pending)
      ensures timeCharacteristic.Some? ==>
        && written == old(written) + [TimeWrite(timeCharacteristic.value, TimeRecordBytes(f, today))]
        && pending == old(pending) + [PendingWrite(timeCharacteristic.value, f)]
    {
      if timeCharacteristic.None? {
        return;
      }
      var buffer := EncodeTimeRecord(f, today);
      written := written + [TimeWrite(timeCharacteristic.value, buffer[..])];
      pending := pending + [PendingWrite(timeCharacteristic.value, f)];
    }

    /** `syncTimeWithPhone`: writes the clock reading when the guard holds, and does nothing otherwise. */
    method SyncTimeWithPhone(clock: WallClock, today: JsDay)
      requires Valid()
      modifies this
      ensures Valid() && HandlesUnchanged()
      ensures status == old(status) && readRequests == old(readRequests)
      ensures !CanSync() ==> written == old(written) && pending == old(pending)
      ensures CanSync() ==>
        && written == old(written) + [TimeWrite(timeCharacteristic.value, TimeRecordBytes(ClockFields(clock), today))]
        && pending == old(pending) + [PendingWrite(timeCharacteristic.value, ClockFields(clock))]
    {
      if !CanSync() {
        return;
      }
      WriteTime(ClockFields(clock), today);
    }

    /**
     * `connectBand`: request a device and register its disconnect listener,
     * then open the session. A rejection appends a failure line and ends the
     * attempt. On success the status text becomes the "connected" line and
     * the clock is synced automatically.
     */
    method ConnectBand(clock: WallClock, today: JsDay) returns (outcome: ConnectOutcome)
      requires Valid()
      modifies this
      ensures Valid() && HandlesAfterConnect(outcome)
      ensures Completed(outcome) <= 6 && readRequests == old(readRequests)
      ensures outcome.FailedAfter? ==>
        && outcome.completed < 6
        && status == old(status) + [ConnectFailed(outcome.error)]
        && written == old(written) && pending == old(pending)
      ensures outcome.Established? ==>
        && status == [Connected(connectedDevice.value.name)]
        && written == old(written) + [TimeWrite(timeCharacteristic.value, TimeRecordBytes(ClockFields(clock), today))]
        && pending == old(pending) + [PendingWrite(timeCharacteristic.value, ClockFields(clock))]
    {
      var device := RequestDevice(NamePrefix, [CurrentTimeUuid, HeartRateUuid]);
      if device.Failure? {
        status := status + [ConnectFailed(device.error)];
        return FailedAfter(0, device.error);
      }
      connectedDevice := Some(device.value);
      listeners := listeners + multiset{device.value};
      outcome := OpenSession(clock, today);
    }

    /**
     * The rest of `connectBand` once a device is chosen: connect, resolve
     * the time and the heart-rate characteristics, assigning each global as
     * its call resolves; then replace the status text and sync the clock.
     */
    method OpenSession(clock: WallClock, today: JsDay) returns (outcome: ConnectOutcome)
      requires Valid() && connectedDevice.Some? && NamePrefix <= connectedDevice.value.name
      modifies this
      ensures Valid() && SessionAfterConnect(outcome)
      ensures connectedDevice == old(connectedDevice) && listeners == old(listeners)
      ensures 1 <= Completed(outcome) <= 6 && readRequests == old(readRequests)
      ensures outcome.FailedAfter? ==>
        && outcome.completed < 6
        && status == old(status) + [ConnectFailed(outcome.error)]
        && written == old(written) && pending == old(pending)
      ensures outcome.Established? ==>
        && status == [Connected(connectedDevice.value.name)]
        && written == old(written) + [TimeWrite(timeCharacteristic.value, TimeRecordBytes(ClockFields(clock), today))]
        && pending == old(pending) + [PendingWrite(timeCharacteristic.value, ClockFields(clock))]
    {
      var device := connectedDevice.value;
      var server := Connect(device);
      if server.Failure? {
        status := status + [ConnectFailed(server.error)];
        return FailedAfter(1, server.error);
      }
      gattServer := Some(server.value);

      var time := ResolveCharacteristic(server.value, CurrentTimeUuid, CurrentTimeUuid);
      if time.Failure? {
        status := status + [ConnectFailed(time.error.1)];
        return FailedAfter(2 + time.error.0, time.error.1);
      }
      timeCharacteristic := Some(time.value);

      var heartRate := ResolveCharacteristic(server.value, HeartRateUuid, HeartRateMeasurementUuid);
      if heartRate.Failure? {
        status := status + [ConnectFailed(heartRate.error.1)];
        return FailedAfter(4 + heartRate.error.0, heartRate.error.1);
      }
      heartRateCharacteristic := Some(heartRate.value);

      status := [Connected(device.name)];
      SyncTimeWithPhone(clock, today);
      outcome := Established;
    }

    /**
     * `syncCustomTime`: connect first unless the guard holds, then write the
     * parsed date and time. Malformed text is not rejected; the write is
     * skipped only when there is no time characteristic at all.
     */
    method SyncCustomTime(dateText: string, timeText: string, clock: WallClock, today: JsDay)
        returns (connect: Option<ConnectOutcome>)
      requires Valid()
      modifies this
      ensures Valid() && readRequests == old(readRequests)
      ensures connect.None? <==> old(CanSync())
      ensures connect.None? ==> HandlesUnchanged() && status == old(status)
      ensures connect.Some? ==> HandlesAfterConnect(connect.value)
      ensures connect.Some? && connect.value.FailedAfter? ==> status == old(status) + [ConnectFailed(connect.value.error)]
      ensures connect == Some(Established) ==> status == [Connected(connectedDevice.value.name)]
      ensures timeCharacteristic.None? ==> written == old(written) && pending == old(pending)
      ensures timeCharacteristic.Some? ==>
        var manual := ParseDateTime(dateText, timeText);
        var target := timeCharacteristic.value;
        var auto := if connect == Some(Established)
                    then [TimeWrite(target, TimeRecordBytes(ClockFields(clock), today))] else [];
        var autoPending := if connect == Some(Established)
                           then [PendingWrite(target, ClockFields(clock))] else [];
        && written == old(written) + auto + [TimeWrite(target, TimeRecordBytes(manual, today))]
        && pending == old(pending) + autoPending + [PendingWrite(target, manual)]
    {
      connect := None;
      if !CanSync() {
        var outcome := ConnectBand(clock, today);
        connect := Some(outcome);
      }
      WriteTime(ParseDateTime(dateText, timeText), today);
    }

    /**
     * The settling of a pending write's promise: it leaves the pending
     * writes and appends "time updated" with the values it was given, or
     * the failure.
     */
    method WriteSettled(index: nat, result: Result<(), Error>)
      requires Valid()
      requires index < |pending|
      modifies this
      ensures Valid() && HandlesUnchanged()
      ensures written == old(written) && readRequests == old(readRequests)
      ensures pending == old(pending[..index] + pending[index + 1..])
      ensures status == old(status) + [if result.Success? then TimeUpdated(old(pending[index]).fields)
                                       else TimeUpdateFailed(result.error)]
    {
      var settled := pending[index];
      pending := pending[..index] + pending[index + 1..];
      if result.Success? {
        status := status + [TimeUpdated(settled.fields)];
      } else {
        status := status + [TimeUpdateFailed(result.error)];
      }
    }

    /**
     * `readData`: without a heart-rate characteristic, one "unavailable"
     * line and no read. Otherwise one read; its rejection, or a payload too
     * short for `getUint8(1)`, ends the handler with nothing appended, and a
     * payload of two bytes or more appends the byte at offset 1 and the
     * fixed step-count notice.
     */
    method ReadData() returns (outcome: ReadOutcome)
      requires Valid()
      modifies this
      ensures Valid() && HandlesUnchanged()
      ensures written == old(written) && pending == old(pending)
      ensures outcome.Unavailable? <==> heartRateCharacteristic.None?
      ensures outcome.Unavailable? ==> status == old(status) + [HeartRateUnavailable] && readRequests == old(readRequests)
      ensures !outcome.Unavailable? ==> readRequests == old(readRequests) + [heartRateCharacteristic.value]
      ensures outcome.Reported? ==>
        && |outcome.payload| >= 2 && outcome.bpm == outcome.payload[1]
        && status == old(status) + [HeartRateReading(outcome.bpm), StepCountNeedsCustomUuid]
      ensures outcome.PayloadTooShort? ==> |outcome.payload| < 2
      ensures outcome.ReadRejected? || outcome.PayloadTooShort? ==> status == old(status)
    {
      if heartRateCharacteristic.None? {
        status := status + [HeartRateUnavailable];
        return Unavailable;
      }
      readRequests := readRequests + [heartRateCharacteristic.value];
      var value := ReadValue(heartRateCharacteristic.value);
      if value.Failure? {
        return ReadRejected(value.error);
      }
      var bpm := ReportedHeartRate(value.value);
      if bpm.Failure? {
        return PayloadTooShort(value.value);
      }
      status := status + [HeartRateReading(bpm.value)];
      status := status + [StepCountNeedsCustomUuid];
      outcome := Reported(value.value, bpm.value);
    }

    /**
     * The 'gattserverdisconnected' event of `device`: each listener
     * registered on it appends one line. Nothing is cleared.
     */
    method OnDisconnect(device: Device)
      requires Valid()
      modifies this
      ensures Valid() && HandlesUnchanged()
      ensures written == old(written) && pending == old(pending) && readRequests == old(readRequests)
      ensures status == old(status) + seq(listeners[device], _ => BandDisconnected)
    {
      status := status + seq(listeners[device], _ => BandDisconnected);
    }
  }

  /** Under the invariant the two guards agree: a time characteristic implies a server. */
  lemma GuardsAgree(page: BandPage)
    requires page.Valid()
    ensures page.CanSync() <==> page.timeCharacteristic.Some?
  {
  }

  /**
   * A disconnect clears no handle: after a successful connection and a
   * disconnect of the band, the guard still passes and the automatic sync
   * still issues a write. Whether that write succeeds is up to the transport.
   */
  method SyncAfterDisconnect(clock: WallClock, today: JsDay) returns (connected: bool, writes: nat)
    ensures connected ==> writes == 2
    ensures !connected ==> writes == 0
  {
    var page := new BandPage();
    var outcome := page.ConnectBand(clock, today);
    connected := outcome.Established?;
    if connected {
      page.OnDisconnect(page.connectedDevice.value);
      assert page.CanSync();
      page.SyncTimeWithPhone(clock, today);
    }
    writes := |page.written|;
  }
}
