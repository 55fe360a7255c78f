/**
 * The Web Bluetooth calls the app makes, seen from the app: each one either
 * resolves or rejects, and which one happens is outside the app's control.
 * Every method below therefore chooses its outcome nondeterministically and
 * promises only what the platform guarantees about a resolved value.
 */
module Bluetooth {
  import opened Wrappers
  import opened JsValues

  /** A chosen device; `id` tells apart two devices with the same name. */
  datatype Device = Device(id: nat, name: string)

  /** The GATT server of a connected device. */
  datatype GattServer = GattServer(device: Device)

  /** A primary service of a GATT server, by UUID or standard name. */
  datatype Service = Service(server: GattServer, uuid: string)

  /** A characteristic of a service, by UUID or standard name. */
  datatype Characteristic = Characteristic(service: Service, uuid: string)

  /** The longest attribute value a characteristic can hold, in octets. */
  const MaxAttributeLength := 512

  /** The error a rejected call reports (a `DOMException` or similar). */
  datatype Error = Error(message: string)

  /** `navigator.bluetooth.requestDevice`: a device whose name has the filter's prefix, or a rejection (e.g. the user cancelled). */
  method RequestDevice(namePrefix: string, optionalServices: seq<string>) returns (r: Result<Device, Error>)
    ensures r.Success? ==> namePrefix <= r.value.name
  {
    var chosen: bool := *;
    var id: int := *;
    var suffix: string := *;
    var message: string := *;
    if chosen && id >= 0 {
      r := Success(Device(id, namePrefix + suffix));
    } else {
      r := Failure(Error(message));
    }
  }

  /** `device.gatt.connect()`: the device's GATT server, or a rejection. */
  method Connect(device: Device) returns (r: Result<GattServer, Error>)
    ensures r.Success? ==> r.value.device == device
  {
    var connected: bool := *;
    var message: string := *;
    r := if connected then Success(GattServer(device)) else Failure(Error(message));
  }

  /** `server.getPrimaryService(uuid)`: that service of this server, or a rejection (e.g. not offered). */
  method GetPrimaryService(server: GattServer, uuid: string) returns (r: Result<Service, Error>)
    ensures r.Success? ==> r.value.server == server && r.value.uuid == uuid
  {
    var found: bool := *;
    var message: string := *;
    r := if found then Success(Service(server, uuid)) else Failure(Error(message));
  }

  /** `service.getCharacteristic(uuid)`: that characteristic of this service, or a rejection. */
  method GetCharacteristic(service: Service, uuid: string) returns (r: Result<Characteristic, Error>)
    ensures r.Success? ==> r.value.service == service && r.value.uuid == uuid
  {
    var found: bool := *;
    var message: string := *;
    r := if found then Success(Characteristic(service, uuid)) else Failure(Error(message));
  }

  /**
   * `characteristic.readValue()`: whatever bytes the device returns, at most
   * the 512 octets an attribute value may hold (Bluetooth Core Specification,
   * Vol 3, Part F, section 3.2.9), or a rejection.
   */
  method ReadValue(characteristic: Characteristic) returns (r: Result<seq<byte>, Error>)
    ensures r.Success? ==> |r.value| <= MaxAttributeLength
  {
    var ok: bool := *;
    var raw: seq<int> := *;
    var message: string := *;
    var n := if |raw| <= MaxAttributeLength then |raw| else MaxAttributeLength;
    var payload: seq<byte> := seq(n, i requires 0 <= i < n && i < |raw| => raw[i] % 0x100);
    r := if ok then Success(payload) else Failure(Error(message));
  }
}
