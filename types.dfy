/** Values shared by the Bluetooth transport adapter and the connection
    controller: the optional/fallible wrappers, the thrown error, and the
    abstract outcomes of every Web Bluetooth call the adapter makes. */
module BleTypes {

  datatype Option<+T> = None | Some(value: T)

  /** The resolution of a promise: a value, or the error it was rejected with. */
  datatype Result<+T, +E> = Ok(value: T) | Err(error: E)

  /** A thrown JavaScript error, reduced to the two fields the code reads. */
  datatype Error = Error(name: string, message: string)

  /** What `new Error(message)` produces. */
  function Thrown(message: string): Error {
    Error("Error", message)
  }

  /** The host as seen by the capability check: the React Native platform
      name, whether a `navigator` global exists, and whether it has a
      `bluetooth` member. */
  datatype Platform = Platform(os: string, hasNavigator: bool, navigatorHasBluetooth: bool)

  /** The platform's BluetoothDevice object; its advertised name may be absent. */
  datatype NativeDevice = NativeDevice(id: string, name: Option<string>)

  /** The adapter's own device record: id, display name, native object. */
  datatype Device = Device(id: string, name: string, native: NativeDevice)

  /** A GATT server handle, with the `connected` flag the platform reports. */
  datatype Server = Server(deviceId: string, connected: bool)

  /** A GATT characteristic handle. */
  datatype Characteristic = Characteristic(deviceId: string, uuid: string)

  /** Outcome of `navigator.bluetooth.requestDevice`. */
  datatype PickerOutcome = Picked(device: NativeDevice) | PickerFailed(error: Error)

  /** Outcome of `device.gatt.connect()`. */
  datatype GattOutcome = GattOk(server: Server) | GattFailed(error: Error)

  /** Outcome of `getCharacteristics()` on one primary service. */
  datatype ServiceProbe = CharsListed(chars: seq<Characteristic>) | CharsFailed(error: Error)

  /** Outcome of characteristic resolution on a fresh server: the known
      service and the known characteristic both resolved on that server; or
      that lookup threw and `getPrimaryServices()` listed these services
      (only the first one is ever asked for its characteristics); or that
      listing threw too. */
  datatype Resolution =
    | KnownCharFound
    | Fallback(services: seq<ServiceProbe>)
    | ServicesFailed(error: Error)

  /** Outcome of `characteristic.writeValue(data)`. */
  datatype WriteOutcome = WriteOk | WriteFailed(error: Error)

  /** A call the adapter makes into the platform, as the platform sees it. */
  datatype Call =
    | RequestDevice(acceptAllDevices: bool, optionalServices: seq<string>)
    | GattConnect(device: NativeDevice)
    | GattDisconnect(server: Server)
    | WriteValue(target: Characteristic, payload: string)
}
