/** The transport adapter of lib/bluetooth.ts: capability detection, device
    selection, GATT connection with characteristic resolution, best-effort
    teardown and the newline-terminated command write.

    The module-level slots `connectedDevice`, `characteristic` and
    `gattServer` are the fields of class Adapter. Every Web Bluetooth call is
    an outcome passed in by the caller. The picker request, the GATT connect,
    the native disconnect and the characteristic write are appended to
    `calls`; the service and characteristic lookups and the listener
    registration are not logged. Each method is specified by a pure
    step function over the slots (a Session); the step functions carry the
    per-call properties and the lemmas below relate several calls. */
module Transport {
  import opened BleTypes

  const ServiceUuid := "0000ffe0-0000-1000-8000-00805f9b34fb"
  const CharacteristicUuid := "0000ffe1-0000-1000-8000-00805f9b34fb"
  const UnsupportedMessage := "Bluetooth is only available in Chrome browser on Android/Desktop. Open this app in Chrome to use Bluetooth."
  const NotConnectedMessage := "No device connected. Please connect a Bluetooth device first."
  const UnknownDeviceName := "Unknown Device"
  /** The error name the picker rejects with when the user cancels. */
  const CancelErrorName := "NotFoundError"

  /** The three module-level slots, as one value. */
  datatype Session = Session(connectedDevice: Option<Device>, characteristic: Option<Characteristic>, gattServer: Option<Server>)
  {
    /** A server is held and the platform reports it connected. */
    predicate HasLiveServer() {
      gattServer.Some? && gattServer.value.connected
    }

    /** The adapter's `isConnected()`: a live server and a resolved characteristic. */
    predicate IsConnected() {
      HasLiveServer() && characteristic.Some?
    }
  }

  /** All three slots null: the state at start-up and after any teardown. */
  const Empty := Session(None, None, None)

  /** What one adapter operation does: its resolution, the slots afterwards,
      and the platform calls it made, in order. */
  datatype Step<+T> = Step(result: Result<T, Error>, session: Session, calls: seq<Call>)

  // ---------------------------------------------------------------------
  // Capability and selection

  /** Web Bluetooth is usable only on the web platform with `navigator.bluetooth`. */
  function IsWebBluetoothAvailable(p: Platform): (r: bool)
    ensures p.os != "web" ==> !r
    ensures !p.hasNavigator || !p.navigatorHasBluetooth ==> !r
    ensures p.os == "web" && p.hasNavigator && p.navigatorHasBluetooth ==> r
  {
    if p.os != "web" then false else p.hasNavigator && p.navigatorHasBluetooth
  }

  /** The name shown for a picked device: its own name, or the placeholder
      when the platform reports none or an empty one. */
  function DisplayName(name: Option<string>): (r: string)
    ensures r != ""
    ensures name.Some? && name.value != "" ==> r == name.value
    ensures name.None? || name.value == "" ==> r == UnknownDeviceName
  {
    match name
    case Some(n) => if n != "" then n else UnknownDeviceName
    case None => UnknownDeviceName
  }

  /** The adapter's record of a picked device. */
  function Selected(d: NativeDevice): (r: Device)
    ensures r.id == d.id && r.native == d
    ensures r.name == DisplayName(d.name) && r.name != ""
  {
    Device(d.id, DisplayName(d.name), d)
  }

  /** scanAndSelectDevice: refuses without showing the picker when Web
      Bluetooth is unavailable; a user cancel resolves to None; any other
      picker failure is rethrown unchanged. The slots are never touched. */
  function ScanStep(s: Session, available: bool, picker: PickerOutcome): (st: Step<Option<Device>>)
    ensures st.session == s
    ensures !available ==> st.result == Err(Thrown(UnsupportedMessage)) && st.calls == []
    ensures available ==> st.calls == [RequestDevice(true, [ServiceUuid])]
    ensures available && picker.PickerFailed? && picker.error.name == CancelErrorName ==> st.result == Ok(None)
    ensures available && picker.PickerFailed? && picker.error.name != CancelErrorName ==> st.result == Err(picker.error)
    ensures available && picker.Picked? ==>
      && st.result.Ok? && st.result.value.Some?
      && st.result.value.value == Selected(picker.device)
  {
    if !available then Step(Err(Thrown(UnsupportedMessage)), s, [])
    else
      var shown := [RequestDevice(true, [ServiceUuid])];
      match picker
      case Picked(d) => Step(Ok(Some(Selected(d))), s, shown)
      case PickerFailed(e) => Step(if e.name == CancelErrorName then Ok(None) else Err(e), s, shown)
  }

  // ---------------------------------------------------------------------
  // Teardown and connection

  /** disconnectDevice: asks the platform to disconnect only a held server
      that reports connected, swallows whatever that call throws
      (`nativeFails`), and always ends with all three slots null. */
  function DisconnectStep(s: Session, nativeFails: bool): (st: Step<()>)
    ensures st.result == Ok(()) && st.session == Empty
    ensures !st.session.IsConnected()
    ensures s.HasLiveServer() ==> st.calls == [GattDisconnect(s.gattServer.value)]
    ensures !s.HasLiveServer() ==> st.calls == []
  {
    var asked := if s.HasLiveServer() then [GattDisconnect(s.gattServer.value)] else [];
    Step(Ok(()), Empty, asked)
  }

  /** The slots a new connection starts from: the teardown runs first when
      the held server is live, so no live server is left behind. */
  function Prepared(s: Session): (r: Session)
    ensures !r.HasLiveServer()
    ensures r == s || r == Empty
    ensures s.HasLiveServer() <==> r != s
  {
    if s.HasLiveServer() then DisconnectStep(s, false).session else s
  }

  /** The platform calls of the teardown that precedes a connection. */
  function TeardownCalls(s: Session): (c: seq<Call>)
    ensures s.HasLiveServer() ==> c == [GattDisconnect(s.gattServer.value)]
    ensures !s.HasLiveServer() ==> c == []
  {
    if s.HasLiveServer() then DisconnectStep(s, false).calls else []
  }

  /** Characteristic resolution on a fresh server: the known characteristic
      of that server when it resolves, else the first characteristic of the
      first primary service, else none at all; a throw from the fallback
      enumeration escapes. */
  function SelectCharacteristic(server: Server, res: Resolution): (r: Result<Option<Characteristic>, Error>)
    ensures res.KnownCharFound? ==> r == Ok(Some(Characteristic(server.deviceId, CharacteristicUuid)))
    ensures res.ServicesFailed? ==> r == Err(res.error)
    ensures res.Fallback? && |res.services| > 0 && res.services[0].CharsListed? && |res.services[0].chars| > 0
            ==> r == Ok(Some(res.services[0].chars[0]))
    ensures res.Fallback? && |res.services| > 0 && res.services[0].CharsFailed?
            ==> r == Err(res.services[0].error)
    ensures r == Ok(None) <==>
      res.Fallback? && (|res.services| == 0 || (res.services[0].CharsListed? && |res.services[0].chars| == 0))
  {
    match res
    case KnownCharFound => Ok(Some(Characteristic(server.deviceId, CharacteristicUuid)))
    case ServicesFailed(e) => Err(e)
    case Fallback(services) =>
      if |services| == 0 then Ok(None)
      else match services[0]
        case CharsFailed(e) => Err(e)
        case CharsListed(chars) => if |chars| > 0 then Ok(Some(chars[0])) else Ok(None)
  }

  /** connectToDevice: tear down a live session, open the GATT server,
      resolve a characteristic, record the device and resolve to true.
      A failed `gatt.connect()` leaves the prepared slots as they were; a
      failed fallback enumeration leaves the new server held and the device
      slot as it was; no resolved characteristic leaves that slot unchanged
      and still succeeds. */
  function ConnectStep(s: Session, dev: Device, nativeFails: bool, gatt: GattOutcome, res: Resolution): (st: Step<bool>)
    ensures st.calls == TeardownCalls(s) + [GattConnect(dev.native)]
    ensures gatt.GattFailed? ==> st.result == Err(gatt.error) && st.session == Prepared(s)
    ensures st.result.Ok? <==> gatt.GattOk? && SelectCharacteristic(gatt.server, res).Ok?
    ensures st.result.Ok? ==>
      && gatt.GattOk?
      && st.result.value
      && st.session.gattServer == Some(gatt.server)
      && st.session.connectedDevice == Some(dev)
      && st.session.characteristic ==
           (var found := SelectCharacteristic(gatt.server, res).value;
            if found.Some? then found else Prepared(s).characteristic)
    ensures gatt.GattOk? && SelectCharacteristic(gatt.server, res).Err? ==>
      && st.result == Err(SelectCharacteristic(gatt.server, res).error)
      && st.session == Prepared(s).(gattServer := Some(gatt.server))
  {
    var pre := Prepared(s);
    var attempt := TeardownCalls(s) + [GattConnect(dev.native)];
    match gatt
    case GattFailed(e) => Step(Err(e), pre, attempt)
    case GattOk(server) =>
      var held := pre.(gattServer := Some(server));
      match SelectCharacteristic(server, res)
      case Err(e) => Step(Err(e), held, attempt)
      case Ok(found) =>
        var resolved := if found.Some? then held.(characteristic := found) else held;
        Step(Ok(true), resolved.(connectedDevice := Some(dev)), attempt)
  }

  // ---------------------------------------------------------------------
  // Commands

  /** The text written for a command: the command and a newline terminator. */
  function Payload(command: string): (p: string)
    ensures |p| == |command| + 1
    ensures p[..|command|] == command && p[|command|] == '\n'
  {
    command + "\n"
  }

  /** sendCommand: without a characteristic it throws the not-connected
      error and writes nothing; with one it writes the payload exactly once
      and resolves to true, or rethrows the write's error. */
  function SendStep(s: Session, command: string, w: WriteOutcome): (st: Step<bool>)
    ensures st.session == s
    ensures s.characteristic.None? ==> st.result == Err(Thrown(NotConnectedMessage)) && st.calls == []
    ensures s.characteristic.Some? ==> st.calls == [WriteValue(s.characteristic.value, Payload(command))]
    ensures s.characteristic.Some? && w.WriteOk? ==> st.result == Ok(true)
    ensures s.characteristic.Some? && w.WriteFailed? ==> st.result == Err(w.error)
  {
    match s.characteristic
    case None => Step(Err(Thrown(NotConnectedMessage)), s, [])
    case Some(c) =>
      var written := [WriteValue(c, Payload(command))];
      match w
      case WriteOk => Step(Ok(true), s, written)
      case WriteFailed(e) => Step(Err(e), s, written)
  }

  // ---------------------------------------------------------------------
  // Out-of-band changes

  /** The platform marks the held server disconnected. In the model this
      is a step of its own, apart from the `gattserverdisconnected` event
      that clears the slots, so states between the two can be observed. */
  function LinkLostStep(s: Session): (r: Session)
    ensures !r.IsConnected()
    ensures r.connectedDevice == s.connectedDevice && r.characteristic == s.characteristic
    ensures r.gattServer.Some? <==> s.gattServer.Some?
  {
    match s.gattServer
    case None => s
    case Some(server) => s.(gattServer := Some(server.(connected := false)))
  }

  /** The adapter's three slots, updated in place. */
  class Adapter {
    const platform: Platform
    var connectedDevice: Option<Device>
    var characteristic: Option<Characteristic>
    var gattServer: Option<Server>
    /** Every call made into the platform so far, oldest first. */
    var calls: seq<Call>

    function State(): Session
      reads this
    {
      Session(connectedDevice, characteristic, gattServer)
    }

    constructor (platform: Platform)
      ensures this.platform == platform
      ensures State() == Empty && calls == []
    {
      this.platform := platform;
      connectedDevice, characteristic, gattServer := None, None, None;
      calls := [];
    }

    /** isBluetoothSupported: false off the web platform. */
    function IsBluetoothSupported(): (r: bool)
      ensures platform.os != "web" ==> !r
      ensures r == IsWebBluetoothAvailable(platform)
    {
      IsWebBluetoothAvailable(platform)
    }

    method ScanAndSelectDevice(picker: PickerOutcome) returns (r: Result<Option<Device>, Error>)
      modifies this`calls
      ensures var st := ScanStep(old(State()), IsWebBluetoothAvailable(platform), picker);
              r == st.result && calls == old(calls) + st.calls
    {
      if !IsWebBluetoothAvailable(platform) {
        return Err(Thrown(UnsupportedMessage));
      }
      calls := calls + [RequestDevice(true, [ServiceUuid])];
      match picker {
        case Picked(d) =>
          r := Ok(Some(Selected(d)));
        case PickerFailed(e) =>
          if e.name == CancelErrorName {
            r := Ok(None);
          } else {
            r := Err(e);
          }
      }
    }

    method ConnectToDevice(btDevice: Device, nativeFails: bool, gatt: GattOutcome, res: Resolution)
      returns (r: Result<bool, Error>)
      modifies this
      ensures var st := ConnectStep(old(State()), btDevice, nativeFails, gatt, res);
              r == st.result && State() == st.session && calls == old(calls) + st.calls
    {
      if gattServer.Some? && gattServer.value.connected {
        DisconnectDevice(nativeFails);
      }
      calls := calls + [GattConnect(btDevice.native)];
      match gatt {
        case GattFailed(e) =>
          return Err(e);
        case GattOk(server) =>
          gattServer := Some(server);
      }
      match res {
        case KnownCharFound =>
          characteristic := Some(Characteristic(gattServer.value.deviceId, CharacteristicUuid));
        case ServicesFailed(e) =>
          return Err(e);
        case Fallback(services) =>
          if |services| > 0 {
            match services[0] {
              case CharsFailed(e) =>
                return Err(e);
              case CharsListed(chars) =>
                if |chars| > 0 {
                  characteristic := Some(chars[0]);
                }
            }
          }
      }
      connectedDevice := Some(btDevice);
      return Ok(true);
    }

    method DisconnectDevice(nativeFails: bool)
      modifies this
      ensures var st := DisconnectStep(old(State()), nativeFails);
              State() == st.session && calls == old(calls) + st.calls
    {
      if gattServer.Some? && gattServer.value.connected {
        calls := calls + [GattDisconnect(gattServer.value)];
        // a throw from the native call (nativeFails) is caught and only logged
      }
      connectedDevice := None;
      characteristic := None;
      gattServer := None;
    }

    method SendCommand(command: string, w: WriteOutcome) returns (r: Result<bool, Error>)
      modifies this`calls
      ensures var st := SendStep(old(State()), command, w);
              r == st.result && calls == old(calls) + st.calls
    {
      if characteristic.None? {
        return Err(Thrown(NotConnectedMessage));
      }
      calls := calls + [WriteValue(characteristic.value, Payload(command))];
      match w {
        case WriteOk => r := Ok(true);
        case WriteFailed(e) => r := Err(e);
      }
    }

    /** getConnectedDevice: the device record of the last successful connect,
        until a teardown or disconnect event clears it. */
    function GetConnectedDevice(): (d: Option<Device>)
      reads this
      ensures d == State().connectedDevice
    {
      connectedDevice
    }

    /** isConnected: a live server and a resolved characteristic. */
    function IsConnected(): (r: bool)
      reads this
      ensures r <==> gattServer.Some? && gattServer.value.connected && characteristic.Some?
    {
      State().IsConnected()
    }

    /** The `gattserverdisconnected` listener registered by connectToDevice. */
    method OnGattServerDisconnected()
      modifies this
      ensures State() == Empty && calls == old(calls)
    {
      connectedDevice := None;
      characteristic := None;
      gattServer := None;
    }

    /** The platform drops the link of the held server (not adapter code). */
    method LinkLost()
      modifies this
      ensures State() == LinkLostStep(old(State())) && calls == old(calls)
    {
      if gattServer.Some? {
        gattServer := Some(gattServer.value.(connected := false));
      }
    }
  }

  // ---------------------------------------------------------------------
  // Properties over several calls

  /** A second teardown makes no platform call and changes nothing. */
  lemma DisconnectIdempotent(s: Session, first: bool, second: bool)
    ensures var once := DisconnectStep(s, first).session;
            DisconnectStep(once, second) == Step(Ok(()), once, [])
  {
  }

  /** After a successful connect, the link loss alone turns `isConnected()`
      false while the device, server and characteristic stay held; only the
      disconnect event that follows clears the device slot. */
  lemma EventAfterConnect(s: Session, available: bool, dev: Device, nativeFails: bool, gatt: GattOutcome, res: Resolution)
    requires ConnectStep(s, dev, nativeFails, gatt, res).result.Ok?
    ensures Run(s, available, [ConnectOp(dev, nativeFails, gatt, res)]).connectedDevice == Some(dev)
    ensures var connected := ConnectStep(s, dev, nativeFails, gatt, res).session;
            var mid := Run(s, available, [ConnectOp(dev, nativeFails, gatt, res), LinkLostOp]);
            && !mid.IsConnected() && mid.gattServer.Some?
            && mid.connectedDevice == Some(dev) && mid.characteristic == connected.characteristic
    ensures var after := Run(s, available, [ConnectOp(dev, nativeFails, gatt, res), LinkLostOp, DisconnectEventOp]);
            !after.IsConnected() && after.connectedDevice.None?
  {
    var connect := ConnectOp(dev, nativeFails, gatt, res);
    assert [connect][1..] == [];
    assert [connect, LinkLostOp][1..] == [LinkLostOp];
    assert [LinkLostOp][1..] == [];
    assert [connect, LinkLostOp, DisconnectEventOp][1..] == [LinkLostOp, DisconnectEventOp];
    assert [LinkLostOp, DisconnectEventOp][1..] == [DisconnectEventOp];
    assert [DisconnectEventOp][1..] == [];
  }

  /** A connect that resolves no characteristic still succeeds, yet the
      adapter then reports not connected. */
  lemma ConnectedServerWithoutChannel(s: Session, dev: Device, nativeFails: bool, server: Server, res: Resolution)
    requires SelectCharacteristic(server, res) == Ok(None)
    requires Prepared(s).characteristic.None?
    ensures var st := ConnectStep(s, dev, nativeFails, GattOk(server), res);
            st.result == Ok(true) && st.session.connectedDevice == Some(dev) && !st.session.IsConnected()
  {
  }

  /** The teardown guard skips a held server that reports not connected,
      so from such a state a characteristic of the old session survives a
      connect that resolves none and the adapter reports connected through
      it. In the model such a state arises from the separate link-drop step
      or from a GATT connect that yields a disconnected server. */
  lemma StaleChannelSurvivesReconnect(s: Session, dev: Device, nativeFails: bool, server: Server)
    requires s.gattServer.Some? && !s.gattServer.value.connected && s.characteristic.Some?
    requires server.connected
    ensures var st := ConnectStep(s, dev, nativeFails, GattOk(server), Fallback([]));
            && st.result == Ok(true)
            && st.session.IsConnected()
            && st.session.characteristic == s.characteristic
            && st.calls == [GattConnect(dev.native)]
  {
  }

  /** When the fallback enumeration throws after the GATT connection opened,
      the new server is held while the device slot stays empty. */
  lemma ServerHeldWithoutDevice(s: Session, dev: Device, nativeFails: bool, server: Server, e: Error)
    requires s.connectedDevice.None? || s.HasLiveServer()
    ensures var st := ConnectStep(s, dev, nativeFails, GattOk(server), ServicesFailed(e));
            st.result == Err(e) && st.session.gattServer == Some(server) && st.session.connectedDevice.None?
  {
  }

  /** One adapter operation, with the outcomes of the platform calls it makes. */
  datatype Op =
    | ScanOp(picker: PickerOutcome)
    | ConnectOp(dev: Device, nativeFails: bool, gatt: GattOutcome, res: Resolution)
    | DisconnectOp(nativeFails: bool)
    | SendOp(command: string, w: WriteOutcome)
    | LinkLostOp
    | DisconnectEventOp

  function Apply(s: Session, available: bool, op: Op): Session {
    match op
    case ScanOp(picker) => ScanStep(s, available, picker).session
    case ConnectOp(dev, nativeFails, gatt, res) => ConnectStep(s, dev, nativeFails, gatt, res).session
    case DisconnectOp(nativeFails) => DisconnectStep(s, nativeFails).session
    case SendOp(command, w) => SendStep(s, command, w).session
    case LinkLostOp => LinkLostStep(s)
    case DisconnectEventOp => Empty
  }

  function Run(s: Session, available: bool, ops: seq<Op>): Session
    decreases |ops|
  {
    if ops == [] then s else Run(Apply(s, available, ops[0]), available, ops[1..])
  }

  /** What the slots keep in every reachable state: a device record or a
      characteristic is held only together with a server. */
  predicate WellFormed(s: Session) {
    && (s.connectedDevice.Some? ==> s.gattServer.Some?)
    && (s.characteristic.Some? ==> s.gattServer.Some?)
  }

  lemma ApplyKeepsWellFormed(s: Session, available: bool, op: Op)
    requires WellFormed(s)
    ensures WellFormed(Apply(s, available, op))
  {
  }

  /** Every state reachable from a well-formed one (in particular from the
      start-up state) is well-formed. */
  lemma {:induction false} RunKeepsWellFormed(s: Session, available: bool, ops: seq<Op>)
    requires WellFormed(s)
    ensures WellFormed(Run(s, available, ops))
    decreases |ops|
  {
    if ops != [] {
      ApplyKeepsWellFormed(s, available, ops[0]);
      RunKeepsWellFormed(Apply(s, available, ops[0]), available, ops[1..]);
    }
  }

  // ---------------------------------------------------------------------
  // Framing of the written stream

  predicate NoNewline(command: string) {
    forall i :: 0 <= i < |command| ==> command[i] != '\n'
  }

  /** The complete lines a newline-delimited reader takes from `stream`,
      given the unterminated text `pending` read before it. */
  function Lines(stream: string, pending: string): seq<string>
    decreases |stream|
  {
    if stream == [] then []
    else if stream[0] == '\n' then [pending] + Lines(stream[1..], "")
    else Lines(stream[1..], pending + [stream[0]])
  }

  /** The bytes written by a series of successful sends, in order. */
  function Stream(commands: seq<string>): string
    decreases |commands|
  {
    if commands == [] then [] else Payload(commands[0]) + Stream(commands[1..])
  }

  lemma {:induction false} LinesOfPayload(command: string, pending: string, rest: string)
    requires NoNewline(command)
    ensures Lines(Payload(command) + rest, pending) == [pending + command] + Lines(rest, "")
    decreases |command|
  {
    var whole := Payload(command) + rest;
    if command == [] {
      assert whole[0] == '\n' && whole[1..] == rest;
      assert pending + command == pending;
    } else {
      assert whole[0] == command[0] != '\n';
      assert whole[1..] == Payload(command[1..]) + rest;
      LinesOfPayload(command[1..], pending + [command[0]], rest);
      assert pending + [command[0]] + command[1..] == pending + command;
    }
  }

  /** A line-oriented peripheral reads back exactly the commands sent,
      one per line, when no command contains a newline. */
  lemma {:induction false} LinesOfStream(commands: seq<string>)
    requires forall i :: 0 <= i < |commands| ==> NoNewline(commands[i])
    ensures Lines(Stream(commands), "") == commands
    decreases |commands|
  {
    if commands != [] {
      LinesOfPayload(commands[0], "", Stream(commands[1..]));
      LinesOfStream(commands[1..]);
      assert "" + commands[0] == commands[0];
      assert [commands[0]] + commands[1..] == commands;
    }
  }
}
