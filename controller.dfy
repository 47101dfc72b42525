/** The connection controller of lib/bluetooth-context.tsx: the state cells
    `device`, `connected`, `isScanning` and `error` that the UI observes, the
    once-computed `isSupported`, and the handlers that sequence adapter calls
    and turn every adapter failure into error text.

    Each handler is specified by a pure step function over the cells and the
    adapter's slots, built from the adapter's own step functions; the class
    Provider updates the cells in place and is proved equal to them. */
module Controller {
  import opened BleTypes
  import Transport

  const FailedToConnect := "Failed to connect"
  const FailedToSend := "Failed to send command"
  /** The catalogue's reserved stop/idle command. */
  const StopCommand := "000"

  /** The controller's cells. `listening` records that the controller's own
      `gattserverdisconnected` listener has been registered, which happens
      after the first successful connect. */
  datatype Cells = Cells(device: Option<Device>, connected: bool, isScanning: bool, error: Option<string>, listening: bool)

  /** The cells at mount. */
  const Initial := Cells(None, false, false, None, false)

  /** What one handler does: the cells and adapter slots afterwards, the
      platform calls made, and the cells the UI can render at each `await`
      while the handler is suspended. */
  datatype Outcome = Outcome(cells: Cells, session: Transport.Session, calls: seq<Call>, snapshots: seq<Cells>)

  /** The boolean a send handler returns, with what it did. */
  datatype Sent = Sent(ok: bool, outcome: Outcome)

  /** A controller that says connected mirrors the adapter's device slot
      and has its disconnect listener registered. */
  predicate Mirrors(c: Cells, s: Transport.Session) {
    c.device.Some? && s.connectedDevice == c.device && c.listening
  }

  /** `err.message || fallback`: the thrown message, or the fallback when
      the message is empty. */
  function ErrorText(e: Error, fallback: string): (r: string)
    ensures e.message != "" ==> r == e.message
    ensures e.message == "" ==> r == fallback
    ensures fallback != "" ==> r != ""
  {
    if e.message != "" then e.message else fallback
  }

  /** scanAndConnect: clear the error and raise `isScanning`, select a
      device, record it, connect, and mark connected; any failure becomes
      error text with `connected` false; a cancelled picker leaves no trace;
      `isScanning` is released on every exit. */
  function ScanAndConnectStep(c: Cells, s: Transport.Session, available: bool, picker: PickerOutcome,
                              nativeFails: bool, gatt: GattOutcome, res: Resolution): (o: Outcome)
    ensures !o.cells.isScanning
    ensures 1 <= |o.snapshots| <= 2
    ensures forall i :: 0 <= i < |o.snapshots| ==> o.snapshots[i].isScanning && o.snapshots[i].error.None?
    ensures o.cells.error.Some? ==> !o.cells.connected && o.cells.error.value != ""
    ensures (c.connected ==> Mirrors(c, s)) ==> (o.cells.connected ==> Mirrors(o.cells, o.session))
    ensures c.listening ==> o.cells.listening
    ensures !available ==>
      && o.cells == c.(error := Some(Transport.UnsupportedMessage), connected := false, isScanning := false)
      && o.session == s && o.calls == []
    ensures available && picker.PickerFailed? && picker.error.name == Transport.CancelErrorName ==>
      && o.cells == c.(error := None, isScanning := false)
      && o.session == s
    ensures available && picker.PickerFailed? && picker.error.name != Transport.CancelErrorName ==>
      && o.cells == c.(error := Some(ErrorText(picker.error, FailedToConnect)), connected := false, isScanning := false)
      && o.session == s
    ensures available && picker.Picked? ==>
      var d := Transport.Selected(picker.device);
      var conn := Transport.ConnectStep(s, d, nativeFails, gatt, res);
      && o.session == conn.session
      && o.cells.device == Some(d)
      && (o.cells.connected <==> conn.result.Ok?)
      && (conn.result.Err? ==> o.cells.error == Some(ErrorText(conn.result.error, FailedToConnect)))
      && (conn.result.Ok? ==> o.cells.error.None?)
  {
    var entered := c.(error := None, isScanning := true);
    var scan := Transport.ScanStep(s, available, picker);
    match scan.result
    case Err(e) =>
      Outcome(entered.(error := Some(ErrorText(e, FailedToConnect)), connected := false, isScanning := false),
              scan.session, scan.calls, [entered])
    case Ok(None) =>
      Outcome(entered.(isScanning := false), scan.session, scan.calls, [entered])
    case Ok(Some(d)) =>
      var recorded := entered.(device := Some(d));
      var conn := Transport.ConnectStep(scan.session, d, nativeFails, gatt, res);
      var after := match conn.result
        case Err(e) => recorded.(error := Some(ErrorText(e, FailedToConnect)), connected := false)
        case Ok(_) => recorded.(connected := true, listening := true);
      Outcome(after.(isScanning := false), conn.session, scan.calls + conn.calls, [entered, recorded])
  }

  /** disconnect: tear the adapter down and reset the device, the connected
      flag and the error, whatever the adapter did. */
  function DisconnectStep(c: Cells, s: Transport.Session, nativeFails: bool): (o: Outcome)
    ensures o.cells == c.(device := None, connected := false, error := None)
    ensures o.session == Transport.Empty && !o.session.IsConnected()
    ensures o.calls == Transport.DisconnectStep(s, nativeFails).calls
    ensures o.snapshots == [c]
  {
    var torn := Transport.DisconnectStep(s, nativeFails);
    Outcome(c.(device := None, connected := false, error := None), torn.session, torn.calls, [c])
  }

  /** sendCommand of the controller: clear the error, write through the
      adapter, and answer true; any adapter failure answers false with its
      text in `error`. Nothing but `error` changes, and nothing is thrown. */
  function SendCommandStep(c: Cells, s: Transport.Session, command: string, w: WriteOutcome): (r: Sent)
    ensures r.outcome.session == s
    ensures r.outcome.snapshots == [c.(error := None)]
    ensures r.ok <==> s.characteristic.Some? && w.WriteOk?
    ensures r.ok ==> r.outcome.cells == c.(error := None)
    ensures !r.ok ==> r.outcome.cells.error.Some? && r.outcome.cells.error.value != ""
    ensures r.outcome.cells == c.(error := r.outcome.cells.error)
    ensures s.characteristic.None? ==>
      r.outcome.cells.error == Some(Transport.NotConnectedMessage) && r.outcome.calls == []
    ensures s.characteristic.Some? ==>
      r.outcome.calls == [WriteValue(s.characteristic.value, Transport.Payload(command))]
    ensures s.characteristic.Some? && w.WriteFailed? ==>
      r.outcome.cells.error == Some(ErrorText(w.error, FailedToSend))
  {
    var cleared := c.(error := None);
    var sent := Transport.SendStep(s, command, w);
    match sent.result
    case Ok(_) => Sent(true, Outcome(cleared, sent.session, sent.calls, [cleared]))
    case Err(e) => Sent(false, Outcome(cleared.(error := Some(ErrorText(e, FailedToSend))), sent.session, sent.calls, [cleared]))
  }

  /** The `gattserverdisconnected` event: the adapter's listener empties the
      slots, and the controller's listener, once registered, drops the
      connected flag and the device. */
  function DisconnectEventStep(c: Cells, s: Transport.Session): (o: Outcome)
    ensures o.session == Transport.Empty && o.calls == [] && o.snapshots == []
    ensures c.listening ==> o.cells == c.(connected := false, device := None)
    ensures !c.listening ==> o.cells == c
  {
    Outcome(if c.listening then c.(connected := false, device := None) else c, Transport.Empty, [], [])
  }

  /** The BluetoothProvider's state cells. */
  class Provider {
    const adapter: Transport.Adapter
    const isSupported: bool
    var device: Option<Device>
    var connected: bool
    var isScanning: bool
    var error: Option<string>
    var listening: bool
    /** The cells the UI could render at each suspension so far. */
    var snapshots: seq<Cells>

    function View(): Cells
      reads this
    {
      Cells(device, connected, isScanning, error, listening)
    }

    /** Mounting the provider: `isSupported` is computed from the adapter
        once; as a constant it never changes afterwards. */
    constructor (adapter: Transport.Adapter)
      ensures this.adapter == adapter
      ensures isSupported == Transport.IsWebBluetoothAvailable(adapter.platform)
      ensures adapter.platform.os != "web" ==> !isSupported
      ensures View() == Initial && snapshots == []
    {
      this.adapter := adapter;
      isSupported := adapter.IsBluetoothSupported();
      device, connected, isScanning, error, listening := None, false, false, None, false;
      snapshots := [];
    }

    method ScanAndConnect(picker: PickerOutcome, nativeFails: bool, gatt: GattOutcome, res: Resolution)
      modifies this, adapter
      ensures var o := ScanAndConnectStep(old(View()), old(adapter.State()),
                                          Transport.IsWebBluetoothAvailable(adapter.platform),
                                          picker, nativeFails, gatt, res);
              && View() == o.cells && adapter.State() == o.session
              && adapter.calls == old(adapter.calls) + o.calls
              && snapshots == old(snapshots) + o.snapshots
    {
      error := None;
      isScanning := true;
      snapshots := snapshots + [View()];
      var selected := adapter.ScanAndSelectDevice(picker);
      match selected {
        case Err(e) =>
          error := Some(ErrorText(e, FailedToConnect));
          connected := false;
        case Ok(None) =>
          isScanning := false;
        case Ok(Some(d)) =>
          device := Some(d);
          snapshots := snapshots + [View()];
          var r := adapter.ConnectToDevice(d, nativeFails, gatt, res);
          match r {
            case Err(e) =>
              error := Some(ErrorText(e, FailedToConnect));
              connected := false;
            case Ok(_) =>
              connected := true;
              listening := true;
          }
      }
      isScanning := false;
    }

    method Disconnect(nativeFails: bool)
      modifies this, adapter
      ensures var o := DisconnectStep(old(View()), old(adapter.State()), nativeFails);
              && View() == o.cells && adapter.State() == o.session
              && adapter.calls == old(adapter.calls) + o.calls
              && snapshots == old(snapshots) + o.snapshots
    {
      snapshots := snapshots + [View()];
      adapter.DisconnectDevice(nativeFails);
      device := None;
      connected := false;
      error := None;
    }

    method SendCommand(command: string, w: WriteOutcome) returns (ok: bool)
      modifies this, adapter`calls
      ensures var r := SendCommandStep(old(View()), old(adapter.State()), command, w);
              && ok == r.ok
              && View() == r.outcome.cells && adapter.State() == r.outcome.session
              && adapter.calls == old(adapter.calls) + r.outcome.calls
              && snapshots == old(snapshots) + r.outcome.snapshots
    {
      error := None;
      snapshots := snapshots + [View()];
      var sent := adapter.SendCommand(command, w);
      match sent {
        case Ok(_) =>
          ok := true;
        case Err(e) =>
          error := Some(ErrorText(e, FailedToSend));
          ok := false;
      }
    }

    /** clearError: the error cell alone becomes null. */
    method ClearError()
      modifies this`error
      ensures View() == old(View()).(error := None)
    {
      error := None;
    }

    /** The platform dispatches `gattserverdisconnected` to both listeners. */
    method OnDeviceDisconnected()
      modifies this, adapter
      ensures var o := DisconnectEventStep(old(View()), old(adapter.State()));
              && View() == o.cells && adapter.State() == o.session
              && adapter.calls == old(adapter.calls) && snapshots == old(snapshots)
    {
      adapter.OnGattServerDisconnected();
      if listening {
        connected := false;
        device := None;
      }
    }
  }

  // ---------------------------------------------------------------------
  // Where the two layers disagree

  /** A connect that resolves no characteristic makes the controller report
      connected while the adapter's own `isConnected()` is false. */
  lemma ConnectedWithoutChannel(c: Cells, s: Transport.Session, nd: NativeDevice, nativeFails: bool,
                                server: Server, res: Resolution)
    requires Transport.SelectCharacteristic(server, res) == Ok(None)
    requires Transport.Prepared(s).characteristic.None?
    ensures var o := ScanAndConnectStep(c, s, true, Picked(nd), nativeFails, GattOk(server), res);
            o.cells.connected && !o.session.IsConnected()
  {
  }

  /** A failed GATT connection leaves the selected device in the `device`
      cell although nothing is connected. Controller listeners run only at
      the model's explicit event step, not inside the teardown. */
  lemma DeviceKeptAfterFailedConnect(c: Cells, s: Transport.Session, nd: NativeDevice, nativeFails: bool,
                                     e: Error, res: Resolution)
    ensures var o := ScanAndConnectStep(c, s, true, Picked(nd), nativeFails, GattFailed(e), res);
            && o.cells.device == Some(Transport.Selected(nd))
            && !o.cells.connected && o.cells.error == Some(ErrorText(e, FailedToConnect))
  {
  }

  /** A failed scan (the unsupported refusal, or a picker error other than a
      cancel) made while connected clears the controller's connected flag
      although the adapter still holds its live session. */
  lemma FailedScanHidesLiveSession(c: Cells, s: Transport.Session, available: bool, picker: PickerOutcome,
                                   nativeFails: bool, gatt: GattOutcome, res: Resolution)
    requires s.IsConnected()
    requires !available || (picker.PickerFailed? && picker.error.name != Transport.CancelErrorName)
    ensures var o := ScanAndConnectStep(c, s, available, picker, nativeFails, gatt, res);
            !o.cells.connected && o.cells.error.Some? && o.session == s && o.session.IsConnected()
  {
  }

  /** A failed GATT connect made while connected is different: the teardown
      before the connect has already ended the old session, so both layers
      end disconnected with empty slots, after one native disconnect. */
  lemma FailedConnectEndsLiveSession(c: Cells, s: Transport.Session, nd: NativeDevice, nativeFails: bool,
                                     e: Error, res: Resolution)
    requires s.IsConnected()
    ensures var o := ScanAndConnectStep(c, s, true, Picked(nd), nativeFails, GattFailed(e), res);
            && !o.cells.connected && o.session == Transport.Empty
            && o.calls == [RequestDevice(true, [Transport.ServiceUuid]), GattDisconnect(s.gattServer.value),
                           GattConnect(nd)]
  {
  }

  /** After a successful attempt, the link loss and the disconnect event
      alone leave both layers disconnected with no device. */
  lemma EventEndsSession(c: Cells, s: Transport.Session, nd: NativeDevice, nativeFails: bool,
                         gatt: GattOutcome, res: Resolution)
    requires ScanAndConnectStep(c, s, true, Picked(nd), nativeFails, gatt, res).cells.connected
    ensures var o := ScanAndConnectStep(c, s, true, Picked(nd), nativeFails, gatt, res);
            var ev := DisconnectEventStep(o.cells, Transport.LinkLostStep(o.session));
            && !ev.cells.connected && ev.cells.device.None?
            && !ev.session.IsConnected() && ev.session.connectedDevice.None?
  {
  }

  /** Sending the stop command through a held characteristic writes "000\n"
      once, answers true and leaves no error. */
  lemma StopCommandWhileConnected(c: Cells, s: Transport.Session)
    requires s.characteristic.Some?
    ensures var r := SendCommandStep(c, s, StopCommand, WriteOk);
            && r.ok && r.outcome.cells.error.None?
            && r.outcome.calls == [WriteValue(s.characteristic.value, "000\n")]
  {
    assert Transport.Payload(StopCommand) == "000\n";
  }

  // ---------------------------------------------------------------------
  // Reachable states

  /** One thing that can happen to the provider. */
  datatype Action =
    | ScanAndConnectAction(picker: PickerOutcome, nativeFails: bool, gatt: GattOutcome, res: Resolution)
    | DisconnectAction(nativeFails: bool)
    | SendAction(command: string, w: WriteOutcome)
    | ClearErrorAction
    | LinkLostAction
    | DisconnectEventAction

  /** The controller's cells together with the adapter's slots. */
  datatype World = World(cells: Cells, session: Transport.Session)

  function Perform(w: World, available: bool, a: Action): World {
    match a
    case ScanAndConnectAction(picker, nativeFails, gatt, res) =>
      var o := ScanAndConnectStep(w.cells, w.session, available, picker, nativeFails, gatt, res);
      World(o.cells, o.session)
    case DisconnectAction(nativeFails) =>
      var o := DisconnectStep(w.cells, w.session, nativeFails);
      World(o.cells, o.session)
    case SendAction(command, wo) =>
      var r := SendCommandStep(w.cells, w.session, command, wo);
      World(r.outcome.cells, r.outcome.session)
    case ClearErrorAction => World(w.cells.(error := None), w.session)
    case LinkLostAction => World(w.cells, Transport.LinkLostStep(w.session))
    case DisconnectEventAction =>
      var o := DisconnectEventStep(w.cells, w.session);
      World(o.cells, o.session)
  }

  function Play(w: World, available: bool, actions: seq<Action>): World
    decreases |actions|
  {
    if actions == [] then w else Play(Perform(w, available, actions[0]), available, actions[1..])
  }

  /** What holds between handlers: the scanning flag is released, the
      adapter's slots are well-formed, and a controller that says connected
      has its listener registered and mirrors the adapter's device slot. */
  predicate Coherent(w: World) {
    && !w.cells.isScanning
    && Transport.WellFormed(w.session)
    && (w.cells.connected ==> Mirrors(w.cells, w.session))
  }

  lemma PerformKeepsCoherent(w: World, available: bool, a: Action)
    requires Coherent(w)
    ensures Coherent(Perform(w, available, a))
  {
    match a
    case ScanAndConnectAction(picker, nativeFails, gatt, res) =>
      var scan := Transport.ScanStep(w.session, available, picker);
      if scan.result.Ok? && scan.result.value.Some? {
        Transport.ApplyKeepsWellFormed(w.session, available,
          Transport.ConnectOp(scan.result.value.value, nativeFails, gatt, res));
      }
    case LinkLostAction =>
      Transport.ApplyKeepsWellFormed(w.session, available, Transport.LinkLostOp);
    case _ =>
  }

  /** Every state the provider reaches from mount, whatever the user, the
      platform and the peripheral do, is coherent. */
  lemma {:induction false} PlayKeepsCoherent(w: World, available: bool, actions: seq<Action>)
    requires Coherent(w)
    ensures Coherent(Play(w, available, actions))
    decreases |actions|
  {
    if actions != [] {
      PerformKeepsCoherent(w, available, actions[0]);
      PlayKeepsCoherent(Perform(w, available, actions[0]), available, actions[1..]);
    }
  }

  lemma InitialIsCoherent()
    ensures Coherent(World(Initial, Transport.Empty))
  {
  }
}
