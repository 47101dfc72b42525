# Bluetooth connection and command subsystem — a Dafny model

This project models the Bluetooth core of an educational-kit companion app.
The app connects to a microcontroller board over Bluetooth Low Energy. It
writes newline-terminated numeric commands to one GATT characteristic. The
core has two layers, each a small state machine:

- **Transport adapter** (`lib/bluetooth.ts`, module `Transport`). Three
  module-level slots: `connectedDevice`, `characteristic` and `gattServer`.
  They become the `Option` fields of class `Transport.Adapter`. The adapter
  checks for Web Bluetooth, shows the device picker, and connects, tearing
  down a live session first. It resolves the known characteristic, falling
  back to the first characteristic of the first primary service. It also
  disconnects as a best effort and writes `command + "\n"`.
- **Connection controller** (`BluetoothProvider` in
  `lib/bluetooth-context.tsx`, module `Controller`). The cells `device`,
  `connected`, `isScanning` and `error`, plus the constant `isSupported`,
  are the fields of class `Controller.Provider`. Its handlers sequence
  adapter calls and turn every failure into error text.

Every Web Bluetooth call is an outcome passed in by the caller:

- `requestDevice` → `PickerOutcome`
- `gatt.connect()` → `GattOutcome`
- service and characteristic lookup → `Resolution`
- `writeValue` → `WriteOutcome`
- a throw from the native `disconnect()` → a `bool`

Four kinds of platform call are appended to the adapter's `calls` log:
`requestDevice`, `gatt.connect()`, the native `disconnect()` and
`writeValue`. That makes "the picker is not shown", "exactly one write of
`"101\n"`" and "native disconnect only when connected" statements about
that log.

Each operation except the adapter's `gattserverdisconnected` listener and
the controller's `clearError` has a pure step function over the slots (and,
for the controller, over its cells). The step function's contract states
what the source promises. The class method that updates the fields in place
is proved equal to that step function. The listener and `clearError` are
methods whose contracts give the new fields directly.

Lemmas over sequences of operations prove invariants of every reachable
state:

- `Transport.RunKeepsWellFormed`: a held device or characteristic implies a
  held server.
- `Controller.PlayKeepsCoherent`: `isScanning` is released between
  handlers, and a controller that says connected mirrors the adapter's
  device slot.

In the model, the platform marking the held server disconnected
(`LinkLost`) and the `gattserverdisconnected` event are two separate steps.

The lemmas below show how the code behaves where the two layers, or the
slots among themselves, do not agree:

- A connect whose fallback enumeration throws keeps the new server with no
  device (`Transport.ServerHeldWithoutDevice`).
- A connect that resolves no characteristic still resolves to `true`
  (`Transport.ConnectedServerWithoutChannel`). The controller then says
  connected while the adapter's `isConnected()` is false
  (`Controller.ConnectedWithoutChannel`).
- The teardown before a connect runs only when the held server reports
  connected. From a state that holds a disconnected server and a
  characteristic, a connect that resolves none keeps that old
  characteristic, and `isConnected()` is true through it
  (`Transport.StaleChannelSurvivesReconnect`). The model reaches such a
  state through its separate link-drop step, or through a GATT connect that
  yields a disconnected server.
- The controller records the selected device before connecting and keeps it
  after a failed connect (`Controller.DeviceKeptAfterFailedConnect`), unless
  the teardown's own disconnect event runs a controller listener (see Left
  out).
- A failed scan (the unsupported refusal, or a picker error other than a
  cancel) made while connected sets `connected` to false while the adapter
  still holds its live session (`Controller.FailedScanHidesLiveSession`). A
  failed GATT connect made while connected is different: the teardown has
  already ended the old session, so both layers end disconnected with empty
  slots (`Controller.FailedConnectEndsLiveSession`).
- `scanAndConnect` has no guard against overlapping calls. Each handler is
  modelled as one atomic step.

## Model

| member | source | states |
|---|---|---|
| `Transport.IsWebBluetoothAvailable` | lib/bluetooth.ts:16-19 | false off the web platform and without `navigator.bluetooth`; true on the web with it |
| `Transport.DisplayName` | lib/bluetooth.ts:36 | never empty; the device's own name when it has a non-empty one, otherwise "Unknown Device" |
| `Transport.Selected` | lib/bluetooth.ts:34-38 | the device record keeps the platform id and native object, and its name is the non-empty display name |
| `Transport.ScanStep` | lib/bluetooth.ts:21-45 | unavailable: the unsupported error, no picker call, slots untouched; cancel (`NotFoundError`) resolves to none; any other picker error is rethrown unchanged; a pick yields the device record; exactly one picker call when available |
| `Transport.Adapter.ScanAndSelectDevice` | lib/bluetooth.ts:21-45 | result and platform calls are those of `ScanStep` |
| `Transport.DisconnectStep` | lib/bluetooth.ts:87-98 | native disconnect is asked for only when a live server is held; whether it throws makes no difference; always ends with all three slots null and not connected |
| `Transport.Adapter.DisconnectDevice` | lib/bluetooth.ts:87-98 | new slots and platform calls are those of `DisconnectStep` |
| `Transport.DisconnectIdempotent` | lib/bluetooth.ts:87-98 | a second disconnect makes no platform call and changes nothing |
| `Transport.Prepared` | lib/bluetooth.ts:51-53 | the state a connection starts from holds no live server; it is the old state, or empty exactly when a live server was held |
| `Transport.TeardownCalls` | lib/bluetooth.ts:51-53 | one native disconnect of the held server when it is live, otherwise none |
| `Transport.SelectCharacteristic` | lib/bluetooth.ts:64-77 | the known-UUID characteristic of the new server when it resolves; else the first characteristic of the first primary service; none exactly when there is no service or it has no characteristic; an enumeration error escapes |
| `Transport.ConnectStep` | lib/bluetooth.ts:47-85 | live session torn down before the GATT connect; a GATT failure rethrows with the prepared slots untouched; success exactly when the GATT connect and the resolution succeed; on success the new server and the device are held, and the characteristic is the resolved one or else unchanged; a fallback error leaves the new server held and the device slot as it was |
| `Transport.Adapter.ConnectToDevice` | lib/bluetooth.ts:47-85 | result, new slots and platform calls are those of `ConnectStep` |
| `Transport.Payload` | lib/bluetooth.ts:106-107 | the command followed by exactly one newline |
| `Transport.SendStep` | lib/bluetooth.ts:100-114 | no characteristic: the not-connected error and no write; with one: exactly one write of the payload, then true or the write's error rethrown; slots untouched |
| `Transport.Adapter.SendCommand` | lib/bluetooth.ts:100-114 | result and platform calls are those of `SendStep` |
| `Transport.LinesOfPayload` | lib/bluetooth.ts:106-108 | a newline-delimited reader takes a newline-free command back as one complete line |
| `Transport.LinesOfStream` | lib/bluetooth.ts:100-114 | the stream written by successive sends reads back as exactly the commands sent, in order |
| `Transport.Adapter.constructor` | lib/bluetooth.ts:12-14 | all three slots start null, with no platform call made |
| `Transport.Adapter.IsBluetoothSupported` | lib/bluetooth.ts:124-126 | false off the web platform; the same as the availability check |
| `Transport.Adapter.GetConnectedDevice` | lib/bluetooth.ts:116-118 | the device slot |
| `Transport.Adapter.IsConnected` | lib/bluetooth.ts:120-122 | true exactly when a server is held, reports connected, and a characteristic is held |
| `Transport.LinkLostStep` | lib/bluetooth.ts:120-122 | once the platform marks the held server disconnected, `isConnected()` is false with no call made, and the device and characteristic slots are untouched |
| `Transport.Adapter.LinkLost` | lib/bluetooth.ts:120-122 | new slots are those of `LinkLostStep`; no platform call |
| `Transport.Adapter.OnGattServerDisconnected` | lib/bluetooth.ts:58-62 | the disconnect event empties all three slots |
| `Transport.EventAfterConnect` | lib/bluetooth.ts:58-80 | a successful connect holds the device; the link drop alone then makes `isConnected()` false while the device, the server and the connect's characteristic stay held; only the event that follows leaves the adapter with no device |
| `Transport.ConnectedServerWithoutChannel` | lib/bluetooth.ts:69-80 | a connect that resolves no characteristic still resolves to true and holds the device, yet `isConnected()` is false |
| `Transport.StaleChannelSurvivesReconnect` | lib/bluetooth.ts:51-80 | the teardown guard skips a held server that reports not connected; from such a state a connect that resolves nothing keeps the old characteristic and reports connected (a model-level premise, see Left out) |
| `Transport.ServerHeldWithoutDevice` | lib/bluetooth.ts:56-79 | a fallback enumeration error leaves the new server held with an empty device slot |
| `Transport.ApplyKeepsWellFormed` | lib/bluetooth.ts:47-98 | every adapter operation, the link drop and the event keep "device or characteristic held implies server held" |
| `Transport.RunKeepsWellFormed` | lib/bluetooth.ts:47-98 | every sequence of them keeps it |
| `Controller.ErrorText` | lib/bluetooth-context.tsx:63 | the thrown message, or the fallback when it is empty; never empty when the fallback is not |
| `Controller.ScanAndConnectStep` | lib/bluetooth-context.tsx:41-68 | `isScanning` raised and `error` cleared in every in-flight snapshot, released at exit; unsupported: the adapter's message, not connected, slots untouched; cancel: only `error`/`isScanning` reset; picker error: its text, not connected; pick: device recorded (in the model; see Left out for the teardown's own event), connected exactly when the adapter's connect succeeded, else the connect error's text; a reported connection mirrors the adapter's device slot |
| `Controller.Provider.ScanAndConnect` | lib/bluetooth-context.tsx:41-68 | cells, slots, platform calls and snapshots are those of `ScanAndConnectStep` |
| `Controller.DisconnectStep` | lib/bluetooth-context.tsx:70-77 | device null, not connected and error null whatever the adapter does; the adapter's slots are empty |
| `Controller.Provider.Disconnect` | lib/bluetooth-context.tsx:70-77 | cells, slots and calls are those of `DisconnectStep` |
| `Controller.SendCommandStep` | lib/bluetooth-context.tsx:79-91 | true exactly when a characteristic is held and the write succeeds; then the error is cleared; otherwise false with the not-connected message (no write) or the write error's text; only `error` changes; nothing is thrown |
| `Controller.Provider.SendCommand` | lib/bluetooth-context.tsx:79-91 | returned boolean, cells and calls are those of `SendCommandStep` |
| `Controller.Provider.ClearError` | lib/bluetooth-context.tsx:93 | `error` becomes null and no other cell changes |
| `Controller.DisconnectEventStep` | lib/bluetooth-context.tsx:55-61 | the event empties the adapter's slots; once the controller's listener is registered it sets `connected` false and `device` null, with nothing else changed |
| `Controller.Provider.OnDeviceDisconnected` | lib/bluetooth-context.tsx:55-61 | cells and slots are those of `DisconnectEventStep`; no platform call |
| `Controller.Provider.constructor` | lib/bluetooth-context.tsx:33-39 | cells start null/false; `isSupported` is the adapter's availability, false off the web, and constant thereafter |
| `Controller.ConnectedWithoutChannel` | lib/bluetooth-context.tsx:51-53 | with no characteristic resolved the controller says connected while the adapter's `isConnected()` is false |
| `Controller.DeviceKeptAfterFailedConnect` | lib/bluetooth-context.tsx:51-64 | in the model, where listeners run only at the explicit event step: after a GATT failure the selected device stays in `device`, not connected, with the failure's text (see Left out for the teardown's own event) |
| `Controller.FailedScanHidesLiveSession` | lib/bluetooth-context.tsx:62-64 | a failed scan (the unsupported refusal, or a picker error other than a cancel) while connected reports not connected while the adapter still holds its live session |
| `Controller.FailedConnectEndsLiveSession` | lib/bluetooth-context.tsx:51-64 | a failed GATT connect while connected ends with both layers disconnected and empty slots, after the picker call, one native disconnect of the old server and the connect attempt |
| `Controller.EventEndsSession` | lib/bluetooth-context.tsx:53-61 | after a successful attempt, the link drop and the event alone leave both layers disconnected with no device |
| `Controller.StopCommandWhileConnected` | lib/bluetooth-context.tsx:79-91 | sending "000" through a held characteristic writes "000\n" once, answers true, leaves no error |
| `Controller.InitialIsCoherent` | lib/bluetooth-context.tsx:34-37 | the mounted cells with empty slots are coherent |
| `Controller.PerformKeepsCoherent` | lib/bluetooth-context.tsx:41-93 | every handler, the link drop and the event keep: scanning released, slots well-formed, a reported connection mirrors the adapter's device |
| `Controller.PlayKeepsCoherent` | lib/bluetooth-context.tsx:41-93 | every sequence of them keeps it |

## Left out

- Asynchronous interleaving. Each handler is one atomic step, with the
  cells visible at each `await` recorded as snapshots. Two overlapping
  `scanAndConnect` calls are not modelled.
- Listener identity and accumulation. The adapter's `gattserverdisconnected`
  listener is a method that empties the slots. The controller's listener is
  a flag set by the first successful connect. Which device fires the event,
  and how many listeners repeated connects leave behind, are not modelled.
- The UTF-8 encoding by `TextEncoder`. The payload is the character
  sequence `command + "\n"`.
- Only four platform calls are logged: `requestDevice`, `gatt.connect()`,
  the native `disconnect()` and `writeValue`. The known-UUID lookups
  (`getPrimaryService`, `getCharacteristic`), the fallback enumerations
  (`getPrimaryServices`, `getCharacteristics`) and the `addEventListener`
  registration are not logged. Their combined outcome is the `Resolution`
  parameter.
- `Transport.LinkLostStep`: the model separates the link drop from the
  `gattserverdisconnected` event that empties the slots. The source does not
  fix the timing between them. The states between the two steps, with a held
  server that reports not connected, may not arise in a running browser. The
  model also lets `gatt.connect()` yield a server that reports not connected,
  which the platform does not do.
- `Transport.StaleChannelSurvivesReconnect`: its premise is a held
  disconnected server with a characteristic. The model reaches it only
  through the two allowances above. The lemma states what the code does from
  such a state, not that a running browser reaches it.
- `Controller.PlayKeepsCoherent`: a native `gattServer.disconnect()` fires
  `gattserverdisconnected` itself. So the teardown inside `connectToDevice`
  runs every controller listener that an earlier session left on that
  device. Such a listener runs after `setDevice` and can leave `device` null
  with `connected` true. The model runs the listeners only at its explicit
  event step. The "a reported connection mirrors the adapter's device" part
  of `Coherent` is proved for that model only.
- `Controller.ScanAndConnectStep` and `Controller.DeviceKeptAfterFailedConnect`:
  the same teardown event also reaches a failed reconnect. From a live
  controller session on device A, picking B and having B's `gatt.connect()`
  reject runs `setDevice(B)`, then the teardown's `disconnect()` of A, whose
  event runs A's controller listener and sets `device` to null. The catch
  does not set it back, so the source ends with `device` null. The model
  runs no listener inside the teardown and ends with B in `device`; both
  members state the model's outcome, not the source's, for a reconnect
  from a live session.
- `console.error` logging, the React plumbing (`useMemo`, `useCallback`,
  the context value, and the outside-provider throw of `useBluetooth`) and
  the presentation layer: app/index.tsx, the project screens and the
  catalogue in constants/data.ts. Only the stop command "000" is reused.
- Whether the fallback characteristic supports writes. The source does not
  check it, and neither does the model.
