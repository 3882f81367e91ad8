# BleService: scan / connect state machine with client fan-out

This project models the core of `BleService`, an Android service that looks
for a Bluetooth Low Energy peripheral advertising the name `SensorTag`,
connects to it on request, and tells every registered client about each
state change and each newly found device.

The model is one Dafny class, `Ble.BleService`, whose fields are the
service's own fields:

- `state`: the seven-value `State` enum, initially `UNKNOWN`.
- `clients`: the reply Messengers, as a sequence of client ids. Duplicates are kept.
- `devices`: the `mDevices` map from address to device.
- `gatt`: the optional connection handle `mGatt`.
- `radioAvailable`: the environment's answer to "there is an adapter and it is enabled".

Its methods are the message handler (`REGISTER`, `UNREGISTER`, `START_SCAN`,
`DEVICE_CONNECT`, `DEVICE_DISCONNECT`, and any other code), `startScan`, the
scan-timeout `Runnable` as `OnTimeout`, `onLeScan`, `connect`, the GATT
connection-state callback, `setState`, `getStateMessage`, and both
`sendMessage` overloads. Each result of `Messenger.send` comes from a fixed
predicate `delivers` over client ids. Every outgoing effect is appended to a
ghost log `trace`:

- a delivery attempt and its outcome;
- the posting of the timeout;
- `startLeScan` and `stopLeScan`;
- `disconnect` and `discoverServices`.

A ghost counter `pendingTimeouts` counts the timeouts that have been posted
and have not yet run.

Modules:

- `Wrappers`: `Option`.
- `Seqs`: `NoDup`, `Reverse`.
- `Protocol`: the state enum and its ordinal, message codes, messages, log entries.
- `Hub`: the client list as values. It holds `List.remove(Object)` and `Sweep`,
  a specification of the downward pruning loop of `sendMessage(Message)`.
  It also proves what that loop achieves.
- `Registry`: the device map, the admission rule of `onLeScan`, and `keySet().toArray()`.
- `Ble`: the class.
- `Scenarios`: verified scenarios, short call sequences whose outcome follows from the contracts alone.

Behaviour of the code that the model keeps as written:

- No entry point enters `CONNECTING` or `DISCONNECTING`. The class invariant `Valid()` proves this:
  the constructor establishes it, every entry point keeps it, and `setState` requires a target
  other than those two, which every call site meets.
  `connect` only replaces `gatt`. The state becomes `CONNECTED` only in the connection
  callback; it becomes `IDLE` in the connection callback or when the scan timeout fires
  while still `SCANNING`.
- A device that is sighted again is suppressed, not re-announced. `onLeScan`
  tests `containsValue`, and `BluetoothDevice.equals` compares addresses.
- `UNREGISTER` requests a disconnect whenever the state is `CONNECTED` and a
  handle exists, whether or not other clients remain.
- `gatt` is never cleared. A lost link only moves the state to `IDLE`.
- `startScan` always goes through `SCANNING`, unless the state is already `SCANNING`.
  So with the radio off, a client sees `SCANNING` and then `BLUETOOTH_OFF`.
- `List.remove(Object)` removes the first equal entry, which may sit before
  the loop index. The loop still ends with exactly the clients that accept
  delivery, in their order, whatever the duplicates (`Hub.SweepKeepsDelivered`).

## Model

| member | source | states |
|---|---|---|
| `Protocol.StateOf` | src/main/java/com/stylingandroid/ble/BleService.java:47-55 | decoding an int gives a state exactly for 0..6, and that state's `Ordinal` (`State.ordinal()`) is the int |
| `Protocol.OrdinalRoundTrip` | src/main/java/com/stylingandroid/ble/BleService.java:191-197 | `Ordinal` (`State.ordinal()`, the arg1 sent) decodes back to the state it was taken from |
| `Protocol.OrdinalInjective` | src/main/java/com/stylingandroid/ble/BleService.java:47-55 | `Ordinal` (`State.ordinal()`) sends distinct states as distinct ints |
| `Hub.IndexOf` | src/main/java/com/stylingandroid/ble/BleService.java:110 | the index found holds the element, and no earlier index does |
| `Hub.RemoveFirstCounts` | src/main/java/com/stylingandroid/ble/BleService.java:110 | `RemoveFirst` (`List.remove(Object)`): exactly one occurrence is removed, so the length drops by one, when the element is present; the list is unchanged when it is absent |
| `Hub.RemoveFirstAt` | src/main/java/com/stylingandroid/ble/BleService.java:110 | `RemoveFirst` (`List.remove(Object)`): it is the first occurrence that goes; the elements before and after it keep their order |
| `Hub.RemoveFirstAppend` | src/main/java/com/stylingandroid/ble/BleService.java:200-204 | `RemoveFirst` (`List.remove(Object)`) of an element of the unvisited prefix leaves the visited suffix untouched |
| `Hub.FilterMembers` | src/main/java/com/stylingandroid/ble/BleService.java:199-206 | the survivors are the members that accept delivery, and the list never grows |
| `Hub.FilterRemoveFailing` | src/main/java/com/stylingandroid/ble/BleService.java:202-204 | removing a failing client leaves the set of survivors as it was |
| `Hub.StepSweep` | src/main/java/com/stylingandroid/ble/BleService.java:200-205 | `Sweep` (the downward loop): one iteration (try the entry at i, remove on failure, step down) accounts for the outcome of the unvisited prefix |
| `Hub.StepKeepsInvariant` | src/main/java/com/stylingandroid/ble/BleService.java:200-205 | the loop invariant of sendMessage survives one iteration |
| `Hub.SweepTriesAll` | src/main/java/com/stylingandroid/ble/BleService.java:200-205 | `Sweep` (the downward loop) makes exactly one delivery attempt per list entry |
| `Hub.SweepKeepsDelivered` | src/main/java/com/stylingandroid/ble/BleService.java:199-206 | `Sweep` (the downward loop): with or without duplicates, it leaves exactly the clients that accept delivery, in their original order |
| `Hub.SweepTriesMembers` | src/main/java/com/stylingandroid/ble/BleService.java:199-206 | `Sweep` (the downward loop): every client of the list is tried, and nobody else |
| `Hub.SweepTriesOnce` | src/main/java/com/stylingandroid/ble/BleService.java:199-206 | `Sweep` (the downward loop): in a duplicate-free list each client is tried exactly once, from the last to the first |
| `Hub.DeliveriesAt` | src/main/java/com/stylingandroid/ble/BleService.java:201-202 | the k-th log entry is the attempt to the k-th client tried, with its outcome |
| `Hub.DeliveriesMembers` | src/main/java/com/stylingandroid/ble/BleService.java:201-202 | log entries are attempts to deliver this message to listed clients, and every listed client has one |
| `Hub.AnnounceOutcome` | src/main/java/com/stylingandroid/ble/BleService.java:199-206 | a broadcast keeps exactly the delivering clients, logs one attempt per entry, and in a duplicate-free list is the reverse-order attempt sequence |
| `Hub.AnnounceAttempts` | src/main/java/com/stylingandroid/ble/BleService.java:199-217 | every logged attempt is this message to a member with that member's outcome, and every member is attempted |
| `Hub.AnnounceOne` | src/main/java/com/stylingandroid/ble/BleService.java:199-206 | a single client gets one attempt and stays exactly when it accepts |
| `Registry.AfterSighting` | src/main/java/com/stylingandroid/ble/BleService.java:159-161 | the `Admits` guard (line 160) followed by `put`: a sighting keeps the registry well formed (keys are own addresses, names are SensorTag), adds exactly the device's address when admitted, and otherwise changes nothing |
| `Registry.ContainsValueIsContainsKey` | src/main/java/com/stylingandroid/ble/BleService.java:160 | the `containsValue` test inside `Admits`: in a well-formed registry, containsValue on a device is membership of its address |
| `Registry.AdmittedIffNew` | src/main/java/com/stylingandroid/ble/BleService.java:160-161 | the registry grows by one key exactly when the `Admits` guard admits the device, and changes exactly then |
| `Registry.SightingIdempotent` | src/main/java/com/stylingandroid/ble/BleService.java:159-161 | seeing the same device twice is the same as seeing it once |
| `Registry.OnlyTargetsInserted` | src/main/java/com/stylingandroid/ble/BleService.java:160 | a null device, or a device whose name is null or not SensorTag, is never inserted |
| `Registry.KeyArray` | src/main/java/com/stylingandroid/ble/BleService.java:165 | the address array lists every key exactly once, in some order |
| `Registry.SingletonListing` | src/main/java/com/stylingandroid/ble/BleService.java:165 | a registry with one device is listed as just that address |
| `Ble.BleService.constructor` | src/main/java/com/stylingandroid/ble/BleService.java:41-58 | state UNKNOWN, no clients, no devices, no handle, empty log |
| `Ble.BleService.Deliver` | src/main/java/com/stylingandroid/ble/BleService.java:208-217 | one attempt is logged, and success is the client's delivery outcome |
| `Ble.BleService.SendMessage` | src/main/java/com/stylingandroid/ble/BleService.java:199-206 | the new client list and the new log are those of `Announce` on the old list |
| `Ble.BleService.StateMessage` | src/main/java/com/stylingandroid/ble/BleService.java:191-197 | a STATE_CHANGED message whose arg1 decodes to the current state |
| `Ble.BleService.SetState` | src/main/java/com/stylingandroid/ble/BleService.java:181-189 | keeps `Valid()` for any target other than CONNECTING and DISCONNECTING; same state: nothing changes and nothing is sent; otherwise the state is set and one STATE_CHANGED with its ordinal is broadcast |
| `Ble.BleService.StartScan` | src/main/java/com/stylingandroid/ble/BleService.java:135-156 | devices emptied, SCANNING entered (announced if new); radio off: BLUETOOTH_OFF announced, no scan, no timeout; radio on: one timeout posted, then startLeScan |
| `Ble.BleService.OnTimeout` | src/main/java/com/stylingandroid/ble/BleService.java:145-153 | still SCANNING at fire time: stopLeScan, then IDLE announced; any other state: nothing changes and nothing is sent |
| `Ble.BleService.OnLeScan` | src/main/java/com/stylingandroid/ble/BleService.java:158-172 | registry per `AfterSighting`; DEVICE_FOUND listing every known address once (returned as the ghost `listing`) is broadcast exactly when a device was inserted; otherwise nothing is sent |
| `Ble.BleService.Connect` | src/main/java/com/stylingandroid/ble/BleService.java:174-179 | unknown address: nothing changes; known address: only the handle is replaced, the state and the log are untouched |
| `Ble.BleService.OnConnectionStateChange` | src/main/java/com/stylingandroid/ble/BleService.java:61-71 | link up: CONNECTED (announced if new) then discoverServices on the reporting handle; anything else: IDLE (announced if new) |
| `Ble.BleService.HandleMessage` | src/main/java/com/stylingandroid/ble/BleService.java:100-132 | REGISTER appends; UNREGISTER removes the first equal entry; both disconnect paths request gatt.disconnect() exactly when CONNECTED with a handle and leave the state alone; START_SCAN and DEVICE_CONNECT as their methods; other codes do nothing; only START_SCAN changes the state |
| `Scenarios.ScanStarts` | src/main/java/com/stylingandroid/ble/BleService.java:135-156 | one registered client, radio on: the client sees SCANNING, the timeout is posted and the scan started |
| `Scenarios.FirstSighting` | src/main/java/com/stylingandroid/ble/BleService.java:158-172 | the first SensorTag seen is announced to the one registered client as DEVICE_FOUND with its address alone |
| `Scenarios.ScanFindsOneDevice` | src/main/java/com/stylingandroid/ble/BleService.java:158-172 | one registered client, radio on: SCANNING is announced, the timeout is posted and the scan started, then the SensorTag at AA:BB is announced as DEVICE_FOUND(["AA:BB"]) |
| `Scenarios.Resight` | src/main/java/com/stylingandroid/ble/BleService.java:158-161 | a device already registered under its address is seen again: nothing changes and nothing is sent |

## Left out

- The Android transport: `Service`, `onBind`, `Messenger`, `Message` and `Bundle`. Clients are ids, and messages are values in a ghost log.
- `Message.obtain` returning null is not modelled.
- A REGISTER or UNREGISTER whose `replyTo` is null is not modelled; a client id is never null. In the source a null entry makes the next broadcast throw a NullPointerException out of the loop (`catch (RemoteException e)` does not catch it), before the remaining clients are tried and without removing the null entry.
- A `DEVICE_CONNECT` whose `obj` is null or not a `String` is not modelled. The address is always a string.
- The `WeakReference` check in `IncomingHandler`: the service is assumed alive.
- The radio itself. `getAdapter`, `isEnabled`, `startLeScan`, `stopLeScan`, `connectGatt`, `disconnect` and `discoverServices` are foreign calls. The first two are the `radioAvailable` flag. The rest are log entries or, for `connectGatt`, the handle `Gatt(address)`.
- A GATT handle is identified by its device address alone. Two `connectGatt` calls to the same device give equal handles, so a `discoverServices` on an older handle cannot be told apart from one on `mGatt`; handle identity beyond the address is not modelled.
- `connectGatt` is not logged, and its failure is not modelled. A connect to a known device always yields a handle.
- `onLeScan`'s `rssi` and `scanRecord` arguments are not modelled: the code ignores them.
- `onServicesDiscovered` only logs. It is left out, and so is every `Log` call.
- `Handler.postDelayed` timing and the 3000 ms `SCAN_PERIOD`. The timeout is an event the environment may fire at any point after it was posted (`pendingTimeouts > 0`).
- Concurrency. The model assumes each entry point runs to completion before the next one starts. In the source only `handleMessage` and the timeout `Runnable` run on `mHandler`; `onLeScan` (registered by `startLeScan(this)`) and `onConnectionStateChange` (registered by `connectGatt`) are framework callbacks that are not posted to `mHandler`, so they may interleave with `handleMessage` on the unsynchronized client list and device map. That interleaving is not modelled.
- `RemoteException` is a boolean delivery result. A client's outcome is fixed: an endpoint that fails keeps failing.
- Ble.BleService.OnLeScan: the address array in DEVICE_FOUND is stated to list every key exactly once, but not in which order, because `HashMap.keySet()` promises no order.
