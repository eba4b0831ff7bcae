# BleBridge: a Dafny model of the BLE bridge module

BleBridge is an Android React Native module that scans for Bluetooth Low
Energy devices during a fixed window, then connects to a device by address
or removes its bond. All of its logic lives in the class `BleModule`.
This project models that class as a Dafny class, `BleBridge.BleModule`.
The class holds the module's three pieces of state:

- `scanning`, the toggle flag;
- `buffer`, the list of scan results (`listDeviceBle`);
- `connectPromise`, the promise the GATT callback settles (`connectDevicesPromise`).

It also holds the surroundings the Kotlin code acts on, written as plain state:

- `timers`: the scheduled timer coroutines, each holding its scan request's promise;
- `effects`: the log of calls issued to the Bluetooth stack (StartScan, StopScan, ConnectGatt, RemoveBond);
- `settlements`: the log of `resolve` and `reject` calls the module makes on promises.

Promises are numbers chosen by the caller. The same number may be handed in again, as the activity does with its single promise object. The status a React Native promise ends up with is `StatusOf`: the first `resolve` or `reject` it receives wins.

Files:

- `ble_values.dfy` (module `BleValues`): devices, the records sent to JavaScript, promise calls and statuses, effects, messages and constants. It also holds the pure parts: the address lookup, the per-device record, the snapshot, their inverses, and the promise status.
- `ble_module.dfy` (module `BleBridge`): the class. Each method is one entry point or callback of the Kotlin class. Each method says what every field is afterwards. Each keeps `Monotone()`: the buffer, the effect log and the settlement log only grow at the end.
- `ble_scenarios.dfy` (module `BleScenarios`): call sequences whose outcomes follow from the contracts.

The environment is passed in as parameters:

- whether a LE scanner exists (a constructor argument; `bleScanner` is read once, when the object is built);
- whether the scanner call made by a given scan request throws;
- whether `connectGatt` returns null;
- the bonded devices at the time of a `disconnect`;
- the error `removeBond` throws, if any.

A timer firing is the explicit event `OnTimeout`. Every timer has the same delay, so timers fire oldest first.

The model follows the code as written:

- Scan results are not deduplicated.
- The buffer is never cleared, not even when a new scan starts.
- A second `connect` is not refused.
- `connectDevicesPromise` is never assigned, so the GATT callback never settles anything. A successful `connect` therefore never settles its promise.
- A stale timer from an earlier, toggled-off scan ends a later scan early; `StaleTimerEndsNewSession` shows this.

## Model

| member | source | states |
|---|---|---|
| `BleValues.FindFirst` | app/src/main/java/react/bridge/ble/module/BleModule.kt:91 | returns no index iff no device has the address; otherwise an index whose device has the address and before which none does. `disconnect` uses the same lookup (line 104). |
| `BleValues.FindFirstAppend` | app/src/main/java/react/bridge/ble/module/BleModule.kt:91 | after a new scan result is appended, the lookup still finds the same earlier match; a new match can only be the appended device |
| `BleValues.DeviceToMap` | app/src/main/java/react/bridge/ble/module/BleModule.kt:121-130 | the record always has `name` (null when the device has no name) and `address`; it has `class` iff the device has a Bluetooth class, holding its value; it has no other keys |
| `BleValues.DecodeDevice` | app/src/main/java/react/bridge/ble/module/BleModule.kt:121-130 | reading a record back yields a device only when serialising that device gives exactly that record |
| `BleValues.DecodeDeviceInverse` | app/src/main/java/react/bridge/ble/module/BleModule.kt:121-130 | serialising a device and reading it back gives the device again: no field is lost |
| `BleValues.DecodeDeviceExact` | app/src/main/java/react/bridge/ble/module/BleModule.kt:121-130 | a record reads back as device d if and only if it is the serialisation of d |
| `BleValues.Snapshot` | app/src/main/java/react/bridge/ble/module/BleModule.kt:117-135 | the snapshot has as many records as there are buffered devices, and record i is the serialisation of device i |
| `BleValues.SnapshotRoundTrip` | app/src/main/java/react/bridge/ble/module/BleModule.kt:117-135 | reading the snapshot back gives exactly the buffered devices, in order, duplicates included |
| `BleValues.StatusOf` | app/src/main/java/react/bridge/ble/module/BleModule.kt:74 | a promise is pending iff no call in the log names it; otherwise its status is the outcome of a call that names it |
| `BleValues.StatusOfAppend` | app/src/main/java/react/bridge/ble/module/BleModule.kt:74 | later calls never change a settled promise; on a pending promise, the first later call decides |
| `BleBridge.BleModule.constructor` | app/src/main/java/react/bridge/ble/module/BleModule.kt:42-58 | the module starts not scanning, with an empty buffer, no GATT target, no timers, no effects and no promise calls |
| `BleBridge.BleModule.ScanBleListDevice` | app/src/main/java/react/bridge/ble/module/BleModule.kt:65-81 | the flag flips. When it was off: one StartScan is logged (none without a scanner). If that call throws, the promise is rejected with the permission message, no timer is added, and the flag stays on. Otherwise one timer holding this promise is added and the promise is not touched. When it was on: one StopScan is logged and no timer is added or removed. If that call throws, the promise is rejected; otherwise no promise call is made. The buffer and GATT target are unchanged. |
| `BleBridge.BleModule.OnScanResult` | app/src/main/java/react/bridge/ble/module/BleModule.kt:47-51 | exactly one device is appended at the end of the buffer, whatever its address and the scan state; nothing else changes. It can only run when a scanner exists. |
| `BleBridge.BleModule.ListDevicesToWriteableMap` | app/src/main/java/react/bridge/ble/module/BleModule.kt:117-135 | the loop builds exactly the snapshot of the buffer, which reads back as the buffer itself |
| `BleBridge.BleModule.OnTimeout` | app/src/main/java/react/bridge/ble/module/BleModule.kt:70-75 | the oldest timer is removed, the flag is cleared, one StopScan is logged (none without a scanner), and one `resolve` of that timer's promise with the snapshot of the buffer is made. It has no precondition on the flag, so it fires even after the scan was toggled off. |
| `BleBridge.BleModule.Connect` | app/src/main/java/react/bridge/ble/module/BleModule.kt:90-95 | with no buffered device at the address, the promise is rejected with "Device not found" and no effect is logged. Otherwise ConnectGatt is logged for the first buffered match. If `connectGatt` returned null, the promise is rejected with "Device not found" too; otherwise no promise call is made. The flag, buffer, timers and GATT target are unchanged. |
| `BleBridge.BleModule.OnConnectionStateChange` | app/src/main/java/react/bridge/ble/module/BleModule.kt:33-37 | "connected" resolves the GATT target (if set) with true; "disconnected" rejects it with the connection-failure message; other states, or no target, make no call. The target is not cleared. |
| `BleBridge.BleModule.Disconnect` | app/src/main/java/react/bridge/ble/module/BleModule.kt:103-110 | when the bonded set is unavailable or has no device at the address, the promise is rejected with "Device not found" and nothing is logged. Otherwise one RemoveBond is logged for the match, then exactly one promise call is made: resolve with true, or reject with the thrown error. |
| `BleScenarios.StaleTimerEndsNewSession` | app/src/main/java/react/bridge/ble/module/BleModule.kt:65-81 | start, stop, start again, then the first timer fires: scanning is off although the third request started a scan. The first promise gets the snapshot, the stopper's promise is pending and held by nothing, and the third promise's timer is still waiting. |
| `BleScenarios.FailedStartLeavesFlagSet` | app/src/main/java/react/bridge/ble/module/BleModule.kt:66-80 | after a start whose startScan throws, the next request takes the stop branch: its promise stays pending and is held by nothing, and the log is StartScan then StopScan |
| `BleScenarios.DuplicatesKept` | app/src/main/java/react/bridge/ble/module/BleModule.kt:48-51 | two results with the same address both appear in the reported list, in arrival order; connect then targets the first of them |
| `BleScenarios.ConnectNeverSettles` | app/src/main/java/react/bridge/ble/module/BleModule.kt:44 | because the GATT target is never assigned, a "connected" callback after a successful connect leaves the connect promise pending and held by nothing |
| `BleScenarios.ConnectGattNull` | app/src/main/java/react/bridge/ble/module/BleModule.kt:92-94 | a buffered address whose `connectGatt` returns null gets the call issued and its promise rejected with "Device not found" |
| `BleScenarios.NoScanner` | app/src/main/java/react/bridge/ble/module/BleModule.kt:54 | without a scanner, no Bluetooth call is issued, a scan request cannot fail, and the timer resolves with an empty list |
| `BleScenarios.SharedPromiseSecondRequestStops` | app/src/main/java/react/bridge/MainActivity.kt:64-90 | when the same promise is passed to two scan requests, the second request stops the scan; the first request's timer then resolves the promise once, with the snapshot |
| `BleScenarios.SharedPromiseFirstOutcomeWins` | app/src/main/java/react/bridge/ble/module/BleModule.kt:70-80 | a promise held by a timer and rejected by a throwing stop gets both calls; its status stays the rejection |

## Left out

- Real Bluetooth calls (`startScan`, `stopScan`, `connectGatt`, `bondedDevices`, `getSystemService`): each is an entry in the effect log or a parameter.
- Time and threads: the `Dispatchers.IO` coroutine, `delay` and the 10000 ms scan period. A timer firing is an explicit event. Races between the Bluetooth callback thread, the timer and the caller are not modelled.
- Whether a scan is running on the radio: scan results may arrive whenever a scanner exists, not only between a successful `startScan` and the next `stopScan`.
- A `stopScan` that throws inside the timer coroutine (line 73): it is outside `runCatching`, so the Kotlin code neither settles the promise nor recovers. The model assumes the timer's `stopScan` returns.
- A `connectGatt` that throws (line 93): it is not caught in the code, so it would propagate to the React Native bridge. The model assumes it returns, either a connection or null.
- The reflective `removeBond` (lines 113-115): it is an operation that either succeeds or throws an error with a message, given as a parameter.
- The bonded-device set is given as a sequence in iteration order. `find` takes the first device with the address.
- What a promise does with a second `resolve` or `reject` belongs to the promise. The module's calls are logged in full. `StatusOf` gives React Native's first-call-wins reading. The activity's logging stub promise would instead print every call.
- Fields of a scan result other than its device (signal strength, advertisement data); the module never reads them.
- The device class is an unbounded integer, not a 32-bit `Int`; the module only copies it.
- `MainActivity.kt` (permission requests, activity lifecycle), `BlePackage.kt`, `ReactBridgeBleApplication.kt` and the Gradle files are not part of this model. The one exception is the activity's calling pattern, which the shared-promise scenario follows: one promise object passed to every scan request.
- The lazy initialisation of the buffer and the GATT callback, and the `WritableArray`/`WritableMap` library types, which are plain sequences and maps here.
