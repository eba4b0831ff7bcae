/** Call sequences against the bridge module, showing what its contracts
    imply when operations interleave. */
module BleScenarios {
  import opened BleValues
  import opened BleBridge

  /** Start (promise 1), stop (promise 2), start again (promise 3), then the
      first timer fires: the second session is ended by the first session's
      timer, promise 1 gets the snapshot, promise 2 is pending and held by
      nothing, and promise 3 still waits for its own timer. */
  method StaleTimerEndsNewSession(d: Device) returns (scanningAfter: bool, log: seq<Settlement>,
                                                      stopper: PromiseStatus, stopperHeld: bool,
                                                      waiting: seq<PromiseId>)
    ensures !scanningAfter
    ensures log == [Resolve(1, DeviceArray([DeviceToMap(d)]))]
    ensures stopper == Pending && !stopperHeld
    ensures waiting == [3]
  {
    var m := new BleModule(true);
    m.ScanBleListDevice(1, false);
    m.OnScanResult(d);
    m.ScanBleListDevice(2, false);
    m.ScanBleListDevice(3, false);
    assert m.scanning && m.timers == [1, 3] && m.buffer == [d];
    m.OnTimeout();
    assert Snapshot([d]) == [DeviceToMap(d)];
    scanningAfter := m.scanning;
    log := m.settlements;
    stopper := StatusOf(log, 2);
    stopperHeld := m.Held(2);
    waiting := m.timers;
  }

  /** A start whose `startScan` throws rejects its promise but leaves the
      flag set, so the next request stops a scan that never started and its
      promise is never settled. */
  method FailedStartLeavesFlagSet() returns (log: seq<Settlement>, second: PromiseStatus,
                                             secondHeld: bool, calls: seq<Effect>)
    ensures log == [Reject(1, PermissionMessage)]
    ensures second == Pending && !secondHeld
    ensures calls == [StartScan, StopScan]
  {
    var m := new BleModule(true);
    m.ScanBleListDevice(1, true);
    assert m.scanning && m.timers == [];
    m.ScanBleListDevice(2, false);
    log := m.settlements;
    second := StatusOf(log, 2);
    secondHeld := m.Held(2);
    calls := m.effects;
  }

  /** The same address discovered twice is buffered and reported twice, and
      `connect` uses the first of the two records. */
  method DuplicatesKept(addr: Address) returns (log: seq<Settlement>, calls: seq<Effect>)
    ensures log == [Resolve(1, DeviceArray([DeviceToMap(Device(addr, Some("Sensor1"), None)),
                                             DeviceToMap(Device(addr, Some("Sensor1-updated"), None))]))]
    ensures calls == [StartScan, StopScan, ConnectGatt(Device(addr, Some("Sensor1"), None))]
  {
    var m := new BleModule(true);
    var early := Device(addr, Some("Sensor1"), None);
    var late := Device(addr, Some("Sensor1-updated"), None);
    m.ScanBleListDevice(1, false);
    m.OnScanResult(early);
    m.OnScanResult(late);
    m.OnTimeout();
    assert m.buffer == [early, late];
    assert Snapshot([early, late]) == [DeviceToMap(early), DeviceToMap(late)];
    m.Connect(addr, 2, false);
    log := m.settlements;
    calls := m.effects;
  }

  /** `connect` on a discovered address issues `connectGatt`, but the GATT
      callback finds no target, so "connected" leaves the promise pending and
      held by nothing. */
  method ConnectNeverSettles(d: Device) returns (status: PromiseStatus, held: bool)
    ensures status == Pending && !held
  {
    var m := new BleModule(true);
    m.ScanBleListDevice(1, false);
    m.OnScanResult(d);
    m.Connect(d.address, 2, false);
    m.OnConnectionStateChange(StateConnected);
    status := StatusOf(m.settlements, 2);
    held := m.Held(2);
  }

  /** A discovered address whose `connectGatt` returns null is reported as
      not found, after the call was issued. */
  method ConnectGattNull(d: Device) returns (log: seq<Settlement>, calls: seq<Effect>)
    ensures log == [Reject(2, NotFoundMessage)]
    ensures calls == [StartScan, ConnectGatt(d)]
  {
    var m := new BleModule(true);
    m.ScanBleListDevice(1, false);
    m.OnScanResult(d);
    m.Connect(d.address, 2, true);
    log := m.settlements;
    calls := m.effects;
  }

  /** Without a scanner nothing is issued, a scan request cannot fail, no
      result can arrive, and the timer resolves with an empty list. */
  method NoScanner() returns (log: seq<Settlement>, calls: seq<Effect>)
    ensures log == [Resolve(1, DeviceArray([]))]
    ensures calls == []
  {
    var m := new BleModule(false);
    m.ScanBleListDevice(1, true);
    m.OnTimeout();
    log := m.settlements;
    calls := m.effects;
  }

  /** The activity hands the same promise to two scan requests, the second
      after Bluetooth is enabled: that second request stops the scan the
      first one started, and the first request's timer later resolves the
      shared promise once. */
  method SharedPromiseSecondRequestStops() returns (log: seq<Settlement>, calls: seq<Effect>,
                                                     scanningBetween: bool)
    ensures !scanningBetween
    ensures log == [Resolve(7, DeviceArray([]))]
    ensures calls == [StartScan, StopScan, StopScan]
  {
    var m := new BleModule(true);
    m.ScanBleListDevice(7, false);
    m.ScanBleListDevice(7, false);
    scanningBetween := m.scanning;
    m.OnTimeout();
    log := m.settlements;
    calls := m.effects;
  }

  /** A promise already held by a timer can be rejected by a stop request
      whose `stopScan` throws; the timer still calls `resolve` on it, and the
      promise keeps the rejection. */
  method SharedPromiseFirstOutcomeWins() returns (log: seq<Settlement>, status: PromiseStatus)
    ensures log == [Reject(1, PermissionMessage), Resolve(1, DeviceArray([]))]
    ensures status == Rejected(PermissionMessage)
  {
    var m := new BleModule(true);
    m.ScanBleListDevice(1, false);
    m.ScanBleListDevice(1, true);
    m.OnTimeout();
    log := m.settlements;
    status := StatusOf(log, 1);
  }
}
