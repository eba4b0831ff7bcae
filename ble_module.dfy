/** The BLE bridge module: a scan toggle with a one-shot timer, an
    append-only buffer of discovered devices, connect by address, the GATT
    connection-state callback and unbonding by address.

    Bluetooth calls are recorded in `effects` and calls on promises in
    `settlements` instead of being performed. Whether a call throws, and what
    the platform reports, are parameters. */
module BleBridge {
  import opened BleValues

  class BleModule {
    /** Whether a LE scanner was obtained when the module was built. When it
        was not, every `bleScanner?.` call is skipped. */
    const scannerPresent: bool

    /** `scanning`: flipped by every scan request, cleared by every timer. */
    var scanning: bool
    /** `listDeviceBle`: every scan result ever delivered, in arrival order. */
    var buffer: seq<Device>
    /** `connectDevicesPromise`: the promise the GATT callback settles. */
    var connectPromise: Option<PromiseId>
    /** Scheduled timer coroutines, oldest first, each holding the promise of
        the scan request that launched it. */
    var timers: seq<PromiseId>
    /** Calls issued to the Bluetooth stack, oldest first. */
    var effects: seq<Effect>
    /** Calls of `resolve` and `reject` made on promises, oldest first. */
    var settlements: seq<Settlement>

    /** Some timer or the GATT callback will settle `p` when it runs. A
        promise that is not held is settled again only if a caller hands it
        in again. */
    predicate Held(p: PromiseId)
      reads this
    {
      p in timers || connectPromise == Some(p)
    }

    /** What every operation keeps: the discovery buffer, the effect log and
        the settlement log only grow at the end. */
    twostate predicate Monotone()
      reads this
    {
      old(buffer) <= buffer && old(effects) <= effects && old(settlements) <= settlements
    }

    constructor (scannerPresent: bool)
      ensures this.scannerPresent == scannerPresent
      ensures !scanning && buffer == [] && connectPromise == None
      ensures timers == [] && effects == [] && settlements == []
    {
      this.scannerPresent := scannerPresent;
      scanning := false;
      buffer := [];
      connectPromise := None;
      timers := [];
      effects := [];
      settlements := [];
    }

    /** `scanBleListDevice(promise)`. When not scanning: set the flag, start
        the scan and schedule a timer for `p`; if starting throws, reject `p`
        and schedule nothing, the flag staying set. When scanning: clear the
        flag and stop the scan, leaving `p` alone unless stopping throws,
        which rejects it; no timer is added or removed. `scanThrows` says
        whether the scanner call made here throws. */
    method ScanBleListDevice(p: PromiseId, scanThrows: bool)
      modifies this
      ensures Monotone()
      ensures scanning == !old(scanning)
      ensures buffer == old(buffer) && connectPromise == old(connectPromise)
      ensures !old(scanning) ==>
        && effects == old(effects) + (if scannerPresent then [StartScan] else [])
        && if scannerPresent && scanThrows then
             timers == old(timers) && settlements == old(settlements) + [Reject(p, PermissionMessage)]
           else
             timers == old(timers) + [p] && settlements == old(settlements)
      ensures old(scanning) ==>
        && effects == old(effects) + (if scannerPresent then [StopScan] else [])
        && timers == old(timers)
        && settlements == old(settlements) +
             (if scannerPresent && scanThrows then [Reject(p, PermissionMessage)] else [])
    {
      if !scanning {
        scanning := true;
        var threw := false;
        if scannerPresent {
          effects := effects + [StartScan];
          threw := scanThrows;
        }
        if threw {
          settlements := settlements + [Reject(p, PermissionMessage)];
        } else {
          timers := timers + [p];
        }
      } else {
        scanning := false;
        if scannerPresent {
          effects := effects + [StopScan];
          if scanThrows {
            settlements := settlements + [Reject(p, PermissionMessage)];
          }
        }
      }
    }

    /** `onScanResult`: the device is appended, whatever the scan state and
        even if its address is already buffered. The callback is registered
        only through the scanner, so it can only run when one exists. */
    method OnScanResult(d: Device)
      requires scannerPresent
      modifies this
      ensures Monotone()
      ensures buffer == old(buffer) + [d]
      ensures scanning == old(scanning) && connectPromise == old(connectPromise)
      ensures timers == old(timers) && effects == old(effects) && settlements == old(settlements)
    {
      buffer := buffer + [d];
    }

    /** `listDevicesToWriteableMap`: one record per buffered device, in order. */
    method ListDevicesToWriteableMap() returns (list: seq<DeviceMap>)
      ensures list == Snapshot(buffer)
      ensures DecodeAll(list) == Some(buffer)
    {
      list := [];
      for i := 0 to |buffer|
        invariant |list| == i
        invariant forall j :: 0 <= j < i ==> list[j] == DeviceToMap(buffer[j])
      {
        list := list + [DeviceToMap(buffer[i])];
      }
      SnapshotRoundTrip(buffer);
    }

    /** The oldest timer fires: it clears the flag, stops the scan and resolves
        its own promise with the snapshot of the buffer. It does so whether or
        not the scan it started was toggled off or replaced meanwhile. */
    method OnTimeout()
      requires |timers| > 0
      modifies this
      ensures Monotone()
      ensures !scanning
      ensures timers == old(timers)[1..]
      ensures effects == old(effects) + (if scannerPresent then [StopScan] else [])
      ensures settlements == old(settlements) + [Resolve(old(timers)[0], DeviceArray(Snapshot(buffer)))]
      ensures buffer == old(buffer) && connectPromise == old(connectPromise)
    {
      var p := timers[0];
      timers := timers[1..];
      scanning := false;
      if scannerPresent {
        effects := effects + [StopScan];
      }
      var list := ListDevicesToWriteableMap();
      settlements := settlements + [Resolve(p, DeviceArray(list))];
    }

    /** `connect(address, promise)`: with no buffered device at `addr`, reject
        `p`. Otherwise issue `connectGatt` on the first buffered match; when
        that returns null (`gattNull`) the elvis operator rejects `p` as not
        found too, and otherwise `p` is left alone. The GATT target is never
        set here. */
    method Connect(addr: Address, p: PromiseId, gattNull: bool)
      modifies this
      ensures Monotone()
      ensures scanning == old(scanning) && buffer == old(buffer)
      ensures timers == old(timers) && connectPromise == old(connectPromise)
      ensures FindFirst(buffer, addr).None? ==>
        effects == old(effects) && settlements == old(settlements) + [Reject(p, NotFoundMessage)]
      ensures FindFirst(buffer, addr).Some? ==>
        && effects == old(effects) + [ConnectGatt(buffer[FindFirst(buffer, addr).value])]
        && settlements == old(settlements) + (if gattNull then [Reject(p, NotFoundMessage)] else [])
    {
      match FindFirst(buffer, addr)
      case None =>
        settlements := settlements + [Reject(p, NotFoundMessage)];
      case Some(i) =>
        effects := effects + [ConnectGatt(buffer[i])];
        if gattNull {
          settlements := settlements + [Reject(p, NotFoundMessage)];
        }
    }

    /** `onConnectionStateChange`: "connected" resolves the GATT target with
        true, "disconnected" rejects it; other states, or no target, change
        nothing. The target is kept afterwards. */
    method OnConnectionStateChange(newState: int)
      modifies this
      ensures Monotone()
      ensures scanning == old(scanning) && buffer == old(buffer)
      ensures timers == old(timers) && effects == old(effects)
      ensures connectPromise == old(connectPromise)
      ensures connectPromise.None? || (newState != StateConnected && newState != StateDisconnected) ==>
        settlements == old(settlements)
      ensures connectPromise.Some? && newState == StateConnected ==>
        settlements == old(settlements) + [Resolve(connectPromise.value, Bool(true))]
      ensures connectPromise.Some? && newState == StateDisconnected ==>
        settlements == old(settlements) + [Reject(connectPromise.value, ConnectFailedMessage)]
    {
      match connectPromise
      case None =>
      case Some(q) =>
        if newState == StateConnected {
          settlements := settlements + [Resolve(q, Bool(true))];
        } else if newState == StateDisconnected {
          settlements := settlements + [Reject(q, ConnectFailedMessage)];
        }
    }

    /** `disconnect(address, promise)`: look `addr` up among the bonded
        devices (`None` when the adapter or its bonded set is unavailable);
        when absent reject `p`, otherwise call `removeBond` on the match and
        resolve `p` with true, or reject it with the error `removeBond` threw. */
    method Disconnect(addr: Address, p: PromiseId, bonded: Option<seq<Device>>, removeBondError: Option<string>)
      modifies this
      ensures Monotone()
      ensures scanning == old(scanning) && buffer == old(buffer)
      ensures timers == old(timers) && connectPromise == old(connectPromise)
      ensures bonded.None? || FindFirst(bonded.value, addr).None? ==>
        effects == old(effects) && settlements == old(settlements) + [Reject(p, NotFoundMessage)]
      ensures bonded.Some? && FindFirst(bonded.value, addr).Some? ==>
        && effects == old(effects) + [RemoveBond(bonded.value[FindFirst(bonded.value, addr).value])]
        && settlements == old(settlements) +
             [if removeBondError.Some? then Reject(p, removeBondError.value) else Resolve(p, Bool(true))]
    {
      var found := if bonded.Some? then FindFirst(bonded.value, addr) else None;
      match found
      case None =>
        settlements := settlements + [Reject(p, NotFoundMessage)];
      case Some(i) =>
        effects := effects + [RemoveBond(bonded.value[i])];
        match removeBondError
        case None =>
          settlements := settlements + [Resolve(p, Bool(true))];
        case Some(e) =>
          settlements := settlements + [Reject(p, e)];
    }
  }
}
