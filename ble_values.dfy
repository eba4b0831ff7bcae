/** Values that the BLE bridge module passes around: discovered devices, the
    records it hands to the JavaScript side, promise outcomes and the hardware
    calls it issues. Everything here is pure. */
module BleValues {

  type Address = string

  /** The part of a scan result that the module reads: `result.device`.
      `name` is nullable on Android; `deviceClass` is present exactly when the
      device reports a Bluetooth class. */
  datatype Device = Device(address: Address, name: Option<string>, deviceClass: Option<int>)

  datatype Option<T> = None | Some(value: T)

  /** A value stored under one key of a React Native writable map. */
  datatype Value = Null | Str(s: string) | Int(i: int)

  /** A React Native writable map, one per device in a scan snapshot. */
  type DeviceMap = map<string, Value>

  /** What a promise can be resolved with. */
  datatype Payload = Bool(b: bool) | DeviceArray(items: seq<DeviceMap>)

  /** A promise handed in by the JavaScript side, identified by number. */
  type PromiseId = nat

  /** One call the module makes on a promise: `resolve(value)` or
      `reject(Exception(message))`. */
  datatype Settlement = Resolve(promise: PromiseId, payload: Payload) | Reject(promise: PromiseId, message: string)

  /** The state of one promise as React Native's promise sees it. */
  datatype PromiseStatus = Pending | Resolved(payload: Payload) | Rejected(message: string)

  /** A call into the Bluetooth stack, in the order the module issues them. */
  datatype Effect = StartScan | StopScan | ConnectGatt(device: Device) | RemoveBond(device: Device)

  const PermissionMessage: string := "Please enable bluetooth permission first"
  const NotFoundMessage: string := "Device not found"
  const ConnectFailedMessage: string := "Failed to connect to Bluetooth Device"

  /** Keys of a serialised device. */
  const NameKey: string := "name"
  const AddressKey: string := "address"
  const ClassKey: string := "class"

  /** `BluetoothProfile.STATE_DISCONNECTED` and `STATE_CONNECTED`. */
  const StateDisconnected: int := 0
  const StateConnected: int := 2

  /** The status of `p` after the calls in `log`: React Native's promise
      keeps the first `resolve` or `reject` it receives and ignores the rest. */
  function StatusOf(log: seq<Settlement>, p: PromiseId): (s: PromiseStatus)
    ensures s.Pending? <==> forall i :: 0 <= i < |log| ==> log[i].promise != p
    ensures !s.Pending? ==> exists i :: 0 <= i < |log| && log[i].promise == p && s == Outcome(log[i])
  {
    if log == [] then Pending
    else if log[0].promise == p then Outcome(log[0])
    else StatusOf(log[1..], p)
  }

  function Outcome(c: Settlement): PromiseStatus
  {
    match c
    case Resolve(_, v) => Resolved(v)
    case Reject(_, m) => Rejected(m)
  }

  /** Later calls never change a settled promise; on a pending one the first
      later call decides. */
  lemma {:induction false} StatusOfAppend(log: seq<Settlement>, more: seq<Settlement>, p: PromiseId)
    ensures StatusOf(log + more, p) ==
      if StatusOf(log, p).Pending? then StatusOf(more, p) else StatusOf(log, p)
  {
    if log == [] {
      assert log + more == more;
    } else {
      assert (log + more)[1..] == log[1..] + more;
      StatusOfAppend(log[1..], more, p);
    }
  }

  /** Index of the first device whose address is `addr` (Kotlin's
      `firstOrNull { it.address == address }` and `find`). */
  function FindFirst(devices: seq<Device>, addr: Address): (r: Option<nat>)
    ensures r.None? <==> forall j :: 0 <= j < |devices| ==> devices[j].address != addr
    ensures r.Some? ==> r.value < |devices| && devices[r.value].address == addr
    ensures r.Some? ==> forall j :: 0 <= j < r.value ==> devices[j].address != addr
  {
    if devices == [] then None
    else if devices[0].address == addr then Some(0)
    else match FindFirst(devices[1..], addr)
      case None => None
      case Some(k) => Some(k + 1)
  }

  /** The record `listDevicesToWriteableMap` builds for one device: `name`
      (null when the device has none) and `address` always, `class` only when
      the device has a Bluetooth class. */
  function DeviceToMap(d: Device): (m: DeviceMap)
    ensures NameKey in m && AddressKey in m
    ensures m[AddressKey] == Str(d.address)
    ensures m[NameKey] == NameOf(d.name)
    ensures ClassKey in m <==> d.deviceClass.Some?
    ensures ClassKey in m ==> m[ClassKey] == Int(d.deviceClass.value)
    ensures forall k :: k in m ==> k == NameKey || k == AddressKey || k == ClassKey
  {
    var base := map[NameKey := NameOf(d.name), AddressKey := Str(d.address)];
    if d.deviceClass.Some? then base[ClassKey := Int(d.deviceClass.value)] else base
  }

  /** `putString` of a nullable name stores null for a missing one. */
  function NameOf(name: Option<string>): Value
  {
    if name.Some? then Str(name.value) else Null
  }

  /** How a JavaScript caller reads one record back; `None` for a record that
      the module could not have produced. */
  function DecodeDevice(m: DeviceMap): (r: Option<Device>)
    ensures r.Some? ==> DeviceToMap(r.value) == m
  {
    if && AddressKey in m && m[AddressKey].Str?
       && NameKey in m && (m[NameKey].Str? || m[NameKey].Null?)
       && (ClassKey in m ==> m[ClassKey].Int?)
       && (forall k :: k in m ==> k == NameKey || k == AddressKey || k == ClassKey)
    then
      var d := Device(m[AddressKey].s,
                      if m[NameKey].Str? then Some(m[NameKey].s) else None,
                      if ClassKey in m then Some(m[ClassKey].i) else None);
      assert DeviceToMap(d).Keys == m.Keys;
      Some(d)
    else None
  }

  /** Serialising a device and reading it back gives the same device. */
  lemma DecodeDeviceInverse(d: Device)
    ensures DecodeDevice(DeviceToMap(d)) == Some(d)
  {
  }

  /** A record decodes to `d` exactly when it is the serialisation of `d`. */
  lemma DecodeDeviceExact(m: DeviceMap, d: Device)
    ensures DecodeDevice(m) == Some(d) <==> DeviceToMap(d) == m
  {
    if DeviceToMap(d) == m {
      DecodeDeviceInverse(d);
    }
  }

  /** The array `listDevicesToWriteableMap` returns: one record per device,
      in the order the devices were discovered. */
  function Snapshot(devices: seq<Device>): (r: seq<DeviceMap>)
    ensures |r| == |devices|
    ensures forall i :: 0 <= i < |r| ==> r[i] == DeviceToMap(devices[i])
  {
    if devices == [] then [] else [DeviceToMap(devices[0])] + Snapshot(devices[1..])
  }

  /** The JavaScript view of a whole snapshot. */
  function DecodeAll(items: seq<DeviceMap>): Option<seq<Device>>
  {
    if items == [] then Some([])
    else match (DecodeDevice(items[0]), DecodeAll(items[1..]))
      case (Some(d), Some(ds)) => Some([d] + ds)
      case _ => None
  }

  /** Reading a snapshot back gives the discovered devices, same length and
      order, duplicates included. */
  lemma {:induction false} SnapshotRoundTrip(ds: seq<Device>)
    ensures DecodeAll(Snapshot(ds)) == Some(ds)
  {
    if ds != [] {
      DecodeDeviceInverse(ds[0]);
      SnapshotRoundTrip(ds[1..]);
      assert Snapshot(ds)[1..] == Snapshot(ds[1..]);
      assert [ds[0]] + ds[1..] == ds;
    }
  }

  /** Appending a device never changes an earlier match, and a new match is
      the appended device. */
  lemma {:induction false} FindFirstAppend(devices: seq<Device>, d: Device, addr: Address)
    ensures FindFirst(devices + [d], addr) ==
      if FindFirst(devices, addr).Some? then FindFirst(devices, addr)
      else if d.address == addr then Some(|devices|)
      else None
  {
    if devices != [] {
      assert (devices + [d])[1..] == devices[1..] + [d];
      FindFirstAppend(devices[1..], d, addr);
    }
  }
}
