/**
 The host's own record of its pairing: the paired devices list on disk, and the
 shared secrets in the secret store. Every call on either can fail, which is
 what the faults of an operation say.
 */
module PairingStore {
  import opened Common

  type DeviceId = string
  type Secret = seq<byte>

  datatype Device = Device(id: DeviceId, name: string)

  /** A device as LoadPairedDevices returns it; one without a stored secret has none. */
  datatype Loaded = Loaded(device: Device, secret: Option<Secret>)

  datatype Disk = Disk(devices: seq<Device>, secrets: map<DeviceId, Secret>)

  /** The calls that fail: reading or writing the list, decoding a secret, and each of the secret store's operations. */
  datatype Faults = Faults(read: bool, get: set<DeviceId>, decode: bool, put: bool, delete: bool, write: bool)

  const NO_FAULTS := Faults(false, {}, false, false, false, false)

  predicate IsHex(c: char) {
    '0' <= c <= '9' || 'a' <= c <= 'f'
  }

  predicate ValidDeviceId(id: DeviceId) {
    |id| == 32 && forall i :: 0 <= i < |id| ==> IsHex(id[i])
  }

  function WithSecret(disk: Disk, d: Device): Loaded {
    Loaded(d, if d.id in disk.secrets then Some(disk.secrets[d.id]) else None)
  }

  ghost predicate CanLoad(disk: Disk, f: Faults) {
    !f.read && forall d :: d in disk.devices ==> d.id !in f.get
  }

  function Without(devices: seq<Device>, id: DeviceId): (kept: seq<Device>)
    ensures |kept| <= |devices|
    ensures forall d :: d in kept <==> d in devices && d.id != id
  {
    if devices == [] then []
    else
      var n := |devices| - 1;
      assert forall d :: d in devices <==> d in devices[..n] || d == devices[n];
      Without(devices[..n], id) + (if devices[n].id == id then [] else [devices[n]])
  }

  /** AddPairedDevice: the secret first, if there is one, then the whole list is replaced by the one device. */
  function Added(disk: Disk, d: Device, secret: Option<Secret>, f: Faults): (Disk, bool) {
    if !ValidDeviceId(d.id) || (secret.Some? && (f.decode || f.put)) then (disk, false)
    else
      var stored := if secret.Some? then disk.(secrets := disk.secrets[d.id := secret.value]) else disk;
      if f.write then (stored, false) else (stored.(devices := [d]), true)
  }

  /** RemovePairedDevice: the list is read, the secret goes, then the list is written back without the device. */
  ghost function Removed(disk: Disk, id: DeviceId, f: Faults): (Disk, bool) {
    if !CanLoad(disk, f) || f.delete then (disk, false)
    else
      var forgotten := disk.(secrets := disk.secrets - {id});
      if f.write then (forgotten, false) else (forgotten.(devices := Without(disk.devices, id)), true)
  }

  class HostStore {
    var devices: seq<Device>
    var secrets: map<DeviceId, Secret>

    ghost function View(): Disk
      reads this
    {
      Disk(devices, secrets)
    }

    constructor ()
      ensures View() == Disk([], map[])
    {
      devices, secrets := [], map[];
    }

    method LoadPairedDevices(f: Faults) returns (loaded: Option<seq<Loaded>>)
      ensures loaded.Some? <==> CanLoad(View(), f)
      ensures loaded.Some? ==> |loaded.value| == |devices|
      ensures loaded.Some? ==> forall i :: 0 <= i < |devices| ==> loaded.value[i] == WithSecret(View(), devices[i])
    {
      if f.read {
        return None;
      }
      var list := [];
      var i := 0;
      while i < |devices|
        invariant 0 <= i <= |devices| && |list| == i
        invariant forall j :: 0 <= j < i ==> devices[j].id !in f.get
        invariant forall j :: 0 <= j < i ==> list[j] == WithSecret(View(), devices[j])
      {
        var d := devices[i];
        if d.id in f.get {
          assert d in devices;
          return None;
        }
        list := list + [Loaded(d, if d.id in secrets then Some(secrets[d.id]) else None)];
        i := i + 1;
      }
      loaded := Some(list);
    }

    /** The outer option is the error, the inner one says whether a device is paired. */
    method LoadPairedDevice(f: Faults) returns (loaded: Option<Option<Loaded>>)
      ensures loaded.Some? <==> CanLoad(View(), f)
      ensures loaded.Some? ==> loaded.value == if devices == [] then None else Some(WithSecret(View(), devices[0]))
    {
      var list := LoadPairedDevices(f);
      if list.None? {
        return None;
      }
      loaded := Some(if list.value == [] then None else Some(list.value[0]));
    }

    /** Writes a temporary file and renames it: the list changes as a whole or not at all. */
    method SavePairedDevices(list: seq<Device>, f: Faults) returns (ok: bool)
      modifies this`devices
      ensures ok == !f.write && devices == if ok then list else old(devices)
    {
      ok := !f.write;
      if ok {
        devices := list;
      }
    }

    method AddPairedDevice(d: Device, secret: Option<Secret>, f: Faults) returns (ok: bool)
      modifies this
      ensures (View(), ok) == Added(old(View()), d, secret, f)
    {
      if !ValidDeviceId(d.id) {
        return false;
      }
      if secret.Some? {
        if f.decode || f.put {
          return false;
        }
        secrets := secrets[d.id := secret.value];
      }
      ok := SavePairedDevices([d], f);
    }

    method RemovePairedDevice(id: DeviceId, f: Faults) returns (ok: bool)
      modifies this
      ensures (View(), ok) == Removed(old(View()), id, f)
    {
      var loaded := LoadPairedDevices(f);
      if loaded.None? {
        return false;
      }
      var filtered := [];
      var i := 0;
      while i < |devices|
        invariant 0 <= i <= |devices| && devices == old(devices) && secrets == old(secrets)
        invariant filtered == Without(devices[..i], id)
      {
        assert devices[..i + 1][..i] == devices[..i];
        if devices[i].id != id {
          filtered := filtered + [devices[i]];
        }
        i := i + 1;
      }
      assert devices[..i] == devices;
      if f.delete {
        return false;
      }
      secrets := secrets - {id};
      ok := SavePairedDevices(filtered, f);
    }

    method DeleteSecret(id: DeviceId, f: Faults)
      modifies this`secrets
      ensures secrets == if f.delete then old(secrets) else old(secrets) - {id}
    {
      if !f.delete {
        secrets := secrets - {id};
      }
    }
  }

  /** What was added is what the next load returns, with its secret or the one there was. */
  lemma AddedDeviceLoads(disk: Disk, d: Device, secret: Option<Secret>, f: Faults)
    ensures var (after, ok) := Added(disk, d, secret, f);
            if ok then
              && after.devices == [d] && after.secrets - {d.id} == disk.secrets - {d.id}
              && WithSecret(after, d).secret == if secret.Some? then secret else WithSecret(disk, d).secret
            else
              after.devices == disk.devices && after.secrets - {d.id} == disk.secrets - {d.id}
  {
  }

  /** Removing leaves no trace of the device, keeps every other one, and on failure keeps the whole list. */
  lemma RemovedDeviceIsGone(disk: Disk, id: DeviceId, f: Faults)
    ensures var (after, ok) := Removed(disk, id, f);
            if ok then
              && id !in after.secrets && (forall d :: d in after.devices ==> d.id != id)
              && (forall d :: d in disk.devices && d.id != id ==>
                    d in after.devices && WithSecret(after, d) == WithSecret(disk, d))
            else
              after.devices == disk.devices
  {
  }

  /**
   However the two calls fail, adding a device and then removing it touches no
   other secret; a removal that succeeds leaves no trace of the device, and if
   both succeed nothing is paired any more.
   */
  lemma AddThenRemove(disk: Disk, d: Device, secret: Option<Secret>, f: Faults, g: Faults)
    ensures var (between, added) := Added(disk, d, secret, f);
            var (after, removed) := Removed(between, d.id, g);
            && after.secrets - {d.id} == disk.secrets - {d.id}
            && (removed ==> d.id !in after.secrets && forall other :: other in after.devices ==> other.id != d.id)
            && (added && removed ==> after.devices == [])
            && (!added && !removed ==> after.devices == disk.devices)
  {
    var (between, added) := Added(disk, d, secret, f);
    AddedDeviceLoads(disk, d, secret, f);
    RemovedDeviceIsGone(between, d.id, g);
    WithoutItself(d);
  }

  lemma WithoutItself(d: Device)
    ensures Without([d], d.id) == []
  {
    assert [d][..0] == [];
  }

  // ------------------------------------------------------- whole histories

  datatype StoreCall =
    | Add(device: Device, secret: Option<Secret>, faults: Faults)
    | Remove(id: DeviceId, faults: Faults)

  ghost function Outcome(disk: Disk, call: StoreCall): (Disk, bool) {
    match call
    case Add(d, secret, f) => Added(disk, d, secret, f)
    case Remove(id, f) => Removed(disk, id, f)
  }

  /** What is on disk after any calls, whichever of them failed and how. */
  ghost function After(calls: seq<StoreCall>): Disk {
    if calls == [] then Disk([], map[])
    else
      var n := |calls| - 1;
      Outcome(After(calls[..n]), calls[n]).0
  }

  ghost predicate Succeeded(calls: seq<StoreCall>, k: nat)
    requires k < |calls|
  {
    Outcome(After(calls[..k]), calls[k]).1
  }

  /** Call k paired the device, and no call behind it has replaced or removed it. */
  ghost predicate LastPaired(calls: seq<StoreCall>, k: nat, d: Device) {
    && k < |calls| && calls[k].Add? && calls[k].device == d && Succeeded(calls, k)
    && forall m :: k < m < |calls| && Succeeded(calls, m) ==> calls[m].Remove? && calls[m].id != d.id
  }

  /** What succeeded does not depend on later calls. */
  lemma SucceededEarlier(calls: seq<StoreCall>, n: nat, k: nat)
    requires k < n <= |calls|
    ensures Succeeded(calls[..n], k) <==> Succeeded(calls, k)
  {
    assert calls[..n][..k] == calls[..k];
  }

  lemma LastPairedSnoc(calls: seq<StoreCall>, k: nat, d: Device)
    requires calls != [] && k < |calls| - 1
    ensures var n := |calls| - 1;
            LastPaired(calls, k, d) <==>
              LastPaired(calls[..n], k, d) && (Succeeded(calls, n) ==> calls[n].Remove? && calls[n].id != d.id)
  {
    var n := |calls| - 1;
    forall m | 0 <= m < n ensures Succeeded(calls[..n], m) <==> Succeeded(calls, m) {
      SucceededEarlier(calls, n, m);
    }
  }

  /**
   Behind any history of calls and failures at most one device is paired, and a
   device is the paired one exactly if some call paired it and none that
   succeeded since has replaced or removed it.
   */
  lemma {:induction false} PairedIsLastPaired(calls: seq<StoreCall>, d: Device)
    ensures |After(calls).devices| <= 1
    ensures After(calls).devices == [d] <==> exists k: nat :: LastPaired(calls, k, d)
  {
    if calls != [] {
      var n := |calls| - 1;
      PairedIsLastPaired(calls[..n], d);
      OneMoreCall(calls, d);
      forall k: nat | k < n
        ensures LastPaired(calls, k, d) <==>
          LastPaired(calls[..n], k, d) && (Succeeded(calls, n) ==> calls[n].Remove? && calls[n].id != d.id)
      {
        LastPairedSnoc(calls, k, d);
      }
      assert LastPaired(calls, n, d) <==> calls[n].Add? && calls[n].device == d && Succeeded(calls, n);
    }
  }

  /** One more call leaves the device paired, or pairs it, exactly if it succeeds with it or leaves it alone. */
  lemma OneMoreCall(calls: seq<StoreCall>, d: Device)
    requires calls != [] && |After(calls[..|calls| - 1]).devices| <= 1
    ensures |After(calls).devices| <= 1
    ensures var n := |calls| - 1;
            After(calls).devices == [d] <==>
              if !Succeeded(calls, n) then After(calls[..n]).devices == [d]
              else if calls[n].Add? then calls[n].device == d
              else After(calls[..n]).devices == [d] && calls[n].id != d.id
  {
    var n := |calls| - 1;
    var before := After(calls[..n]);
    match calls[n]
    case Add(device, secret, f) => AddedDeviceLoads(before, device, secret, f);
    case Remove(id, f) =>
      RemovedDeviceIsGone(before, id, f);
      WithoutOthers(before.devices, id);
  }

  lemma WithoutOthers(devices: seq<Device>, id: DeviceId)
    requires |devices| <= 1
    ensures Without(devices, id) == if devices == [] || devices[0].id == id then [] else devices
  {
    if devices != [] { assert devices[..0] == []; }
  }
}
