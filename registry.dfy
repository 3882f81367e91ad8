/**
 * The device registry of BleService (the mDevices HashMap) and the
 * sighting rule of onLeScan: a device is added only if it is present,
 * reports the name "SensorTag", and is not already a value of the map.
 */
module Registry {
  import opened Wrappers
  import opened Seqs

  /** DEVICE_NAME: the advertised name a peripheral must report. */
  const DEVICE_NAME: string := "SensorTag"

  /** A BluetoothDevice: its address and its name as getName() reports it (possibly null). */
  datatype Device = Device(address: string, name: Option<string>)

  /** BluetoothDevice.equals compares addresses only. */
  predicate SameDevice(a: Device, b: Device)
  {
    a.address == b.address
  }

  /** HashMap.containsValue(d), with the equality above. */
  predicate ContainsValue(m: map<string, Device>, d: Device)
  {
    exists k | k in m :: SameDevice(m[k], d)
  }

  /** The condition guarding the insertion in onLeScan. */
  predicate Admits(m: map<string, Device>, d: Option<Device>)
  {
    d.Some? && !ContainsValue(m, d.value) && d.value.name.Some? && d.value.name.value == DEVICE_NAME
  }

  /** What every reachable registry satisfies: each key is its device's address, each name is DEVICE_NAME. */
  ghost predicate WellFormed(m: map<string, Device>)
  {
    forall k | k in m :: m[k].address == k && m[k].name == Some(DEVICE_NAME)
  }

  /** The registry after onLeScan(d): mDevices.put(address, d) when admitted, else unchanged. */
  function AfterSighting(m: map<string, Device>, d: Option<Device>): (r: map<string, Device>)
    ensures WellFormed(m) ==> WellFormed(r)
    ensures Admits(m, d) ==> r.Keys == m.Keys + {d.value.address}
    ensures !Admits(m, d) ==> r == m
    ensures m.Keys <= r.Keys
  {
    if Admits(m, d) then m[d.value.address := d.value] else m
  }

  /** In a well-formed registry, containsValue is the same as containsKey on the address. */
  lemma ContainsValueIsContainsKey(m: map<string, Device>, d: Device)
    requires WellFormed(m)
    ensures ContainsValue(m, d) <==> d.address in m
  {
    if d.address in m {
      assert SameDevice(m[d.address], d);
    }
  }

  /**
   * A sighting inserts a new device (the registry grows by one key) exactly
   * when the guard admits it; otherwise it changes nothing.
   */
  lemma AdmittedIffNew(m: map<string, Device>, d: Option<Device>)
    requires WellFormed(m)
    ensures Admits(m, d) <==> |AfterSighting(m, d)| == |m| + 1
    ensures Admits(m, d) <==> AfterSighting(m, d) != m
  {
    if Admits(m, d) {
      ContainsValueIsContainsKey(m, d.value);
      assert d.value.address !in m;
    }
  }

  /** Seeing the same device again leaves the registry as it is. */
  lemma SightingIdempotent(m: map<string, Device>, d: Option<Device>)
    ensures AfterSighting(AfterSighting(m, d), d) == AfterSighting(m, d)
  {
    if Admits(m, d) {
      var m' := AfterSighting(m, d);
      assert SameDevice(m'[d.value.address], d.value);
      assert !Admits(m', d);
    }
  }

  /** No device with another name, and no absent device, is ever inserted. */
  lemma OnlyTargetsInserted(m: map<string, Device>, d: Option<Device>)
    requires d.None? || d.value.name != Some(DEVICE_NAME)
    ensures AfterSighting(m, d) == m
  {
  }

  /** `a` lists every key of `m` exactly once, in some order. */
  ghost predicate KeyListing(a: seq<string>, m: map<string, Device>)
  {
    |a| == |m| && NoDup(a) && forall k :: k in a <==> k in m
  }

  /** A registry with one device is listed as just its address. */
  lemma SingletonListing(a: seq<string>, m: map<string, Device>, k: string)
    requires KeyListing(a, m) && m.Keys == {k}
    ensures a == [k]
  {
    assert |m| == 1 by {
      assert m.Keys == {k};
    }
    assert a[0] in m;
  }

  /** mDevices.keySet().toArray(): the addresses in an unspecified order. */
  method KeyArray(m: map<string, Device>) returns (a: seq<string>)
    ensures |a| == |m| && NoDup(a)
    ensures forall k :: k in a <==> k in m
  {
    var rest := m.Keys;
    a := [];
    while rest != {}
      invariant forall k :: k in m <==> k in rest || k in a
      invariant forall k :: k in a ==> k !in rest
      invariant NoDup(a)
      invariant |a| + |rest| == |m|
      decreases rest
    {
      var k :| k in rest;
      a := a + [k];
      rest := rest - {k};
    }
  }
}
