/**
 * Verified scenarios of BleService: short sequences of calls whose outcome
 * the verifier derives from the contracts of the methods alone.
 */
module Scenarios {
  import opened Wrappers
  import opened Protocol
  import opened Hub
  import opened Registry
  import opened Ble

  /** A fresh service with client 1 registered and nothing else done. */
  method RegisteredOne(delivers: ClientId -> bool, radio: bool) returns (s: BleService)
    ensures fresh(s) && s.Valid() && s.delivers == delivers && s.radioAvailable == radio
    ensures s.state == Unknown && s.clients == [1] && s.devices == map[]
    ensures s.trace == [] && s.pendingTimeouts == 0
  {
    s := new BleService(delivers, radio);
    s.HandleMessage(Request(MSG_REGISTER, 1, ""));
  }

  /** With the radio off, a client sees SCANNING and then BLUETOOTH_OFF, and no scan starts. */
  method RadioOffScan()
  {
    var s := RegisteredOne(c => true, false);
    AnnounceOne(s.delivers, 1, StateChanged(Ordinal(Scanning)));
    AnnounceOne(s.delivers, 1, StateChanged(Ordinal(BluetoothOff)));
    s.HandleMessage(Request(MSG_START_SCAN, 0, ""));
    assert s.state == BluetoothOff && s.clients == [1] && s.pendingTimeouts == 0;
    assert s.trace == [Send(1, StateChanged(2), true), Send(1, StateChanged(3), true)];
  }

  /** The trace of a scan that has found the SensorTag at AA:BB, seen by client 1. */
  function FoundTrace(): seq<Effect>
  {
    [Send(1, StateChanged(2), true), PostTimeout, StartLeScan, Send(1, DeviceFound(["AA:BB"]), true)]
  }

  /** A registered client sees SCANNING; the timeout is armed and the scan started. */
  method ScanStarts() returns (s: BleService)
    ensures fresh(s) && s.Valid()
    ensures forall c :: s.delivers(c)
    ensures s.state == Scanning && s.clients == [1] && s.pendingTimeouts == 1
    ensures s.devices == map[]
    ensures s.trace == [Send(1, StateChanged(2), true), PostTimeout, StartLeScan]
  {
    s := RegisteredOne(c => true, true);
    AnnounceOne(s.delivers, 1, StateChanged(Ordinal(Scanning)));
    s.HandleMessage(Request(MSG_START_SCAN, 0, ""));
  }

  /** The first sighting of a SensorTag is announced, as its address alone, to the one registered client. */
  method FirstSighting(s: BleService, tag: Device)
    requires s.Valid() && s.devices == map[] && s.clients == [1] && s.delivers(1)
    requires tag.name == Some(DEVICE_NAME)
    modifies s`devices, s`clients, s`trace
    ensures s.Valid() && s.devices.Keys == {tag.address} && s.clients == [1]
    ensures s.trace == old(s.trace) + [Send(1, DeviceFound([tag.address]), true)]
  {
    assert Admits(s.devices, Some(tag));
    ghost var a := s.OnLeScan(Some(tag));
    SoleListing(s.delivers, a, s.devices, tag.address);
  }

  /** A scan that finds one SensorTag: after SCANNING, DEVICE_FOUND with its address. */
  method ScanFindsOneDevice() returns (s: BleService)
    ensures fresh(s) && s.Valid()
    ensures forall c :: s.delivers(c)
    ensures s.state == Scanning && s.clients == [1] && s.pendingTimeouts == 1
    ensures s.devices.Keys == {"AA:BB"}
    ensures s.trace == FoundTrace()
  {
    s := ScanStarts();
    FirstSighting(s, Device("AA:BB", Some(DEVICE_NAME)));
  }

  /** Announcing a registry that holds one address to client 1 alone, who accepts it. */
  lemma SoleListing(ok: ClientId -> bool, a: seq<string>, m: map<string, Device>, k: string)
    requires ok(1) && KeyListing(a, m) && m.Keys == {k}
    ensures Announce(ok, [1], DeviceFound(a)) == Fanout([1], [Send(1, DeviceFound([k]), true)])
  {
    SingletonListing(a, m, k);
    AnnounceOne(ok, 1, DeviceFound(a));
  }

  /** A sighting of a device already registered under its address changes nothing. */
  method Resight(s: BleService, tag: Device)
    requires s.Valid() && tag.address in s.devices
    modifies s`devices, s`clients, s`trace
    ensures s.Valid() && s.devices == old(s.devices)
    ensures s.clients == old(s.clients) && s.trace == old(s.trace)
  {
    assert !Admits(s.devices, Some(tag)) by {
      ContainsValueIsContainsKey(s.devices, tag);
    }
    ghost var none := s.OnLeScan(Some(tag));
  }

  /**
   * Seeing the same device again sends nothing; when the scan period ends
   * the scan is stopped and the client sees IDLE.
   */
  method ResightThenTimeout()
  {
    var s := ScanFindsOneDevice();
    Resight(s, Device("AA:BB", Some(DEVICE_NAME)));
    assert s.trace == FoundTrace() && s.clients == [1] && s.state == Scanning;
    AnnounceOne(s.delivers, 1, StateChanged(Ordinal(Idle)));
    s.OnTimeout();
    assert s.state == Idle && s.clients == [1];
    assert s.trace == FoundTrace() + [StopLeScan, Send(1, StateChanged(1), true)];
  }

  /** Clients 7, 2 and 7 again registered with a service whose radio is off, where 7 is gone. */
  method RegisteredDeadTwice() returns (s: BleService)
    ensures fresh(s) && s.Valid() && s.delivers == (c => c != 7) && !s.radioAvailable
    ensures s.state == Unknown && s.clients == [7, 2, 7]
  {
    s := new BleService(c => c != 7, false);
    s.HandleMessage(Request(MSG_REGISTER, 7, ""));
    s.HandleMessage(Request(MSG_REGISTER, 2, ""));
    s.HandleMessage(Request(MSG_REGISTER, 7, ""));
  }

  /** Broadcasting to 7, 2, 7 where 7 is gone leaves only 2. */
  lemma DeadTwiceFiltered(ok: ClientId -> bool, msg: Message)
    requires ok(2) && !ok(7)
    ensures Announce(ok, [7, 2, 7], msg).kept == [2]
  {
    AnnounceOutcome(ok, [7, 2, 7], msg);
    assert [7, 2, 7][1..] == [2, 7];
    assert [2, 7][1..] == [7];
    assert [7][1..] == [];
  }

  /** A client whose endpoint is gone is dropped, every copy of it, and only it. */
  method DeadClientPruned()
  {
    var s := RegisteredDeadTwice();
    DeadTwiceFiltered(s.delivers, StateChanged(Ordinal(Scanning)));
    AnnounceOne(s.delivers, 2, StateChanged(Ordinal(BluetoothOff)));
    s.HandleMessage(Request(MSG_START_SCAN, 0, ""));
    assert s.clients == [2];
  }
}
