/**
 * BleService: the scan / connect state machine and its broadcast to
 * registered clients. The Android plumbing is replaced by values: clients
 * are ids, the radio's "adapter present and enabled" is one flag, and every
 * outgoing message and radio request is appended to a ghost log.
 */
module Ble {
  import opened Wrappers
  import opened Protocol
  import opened Hub
  import opened Registry

  /** The gatt.disconnect() request issued when the service is CONNECTED and holds a handle. */
  function DisconnectRequest(s: State, g: Option<Gatt>): seq<Effect>
  {
    if s == Connected && g.Some? then [Disconnect(g.value)] else []
  }

  class BleService {
    /** mState */
    var state: State
    /** mClients: registered reply Messengers, duplicates allowed */
    var clients: seq<ClientId>
    /** mDevices: address to device */
    var devices: map<string, Device>
    /** mGatt */
    var gatt: Option<Gatt>
    /** The environment's answer to "mBluetooth != null && mBluetooth.isEnabled()". */
    var radioAvailable: bool
    /** Whether Messenger.send to a client succeeds (false: RemoteException). */
    const delivers: ClientId -> bool

    /** Every delivery attempt and radio request, in the order issued. */
    ghost var trace: seq<Effect>
    /** Scan timeouts posted to the handler that have not run yet. */
    ghost var pendingTimeouts: nat

    /**
     * The registry holds only SensorTags keyed by their own address, and the
     * service never enters CONNECTING or DISCONNECTING.
     */
    ghost predicate Valid()
      reads this
    {
      WellFormed(devices) && state != Connecting && state != Disconnecting
    }

    constructor (delivers: ClientId -> bool, radioAvailable: bool)
      ensures Valid()
      ensures state == Unknown && clients == [] && devices == map[] && gatt == None
      ensures this.delivers == delivers && this.radioAvailable == radioAvailable
      ensures trace == [] && pendingTimeouts == 0
    {
      state := Unknown;
      clients := [];
      devices := map[];
      gatt := None;
      this.radioAvailable := radioAvailable;
      this.delivers := delivers;
      trace := [];
      pendingTimeouts := 0;
    }

    /** The broadcast that setState(to) performs when the current state is `from`. */
    ghost function Enter(from: State, to: State, cs: seq<ClientId>): Fanout
    {
      if from == to then Fanout(cs, []) else Announce(delivers, cs, StateChanged(Ordinal(to)))
    }

    /** sendMessage(Messenger, Message): one delivery attempt, reported as a boolean. */
    method Deliver(client: ClientId, msg: Message) returns (success: bool)
      modifies this`trace
      ensures success == delivers(client)
      ensures trace == old(trace) + [Send(client, msg, success)]
    {
      success := delivers(client);
      trace := trace + [Send(client, msg, success)];
    }

    /**
     * sendMessage(Message): walk the list from the last index down, and remove
     * (the first occurrence of) every client whose delivery fails.
     */
    method SendMessage(msg: Message)
      modifies this`clients, this`trace
      ensures clients == Announce(delivers, old(clients), msg).kept
      ensures trace == old(trace) + Announce(delivers, old(clients), msg).sent
    {
      ghost var all, start := clients, trace;
      ghost var tried: seq<ClientId> := [];
      var i := |clients| - 1;
      assert clients[..i + 1] == all && clients[i + 1..] == [];
      while i >= 0
        invariant -1 <= i < |clients|
        invariant Sweep(delivers, all).kept == Sweep(delivers, clients[..i + 1]).kept + clients[i + 1..]
        invariant Sweep(delivers, all).tried == tried + Sweep(delivers, clients[..i + 1]).tried
        invariant |trace| == |start| + |tried| && trace[..|start|] == start
        invariant forall k :: 0 <= k < |tried| ==> trace[|start| + k] == Send(tried[k], msg, delivers(tried[k]))
        decreases i
      {
        var c := clients[i];
        StepKeepsInvariant(delivers, all, clients, i, tried);
        ghost var next := Step(delivers, clients, i);
        ghost var cs, log := clients, trace;
        var ok := Deliver(c, msg);
        assert clients == cs && trace == log + [Send(c, msg, ok)];
        if !ok {
          clients := RemoveFirst(clients, c);
        }
        assert clients == next;
        tried := tried + [c];
        i := i - 1;
      }
      assert i + 1 == 0;
      ghost var none := Sweep(delivers, clients[..0]);
      assert clients[..0] == [] && clients[0..] == clients;
      assert none == Outcome([], []);
      assert Sweep(delivers, all).kept == [] + clients == clients;
      assert Sweep(delivers, all).tried == tried + [] == tried;
      assert trace == start + trace[|start|..];
      DeliveriesByIndex(delivers, tried, msg, trace[|start|..]);
    }

    /** getStateMessage(): a STATE_CHANGED message from which a client decodes the current state. */
    function StateMessage(): (m: Message)
      reads this
      ensures m.StateChanged? && StateOf(m.arg1) == Some(state)
    {
      OrdinalRoundTrip(state);
      StateChanged(Ordinal(state))
    }

    /**
     * setState(s): a no-op when already in `s`; otherwise switch and broadcast STATE_CHANGED once.
     * Every caller passes SCANNING, BLUETOOTH_OFF, IDLE or CONNECTED, so `Valid()` is kept.
     */
    method SetState(s: State)
      requires Valid() && s != Connecting && s != Disconnecting
      modifies this`state, this`clients, this`trace
      ensures Valid()
      ensures state == s
      ensures old(state) == s ==> clients == old(clients) && trace == old(trace)
      ensures old(state) != s ==>
        var f := Announce(delivers, old(clients), StateChanged(Ordinal(s)));
        clients == f.kept && trace == old(trace) + f.sent
      ensures clients == Enter(old(state), s, old(clients)).kept
      ensures trace == old(trace) + Enter(old(state), s, old(clients)).sent
    {
      if state != s {
        state := s;
        var msg := StateMessage();
        SendMessage(msg);
      }
    }

    /** What startScan() leaves behind, given the state before it. */
    twostate predicate ScanStarted()
      reads this
    {
      var f1 := Enter(old(state), Scanning, old(clients));
      && devices == map[]
      && (radioAvailable ==>
            && state == Scanning && clients == f1.kept
            && trace == old(trace) + f1.sent + [PostTimeout, StartLeScan]
            && pendingTimeouts == old(pendingTimeouts) + 1)
      && (!radioAvailable ==>
            var f2 := Announce(delivers, f1.kept, StateChanged(Ordinal(BluetoothOff)));
            && state == BluetoothOff && clients == f2.kept
            && trace == old(trace) + f1.sent + f2.sent
            && pendingTimeouts == old(pendingTimeouts))
    }

    /**
     * startScan(): clear the registry and pass through SCANNING; with no usable
     * radio go to BLUETOOTH_OFF, otherwise arm one timeout and start the scan.
     */
    method StartScan()
      requires Valid()
      modifies this`state, this`clients, this`devices, this`trace, this`pendingTimeouts
      ensures Valid() && ScanStarted()
    {
      devices := map[];
      SetState(Scanning);
      if !radioAvailable {
        SetState(BluetoothOff);
      } else {
        pendingTimeouts := pendingTimeouts + 1;
        trace := trace + [PostTimeout];
        trace := trace + [StartLeScan];
      }
    }

    /** The Runnable posted by startScan(), run when the scan period has elapsed. */
    method OnTimeout()
      requires Valid() && pendingTimeouts > 0
      modifies this`state, this`clients, this`trace, this`pendingTimeouts
      ensures Valid() && pendingTimeouts == old(pendingTimeouts) - 1
      ensures old(state) == Scanning ==>
        var f := Announce(delivers, old(clients), StateChanged(Ordinal(Idle)));
        state == Idle && clients == f.kept && trace == old(trace) + [StopLeScan] + f.sent
      ensures old(state) != Scanning ==>
        state == old(state) && clients == old(clients) && trace == old(trace)
    {
      pendingTimeouts := pendingTimeouts - 1;
      if state == Scanning {
        trace := trace + [StopLeScan];
        SetState(Idle);
      }
    }

    /**
     * onLeScan(d): register a new SensorTag and broadcast DEVICE_FOUND with
     * every known address; any other sighting changes nothing.
     */
    method OnLeScan(d: Option<Device>) returns (ghost listing: seq<string>)
      requires Valid()
      modifies this`devices, this`clients, this`trace
      ensures Valid() && devices == AfterSighting(old(devices), d)
      ensures !Admits(old(devices), d) ==> clients == old(clients) && trace == old(trace)
      ensures Admits(old(devices), d) ==> KeyListing(listing, devices)
      ensures Admits(old(devices), d) ==>
        clients == Announce(delivers, old(clients), DeviceFound(listing)).kept
      ensures Admits(old(devices), d) ==>
        trace == old(trace) + Announce(delivers, old(clients), DeviceFound(listing)).sent
    {
      listing := [];
      if Admits(devices, d) {
        devices := devices[d.value.address := d.value];
        var addresses := KeyArray(devices);
        SendMessage(DeviceFound(addresses));
        listing := addresses;
      }
    }

    /** connect(mac): open a GATT connection to a known device; an unknown address is ignored. */
    method Connect(mac: string)
      requires Valid()
      modifies this`gatt
      ensures Valid()
      ensures mac !in devices ==> gatt == old(gatt)
      ensures mac in devices ==> gatt == Some(Gatt(mac))
    {
      if mac in devices {
        var device := devices[mac];
        gatt := Some(Gatt(device.address));
      }
    }

    /**
     * mGattCallback.onConnectionStateChange: link up means CONNECTED followed by
     * a discoverServices request on the reporting handle; any other value means IDLE.
     */
    method OnConnectionStateChange(g: Gatt, status: int, newState: int)
      requires Valid()
      modifies this`state, this`clients, this`trace
      ensures Valid()
      ensures newState == STATE_CONNECTED ==>
        var f := Enter(old(state), Connected, old(clients));
        state == Connected && clients == f.kept && trace == old(trace) + f.sent + [DiscoverServices(g)]
      ensures newState != STATE_CONNECTED ==>
        var f := Enter(old(state), Idle, old(clients));
        state == Idle && clients == f.kept && trace == old(trace) + f.sent
    {
      if newState == STATE_CONNECTED {
        SetState(Connected);
        trace := trace + [DiscoverServices(g)];
      } else {
        SetState(Idle);
      }
    }

    /** Nothing but the client list changed. */
    twostate predicate OnlyClientsMoved()
      reads this
    {
      state == old(state) && devices == old(devices) && gatt == old(gatt)
      && pendingTimeouts == old(pendingTimeouts)
    }

    /** IncomingHandler.handleMessage: dispatch on the message code. */
    method HandleMessage(m: Request)
      requires Valid()
      modifies this`state, this`clients, this`devices, this`gatt, this`trace, this`pendingTimeouts
      ensures Valid()
      ensures state != old(state) ==> m.what == MSG_START_SCAN && state in {Scanning, BluetoothOff}
      ensures m.what == MSG_REGISTER ==>
        clients == old(clients) + [m.replyTo] && trace == old(trace) && OnlyClientsMoved()
      ensures m.what == MSG_UNREGISTER ==>
        && clients == RemoveFirst(old(clients), m.replyTo)
        && trace == old(trace) + DisconnectRequest(old(state), old(gatt))
        && OnlyClientsMoved()
      ensures m.what == MSG_START_SCAN ==> ScanStarted() && gatt == old(gatt)
      ensures m.what == MSG_DEVICE_CONNECT ==>
        && gatt == (if m.obj in old(devices) then Some(Gatt(m.obj)) else old(gatt))
        && state == old(state) && clients == old(clients) && devices == old(devices)
        && trace == old(trace) && pendingTimeouts == old(pendingTimeouts)
      ensures m.what == MSG_DEVICE_DISCONNECT ==>
        && clients == old(clients)
        && trace == old(trace) + DisconnectRequest(old(state), old(gatt))
        && OnlyClientsMoved()
      ensures m.what !in {MSG_REGISTER, MSG_UNREGISTER, MSG_START_SCAN, MSG_DEVICE_CONNECT, MSG_DEVICE_DISCONNECT} ==>
        clients == old(clients) && trace == old(trace) && OnlyClientsMoved()
    {
      if m.what == MSG_REGISTER {
        clients := clients + [m.replyTo];
      } else if m.what == MSG_UNREGISTER {
        clients := RemoveFirst(clients, m.replyTo);
        if state == Connected && gatt.Some? {
          trace := trace + [Disconnect(gatt.value)];
        }
      } else if m.what == MSG_START_SCAN {
        StartScan();
      } else if m.what == MSG_DEVICE_CONNECT {
        Connect(m.obj);
      } else if m.what == MSG_DEVICE_DISCONNECT {
        if state == Connected && gatt.Some? {
          trace := trace + [Disconnect(gatt.value)];
        }
      }
    }
  }
}
