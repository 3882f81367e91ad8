/**
 * The values exchanged by BleService: its State enum, the message codes
 * clients send it, the messages it sends back, and the requests it issues
 * to the radio, recorded as effects in a log.
 */
module Protocol {
  import opened Wrappers

  /** A registered client (a reply Messenger); equal ids stand for equal Messengers. */
  type ClientId = nat

  /** BleService.State, in declaration order. */
  datatype State = Unknown | Idle | Scanning | BluetoothOff | Connecting | Connected | Disconnecting

  /** State.ordinal(): the integer placed in arg1 of a STATE_CHANGED message. */
  function Ordinal(s: State): (n: nat)
    ensures n < 7
  {
    match s
    case Unknown => 0
    case Idle => 1
    case Scanning => 2
    case BluetoothOff => 3
    case Connecting => 4
    case Connected => 5
    case Disconnecting => 6
  }

  /** What a client does with arg1: State.values()[n], or nothing when out of range. */
  function StateOf(n: int): (r: Option<State>)
    ensures r.Some? <==> 0 <= n < 7
    ensures r.Some? ==> Ordinal(r.value) == n
  {
    if n == 0 then Some(Unknown)
    else if n == 1 then Some(Idle)
    else if n == 2 then Some(Scanning)
    else if n == 3 then Some(BluetoothOff)
    else if n == 4 then Some(Connecting)
    else if n == 5 then Some(Connected)
    else if n == 6 then Some(Disconnecting)
    else None
  }

  /** The ordinal encoding loses nothing: decoding it gives the state back. */
  lemma OrdinalRoundTrip(s: State)
    ensures StateOf(Ordinal(s)) == Some(s)
  {
  }

  /** Distinct states are sent as distinct integers. */
  lemma OrdinalInjective(s: State, t: State)
    requires Ordinal(s) == Ordinal(t)
    ensures s == t
  {
    OrdinalRoundTrip(s);
    OrdinalRoundTrip(t);
  }

  // Message codes (Message.what) accepted from clients.
  const MSG_REGISTER: int := 1
  const MSG_UNREGISTER: int := 2
  const MSG_START_SCAN: int := 3
  const MSG_DEVICE_CONNECT: int := 6
  const MSG_DEVICE_DISCONNECT: int := 7

  /** BluetoothProfile.STATE_CONNECTED, the newState value meaning "link up". */
  const STATE_CONNECTED: int := 2

  /** The Message fields the handler reads: what, replyTo and obj (the MAC address). */
  datatype Request = Request(what: int, replyTo: ClientId, obj: string)

  /**
   * A message sent to clients: STATE_CHANGED (what 4) with the ordinal in
   * arg1, or DEVICE_FOUND (what 5) with the KEY_MAC_ADDRESSES string array.
   */
  datatype Message = StateChanged(arg1: int) | DeviceFound(addresses: seq<string>)

  /** A GATT connection handle, identified by the device it was opened to. */
  datatype Gatt = Gatt(address: string)

  /** An outgoing effect: a delivery attempt to a client, or a request to the radio. */
  datatype Effect =
    | Send(client: ClientId, msg: Message, delivered: bool)
    | PostTimeout                // Handler.postDelayed of the scan timeout
    | StartLeScan
    | StopLeScan
    | Disconnect(handle: Gatt)
    | DiscoverServices(handle: Gatt)
}
