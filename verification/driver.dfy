/** The host MIDI driver (CoreMIDI) as the connection manager sees it.

    The driver is not modelled as code: each operation of the manager is given
    a snapshot of the driver's endpoint enumeration, and the handles the driver
    would return (ports, callbacks) are opaque tokens passed in by the caller.
    The bytes the manager hands to the driver for delivery are returned as a
    `Delivery` value instead of being written to a device.
 */
module Driver {

  datatype Option<T> = None | Some(value: T)

  /** A MIDI byte, as Rust's `u8`. */
  newtype u8 = x: int | 0 <= x < 256

  /** Opaque handle of an `InputPort` or `OutputPort` the driver opened. */
  type PortToken = nat

  /** Opaque identity of a per-source receive closure (never executed here). */
  type ReceiverId = nat

  /** Opaque identity of a notification listener closure. */
  type ListenerId = nat

  /** An opened input port together with the receive closure bound to it. */
  datatype InputPort = InputPort(token: PortToken, receiver: ReceiverId)

  /** One snapshot of the driver's enumeration. Index `i` of `sources`
      resolves (`Source::from_index(i)` is `Some`) exactly when `i < |sources|`;
      the element is the endpoint's display name, `None` when the driver
      cannot supply one. Destinations likewise. */
  datatype Directory = Directory(sources: seq<Option<string>>, destinations: seq<Option<string>>)

  /** `true` when `index` resolves to a live endpoint of `endpoints`. */
  predicate Live(endpoints: seq<Option<string>>, index: nat)
  {
    index < |endpoints|
  }

  /** `true` when `index` resolves and the endpoint has a display name, so that
      `display_name().unwrap()` does not abort. */
  predicate Named(endpoints: seq<Option<string>>, index: nat)
  {
    index < |endpoints| && endpoints[index].Some?
  }

  /** The placeholder used when the driver supplies no display name. */
  const Unknown: string := "Unknown"

  /** `display_name().unwrap_or_else(|| "Unknown".to_string())`. */
  function DisplayName(name: Option<string>): string
  {
    match name
    case Some(n) => n
    case None => Unknown
  }

  /** The display names of an enumeration, in driver order. */
  function DisplayNames(endpoints: seq<Option<string>>): (names: seq<string>)
    ensures |names| == |endpoints|
    ensures forall k :: 0 <= k < |endpoints| ==>
              names[k] == (if endpoints[k].Some? then endpoints[k].value else Unknown)
  {
    if endpoints == [] then [] else [DisplayName(endpoints[0])] + DisplayNames(endpoints[1..])
  }

  /** `PacketBuffer::new(timestamp, data)`: one packet carrying `data`. */
  datatype Packet = Packet(timestamp: nat, data: seq<u8>)

  /** What `OutputPort::send` hands to the driver: the port it goes through,
      the destination index it was resolved from, and the packet. */
  datatype Delivery = Delivery(port: PortToken, destination: nat, packet: Packet)
}
