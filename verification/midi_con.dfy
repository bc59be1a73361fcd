/** The connection manager of `src/midi_con.rs`: a client flag and two
    index-keyed port tables. A source or destination index that does not
    resolve makes the Rust code abort (`unwrap`), so here it is a precondition.
 */
module BaseMidiCon {
  import opened Driver

  class MidiCon {
    /** `opt_client.is_some()`. */
    var hasClient: bool
    var inPorts: map<nat, InputPort>
    var outPorts: map<nat, PortToken>

    /** `ArcMutexMidiCon::new`: empty tables, then the client is installed. */
    constructor ()
      ensures hasClient
      ensures inPorts == map[] && outPorts == map[]
    {
      hasClient := false;
      inPorts := map[];
      outPorts := map[];
      hasClient := true;
    }

    /** The driver's topology notification: only logged. */
    method UpdateConnections()
      ensures unchanged(this)
    {
    }

    /** Opens an input port bound to source `sourceIndex` and records it;
        `port` is the handle the driver returns. Without a client, nothing. */
    method ConnectSource(sourceIndex: nat, receiver: ReceiverId, port: PortToken, dir: Directory)
      requires hasClient ==> Named(dir.sources, sourceIndex)
      modifies this
      ensures hasClient == old(hasClient) && outPorts == old(outPorts)
      ensures hasClient ==> sourceIndex in inPorts && inPorts[sourceIndex] == InputPort(port, receiver)
      ensures hasClient ==> inPorts.Keys == old(inPorts.Keys) + {sourceIndex}
      ensures forall k :: k != sourceIndex && k in old(inPorts) ==> k in inPorts && inPorts[k] == old(inPorts[k])
      ensures !hasClient ==> inPorts == old(inPorts)
    {
      if hasClient {
        inPorts := inPorts[sourceIndex := InputPort(port, receiver)];
      }
    }

    /** The display names of all sources, in driver order. Reads no manager state. */
    function ListSources(dir: Directory): (names: seq<string>)
      ensures |names| == |dir.sources|
      ensures forall k :: 0 <= k < |names| ==> names[k] == DisplayName(dir.sources[k])
    {
      DisplayNames(dir.sources)
    }

    /** The display names of all destinations, in driver order. */
    function ListDestinations(dir: Directory): (names: seq<string>)
      ensures |names| == |dir.destinations|
      ensures forall k :: 0 <= k < |names| ==> names[k] == DisplayName(dir.destinations[k])
    {
      DisplayNames(dir.destinations)
    }

    /** Opens an output port for destination `destinationIndex` and records it.
        The destination's display name is only read inside `trace!`, which
        does not evaluate it unless trace logging is on, so an unnamed
        destination connects normally. */
    method ConnectDestination(destinationIndex: nat, port: PortToken, dir: Directory)
      requires hasClient ==> Live(dir.destinations, destinationIndex)
      modifies this
      ensures hasClient == old(hasClient) && inPorts == old(inPorts)
      ensures hasClient ==> destinationIndex in outPorts && outPorts[destinationIndex] == port
      ensures hasClient ==> outPorts.Keys == old(outPorts.Keys) + {destinationIndex}
      ensures forall k :: k != destinationIndex && k in old(outPorts) ==> k in outPorts && outPorts[k] == old(outPorts[k])
      ensures !hasClient ==> outPorts == old(outPorts)
    {
      if hasClient {
        outPorts := outPorts[destinationIndex := port];
      }
    }

    /** Hands `data`, unchanged, as one packet at timestamp 0 to the output port
        registered for `destinationIndex`; `None` when there is none. The
        destination is resolved again at send time and must still exist. */
    method Send(destinationIndex: nat, data: seq<u8>, dir: Directory) returns (handedOff: Option<Delivery>)
      requires destinationIndex in outPorts ==> Live(dir.destinations, destinationIndex)
      ensures handedOff.None? <==> destinationIndex !in outPorts
      ensures handedOff.Some? ==> handedOff.value.packet.data == data && handedOff.value.packet.timestamp == 0
      ensures handedOff.Some? ==> handedOff.value.destination == destinationIndex
      ensures handedOff.Some? ==> handedOff.value.port == outPorts[destinationIndex]
    {
      if destinationIndex in outPorts {
        handedOff := Some(Delivery(outPorts[destinationIndex], destinationIndex, Packet(0, data)));
      } else {
        handedOff := None;
      }
    }

    /** Closes and forgets the input port of `sourceIndex`, if any. */
    method DisconnectSource(sourceIndex: nat)
      modifies this
      ensures hasClient == old(hasClient) && outPorts == old(outPorts)
      ensures sourceIndex !in inPorts
      ensures inPorts.Keys == old(inPorts.Keys) - {sourceIndex}
      ensures forall k :: k in inPorts ==> inPorts[k] == old(inPorts[k])
    {
      if sourceIndex in inPorts {
        inPorts := inPorts - {sourceIndex};
      }
    }
  }
}
