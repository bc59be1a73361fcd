/** The connection manager of `src/macos/midi_con.rs`: a client flag, one
    optional notification listener and two index-keyed port tables whose
    entries carry a `connected` flag. Unlike the base variant, an index that
    does not resolve is skipped rather than aborting, and listings report the
    table membership of every index.
 */
module MacMidiCon {
  import opened Driver

  /** One row of `list_sources` / `list_destinations`. */
  datatype EndpointInfo = EndpointInfo(index: nat, connected: bool, name: string)

  /** `enumerate().map(..)` from position `first`: each endpoint with its
      index, its membership in `connected`, and its display name. */
  function Enumerate(endpoints: seq<Option<string>>, connected: set<nat>, first: nat): (rows: seq<EndpointInfo>)
    ensures |rows| == |endpoints|
    ensures forall k :: 0 <= k < |endpoints| ==>
              rows[k].index == first + k &&
              (rows[k].connected <==> first + k in connected) &&
              rows[k].name == DisplayName(endpoints[k])
    decreases |endpoints|
  {
    if endpoints == [] then []
    else [EndpointInfo(first, first in connected, DisplayName(endpoints[0]))]
         + Enumerate(endpoints[1..], connected, first + 1)
  }

  /** The listing of a whole enumeration against the set of connected indices. */
  function Listing(endpoints: seq<Option<string>>, connected: set<nat>): seq<EndpointInfo>
  {
    Enumerate(endpoints, connected, 0)
  }

  /** Connecting index `i` turns its row (if it is listed) to connected and
      leaves every other row as it was. */
  lemma ListingAfterConnect(endpoints: seq<Option<string>>, connected: set<nat>, i: nat)
    ensures |Listing(endpoints, connected + {i})| == |Listing(endpoints, connected)|
    ensures forall k :: 0 <= k < |endpoints| ==>
              Listing(endpoints, connected + {i})[k] ==
              (if k == i then Listing(endpoints, connected)[k].(connected := true)
               else Listing(endpoints, connected)[k])
  {
  }

  /** Disconnecting index `i` turns its row to not connected and leaves every
      other row as it was. */
  lemma ListingAfterDisconnect(endpoints: seq<Option<string>>, connected: set<nat>, i: nat)
    ensures |Listing(endpoints, connected - {i})| == |Listing(endpoints, connected)|
    ensures forall k :: 0 <= k < |endpoints| ==>
              Listing(endpoints, connected - {i})[k] ==
              (if k == i then Listing(endpoints, connected)[k].(connected := false)
               else Listing(endpoints, connected)[k])
  {
  }

  /** The name column of a listing is the base variant's name-only listing. */
  lemma ListingNames(endpoints: seq<Option<string>>, connected: set<nat>, first: nat)
    ensures |Enumerate(endpoints, connected, first)| == |DisplayNames(endpoints)|
    ensures forall k :: 0 <= k < |endpoints| ==>
              Enumerate(endpoints, connected, first)[k].name == DisplayNames(endpoints)[k]
  {
  }

  class MidiCon {
    /** `opt_client.is_some()`. */
    var hasClient: bool
    /** `opt_notification_callback`. */
    var listener: Option<ListenerId>
    var inPorts: map<nat, (InputPort, bool)>
    var outPorts: map<nat, (PortToken, bool)>

    /** The source stores every table entry as `(port, true)` and never
        writes or reads the flag otherwise; this records that the flag is
        constantly `true`. */
    ghost predicate Valid()
      reads this
    {
      && (forall k :: k in inPorts ==> inPorts[k].1)
      && (forall k :: k in outPorts ==> outPorts[k].1)
    }

    /** `ArcMutexMidiCon::new`: empty tables, no listener, then the client is
        installed. */
    constructor ()
      ensures Valid()
      ensures hasClient && listener == None
      ensures inPorts == map[] && outPorts == map[]
    {
      hasClient := false;
      listener := None;
      inPorts := map[];
      outPorts := map[];
      hasClient := true;
    }

    /** Installs `cb` as the single listener, replacing any previous one. */
    method SetNotificationCallback(cb: ListenerId)
      requires Valid()
      modifies this
      ensures Valid()
      ensures listener == Some(cb)
      ensures hasClient == old(hasClient) && inPorts == old(inPorts) && outPorts == old(outPorts)
    {
      listener := Some(cb);
    }

    /** The driver's topology notification: relays one notification to the
        current listener, if there is one. Returns the listener invoked. */
    method UpdateConnections() returns (invoked: Option<ListenerId>)
      ensures invoked.Some? <==> listener.Some?
      ensures listener.Some? ==> invoked == Some(listener.value)
    {
      match listener
      case Some(cb) => invoked := Some(cb);
      case None => invoked := None;
    }

    /** Opens an input port bound to source `sourceIndex` and records it with
        flag `true`; `port` is the handle the driver returns. A no-op without
        a client or when the index does not resolve. */
    method ConnectSource(sourceIndex: nat, receiver: ReceiverId, port: PortToken, dir: Directory)
      requires Valid()
      requires hasClient && Live(dir.sources, sourceIndex) ==> Named(dir.sources, sourceIndex)
      modifies this
      ensures Valid()
      ensures hasClient == old(hasClient) && listener == old(listener) && outPorts == old(outPorts)
      ensures hasClient && Live(dir.sources, sourceIndex) ==>
                inPorts == old(inPorts)[sourceIndex := (InputPort(port, receiver), true)]
      ensures !(hasClient && Live(dir.sources, sourceIndex)) ==> inPorts == old(inPorts)
    {
      if hasClient {
        if sourceIndex < |dir.sources| {
          inPorts := inPorts[sourceIndex := (InputPort(port, receiver), true)];
        }
      }
    }

    /** One row per source in driver order: its index, whether `inPorts`
        holds it, and its display name. */
    function ListSources(dir: Directory): (rows: seq<EndpointInfo>)
      reads this
      ensures |rows| == |dir.sources|
      ensures forall k :: 0 <= k < |rows| ==>
                rows[k] == EndpointInfo(k, k in inPorts, DisplayName(dir.sources[k]))
    {
      Listing(dir.sources, inPorts.Keys)
    }

    /** One row per destination in driver order, joined against `outPorts`. */
    function ListDestinations(dir: Directory): (rows: seq<EndpointInfo>)
      reads this
      ensures |rows| == |dir.destinations|
      ensures forall k :: 0 <= k < |rows| ==>
                rows[k] == EndpointInfo(k, k in outPorts, DisplayName(dir.destinations[k]))
    {
      Listing(dir.destinations, outPorts.Keys)
    }

    /** Opens an output port for destination `destinationIndex` and records it
        with flag `true`. A no-op without a client or when the index does not
        resolve. The display name is only read inside `trace!`, which does not
        evaluate it unless trace logging is on. */
    method ConnectDestination(destinationIndex: nat, port: PortToken, dir: Directory)
      requires Valid()
      modifies this
      ensures Valid()
      ensures hasClient == old(hasClient) && listener == old(listener) && inPorts == old(inPorts)
      ensures hasClient && Live(dir.destinations, destinationIndex) ==>
                outPorts == old(outPorts)[destinationIndex := (port, true)]
      ensures !(hasClient && Live(dir.destinations, destinationIndex)) ==> outPorts == old(outPorts)
    {
      if hasClient {
        if destinationIndex < |dir.destinations| {
          outPorts := outPorts[destinationIndex := (port, true)];
        }
      }
    }

    /** Hands `data`, unchanged, as one packet at timestamp 0 through the
        output port registered for `destinationIndex`; `None` when there is
        none. The destination is resolved again and must still exist. */
    method Send(destinationIndex: nat, data: seq<u8>, dir: Directory) returns (handedOff: Option<Delivery>)
      requires destinationIndex in outPorts ==> Live(dir.destinations, destinationIndex)
      ensures handedOff.None? <==> destinationIndex !in outPorts
      ensures handedOff.Some? ==> handedOff.value.packet.data == data && handedOff.value.packet.timestamp == 0
      ensures handedOff.Some? ==> handedOff.value.destination == destinationIndex
      ensures handedOff.Some? ==> handedOff.value.port == outPorts[destinationIndex].0
    {
      if destinationIndex in outPorts {
        handedOff := Some(Delivery(outPorts[destinationIndex].0, destinationIndex, Packet(0, data)));
      } else {
        handedOff := None;
      }
    }

    /** Closes and forgets the input port of `sourceIndex`, if any. */
    method DisconnectSource(sourceIndex: nat)
      requires Valid()
      modifies this
      ensures Valid()
      ensures hasClient == old(hasClient) && listener == old(listener) && outPorts == old(outPorts)
      ensures inPorts == old(inPorts) - {sourceIndex}
    {
      if sourceIndex in inPorts {
        inPorts := inPorts - {sourceIndex};
      }
    }
  }

  /** Two registrations, then one notification: only the second listener
      observes it. */
  method ListenerReplacement(first: ListenerId, second: ListenerId) returns (invoked: Option<ListenerId>)
    ensures invoked == Some(second)
  {
    var con := new MidiCon();
    con.SetNotificationCallback(first);
    con.SetNotificationCallback(second);
    invoked := con.UpdateConnections();
  }

  /** The session of `examples/connect_late.rs`: connect sources 0 and 1,
      connect destination 0, send a program change, disconnect source 1.
      Afterwards only source 0 is listed as connected, and exactly the bytes
      given to `send` went to destination 0. */
  method ConnectLateSession(dir: Directory, in0: PortToken, in1: PortToken, out0: PortToken,
                            r0: ReceiverId, r1: ReceiverId)
    returns (sent: Option<Delivery>, sources: seq<EndpointInfo>)
    requires Named(dir.sources, 0) && Named(dir.sources, 1) && Live(dir.destinations, 0)
    ensures sent == Some(Delivery(out0, 0, Packet(0, [0xC0, 0x03])))
    ensures |sources| == |dir.sources|
    ensures sources[0] == EndpointInfo(0, true, dir.sources[0].value)
    ensures sources[1] == EndpointInfo(1, false, dir.sources[1].value)
    ensures forall k :: 2 <= k < |sources| ==> !sources[k].connected
  {
    var con := new MidiCon();
    con.ConnectSource(0, r0, in0, dir);
    con.ConnectSource(1, r1, in1, dir);
    con.ConnectDestination(0, out0, dir);
    sent := con.Send(0, [0xC0, 0x03], dir);
    con.DisconnectSource(1);
    sources := con.ListSources(dir);
  }

  /** Connecting source `i` makes its row read connected, disconnecting it
      makes it read not connected again; no other row changes. */
  method ConnectThenDisconnect(dir: Directory, i: nat, port: PortToken, receiver: ReceiverId)
    returns (before: seq<EndpointInfo>, connected: seq<EndpointInfo>, disconnected: seq<EndpointInfo>)
    requires Named(dir.sources, i)
    ensures |before| == |connected| == |disconnected| == |dir.sources|
    ensures !before[i].connected && connected[i].connected && !disconnected[i].connected
    ensures forall k :: 0 <= k < |before| && k != i ==> connected[k] == before[k] && disconnected[k] == before[k]
    ensures disconnected == before
  {
    var con := new MidiCon();
    before := con.ListSources(dir);
    con.ConnectSource(i, receiver, port, dir);
    connected := con.ListSources(dir);
    con.DisconnectSource(i);
    disconnected := con.ListSources(dir);
  }

  /** A directory with two sources, "IAC Driver Bus 1" and "Keyboard":
      connecting source 0 changes only its row of the listing. */
  method TwoSourceDirectory(port: PortToken, receiver: ReceiverId)
    returns (before: seq<EndpointInfo>, after: seq<EndpointInfo>)
    ensures before == [EndpointInfo(0, false, "IAC Driver Bus 1"), EndpointInfo(1, false, "Keyboard")]
    ensures after == [EndpointInfo(0, true, "IAC Driver Bus 1"), EndpointInfo(1, false, "Keyboard")]
  {
    var dir := Directory([Some("IAC Driver Bus 1"), Some("Keyboard")], []);
    var con := new MidiCon();
    before := con.ListSources(dir);
    con.ConnectSource(0, receiver, port, dir);
    after := con.ListSources(dir);
  }
}
