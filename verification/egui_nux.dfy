/** The channel switcher of `examples/egui_nux.rs`: a mask of enabled program
    channels, a selected channel, and the `<<<` / `>>>` buttons that move the
    selection cyclically to the nearest enabled channel, each selection being
    announced as a program change to destination 0.
 */
module EguiNux {
  import opened Driver
  import BaseMidiCon

  /** Number of channels (`[bool; 7]`). */
  const ChannelCount: nat := 7

  // Cyclic positions on a ring of `n` channels.

  /** The channel `k` places after `from`. */
  function Ahead(n: nat, from: nat, k: nat): (c: nat)
    requires from < n && k <= n
    ensures c < n
  {
    if from + k < n then from + k else from + k - n
  }

  /** The channel `k` places before `from`. */
  function Behind(n: nat, from: nat, k: nat): (c: nat)
    requires from < n && k <= n
    ensures c < n
  {
    if k <= from then from - k else from + n - k
  }

  /** How many places forward `to` lies from `from`, in `[0, n)`. */
  function Dist(n: nat, from: nat, to: nat): (d: nat)
    requires from < n && to < n
    ensures d < n
  {
    if from <= to then to - from else to + n - from
  }

  /** `(c + 1) % n` is the channel after `c`. */
  lemma SuccMod(n: nat, c: nat)
    requires c < n
    ensures (c + 1) % n == Ahead(n, c, 1)
  {
  }

  /** `(c + n - 1) % n` is the channel before `c`. */
  lemma PredMod(n: nat, c: nat)
    requires c < n
    ensures (c + n - 1) % n == Behind(n, c, 1)
  {
  }

  // The forward search of the `>>>` button.

  /** The number of places, counting from `k`, to the first enabled channel
      after `from`; `|mask|` (back at `from`) when there is none. */
  function ForwardGap(mask: seq<bool>, from: nat, k: nat): (d: nat)
    requires from < |mask| && 1 <= k <= |mask|
    ensures k <= d <= |mask|
    ensures d == |mask| || mask[Ahead(|mask|, from, d)]
    ensures forall j :: k <= j < d ==> !mask[Ahead(|mask|, from, j)]
    decreases |mask| - k
  {
    if k == |mask| || mask[Ahead(|mask|, from, k)] then k else ForwardGap(mask, from, k + 1)
  }

  /** What `>>>` should select: the first enabled channel after `from` in
      cyclic order, every channel strictly between being disabled; or `from`
      itself when no other channel is enabled. */
  ghost predicate IsNextForward(mask: seq<bool>, from: nat, r: nat)
    requires from < |mask|
  {
    && r < |mask|
    && (r == from || mask[r])
    && (r != from ==> forall c :: 0 <= c < |mask| && 0 < Dist(|mask|, from, c) < Dist(|mask|, from, r) ==> !mask[c])
    && (r == from ==> forall c :: 0 <= c < |mask| && c != from ==> !mask[c])
  }

  /** The selection after `>>>`. */
  function NextForward(mask: seq<bool>, from: nat): (r: nat)
    requires from < |mask|
    ensures IsNextForward(mask, from, r)
  {
    ForwardGapMeets(mask, from);
    Ahead(|mask|, from, ForwardGap(mask, from, 1))
  }

  /** The channel reached through `ForwardGap` meets `IsNextForward`. */
  lemma ForwardGapMeets(mask: seq<bool>, from: nat)
    requires from < |mask|
    ensures IsNextForward(mask, from, Ahead(|mask|, from, ForwardGap(mask, from, 1)))
  {
    var n := |mask|;
    var d := ForwardGap(mask, from, 1);
    forall c | 0 <= c < n && c != from && Dist(n, from, c) < d
      ensures !mask[c]
    {
      assert c == Ahead(n, from, Dist(n, from, c));
    }
  }

  /** At most one channel meets `IsNextForward`, so it defines the step. */
  lemma ForwardStepCharacterised(mask: seq<bool>, from: nat, r: nat)
    requires from < |mask|
    ensures IsNextForward(mask, from, r) <==> r == NextForward(mask, from)
  {
  }

  // The backward search of the `<<<` button.

  /** The number of places, counting from `k`, back to the first enabled
      channel before `from`; `|mask|` (back at `from`) when there is none. */
  function BackwardGap(mask: seq<bool>, from: nat, k: nat): (d: nat)
    requires from < |mask| && 1 <= k <= |mask|
    ensures k <= d <= |mask|
    ensures d == |mask| || mask[Behind(|mask|, from, d)]
    ensures forall j :: k <= j < d ==> !mask[Behind(|mask|, from, j)]
    decreases |mask| - k
  {
    if k == |mask| || mask[Behind(|mask|, from, k)] then k else BackwardGap(mask, from, k + 1)
  }

  /** What `<<<` should select: the first enabled channel before `from` in
      cyclic order, every channel strictly between being disabled; or `from`
      itself when no other channel is enabled. */
  ghost predicate IsNextBackward(mask: seq<bool>, from: nat, r: nat)
    requires from < |mask|
  {
    && r < |mask|
    && (r == from || mask[r])
    && (r != from ==> forall c :: 0 <= c < |mask| && 0 < Dist(|mask|, c, from) < Dist(|mask|, r, from) ==> !mask[c])
    && (r == from ==> forall c :: 0 <= c < |mask| && c != from ==> !mask[c])
  }

  /** The selection after `<<<`. */
  function NextBackward(mask: seq<bool>, from: nat): (r: nat)
    requires from < |mask|
    ensures IsNextBackward(mask, from, r)
  {
    BackwardGapMeets(mask, from);
    Behind(|mask|, from, BackwardGap(mask, from, 1))
  }

  /** The channel reached through `BackwardGap` meets `IsNextBackward`. */
  lemma BackwardGapMeets(mask: seq<bool>, from: nat)
    requires from < |mask|
    ensures IsNextBackward(mask, from, Behind(|mask|, from, BackwardGap(mask, from, 1)))
  {
    var n := |mask|;
    var d := BackwardGap(mask, from, 1);
    forall c | 0 <= c < n && c != from && Dist(n, c, from) < d
      ensures !mask[c]
    {
      assert c == Behind(n, from, Dist(n, c, from));
    }
  }

  /** At most one channel meets `IsNextBackward`, so it defines the step. */
  lemma BackwardStepCharacterised(mask: seq<bool>, from: nat, r: nat)
    requires from < |mask|
    ensures IsNextBackward(mask, from, r) <==> r == NextBackward(mask, from)
  {
  }

  // Properties of the two steps.

  /** With no enabled channel other than `from`, both buttons keep the
      selection, whether or not `from` itself is enabled. */
  lemma StaysWhenNoOtherEnabled(mask: seq<bool>, from: nat)
    requires from < |mask|
    requires forall c :: 0 <= c < |mask| && c != from ==> !mask[c]
    ensures NextForward(mask, from) == from
    ensures NextBackward(mask, from) == from
  {
  }

  /** `>>>` then `<<<` returns to an enabled channel. */
  lemma ForwardThenBackward(mask: seq<bool>, from: nat)
    requires from < |mask| && mask[from]
    ensures NextBackward(mask, NextForward(mask, from)) == from
  {
  }

  /** `<<<` then `>>>` returns to an enabled channel. */
  lemma BackwardThenForward(mask: seq<bool>, from: nat)
    requires from < |mask| && mask[from]
    ensures NextForward(mask, NextBackward(mask, from)) == from
  {
  }

  /** The two-byte program change `[0xC0, program as u8]`. */
  function ProgramChange(program: nat): seq<u8>
  {
    [0xC0, (program % 256) as u8]
  }

  class App {
    var midiCon: BaseMidiCon.MidiCon
    const channels: array<bool>
    var selectedChannel: nat
    var showSettings: bool
    var sources: seq<string>

    /** Seven channels, a selection among them, and the output port of
        destination 0 opened at start-up (no operation closes it). */
    ghost predicate Valid()
      reads this, midiCon
    {
      channels.Length == ChannelCount && selectedChannel < channels.Length && 0 in midiCon.outPorts
    }

    /** `App::default`: a new manager, the source names, destination 0
        connected, every channel enabled and channel 0 selected. Destination 0
        must exist (`unwrap` in `connect_destination`). */
    constructor Default(dir: Directory, outPort: PortToken)
      requires Live(dir.destinations, 0)
      ensures Valid() && fresh(midiCon) && fresh(channels)
      ensures forall i :: 0 <= i < channels.Length ==> channels[i]
      ensures selectedChannel == 0 && !showSettings
      ensures sources == DisplayNames(dir.sources)
      ensures midiCon.hasClient && midiCon.inPorts == map[] && midiCon.outPorts == map[0 := outPort]
    {
      var con := new BaseMidiCon.MidiCon();
      var names := con.ListSources(dir);
      con.ConnectDestination(0, outPort, dir);
      midiCon := con;
      channels := new bool[ChannelCount](_ => true);
      selectedChannel := 0;
      showSettings := false;
      sources := names;
    }

    /** Sends one program change for the selected channel to destination 0. */
    method SendProgramChange(dir: Directory) returns (sent: Option<Delivery>)
      requires Valid() && Live(dir.destinations, 0)
      ensures sent == Some(Delivery(midiCon.outPorts[0], 0, Packet(0, [0xC0, selectedChannel as u8])))
    {
      sent := midiCon.Send(0, ProgramChange(selectedChannel), dir);
    }

    /** The search loop of `>>>`. */
    method SearchForward() returns (next: nat)
      requires Valid()
      ensures next == NextForward(channels[..], selectedChannel)
    {
      var n := channels.Length;
      ghost var mask := channels[..];
      ghost var k: nat := 0;
      next := selectedChannel;
      while true
        invariant k < n
        invariant next == Ahead(n, selectedChannel, k)
        invariant ForwardGap(mask, selectedChannel, k + 1) == ForwardGap(mask, selectedChannel, 1)
        decreases n - k
      {
        SuccMod(n, next);
        next := (next + 1) % n;
        k := k + 1;
        if next == selectedChannel || channels[next] {
          break;
        }
      }
    }

    /** The search loop of `<<<`. */
    method SearchBackward() returns (next: nat)
      requires Valid()
      ensures next == NextBackward(channels[..], selectedChannel)
    {
      var n := channels.Length;
      ghost var mask := channels[..];
      ghost var k: nat := 0;
      next := selectedChannel;
      while true
        invariant k < n
        invariant next == Behind(n, selectedChannel, k)
        invariant BackwardGap(mask, selectedChannel, k + 1) == BackwardGap(mask, selectedChannel, 1)
        decreases n - k
      {
        PredMod(n, next);
        next := (next + n - 1) % n;
        k := k + 1;
        if next == selectedChannel || channels[next] {
          break;
        }
      }
    }

    /** The `>>>` button: select the next enabled channel and announce it. */
    method StepForward(dir: Directory) returns (sent: Option<Delivery>)
      requires Valid() && Live(dir.destinations, 0)
      modifies this
      ensures Valid()
      ensures selectedChannel == NextForward(channels[..], old(selectedChannel))
      ensures midiCon == old(midiCon) && showSettings == old(showSettings) && sources == old(sources)
      ensures sent == Some(Delivery(midiCon.outPorts[0], 0, Packet(0, [0xC0, selectedChannel as u8])))
    {
      var next := SearchForward();
      selectedChannel := next;
      sent := SendProgramChange(dir);
    }

    /** The `<<<` button: select the previous enabled channel and announce it. */
    method StepBackward(dir: Directory) returns (sent: Option<Delivery>)
      requires Valid() && Live(dir.destinations, 0)
      modifies this
      ensures Valid()
      ensures selectedChannel == NextBackward(channels[..], old(selectedChannel))
      ensures midiCon == old(midiCon) && showSettings == old(showSettings) && sources == old(sources)
      ensures sent == Some(Delivery(midiCon.outPorts[0], 0, Packet(0, [0xC0, selectedChannel as u8])))
    {
      var next := SearchBackward();
      selectedChannel := next;
      sent := SendProgramChange(dir);
    }

    /** A click on the radio button of channel `i`: selects it whatever the
        mask says, and announces it. */
    method SelectChannel(i: nat, dir: Directory) returns (sent: Option<Delivery>)
      requires Valid() && i < channels.Length && Live(dir.destinations, 0)
      modifies this
      ensures Valid()
      ensures selectedChannel == i
      ensures midiCon == old(midiCon) && showSettings == old(showSettings) && sources == old(sources)
      ensures sent == Some(Delivery(midiCon.outPorts[0], 0, Packet(0, [0xC0, i as u8])))
    {
      selectedChannel := i;
      sent := SendProgramChange(dir);
    }

    /** A click on the checkbox of channel `i`: flips that channel only. */
    method ToggleChannel(i: nat)
      requires Valid() && i < channels.Length
      modifies channels
      ensures Valid()
      ensures channels[..] == old(channels[..])[i := !old(channels[i])]
    {
      channels[i] := !channels[i];
    }
  }
}
