/** The current-starved inverter: the outer devices are grouped by control
    bit, bit i driving `ctrl_groups[i]` devices. */
module InvStarved {
  import opened Outcomes
  import opened Numerals
  import opened Nets

  /** `<*g_0>pin<0>,<*g_1>pin<1>,...`, the gate connection of the outer devices. */
  function GateNets(groups: seq<nat>, pin: string, base: int): (ns: seq<Net>)
    ensures |ns| == |groups|
  {
    if groups == [] then [] else [Repeat(groups[0], Bit(pin, base))] + GateNets(groups[1..], pin, base + 1)
  }

  function GateConn(groups: seq<nat>, pin: string): seq<Net>
  {
    GateNets(groups, pin, 0)
  }

  /** The outer devices of one side. */
  datatype SidePlan =
    | Arrayed(inst: Net, gate: seq<Net>, busPin: PinEdit)
    | SingleDevice  // at most one bit: the template device is designed directly

  /** `design` for one side: the array of `sum(groups)` devices and its gate
      connection, and the control pin renamed to a bus, for more than one bit. */
  function Side(groups: seq<nat>, pin: string, inst: string): (r: SidePlan)
    ensures r.Arrayed? <==> |groups| > 1
  {
    var numBits := |groups|;
    var numDevices := Sum(groups);
    if numBits > 1 then
      Arrayed(Range(inst, numDevices - 1, 0), GateConn(groups, pin), Rename(pin, Render(Range(pin, numBits - 1, 0))))
    else SingleDevice
  }

  /** Both sides: PMOS gates on bpb, NMOS gates on bn. */
  function Design(ctrlGroupsP: seq<nat>, ctrlGroupsN: seq<nat>): (SidePlan, SidePlan)
  {
    (Side(ctrlGroupsP, "bpb", "XP_OUTER"), Side(ctrlGroupsN, "bn", "XN_OUTER"))
  }

  lemma {:induction false} GateNetsEntries(groups: seq<nat>, pin: string, base: int, i: int)
    requires 0 <= i < |groups|
    ensures GateNets(groups, pin, base)[i] == Repeat(groups[i], Bit(pin, base + i))
  {
    if i > 0 {
      GateNetsEntries(groups[1..], pin, base + 1, i - 1);
    }
  }

  /** Term i of the connection is `<*g_i>pin<i>`, as the comprehension of the source builds it. */
  lemma GateConnEntries(groups: seq<nat>, pin: string, i: int)
    requires 0 <= i < |groups|
    ensures GateConn(groups, pin)[i] == Repeat(groups[i], Bit(pin, i))
  {
    GateNetsEntries(groups, pin, 0, i);
  }

  lemma {:induction false} RepeatedCount(x: Signal, k: nat, y: Signal)
    ensures |Repeated([x], k)| == k
    ensures multiset(Repeated([x], k))[y] == if y == x then k else 0
    ensures forall j :: 0 <= j < k ==> Repeated([x], k)[j] == x
  {
    if k > 0 {
      RepeatedCount(x, k - 1, y);
    }
  }

  /** Bit i of the control bus drives exactly `groups[i]` devices, and no
      other net drives any. */
  lemma {:induction false} GateBitCounts(groups: seq<nat>, pin: string, base: int, s: Signal)
    ensures multiset(BitsOf(GateNets(groups, pin, base)))[s] ==
      if s.Indexed? && s.name == pin && base <= s.index < base + |groups| then groups[s.index - base] else 0
  {
    if groups != [] {
      var ns := GateNets(groups, pin, base);
      assert ns[0] == Repeat(groups[0], Bit(pin, base));
      assert ns[1..] == GateNets(groups[1..], pin, base + 1);
      assert Bits(Bit(pin, base)) == [Indexed(pin, base)];
      assert Bits(ns[0]) == Repeated([Indexed(pin, base)], groups[0]);
      assert BitsOf(ns) == Repeated([Indexed(pin, base)], groups[0]) + BitsOf(ns[1..]);
      RepeatedCount(Indexed(pin, base), groups[0], s);
      GateBitCounts(groups[1..], pin, base + 1, s);
      if s.Indexed? && s.name == pin && base + 1 <= s.index < base + |groups| {
        assert groups[1..][s.index - (base + 1)] == groups[s.index - base];
      }
    }
  }

  /** The connection holds one gate net per device: `sum(groups)` in all. */
  lemma {:induction false} GateWidth(groups: seq<nat>, pin: string, base: int)
    ensures Width(GateNets(groups, pin, base)) == Sum(groups)
  {
    if groups != [] {
      var ns := GateNets(groups, pin, base);
      assert ns[1..] == GateNets(groups[1..], pin, base + 1);
      assert Bits(Bit(pin, base)) == [Indexed(pin, base)];
      assert Bits(ns[0]) == Repeated([Indexed(pin, base)], groups[0]);
      assert BitsOf(ns) == Repeated([Indexed(pin, base)], groups[0]) + BitsOf(ns[1..]);
      RepeatedCount(Indexed(pin, base), groups[0], Indexed(pin, base));
      GateWidth(groups[1..], pin, base + 1);
    }
  }

  /** The gate connection is as wide as the device array. */
  lemma ArrayWidthsMatch(groups: seq<nat>, pin: string, inst: string)
    requires |groups| > 1 && Sum(groups) >= 1
    ensures |Bits(Side(groups, pin, inst).inst)| == Width(Side(groups, pin, inst).gate) == Sum(groups)
  {
    GateWidth(groups, pin, 0);
    RangeBits(inst, Sum(groups) - 1, 0);
  }

  /** The example of the parameter description: groups [1, 2, 3] give bit 0
      one device, bit 1 two and bit 2 three, in bit order. */
  lemma GroupsExample()
    ensures BitsOf(GateConn([1, 2, 3], "bpb")) ==
      [Indexed("bpb", 0), Indexed("bpb", 1), Indexed("bpb", 1), Indexed("bpb", 2), Indexed("bpb", 2), Indexed("bpb", 2)]
  {
    var ns := GateConn([1, 2, 3], "bpb");
    assert [1, 2, 3][1..] == [2, 3] && [2, 3][1..] == [3] && [3][1..] == [];
    assert ns == [Repeat(1, Bit("bpb", 0)), Repeat(2, Bit("bpb", 1)), Repeat(3, Bit("bpb", 2))];
    assert ns[1..] == [Repeat(2, Bit("bpb", 1)), Repeat(3, Bit("bpb", 2))];
    assert ns[1..][1..] == [Repeat(3, Bit("bpb", 2))];
    assert ns[1..][1..][1..] == [];
    var b0, b1, b2 := Indexed("bpb", 0), Indexed("bpb", 1), Indexed("bpb", 2);
    assert Bits(ns[0]) == [b0] by { assert Repeated([b0], 0) == []; }
    assert Bits(ns[1]) == [b1, b1] by { assert Repeated([b1], 1) == [b1]; }
    assert Bits(ns[2]) == [b2, b2, b2] by { assert Repeated([b2], 1) == [b2]; }
  }
}
