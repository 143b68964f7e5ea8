/** A stack of NMOS devices in series: device 0 at the source S, the last
    device at the drain D, internal nodes m<0> .. m<stack-2> between them. */
module Nmos4Astack {
  import opened Outcomes
  import opened Numerals
  import opened Nets

  datatype DeviceConn = DeviceConn(g: Net, s: Net, d: Net, b: Net)

  /** The parameters one device is designed with. */
  datatype DeviceParams = DeviceParams(w: real, l: real, nf: int, intent: string)

  datatype StackPlan = StackPlan(
    names: seq<Net>,              // empty for a single device, which is not arrayed
    conns: seq<DeviceConn>,
    designs: seq<DeviceParams>,
    edits: seq<PinEdit>)

  /** The connections of device `i` of a stack of `stack` devices. */
  function ChainLink(stack: int, i: int): DeviceConn
  {
    DeviceConn(
      Bit("G", i),
      if i == 0 then Wire("S") else Bit("m", i - 1),
      if i == stack - 1 then Wire("D") else Bit("m", i),
      Wire("B"))
  }

  /** The loop wiring the devices in series. */
  method SeriesChain(stack: int) returns (deviceNames: seq<Net>, deviceConns: seq<DeviceConn>)
    requires stack > 1
    ensures |deviceNames| == |deviceConns| == stack
    ensures forall i :: 0 <= i < stack ==>
      deviceNames[i] == Bit("XN", i) && deviceConns[i].g == Bit("G", i) && deviceConns[i].b == Wire("B")
    ensures deviceConns[0].s == Wire("S") && deviceConns[stack - 1].d == Wire("D")
    ensures forall i :: 0 <= i < stack - 1 ==> deviceConns[i].d == deviceConns[i + 1].s == Bit("m", i)
  {
    deviceNames := [];
    deviceConns := [];
    for i := 0 to stack
      invariant |deviceNames| == |deviceConns| == i
      invariant forall j :: 0 <= j < i ==> deviceNames[j] == Bit("XN", j)
      invariant forall j :: 0 <= j < i ==> deviceConns[j] == ChainLink(stack, j)
    {
      deviceNames := deviceNames + [Bit("XN", i)];
      deviceConns := deviceConns + [ChainLink(stack, i)];
    }
  }

  /** The loop designing device i with the i-th entry of each list. */
  method DeviceDesigns(lchList: seq<real>, wList: seq<real>, intentList: seq<string>, segList: seq<int>)
    returns (designs: seq<DeviceParams>)
    requires |lchList| == |wList| == |intentList| == |segList|
    ensures |designs| == |wList|
    ensures forall i :: 0 <= i < |wList| ==> designs[i] == DeviceParams(wList[i], lchList[i], segList[i], intentList[i])
  {
    designs := [];
    for i := 0 to |wList|
      invariant |designs| == i
      invariant forall j :: 0 <= j < i ==> designs[j] == DeviceParams(wList[j], lchList[j], segList[j], intentList[j])
    {
      var w := wList[i];
      var lch := lchList[i];
      var intent := intentList[i];
      var seg := segList[i];
      designs := designs + [DeviceParams(w, lch, seg, intent)];
    }
  }

  /** The internal nodes exported as the mid pin. */
  function MidNet(stack: int): Net
  {
    if stack == 2 then Bit("m", 0) else Range("m", stack - 2, 0)
  }

  /** `design`: the list-length check, the series wiring, the device designs and the pins. */
  method Design(lchList: seq<real>, wList: seq<real>, stack: int, intentList: seq<string>,
                segList: seq<int>, exportMid: bool)
    returns (r: Result<StackPlan>)
    ensures r.Err? <==> !(|lchList| == |wList| == |intentList| == |segList| == stack) || stack == 0
    ensures r.Ok? ==>
      && |r.value.designs| == stack
      && (forall i :: 0 <= i < stack ==> r.value.designs[i] == DeviceParams(wList[i], lchList[i], segList[i], intentList[i]))
    ensures r.Ok? && stack > 1 ==>
      && |r.value.conns| == stack
      && r.value.conns[0].s == Wire("S") && r.value.conns[stack - 1].d == Wire("D")
      && (forall i :: 0 <= i < stack - 1 ==> r.value.conns[i].d == r.value.conns[i + 1].s == Bit("m", i))
      && (forall i :: 0 <= i < stack ==> r.value.conns[i].g == Bit("G", i))
    ensures r.Ok? && stack == 1 ==> r.value.conns == [] && r.value.edits == []
    ensures r.Ok? && stack > 1 ==>
      r.value.edits == [Rename("G", Render(Range("G", stack - 1, 0)))] + (if exportMid then [Add(Render(MidNet(stack)))] else [])
  {
    if !(|lchList| == |wList| == |intentList| == |segList| == stack) {
      return Err(AssertionFailed("list lengths must equal the stack height"));
    }
    var names: seq<Net> := [];
    var conns: seq<DeviceConn> := [];
    if stack > 1 {
      names, conns := SeriesChain(stack);
    }
    if stack == 0 {
      return Err(IndexOutOfRange);
    }
    var designs := DeviceDesigns(lchList, wList, intentList, segList);
    var edits: seq<PinEdit> := [];
    if stack > 1 {
      edits := [Rename("G", Render(Range("G", stack - 1, 0)))];
      if exportMid {
        edits := edits + [Add(Render(MidNet(stack)))];
      }
    }
    r := Ok(StackPlan(names, conns, designs, edits));
  }

  /** The exported mid pin holds exactly the internal nodes of the chain:
      m<k> is in it iff it joins the drain of device k to the source of device k+1. */
  lemma MidPinIsInternalNodes(stack: int, k: int)
    requires stack > 1
    ensures Indexed("m", k) in Bits(MidNet(stack)) <==> 0 <= k < stack - 1
    ensures |Bits(MidNet(stack))| == stack - 1
  {
    if stack > 2 {
      RangeCovers("m", stack - 2, 0, k);
      RangeBits("m", stack - 2, 0);
    }
  }
}
