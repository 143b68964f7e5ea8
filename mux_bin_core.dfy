/** The binary-tree mux core: `num_bits` layers of 2:1 units, layer i holding
    2^(num_bits-i-1) units, each layer feeding the next through a VMID bus. */
module MuxBinCore {
  import opened Outcomes
  import opened Numerals
  import opened Nets

  /** The instance array of one layer and the nets wired to its terminals. */
  datatype LayerConn = LayerConn(inst: Net, vin: Net, s: Net, sb: Net, vout: Net)

  datatype CorePlan =
    | Layered(layers: seq<LayerConn>, edits: seq<PinEdit>)
    | SingleUnit  // at most one bit: the template's single unit is designed as is

  function Layer(numBits: nat, i: nat): LayerConn
    requires i < numBits
  {
    var numIn := Pow2(numBits);
    LayerConn(
      Range("XUNIT" + NatToString(i), Pow2(numBits - i - 1) - 1, 0),
      if i == 0 then Range("VIN", numIn - 1, 0)
      else Range("VMID" + NatToString(i - 1), Pow2(numBits - i) - 1, 0),
      Bit("S", i),
      Bit("Sb", i),
      if i < numBits - 1 then Range("VMID" + NatToString(i), Pow2(numBits - i - 1) - 1, 0) else Wire("VOUT"))
  }

  /** `design`: the layers, or the single unit for fewer than two bits. */
  function Design(numBits: int): (r: Result<CorePlan>)
    ensures r.Err? <==> numBits < 0
    ensures r.Ok? ==> (r.value.Layered? <==> numBits > 1)
    ensures r.Ok? && r.value.Layered? ==> |r.value.layers| == numBits
  {
    if numBits < 0 then Err(NegativeShift)
    else if numBits > 1 then
      var numIn := Pow2(numBits);
      Ok(Layered(
        seq(numBits, i requires 0 <= i < numBits => Layer(numBits, i)),
        [ Rename("S", Render(Range("S", numBits - 1, 0))),
          Rename("Sb", Render(Range("Sb", numBits - 1, 0))),
          Rename("VIN<1:0>", Render(Range("VIN", numIn - 1, 0))) ]))
    else Ok(SingleUnit)
  }

  /** The unit count of each layer, first layer first. */
  function LayerUnits(numBits: nat): (u: seq<int>)
    ensures |u| == numBits
  {
    seq(numBits, i requires 0 <= i < numBits => Pow2(numBits - i - 1))
  }

  /** Layer i has as many units as its output bus has bits, and its input bus
      has two bits per unit. */
  lemma LayerWidths(numBits: nat, i: nat)
    requires i < numBits
    ensures |Bits(Layer(numBits, i).inst)| == LayerUnits(numBits)[i]
    ensures |Bits(Layer(numBits, i).vin)| == 2 * LayerUnits(numBits)[i]
    ensures |Bits(Layer(numBits, i).vout)| == LayerUnits(numBits)[i]
  {
    assert Pow2(numBits - i) == 2 * Pow2(numBits - i - 1);
    if i == numBits - 1 {
      assert Pow2(numBits - i - 1) == 1;
    }
  }

  /** Layer i drives exactly the bus layer i+1 reads; the last layer drives VOUT. */
  lemma LayerChain(numBits: nat, i: nat)
    requires i < numBits
    ensures i < numBits - 1 ==> Layer(numBits, i).vout == Layer(numBits, i + 1).vin
    ensures i == numBits - 1 ==> Layer(numBits, i).vout == Wire("VOUT")
  {
  }

  /** The select bus S<num_bits-1:0> the S pin is renamed to holds exactly one
      select bit per layer, and likewise for Sb. */
  lemma LayerSelects(numBits: nat, k: int)
    requires numBits > 1
    ensures (exists i :: 0 <= i < numBits && Layer(numBits, i).s == Bit("S", k))
      <==> Indexed("S", k) in Bits(Range("S", numBits - 1, 0))
    ensures (exists i :: 0 <= i < numBits && Layer(numBits, i).sb == Bit("Sb", k))
      <==> Indexed("Sb", k) in Bits(Range("Sb", numBits - 1, 0))
  {
    RangeCovers("S", numBits - 1, 0, k);
    RangeCovers("Sb", numBits - 1, 0, k);
    if 0 <= k < numBits {
      assert Layer(numBits, k).s == Bit("S", k);
      assert Layer(numBits, k).sb == Bit("Sb", k);
    }
  }

  lemma {:induction false} LayerUnitsSucc(numBits: nat)
    ensures LayerUnits(numBits + 1) == [Pow2(numBits)] + LayerUnits(numBits)
  {
    var a := LayerUnits(numBits + 1);
    var b := [Pow2(numBits)] + LayerUnits(numBits);
    assert forall i :: 0 <= i < |a| ==> a[i] == b[i];
  }

  /** The layers hold num_units = 2^num_bits - 1 units in all. */
  lemma {:induction false} UnitCount(numBits: nat)
    ensures Sum(LayerUnits(numBits)) == Pow2(numBits) - 1
  {
    if numBits > 0 {
      LayerUnitsSucc(numBits - 1);
      UnitCount(numBits - 1);
      assert LayerUnits(numBits)[1..] == LayerUnits(numBits - 1);
    }
  }
}
