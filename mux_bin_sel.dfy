/** The recursive binary mux: an output 2:1 unit picks between a top and a
    bottom sub-mux of one bit less, which split the inputs in halves. */
module MuxBinSel {
  import opened Outcomes
  import opened Numerals
  import opened Nets

  /** A terminal of a sub-instance and the net it is rewired to. */
  datatype Reconn = Reconn(pin: Net, net: Net)

  datatype SubMuxes = SubMuxes(numBits: int, topType: string, botType: string, top: seq<Reconn>, bot: seq<Reconn>)

  datatype SelPlan = SelPlan(
    outType: string,          // the output unit is always a transmission gate
    sub: Option<SubMuxes>,    // None: both sub-muxes are deleted
    outReconn: seq<Reconn>,
    edits: seq<PinEdit>)

  /** The device type of the top sub-mux, which takes the upper inputs. */
  function TopType(mosType: string): string
  {
    if mosType == "p" || mosType == "split" then "p" else if mosType == "n" then "n" else "both"
  }

  /** The device type of the bottom sub-mux, which takes the lower inputs. */
  function BottomType(mosType: string): string
  {
    if mosType == "n" || mosType == "split" then "n" else if mosType == "p" then "p" else "both"
  }

  /** `design`: the sub-muxes, the rewiring, and the pin renames. */
  function Design(numBits: int, mosType: string): (r: Result<SelPlan>)
    ensures r.Err? <==> numBits < 1
    ensures r.Ok? ==> r.value.outType == "both" && (r.value.sub.Some? <==> numBits > 1)
    ensures r.Ok? && numBits > 1 ==> r.value.sub.value.numBits == numBits - 1
  {
    if numBits < 1 then Err(AssertionFailed("num_bits >= 1"))
    else
      var numIn := Pow2(numBits);
      var msb := numBits - 1;
      if numBits > 1 then
        var selPin := if numBits == 2 then Wire("S") else Range("S", numBits - 2, 0);
        var selNet := if numBits == 2 then Bit("S", 0) else Range("S", numBits - 2, 0);
        var selbPin := if numBits == 2 then Wire("Sb") else Range("Sb", numBits - 2, 0);
        var selbNet := if numBits == 2 then Bit("Sb", 0) else Range("Sb", numBits - 2, 0);
        var vinTop := Range("VIN", numIn - 1, numIn / 2);
        var vinBot := Range("VIN", numIn / 2 - 1, 0);
        Ok(SelPlan(
          "both",
          Some(SubMuxes(numBits - 1, TopType(mosType), BottomType(mosType),
            [Reconn(selPin, selNet), Reconn(selbPin, selbNet), Reconn(vinBot, vinTop)],
            [Reconn(selPin, selNet), Reconn(selbPin, selbNet), Reconn(vinBot, vinBot)])),
          [Reconn(Wire("S"), Bit("S", msb)), Reconn(Wire("Sb"), Bit("Sb", msb))],
          [ Rename("S", Render(Range("S", numBits - 1, 0))),
            Rename("Sb", Render(Range("Sb", numBits - 1, 0))),
            Rename("VIN<1:0>", Render(Range("VIN", numIn - 1, 0))) ]))
      else
        Ok(SelPlan(
          "both",
          None,
          [Reconn(Wire("S"), Wire("S")), Reconn(Wire("Sb"), Wire("Sb")),
           Reconn(Range("VIN", 1, 0), Range("VIN", 1, 0))],
          []))
  }

  /** A split mux puts PMOS above and NMOS below; a uniform mux stays uniform
      all the way down. */
  lemma TypeMapping(mosType: string)
    ensures TopType("split") == "p" && BottomType("split") == "n"
    ensures mosType in {"n", "p", "both"} ==> TopType(mosType) == mosType && BottomType(mosType) == mosType
    ensures TopType(TopType(mosType)) == TopType(mosType) && BottomType(BottomType(mosType)) == BottomType(mosType)
  {
  }

  predicate WidthsMatch(rs: seq<Reconn>)
  {
    forall i :: 0 <= i < |rs| ==> |Bits(rs[i].pin)| == |Bits(rs[i].net)|
  }

  /** Every rewired terminal gets a net of its own width. */
  lemma ReconnWidths(numBits: int, mosType: string)
    requires Design(numBits, mosType).Ok?
    ensures var p := Design(numBits, mosType).value;
      && WidthsMatch(p.outReconn)
      && (p.sub.Some? ==> WidthsMatch(p.sub.value.top) && WidthsMatch(p.sub.value.bot))
  {
    var numIn := Pow2(numBits);
    if numBits > 1 {
      assert numIn == 2 * Pow2(numBits - 1);
      assert numIn / 2 == Pow2(numBits - 1);
    }
  }

  /** The top sub-mux's input j is the mux's input num_in/2 + j, the bottom
      sub-mux's input j is the mux's input j. */
  lemma HalfInputs(numBits: int, mosType: string, j: int)
    requires numBits > 1
    requires 0 <= j < Pow2(numBits - 1)
    ensures var s := Design(numBits, mosType).value.sub.value;
      var half := Pow2(numBits - 1);
      var q := half - 1 - j;
      && Bits(s.top[2].pin)[q] == Indexed("VIN", j) && Bits(s.top[2].net)[q] == Indexed("VIN", half + j)
      && Bits(s.bot[2].pin)[q] == Indexed("VIN", j) && Bits(s.bot[2].net)[q] == Indexed("VIN", j)
  {
    var half := Pow2(numBits - 1);
    InputReconns(numBits, mosType);
    RangeBits("VIN", half - 1, 0);
    RangeBits("VIN", 2 * half - 1, half);
  }

  /** The third rewiring of each sub-mux: the top one's lower input range
      onto the upper half of the inputs, the bottom one's onto the lower half. */
  lemma InputReconns(numBits: int, mosType: string)
    requires numBits > 1
    ensures var s := Design(numBits, mosType).value.sub.value;
      var half := Pow2(numBits - 1);
      && Pow2(numBits) == 2 * half && Pow2(numBits) / 2 == half
      && |s.top| == 3 && |s.bot| == 3
      && s.top[2] == Reconn(Range("VIN", half - 1, 0), Range("VIN", 2 * half - 1, half))
      && s.bot[2] == Reconn(Range("VIN", half - 1, 0), Range("VIN", half - 1, 0))
  {
    assert Pow2(numBits) == 2 * Pow2(numBits - 1);
  }

  /** The two halves partition the inputs VIN<num_in-1:0>. */
  lemma HalvesPartition(numBits: int, mosType: string, k: int)
    requires numBits > 1
    ensures var s := Design(numBits, mosType).value.sub.value;
      var numIn := Pow2(numBits);
      && (Indexed("VIN", k) in Bits(s.top[2].net) <==> numIn / 2 <= k < numIn)
      && (Indexed("VIN", k) in Bits(s.bot[2].net) <==> 0 <= k < numIn / 2)
  {
    var half := Pow2(numBits - 1);
    InputReconns(numBits, mosType);
    RangeCovers("VIN", 2 * half - 1, half, k);
    RangeCovers("VIN", half - 1, 0, k);
  }

  /** The inputs, from the top of the tree down, that reach the 2:1 units at
      the bottom of a mux of `numBits` bits whose input 0 is the enclosing
      mux's input `base`. */
  function TreeInputs(numBits: nat, base: int): seq<int>
    requires numBits >= 1
  {
    if numBits == 1 then [base + 1, base]
    else TreeInputs(numBits - 1, base + Pow2(numBits - 1)) + TreeInputs(numBits - 1, base)
  }

  /** Unfolding the recursion, every input of the mux reaches exactly one
      bottom unit, in order from the top input down. */
  lemma {:induction false} TreeInputsAll(numBits: nat, base: int)
    requires numBits >= 1
    ensures TreeInputs(numBits, base) == seq(Pow2(numBits), k requires 0 <= k < Pow2(numBits) => base + Pow2(numBits) - 1 - k)
  {
    if numBits > 1 {
      var half := Pow2(numBits - 1);
      TreeInputsAll(numBits - 1, base + half);
      TreeInputsAll(numBits - 1, base);
      var t := TreeInputs(numBits, base);
      assert |t| == 2 * half;
      forall k | 0 <= k < 2 * half ensures t[k] == base + 2 * half - 1 - k {
        if k < half {
          assert t[k] == TreeInputs(numBits - 1, base + half)[k];
        } else {
          assert t[k] == TreeInputs(numBits - 1, base)[k - half];
        }
      }
    }
  }

  /** The inputs reaching the 2:1 units at the bottom of the tree, read off
      the plans of `Design` itself: each sub-mux is designed with the type
      and bit count its plan gives, and its input 0 is where its VIN
      rewiring lands in the enclosing mux. */
  function Leaves(numBits: nat, mosType: string, base: int): seq<int>
    requires numBits >= 1
    decreases numBits
  {
    var plan := Design(numBits, mosType).value;
    if plan.sub.None? then
      assert numBits == 1;
      [base + 1, base]
    else
      var sub := plan.sub.value;
      InputReconns(numBits, mosType);
      Leaves(sub.numBits, sub.topType, base + sub.top[2].net.lo)
        + Leaves(sub.numBits, sub.botType, base + sub.bot[2].net.lo)
  }

  /** The mux the plans build is the tree of `TreeInputs`: every input of a
      mux of `numBits` bits reaches exactly one bottom unit, from the top
      input down, whatever the device type. */
  lemma {:induction false} DesignLeaves(numBits: nat, mosType: string, base: int)
    requires numBits >= 1
    ensures Leaves(numBits, mosType, base) == TreeInputs(numBits, base)
    ensures Leaves(numBits, mosType, base) ==
      seq(Pow2(numBits), k requires 0 <= k < Pow2(numBits) => base + Pow2(numBits) - 1 - k)
    decreases numBits
  {
    if numBits > 1 {
      var sub := Design(numBits, mosType).value.sub.value;
      InputReconns(numBits, mosType);
      DesignLeaves(numBits - 1, sub.topType, base + Pow2(numBits - 1));
      DesignLeaves(numBits - 1, sub.botType, base);
    }
    TreeInputsAll(numBits, base);
  }
}
