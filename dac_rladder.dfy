/** The resistor-ladder DAC generator: a binary mux picks one tap of a
    resistor ladder; the ladder taps outside the mux window are terminated
    with no-connect instances. */
module DacRladder {
  import opened Outcomes
  import opened Numerals
  import opened Nets

  /** How the unused ladder taps at one end are terminated. */
  datatype NoConn =
    | Deleted                    // no unused tap: the no-connect instance is deleted
    | Single(index: int)         // the one tap mid<index>
    | Arrayed(hi: int, lo: int)  // the taps mid<hi:lo>, one no-connect instance each

  predicate Terminates(nc: NoConn, k: int)
  {
    match nc
    case Deleted => false
    case Single(i) => k == i
    case Arrayed(hi, lo) => lo <= k <= hi
  }

  datatype DacPlan = DacPlan(
    numRes: int,
    codeMin: int,
    codeMax: int,
    rladderParams: map<string, int>,  // the ladder parameters after `num_out` is overwritten
    muxVinPin: Net,                    // VIN<num_mux_in-1:0> of the mux
    muxVin: Net,                       // the ladder taps wired to it
    selPin: Option<Net>,               // S renamed to S<num_bits-1:0> when the mux has several bits
    ladderOut: Net,                    // mid<num_res-1:0>, wired to the ladder outputs
    lower: NoConn,
    upper: NoConn)

  function LowerNoConn(codeMin: int): NoConn
  {
    if codeMin == 0 then Deleted
    else if codeMin > 1 then Arrayed(codeMin - 1, 0)
    else Single(0)
  }

  function UpperNoConn(codeMax: int, numRes: int): NoConn
  {
    if codeMax == numRes - 1 then Deleted
    else if codeMax < numRes - 2 then
      var numUnusedUpper := numRes - 1 - codeMax;
      Arrayed(numRes - 1, numRes - numUnusedUpper)
    else Single(numRes - 1)
  }

  /** `design`: the ladder height, the mux window, and the terminations. */
  function Design(isFull: bool, numBits: int, codeMinParam: Option<int>, rladderParams: map<string, int>)
    : (r: Result<DacPlan>)
    ensures r.Ok? <==>
      && numBits >= 0
      && (isFull || ("num_out" in rladderParams && codeMinParam.Some?))
      && (isFull || codeMinParam.value + Pow2(numBits) - 1 < rladderParams["num_out"])
    ensures r.Ok? ==>
      && r.value.numRes == (if isFull then Pow2(numBits) else rladderParams["num_out"])
      && r.value.codeMin == (if isFull then 0 else codeMinParam.value)
      && r.value.codeMax == r.value.codeMin + Pow2(numBits) - 1
      && r.value.rladderParams == rladderParams["num_out" := r.value.numRes]
  {
    if isFull && numBits < 0 then Err(NegativeShift)
    else if !isFull && "num_out" !in rladderParams then Err(MissingKey("num_out"))
    else if numBits < 0 then Err(NegativeShift)
    else
      var numRes := if isFull then Pow2(numBits) else rladderParams["num_out"];
      var numMuxIn := Pow2(numBits);
      if !isFull && codeMinParam.None? then Err(MissingKey("code_min"))
      else
        var codeMin := if isFull then 0 else codeMinParam.value;
        var codeMax := codeMin + numMuxIn - 1;
        if !(codeMax < numRes) then Err(AssertionFailed("mux window exceeds the ladder"))
        else
          Ok(DacPlan(
            numRes, codeMin, codeMax,
            rladderParams["num_out" := numRes],
            Range("VIN", numMuxIn - 1, 0),
            if codeMin != codeMax then Range("mid", codeMax, codeMin) else Bit("mid", codeMin),
            if numBits > 1 then Some(Range("S", numBits - 1, 0)) else None,
            Range("mid", numRes - 1, 0),
            LowerNoConn(codeMin),
            UpperNoConn(codeMax, numRes)))
  }

  /** The taps wired to the mux are exactly mid<code_min> .. mid<code_max>, one per mux input. */
  lemma MuxWindow(isFull: bool, numBits: int, codeMinParam: Option<int>, rladderParams: map<string, int>, k: int)
    requires Design(isFull, numBits, codeMinParam, rladderParams).Ok?
    ensures var p := Design(isFull, numBits, codeMinParam, rladderParams).value;
      && (Indexed("mid", k) in Bits(p.muxVin) <==> p.codeMin <= k <= p.codeMax)
      && |Bits(p.muxVin)| == |Bits(p.muxVinPin)| == Pow2(numBits)
  {
    var p := Design(isFull, numBits, codeMinParam, rladderParams).value;
    RangeBits("VIN", Pow2(numBits) - 1, 0);
    if p.codeMin != p.codeMax {
      RangeCovers("mid", p.codeMax, p.codeMin, k);
      RangeBits("mid", p.codeMax, p.codeMin);
    }
  }

  /** The lower termination covers exactly the taps below the window. */
  lemma LowerTerminates(codeMin: int, k: int)
    requires codeMin >= 0
    ensures Terminates(LowerNoConn(codeMin), k) <==> 0 <= k < codeMin
  {
  }

  /** The upper termination covers exactly the taps above the window. */
  lemma UpperTerminates(codeMax: int, numRes: int, k: int)
    requires codeMax < numRes
    ensures Terminates(UpperNoConn(codeMax, numRes), k) <==> codeMax < k < numRes
  {
  }

  /** Every ladder tap is either terminated below the window, wired to the mux,
      or terminated above it, and never two of these. */
  lemma Partition(isFull: bool, numBits: int, codeMinParam: Option<int>, rladderParams: map<string, int>, k: int)
    requires Design(isFull, numBits, codeMinParam, rladderParams).Ok?
    requires isFull || codeMinParam.value >= 0
    ensures var p := Design(isFull, numBits, codeMinParam, rladderParams).value;
      var below := Terminates(p.lower, k);
      var window := Indexed("mid", k) in Bits(p.muxVin);
      var above := Terminates(p.upper, k);
      && (Indexed("mid", k) in Bits(p.ladderOut) <==> below || window || above)
      && !(below && window) && !(window && above) && !(below && above)
  {
    var p := Design(isFull, numBits, codeMinParam, rladderParams).value;
    MuxWindow(isFull, numBits, codeMinParam, rladderParams, k);
    LowerTerminates(p.codeMin, k);
    UpperTerminates(p.codeMax, p.numRes, k);
    RangeCovers("mid", p.numRes - 1, 0, k);
  }

  /** The full-scale DAC uses the whole ladder: no tap is left unconnected. */
  lemma FullScaleUsesWholeLadder(numBits: int, rladderParams: map<string, int>)
    requires numBits >= 0
    ensures var r := Design(true, numBits, None, rladderParams);
      r.Ok? && r.value.lower == Deleted && r.value.upper == Deleted
  {
  }
}
