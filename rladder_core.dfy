/** The resistor ladder core: an array of `num_out` resistors from VDD down
    to out<0>, each tap out<k> exported. */
module RladderCore {
  import opened Outcomes
  import opened Numerals
  import opened Nets

  /** The resistor array XR<num_out-1:0> and the buses wired to its terminals. */
  datatype LadderPlan = LadderPlan(inst: Net, minus: seq<Net>, plus: seq<Net>, outPin: PinEdit)

  function Ladder(numOut: int, plus: seq<Net>): LadderPlan
  {
    LadderPlan(
      Range("XR", numOut - 1, 0),
      [Range("out", numOut - 1, 0)],
      plus,
      Rename("out<0>", Render(Range("out", numOut - 1, 0))))
  }

  /** `design` as written: PLUS is VDD followed by out<num_out-1:1>, or by
      out<1> when there are at most two resistors. */
  function Design(numOut: int): (r: Result<LadderPlan>)
    ensures r.Err? <==> numOut < 1
  {
    if numOut < 1 then Err(AssertionFailed("num_out >= 1"))
    else Ok(Ladder(numOut, [Wire("VDD"), if numOut > 2 then Range("out", numOut - 1, 1) else Bit("out", 1)]))
  }

  /** `design` with a single resistor wired from VDD to out<0>. */
  function DesignIntended(numOut: int): (r: Result<LadderPlan>)
    ensures r.Err? <==> numOut < 1
  {
    if numOut < 1 then Err(AssertionFailed("num_out >= 1"))
    else if numOut == 1 then Ok(Ladder(1, [Wire("VDD")]))
    else Design(numOut)
  }

  /** The resistor array is wired as a chain from VDD: resistor k, at
      position q = num_out-1-k of the array, has MINUS out<k> and PLUS
      out<k+1>, the top one VDD, and every bus is as wide as the array. */
  predicate Chained(p: LadderPlan, numOut: int)
    requires numOut >= 1
  {
    && |Bits(p.inst)| == Width(p.minus) == Width(p.plus) == numOut
    && forall q :: 0 <= q < numOut ==>
         && Bits(p.inst)[q] == Indexed("XR", numOut - 1 - q)
         && BitsOf(p.minus)[q] == Indexed("out", numOut - 1 - q)
         && BitsOf(p.plus)[q] == (if q == 0 then Scalar("VDD") else Indexed("out", numOut - q))
  }

  lemma SingleBus(n: Net)
    ensures BitsOf([n]) == Bits(n)
  {
    BitsOfAppend([n], []);
  }

  /** With two or more outputs the ladder, as written, is a chain from VDD. */
  lemma LadderChain(numOut: int)
    requires numOut >= 2
    ensures Chained(Design(numOut).value, numOut)
  {
    var p := Design(numOut).value;
    RangeBits("XR", numOut - 1, 0);
    RangeBits("out", numOut - 1, 0);
    SingleBus(Range("out", numOut - 1, 0));
    if numOut > 2 {
      RangeBits("out", numOut - 1, 1);
      BitsOfPair(Wire("VDD"), Range("out", numOut - 1, 1));
    } else {
      BitsOfPair(Wire("VDD"), Bit("out", 1));
    }
  }

  /** With one output, the PLUS bus written for the single resistor,
      `VDD,out<1>`, is two nets wide. */
  lemma SingleResistorPlusTooWide()
    ensures Design(1).Ok?
    ensures Render(Design(1).value.inst) == "XR<0:0>" && |Bits(Design(1).value.inst)| == 1
    ensures Width(Design(1).value.plus) == 2
    ensures !Chained(Design(1).value, 1)
  {
    BitsOfPair(Wire("VDD"), Bit("out", 1));
    RangeBits("XR", 0, 0);
    assert IntToString(0) == "0";
  }

  /** The intended design is a chain from VDD for every accepted num_out. */
  lemma IntendedLadderChain(numOut: int)
    requires numOut >= 1
    ensures Chained(DesignIntended(numOut).value, numOut)
  {
    if numOut == 1 {
      RangeBits("XR", 0, 0);
      RangeBits("out", 0, 0);
      SingleBus(Range("out", 0, 0));
      SingleBus(Wire("VDD"));
    } else {
      LadderChain(numOut);
    }
  }
}
