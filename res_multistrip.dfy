/** A resistor of `num_unit` identical strips in series between PLUS and MINUS. */
module ResMultistrip {
  import opened Outcomes
  import opened Numerals
  import opened Nets

  /** The parameters every strip is designed with. */
  datatype StripParams = StripParams(w: real, l: real, intent: string)

  /** One `design` call: the position of the instance in the array, and its parameters. */
  datatype DesignCall = DesignCall(element: nat, params: StripParams)

  datatype MultistripPlan =
    | Arrayed(inst: Net, minus: seq<Net>, plus: seq<Net>, bulk: Net, calls: seq<DesignCall>)
    | SingleStrip(call: DesignCall)

  /** `design`: for several units, the array XR<num_unit-1:0> with MINUS
      `mid<..>,MINUS` and PLUS `PLUS,mid<..>`; the loop designs element 0
      once per unit. */
  function Design(w: real, l: real, intent: string, numUnit: int): (r: MultistripPlan)
    ensures r.Arrayed? <==> numUnit > 1
    ensures r.Arrayed? ==> |r.calls| == numUnit && forall i :: 0 <= i < numUnit ==> r.calls[i] == DesignCall(0, StripParams(w, l, intent))
  {
    var params := StripParams(w, l, intent);
    if numUnit > 1 then
      var mid := if numUnit > 2 then Range("mid", numUnit - 2, 0) else Bit("mid", 0);
      Arrayed(
        Range("XR", numUnit - 1, 0),
        [mid, Wire("MINUS")],
        [Wire("PLUS"), mid],
        Wire("BULK"),
        seq(numUnit, i => DesignCall(0, params)))
    else SingleStrip(DesignCall(0, params))
  }

  /** The strips form one series string from PLUS to MINUS: strip k, at
      position q = num_unit-1-k of the array, has MINUS mid<k-1> (MINUS for
      strip 0) and PLUS mid<k> (PLUS for the top strip), and every bus is
      as wide as the array. */
  lemma SeriesString(w: real, l: real, intent: string, numUnit: int, q: int)
    requires numUnit > 1 && 0 <= q < numUnit
    ensures var p := Design(w, l, intent, numUnit);
      && |Bits(p.inst)| == Width(p.minus) == Width(p.plus) == numUnit
      && Bits(p.inst)[q] == Indexed("XR", numUnit - 1 - q)
      && BitsOf(p.minus)[q] == (if q == numUnit - 1 then Scalar("MINUS") else Indexed("mid", numUnit - 2 - q))
      && BitsOf(p.plus)[q] == (if q == 0 then Scalar("PLUS") else Indexed("mid", numUnit - 1 - q))
  {
    RangeBits("XR", numUnit - 1, 0);
    var mid := if numUnit > 2 then Range("mid", numUnit - 2, 0) else Bit("mid", 0);
    if numUnit > 2 {
      RangeBits("mid", numUnit - 2, 0);
    }
    BitsOfPair(mid, Wire("MINUS"));
    BitsOfPair(Wire("PLUS"), mid);
  }

  /** Adjacent strips share a node: MINUS of strip k is PLUS of strip k-1. */
  lemma AdjacentStripsShareNode(w: real, l: real, intent: string, numUnit: int, q: int)
    requires numUnit > 1 && 0 <= q < numUnit - 1
    ensures var p := Design(w, l, intent, numUnit);
      Width(p.minus) == Width(p.plus) == numUnit && BitsOf(p.minus)[q] == BitsOf(p.plus)[q + 1]
  {
    SeriesString(w, l, intent, numUnit, q);
    SeriesString(w, l, intent, numUnit, q + 1);
  }
}
