/** The one-hot mux: one switch per input, all NMOS, all PMOS, all
    transmission gates, or split into NMOS switches below a code and PMOS
    switches from that code up. */
module MuxOnehotSel {
  import opened Outcomes
  import opened Numerals
  import opened Nets

  /** An index window `<i>` or `<hi:lo>`. */
  datatype Span = One(index: int) | Many(hi: int, lo: int)

  function On(name: string, sp: Span): Net
  {
    match sp
    case One(i) => Bit(name, i)
    case Many(hi, lo) => Range(name, hi, lo)
  }

  /** An array of switches: CTRL, CTRLb and D come from the window, S is VOUT. */
  datatype SwitchGroup = SwitchGroup(inst: Net, mosType: string, ctrl: Net, ctrlb: Net, d: Net)

  datatype OnehotPlan = OnehotPlan(switches: seq<SwitchGroup>, sel: PinEdit, selb: PinEdit, vin: PinEdit)

  function Group(inst: string, mosType: string, sp: Span): SwitchGroup
  {
    SwitchGroup(On(inst, sp), mosType, On("S", sp), On("Sb", sp), On("VIN", sp))
  }

  function LowerSpan(splitCode: int): Span
  {
    if splitCode > 1 then Many(splitCode - 1, 0) else One(0)
  }

  /** The upper window as the source writes it: a single index already when
      split_code is num_in-2. */
  function UpperSpanAsWritten(numIn: int, splitCode: int): Span
  {
    if splitCode < numIn - 2 then Many(numIn - 1, splitCode) else One(splitCode)
  }

  /** The upper window as intended: split_code up to the top input. */
  function UpperSpan(numIn: int, splitCode: int): Span
  {
    if splitCode < numIn - 1 then Many(numIn - 1, splitCode) else One(splitCode)
  }

  function PinFor(pin: string, keep: bool, sp: Span): PinEdit
  {
    if keep then Rename(pin, Render(On(pin, sp))) else Remove(pin)
  }

  /** One array for all inputs; S is kept for NMOS switches, Sb for PMOS ones. */
  function Uniform(numIn: int, mosType: string): OnehotPlan
  {
    var all := Many(numIn - 1, 0);
    OnehotPlan(
      [Group("XSW", mosType, all)],
      PinFor("S", mosType == "n" || mosType == "both", all),
      PinFor("Sb", mosType == "p" || mosType == "both", all),
      Rename("VIN", Render(On("VIN", all))))
  }

  /** NMOS switches on the lower window, PMOS switches on the upper one. */
  function Split(numIn: int, lower: Span, upper: Span): OnehotPlan
  {
    OnehotPlan(
      [Group("XSW_LOWER", "n", lower), Group("XSW_UPPER", "p", upper)],
      Rename("S", Render(On("S", lower))),
      Rename("Sb", Render(On("Sb", upper))),
      Rename("VIN", Render(On("VIN", Many(numIn - 1, 0)))))
  }

  function Build(numIn: int, mosType: string, splitCode: Option<int>, intended: bool): Result<OnehotPlan>
  {
    if !(numIn > 1) then Err(AssertionFailed("num_in > 1"))
    else if mosType == "split" then
      if splitCode.None? then Err(MissingKey("split_code"))
      else
        var code := splitCode.value;
        if code == 0 || code == numIn - 1 then Ok(Uniform(numIn, "p"))
        else
          var upper := if intended then UpperSpan(numIn, code) else UpperSpanAsWritten(numIn, code);
          Ok(Split(numIn, LowerSpan(code), upper))
    else Ok(Uniform(numIn, mosType))
  }

  /** `design` as written. */
  function Design(numIn: int, mosType: string, splitCode: Option<int>): (r: Result<OnehotPlan>)
    ensures r.Err? <==> numIn <= 1 || (mosType == "split" && splitCode.None?)
  {
    Build(numIn, mosType, splitCode, false)
  }

  /** `design` with the upper window reaching the top input. */
  function DesignIntended(numIn: int, mosType: string, splitCode: Option<int>): (r: Result<OnehotPlan>)
    ensures r.Err? <==> numIn <= 1 || (mosType == "split" && splitCode.None?)
  {
    Build(numIn, mosType, splitCode, true)
  }

  /** Without a split, S becomes S<num_in-1:0> exactly for NMOS and
      transmission-gate switches and is deleted otherwise; Sb likewise for
      PMOS and transmission gates. */
  lemma UniformPins(numIn: int, mosType: string, splitCode: Option<int>)
    requires numIn > 1 && mosType != "split"
    ensures var p := Design(numIn, mosType, splitCode).value;
      && (p.sel == Rename("S", Render(Range("S", numIn - 1, 0))) <==> mosType == "n" || mosType == "both")
      && (p.sel == Remove("S") <==> !(mosType == "n" || mosType == "both"))
      && (p.selb == Rename("Sb", Render(Range("Sb", numIn - 1, 0))) <==> mosType == "p" || mosType == "both")
      && (p.selb == Remove("Sb") <==> !(mosType == "p" || mosType == "both"))
  {
  }

  /** A split at code 0 or num_in-1 is treated as all PMOS. */
  lemma SplitCollapses(numIn: int, code: int)
    requires numIn > 1 && (code == 0 || code == numIn - 1)
    ensures Design(numIn, "split", Some(code)) == Design(numIn, "p", None)
    ensures Design(numIn, "split", Some(code)).value.sel == Remove("S")
  {
  }

  predicate Covers(sp: Span, k: int)
  {
    match sp
    case One(i) => k == i
    case Many(hi, lo) => lo <= k <= hi
  }

  lemma OnCovers(name: string, sp: Span, k: int)
    requires sp.Many? ==> sp.hi >= sp.lo
    ensures Indexed(name, k) in Bits(On(name, sp)) <==> Covers(sp, k)
    ensures |Bits(On(name, sp))| == (if sp.One? then 1 else sp.hi - sp.lo + 1)
  {
    if sp.Many? {
      RangeCovers(name, sp.hi, sp.lo, k);
      RangeBits(name, sp.hi, sp.lo);
    }
  }

  /** The input VIN<k> is wired to some switch drain. */
  predicate InputWired(p: OnehotPlan, k: int)
  {
    exists g :: g in p.switches && Indexed("VIN", k) in Bits(g.d)
  }

  /** As written, a split the lower window covers VIN<split_code-1:0> and the
      upper window VIN<num_in-1:split_code>, except at split_code == num_in-2
      where it covers VIN<split_code> alone. */
  lemma SplitWindowsAsWritten(numIn: int, code: int, k: int)
    requires numIn > 1 && 0 < code < numIn - 1
    ensures var p := Design(numIn, "split", Some(code)).value;
      && (Indexed("VIN", k) in Bits(p.switches[0].d) <==> 0 <= k < code)
      && (code < numIn - 2 ==> (Indexed("VIN", k) in Bits(p.switches[1].d) <==> code <= k < numIn))
      && (code == numIn - 2 ==> (Indexed("VIN", k) in Bits(p.switches[1].d) <==> k == code))
  {
    OnCovers("VIN", LowerSpan(code), k);
    OnCovers("VIN", UpperSpanAsWritten(numIn, code), k);
  }

  /** The input the split of the source leaves unconnected: with four inputs
      and split code 2, VIN<3> reaches no switch although the VIN pin is
      renamed VIN<3:0>. */
  lemma SplitDropsTopInput()
    ensures Design(4, "split", Some(2)).Ok?
    ensures Design(4, "split", Some(2)).value.vin == Rename("VIN", Render(Range("VIN", 3, 0)))
    ensures !InputWired(Design(4, "split", Some(2)).value, 3)
  {
    var p := Design(4, "split", Some(2)).value;
    OnCovers("VIN", LowerSpan(2), 3);
    OnCovers("VIN", UpperSpanAsWritten(4, 2), 3);
    assert p.switches == [Group("XSW_LOWER", "n", LowerSpan(2)), Group("XSW_UPPER", "p", UpperSpanAsWritten(4, 2))];
  }

  /** With the intended upper window, every input 0 .. num_in-1 is wired to
      exactly one switch, nothing else is, and the switches number num_in. */
  lemma IntendedWiresEachInputOnce(numIn: int, mosType: string, splitCode: Option<int>, k: int)
    requires DesignIntended(numIn, mosType, splitCode).Ok?
    requires mosType == "split" ==> 0 <= splitCode.value < numIn
    ensures var p := DesignIntended(numIn, mosType, splitCode).value;
      && (InputWired(p, k) <==> 0 <= k < numIn)
      && (forall i, j :: 0 <= i < j < |p.switches| ==>
            !(Indexed("VIN", k) in Bits(p.switches[i].d) && Indexed("VIN", k) in Bits(p.switches[j].d)))
      && (|p.switches| == 1 ==> |Bits(p.switches[0].inst)| == numIn)
      && (|p.switches| == 2 ==> |Bits(p.switches[0].inst)| + |Bits(p.switches[1].inst)| == numIn)
  {
    var p := DesignIntended(numIn, mosType, splitCode).value;
    if |p.switches| == 1 {
      OnCovers("VIN", Many(numIn - 1, 0), k);
      OnCovers("XSW", Many(numIn - 1, 0), k);
      if 0 <= k < numIn {
        assert p.switches[0] in p.switches;
      }
    } else {
      var code := splitCode.value;
      OnCovers("VIN", LowerSpan(code), k);
      OnCovers("VIN", UpperSpan(numIn, code), k);
      OnCovers("XSW_LOWER", LowerSpan(code), k);
      OnCovers("XSW_UPPER", UpperSpan(numIn, code), k);
      assert p.switches[0] in p.switches && p.switches[1] in p.switches;
    }
  }
}
