/** The trimmable series resistor: a string of multistrip resistors, each of
    which a switch can short out. */
module ResTrimSeries {
  import opened Outcomes
  import opened Numerals
  import opened Nets

  /** The terminals of one resistor of the string. */
  datatype ResConn = ResConn(plus: Net, minus: Net, bulk: Net)

  /** The wiring of the switches. */
  datatype Switches =
    | NoSwitch                    // no group: XSW and XR are deleted
    | OneSwitch(drain: Net)       // one group: only the drain is rewired
    | SwitchArray(inst: Net, d: seq<Net>, s: seq<Net>, ctrl: seq<Net>, ctrlb: seq<Net>)

  datatype TrimPlan = TrimPlan(
    resistors: seq<ResConn>,           // XR<0> .. XR<num_sw-1>
    designs: seq<map<string, int>>,    // the parameters each XR<i> is designed with
    baseMinus: Option<Net>,            // XRBASE MINUS, rewired only without switches
    switches: Switches,
    edits: seq<PinEdit>)

  /** The loop building the resistor string: resistor i runs from mid<i> to
      mid<i+1>, the last one to Z. */
  method ResistorString(numSw: nat, bulkConn: string) returns (connDictList: seq<ResConn>)
    ensures |connDictList| == numSw
    ensures forall i :: 0 <= i < numSw ==>
      connDictList[i].plus == Bit("mid", i) && connDictList[i].bulk == Wire(bulkConn)
    ensures forall i :: 0 <= i < numSw - 1 ==> connDictList[i].minus == connDictList[i + 1].plus
    ensures numSw > 0 ==> connDictList[numSw - 1].minus == Wire("Z")
  {
    connDictList := [];
    for i := 0 to numSw
      invariant |connDictList| == i
      invariant forall j :: 0 <= j < i ==>
        connDictList[j].plus == Bit("mid", j) && connDictList[j].bulk == Wire(bulkConn)
      invariant forall j :: 0 <= j < i ==>
        connDictList[j].minus == (if j == numSw - 1 then Wire("Z") else Bit("mid", j + 1))
    {
      var plusConn := Bit("mid", i);
      var minusConn := if i == numSw - 1 then Wire("Z") else Bit("mid", i + 1);
      connDictList := connDictList + [ResConn(plusConn, minusConn, Wire(bulkConn))];
    }
  }

  /** The loop designing the resistors: resistor i gets `res_groupings[i]`
      times the base number of units, every other parameter unchanged. */
  method StripDesigns(resParams: map<string, int>, baseNumUnit: int, resGroupings: seq<int>)
    returns (designs: seq<map<string, int>>)
    ensures |designs| == |resGroupings|
    ensures forall i :: 0 <= i < |resGroupings| ==>
      designs[i] == resParams["num_unit" := baseNumUnit * resGroupings[i]]
  {
    var multistripParams := resParams;
    designs := [];
    for i := 0 to |resGroupings|
      invariant |designs| == i
      invariant forall j :: 0 <= j < i ==> designs[j] == resParams["num_unit" := baseNumUnit * resGroupings[j]]
      invariant i == 0 ==> multistripParams == resParams
      invariant i > 0 ==> multistripParams == resParams["num_unit" := baseNumUnit * resGroupings[i - 1]]
    {
      multistripParams := multistripParams["num_unit" := baseNumUnit * resGroupings[i]];
      assert multistripParams == resParams["num_unit" := baseNumUnit * resGroupings[i]];
      designs := designs + [multistripParams];
    }
  }

  function UnitTotal(designs: seq<map<string, int>>): int
    requires forall i :: 0 <= i < |designs| ==> "num_unit" in designs[i]
  {
    if designs == [] then 0 else designs[0]["num_unit"] + UnitTotal(designs[1..])
  }

  /** The string holds `num_unit * sum(res_groupings)` units in total. */
  lemma {:induction false} UnitTotalIsScaledSum(resParams: map<string, int>, base: int, groupings: seq<int>, designs: seq<map<string, int>>)
    requires |designs| == |groupings|
    requires forall i :: 0 <= i < |groupings| ==> designs[i] == resParams["num_unit" := base * groupings[i]]
    ensures UnitTotal(designs) == base * Sum(groupings)
  {
    if groupings != [] {
      UnitTotalIsScaledSum(resParams, base, groupings[1..], designs[1..]);
    }
  }

  function BulkEdit(bulkConn: string): seq<PinEdit>
  {
    if bulkConn == "VDD" || bulkConn == "VSS" then [Remove("BULK")]
    else if bulkConn != "BULK" then [Rename("BULK", bulkConn)]
    else []
  }

  /** The pin edits of `design`, in order: bulk, control pins unused by the
      switch type, control buses, and the control pins of a trim with no switch. */
  function PinEdits(bulkConn: string, mosType: string, numSw: nat): seq<PinEdit>
  {
    var hasCtrlb := mosType != "p";
    var hasCtrl := mosType != "n";
    BulkEdit(bulkConn)
      + (if !hasCtrlb then [Remove("CTRLb")] else [])
      + (if !hasCtrl then [Remove("CTRL")] else [])
      + (if numSw > 1 && hasCtrl then [Rename("CTRL", Render(Range("CTRL", numSw - 1, 0)))] else [])
      + (if numSw > 1 && hasCtrlb then [Rename("CTRLb", Render(Range("CTRLb", numSw - 1, 0)))] else [])
      + (if numSw == 0 then [Remove("CTRL"), Remove("CTRLb")] else [])
  }

  function SwitchWiring(numSw: nat): Switches
  {
    if numSw > 1 then
      SwitchArray(
        Range("XSW", numSw - 1, 0),
        [Range("mid", numSw - 1, 0)],
        [Wire("Z"), Range("mid", numSw - 1, 1)],
        [Range("CTRLb", numSw - 1, 0)],
        [Range("CTRL", numSw - 1, 0)])
    else if numSw == 1 then OneSwitch(Bit("mid", 0))
    else NoSwitch
  }

  /** `design`: the resistor string, the resistor designs, the switches and the pin edits. */
  method Design(resParams: map<string, int>, mosType: string, resGroupings: seq<int>, bulkConn: string)
    returns (r: Result<TrimPlan>)
    ensures r.Err? <==> "num_unit" !in resParams
    ensures r.Ok? ==> |r.value.resistors| == |resGroupings|
    ensures r.Ok? ==> forall i :: 0 <= i < |resGroupings| - 1 ==> r.value.resistors[i].minus == r.value.resistors[i + 1].plus
    ensures r.Ok? ==> forall i :: 0 <= i < |resGroupings| ==>
      r.value.resistors[i].plus == Bit("mid", i) && r.value.resistors[i].bulk == Wire(bulkConn)
    ensures r.Ok? && |resGroupings| > 0 ==> r.value.resistors[|resGroupings| - 1].minus == Wire("Z")
    ensures r.Ok? ==>
      && |r.value.designs| == |resGroupings|
      && (forall i :: 0 <= i < |resGroupings| ==>
            r.value.designs[i] == resParams["num_unit" := resParams["num_unit"] * resGroupings[i]])
      && UnitTotal(r.value.designs) == resParams["num_unit"] * Sum(resGroupings)
    ensures r.Ok? ==> r.value.switches == SwitchWiring(|resGroupings|)
    ensures r.Ok? ==> r.value.edits == PinEdits(bulkConn, mosType, |resGroupings|)
    ensures r.Ok? ==> (r.value.baseMinus == Some(Wire("Z")) <==> |resGroupings| == 0)
  {
    if "num_unit" !in resParams {
      return Err(MissingKey("num_unit"));
    }
    var baseNumUnit := resParams["num_unit"];
    var numSw := |resGroupings|;
    var resistors := ResistorString(numSw, bulkConn);
    var designs := StripDesigns(resParams, baseNumUnit, resGroupings);
    UnitTotalIsScaledSum(resParams, baseNumUnit, resGroupings, designs);
    var baseMinus := if numSw == 0 then Some(Wire("Z")) else None;
    r := Ok(TrimPlan(resistors, designs, baseMinus, SwitchWiring(numSw), PinEdits(bulkConn, mosType, numSw)));
  }

  /** Switch k of the array (at position num_sw-1-k) spans exactly resistor k:
      its drain is the resistor's PLUS node and its source the MINUS node, and
      it is driven by the opposite-polarity control bit. */
  lemma SwitchSpansResistor(numSw: nat, k: nat, bulkConn: string)
    requires numSw > 1 && k < numSw
    ensures var w := SwitchWiring(numSw);
      var p := numSw - 1 - k;
      && |Bits(w.inst)| == Width(w.d) == Width(w.s) == Width(w.ctrl) == Width(w.ctrlb) == numSw
      && Bits(w.inst)[p] == Indexed("XSW", k)
      && BitsOf(w.d)[p] == Indexed("mid", k)
      && BitsOf(w.s)[p] == (if k == numSw - 1 then Scalar("Z") else Indexed("mid", k + 1))
      && BitsOf(w.ctrl)[p] == Indexed("CTRLb", k)
      && BitsOf(w.ctrlb)[p] == Indexed("CTRL", k)
  {
    var w := SwitchWiring(numSw);
    RangeBits("XSW", numSw - 1, 0);
    RangeBits("mid", numSw - 1, 0);
    RangeBits("mid", numSw - 1, 1);
    RangeBits("CTRL", numSw - 1, 0);
    RangeBits("CTRLb", numSw - 1, 0);
    BitsOfPair(Wire("Z"), Range("mid", numSw - 1, 1));
    assert BitsOf([Range("mid", numSw - 1, 0)]) == Bits(Range("mid", numSw - 1, 0)) by {
      BitsOfAppend([Range("mid", numSw - 1, 0)], []);
    }
    assert BitsOf([Range("CTRL", numSw - 1, 0)]) == Bits(Range("CTRL", numSw - 1, 0)) by {
      BitsOfAppend([Range("CTRL", numSw - 1, 0)], []);
    }
    assert BitsOf([Range("CTRLb", numSw - 1, 0)]) == Bits(Range("CTRLb", numSw - 1, 0)) by {
      BitsOfAppend([Range("CTRLb", numSw - 1, 0)], []);
    }
  }

  lemma NoCtrlInBulkEdit(bulkConn: string)
    ensures forall e :: e in BulkEdit(bulkConn) ==> e.pin == "BULK"
  {
  }

  /** The CTRLb pin is removed exactly for PMOS switches or when there is no switch. */
  lemma CtrlbPinRemoved(bulkConn: string, mosType: string, numSw: nat)
    ensures Remove("CTRLb") in PinEdits(bulkConn, mosType, numSw) <==> mosType == "p" || numSw == 0
  {
    NoCtrlInBulkEdit(bulkConn);
  }

  /** The CTRL pin is removed exactly for NMOS switches or when there is no switch. */
  lemma CtrlPinRemoved(bulkConn: string, mosType: string, numSw: nat)
    ensures Remove("CTRL") in PinEdits(bulkConn, mosType, numSw) <==> mosType == "n" || numSw == 0
  {
    NoCtrlInBulkEdit(bulkConn);
  }

  /** With a switch array, each control pin becomes a bus exactly when the switch type uses it. */
  lemma CtrlPinsBussed(bulkConn: string, mosType: string, numSw: nat)
    ensures Rename("CTRL", Render(Range("CTRL", numSw - 1, 0))) in PinEdits(bulkConn, mosType, numSw)
      <==> numSw > 1 && mosType != "n"
    ensures Rename("CTRLb", Render(Range("CTRLb", numSw - 1, 0))) in PinEdits(bulkConn, mosType, numSw)
      <==> numSw > 1 && mosType != "p"
  {
    NoCtrlInBulkEdit(bulkConn);
  }

  /** The BULK pin is removed for a supply, renamed for any other net but BULK itself. */
  lemma BulkPin(bulkConn: string)
    ensures Remove("BULK") in BulkEdit(bulkConn) <==> bulkConn == "VDD" || bulkConn == "VSS"
    ensures BulkEdit(bulkConn) == [] <==> bulkConn == "BULK"
  {
  }
}
