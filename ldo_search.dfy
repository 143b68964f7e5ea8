/** The outer search of the series LDO sizing: sweep the series device's gate
    voltage, size the series device and an amplifier for each point, keep the
    design drawing the least current, and turn the kept design into schematic
    parameters. */
module LdoSearch {
  import opened Outcomes
  import opened LdoSizing
  import opened LdoMetrics
  import opened LdoAmp

  /** The regulator specification: supply, output voltage, load and reference
      currents, the amplifier current budget, the capacitances, the supply
      resistance, the targets, the dominant-pole choice, the sweep resolution
      and the series device type. */
  datatype LdoParams = LdoParams(
    vdd: real, vout: real, iload: real, iref: real, iampMax: real, cload: real, cdecapMax: real,
    rsource: real, targets: Targets, loadPole: bool, vRes: real, serType: string)

  /** The amplifier parameters for gate voltage `vg`: the amplifier's output
      common mode sits at `vg`, its reference input at the regulated output. */
  function AmpParamsFor(lp: LdoParams, vg: real, budget: real, ser: SeriesFet): AmpParams
  {
    AmpParams(lp.vdd, lp.vout, vg, lp.iload, lp.iref, budget, lp.cload, lp.cdecapMax, lp.rsource,
              lp.targets, lp.loadPole, lp.vRes, lp.serType, ser)
  }

  /** The device types: the series device as configured, a p-type load pair,
      n-type input pair, tail and mirror. */
  function TypeDict(serType: string): map<Role, string>
  {
    map[Ser := serType, AmpLoad := "p", AmpIn := "n", AmpTail := "n", AmpMir := "n"]
  }

  /** An accepted design with the pass-through widths, lengths, threshold
      flavours and device types. */
  datatype Candidate = Candidate(design: AmpDesign, w: map<string, real>, l: map<string, real>,
                                 th: map<string, string>, types: map<Role, string>)

  /** The best design so far; `Sentinel` is the initial record with infinite
      current and no devices. */
  datatype Best = Sentinel | Found(c: Candidate)

  /** `op1['ibias'] < op2['ibias']`, the sentinel's current being infinite. */
  predicate Below(op1: Best, op2: Best)
  {
    op1.Found? && (op2.Sentinel? || op1.c.design.ibias < op2.c.design.ibias)
  }

  /** The record with the smaller current, the second on a tie. */
  function OpCompare(op1: Best, op2: Best): (r: Best)
    ensures r == op1 || r == op2
    ensures !Below(op1, r) && !Below(op2, r)
    ensures op1.Found? && op2.Found? && op1.c.design.ibias == op2.c.design.ibias ==> r == op2
    ensures op1.Sentinel? ==> r == op2
  {
    if Below(op1, op2) then op1 else op2
  }

  /** The gate voltages swept: from one threshold above the output up to the
      lower of the supply and one threshold above it. */
  function GateSweep(g: Grids, lp: LdoParams, vthSer: real): seq<real>
  {
    g.arange(lp.vout + vthSer, MinReal(lp.vdd + vthSer, lp.vdd), lp.vRes)
  }

  /** The budget a record leaves for the next amplifier. */
  function BudgetOf(lp: LdoParams, best: Best): real
  {
    if best.Found? then best.c.design.ibias else lp.iampMax
  }

  /** What the search keeps: the accepted designs in order, each within the
      budget and drawing strictly less current than the one before, the
      record being the last of them and the budget its current. */
  predicate SearchOk(lp: LdoParams, accepted: seq<Candidate>, best: Best, budget: real)
  {
    && (best.Sentinel? <==> accepted == [])
    && (accepted == [] ==> budget == lp.iampMax)
    && (accepted != [] ==> best == Found(accepted[|accepted| - 1]) && budget == best.c.design.ibias)
    && budget <= lp.iampMax
    && (forall k :: 0 <= k < |accepted| ==>
          Meets(accepted[k].design, lp.targets, lp.iampMax) && WellSized(accepted[k].design)
          && budget <= accepted[k].design.ibias)
    && (forall j, k :: 0 <= j < k < |accepted| ==> accepted[k].design.ibias < accepted[j].design.ibias)
  }

  /** A design within the current budget becomes the record. */
  lemma AcceptStep(lp: LdoParams, accepted: seq<Candidate>, best: Best, budget: real, cand: Candidate)
    requires SearchOk(lp, accepted, best, budget)
    requires Meets(cand.design, lp.targets, budget) && WellSized(cand.design)
    ensures OpCompare(best, Found(cand)) == Found(cand)
    ensures SearchOk(lp, accepted + [cand], Found(cand), cand.design.ibias)
    ensures PassThrough(accepted, cand.w, cand.l, cand.th, cand.types) ==>
      PassThrough(accepted + [cand], cand.w, cand.l, cand.th, cand.types)
  {
    var acc := accepted + [cand];
    forall j, k | 0 <= j < k < |acc|
      ensures acc[k].design.ibias < acc[j].design.ibias
    {
      if k == |accepted| {
        assert acc[j] == accepted[j];
      } else {
        assert acc[j] == accepted[j] && acc[k] == accepted[k];
      }
    }
    forall k | 0 <= k < |acc|
      ensures Meets(acc[k].design, lp.targets, lp.iampMax) && WellSized(acc[k].design)
      ensures cand.design.ibias <= acc[k].design.ibias
    {
      if k < |accepted| {
        assert acc[k] == accepted[k];
      }
    }
  }

  /** Every accepted candidate carries the given lengths, widths, flavours and types. */
  predicate PassThrough(accepted: seq<Candidate>, w: map<string, real>, l: map<string, real>,
                        th: map<string, string>, types: map<Role, string>)
  {
    forall k :: 0 <= k < |accepted| ==>
      accepted[k].w == w && accepted[k].l == l && accepted[k].th == th && accepted[k].types == types
  }

  /** What a finished search promises about its record. */
  lemma SearchResult(lp: LdoParams, accepted: seq<Candidate>, best: Best, w: map<string, real>,
                     l: map<string, real>, th: map<string, string>, types: map<Role, string>)
    requires SearchOk(lp, accepted, best, BudgetOf(lp, best))
    requires PassThrough(accepted, w, l, th, types)
    ensures best.Found? ==>
      && Meets(best.c.design, lp.targets, lp.iampMax) && WellSized(best.c.design)
      && best.c.w == w && best.c.l == l && best.c.th == th && best.c.types == types
    ensures best.Found? ==> forall k :: 0 <= k < |accepted| ==> best.c.design.ibias <= accepted[k].design.ibias
  {
    if best.Found? {
      assert best.c == accepted[|accepted| - 1];
    }
  }

  /** One point of the sweep: the series device sized for gate voltage `vg`
      and, when it matches the load, an amplifier designed within `budget`.
      `None` when the series device does not match or the amplifier does not
      report every target met. */
  function PointOutcome(t: Tables, g: Grids, ev: Evaluator, lp: LdoParams, vg: real, budget: real): (r: Result<Option<AmpDesign>>)
    ensures DsnFet(t.ser, lp.serType, lp.vdd, lp.vout, vg, lp.iload).Err? ==> r == Err(ZeroDivision)
    ensures r.Ok? && r.value.Some? ==> Meets(r.value.value, lp.targets, budget) && WellSized(r.value.value)
  {
    var fet := DsnFet(t.ser, lp.serType, lp.vdd, lp.vout, vg, lp.iload);
    if fet.Err? then Err(fet.fault)
    else if !fet.value.matched then Ok(None)
    else
      var amp := AmpDesignOf(t, g, ev, AmpParamsFor(lp, vg, budget, fet.value));
      if amp.Err? then Err(amp.fault)
      else if amp.value.Sized? && amp.value.met then Ok(Some(amp.value.design))
      else Ok(None)
  }

  /** One point of the sweep, designing the amplifier with its loops. */
  method DesignAt(t: Tables, g: Grids, ev: Evaluator, lp: LdoParams, vg: real, budget: real)
    returns (r: Result<Option<AmpDesign>>)
    ensures r == PointOutcome(t, g, ev, lp, vg, budget)
    ensures var fet := DsnFet(t.ser, lp.serType, lp.vdd, lp.vout, vg, lp.iload);
      (r.Ok? && r.value.Some?) <==>
        && fet.Ok? && fet.value.matched
        && AmpDesignOf(t, g, ev, AmpParamsFor(lp, vg, budget, fet.value)).Ok?
        && AmpDesignOf(t, g, ev, AmpParamsFor(lp, vg, budget, fet.value)).value.Sized?
        && AmpDesignOf(t, g, ev, AmpParamsFor(lp, vg, budget, fet.value)).value.met
  {
    var fet := DsnFet(t.ser, lp.serType, lp.vdd, lp.vout, vg, lp.iload);
    if fet.Err? {
      return Err(fet.fault);
    }
    if !fet.value.matched {
      return Ok(None);
    }
    var amp := DsnAmp(t, g, ev, AmpParamsFor(lp, vg, budget, fet.value));
    if amp.Err? {
      return Err(amp.fault);
    }
    if !(amp.value.Sized? && amp.value.met) {
      return Ok(None);
    }
    r := Ok(Some(amp.value.design));
  }

  /** The outcome of every point, as a function of gate voltage and budget. */
  function PointOutcomes(t: Tables, g: Grids, ev: Evaluator, lp: LdoParams): (real, real) -> Result<Option<AmpDesign>>
  {
    (vg, budget) => PointOutcome(t, g, ev, lp, vg, budget)
  }

  /** Every design an outcome function returns meets the targets within the
      budget it was given and is well sized. */
  ghost predicate Sound(lp: LdoParams, outcome: (real, real) -> Result<Option<AmpDesign>>)
  {
    forall vg, budget :: outcome(vg, budget).Ok? && outcome(vg, budget).value.Some? ==>
      Meets(outcome(vg, budget).value.value, lp.targets, budget) && WellSized(outcome(vg, budget).value.value)
  }

  lemma PointOutcomesSound(t: Tables, g: Grids, ev: Evaluator, lp: LdoParams)
    ensures Sound(lp, PointOutcomes(t, g, ev, lp))
  {
    forall vg, budget
      ensures var o := PointOutcomes(t, g, ev, lp)(vg, budget);
        o.Ok? && o.value.Some? ==> Meets(o.value.value, lp.targets, budget) && WellSized(o.value.value)
    {
      assert PointOutcomes(t, g, ev, lp)(vg, budget) == PointOutcome(t, g, ev, lp, vg, budget);
    }
  }

  /** The record and the designs accepted so far, in order. */
  datatype SearchState = SearchState(best: Best, accepted: seq<Candidate>)

  /** One pass of the sweep at gate voltage `vg`: a design within the budget
      the record leaves is compared with the record and appended to the
      accepted designs; any other outcome leaves the state as it was. */
  function StepAt(outcome: (real, real) -> Result<Option<AmpDesign>>, lp: LdoParams, w: map<string, real>,
                  l: map<string, real>, th: map<string, string>, st: SearchState, vg: real): Result<SearchState>
  {
    var point := outcome(vg, BudgetOf(lp, st.best));
    if point.Err? then Err(point.fault)
    else if point.value.None? then Ok(st)
    else
      var cand := Candidate(point.value.value, w, l, th, TypeDict(lp.serType));
      Ok(SearchState(OpCompare(st.best, Found(cand)), st.accepted + [cand]))
  }

  /** The sweep over the gate voltages `vgs`, in order, from the sentinel
      record. */
  function Search(outcome: (real, real) -> Result<Option<AmpDesign>>, lp: LdoParams, w: map<string, real>,
                  l: map<string, real>, th: map<string, string>, vgs: seq<real>): Result<SearchState>
    decreases |vgs|
  {
    if vgs == [] then Ok(SearchState(Sentinel, []))
    else
      var prev := Search(outcome, lp, w, l, th, vgs[..|vgs| - 1]);
      if prev.Err? then Err(prev.fault)
      else StepAt(outcome, lp, w, l, th, prev.value, vgs[|vgs| - 1])
  }

  /** Extending the sweep by one point is one more pass. */
  lemma SearchSnoc(outcome: (real, real) -> Result<Option<AmpDesign>>, lp: LdoParams, w: map<string, real>,
                   l: map<string, real>, th: map<string, string>, vgs: seq<real>, vg: real)
    ensures var prev := Search(outcome, lp, w, l, th, vgs);
      Search(outcome, lp, w, l, th, vgs + [vg]) ==
        (if prev.Err? then Err(prev.fault) else StepAt(outcome, lp, w, l, th, prev.value, vg))
  {
    assert (vgs + [vg])[..|vgs + [vg]| - 1] == vgs;
  }

  /** A pass replaces the record exactly when its point gives a design, and
      then the design draws less than the old budget, becomes the record and
      is appended to the history; otherwise nothing changes. */
  lemma StepReplaces(outcome: (real, real) -> Result<Option<AmpDesign>>, lp: LdoParams, w: map<string, real>,
                     l: map<string, real>, th: map<string, string>, st: SearchState, vg: real)
    requires Sound(lp, outcome)
    ensures var r := StepAt(outcome, lp, w, l, th, st, vg);
      r.Ok? ==> (r.value.best != st.best <==> outcome(vg, BudgetOf(lp, st.best)).value.Some?)
    ensures var r := StepAt(outcome, lp, w, l, th, st, vg);
      r.Ok? && r.value.best != st.best ==>
        && r.value.best.Found? && r.value.best.c.design.ibias < BudgetOf(lp, st.best)
        && r.value.best.c.design == outcome(vg, BudgetOf(lp, st.best)).value.value
        && r.value.accepted == st.accepted + [r.value.best.c]
    ensures var r := StepAt(outcome, lp, w, l, th, st, vg);
      r.Ok? && r.value.best == st.best ==> r.value == st
  {
    var point := outcome(vg, BudgetOf(lp, st.best));
    if point.Ok? && point.value.Some? {
      var cand := Candidate(point.value.value, w, l, th, TypeDict(lp.serType));
      assert Meets(cand.design, lp.targets, BudgetOf(lp, st.best));
      assert !Below(st.best, Found(cand));
    }
  }

  /** A pass keeps the search invariant and the pass-through dictionaries,
      and accepts at most one design. */
  lemma StepKeeps(outcome: (real, real) -> Result<Option<AmpDesign>>, lp: LdoParams, w: map<string, real>,
                  l: map<string, real>, th: map<string, string>, st: SearchState, vg: real)
    requires Sound(lp, outcome)
    requires SearchOk(lp, st.accepted, st.best, BudgetOf(lp, st.best))
    requires PassThrough(st.accepted, w, l, th, TypeDict(lp.serType))
    ensures var r := StepAt(outcome, lp, w, l, th, st, vg);
      r.Ok? ==> SearchOk(lp, r.value.accepted, r.value.best, BudgetOf(lp, r.value.best))
                && PassThrough(r.value.accepted, w, l, th, TypeDict(lp.serType))
                && |r.value.accepted| <= |st.accepted| + 1
  {
    var point := outcome(vg, BudgetOf(lp, st.best));
    if point.Ok? && point.value.Some? {
      var cand := Candidate(point.value.value, w, l, th, TypeDict(lp.serType));
      AcceptStep(lp, st.accepted, st.best, BudgetOf(lp, st.best), cand);
    }
  }

  /** Every state the sweep reaches is one the search keeps: the accepted
      designs meet every target, each draws strictly less than the one before,
      the record is the last of them, and all carry the given pass-through
      dictionaries. */
  lemma {:induction false} SearchKeeps(outcome: (real, real) -> Result<Option<AmpDesign>>, lp: LdoParams,
                                       w: map<string, real>, l: map<string, real>, th: map<string, string>, vgs: seq<real>)
    requires Sound(lp, outcome)
    ensures var r := Search(outcome, lp, w, l, th, vgs);
      r.Ok? ==> SearchOk(lp, r.value.accepted, r.value.best, BudgetOf(lp, r.value.best))
                && PassThrough(r.value.accepted, w, l, th, TypeDict(lp.serType))
                && |r.value.accepted| <= |vgs|
    decreases |vgs|
  {
    if vgs != [] {
      var init, vg := vgs[..|vgs| - 1], vgs[|vgs| - 1];
      SearchKeeps(outcome, lp, w, l, th, init);
      assert vgs == init + [vg];
      SearchSnoc(outcome, lp, w, l, th, init, vg);
      var prev := Search(outcome, lp, w, l, th, init);
      if prev.Ok? {
        StepKeeps(outcome, lp, w, l, th, prev.value, vg);
      }
    }
  }

  /** A fault ends the sweep: no later point is tried. */
  lemma {:induction false} SearchFails(outcome: (real, real) -> Result<Option<AmpDesign>>, lp: LdoParams,
                                       w: map<string, real>, l: map<string, real>, th: map<string, string>,
                                       vgs: seq<real>, rest: seq<real>)
    requires Search(outcome, lp, w, l, th, vgs).Err?
    ensures Search(outcome, lp, w, l, th, vgs + rest) == Search(outcome, lp, w, l, th, vgs)
    decreases |rest|
  {
    if rest != [] {
      var n := |rest| - 1;
      SearchFails(outcome, lp, w, l, th, vgs, rest[..n]);
      assert vgs + rest == (vgs + rest[..n]) + [rest[n]];
      SearchSnoc(outcome, lp, w, l, th, vgs + rest[..n], rest[n]);
    } else {
      assert vgs + rest == vgs;
    }
  }

  /** The record of the whole sweep as the one-element list the search
      returns. */
  function MeetSpecOf(t: Tables, g: Grids, ev: Evaluator, lp: LdoParams, vthSer: real,
                      w: map<string, real>, l: map<string, real>, th: map<string, string>): Result<seq<Best>>
  {
    var r := Search(PointOutcomes(t, g, ev, lp), lp, w, l, th, GateSweep(g, lp, vthSer));
    if r.Err? then Err(r.fault) else Ok([r.value.best])
  }

  /** Sweeps the series gate voltage. At each point the series device is
      sized; when it matches the load, an amplifier is designed within the
      current budget, and a design that meets every target becomes the record
      and its current the new budget. The result is the one-element list
      holding the record; `accepted` is the history of accepted designs. */
  method MeetSpec(t: Tables, g: Grids, ev: Evaluator, lp: LdoParams, vthSer: real,
                  w: map<string, real>, l: map<string, real>, th: map<string, string>)
    returns (r: Result<seq<Best>>, ghost accepted: seq<Candidate>)
    ensures r == MeetSpecOf(t, g, ev, lp, vthSer, w, l, th)
    ensures r.Ok? ==> accepted == Search(PointOutcomes(t, g, ev, lp), lp, w, l, th, GateSweep(g, lp, vthSer)).value.accepted
    ensures r.Ok? ==> |r.value| == 1 && SearchOk(lp, accepted, r.value[0], BudgetOf(lp, r.value[0]))
    ensures r.Ok? && r.value[0].Found? ==>
      && Meets(r.value[0].c.design, lp.targets, lp.iampMax)
      && WellSized(r.value[0].c.design)
      && r.value[0].c.w == w && r.value[0].c.l == l && r.value[0].c.th == th && r.value[0].c.types == TypeDict(lp.serType)
    ensures r.Ok? && r.value[0].Found? ==> forall k :: 0 <= k < |accepted| ==> r.value[0].c.design.ibias <= accepted[k].design.ibias
  {
    var outcome := PointOutcomes(t, g, ev, lp);
    var grid := GateSweep(g, lp, vthSer);
    var best := Sentinel;
    accepted := [];
    var i := 0;
    while i < |grid|
      invariant 0 <= i <= |grid|
      invariant Search(outcome, lp, w, l, th, grid[..i]) == Ok(SearchState(best, accepted))
    {
      var vg := grid[i];
      assert grid[..i + 1] == grid[..i] + [vg];
      SearchSnoc(outcome, lp, w, l, th, grid[..i], vg);
      i := i + 1;
      var step;
      step, accepted := Consider(t, g, ev, lp, vg, w, l, th, best, accepted);
      if step.Err? {
        assert grid[..i] + grid[i..] == grid;
        SearchFails(outcome, lp, w, l, th, grid[..i], grid[i..]);
        return Err(step.fault), accepted;
      }
      best := step.value;
    }
    assert grid[..|grid|] == grid;
    MeetSpecResult(t, g, ev, lp, vthSer, w, l, th);
    r := Ok([best]);
  }

  /** What the sweep promises about its record and its history. */
  lemma MeetSpecResult(t: Tables, g: Grids, ev: Evaluator, lp: LdoParams, vthSer: real,
                       w: map<string, real>, l: map<string, real>, th: map<string, string>)
    ensures var r := Search(PointOutcomes(t, g, ev, lp), lp, w, l, th, GateSweep(g, lp, vthSer));
      r.Ok? ==> SearchOk(lp, r.value.accepted, r.value.best, BudgetOf(lp, r.value.best))
    ensures var r := Search(PointOutcomes(t, g, ev, lp), lp, w, l, th, GateSweep(g, lp, vthSer));
      r.Ok? && r.value.best.Found? ==>
        && Meets(r.value.best.c.design, lp.targets, lp.iampMax) && WellSized(r.value.best.c.design)
        && r.value.best.c.w == w && r.value.best.c.l == l && r.value.best.c.th == th
        && r.value.best.c.types == TypeDict(lp.serType)
        && forall k :: 0 <= k < |r.value.accepted| ==> r.value.best.c.design.ibias <= r.value.accepted[k].design.ibias
  {
    var r := Search(PointOutcomes(t, g, ev, lp), lp, w, l, th, GateSweep(g, lp, vthSer));
    PointOutcomesSound(t, g, ev, lp);
    SearchKeeps(PointOutcomes(t, g, ev, lp), lp, w, l, th, GateSweep(g, lp, vthSer));
    if r.Ok? {
      SearchResult(lp, r.value.accepted, r.value.best, w, l, th, TypeDict(lp.serType));
    }
  }

  /** One pass of the sweep, with the amplifier designed by its loops. */
  method Consider(t: Tables, g: Grids, ev: Evaluator, lp: LdoParams, vg: real,
                  w: map<string, real>, l: map<string, real>, th: map<string, string>,
                  best: Best, ghost accepted: seq<Candidate>)
    returns (r: Result<Best>, ghost after: seq<Candidate>)
    ensures var step := StepAt(PointOutcomes(t, g, ev, lp), lp, w, l, th, SearchState(best, accepted), vg);
      (r.Ok? <==> step.Ok?) && (r.Ok? ==> step.value == SearchState(r.value, after)) && (r.Err? ==> r.fault == step.fault)
    ensures r.Ok? ==> (r.value != best <==> PointOutcomes(t, g, ev, lp)(vg, BudgetOf(lp, best)).value.Some?)
    ensures r.Ok? && r.value != best ==> r.value.Found? && r.value.c.design.ibias < BudgetOf(lp, best)
  {
    PointOutcomesSound(t, g, ev, lp);
    StepReplaces(PointOutcomes(t, g, ev, lp), lp, w, l, th, SearchState(best, accepted), vg);
    var budget := BudgetOf(lp, best);
    var point := DesignAt(t, g, ev, lp, vg, budget);
    assert point == PointOutcomes(t, g, ev, lp)(vg, budget);
    if point.Err? {
      return Err(point.fault), accepted;
    }
    if point.value.None? {
      return Ok(best), accepted;
    }
    var cand := Candidate(point.value.value, w, l, th, TypeDict(lp.serType));
    r := Ok(OpCompare(best, Found(cand)));
    after := accepted + [cand];
  }

  /** The dictionary key naming a role. */
  function RoleOf(key: string): (r: Option<Role>)
    ensures r.Some? ==> key == RoleName(r.value)
  {
    if key == "amp_in" then Some(AmpIn)
    else if key == "amp_tail" then Some(AmpTail)
    else if key == "amp_load" then Some(AmpLoad)
    else if key == "amp_mir" then Some(AmpMir)
    else if key == "ser" then Some(Ser)
    else None
  }

  function RoleName(r: Role): string
  {
    match r
    case AmpIn => "amp_in"
    case AmpTail => "amp_tail"
    case AmpLoad => "amp_load"
    case AmpMir => "amp_mir"
    case Ser => "ser"
  }

  /** Every role's name reads back as that role. */
  lemma RoleNameRoundTrip(r: Role)
    ensures RoleOf(RoleName(r)) == Some(r)
  {
  }

  /** Each unit width times the multiplier of the device its key names. */
  function ScaledWidths(d: Devices, w: map<string, real>): (r: map<string, real>)
    requires WidthsNamed(w)
    ensures r.Keys == w.Keys
  {
    map k | k in w :: At(d, RoleOf(k).value).wm * w[k]
  }

  /** The scaled width of one key. */
  lemma ScaledAt(d: Devices, w: map<string, real>, k: string)
    requires WidthsNamed(w) && k in w
    ensures ScaledWidths(d, w)[k] == At(d, RoleOf(k).value).wm * w[k]
  {
    var role := RoleOf(k).value;
    var scaled := ScaledWidths(d, w);
    assert scaled[k] == At(d, role).wm * w[k];
  }

  /** The finger counts by role. */
  function NfDict(d: Devices): map<Role, int>
  {
    map[AmpIn := d.ampIn.nf, AmpTail := d.ampTail.nf, AmpLoad := d.ampLoad.nf, AmpMir := d.ampMir.nf, Ser := d.ser.nf]
  }

  /** Every role has its device's finger count. */
  lemma NfDictAt(d: Devices, role: Role)
    ensures role in NfDict(d) && NfDict(d)[role] == At(d, role).nf
  {
    match role
    case AmpIn =>
    case AmpTail =>
    case AmpLoad =>
    case AmpMir =>
    case Ser =>
  }

  /** The schematic parameters, or the message that no solution was found. */
  datatype SchParams =
    | NoSolution
    | Params(w: map<string, real>, l: map<string, real>, nf: map<Role, int>, th: map<string, string>,
             types: map<Role, string>, cdecapAmp: real, cdecapLoad: real)

  /** Every width key names a device whose multiplier is recorded. */
  predicate WidthsNamed(w: map<string, real>)
  {
    forall k :: k in w ==> RoleOf(k).Some?
  }

  /** The schematic parameters of a record: each unit width times its
      device's multiplier, and the lengths, finger counts, flavours, types and
      capacitors as recorded. A record without devices, or a width for a name
      that is not a device, gives no solution. */
  function GetSchParams(best: Best): (r: SchParams)
    ensures r.NoSolution? <==> best.Sentinel? || !WidthsNamed(best.c.w)
    ensures r.Params? ==>
      && r.w == ScaledWidths(best.c.design.devices, best.c.w)
      && r.l == best.c.l && r.th == best.c.th && r.types == best.c.types
      && r.nf == NfDict(best.c.design.devices)
      && r.cdecapAmp == best.c.design.cdecapAmp && r.cdecapLoad == best.c.design.cdecapLoad
  {
    if best.Sentinel? || !WidthsNamed(best.c.w) then NoSolution
    else
      var d := best.c.design.devices;
      Params(ScaledWidths(d, best.c.w),
             best.c.l,
             NfDict(d),
             best.c.th, best.c.types, best.c.design.cdecapAmp, best.c.design.cdecapLoad)
  }
}
