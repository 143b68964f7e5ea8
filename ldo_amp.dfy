/** The amplifier designer of the series LDO sizing search: two bias-point
    sweeps, the finger/multiplier sizing of the mirror, tail, load and input
    devices, and the three-way acceptance policy (accept as sized, add
    decoupling capacitance between the amplifier output and the regulated
    node, or grow the tail current with the full decoupling capacitance on the
    load). */
module LdoAmp {
  import opened Outcomes
  import opened LdoSizing
  import opened LdoMetrics

  /** A characterisation table queried at (vgs, vds, vbs). */
  type Query = (real, real, real) -> OpPoint

  /** One table per device role. */
  datatype Tables = Tables(ser: Query, ampLoad: Query, ampIn: Query, ampTail: Query, ampMir: Query)

  /** The float grids: `np.arange(start, stop, step)`, and `np.logspace`
      between two values with a given number of points. */
  datatype Grids = Grids(arange: (real, real, real) -> seq<real>, geomspace: (real, real, nat) -> seq<real>)

  /** Minimum phase margin, PSRR and PSRR bandwidth; maximum load regulation
      and static error. */
  datatype Targets = Targets(pmMin: real, psrrMin: real, fbwMin: real, loadregMax: real, errMax: real)

  /** The parameters of one amplifier design: supply, input (reference) and
      output common-mode voltages, load and reference currents, the current
      budget, the capacitances, the supply resistance, the targets, whether the
      dominant pole must sit at the regulated output, the sweep resolution,
      and the sized series device. */
  datatype AmpParams = AmpParams(
    vdd: real, vincm: real, voutcm: real, iload: real, iref: real, iampMax: real,
    cload: real, cdecapMax: real, rsource: real, targets: Targets, loadPole: bool,
    vRes: real, serType: string, ser: SeriesFet)

  function MinReal(a: real, b: real): real { if a < b then a else b }

  function Sq(x: real): real { x * x }

  function LoadOp(t: Tables, p: AmpParams): OpPoint
  {
    t.ampLoad(-(p.vdd - p.voutcm), -(p.vdd - p.voutcm), 0.0)
  }

  function InputOp(t: Tables, p: AmpParams, vtail: real): OpPoint
  {
    t.ampIn(p.vincm - vtail, p.voutcm - vtail, -vtail)
  }

  function TailOp(t: Tables, vtail: real, vgtail: real): OpPoint
  {
    t.ampTail(vgtail, vtail, 0.0)
  }

  function MirrorOp(t: Tables, vgtail: real): OpPoint
  {
    t.ampMir(vgtail, vgtail, 0.0)
  }

  function TailGrid(g: Grids, p: AmpParams): seq<real>
  {
    g.arange(0.0, MinReal(p.voutcm, p.vincm), p.vRes)
  }

  function GateGrid(g: Grids, p: AmpParams): seq<real>
  {
    g.arange(0.0, p.vdd, p.vRes)
  }

  /** `np.logspace(log10(cdecap_min), log10(cdecap_max), 100)`, starting from
      the series device's total gate capacitance. */
  function DecapGrid(g: Grids, p: AmpParams): seq<real>
  {
    g.geomspace(p.ser.op["cgg"] * p.ser.nf as real, p.cdecapMax, 100)
  }

  /** Overdrive mismatch of the input pair at tail voltage `v` to the load pair. */
  function InputMismatch(t: Tables, p: AmpParams, vstarLoad: real, v: real): real
  {
    Abs(vstarLoad - InputOp(t, p, v)["vstar"])
  }

  /** Squared overdrive mismatch of the tail at gate voltage `v` to the load
      and input pairs. */
  function TailMismatch(t: Tables, vtail: real, vstarLoad: real, vstarIn: real, v: real): real
  {
    Sq(Abs(vstarLoad - TailOp(t, vtail, v)["vstar"])) + Sq(Abs(vstarIn - TailOp(t, vtail, v)["vstar"]))
  }

  predicate InputAdmitted(t: Tables, p: AmpParams, grid: seq<real>)
  {
    exists k :: 0 <= k < |grid| && InputOp(t, p, grid[k])["ibias"] > 0.0
  }

  predicate TailAdmitted(t: Tables, vtail: real, grid: seq<real>)
  {
    exists k :: 0 <= k < |grid| && TailOp(t, vtail, grid[k])["ibias"] > 0.0
  }

  /** The index a bias sweep keeps after its first `i` points: a point
      replaces the kept one only when it carries positive current and its cost
      is strictly below the kept one's, the first admitted point replacing the
      initial infinite cost. */
  function ArgminUpTo(points: seq<real>, cost: real -> real, admit: real -> bool, i: nat): (r: Option<nat>)
    requires i <= |points|
    ensures r.Some? ==> r.value < i
  {
    if i == 0 then None
    else
      var prev := ArgminUpTo(points, cost, admit, i - 1);
      if admit(points[i - 1]) && (prev.None? || cost(points[prev.value]) > cost(points[i - 1])) then Some(i - 1)
      else prev
  }

  /** Point `at` is admitted, costs no more than any admitted point among the
      first `i`, and strictly less than every admitted point before it: the
      first of several equal minima. */
  predicate FirstMinimum(points: seq<real>, cost: real -> real, admit: real -> bool, i: nat, at: nat)
    requires i <= |points|
  {
    && at < i && admit(points[at])
    && (forall k :: 0 <= k < i && admit(points[k]) ==> cost(points[at]) <= cost(points[k]))
    && (forall k :: 0 <= k < at && admit(points[k]) ==> cost(points[at]) < cost(points[k]))
  }

  /** A sweep keeps a point exactly when one is admitted, and the point it
      keeps is the first minimum. */
  lemma {:induction false} ArgminIsFirstMinimum(points: seq<real>, cost: real -> real, admit: real -> bool, i: nat)
    requires i <= |points|
    ensures ArgminUpTo(points, cost, admit, i).Some? <==> exists k :: 0 <= k < i && admit(points[k])
    ensures ArgminUpTo(points, cost, admit, i).Some? ==> FirstMinimum(points, cost, admit, i, ArgminUpTo(points, cost, admit, i).value)
  {
    if i > 0 {
      ArgminIsFirstMinimum(points, cost, admit, i - 1);
    }
  }

  /** A bias sweep: the loop that keeps the running minimum. */
  method FirstArgmin(points: seq<real>, cost: real -> real, admit: real -> bool) returns (found: bool, at: nat)
    ensures (if found then Some(at) else None) == ArgminUpTo(points, cost, admit, |points|)
    ensures found <==> exists k :: 0 <= k < |points| && admit(points[k])
    ensures found ==> FirstMinimum(points, cost, admit, |points|, at)
  {
    found, at := false, 0;
    var best := 0.0;
    var i := 0;
    while i < |points|
      invariant 0 <= i <= |points|
      invariant (if found then Some(at) else None) == ArgminUpTo(points, cost, admit, i)
      invariant found ==> at < i && best == cost(points[at])
    {
      var c := cost(points[i]);
      if (!found || best > c) && admit(points[i]) {
        found, at, best := true, i, c;
      }
      i := i + 1;
    }
    ArgminIsFirstMinimum(points, cost, admit, |points|);
  }

  /** The costs and admission tests of the two sweeps. */
  function InputCost(t: Tables, p: AmpParams, vstarLoad: real): real -> real
  {
    v => InputMismatch(t, p, vstarLoad, v)
  }

  function InputAdmit(t: Tables, p: AmpParams): real -> bool
  {
    v => InputOp(t, p, v)["ibias"] > 0.0
  }

  function TailCost(t: Tables, vtail: real, vstarLoad: real, vstarIn: real): real -> real
  {
    v => TailMismatch(t, vtail, vstarLoad, vstarIn, v)
  }

  function TailAdmit(t: Tables, vtail: real): real -> bool
  {
    v => TailOp(t, vtail, v)["ibias"] > 0.0
  }

  /** The chosen bias: the load pair's operating point, the tail voltage and
      the input pair's operating point there, the tail gate voltage and the
      tail's operating point there. An absent operating point is the empty
      dictionary the source keeps when no sweep point qualifies. */
  datatype BiasChoice = BiasChoice(opLoad: OpPoint, vtail: real, opIn: Option<OpPoint>, vgtail: real, opTail: Option<OpPoint>)

  /** What the input-pair sweep promises: an operating point exactly when
      some grid point carries positive current, the tail voltage then being
      the first grid point of least input mismatch among those, and 0 V
      otherwise. */
  predicate InputChoiceOk(t: Tables, p: AmpParams, tailGrid: seq<real>, vstarLoad: real, vtail: real, opIn: Option<OpPoint>)
  {
    && (opIn.Some? <==> InputAdmitted(t, p, tailGrid))
    && (opIn.None? ==> vtail == 0.0)
    && (opIn.Some? ==>
          && opIn.value == InputOp(t, p, vtail)
          && opIn.value["ibias"] > 0.0
          && exists at :: 0 <= at < |tailGrid| && FirstMinimum(tailGrid, InputCost(t, p, vstarLoad), InputAdmit(t, p), |tailGrid|, at)
                          && tailGrid[at] == vtail)
  }

  /** What the tail sweep promises: an operating point exactly when some gate
      voltage gives the tail positive current, the gate voltage then being the
      first grid point of least tail mismatch among those, and 0 V otherwise. */
  predicate TailChoiceOk(t: Tables, gateGrid: seq<real>, vtail: real, vstarLoad: real, vstarIn: real,
                         vgtail: real, opTail: Option<OpPoint>)
  {
    && (opTail.Some? <==> TailAdmitted(t, vtail, gateGrid))
    && (opTail.None? ==> vgtail == 0.0)
    && (opTail.Some? ==>
          && opTail.value == TailOp(t, vtail, vgtail)
          && opTail.value["ibias"] > 0.0
          && exists at :: 0 <= at < |gateGrid| && FirstMinimum(gateGrid, TailCost(t, vtail, vstarLoad, vstarIn), TailAdmit(t, vtail), |gateGrid|, at)
                          && gateGrid[at] == vgtail)
  }

  /** What the two sweeps promise together; the tail sweep only ever
      succeeds after the input sweep did. */
  predicate ChoiceOk(t: Tables, g: Grids, p: AmpParams, b: BiasChoice)
  {
    && b.opLoad == LoadOp(t, p)
    && InputChoiceOk(t, p, TailGrid(g, p), b.opLoad["vstar"], b.vtail, b.opIn)
    && (b.opTail.Some? ==> b.opIn.Some?)
    && TailChoiceOk(t, GateGrid(g, p), b.vtail, b.opLoad["vstar"],
                    if b.opIn.Some? then b.opIn.value["vstar"] else 0.0, b.vgtail, b.opTail)
  }

  /** The tail voltage and input operating point the input sweep keeps. */
  function InputSweep(t: Tables, p: AmpParams, tailGrid: seq<real>, vstarLoad: real): (real, Option<OpPoint>)
  {
    var at := ArgminUpTo(tailGrid, InputCost(t, p, vstarLoad), InputAdmit(t, p), |tailGrid|);
    if at.Some? then (tailGrid[at.value], Some(InputOp(t, p, tailGrid[at.value]))) else (0.0, None)
  }

  lemma InputSweepChoice(t: Tables, p: AmpParams, tailGrid: seq<real>, vstarLoad: real)
    ensures InputChoiceOk(t, p, tailGrid, vstarLoad, InputSweep(t, p, tailGrid, vstarLoad).0, InputSweep(t, p, tailGrid, vstarLoad).1)
  {
    var cost, admit := InputCost(t, p, vstarLoad), InputAdmit(t, p);
    ArgminIsFirstMinimum(tailGrid, cost, admit, |tailGrid|);
    var at := ArgminUpTo(tailGrid, cost, admit, |tailGrid|);
    assert at.Some? <==> InputAdmitted(t, p, tailGrid) by {
      assert forall k :: 0 <= k < |tailGrid| ==> (admit(tailGrid[k]) <==> InputOp(t, p, tailGrid[k])["ibias"] > 0.0);
    }
    if at.Some? {
      assert FirstMinimum(tailGrid, cost, admit, |tailGrid|, at.value);
    }
  }

  /** The gate voltage and tail operating point the tail sweep keeps. */
  function TailSweep(t: Tables, gateGrid: seq<real>, vtail: real, vstarLoad: real, vstarIn: real): (real, Option<OpPoint>)
  {
    var at := ArgminUpTo(gateGrid, TailCost(t, vtail, vstarLoad, vstarIn), TailAdmit(t, vtail), |gateGrid|);
    if at.Some? then (gateGrid[at.value], Some(TailOp(t, vtail, gateGrid[at.value]))) else (0.0, None)
  }

  lemma TailSweepChoice(t: Tables, gateGrid: seq<real>, vtail: real, vstarLoad: real, vstarIn: real)
    ensures TailChoiceOk(t, gateGrid, vtail, vstarLoad, vstarIn,
                         TailSweep(t, gateGrid, vtail, vstarLoad, vstarIn).0, TailSweep(t, gateGrid, vtail, vstarLoad, vstarIn).1)
  {
    var cost, admit := TailCost(t, vtail, vstarLoad, vstarIn), TailAdmit(t, vtail);
    ArgminIsFirstMinimum(gateGrid, cost, admit, |gateGrid|);
    var at := ArgminUpTo(gateGrid, cost, admit, |gateGrid|);
    assert at.Some? <==> TailAdmitted(t, vtail, gateGrid) by {
      assert forall k :: 0 <= k < |gateGrid| ==> (admit(gateGrid[k]) <==> TailOp(t, vtail, gateGrid[k])["ibias"] > 0.0);
    }
    if at.Some? {
      assert FirstMinimum(gateGrid, cost, admit, |gateGrid|, at.value);
    }
  }

  /** The sweep of the tail voltage for the input pair's operating point. */
  method SweepInput(t: Tables, p: AmpParams, tailGrid: seq<real>, vstarLoad: real) returns (vtail: real, opIn: Option<OpPoint>)
    ensures (vtail, opIn) == InputSweep(t, p, tailGrid, vstarLoad)
    ensures InputChoiceOk(t, p, tailGrid, vstarLoad, vtail, opIn)
  {
    var found, at := FirstArgmin(tailGrid, InputCost(t, p, vstarLoad), InputAdmit(t, p));
    vtail := if found then tailGrid[at] else 0.0;
    opIn := if found then Some(InputOp(t, p, vtail)) else None;
    InputSweepChoice(t, p, tailGrid, vstarLoad);
  }

  /** The sweep of the tail gate voltage for the tail's operating point. */
  method SweepTail(t: Tables, gateGrid: seq<real>, vtail: real, vstarLoad: real, vstarIn: real)
    returns (vgtail: real, opTail: Option<OpPoint>)
    ensures (vgtail, opTail) == TailSweep(t, gateGrid, vtail, vstarLoad, vstarIn)
    ensures TailChoiceOk(t, gateGrid, vtail, vstarLoad, vstarIn, vgtail, opTail)
  {
    var found, at := FirstArgmin(gateGrid, TailCost(t, vtail, vstarLoad, vstarIn), TailAdmit(t, vtail));
    vgtail := if found then gateGrid[at] else 0.0;
    opTail := if found then Some(TailOp(t, vtail, vgtail)) else None;
    TailSweepChoice(t, gateGrid, vtail, vstarLoad, vstarIn);
  }

  /** The two bias sweeps. The second reads the input pair's overdrive, which
      is unbound when the first found nothing and the second has a point to
      try. */
  function BiasOf(t: Tables, g: Grids, p: AmpParams): (r: Result<BiasChoice>)
    ensures r.Err? <==> !InputAdmitted(t, p, TailGrid(g, p)) && |GateGrid(g, p)| > 0
    ensures r.Err? ==> r.fault == UnboundName("Vstar_in")
    ensures r.Ok? ==> ChoiceOk(t, g, p, r.value)
  {
    var opLoad := LoadOp(t, p);
    var tailGrid := TailGrid(g, p);
    var gateGrid := GateGrid(g, p);
    InputSweepChoice(t, p, tailGrid, opLoad["vstar"]);
    var (vtail, opIn) := InputSweep(t, p, tailGrid, opLoad["vstar"]);
    if opIn.None? && |gateGrid| > 0 then Err(UnboundName("Vstar_in"))
    else
      var vstarIn := if opIn.Some? then opIn.value["vstar"] else 0.0;
      TailSweepChoice(t, gateGrid, vtail, opLoad["vstar"], vstarIn);
      var (vgtail, opTail) := TailSweep(t, gateGrid, vtail, opLoad["vstar"], vstarIn);
      Ok(BiasChoice(opLoad, vtail, opIn, vgtail, opTail))
  }

  /** The two bias sweeps, as loops. */
  method ChooseBias(t: Tables, g: Grids, p: AmpParams) returns (r: Result<BiasChoice>)
    ensures r == BiasOf(t, g, p)
  {
    var opLoad := LoadOp(t, p);
    var vstarLoad := opLoad["vstar"];
    var vtail, opIn := SweepInput(t, p, TailGrid(g, p), vstarLoad);
    var gateGrid := GateGrid(g, p);
    if opIn.None? && |gateGrid| > 0 {
      return Err(UnboundName("Vstar_in"));
    }
    var vstarIn := if opIn.Some? then opIn.value["vstar"] else 0.0;
    var vgtail, opTail := SweepTail(t, gateGrid, vtail, vstarLoad, vstarIn);
    r := Ok(BiasChoice(opLoad, vtail, opIn, vgtail, opTail));
  }

  /** The mirror's fingers and multiplier for the reference current. */
  function MirrorSplit(opMir: OpPoint, iref: real): Fingers
    requires opMir["ibias"] != 0.0
  {
    Split(iref / (2.0 * opMir["ibias"]))
  }

  /** The fingers and multiplier of a pair device carrying half the tail
      current, from its unit current. */
  function PairSplit(idTail: real, nfTail: int, unit: real): Fingers
    requires unit != 0.0
  {
    Split(idTail * nfTail as real / 2.0 / unit / 2.0)
  }

  datatype Sizing = Sizing(mir: Fingers, idTail: real, nfTail: int, load: Fingers, input: Fingers)

  /** The tail, load and input sizing from the mirror's multiplier: the tail
      unit current, the fewest tail fingers that carry more than twice either
      pair's unit current, within the budget, and the pairs sized for half the
      tail current. */
  predicate TailSized(s: Sizing, opLoad: OpPoint, opIn: OpPoint, opTail: OpPoint, iampMax: real)
  {
    && opTail["ibias"] > 0.0 && s.idTail == s.mir.wm * opTail["ibias"] && s.idTail > 0.0
    && opIn["ibias"] > 0.0 && s.nfTail == TailFingers(s.idTail, opLoad["ibias"], opIn["ibias"])
    && s.idTail * s.nfTail as real <= iampMax
    && opLoad["ibias"] != 0.0
    && s.load == PairSplit(s.idTail, s.nfTail, opLoad["ibias"])
    && s.input == PairSplit(s.idTail, s.nfTail, opIn["ibias"])
  }

  /** The whole sizing, the mirror included. */
  predicate SizingOk(s: Sizing, opLoad: OpPoint, opIn: OpPoint, opTail: OpPoint, opMir: OpPoint, iref: real, iampMax: real)
  {
    && opMir["ibias"] != 0.0 && s.mir == MirrorSplit(opMir, iref) && s.mir.nf != 0
    && TailSized(s, opLoad, opIn, opTail, iampMax)
  }

  /** The tail unit current: the unit tail device widened by the mirror's
      multiplier. */
  function TailCurrent(mir: Fingers, opTail: OpPoint): real
  {
    mir.wm * opTail["ibias"]
  }

  /** The tail the mirror sets up would draw more than the budget. */
  predicate OverBudget(idTail: real, opLoad: OpPoint, opIn: OpPoint, iampMax: real)
  {
    idTail > 0.0 && idTail * TailFingers(idTail, opLoad["ibias"], opIn["ibias"]) as real > iampMax
  }

  lemma PositiveProduct(a: real, b: real)
    requires a > 0.0 && b > 0.0
    ensures a * b > 0.0
  {
    MulLeftStrict(b, 0.0, a);
  }

  /** Sizes tail, load and input devices once the mirror has fingers. An
      absent tail or input operating point is the empty dictionary, whose
      current lookup fails. */
  function SizeTail(mir: Fingers, opLoad: OpPoint, opIn: Option<OpPoint>, opTail: Option<OpPoint>, iampMax: real): (r: Result<Option<Sizing>>)
    requires SchemeFingers(mir)
    requires opIn.Some? ==> opIn.value["ibias"] > 0.0
    requires opTail.Some? ==> opTail.value["ibias"] > 0.0
    ensures opTail.None? || opIn.None? ==> r == Err(MissingKey("ibias"))
    ensures r == Ok(None) <==> opTail.Some? && opIn.Some? && OverBudget(TailCurrent(mir, opTail.value), opLoad, opIn.value, iampMax)
    ensures r.Err? && opTail.Some? && opIn.Some? ==> r.fault == ZeroDivision && opLoad["ibias"] == 0.0
    ensures r.Ok? && r.value.Some? ==>
      opIn.Some? && opTail.Some? && r.value.value.mir == mir && TailSized(r.value.value, opLoad, opIn.value, opTail.value, iampMax)
  {
    if opTail.None? then Err(MissingKey("ibias"))
    else
      var idTail := TailCurrent(mir, opTail.value);
      PositiveProduct(mir.wm, opTail.value["ibias"]);
      if opIn.None? then Err(MissingKey("ibias"))
      else
        var nfTail := TailFingers(idTail, opLoad["ibias"], opIn.value["ibias"]);
        if idTail * nfTail as real > iampMax then Ok(None)
        else if opLoad["ibias"] == 0.0 then Err(ZeroDivision)
        else
          Ok(Some(Sizing(mir, idTail, nfTail,
                         PairSplit(idTail, nfTail, opLoad["ibias"]),
                         PairSplit(idTail, nfTail, opIn.value["ibias"]))))
  }

  /** Sizes mirror, tail, load and input devices. `Ok(None)` is the early
      `(False, {})` return: a mirror with no fingers, or a tail drawing more
      than the budget. */
  function Size(opLoad: OpPoint, opIn: Option<OpPoint>, opTail: Option<OpPoint>, opMir: OpPoint, iref: real, iampMax: real): (r: Result<Option<Sizing>>)
    requires opIn.Some? ==> opIn.value["ibias"] > 0.0
    requires opTail.Some? ==> opTail.value["ibias"] > 0.0
    ensures opMir["ibias"] == 0.0 ==> r == Err(ZeroDivision)
    ensures opMir["ibias"] != 0.0 && MirrorSplit(opMir, iref).nf == 0 ==> r == Ok(None)
    ensures opMir["ibias"] != 0.0 && MirrorSplit(opMir, iref).nf != 0 && (opTail.None? || opIn.None?) ==> r == Err(MissingKey("ibias"))
    ensures r == Ok(None) <==>
      && opMir["ibias"] != 0.0
      && (|| MirrorSplit(opMir, iref).nf == 0
          || (opTail.Some? && opIn.Some?
              && OverBudget(TailCurrent(MirrorSplit(opMir, iref), opTail.value), opLoad, opIn.value, iampMax)))
    ensures r.Err? && opMir["ibias"] != 0.0 && opTail.Some? && opIn.Some? ==> r.fault == ZeroDivision && opLoad["ibias"] == 0.0
    ensures r.Ok? && r.value.Some? ==> opIn.Some? && opTail.Some? && SizingOk(r.value.value, opLoad, opIn.value, opTail.value, opMir, iref, iampMax)
  {
    if opMir["ibias"] == 0.0 then Err(ZeroDivision)
    else
      var mir := MirrorSplit(opMir, iref);
      if mir.nf == 0 then Ok(None)
      else SizeTail(mir, opLoad, opIn, opTail, iampMax)
  }

  /** The scheme's finger count and multiplier for one device. */
  predicate SchemeDevice(d: Device) { SchemeFingers(Fingers(d.nf, d.wm)) }

  /** The four amplifier devices sized by the scheme. */
  predicate DevicesSized(d: Devices)
  {
    SchemeDevice(d.ampIn) && SchemeDevice(d.ampTail) && SchemeDevice(d.ampLoad) && SchemeDevice(d.ampMir)
  }

  /** The device dictionaries. The tail and load operating points are both
      rescaled by the mirror's multiplier. */
  function Assemble(opIn: OpPoint, opTail: OpPoint, opLoad: OpPoint, opMir: OpPoint, mir: Fingers, nfTail: int,
                    load: Fingers, input: Fingers, ser: SeriesFet): Devices
  {
    Devices(
      Device(ResizeOp(opIn, input.wm), input.nf, input.wm),
      Device(ResizeOp(opTail, mir.wm), nfTail, mir.wm),
      Device(ResizeOp(opLoad, mir.wm), load.nf, load.wm),
      Device(ResizeOp(opMir, mir.wm), mir.nf, mir.wm),
      Device(ser.op, ser.nf, ser.wm))
  }

  /** The four chosen amplifier operating points. */
  datatype Chosen = Chosen(opLoad: OpPoint, opIn: OpPoint, opTail: OpPoint, opMir: OpPoint)

  /** The devices with `nf` tail fingers and the pairs sized for half of that
      tail current. */
  function Regrown(c: Chosen, s: Sizing, ser: SeriesFet, nf: int): Devices
    requires c.opLoad["ibias"] != 0.0 && c.opIn["ibias"] != 0.0
  {
    Assemble(c.opIn, c.opTail, c.opLoad, c.opMir, s.mir, nf,
             PairSplit(s.idTail, nf, c.opLoad["ibias"]), PairSplit(s.idTail, nf, c.opIn["ibias"]), ser)
  }

  /** What sizing leaves for the acceptance policy: a positive tail unit
      current set by the mirror's multiplier, an even tail finger count of at
      least two, and pairs with current to size against. */
  predicate Ready(c: Chosen, s: Sizing)
  {
    && SchemeFingers(s.mir) && s.idTail == s.mir.wm * c.opTail["ibias"] && s.idTail > 0.0
    && s.nfTail % 2 == 0 && s.nfTail >= 2
    && c.opLoad["ibias"] != 0.0 && c.opIn["ibias"] != 0.0
  }

  lemma SizedReady(c: Chosen, s: Sizing, iref: real, iampMax: real)
    requires SizingOk(s, c.opLoad, c.opIn, c.opTail, c.opMir, iref, iampMax)
    ensures Ready(c, s)
  {
  }

  /** Each tail finger of the regrown devices carries the tail unit current. */
  lemma RegrownTail(c: Chosen, s: Sizing, ser: SeriesFet, nf: int)
    requires Ready(c, s)
    ensures nf % 2 == 0 ==> DevicesSized(Regrown(c, s, ser, nf))
    ensures Regrown(c, s, ser, nf).ampTail.nf == nf
    ensures Regrown(c, s, ser, nf).ampTail.op["ibias"] == s.idTail
  {
    ResizeAt(c.opTail, s.mir.wm, "ibias");
  }

  function NetOf(p: AmpParams, d: Devices): Netlist
  {
    Netlist(d, p.serType, "n", p.rsource)
  }

  /** Load regulation, supply rejection with its bandwidth, and phase margin. */
  datatype Metrics = Metrics(loadreg: real, psrr: real, fbw: real, pm: real)

  /** The three analyses in the source's order: the load regulation divides
      by the output voltage, and a bare infinity from the rejection analysis
      cannot be unpacked. */
  function Measure(ev: Evaluator, net: Netlist, cload: real, cdecap: real, vout: real, iout: real): (r: Result<Metrics>)
    ensures r.Err? <==> vout == 0.0 || ev.supplyGain(net, cload, cdecap) == 0.0
    ensures r.Err? ==> r.fault == if vout == 0.0 then ZeroDivision else NotATuple
  {
    var lr := LoadReg(ev, net, cload, cdecap, vout, iout);
    if lr.Err? then Err(lr.fault)
    else
      var rej := Psrr(ev, net, cload, cdecap);
      if rej.BareInf? then Err(NotATuple)
      else Ok(Metrics(lr.value, rej.psrr, rej.fbw, ev.phaseMargin(net, cload, cdecap)))
  }

  /** All metric targets and the static-error target met. */
  predicate MeetsAt(m: Metrics, tg: Targets, err: real)
  {
    m.pm > tg.pmMin && m.psrr > tg.psrrMin && m.fbw > tg.fbwMin && m.loadreg < tg.loadregMax && err < tg.errMax
  }

  /** The metrics with decoupling capacitance `c` at the amplifier output:
      load regulation and phase margin see `c`, the supply rejection is
      taken without it. */
  function DecapMetrics(ev: Evaluator, net: Netlist, p: AmpParams, c: real): Metrics
    requires p.vincm != 0.0 && ev.supplyGain(net, p.cload, 0.0) != 0.0
  {
    var rej := Psrr(ev, net, p.cload, 0.0);
    Metrics(LoadReg(ev, net, p.cload, c, p.vincm, p.iload).value, rej.psrr, rej.fbw, ev.phaseMargin(net, p.cload, c))
  }

  /** The decoupling sweep from grid index `j` on, `m` being the metrics of
      the capacitance tried last: stop without a hit when the rejection
      bandwidth is short, stop with a hit at the first capacitance meeting
      every target, and run out of grid otherwise. */
  datatype DecapOutcome = DecapHit(at: nat, metrics: Metrics) | DecapMiss(metrics: Metrics)

  function DecapFrom(ev: Evaluator, net: Netlist, p: AmpParams, err: real, grid: seq<real>, j: nat, m: Metrics): (o: DecapOutcome)
    requires p.vincm != 0.0 && ev.supplyGain(net, p.cload, 0.0) != 0.0
    requires j <= |grid|
    ensures o.DecapHit? ==> j <= o.at < |grid|
    decreases |grid| - j
  {
    if j == |grid| then DecapMiss(m)
    else
      var mj := DecapMetrics(ev, net, p, grid[j]);
      if mj.fbw < p.targets.fbwMin then DecapMiss(mj)
      else if MeetsAt(mj, p.targets, err) then DecapHit(j, mj)
      else DecapFrom(ev, net, p, err, grid, j + 1, mj)
  }

  /** A hit is the first capacitance from `j` on that meets every target; a
      miss means none does, and leaves the metrics of the capacitance tried
      last: the first one when the bandwidth is short, the last of the grid
      otherwise. */
  lemma {:induction false} DecapFromFirst(ev: Evaluator, net: Netlist, p: AmpParams, err: real, grid: seq<real>, j: nat, m: Metrics)
    requires p.vincm != 0.0 && ev.supplyGain(net, p.cload, 0.0) != 0.0
    requires j <= |grid|
    ensures var o := DecapFrom(ev, net, p, err, grid, j, m);
      o.DecapHit? ==> o.metrics == DecapMetrics(ev, net, p, grid[o.at]) && MeetsAt(o.metrics, p.targets, err)
    ensures var o := DecapFrom(ev, net, p, err, grid, j, m);
      o.DecapHit? ==> forall k :: j <= k < o.at ==> !MeetsAt(DecapMetrics(ev, net, p, grid[k]), p.targets, err)
    ensures var o := DecapFrom(ev, net, p, err, grid, j, m);
      o.DecapMiss? ==> forall k :: j <= k < |grid| ==> !MeetsAt(DecapMetrics(ev, net, p, grid[k]), p.targets, err)
    ensures j == |grid| ==> DecapFrom(ev, net, p, err, grid, j, m) == DecapMiss(m)
    ensures j < |grid| && Psrr(ev, net, p.cload, 0.0).fbw < p.targets.fbwMin ==>
      DecapFrom(ev, net, p, err, grid, j, m) == DecapMiss(DecapMetrics(ev, net, p, grid[j]))
    ensures var o := DecapFrom(ev, net, p, err, grid, j, m);
      o.DecapMiss? && j < |grid| && Psrr(ev, net, p.cload, 0.0).fbw >= p.targets.fbwMin ==>
        o.metrics == DecapMetrics(ev, net, p, grid[|grid| - 1])
    decreases |grid| - j
  {
    if j < |grid| {
      var mj := DecapMetrics(ev, net, p, grid[j]);
      if mj.fbw >= p.targets.fbwMin && !MeetsAt(mj, p.targets, err) {
        DecapFromFirst(ev, net, p, err, grid, j + 1, mj);
      }
    }
  }

  /** The decoupling sweep as a loop: the first capacitance of the grid at
      which every target is met, stopping early when the rejection bandwidth
      is short. Without a hit, the metrics are those of the last capacitance
      tried. */
  method DecapSearch(ev: Evaluator, net: Netlist, p: AmpParams, err: real, grid: seq<real>, m0: Metrics)
    returns (hit: bool, at: nat, m: Metrics)
    requires p.vincm != 0.0 && ev.supplyGain(net, p.cload, 0.0) != 0.0
    ensures (if hit then DecapHit(at, m) else DecapMiss(m)) == DecapFrom(ev, net, p, err, grid, 0, m0)
    ensures hit ==> at < |grid| && m == DecapMetrics(ev, net, p, grid[at]) && MeetsAt(m, p.targets, err)
    ensures hit ==> forall j :: 0 <= j < at ==> !MeetsAt(DecapMetrics(ev, net, p, grid[j]), p.targets, err)
    ensures !hit ==> forall j :: 0 <= j < |grid| ==> !MeetsAt(DecapMetrics(ev, net, p, grid[j]), p.targets, err)
    ensures !hit && |grid| == 0 ==> m == m0
    ensures !hit && |grid| > 0 && Psrr(ev, net, p.cload, 0.0).fbw < p.targets.fbwMin ==> m == DecapMetrics(ev, net, p, grid[0])
    ensures !hit && |grid| > 0 && Psrr(ev, net, p.cload, 0.0).fbw >= p.targets.fbwMin ==> m == DecapMetrics(ev, net, p, grid[|grid| - 1])
  {
    DecapFromFirst(ev, net, p, err, grid, 0, m0);
    hit, at, m := false, 0, m0;
    var j := 0;
    while j < |grid|
      invariant 0 <= j <= |grid|
      invariant DecapFrom(ev, net, p, err, grid, 0, m0) == DecapFrom(ev, net, p, err, grid, j, m)
    {
      m := DecapMetrics(ev, net, p, grid[j]);
      if m.fbw < p.targets.fbwMin {
        break;
      }
      if MeetsAt(m, p.targets, err) {
        hit, at := true, j;
        return;
      }
      j := j + 1;
    }
  }

  /** The rejection bandwidth does not depend on the swept capacitance, so
      once the sweep is entered with enough bandwidth it never stops early. */
  lemma DecapSweepsWholeGrid(ev: Evaluator, net: Netlist, p: AmpParams, c: real)
    requires p.vincm != 0.0 && ev.supplyGain(net, p.cload, 0.0) != 0.0
    requires Psrr(ev, net, p.cload, 0.0).fbw > p.targets.fbwMin
    ensures DecapMetrics(ev, net, p, c).fbw >= p.targets.fbwMin
  {
  }

  /** Phase margin and rejection bandwidth both at their minimum, the exit
      test of the growth loop. */
  predicate Stable(m: Metrics, tg: Targets)
  {
    m.pm >= tg.pmMin && m.fbw >= tg.fbwMin
  }

  /** The metrics with the full decoupling capacitance added to the load. */
  function GrowMeasure(ev: Evaluator, p: AmpParams, d: Devices): Result<Metrics>
  {
    Measure(ev, NetOf(p, d), p.cload + p.cdecapMax, 0.0, p.vincm, p.iload)
  }

  /** The last metrics of the growth loop and the finger count it stopped at. */
  datatype Grown = Grown(metrics: Metrics, next: int)

  lemma PositiveCurrent(idTail: real, nf: int)
    requires idTail > 0.0 && nf >= 2
    ensures idTail * nf as real > 0.0
  {
    MulLeftStrict(idTail, 0.0, nf as real);
  }

  /** While the tail draws less than the budget, its finger count stays below
      `budget / idTail`. */
  lemma BudgetBound(budget: real, idTail: real, nf: int)
    requires idTail > 0.0 && idTail * nf as real < budget
    ensures nf <= FloorDiv(budget, idTail)
  {
    var x, g := nf as real, FloorDiv(budget, idTail) as real + 1.0;
    FloorDivUpper(budget, idTail);
    assert idTail * x < idTail * g;
    assert x * idTail == idTail * x && g * idTail == idTail * g;
    MulCancelStrict(idTail, x, g);
  }

  /** The growth loop from `nf` tail fingers with metrics `m`: while phase
      margin or bandwidth falls short and the tail draws less than the
      budget, measure the devices resized for the current count
      (`measureAt`) and add two fingers. */
  function GrowFrom(measureAt: int -> Result<Metrics>, tg: Targets, idTail: real, budget: real, nf: int, m: Metrics): (r: Result<Grown>)
    requires idTail > 0.0
    ensures r.Ok? ==> r.value.next >= nf && r.value.next % 2 == nf % 2
    decreases FloorDiv(budget, idTail) + 2 - nf
  {
    if !Stable(m, tg) && idTail * nf as real < budget then
      BudgetBound(budget, idTail, nf);
      var mk := measureAt(nf);
      if mk.Err? then Err(mk.fault)
      else GrowFrom(measureAt, tg, idTail, budget, nf + 2, mk.value)
    else Ok(Grown(m, nf))
  }

  /** `nf` tail fingers measure without fault and still fall short. */
  predicate ShortAt(measureAt: int -> Result<Metrics>, tg: Targets, nf: int)
  {
    measureAt(nf).Ok? && !Stable(measureAt(nf).value, tg)
  }

  /** The loop stopped with a fault at count `k`: `k` was reached from `nf`
      in steps of two within the budget, its measurement failed with `f`, and
      every count before it measured and fell short. */
  predicate FaultAt(measureAt: int -> Result<Metrics>, tg: Targets, idTail: real, budget: real, nf: int, k: int, f: Fault)
  {
    && nf <= k && k % 2 == nf % 2 && idTail * k as real < budget && measureAt(k) == Err(f)
    && forall j :: nf <= j < k && j % 2 == nf % 2 ==> ShortAt(measureAt, tg, j)
  }

  /** A fault of the growth loop comes from the first count that could not
      be measured. */
  lemma {:induction false} GrowFromFault(measureAt: int -> Result<Metrics>, tg: Targets, idTail: real, budget: real, nf: int, m: Metrics)
    requires idTail > 0.0
    ensures var r := GrowFrom(measureAt, tg, idTail, budget, nf, m);
      r.Err? ==> exists k :: FaultAt(measureAt, tg, idTail, budget, nf, k, r.fault)
    decreases FloorDiv(budget, idTail) + 2 - nf
  {
    if !Stable(m, tg) && idTail * nf as real < budget {
      BudgetBound(budget, idTail, nf);
      var mk := measureAt(nf);
      if mk.Err? {
        assert FaultAt(measureAt, tg, idTail, budget, nf, nf, mk.fault);
      } else {
        GrowFromFault(measureAt, tg, idTail, budget, nf + 2, mk.value);
        var r := GrowFrom(measureAt, tg, idTail, budget, nf + 2, mk.value);
        if r.Err? {
          var k :| FaultAt(measureAt, tg, idTail, budget, nf + 2, k, r.fault);
          assert ShortAt(measureAt, tg, nf);
          assert FaultAt(measureAt, tg, idTail, budget, nf, k, r.fault);
        }
      }
    }
  }

  /** Without a fault, the growth loop stops with phase margin and bandwidth
      met or with the tail at the budget, holding the metrics of the count
      measured last (the starting ones when it never measured), and every
      count passed over fell short. */
  lemma {:induction false} GrowFromStops(measureAt: int -> Result<Metrics>, tg: Targets, idTail: real, budget: real, nf: int, m: Metrics)
    requires idTail > 0.0
    ensures var r := GrowFrom(measureAt, tg, idTail, budget, nf, m);
      r.Ok? ==> Stable(r.value.metrics, tg) || idTail * r.value.next as real >= budget
    ensures var r := GrowFrom(measureAt, tg, idTail, budget, nf, m);
      r.Ok? && r.value.next == nf ==> r.value.metrics == m
    ensures var r := GrowFrom(measureAt, tg, idTail, budget, nf, m);
      r.Ok? && r.value.next > nf ==> measureAt(r.value.next - 2) == Ok(r.value.metrics) && idTail * (r.value.next - 2) as real < budget
    ensures var r := GrowFrom(measureAt, tg, idTail, budget, nf, m);
      r.Ok? ==> forall k :: nf <= k < r.value.next - 2 && k % 2 == nf % 2 ==> ShortAt(measureAt, tg, k)
    decreases FloorDiv(budget, idTail) + 2 - nf
  {
    if !Stable(m, tg) && idTail * nf as real < budget {
      BudgetBound(budget, idTail, nf);
      var mk := measureAt(nf);
      if mk.Ok? {
        GrowFromStops(measureAt, tg, idTail, budget, nf + 2, mk.value);
        var r := GrowFrom(measureAt, tg, idTail, budget, nf + 2, mk.value);
        if r.Ok? && r.value.next > nf + 2 {
          assert ShortAt(measureAt, tg, nf);
        }
      }
    }
  }

  /** The growth loop: starting from the sized tail and from failing phase
      margin and bandwidth, adds two tail fingers at a time until phase margin
      and bandwidth are met or the tail reaches the budget. The result holds
      the last metrics and the count the loop stopped at, two above the one
      measured last. */
  method GrowTail(measureAt: int -> Result<Metrics>, tg: Targets, idTail: real, nf0: int, budget: real,
                  loadreg0: real, psrr0: real) returns (r: Result<Grown>)
    requires idTail > 0.0 && nf0 % 2 == 0
    ensures r == GrowFrom(measureAt, tg, idTail, budget, nf0, Metrics(loadreg0, psrr0, 0.0, 0.0))
    ensures r.Err? ==> exists k :: FaultAt(measureAt, tg, idTail, budget, nf0, k, r.fault)
    ensures r.Ok? ==> r.value.next >= nf0 && r.value.next % 2 == 0
    ensures r.Ok? ==> Stable(r.value.metrics, tg) || idTail * r.value.next as real >= budget
    ensures r.Ok? && r.value.next == nf0 ==> r.value.metrics == Metrics(loadreg0, psrr0, 0.0, 0.0)
    ensures r.Ok? && r.value.next > nf0 ==>
      measureAt(r.value.next - 2) == Ok(r.value.metrics) && idTail * (r.value.next - 2) as real < budget
    ensures r.Ok? ==> forall k :: nf0 <= k < r.value.next - 2 && k % 2 == 0 ==> ShortAt(measureAt, tg, k)
  {
    GrowFromFault(measureAt, tg, idTail, budget, nf0, Metrics(loadreg0, psrr0, 0.0, 0.0));
    GrowFromStops(measureAt, tg, idTail, budget, nf0, Metrics(loadreg0, psrr0, 0.0, 0.0));
    var m := Metrics(loadreg0, psrr0, 0.0, 0.0);
    var nf := nf0;
    while (m.pm < tg.pmMin || m.fbw < tg.fbwMin) && idTail * nf as real < budget
      invariant GrowFrom(measureAt, tg, idTail, budget, nf0, Metrics(loadreg0, psrr0, 0.0, 0.0)) == GrowFrom(measureAt, tg, idTail, budget, nf, m)
      decreases FloorDiv(budget, idTail) + 2 - nf
    {
      BudgetBound(budget, idTail, nf);
      var mk := measureAt(nf);
      if mk.Err? {
        return Err(mk.fault);
      }
      m := mk.value;
      nf := nf + 2;
    }
    r := Ok(Grown(m, nf));
  }

  /** A designed amplifier: devices, the decoupling capacitance added at the
      amplifier output and at the load, the measured metrics, the static
      error and the total amplifier current. */
  datatype AmpDesign = AmpDesign(devices: Devices, cdecapAmp: real, cdecapLoad: real, metrics: Metrics, err: real, ibias: real)

  /** Which acceptance branch produced a design. */
  datatype Branch = AsSized | Decap | Grow

  /** `(False, {})`, or the flag and the design. */
  datatype AmpResult = Infeasible | Sized(met: bool, design: AmpDesign, via: Branch)

  /** Every target met within the current budget. */
  predicate Meets(d: AmpDesign, tg: Targets, iampMax: real)
  {
    MeetsAt(d.metrics, tg, d.err) && d.ibias < iampMax
  }

  /** A design the scheme sized: even fingers, multipliers in [1, 2), a total
      current of tail unit current times tail fingers, and a static error in
      (0, 1]. */
  predicate WellSized(d: AmpDesign)
  {
    && DevicesSized(d.devices)
    && d.devices.ampTail.nf >= 2
    && d.ibias == d.devices.ampTail.op["ibias"] * d.devices.ampTail.nf as real
    && d.ibias > 0.0
    && 0.0 < d.err <= 1.0
  }

  /** The capacitor allocation of each branch, and which branches can report
      success: only growing the current can give a failed flag, and only it is
      open when the dominant pole must sit at the load. */
  predicate BranchShape(res: AmpResult, p: AmpParams, decapGrid: seq<real>)
    requires res.Sized?
  {
    match res.via
    case AsSized => res.met && !p.loadPole && res.design.cdecapAmp == 0.0 && res.design.cdecapLoad == 0.0
    case Decap => res.met && !p.loadPole && res.design.cdecapAmp in decapGrid && res.design.cdecapLoad == 0.0
    case Grow => res.design.cdecapAmp == 0.0 && res.design.cdecapLoad == p.cdecapMax
  }

  /** A design on the devices as sized is well sized. */
  lemma SizedWellSized(c: Chosen, s: Sizing, ser: SeriesFet, d: AmpDesign)
    requires Ready(c, s) && 0.0 < d.err <= 1.0
    requires d.devices == Regrown(c, s, ser, s.nfTail) && d.ibias == s.idTail * s.nfTail as real
    ensures WellSized(d)
  {
    GrownWellSized(c, s, ser, s.nfTail, d.metrics, d.err, d.cdecapAmp, d.cdecapLoad);
  }

  /** Devices regrown to an even tail finger count no smaller than the sized
      one make a well-sized design drawing the tail unit current per finger. */
  lemma GrownWellSized(c: Chosen, s: Sizing, ser: SeriesFet, nf: int, m: Metrics, err: real, cdecapAmp: real, cdecapLoad: real)
    requires Ready(c, s) && nf >= s.nfTail && nf % 2 == 0 && 0.0 < err <= 1.0
    ensures WellSized(AmpDesign(Regrown(c, s, ser, nf), cdecapAmp, cdecapLoad, m, err, s.idTail * nf as real))
  {
    RegrownTail(c, s, ser, nf);
    PositiveCurrent(s.idTail, nf);
  }

  /** The metrics of the devices regrown to `nf` tail fingers. */
  function GrowMeasureAt(ev: Evaluator, p: AmpParams, c: Chosen, s: Sizing, nf: int): (r: Result<Metrics>)
    requires c.opLoad["ibias"] != 0.0 && c.opIn["ibias"] != 0.0
    ensures r.Err? ==> r.fault == ZeroDivision || r.fault == NotATuple
  {
    GrowMeasure(ev, p, Regrown(c, s, p.ser, nf))
  }

  /** The measurement the growth loop repeats, one finger count at a time. */
  function GrowMeasurer(ev: Evaluator, p: AmpParams, c: Chosen, s: Sizing): int -> Result<Metrics>
    requires c.opLoad["ibias"] != 0.0 && c.opIn["ibias"] != 0.0
  {
    nf => GrowMeasureAt(ev, p, c, s, nf)
  }

  /** The design the growth loop leaves: the devices for the last finger
      count measured (the sized count when the loop never ran), the full
      decoupling capacitance on the load, and the flag. */
  function GrownDesign(p: AmpParams, c: Chosen, s: Sizing, gr: Grown, err: real): (res: AmpResult)
    requires Ready(c, s) && gr.next >= s.nfTail && gr.next % 2 == 0 && 0.0 < err <= 1.0
    ensures res.Sized? && res.via == Grow && WellSized(res.design)
    ensures res.design.cdecapAmp == 0.0 && res.design.cdecapLoad == p.cdecapMax
    ensures res.met <==> Meets(res.design, p.targets, p.iampMax)
  {
    var nf := if gr.next == s.nfTail then s.nfTail else gr.next - 2;
    var current := s.idTail * nf as real;
    GrownWellSized(c, s, p.ser, nf, gr.metrics, err, 0.0, p.cdecapMax);
    Sized(MeetsAt(gr.metrics, p.targets, err) && current < p.iampMax,
          AmpDesign(Regrown(c, s, p.ser, nf), 0.0, p.cdecapMax, gr.metrics, err, current), Grow)
  }

  /** A fault of the growth loop is a fault of one of its measurements. */
  lemma GrowFault(ev: Evaluator, p: AmpParams, c: Chosen, s: Sizing, m: Metrics)
    requires Ready(c, s)
    ensures var r := GrowFrom(GrowMeasurer(ev, p, c, s), p.targets, s.idTail, p.iampMax, s.nfTail, m);
      r.Err? ==> r.fault == ZeroDivision || r.fault == NotATuple
  {
    var measureAt := GrowMeasurer(ev, p, c, s);
    GrowFromFault(measureAt, p.targets, s.idTail, p.iampMax, s.nfTail, m);
    var r := GrowFrom(measureAt, p.targets, s.idTail, p.iampMax, s.nfTail, m);
    if r.Err? {
      var k :| FaultAt(measureAt, p.targets, s.idTail, p.iampMax, s.nfTail, k, r.fault);
      assert GrowMeasureAt(ev, p, c, s, k).Err?;
    }
  }

  /** The last branch of the policy: grow the tail current with the full
      decoupling capacitance on the load, starting from the load regulation
      and rejection left by the earlier branches and from failing phase
      margin and bandwidth, and report the design with the flag that says
      whether every target is met. */
  function GrowBranch(ev: Evaluator, p: AmpParams, c: Chosen, s: Sizing, err: real, loadreg: real, psrr: real): (r: Result<AmpResult>)
    requires Ready(c, s) && 0.0 < err <= 1.0
    ensures r.Err? ==> r.fault == ZeroDivision || r.fault == NotATuple
    ensures r.Ok? ==> r.value.Sized? && r.value.via == Grow && WellSized(r.value.design)
    ensures r.Ok? ==> r.value.design.cdecapAmp == 0.0 && r.value.design.cdecapLoad == p.cdecapMax
    ensures r.Ok? ==> (r.value.met <==> Meets(r.value.design, p.targets, p.iampMax))
  {
    GrowFault(ev, p, c, s, Metrics(loadreg, psrr, 0.0, 0.0));
    var grown := GrowFrom(GrowMeasurer(ev, p, c, s), p.targets, s.idTail, p.iampMax, s.nfTail, Metrics(loadreg, psrr, 0.0, 0.0));
    if grown.Err? then Err(grown.fault)
    else Ok(GrownDesign(p, c, s, grown.value, err))
  }

  /** The growth branch, with its loop. */
  method AcceptGrown(ev: Evaluator, p: AmpParams, c: Chosen, s: Sizing, err: real, loadreg: real, psrr: real)
    returns (r: Result<AmpResult>)
    requires Ready(c, s) && 0.0 < err <= 1.0
    ensures r == GrowBranch(ev, p, c, s, err, loadreg, psrr)
  {
    var measureAt := GrowMeasurer(ev, p, c, s);
    var grown := GrowTail(measureAt, p.targets, s.idTail, s.nfTail, p.iampMax, loadreg, psrr);
    if grown.Err? {
      return Err(grown.fault);
    }
    r := Ok(GrownDesign(p, c, s, grown.value, err));
  }

  /** The devices as sized, their small-signal view, their static error,
      their current and their metrics at the load capacitance alone. */
  function SizedDevices(p: AmpParams, c: Chosen, s: Sizing): Devices
    requires Ready(c, s)
  {
    Regrown(c, s, p.ser, s.nfTail)
  }

  function SizedNet(p: AmpParams, c: Chosen, s: Sizing): Netlist
    requires Ready(c, s)
  {
    NetOf(p, SizedDevices(p, c, s))
  }

  function SizedError(ev: Evaluator, p: AmpParams, c: Chosen, s: Sizing): real
    requires Ready(c, s)
  {
    DcError(ev.loopGain(SizedNet(p, c, s)))
  }

  function SizedCurrent(s: Sizing): real
  {
    s.idTail * s.nfTail as real
  }

  function SizedMetrics(ev: Evaluator, p: AmpParams, c: Chosen, s: Sizing): Result<Metrics>
    requires Ready(c, s)
  {
    Measure(ev, SizedNet(p, c, s), p.cload, 0.0, p.vincm, p.iload)
  }

  /** The test for accepting the amplifier as sized: every target met within
      the budget, and the dominant pole free to sit at the amplifier. */
  predicate AsSizedTest(m: Metrics, err: real, ibias: real, p: AmpParams)
  {
    MeetsAt(m, p.targets, err) && ibias < p.iampMax && !p.loadPole
  }

  /** The test for sweeping decoupling capacitance at the amplifier output. */
  predicate DecapTest(m: Metrics, ibias: real, p: AmpParams)
  {
    m.fbw > p.targets.fbwMin && ibias < p.iampMax && !p.loadPole
  }

  /** The test for growing the tail current. */
  predicate GrowTest(m: Metrics, tg: Targets)
  {
    m.psrr > tg.psrrMin && m.loadreg < tg.loadregMax
  }

  /** Grid index `j` of the decoupling sweep meets every target. */
  predicate DecapMeets(g: Grids, ev: Evaluator, p: AmpParams, c: Chosen, s: Sizing, j: int)
    requires Ready(c, s) && SizedMetrics(ev, p, c, s).Ok?
  {
    0 <= j < |DecapGrid(g, p)| &&
    MeetsAt(DecapMetrics(ev, SizedNet(p, c, s), p, DecapGrid(g, p)[j]), p.targets, SizedError(ev, p, c, s))
  }

  /** The decoupling sweep is entered and finds a capacitance. */
  predicate DecapHits(g: Grids, ev: Evaluator, p: AmpParams, c: Chosen, s: Sizing)
    requires Ready(c, s) && SizedMetrics(ev, p, c, s).Ok?
  {
    && DecapTest(SizedMetrics(ev, p, c, s).value, SizedCurrent(s), p)
    && exists j :: 0 <= j < |DecapGrid(g, p)| && DecapMeets(g, ev, p, c, s, j)
  }

  /** The metrics the growth test reads: those of the largest decoupling
      capacitance when the sweep ran over a non-empty grid without a hit, the
      sized ones otherwise. */
  function MetricsBeforeGrowth(g: Grids, ev: Evaluator, p: AmpParams, c: Chosen, s: Sizing): Metrics
    requires Ready(c, s) && SizedMetrics(ev, p, c, s).Ok?
  {
    var m := SizedMetrics(ev, p, c, s).value;
    var grid := DecapGrid(g, p);
    if DecapTest(m, SizedCurrent(s), p) && |grid| > 0 then DecapMetrics(ev, SizedNet(p, c, s), p, grid[|grid| - 1]) else m
  }

  /** The decoupling stage: the sweep when its test passes on the sized
      metrics `m`, and a miss keeping `m` otherwise. */
  function DecapStage(g: Grids, ev: Evaluator, p: AmpParams, c: Chosen, s: Sizing, m: Metrics): (o: DecapOutcome)
    requires Ready(c, s) && SizedMetrics(ev, p, c, s) == Ok(m)
    ensures o.DecapHit? ==> o.at < |DecapGrid(g, p)|
  {
    if DecapTest(m, SizedCurrent(s), p) then DecapFrom(ev, SizedNet(p, c, s), p, SizedError(ev, p, c, s), DecapGrid(g, p), 0, m)
    else DecapMiss(m)
  }

  /** The stage hits exactly when the sweep is entered and some capacitance
      meets every target; it hits the first one, and a miss leaves the metrics
      the growth test reads. */
  lemma DecapStageSpec(g: Grids, ev: Evaluator, p: AmpParams, c: Chosen, s: Sizing, m: Metrics)
    requires Ready(c, s) && SizedMetrics(ev, p, c, s) == Ok(m)
    ensures DecapStage(g, ev, p, c, s, m).DecapHit? <==> DecapHits(g, ev, p, c, s)
    ensures var o := DecapStage(g, ev, p, c, s, m);
      o.DecapHit? ==> DecapMeets(g, ev, p, c, s, o.at) && o.metrics == DecapMetrics(ev, SizedNet(p, c, s), p, DecapGrid(g, p)[o.at])
    ensures var o := DecapStage(g, ev, p, c, s, m);
      o.DecapHit? ==> forall j :: 0 <= j < o.at ==> !DecapMeets(g, ev, p, c, s, j)
    ensures var o := DecapStage(g, ev, p, c, s, m);
      o.DecapMiss? ==> o.metrics == MetricsBeforeGrowth(g, ev, p, c, s)
  {
    if DecapTest(m, SizedCurrent(s), p) {
      var net, err, grid := SizedNet(p, c, s), SizedError(ev, p, c, s), DecapGrid(g, p);
      DecapFromFirst(ev, net, p, err, grid, 0, m);
      assert Psrr(ev, net, p.cload, 0.0).fbw == m.fbw;
      var o := DecapFrom(ev, net, p, err, grid, 0, m);
      if o.DecapHit? {
        assert DecapMeets(g, ev, p, c, s, o.at);
      } else {
        forall j | 0 <= j < |grid|
          ensures !DecapMeets(g, ev, p, c, s, j)
        {
        }
      }
    }
  }

  /** The branches after the as-sized test failed: the decoupling capacitance
      when the stage hits, the growth when its test passes on the metrics the
      stage left, and giving up otherwise. */
  function LaterBranches(g: Grids, ev: Evaluator, p: AmpParams, c: Chosen, s: Sizing, m: Metrics): (r: Result<AmpResult>)
    requires Ready(c, s) && SizedMetrics(ev, p, c, s) == Ok(m)
    ensures r.Err? ==> r.fault == ZeroDivision || r.fault == NotATuple
    ensures r.Ok? && r.value.Sized? ==> WellSized(r.value.design) && BranchShape(r.value, p, DecapGrid(g, p))
    ensures r.Ok? && r.value.Sized? && r.value.met ==> Meets(r.value.design, p.targets, p.iampMax)
  {
    var err, ibias := SizedError(ev, p, c, s), SizedCurrent(s);
    var o := DecapStage(g, ev, p, c, s, m);
    if o.DecapHit? then
      DecapStageSpec(g, ev, p, c, s, m);
      var d := AmpDesign(SizedDevices(p, c, s), DecapGrid(g, p)[o.at], 0.0, o.metrics, err, ibias);
      SizedWellSized(c, s, p.ser, d);
      Ok(Sized(true, d, Decap))
    else if GrowTest(o.metrics, p.targets) then GrowBranch(ev, p, c, s, err, o.metrics.loadreg, o.metrics.psrr)
    else Ok(Infeasible)
  }

  /** The acceptance policy for a sized amplifier: accept it as sized, or
      sweep decoupling capacitance at the amplifier output, or grow the tail
      current with the full decoupling capacitance on the load, or give up. */
  function Policy(g: Grids, ev: Evaluator, p: AmpParams, c: Chosen, s: Sizing): (r: Result<AmpResult>)
    requires Ready(c, s)
    ensures r.Err? ==> r.fault == ZeroDivision || r.fault == NotATuple
    ensures r.Ok? && r.value.Sized? ==> WellSized(r.value.design) && BranchShape(r.value, p, DecapGrid(g, p))
    ensures r.Ok? && r.value.Sized? && r.value.met ==> Meets(r.value.design, p.targets, p.iampMax)
  {
    var measured := SizedMetrics(ev, p, c, s);
    if measured.Err? then Err(measured.fault)
    else
      var m := measured.value;
      var d := AmpDesign(SizedDevices(p, c, s), 0.0, 0.0, m, SizedError(ev, p, c, s), SizedCurrent(s));
      if AsSizedTest(m, d.err, d.ibias, p) then
        SizedWellSized(c, s, p.ser, d);
        Ok(Sized(true, d, AsSized))
      else LaterBranches(g, ev, p, c, s, m)
  }

  /** The acceptance policy, with the decoupling sweep and the growth loop. */
  method Accept(g: Grids, ev: Evaluator, p: AmpParams, c: Chosen, s: Sizing) returns (r: Result<AmpResult>)
    requires Ready(c, s)
    ensures r == Policy(g, ev, p, c, s)
  {
    var devs := SizedDevices(p, c, s);
    var net := SizedNet(p, c, s);
    var err := SizedError(ev, p, c, s);
    var measured := SizedMetrics(ev, p, c, s);
    if measured.Err? {
      return Err(measured.fault);
    }
    var m := measured.value;
    var ibias := SizedCurrent(s);
    if AsSizedTest(m, err, ibias, p) {
      return Ok(Sized(true, AmpDesign(devs, 0.0, 0.0, m, err, ibias), AsSized));
    }
    var last := m;
    if DecapTest(m, ibias, p) {
      var grid := DecapGrid(g, p);
      var hit, at, swept := DecapSearch(ev, net, p, err, grid, m);
      if hit {
        return Ok(Sized(true, AmpDesign(devs, grid[at], 0.0, swept, err, ibias), Decap));
      }
      last := swept;
    }
    assert DecapStage(g, ev, p, c, s, m) == DecapMiss(last);
    if GrowTest(last, p.targets) {
      r := AcceptGrown(ev, p, c, s, err, last.loadreg, last.psrr);
      return;
    }
    return Ok(Infeasible);
  }

  /** The first branch: a fault of the first measurement propagates, and the
      amplifier is accepted as sized, with no decoupling capacitance, exactly
      when the as-sized test passes. */
  lemma PolicyAsSized(g: Grids, ev: Evaluator, p: AmpParams, c: Chosen, s: Sizing)
    requires Ready(c, s)
    ensures SizedMetrics(ev, p, c, s).Err? ==> Policy(g, ev, p, c, s) == Err(SizedMetrics(ev, p, c, s).fault)
    ensures var r := Policy(g, ev, p, c, s);
      SizedMetrics(ev, p, c, s).Ok? ==>
        ((r.Ok? && r.value.Sized? && r.value.via == AsSized) <==>
           AsSizedTest(SizedMetrics(ev, p, c, s).value, SizedError(ev, p, c, s), SizedCurrent(s), p))
    ensures SizedMetrics(ev, p, c, s).Ok? &&
            AsSizedTest(SizedMetrics(ev, p, c, s).value, SizedError(ev, p, c, s), SizedCurrent(s), p) ==>
      Policy(g, ev, p, c, s) ==
        Ok(Sized(true, AmpDesign(SizedDevices(p, c, s), 0.0, 0.0, SizedMetrics(ev, p, c, s).value,
                                 SizedError(ev, p, c, s), SizedCurrent(s)), AsSized))
  {
  }

  /** The second branch: the decoupling capacitance is chosen exactly when
      the as-sized test fails, the sweep is entered and some capacitance
      meets every target, and it is the first such capacitance of the grid. */
  lemma PolicyDecap(g: Grids, ev: Evaluator, p: AmpParams, c: Chosen, s: Sizing)
    requires Ready(c, s) && SizedMetrics(ev, p, c, s).Ok?
    ensures var r := Policy(g, ev, p, c, s);
      (r.Ok? && r.value.Sized? && r.value.via == Decap) <==>
        !AsSizedTest(SizedMetrics(ev, p, c, s).value, SizedError(ev, p, c, s), SizedCurrent(s), p)
        && DecapHits(g, ev, p, c, s)
    ensures var r := Policy(g, ev, p, c, s);
      r.Ok? && r.value.Sized? && r.value.via == Decap ==>
        exists at :: 0 <= at < |DecapGrid(g, p)| && DecapMeets(g, ev, p, c, s, at)
          && (forall j :: 0 <= j < at ==> !DecapMeets(g, ev, p, c, s, j))
          && r.value == Sized(true, AmpDesign(SizedDevices(p, c, s), DecapGrid(g, p)[at], 0.0,
                                              DecapMetrics(ev, SizedNet(p, c, s), p, DecapGrid(g, p)[at]),
                                              SizedError(ev, p, c, s), SizedCurrent(s)), Decap)
  {
    var m := SizedMetrics(ev, p, c, s).value;
    DecapStageSpec(g, ev, p, c, s, m);
    var o := DecapStage(g, ev, p, c, s, m);
    if o.DecapHit? {
      assert DecapMeets(g, ev, p, c, s, o.at);
    }
  }

  /** The last branches: the tail is grown exactly when neither earlier
      branch accepted and the growth test passes on the metrics left by the
      sweep, and otherwise the policy gives up. */
  lemma PolicyGrowOrGiveUp(g: Grids, ev: Evaluator, p: AmpParams, c: Chosen, s: Sizing)
    requires Ready(c, s) && SizedMetrics(ev, p, c, s).Ok?
    ensures var m, err := MetricsBeforeGrowth(g, ev, p, c, s), SizedError(ev, p, c, s);
      !AsSizedTest(SizedMetrics(ev, p, c, s).value, err, SizedCurrent(s), p) && !DecapHits(g, ev, p, c, s) && GrowTest(m, p.targets) ==>
        Policy(g, ev, p, c, s) == GrowBranch(ev, p, c, s, err, m.loadreg, m.psrr)
    ensures var r := Policy(g, ev, p, c, s);
      (r.Ok? && r.value.Sized? && r.value.via == Grow) ==>
        !AsSizedTest(SizedMetrics(ev, p, c, s).value, SizedError(ev, p, c, s), SizedCurrent(s), p)
        && !DecapHits(g, ev, p, c, s) && GrowTest(MetricsBeforeGrowth(g, ev, p, c, s), p.targets)
    ensures Policy(g, ev, p, c, s) == Ok(Infeasible) <==>
      !AsSizedTest(SizedMetrics(ev, p, c, s).value, SizedError(ev, p, c, s), SizedCurrent(s), p)
      && !DecapHits(g, ev, p, c, s) && !GrowTest(MetricsBeforeGrowth(g, ev, p, c, s), p.targets)
  {
    DecapStageSpec(g, ev, p, c, s, SizedMetrics(ev, p, c, s).value);
  }

  /** The amplifier sized from a bias choice. */
  function FromBias(g: Grids, ev: Evaluator, p: AmpParams, t: Tables, b: BiasChoice): (r: Result<AmpResult>)
    requires b.opIn.Some? ==> b.opIn.value["ibias"] > 0.0
    requires b.opTail.Some? ==> b.opTail.value["ibias"] > 0.0
    ensures r.Err? ==> !r.fault.UnboundName?
    ensures r.Ok? && r.value.Sized? ==> WellSized(r.value.design) && BranchShape(r.value, p, DecapGrid(g, p))
    ensures r.Ok? && r.value.Sized? && r.value.met ==> Meets(r.value.design, p.targets, p.iampMax)
  {
    var opMir := MirrorOp(t, b.vgtail);
    var sized := Size(b.opLoad, b.opIn, b.opTail, opMir, p.iref, p.iampMax);
    if sized.Err? then Err(sized.fault)
    else if sized.value.None? then Ok(Infeasible)
    else
      var s := sized.value.value;
      var c := Chosen(b.opLoad, b.opIn.value, b.opTail.value, opMir);
      SizedReady(c, s, p.iref, p.iampMax);
      Policy(g, ev, p, c, s)
  }

  /** The amplifier design of one series device: the bias sweeps, the sizing,
      and the acceptance policy. */
  function AmpDesignOf(t: Tables, g: Grids, ev: Evaluator, p: AmpParams): (r: Result<AmpResult>)
    ensures (r.Err? && r.fault.UnboundName?) <==> !InputAdmitted(t, p, TailGrid(g, p)) && |GateGrid(g, p)| > 0
    ensures r.Ok? && r.value.Sized? ==> WellSized(r.value.design) && BranchShape(r.value, p, DecapGrid(g, p))
    ensures r.Ok? && r.value.Sized? && r.value.met ==> Meets(r.value.design, p.targets, p.iampMax)
  {
    var choice := BiasOf(t, g, p);
    if choice.Err? then Err(choice.fault) else FromBias(g, ev, p, t, choice.value)
  }

  /** The early `(False, {})` returns: a mirror without fingers, or a tail
      drawing more than the budget, gives up before any analysis. */
  lemma EarlyExit(g: Grids, ev: Evaluator, p: AmpParams, t: Tables, b: BiasChoice)
    requires b.opIn.Some? ==> b.opIn.value["ibias"] > 0.0
    requires b.opTail.Some? ==> b.opTail.value["ibias"] > 0.0
    ensures var opMir := MirrorOp(t, b.vgtail);
      opMir["ibias"] != 0.0 && MirrorSplit(opMir, p.iref).nf == 0 ==> FromBias(g, ev, p, t, b) == Ok(Infeasible)
    ensures var opMir := MirrorOp(t, b.vgtail);
      opMir["ibias"] != 0.0 && MirrorSplit(opMir, p.iref).nf != 0 && b.opIn.Some? && b.opTail.Some?
      && OverBudget(TailCurrent(MirrorSplit(opMir, p.iref), b.opTail.value), b.opLoad, b.opIn.value, p.iampMax) ==>
        FromBias(g, ev, p, t, b) == Ok(Infeasible)
  {
    var opMir := MirrorOp(t, b.vgtail);
    var sized := Size(b.opLoad, b.opIn, b.opTail, opMir, p.iref, p.iampMax);
  }

  /** Otherwise the sized amplifier goes to the acceptance policy. */
  lemma SizedToPolicy(g: Grids, ev: Evaluator, p: AmpParams, t: Tables, b: BiasChoice)
    requires b.opIn.Some? ==> b.opIn.value["ibias"] > 0.0
    requires b.opTail.Some? ==> b.opTail.value["ibias"] > 0.0
    ensures var opMir := MirrorOp(t, b.vgtail);
      var sized := Size(b.opLoad, b.opIn, b.opTail, opMir, p.iref, p.iampMax);
      sized.Ok? && sized.value.Some? ==>
        && b.opIn.Some? && b.opTail.Some?
        && Ready(Chosen(b.opLoad, b.opIn.value, b.opTail.value, opMir), sized.value.value)
        && FromBias(g, ev, p, t, b) == Policy(g, ev, p, Chosen(b.opLoad, b.opIn.value, b.opTail.value, opMir), sized.value.value)
  {
    var opMir := MirrorOp(t, b.vgtail);
    var sized := Size(b.opLoad, b.opIn, b.opTail, opMir, p.iref, p.iampMax);
    if sized.Ok? && sized.value.Some? {
      SizedReady(Chosen(b.opLoad, b.opIn.value, b.opTail.value, opMir), sized.value.value, p.iref, p.iampMax);
    }
  }

  /** Designs the error amplifier for a series device and an output
      common-mode voltage. */
  method DsnAmp(t: Tables, g: Grids, ev: Evaluator, p: AmpParams) returns (r: Result<AmpResult>)
    ensures r == AmpDesignOf(t, g, ev, p)
  {
    var choice := ChooseBias(t, g, p);
    if choice.Err? {
      return Err(choice.fault);
    }
    var b := choice.value;
    var opMir := MirrorOp(t, b.vgtail);
    var sized := Size(b.opLoad, b.opIn, b.opTail, opMir, p.iref, p.iampMax);
    if sized.Err? {
      return Err(sized.fault);
    }
    if sized.value.None? {
      return Ok(Infeasible);
    }
    var s := sized.value.value;
    var c := Chosen(b.opLoad, b.opIn.value, b.opTail.value, opMir);
    SizedReady(c, s, p.iref, p.iampMax);
    r := Accept(g, ev, p, c, s);
  }
}
