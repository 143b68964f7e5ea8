/** Operating points and the finger/multiplier sizing arithmetic of the series
    LDO sizing search: rescaling an operating point by a width multiplier,
    splitting a current ratio into an even finger count and a multiplier, the
    series-device sizer and the tail-device finger count. */
module LdoSizing {
  import opened Outcomes

  /** A characterisation-table answer: small-signal quantities by name. Every
      query answers with a bias current, an overdrive figure and a gate
      capacitance, and no quantity has an empty name. */
  type OpPoint = op: map<string, real> | "ibias" in op && "vstar" in op && "cgg" in op && "" !in op
    witness map["ibias" := 0.0, "vstar" := 0.0, "cgg" := 0.0]

  /** Quantities named with a leading `v` are voltages. */
  predicate IsVoltage(key: string) { |key| > 0 && key[0] == 'v' }

  /** The operating point of a device `wm` times as wide: voltages stay put,
      every other quantity (currents, conductances, capacitances) scales. */
  function ResizeOp(op: OpPoint, wm: real): (r: OpPoint)
    ensures r.Keys == op.Keys
  {
    map k | k in op :: if IsVoltage(k) then op[k] else wm * op[k]
  }

  lemma ResizeScales(op: OpPoint, wm: real)
    ensures forall k :: k in op && IsVoltage(k) ==> ResizeOp(op, wm)[k] == op[k]
    ensures forall k :: k in op && !IsVoltage(k) ==> ResizeOp(op, wm)[k] == wm * op[k]
    ensures ResizeOp(op, wm)["ibias"] == wm * op["ibias"]
    ensures ResizeOp(op, wm)["cgg"] == wm * op["cgg"]
    ensures ResizeOp(op, wm)["vstar"] == op["vstar"]
  {
    assert IsVoltage("vstar");
    assert !IsVoltage("ibias") && !IsVoltage("cgg");
  }

  lemma ResizeAt(op: OpPoint, wm: real, k: string)
    requires k in op
    ensures ResizeOp(op, wm)[k] == if IsVoltage(k) then op[k] else wm * op[k]
  {
  }

  /** Resizing twice is resizing once by the product of the multipliers. */
  lemma ResizeCompose(op: OpPoint, a: real, b: real)
    ensures ResizeOp(ResizeOp(op, a), b) == ResizeOp(op, a * b)
  {
    var once := ResizeOp(op, a);
    var lhs, rhs := ResizeOp(once, b), ResizeOp(op, a * b);
    forall k | k in op
      ensures lhs[k] == rhs[k]
    {
      ResizeAt(op, a, k);
      ResizeAt(once, b, k);
      ResizeAt(op, a * b, k);
      if !IsVoltage(k) {
        var v := op[k];
        calc {
          lhs[k];
          b * once[k];
          b * (a * v);
          (a * b) * v;
          rhs[k];
        }
      }
    }
    assert lhs.Keys == rhs.Keys;
  }

  lemma ResizeIdentity(op: OpPoint)
    ensures ResizeOp(op, 1.0) == op
  {
  }

  /** Python's `int(x)` on a float: truncation toward zero. */
  function Trunc(x: real): (n: int)
    ensures x >= 0.0 ==> n as real <= x < n as real + 1.0
    ensures x < 0.0 ==> n as real - 1.0 < x <= n as real
  {
    if x >= 0.0 then x.Floor else -((-x).Floor)
  }

  /** Python's `x % 1` on a float: the fractional part, never negative. */
  function FracPart(x: real): (f: real)
    ensures 0.0 <= f < 1.0
  {
    x - x.Floor as real
  }

  datatype Fingers = Fingers(nf: int, wm: real)

  /** The two properties the sizing scheme guarantees whatever the ratio. */
  predicate SchemeFingers(s: Fingers) { s.nf % 2 == 0 && 1.0 <= s.wm < 2.0 }

  /** The sizing scheme: `nf = 2*int(m)` fingers of a unit device widened by
      `wm = m % 1 + 1`. */
  function Split(m: real): (s: Fingers)
    ensures SchemeFingers(s)
    ensures m >= 0.0 ==> s.nf >= 0 && (s.nf >= 2 <==> m >= 1.0)
    ensures m >= 0.0 ==> s.nf as real <= 2.0 * m < s.nf as real + 2.0
    ensures m < 0.0 ==> s.nf <= 0
  {
    Fingers(2 * Trunc(m), FracPart(m) + 1.0)
  }

  /** The width the scheme builds, `nf * wm` unit widths, differs from the
      `2m` unit widths asked for by `2 * frac(m) * (floor(m) - 1)`: it falls
      short for a fractional ratio below 1. */
  lemma SplitOvershoot(m: real)
    requires m >= 0.0
    ensures Split(m).nf as real * Split(m).wm - 2.0 * m == 2.0 * FracPart(m) * (m.Floor as real - 1.0)
  {
    var f, r := m.Floor as real, FracPart(m);
    assert Split(m).nf as real == 2.0 * f;
    assert Split(m).wm == r + 1.0;
    assert m == f + r;
    calc {
      Split(m).nf as real * Split(m).wm - 2.0 * m;
      2.0 * f * (r + 1.0) - 2.0 * (f + r);
      2.0 * r * (f - 1.0);
    }
  }

  /** The built width matches the asked-for width exactly when the ratio is
      whole or lies in [1, 2). */
  lemma SplitExactIff(m: real)
    requires m >= 0.0
    ensures Split(m).nf as real * Split(m).wm == 2.0 * m <==> FracPart(m) == 0.0 || m.Floor == 1
  {
    SplitOvershoot(m);
    var r, g := FracPart(m), m.Floor as real - 1.0;
    assert 2.0 * r * g == 0.0 <==> r == 0.0 || g == 0.0;
  }

  /** Voltages of the gate, drain and body relative to the source. */
  datatype Bias = Bias(vgs: real, vds: real, vbs: real)

  /** The series device of an n-type regulator sources the output from the
      supply; a p-type one has its source on the supply. */
  function SeriesBias(serType: string, vdd: real, vout: real, vg: real): (b: Bias)
    ensures serType == "n" ==> b == Bias(vg - vout, vdd - vout, -vout)
    ensures serType != "n" ==> b == Bias(vg - vdd, vout - vdd, 0.0)
  {
    var vs := if serType == "n" then vout else vdd;
    var vd := if serType == "n" then vdd else vout;
    var vb := if serType == "n" then 0.0 else vdd;
    Bias(vg - vs, vd - vs, vb - vs)
  }

  function SeriesOp(query: (real, real, real) -> OpPoint, serType: string, vdd: real, vout: real, vg: real): OpPoint
  {
    var b := SeriesBias(serType, vdd, vout, vg);
    query(b.vgs, b.vds, b.vbs)
  }

  /** The sized series device: whether the load current needs more than one
      finger pair, its fingers, its multiplier and its rescaled operating point. */
  datatype SeriesFet = SeriesFet(matched: bool, nf: int, wm: real, op: OpPoint)

  /** What the sizer promises about the fingers of a device sized for
      `iload` from a unit current `i0`: a match only with at least two fingers,
      and, for a positive unit current, a match exactly when the load needs
      more than one finger pair and the largest even finger count whose unit
      current does not exceed the load. */
  predicate FitsLoad(matched: bool, nf: int, i0: real, iload: real)
  {
    && (matched ==> nf >= 2)
    && (i0 > 0.0 ==> (matched <==> iload > 2.0 * i0))
    && (i0 > 0.0 && iload >= 0.0 ==> nf as real * i0 <= iload < (nf as real + 2.0) * i0)
  }

  /** Sizes the series device for `iload` at gate voltage `vg`: one table query
      at the terminal voltages, then the scheme applied to `iload / (2 * ibias)`. */
  function DsnFet(query: (real, real, real) -> OpPoint, serType: string, vdd: real, vout: real, vg: real, iload: real): (r: Result<SeriesFet>)
    ensures r.Err? <==> SeriesOp(query, serType, vdd, vout, vg)["ibias"] == 0.0
    ensures r.Err? ==> r.fault == ZeroDivision
    ensures r.Ok? ==> SchemeFingers(Fingers(r.value.nf, r.value.wm))
    ensures r.Ok? ==> r.value.op["ibias"] == r.value.wm * SeriesOp(query, serType, vdd, vout, vg)["ibias"]
    ensures r.Ok? ==> FitsLoad(r.value.matched, r.value.nf, SeriesOp(query, serType, vdd, vout, vg)["ibias"], iload)
  {
    var op := SeriesOp(query, serType, vdd, vout, vg);
    if op["ibias"] == 0.0 then Err(ZeroDivision)
    else Ok(SizeFor(op, iload))
  }

  /** The scheme applied to the ratio of `iload` to a finger pair's current
      at the operating point `op`. */
  function SizeFor(op: OpPoint, iload: real): (f: SeriesFet)
    requires op["ibias"] != 0.0
    ensures SchemeFingers(Fingers(f.nf, f.wm))
    ensures f.op["ibias"] == f.wm * op["ibias"]
    ensures FitsLoad(f.matched, f.nf, op["ibias"], iload)
  {
    var m := iload / (2.0 * op["ibias"]);
    var s := Split(m);
    MatchedRatio(iload, op["ibias"], m, s);
    ResizeScales(op, s.wm);
    SeriesFet(m > 1.0, s.nf, s.wm, ResizeOp(op, s.wm))
  }

  lemma MatchedRatio(iload: real, i0: real, m: real, s: Fingers)
    requires i0 != 0.0 && m == iload / (2.0 * i0) && s == Split(m)
    ensures FitsLoad(m > 1.0, s.nf, i0, iload)
  {
    if i0 > 0.0 {
      RatioAboveOne(iload, i0, m);
      if iload >= 0.0 {
        FitLower(iload, i0, m, s);
        FitUpper(iload, i0, m, s);
      }
    }
  }

  lemma RatioAboveOne(iload: real, i0: real, m: real)
    requires i0 > 0.0 && m == iload / (2.0 * i0)
    ensures m > 1.0 <==> iload > 2.0 * i0
  {
    assert m * (2.0 * i0) == iload;
    if m > 1.0 {
      MulLeftStrict(2.0 * i0, 1.0, m);
    } else {
      MulLeft(2.0 * i0, m, 1.0);
    }
  }

  lemma FitLower(iload: real, i0: real, m: real, s: Fingers)
    requires i0 > 0.0 && iload >= 0.0 && m == iload / (2.0 * i0) && s == Split(m)
    ensures s.nf as real * i0 <= iload
  {
    assert m * (2.0 * i0) == iload;
    assert m >= 0.0;
    MulLeft(i0, s.nf as real, 2.0 * m);
  }

  lemma FitUpper(iload: real, i0: real, m: real, s: Fingers)
    requires i0 > 0.0 && iload >= 0.0 && m == iload / (2.0 * i0) && s == Split(m)
    ensures iload < (s.nf as real + 2.0) * i0
  {
    assert m * (2.0 * i0) == iload;
    assert m >= 0.0;
    MulLeftStrict(i0, 2.0 * m, s.nf as real + 2.0);
  }

  lemma MulLeft(a: real, x: real, y: real)
    requires a > 0.0 && x <= y
    ensures x * a <= y * a
  {
  }

  lemma MulLeftStrict(a: real, x: real, y: real)
    requires a > 0.0 && x < y
    ensures x * a < y * a
  {
  }

  lemma MulCancelStrict(c: real, x: real, y: real)
    requires c > 0.0 && x * c < y * c
    ensures x < y
  {
  }

  /** Python's float floor division `a // b`. */
  function FloorDiv(a: real, b: real): int
    requires b != 0.0
  {
    (a / b).Floor
  }

  lemma FloorDivLower(a: real, b: real)
    requires b > 0.0
    ensures b * FloorDiv(a, b) as real <= a
  {
    var x := a / b;
    assert x * b == a;
    MulLeft(b, x.Floor as real, x);
  }

  lemma FloorDivUpper(a: real, b: real)
    requires b > 0.0
    ensures a < b * (FloorDiv(a, b) as real + 1.0)
  {
    var x := a / b;
    assert x * b == a;
    MulLeftStrict(b, x, x.Floor as real + 1.0);
  }

  lemma FloorDivNonneg(a: real, b: real)
    requires b > 0.0
    ensures a >= 0.0 ==> FloorDiv(a, b) >= 0
  {
    if a >= 0.0 {
      assert a / b >= 0.0;
    }
  }

  function Max(a: int, b: int): int { if a < b then b else a }

  function MaxReal(a: real, b: real): real { if a < b then b else a }

  /** The tail finger count: the smallest even count whose half carries
      strictly more than twice the larger unit current of the load and input
      pairs. */
  function TailFingers(idTail: real, loadIbias: real, inIbias: real): (nf: int)
    requires idTail > 0.0
    ensures nf % 2 == 0
    ensures idTail * nf as real / 2.0 > 2.0 * loadIbias
    ensures idTail * nf as real / 2.0 > 2.0 * inIbias
    ensures idTail * (nf - 2) as real / 2.0 <= 2.0 * MaxReal(loadIbias, inIbias)
    ensures loadIbias >= 0.0 || inIbias >= 0.0 ==> nf >= 2
  {
    var a, b := FloorDiv(2.0 * loadIbias, idTail) + 1, FloorDiv(2.0 * inIbias, idTail) + 1;
    TailExceeds(idTail, loadIbias, a, Max(a, b));
    TailExceeds(idTail, inIbias, b, Max(a, b));
    TailMinimal(idTail, loadIbias, inIbias, a, b);
    FloorDivNonneg(2.0 * loadIbias, idTail);
    FloorDivNonneg(2.0 * inIbias, idTail);
    2 * Max(a, b)
  }

  lemma TailExceeds(idTail: real, unit: real, a: int, mx: int)
    requires idTail > 0.0 && a == FloorDiv(2.0 * unit, idTail) + 1 && a <= mx
    ensures idTail * (2 * mx) as real / 2.0 > 2.0 * unit
  {
    FloorDivUpper(2.0 * unit, idTail);
    MulLeft(idTail, a as real, mx as real);
    assert idTail * (2 * mx) as real / 2.0 == mx as real * idTail;
  }

  lemma TailMinimal(idTail: real, loadIbias: real, inIbias: real, a: int, b: int)
    requires idTail > 0.0
    requires a == FloorDiv(2.0 * loadIbias, idTail) + 1 && b == FloorDiv(2.0 * inIbias, idTail) + 1
    ensures idTail * (2 * Max(a, b) - 2) as real / 2.0 <= 2.0 * MaxReal(loadIbias, inIbias)
  {
    assert idTail * (2 * Max(a, b) - 2) as real / 2.0 == idTail * (Max(a, b) - 1) as real;
    if a < b {
      FloorDivLower(2.0 * inIbias, idTail);
    } else {
      FloorDivLower(2.0 * loadIbias, idTail);
    }
  }

  /** The example of a 2 mA load on a series device whose unit current is
      0.5 mA: four fingers at multiplier 1. */
  lemma DsnFetExample(vg: real)
    ensures
      var q: (real, real, real) -> OpPoint := (vgs, vds, vbs) => map["ibias" := 0.0005, "vstar" := 0.2, "cgg" := 0.0];
      DsnFet(q, "n", 1.8, 1.0, vg, 0.002) == Ok(SeriesFet(true, 4, 1.0, ResizeOp(q(vg - 1.0, 0.8, -1.0), 1.0)))
  {
    var q: (real, real, real) -> OpPoint := (vgs, vds, vbs) => map["ibias" := 0.0005, "vstar" := 0.2, "cgg" := 0.0];
    var op := SeriesOp(q, "n", 1.8, 1.0, vg);
    assert op == q(vg - 1.0, 0.8, -1.0);
    assert op["ibias"] == 0.0005;
    var m := 0.002 / (2.0 * 0.0005);
    assert m == 2.0;
    assert m.Floor == 2;
    assert Split(m) == Fingers(4, 1.0);
  }
}
