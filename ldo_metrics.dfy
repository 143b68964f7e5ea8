/** The post-processing of the regulator's linear-circuit analyses: static
    error from the loop gain, load regulation from the output transimpedance, and
    supply rejection with its bandwidth. The analyses themselves solve a
    small-signal netlist outside this model and appear as the fields of an
    `Evaluator`. */
module LdoMetrics {
  import opened Outcomes
  import opened LdoSizing

  /** The device roles, the keys `amp_in`, `amp_tail`, `amp_load`, `amp_mir`
      and `ser` of the sizing dictionaries. */
  datatype Role = AmpIn | AmpTail | AmpLoad | AmpMir | Ser

  /** One device: its operating point (already scaled by its multiplier),
      its finger count and its width multiplier. */
  datatype Device = Device(op: OpPoint, nf: int, wm: real)

  /** The five sized devices, one per role. */
  datatype Devices = Devices(ampIn: Device, ampTail: Device, ampLoad: Device, ampMir: Device, ser: Device)

  /** The entry of a role in the sizing dictionaries. */
  function At(d: Devices, r: Role): Device
  {
    match r
    case AmpIn => d.ampIn
    case AmpTail => d.ampTail
    case AmpLoad => d.ampLoad
    case AmpMir => d.ampMir
    case Ser => d.ser
  }

  /** The small-signal view of a candidate: the devices, the series and input
      device types, and the resistance of the supply. */
  datatype Netlist = Netlist(devices: Devices, serType: string, ampIn: string, rsource: real)

  /** The analyses of a netlist, with the load and decoupling capacitances
      where the analysis takes them. Each is the ratio of the last numerator
      and denominator coefficients of a transfer function, except the phase
      margin, the 3 dB frequency (absent when the response never falls 3 dB)
      and the decibel conversion `10*log10((1/g)**2)`. */
  datatype Evaluator = Evaluator(
    loopGain: Netlist -> real,
    phaseMargin: (Netlist, real, real) -> real,
    transimpedance: (Netlist, real, real) -> real,
    supplyGain: (Netlist, real, real) -> real,
    supplyW3db: (Netlist, real, real) -> Option<real>,
    rejectionDb: real -> real)

  function Abs(x: real): real { if x < 0.0 then -x else x }

  /** The static error left by a loop gain `a`: `1/(|a|+1)`. */
  function DcError(a: real): (e: real)
    ensures 0.0 < e <= 1.0
    ensures e == 1.0 <==> a == 0.0
    ensures e * (Abs(a) + 1.0) == 1.0
  {
    1.0 / (Abs(a) + 1.0)
  }

  /** More loop gain, less static error. */
  lemma DcErrorFalls(a: real, b: real)
    requires Abs(a) < Abs(b)
    ensures DcError(b) < DcError(a)
  {
    ReciprocalFalls(Abs(a) + 1.0, Abs(b) + 1.0, DcError(a), DcError(b));
  }

  /** Of two positive numbers, the larger has the smaller reciprocal. */
  lemma ReciprocalFalls(x: real, y: real, ex: real, ey: real)
    requires 0.0 < x < y && 0.0 < ey
    requires ex * x == 1.0 && ey * y == 1.0
    ensures ey < ex
  {
    if ey >= ex {
      MulLeft(x, ex, ey);
      MulLeftStrict(ey, x, y);
      assert false;
    }
  }

  /** A bound `t` on the static error is a bound on the loop gain:
      `t * (|a| + 1) > 1`. */
  lemma DcErrorBelow(a: real, t: real)
    requires t > 0.0
    ensures DcError(a) < t <==> t * (Abs(a) + 1.0) > 1.0
  {
    var e, g := DcError(a), Abs(a) + 1.0;
    if e < t {
      MulLeftStrict(g, e, t);
    } else {
      MulLeft(g, t, e);
    }
  }

  /** Load regulation for a 20% load step: the transimpedance from output
      current to output voltage times `0.2 * iout`, relative to the output
      voltage. */
  function LoadReg(ev: Evaluator, net: Netlist, cload: real, cdecap: real, vout: real, iout: real): (r: Result<real>)
    ensures r.Err? <==> vout == 0.0
    ensures r.Err? ==> r.fault == ZeroDivision
    ensures r.Ok? ==> r.value * vout == 0.2 * iout * ev.transimpedance(net, cload, cdecap)
  {
    if vout == 0.0 then Err(ZeroDivision)
    else Ok(ev.transimpedance(net, cload, cdecap) * 0.2 * iout / vout)
  }

  /** The supply-rejection analysis answers either a pair or, when the supply
      does not reach the output at all, a bare infinity. */
  datatype Rejection = BareInf | Pair(psrr: real, fbw: real)

  /** `2*np.pi` */
  const TwoPi: real := 6.283185307179586

  function Psrr(ev: Evaluator, net: Netlist, cload: real, cdecap: real): (p: Rejection)
    ensures p.BareInf? <==> ev.supplyGain(net, cload, cdecap) == 0.0
    ensures p.Pair? ==> p.psrr == ev.rejectionDb(ev.supplyGain(net, cload, cdecap))
    ensures p.Pair? ==> p.fbw * TwoPi == match ev.supplyW3db(net, cload, cdecap) case None => 0.0 case Some(w) => w
  {
    var gain := ev.supplyGain(net, cload, cdecap);
    if gain == 0.0 then BareInf
    else
      var w := match ev.supplyW3db(net, cload, cdecap) case None => 0.0 case Some(w) => w;
      Pair(ev.rejectionDb(gain), w / TwoPi)
  }

  /** The bandwidth is never negative when the 3 dB frequency is not, and is
      zero when there is none. */
  lemma PsrrBandwidth(ev: Evaluator, net: Netlist, cload: real, cdecap: real)
    requires ev.supplyGain(net, cload, cdecap) != 0.0
    ensures ev.supplyW3db(net, cload, cdecap).None? ==> Psrr(ev, net, cload, cdecap).fbw == 0.0
    ensures ev.supplyW3db(net, cload, cdecap).Some? && ev.supplyW3db(net, cload, cdecap).value >= 0.0 ==> Psrr(ev, net, cload, cdecap).fbw >= 0.0
  {
    var p := Psrr(ev, net, cload, cdecap);
    if p.fbw < 0.0 {
      MulLeftStrict(TwoPi, p.fbw, 0.0);
    }
  }
}
