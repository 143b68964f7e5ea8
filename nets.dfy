/** Schematic net and instance names.

    The generators hand the framework strings such as `mid<5:0>`, `Z,mid<3:1>`
    or `<*2>bpb<1>`. Here such a string is a list of `Net` terms: `Render`
    gives back the exact text, and `Bits` gives the single-bit signals the
    text stands for under the schematic bus convention (a range `name<hi:lo>`
    lists its bits from `hi` to `lo`, `<*n>x` repeats `x` n times, a comma
    list concatenates). When an array of instances `X<hi:lo>` is wired to a
    net, the instance at position p of the array receives bit p of the net. */
module Nets {
  import opened Numerals

  datatype Net =
    | Wire(name: string)                     // VDD
    | Bit(name: string, index: int)          // mid<3>
    | Range(name: string, hi: int, lo: int)  // mid<5:0>
    | Repeat(count: nat, net: Net)           // <*2>bpb<1>

  datatype Signal = Scalar(name: string) | Indexed(name: string, index: int)

  /** A pin rename, removal or addition requested from the framework. */
  datatype PinEdit = Rename(pin: string, to: string) | Remove(pin: string) | Add(pin: string)

  function Render(n: Net): string
  {
    match n
    case Wire(s) => s
    case Bit(s, i) => s + "<" + IntToString(i) + ">"
    case Range(s, hi, lo) => s + "<" + IntToString(hi) + ":" + IntToString(lo) + ">"
    case Repeat(k, m) => "<*" + IntToString(k) + ">" + Render(m)
  }

  function Repeated(bs: seq<Signal>, k: nat): seq<Signal>
  {
    if k == 0 then [] else bs + Repeated(bs, k - 1)
  }

  function Bits(n: Net): seq<Signal>
  {
    match n
    case Wire(s) => [Scalar(s)]
    case Bit(s, i) => [Indexed(s, i)]
    case Range(s, hi, lo) =>
      if hi >= lo then seq(hi - lo + 1, k => Indexed(s, hi - k))
      else seq(lo - hi + 1, k => Indexed(s, hi + k))
    case Repeat(k, m) => Repeated(Bits(m), k)
  }

  function BitsOf(ns: seq<Net>): seq<Signal>
  {
    if ns == [] then [] else Bits(ns[0]) + BitsOf(ns[1..])
  }

  function Width(ns: seq<Net>): nat { |BitsOf(ns)| }

  lemma {:induction false} BitsOfAppend(a: seq<Net>, b: seq<Net>)
    ensures BitsOf(a + b) == BitsOf(a) + BitsOf(b)
  {
    if a == [] {
      assert a + b == b;
    } else {
      assert (a + b)[0] == a[0];
      assert (a + b)[1..] == a[1..] + b;
      BitsOfAppend(a[1..], b);
    }
  }

  lemma BitsOfPair(a: Net, b: Net)
    ensures BitsOf([a, b]) == Bits(a) + Bits(b)
  {
    assert [a, b][1..] == [b];
    assert [b][1..] == [];
    assert BitsOf([b]) == Bits(b) + BitsOf([]);
    assert Bits(b) + [] == Bits(b);
  }

  /** The bits of a descending range. */
  lemma RangeBits(s: string, hi: int, lo: int)
    requires hi >= lo
    ensures |Bits(Range(s, hi, lo))| == hi - lo + 1
    ensures forall k :: 0 <= k < hi - lo + 1 ==> Bits(Range(s, hi, lo))[k] == Indexed(s, hi - k)
  {
  }

  /** The set of indices a descending range of `s` covers. */
  lemma RangeCovers(s: string, hi: int, lo: int, i: int)
    requires hi >= lo
    ensures Indexed(s, i) in Bits(Range(s, hi, lo)) <==> lo <= i <= hi
  {
    if lo <= i <= hi {
      assert Bits(Range(s, hi, lo))[hi - i] == Indexed(s, i);
    }
  }
}
