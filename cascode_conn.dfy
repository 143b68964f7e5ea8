/** Bus-range compression (`bus_list`) and the selection of self-tied drains
    of the cascode connector generator. */
module CascodeConn {
  import opened Outcomes
  import opened Numerals
  import opened Nets

  /** A run of consecutive indices from `hi` down to `lo`. */
  datatype Run = Run(hi: int, lo: int)

  /** `f'{start}'` when the run holds one index, `f'{start}:{stop}'` otherwise. */
  function RenderRun(r: Run): string
  {
    if r.hi == r.lo then IntToString(r.hi) else IntToString(r.hi) + ":" + IntToString(r.lo)
  }

  function RenderAll(runs: seq<Run>): (r: seq<string>)
    ensures |r| == |runs| && forall i :: 0 <= i < |runs| ==> r[i] == RenderRun(runs[i])
  {
    if runs == [] then [] else [RenderRun(runs[0])] + RenderAll(runs[1..])
  }

  function Elems(xs: seq<int>): set<int> { set x | x in xs }

  /** Some run of the list contains `x`. */
  predicate Covers(runs: seq<Run>, x: int)
  {
    exists k :: 0 <= k < |runs| && runs[k].lo <= x <= runs[k].hi
  }

  predicate StrictlyDesc(xs: seq<int>)
  {
    forall i, j :: 0 <= i < j < |xs| ==> xs[i] > xs[j]
  }

  /** Every run is non-empty, and an earlier run lies above a later one with
      at least one missing index in between. */
  predicate Separated(runs: seq<Run>)
  {
    && (forall i :: 0 <= i < |runs| ==> runs[i].lo <= runs[i].hi)
    && (forall i, j :: 0 <= i < j < |runs| ==> runs[i].lo > runs[j].hi + 1)
  }

  // ---------------------------------------------------------------------
  // sorted(set(idx_list), reverse=True)

  lemma ElemsCons(x: int, s: seq<int>)
    ensures Elems([x] + s) == {x} + Elems(s)
  {
    assert forall y :: y in [x] + s <==> y == x || y in s;
  }

  lemma ElemsEmpty(a: seq<int>)
    ensures Elems(a) == {} <==> a == []
  {
    if a != [] {
      assert a[0] in Elems(a);
    }
  }

  lemma HeadIsMax(a: seq<int>)
    requires StrictlyDesc(a) && a != []
    ensures forall x :: x in Elems(a) ==> x <= a[0]
    ensures Elems(a[1..]) == Elems(a) - {a[0]}
  {
    forall x | x in Elems(a) ensures x <= a[0] {
      var j :| 0 <= j < |a| && a[j] == x;
    }
    assert forall j :: 0 <= j < |a[1..]| ==> a[1..][j] < a[0];
    assert a[0] !in a[1..];
    assert a == [a[0]] + a[1..];
    ElemsCons(a[0], a[1..]);
  }

  /** A head above every element of a descending tail keeps the list descending. */
  lemma ConsDesc(h: int, t: seq<int>)
    requires StrictlyDesc(t)
    requires forall y :: y in Elems(t) ==> y < h
    ensures StrictlyDesc([h] + t)
  {
    forall i, j | 0 <= i < j < |[h] + t| ensures ([h] + t)[i] > ([h] + t)[j] {
      if i == 0 {
        assert ([h] + t)[j] == t[j - 1] && t[j - 1] in Elems(t);
      }
    }
  }

  /** Every later element of a descending list lies below its head. */
  lemma TailBelowHead(s: seq<int>)
    requires StrictlyDesc(s) && s != []
    ensures forall y :: y in Elems(s[1..]) ==> y < s[0]
  {
    forall y | y in Elems(s[1..]) ensures y < s[0] {
      var j :| 0 <= j < |s[1..]| && s[1..][j] == y;
      assert s[j + 1] == y;
    }
  }

  /** Placing a new largest index in front. */
  lemma InsertAtHead(x: int, s: seq<int>)
    requires StrictlyDesc(s) && s != [] && x > s[0]
    ensures StrictlyDesc([x] + s) && Elems([x] + s) == Elems(s) + {x}
  {
    ElemsCons(x, s);
    TailBelowHead(s);
    ConsDesc(x, s);
  }

  /** Keeping the head in front of a tail that received the new index. */
  lemma InsertBehindHead(x: int, s: seq<int>, t: seq<int>)
    requires StrictlyDesc(s) && s != [] && x < s[0]
    requires StrictlyDesc(t) && Elems(t) == Elems(s[1..]) + {x}
    ensures StrictlyDesc([s[0]] + t) && Elems([s[0]] + t) == Elems(s) + {x}
  {
    assert s == [s[0]] + s[1..];
    ElemsCons(s[0], s[1..]);
    ElemsCons(s[0], t);
    TailBelowHead(s);
    ConsDesc(s[0], t);
  }

  lemma DescTail(s: seq<int>)
    requires StrictlyDesc(s) && s != []
    ensures StrictlyDesc(s[1..])
  {
  }

  function InsertDesc(x: int, s: seq<int>): (r: seq<int>)
    requires StrictlyDesc(s)
    ensures StrictlyDesc(r) && Elems(r) == Elems(s) + {x}
  {
    if s == [] then [x]
    else if x > s[0] then
      InsertAtHead(x, s);
      [x] + s
    else if x == s[0] then
      assert x in Elems(s);
      s
    else
      DescTail(s);
      var t := InsertDesc(x, s[1..]);
      InsertBehindHead(x, s, t);
      [s[0]] + t
  }

  /** The distinct indices of a list, largest first. */
  function SortDistinctDesc(xs: seq<int>): (r: seq<int>)
    ensures StrictlyDesc(r) && Elems(r) == Elems(xs)
    ensures r == [] <==> xs == []
  {
    if xs == [] then []
    else
      assert xs == [xs[0]] + xs[1..];
      ElemsCons(xs[0], xs[1..]);
      var r := InsertDesc(xs[0], SortDistinctDesc(xs[1..]));
      assert xs[0] in Elems(r);
      r
  }

  /** A strictly descending list is determined by its elements. */
  lemma {:induction false} DescUnique(a: seq<int>, b: seq<int>)
    requires StrictlyDesc(a) && StrictlyDesc(b) && Elems(a) == Elems(b)
    ensures a == b
    decreases |a|
  {
    ElemsEmpty(a);
    ElemsEmpty(b);
    if a != [] && b != [] {
      HeadIsMax(a);
      HeadIsMax(b);
      assert a[0] in Elems(b) && b[0] in Elems(a);
      DescUnique(a[1..], b[1..]);
      assert a == [a[0]] + a[1..] && b == [b[0]] + b[1..];
    }
  }

  // ---------------------------------------------------------------------
  // The walk of bus_list over the sorted indices

  /** The runs the walk emits from a current run `start..prev` and the indices still to visit. */
  function RunsFrom(start: int, prev: int, rest: seq<int>): seq<Run>
    decreases |rest|
  {
    if rest == [] then [Run(start, prev)]
    else if rest[0] != prev - 1 then [Run(start, prev)] + RunsFrom(rest[0], rest[0], rest[1..])
    else RunsFrom(start, rest[0], rest[1..])
  }

  function Runs(xs: seq<int>): seq<Run>
  {
    if xs == [] then [] else RunsFrom(xs[0], xs[0], xs[1..])
  }

  /** What `bus_list(idx_list)` returns. */
  function BusListSpec(idxList: seq<int>): seq<string>
  {
    RenderAll(Runs(SortDistinctDesc(idxList)))
  }

  /** One index of the walk: it closes the current run or extends it. */
  lemma WalkStep(start: int, prev: int, cur: int, rest: seq<int>)
    ensures cur != prev - 1 ==> RunsFrom(start, prev, [cur] + rest) == [Run(start, prev)] + RunsFrom(cur, cur, rest)
    ensures cur == prev - 1 ==> RunsFrom(start, prev, [cur] + rest) == RunsFrom(start, cur, rest)
  {
    assert ([cur] + rest)[0] == cur && ([cur] + rest)[1..] == rest;
  }

  lemma {:induction false} RenderAllAppend(a: seq<Run>, b: seq<Run>)
    ensures RenderAll(a + b) == RenderAll(a) + RenderAll(b)
  {
  }

  /** `bus_list`: walks the indices largest first, closing a run whenever the
      next index is not one below the previous one. */
  method BusList(idxList: seq<int>) returns (busList: seq<string>)
    ensures busList == BusListSpec(idxList)
  {
    var indices := SortDistinctDesc(idxList);
    busList := [];
    if idxList != [] {
      var start := indices[0];
      var stop := indices[0];
      var prev := indices[0];
      ghost var done: seq<Run> := [];
      var i := 1;
      while i < |indices|
        invariant 1 <= i <= |indices|
        invariant prev == indices[i - 1]
        invariant Runs(indices) == done + RunsFrom(start, prev, indices[i..])
        invariant busList == RenderAll(done)
      {
        var cur := indices[i];
        assert indices[i..] == [cur] + indices[i + 1..];
        WalkStep(start, prev, cur, indices[i + 1..]);
        if cur != prev - 1 {
          stop := prev;
          RenderAllAppend(done, [Run(start, stop)]);
          var entry;
          if stop == start {
            entry := IntToString(start);
          } else {
            entry := IntToString(start) + ":" + IntToString(stop);
          }
          assert [entry] == RenderAll([Run(start, stop)]);
          busList := busList + [entry];
          done := done + [Run(start, stop)];
          assert done + RunsFrom(cur, cur, indices[i + 1..]) == Runs(indices);
          start := cur;
        }
        prev := cur;
        i := i + 1;
      }
      assert indices[i..] == [];
      RenderAllAppend(done, [Run(start, prev)]);
      var entry;
      if prev == start {
        entry := IntToString(start);
      } else {
        entry := IntToString(start) + ":" + IntToString(prev);
      }
      assert [entry] == RenderAll([Run(start, prev)]);
      busList := busList + [entry];
    }
  }

  // ---------------------------------------------------------------------
  // Properties of the runs

  lemma CoversCons(r: Run, rs: seq<Run>, x: int)
    ensures Covers([r] + rs, x) <==> r.lo <= x <= r.hi || Covers(rs, x)
  {
    if Covers(rs, x) {
      var k :| 0 <= k < |rs| && rs[k].lo <= x <= rs[k].hi;
      assert ([r] + rs)[k + 1] == rs[k];
    }
    if Covers([r] + rs, x) {
      var k :| 0 <= k < |[r] + rs| && ([r] + rs)[k].lo <= x <= ([r] + rs)[k].hi;
      if k > 0 {
        assert ([r] + rs)[k] == rs[k - 1];
      }
    }
    if r.lo <= x <= r.hi {
      assert ([r] + rs)[0] == r;
    }
  }

  /** The walk covers the current run and every index still to visit, and nothing else. */
  lemma {:induction false} RunsFromCovers(start: int, prev: int, rest: seq<int>, x: int)
    requires start >= prev
    ensures Covers(RunsFrom(start, prev, rest), x) <==> prev <= x <= start || x in rest
    decreases |rest|
  {
    if rest == [] {
      CoversCons(Run(start, prev), [], x);
      assert [Run(start, prev)] + [] == [Run(start, prev)];
    } else {
      assert rest == [rest[0]] + rest[1..];
      if rest[0] != prev - 1 {
        RunsFromCovers(rest[0], rest[0], rest[1..], x);
        CoversCons(Run(start, prev), RunsFrom(rest[0], rest[0], rest[1..]), x);
      } else {
        RunsFromCovers(start, rest[0], rest[1..], x);
      }
    }
  }

  /** A run above every run of a separated list, with a gap, keeps it separated. */
  lemma SeparatedCons(r: Run, t: seq<Run>, top: int)
    requires r.lo <= r.hi && top + 1 < r.lo
    requires Separated(t)
    requires forall k :: 0 <= k < |t| ==> t[k].hi <= top
    ensures Separated([r] + t)
    ensures forall k :: 0 <= k < |[r] + t| ==> ([r] + t)[k].hi <= r.hi
  {
    var u := [r] + t;
    assert forall k :: 1 <= k < |u| ==> u[k] == t[k - 1];
  }

  /** The walk emits separated runs, the first starting at `start` and none above it. */
  lemma {:induction false} RunsFromShape(start: int, prev: int, rest: seq<int>)
    requires start >= prev
    requires StrictlyDesc(rest)
    requires rest != [] ==> rest[0] < prev
    ensures |RunsFrom(start, prev, rest)| >= 1
    ensures RunsFrom(start, prev, rest)[0].hi == start
    ensures forall k :: 0 <= k < |RunsFrom(start, prev, rest)| ==> RunsFrom(start, prev, rest)[k].hi <= start
    ensures Separated(RunsFrom(start, prev, rest))
    decreases |rest|
  {
    if rest != [] {
      DescTail(rest);
      if rest[0] != prev - 1 {
        var t := RunsFrom(rest[0], rest[0], rest[1..]);
        RunsFromShape(rest[0], rest[0], rest[1..]);
        SeparatedCons(Run(start, prev), t, rest[0]);
      } else {
        RunsFromShape(start, rest[0], rest[1..]);
      }
    }
  }

  /** The runs of a strictly descending list are separated and empty only for the empty list. */
  lemma RunsShape(xs: seq<int>)
    requires StrictlyDesc(xs)
    ensures Separated(Runs(xs))
    ensures Runs(xs) == [] <==> xs == []
  {
    if xs != [] {
      RunsFromShape(xs[0], xs[0], xs[1..]);
    }
  }

  /** The runs stand for exactly the elements of the list. */
  lemma RunsCovers(xs: seq<int>, x: int)
    ensures Covers(Runs(xs), x) <==> x in xs
  {
    if xs != [] {
      RunsFromCovers(xs[0], xs[0], xs[1..], x);
      assert xs == [xs[0]] + xs[1..];
    }
  }

  /** Runs are maximal: just above each run that follows another lies an index
      the runs do not cover, below the preceding run. */
  lemma GapIsMissing(runs: seq<Run>, i: int)
    requires Separated(runs)
    requires 0 <= i < |runs| - 1
    ensures !Covers(runs, runs[i + 1].hi + 1)
    ensures runs[i + 1].hi < runs[i + 1].hi + 1 < runs[i].lo
  {
    var g := runs[i + 1].hi + 1;
    forall k | 0 <= k < |runs| ensures !(runs[k].lo <= g <= runs[k].hi) {
      if k > i + 1 {
        assert runs[i + 1].lo > runs[k].hi + 1;
      }
    }
  }

  /** The bus_list entries are in strictly descending order and do not overlap. */
  lemma BusListDescending(idxList: seq<int>, i: int, j: int)
    requires 0 <= i < j < |Runs(SortDistinctDesc(idxList))|
    ensures var runs := Runs(SortDistinctDesc(idxList));
      runs[i].hi >= runs[i].lo > runs[j].hi + 1 && runs[j].hi >= runs[j].lo
  {
    RunsShape(SortDistinctDesc(idxList));
  }

  // ---------------------------------------------------------------------
  // Reading an entry back

  function ColonAt(s: string): (k: nat)
    ensures k <= |s|
  {
    if s == [] then 0 else if s[0] == ':' then 0 else 1 + ColonAt(s[1..])
  }

  /** The run an entry `k` or `a:b` denotes. */
  function ParseRun(s: string): Option<Run>
  {
    var k := ColonAt(s);
    if k == |s| then
      match ParseInt(s)
      case Some(i) => Some(Run(i, i))
      case None => None
    else
      match (ParseInt(s[..k]), ParseInt(s[k + 1..]))
      case (Some(a), Some(b)) => Some(Run(a, b))
      case _ => None
  }

  lemma {:induction false} ColonAfterNumber(u: string, v: string)
    requires forall k :: 0 <= k < |u| ==> u[k] != ':'
    ensures ColonAt(u + v) == |u| + ColonAt(v)
  {
    if u != [] {
      assert (u + v)[1..] == u[1..] + v;
      ColonAfterNumber(u[1..], v);
    } else {
      assert u + v == v;
    }
  }

  lemma ParseRenderRun(r: Run)
    ensures ParseRun(RenderRun(r)) == Some(r)
  {
    IntToStringChars(r.hi);
    IntRoundTrip(r.hi);
    IntRoundTrip(r.lo);
    var u := IntToString(r.hi);
    if r.hi == r.lo {
      ColonAfterNumber(u, "");
      assert u + "" == u;
    } else {
      var v := ":" + IntToString(r.lo);
      var s := u + v;
      assert RenderRun(r) == s;
      ColonAfterNumber(u, v);
      assert ColonAt(v) == 0;
      assert s[..|u|] == u;
      assert s[|u| + 1..] == IntToString(r.lo);
    }
  }

  /** The runs a list of entries denotes, or None if an entry is malformed. */
  function ParseAll(entries: seq<string>): Option<seq<Run>>
  {
    if entries == [] then Some([])
    else
      match (ParseRun(entries[0]), ParseAll(entries[1..]))
      case (Some(r), Some(rest)) => Some([r] + rest)
      case _ => None
  }

  lemma {:induction false} ParseAllRendered(runs: seq<Run>)
    ensures ParseAll(RenderAll(runs)) == Some(runs)
  {
    if runs != [] {
      ParseRenderRun(runs[0]);
      ParseAllRendered(runs[1..]);
      assert RenderAll(runs)[1..] == RenderAll(runs[1..]);
      assert runs == [runs[0]] + runs[1..];
    }
  }

  /** Round trip: every entry of `bus_list(idx_list)` reads back as a run, and
      the runs together hold exactly the indices of the input. */
  lemma BusListRoundTrip(idxList: seq<int>, x: int)
    ensures ParseAll(BusListSpec(idxList)).Some?
    ensures Covers(ParseAll(BusListSpec(idxList)).value, x) <==> x in idxList
  {
    var sorted := SortDistinctDesc(idxList);
    ParseAllRendered(Runs(sorted));
    RunsCovers(sorted, x);
    assert x in Elems(sorted) <==> x in Elems(idxList);
  }

  /** The entries depend only on the set of indices: duplicates and order are ignored. */
  lemma BusListSetOnly(xs: seq<int>, ys: seq<int>)
    requires Elems(xs) == Elems(ys)
    ensures BusListSpec(xs) == BusListSpec(ys)
  {
    DescUnique(SortDistinctDesc(xs), SortDistinctDesc(ys));
  }

  lemma ExampleSorted()
    ensures SortDistinctDesc([1, 2, 5, 6, 7, 9]) == [9, 7, 6, 5, 2, 1]
  {
    assert StrictlyDesc([9, 7, 6, 5, 2, 1]);
    assert Elems([1, 2, 5, 6, 7, 9]) == Elems([9, 7, 6, 5, 2, 1]) by {
      assert forall x :: x in [1, 2, 5, 6, 7, 9] <==> x in [9, 7, 6, 5, 2, 1];
    }
    DescUnique(SortDistinctDesc([1, 2, 5, 6, 7, 9]), [9, 7, 6, 5, 2, 1]);
  }

  lemma ExampleRuns()
    ensures Runs([9, 7, 6, 5, 2, 1]) == [Run(9, 9), Run(7, 5), Run(2, 1)]
  {
    assert [9, 7, 6, 5, 2, 1][1..] == [7, 6, 5, 2, 1];
    assert [7, 6, 5, 2, 1][1..] == [6, 5, 2, 1];
    assert [6, 5, 2, 1][1..] == [5, 2, 1];
    assert [5, 2, 1][1..] == [2, 1];
    assert [2, 1][1..] == [1];
    assert [1][1..] == [];
    assert RunsFrom(2, 2, [1]) == [Run(2, 1)];
    assert RunsFrom(7, 5, [2, 1]) == [Run(7, 5), Run(2, 1)];
    assert RunsFrom(7, 7, [6, 5, 2, 1]) == [Run(7, 5), Run(2, 1)];
  }

  lemma ExampleRendered()
    ensures RenderAll([Run(9, 9), Run(7, 5), Run(2, 1)]) == ["9", "7:5", "2:1"]
  {
    assert IntToString(9) == "9" && IntToString(7) == "7" && IntToString(5) == "5";
    assert IntToString(2) == "2" && IntToString(1) == "1";
    assert RenderRun(Run(9, 9)) == "9";
    assert RenderRun(Run(7, 5)) == "7:5";
    assert RenderRun(Run(2, 1)) == "2:1";
  }

  /** The example of the doc-comment. */
  lemma BusListExample()
    ensures BusListSpec([1, 2, 5, 6, 7, 9]) == ["9", "7:5", "2:1"]
  {
    ExampleSorted();
    ExampleRuns();
    ExampleRendered();
  }

  // ---------------------------------------------------------------------
  // Self-tied drains on the A side of design()

  ghost predicate Contiguous(s: set<int>)
  {
    forall a, b, c :: a in s && c in s && a <= b <= c ==> b in s
  }

  /** The self-tied indices form at most one run exactly when they are contiguous. */
  lemma AtMostOneRunIffContiguous(xs: seq<int>)
    requires StrictlyDesc(xs)
    ensures |Runs(xs)| <= 1 <==> Contiguous(Elems(xs))
  {
    RunsShape(xs);
    var runs := Runs(xs);
    if |runs| == 1 {
      forall a, b, c | a in Elems(xs) && c in Elems(xs) && a <= b <= c
        ensures b in Elems(xs)
      {
        RunsCovers(xs, a);
        RunsCovers(xs, b);
        RunsCovers(xs, c);
      }
    } else if |runs| >= 2 {
      var g := runs[1].hi + 1;
      GapIsMissing(runs, 0);
      RunsCovers(xs, g);
      RunsCovers(xs, runs[1].hi);
      RunsCovers(xs, runs[0].lo);
      assert runs[1].hi in Elems(xs) && runs[0].lo in Elems(xs) && g !in Elems(xs);
    }
  }

  /** The indices i, in increasing order, whose drain connection is `pin<i>`. */
  function SelfTied(conns: seq<string>, pin: string): seq<int>
  {
    if conns == [] then []
    else
      var n := |conns| - 1;
      SelfTied(conns[..n], pin) + (if conns[n] == Render(Bit(pin, n)) then [n] else [])
  }

  lemma {:induction false} SelfTiedMembers(conns: seq<string>, pin: string, i: int)
    ensures i in SelfTied(conns, pin) <==> 0 <= i < |conns| && conns[i] == Render(Bit(pin, i))
  {
    if conns != [] {
      var n := |conns| - 1;
      SelfTiedMembers(conns[..n], pin, i);
      if 0 <= i < n {
        assert conns[..n][i] == conns[i];
      }
    }
  }

  /** The loop of design() that collects the self-tied indices. */
  method SelfTiedIndices(conns: seq<string>, pin: string) returns (idxList: seq<int>)
    ensures idxList == SelfTied(conns, pin)
  {
    idxList := [];
    for i := 0 to |conns|
      invariant idxList == SelfTied(conns[..i], pin)
    {
      assert conns[..i + 1][..i] == conns[..i];
      if conns[i] == Render(Bit(pin, i)) {
        idxList := idxList + [i];
      }
    }
    assert conns[..|conns|] == conns;
  }

  function TiedRuns(conns: seq<string>, pin: string): seq<Run>
  {
    Runs(SortDistinctDesc(SelfTied(conns, pin)))
  }

  /** The pin edit for one side: removed with no self-tied drain, renamed to the single run otherwise. */
  function DrainPin(pin: string, runs: seq<Run>): PinEdit
  {
    if runs == [] then Remove(pin) else Rename(pin, pin + "<" + RenderRun(runs[0]) + ">")
  }

  /** The selection for one side: the pin edit, or the assertion when the
      self-tied indices do not form a single run. */
  method TiedPinEdit(conns: seq<string>, pin: string) returns (r: Result<PinEdit>)
    ensures r.Ok? <==> |TiedRuns(conns, pin)| < 2
    ensures r.Ok? ==> r.value == DrainPin(pin, TiedRuns(conns, pin))
  {
    var idxList := SelfTiedIndices(conns, pin);
    var busList := BusList(idxList);
    if |busList| >= 2 {
      return Err(AssertionFailed("interspersed self-biasing"));
    }
    if busList != [] {
      r := Ok(Rename(pin, pin + "<" + busList[0] + ">"));
    } else {
      r := Ok(Remove(pin));
    }
  }

  /** `l[::-1]`: the list in reverse order. */
  function Reversed(parts: seq<string>): (r: seq<string>)
    ensures |r| == |parts|
    ensures forall i :: 0 <= i < |parts| ==> r[i] == parts[|parts| - 1 - i]
  {
    if parts == [] then [] else Reversed(parts[1..]) + [parts[0]]
  }

  /** `','.join(parts)`. */
  function JoinComma(parts: seq<string>): string
  {
    if parts == [] then ""
    else if |parts| == 1 then parts[0]
    else parts[0] + "," + JoinComma(parts[1..])
  }

  /** A joined list is empty exactly when the list is empty or holds one
      empty string; with two or more parts the separator is there. */
  lemma JoinCommaEmpty(parts: seq<string>)
    ensures JoinComma(parts) == "" <==> parts == [] || parts == [""]
  {
    if |parts| >= 2 {
      assert JoinComma(parts)[|parts[0]|] == ',';
    }
  }

  /** The drain connection string of one side: the list reversed and joined. */
  function DrainConn(conns: seq<string>): (r: string)
    ensures r == "" <==> conns == [] || conns == [""]
  {
    var rev := Reversed(conns);
    JoinComma(rev)
  }

  /** The last character of `s`, as a one-character string, or the index
      fault for an empty string. */
  function LastChar(s: string): (r: Result<string>)
    ensures r.Err? <==> s == ""
    ensures r.Ok? ==> |r.value| == 1 && r.value[0] == s[|s| - 1]
  {
    if s == "" then Err(IndexOutOfRange) else Ok([s[|s| - 1]])
  }

  /** The test guarding the removal of the DA pin, with `and` evaluating its
      right operand only when the left one holds. */
  function DaTest(dnaConn: string, dpaConn: string): Result<bool>
  {
    var n := LastChar(dnaConn);
    if n.Err? then Err(n.fault)
    else if n.value == "DA" then Ok(false)
    else
      var p := LastChar(dpaConn);
      if p.Err? then Err(p.fault) else Ok(p.value != "DA")
  }

  /** A single character never equals the two-character "DA", so the test
      fails only by indexing an empty string, and otherwise always removes
      the pin. */
  lemma DaTestOutcome(dnaConn: string, dpaConn: string)
    ensures DaTest(dnaConn, dpaConn).Err? <==> dnaConn == "" || dpaConn == ""
    ensures DaTest(dnaConn, dpaConn).Ok? ==> DaTest(dnaConn, dpaConn) == Ok(true)
  {
    var n := LastChar(dnaConn);
    if n.Ok? {
      assert |n.value| != |"DA"|;
      var p := LastChar(dpaConn);
      if p.Ok? {
        assert |p.value| != |"DA"|;
      }
    }
  }

  /** The edit of the DA pin, when the test removes it, and the DNA / DPA pin edits. */
  datatype DrainPins = DrainPins(da: Option<PinEdit>, dna: PinEdit, dpa: PinEdit)

  /** The checks of the drain-connection lists, the DA pin test and the
      DNA / DPA pin edits of design(). */
  method DrainPinEdits(nDrainConn: seq<string>, pDrainConn: seq<string>, nStack: int, pStack: int)
    returns (r: Result<DrainPins>)
    ensures r.Ok? <==>
      && |nDrainConn| == nStack && |pDrainConn| == pStack
      && nDrainConn != [] && nDrainConn != [""] && pDrainConn != [] && pDrainConn != [""]
      && |TiedRuns(nDrainConn, "DNA")| < 2 && |TiedRuns(pDrainConn, "DPA")| < 2
    ensures |nDrainConn| == nStack && |pDrainConn| == pStack && (nDrainConn == [] || nDrainConn == [""]) ==>
      r == Err(IndexOutOfRange)
    ensures |nDrainConn| == nStack && |pDrainConn| == pStack && (pDrainConn == [] || pDrainConn == [""]) ==>
      r == Err(IndexOutOfRange)
    ensures r.Ok? ==> r.value == DrainPins(Some(Remove("DA")), DrainPin("DNA", TiedRuns(nDrainConn, "DNA")),
                                           DrainPin("DPA", TiedRuns(pDrainConn, "DPA")))
  {
    if |nDrainConn| != nStack {
      return Err(AssertionFailed("n_drain connection list length"));
    }
    if |pDrainConn| != pStack {
      return Err(AssertionFailed("p_drain connection list length"));
    }
    var dnaConn := DrainConn(nDrainConn);
    var dpaConn := DrainConn(pDrainConn);
    DaTestOutcome(dnaConn, dpaConn);
    var test := DaTest(dnaConn, dpaConn);
    if test.Err? {
      return Err(test.fault);
    }
    var da := if test.value then Some(Remove("DA")) else None;
    var dna := TiedPinEdit(nDrainConn, "DNA");
    if dna.Err? {
      return Err(dna.fault);
    }
    var dpa := TiedPinEdit(pDrainConn, "DPA");
    if dpa.Err? {
      return Err(dpa.fault);
    }
    r := Ok(DrainPins(da, dna.value, dpa.value));
  }

  /** A side's pin is removed exactly when none of its drains is self-tied. */
  lemma DrainPinRemoved(conns: seq<string>, pin: string)
    ensures DrainPin(pin, TiedRuns(conns, pin)) == Remove(pin) <==> SelfTied(conns, pin) == []
  {
    RunsShape(SortDistinctDesc(SelfTied(conns, pin)));
  }
}
