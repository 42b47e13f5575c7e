/**
 * splitz_new_opt: cuts a recorded acquisition into forward and backward
 * sweeps at breakpoints found by a change-point detector. The detector is
 * an input here (the breakpoints pts); the data rows are (gate voltage,
 * drain current) pairs after a header row.
 */
module Splitz {
  import opened PyCore

  /** Number of data points per sweep. */
  const NumSweep := 793
  /** Points dropped at each end of a sweep. */
  const Trim := 20

  /** One row of the data table: gate voltage and drain current. */
  datatype Row = Row(gate: real, ids: real)

  /** V: the gate voltage column of data[1:], the header row skipped. */
  function Gates(data: seq<Row>): (v: seq<real>)
    ensures |v| == Max(0, |data| - 1)
    ensures forall k :: 0 <= k < |v| ==> v[k] == data[k + 1].gate
  {
    if |data| <= 1 then [] else seq(|data| - 1, k requires 0 <= k < |data| - 1 => data[k + 1].gate)
  }

  /** np.diff: the differences of consecutive elements. */
  function Diff(v: seq<real>): (d: seq<real>)
    ensures |d| == Max(0, |v| - 1)
    ensures forall k :: 0 <= k < |d| ==> d[k] == v[k + 1] - v[k]
  {
    if |v| <= 1 then [] else seq(|v| - 1, k requires 0 <= k < |v| - 1 => v[k + 1] - v[k])
  }

  /** The direction test `np.mean(dv[p1:p2]) > 0`: the mean of an empty
      slice is NaN, and NaN > 0 is false. */
  function Rising(dv: seq<real>, p1: int, p2: int): bool
  {
    var w := PySlice(dv, p1, p2);
    |w| > 0 && Sum(w) / |w| as real > 0.0
  }

  /** The rows of one sweep starting at breakpoint p, trimmed at both ends. */
  function SweepSlice(data: seq<Row>, p: int): seq<Row>
  {
    PySlice(data, p + Trim, p + NumSweep - Trim)
  }

  /** Number of loop iterations: len(range(1, (n - 1) // 2)). */
  function SweepCount(n: nat): nat
  {
    if n >= 1 && (n - 1) / 2 > 1 then (n - 1) / 2 - 1 else 0
  }

  /** A trimmed sweep has at most NumSweep - 2 * Trim = 753 rows. */
  lemma SweepSliceLength(data: seq<Row>, p: int)
    ensures |SweepSlice(data, p)| <= NumSweep - 2 * Trim
  {
  }

  /** The sum of consecutive differences telescopes. */
  lemma SumDiffTelescopes(v: seq<real>, lo: nat, hi: nat)
    requires lo <= hi < |v|
    ensures Sum(Diff(v)[lo..hi]) == v[hi] - v[lo]
  {
    Telescope(v, Diff(v), lo, hi);
  }

  lemma {:induction false} Telescope(v: seq<real>, d: seq<real>, lo: nat, hi: nat)
    requires lo <= hi < |v| && |d| == |v| - 1
    requires forall k :: 0 <= k < |d| ==> d[k] == v[k + 1] - v[k]
    ensures Sum(d[lo..hi]) == v[hi] - v[lo]
  {
    if lo < hi {
      Telescope(v, d, lo, hi - 1);
      assert d[lo..hi] == d[lo..hi - 1] + [d[hi - 1]];
      SumAppend(d[lo..hi - 1], d[hi - 1]);
    } else {
      assert d[lo..hi] == [];
    }
  }

  /** Dividing by a positive count keeps the sign. */
  lemma DivKeepsSign(x: real, n: real)
    requires n > 0.0
    ensures x / n > 0.0 <==> x > 0.0
  {
    var q := x / n;
    assert q * n == x;
    if q > 0.0 {
      assert q * n > 0.0;
    } else {
      assert q * n <= 0.0;
    }
  }

  /** For breakpoints inside dv, the direction test holds exactly when the
      gate voltage at the second breakpoint exceeds the one at the first. */
  lemma RisingIffVoltageRises(data: seq<Row>, p1: int, p2: int)
    requires 0 <= p1 < p2 <= |Diff(Gates(data))|
    ensures Rising(Diff(Gates(data)), p1, p2) <==> Gates(data)[p2] > Gates(data)[p1]
  {
    var v := Gates(data);
    var dv := Diff(v);
    var w := PySlice(dv, p1, p2);
    PySliceNonNegative(dv, p1, p2);
    SumDiffTelescopes(v, p1, p2);
    DivKeepsSign(Sum(w), |w| as real);
  }

  /** The sweeps starting at breakpoints pts[1], pts[3], ..., the first n
      of them (off == 1), or at pts[2], pts[4], ... (off == 2). */
  function Sweeps(data: seq<Row>, pts: seq<int>, off: nat, n: nat): (r: seq<seq<Row>>)
    requires 2 * n - 2 + off < |pts| || n == 0
    ensures |r| == n
  {
    if n == 0 then [] else Sweeps(data, pts, off, n - 1) + [SweepSlice(data, pts[2 * (n - 1) + off])]
  }

  /** Sweep j of Sweeps is the slice at breakpoint pts[2j + off]. */
  lemma {:induction false} SweepsElements(data: seq<Row>, pts: seq<int>, off: nat, n: nat, j: nat)
    requires 2 * n - 2 + off < |pts| || n == 0
    requires j < n
    ensures Sweeps(data, pts, off, n)[j] == SweepSlice(data, pts[2 * j + off])
  {
    if j < n - 1 {
      SweepsElements(data, pts, off, n - 1, j);
    }
  }

  /** The loop bound (len(pts) - 1) // 2 and the number of iterations. */
  lemma {:induction false} HalfBounds(n: nat)
    requires n >= 3
    ensures 2 * ((n - 1) / 2) <= n - 1
    ensures (n - 1) / 2 > 1 ==> SweepCount(n) == (n - 1) / 2 - 1
    ensures (n - 1) / 2 <= 1 ==> SweepCount(n) == 0
    ensures 2 * SweepCount(n) < n
  {
  }

  /** The loop of splitz_new_opt: val runs over range(1, (len(pts) - 1) // 2)
      while pidx steps through pts[1], pts[3], ...; each iteration appends
      the sweep at pts[pidx] to one list and the one at pts[pidx + 1] to
      the other. Both branches of the source run this same loop and differ
      only in which of forw and back receives which sweep. */
  method CollectSweeps(data: seq<Row>, pts: seq<int>) returns (first: seq<seq<Row>>, second: seq<seq<Row>>)
    requires |pts| >= 3
    ensures 2 * SweepCount(|pts|) < |pts|
    ensures first == Sweeps(data, pts, 1, SweepCount(|pts|))
    ensures second == Sweeps(data, pts, 2, SweepCount(|pts|))
  {
    first, second := [], [];
    var half := (|pts| - 1) / 2;
    HalfBounds(|pts|);
    var pidx := 1;
    var val := 1;
    while val < half
      invariant 1 <= val && (val <= half || val == 1)
      invariant pidx == 2 * val - 1
      invariant first == Sweeps(data, pts, 1, val - 1)
      invariant second == Sweeps(data, pts, 2, val - 1)
    {
      first := first + [SweepSlice(data, pts[pidx])];
      second := second + [SweepSlice(data, pts[pidx + 1])];
      pidx := pidx + 2;
      val := val + 1;
    }
  }

  /** splitz_new_opt(data, pts): the sign of the mean voltage step between
      pts[1] and pts[2] says whether the sweep starting at pts[1] rises;
      then each iteration takes the sweeps at pts[pidx] and pts[pidx + 1]
      into the rising and falling lists. Fewer than three breakpoints make
      pts[1] or pts[2] raise IndexError. */
  method SplitSweeps(data: seq<Row>, pts: seq<int>) returns (r: Result<(seq<seq<Row>>, seq<seq<Row>>)>)
    ensures r.Ok? <==> |pts| >= 3
    ensures r.Err? ==> r.error == IndexError
    ensures r.Ok? ==> |r.value.0| == SweepCount(|pts|) && 2 * SweepCount(|pts|) < |pts|
    ensures r.Ok? ==>
      var first, second := Sweeps(data, pts, 1, SweepCount(|pts|)), Sweeps(data, pts, 2, SweepCount(|pts|));
      r.value == if Rising(Diff(Gates(data)), pts[1], pts[2]) then (first, second) else (second, first)
  {
    var v := Gates(data);
    var dv := Diff(v);
    if |pts| < 3 {
      return Err(IndexError);
    }
    var rising := Rising(dv, pts[1], pts[2]);
    var first, second := CollectSweeps(data, pts);
    if rising {
      r := Ok((first, second));
    } else {
      r := Ok((second, first));
    }
  }
}
