/**
 * Post-processing of one acquisition in the sampling thread: the slope and
 * peak pass over the gate-voltage channel, the scan that cuts the triangle
 * wave into forward and reverse sweeps between peaks, and the clean-up
 * that drops the last sweep and the short ones.
 *
 * The three parallel lists of the source (start, end, sweep_type) are one
 * sequence of Segment values here; they are appended and popped together,
 * so they always have the same length.
 */
module Segmenter {
  import opened PyCore

  /** Samples between the two points whose difference gives the slope. */
  const SlopeRange := 25
  /** Number of sweeps of each direction the scan keeps at most. */
  const Secs := 16
  /** Capacity of every sample array. */
  const NN := 100000
  /** Sweeps shorter than this many samples are discarded. */
  const MinSweepLength := 500

  /** REVERSE: the gate voltage falls (after a positive peak);
      FORWARD: it rises (after a negative peak). */
  datatype Direction = Forward | Reverse

  /** One sweep: sample indices [start, end) and its direction. */
  datatype Segment = Segment(start: nat, end: nat, dir: Direction)

  function Flip(d: Direction): Direction
  {
    if d == Forward then Reverse else Forward
  }

  /** The slope value that marks samples of a sweep in direction d. */
  function DirSlope(d: Direction): int
  {
    if d == Reverse then -1 else 1
  }

  /** The peak value that opens a sweep in direction d. */
  function PeakSign(d: Direction): int
  {
    if d == Reverse then 1 else -1
  }

  // ---------------------------------------------------------------------
  // Slope and peak pass

  /** Slope of the gate-voltage channel at sample i: 0 for the first
      SlopeRange + 1 samples, otherwise -1 when the voltage SlopeRange
      samples earlier was higher and 1 otherwise. */
  function SlopeAt(vb: seq<real>, i: nat): (r: int)
    requires i < |vb|
    ensures r == 0 <==> i <= SlopeRange
    ensures r == -1 <==> i > SlopeRange && vb[i - SlopeRange] > vb[i]
  {
    if i > SlopeRange then
      if (vb[i - SlopeRange] - vb[i]) / SlopeRange as real > 0.0 then -1 else 1
    else 0
  }

  /** Peak marker at sample i: where the slope changes, -1 (a minimum of
      the triangle) when it becomes rising and 1 (a maximum) otherwise. */
  function PeakAt(vb: seq<real>, i: nat): int
    requires i < |vb|
  {
    if i > SlopeRange && SlopeAt(vb, i) != SlopeAt(vb, i - 1) then
      (if SlopeAt(vb, i) == 1 then -1 else 1)
    else 0
  }

  /** Sample SlopeRange + 1 always carries a peak, because the slope goes
      from 0 to +-1 there; the scan's guard i > SlopeRange + 1 is what
      keeps it from opening a sweep (see SegmentOk). */
  lemma FirstSlopeIsPeak(vb: seq<real>)
    requires |vb| > SlopeRange + 1
    ensures PeakAt(vb, SlopeRange + 1) != 0
  {
  }

  /** The first half of the post-processing loop: fills _slope and _peak
      for the |vb| samples taken; the rest of both arrays is untouched. */
  method SlopePeakPass(vb: seq<real>, slope: array<int>, peak: array<int>)
    requires slope.Length == NN && peak.Length == NN && slope != peak
    requires |vb| <= NN
    modifies slope, peak
    ensures forall j :: 0 <= j < |vb| ==> slope[j] == SlopeAt(vb, j) && peak[j] == PeakAt(vb, j)
    ensures forall j :: |vb| <= j < NN ==> slope[j] == old(slope[j]) && peak[j] == old(peak[j])
  {
    for i := 0 to |vb|
      invariant forall j :: 0 <= j < i ==> slope[j] == SlopeAt(vb, j) && peak[j] == PeakAt(vb, j)
      invariant forall j :: i <= j < NN ==> slope[j] == old(slope[j]) && peak[j] == old(peak[j])
    {
      if i > SlopeRange {
        if (vb[i - SlopeRange] - vb[i]) / SlopeRange as real > 0.0 {
          slope[i] := -1;
        } else {
          slope[i] := 1;
        }
      } else {
        slope[i] := 0;
      }
      if i > SlopeRange {
        if slope[i] != slope[i - 1] {
          if slope[i] == 1 {
            peak[i] := -1;
          } else {
            peak[i] := 1;
          }
        } else {
          peak[i] := 0;
        }
      } else {
        peak[i] := 0;
      }
    }
  }

  /** The arrays as the pass leaves them after t samples in freshly zeroed
      arrays: slope is 0 outside (SlopeRange, t) and +-1 inside, and peak
      marks exactly the slope changes inside (SlopeRange, t). */
  ghost predicate WellFormed(s: seq<int>, p: seq<int>, t: nat)
  {
    && |s| == NN && |p| == NN && t <= NN
    && (forall j :: 0 <= j < NN && (j <= SlopeRange || t <= j) ==> s[j] == 0)
    && (forall j :: SlopeRange < j < t ==> s[j] == 1 || s[j] == -1)
    && (forall j :: 0 <= j < NN ==>
          p[j] == if SlopeRange < j < t && s[j] != s[j - 1] then (if s[j] == 1 then -1 else 1) else 0)
  }

  /** The pass on zeroed arrays establishes WellFormed. */
  lemma PassWellFormed(vb: seq<real>, s: seq<int>, p: seq<int>)
    requires |vb| <= NN && |s| == NN && |p| == NN
    requires forall j :: 0 <= j < |vb| ==> s[j] == SlopeAt(vb, j) && p[j] == PeakAt(vb, j)
    requires forall j :: |vb| <= j < NN ==> s[j] == 0 && p[j] == 0
    ensures WellFormed(s, p, |vb|)
  {
  }

  // ---------------------------------------------------------------------
  // Sweep scan

  /** What the scan promises of one sweep: it opens right after a peak of
      the matching sign beyond the first SlopeRange + 1 samples, the slope
      keeps the sweep's sign from that peak to its end, and the end is the
      first sample where the slope differs (or the array capacity). */
  ghost predicate SegmentOk(s: seq<int>, p: seq<int>, t: nat, g: Segment)
    requires |s| == NN && |p| == NN
  {
    && SlopeRange + 1 < g.start - 1 < t
    && g.start <= g.end <= t <= NN
    && p[g.start - 1] == PeakSign(g.dir)
    && s[g.start - 1] == DirSlope(g.dir)
    && (forall j :: g.start <= j < g.end ==> s[j] == DirSlope(g.dir))
    && (g.end == NN || s[g.end] != DirSlope(g.dir))
  }

  /** Consecutive sweeps abut at a peak and alternate in direction. */
  ghost predicate Chained(segs: seq<Segment>)
  {
    forall k :: 0 < k < |segs| ==> segs[k].start == segs[k - 1].end + 1 && segs[k].dir != segs[k - 1].dir
  }

  /** The peak value at one index, read off WellFormed. */
  lemma PeakFormula(s: seq<int>, p: seq<int>, t: nat, j: nat)
    requires WellFormed(s, p, t) && j < NN
    ensures SlopeRange < j < t ==> s[j] == 1 || s[j] == -1
    ensures p[j] == if SlopeRange < j < t && s[j] != s[j - 1] then (if s[j] == 1 then -1 else 1) else 0
  {
  }

  /** Inside a sweep the slope is constant, so there is no peak. */
  lemma InsideHasNoPeak(s: seq<int>, p: seq<int>, t: nat, g: Segment, q: nat)
    requires WellFormed(s, p, t) && SegmentOk(s, p, t, g)
    requires g.start <= q < g.end
    ensures p[q] == 0
  {
    assert s[q] == DirSlope(g.dir);
    assert s[q - 1] == DirSlope(g.dir);
  }

  /** Where a sweep ends before the last sample, a peak of the opposite
      sign opens the next one. */
  lemma EndIsPeak(s: seq<int>, p: seq<int>, t: nat, g: Segment)
    requires WellFormed(s, p, t) && SegmentOk(s, p, t, g)
    requires g.end < t
    ensures p[g.end] == PeakSign(Flip(g.dir)) && s[g.end] == DirSlope(Flip(g.dir))
  {
    assert s[g.end - 1] == DirSlope(g.dir);
  }

  /** The walk of one sweep: from `from`, advance while the slope keeps the
      value ds, stopping at the array capacity. */
  method Walk(slope: array<int>, from: nat, ds: int, ghost t: nat) returns (j: nat)
    requires slope.Length == NN && from < NN && from <= t <= NN && ds != 0
    requires forall q :: t <= q < NN ==> slope[q] == 0
    ensures from <= j <= t
    ensures forall q :: from <= q < j ==> slope[q] == ds
    ensures j == NN || slope[j] != ds
  {
    j := from;
    while slope[j] == ds
      invariant from <= j < NN && j <= t
      invariant forall q :: from <= q < j ==> slope[q] == ds
      decreases NN - j
    {
      j := j + 1;
      if j == NN {
        break;
      }
    }
  }

  /** The invariant of the scan loop after the samples before i were
      visited, with segs the sweeps recorded so far. */
  ghost predicate ScanInv(s: seq<int>, p: seq<int>, t: nat, segs: seq<Segment>, i: nat)
    requires |s| == NN && |p| == NN
  {
    && i <= t <= NN
    && (forall k :: 0 <= k < |segs| ==> SegmentOk(s, p, t, segs[k]))
    && Chained(segs)
    && (segs == [] ==> forall q :: SlopeRange + 1 < q < i ==> p[q] == 0)
    && (segs != [] ==> forall q :: SlopeRange + 1 < q < segs[0].start - 1 ==> p[q] == 0)
    && (segs != [] ==> segs[|segs| - 1].start <= i <= segs[|segs| - 1].end)
  }

  /** Visiting a sample that opens no sweep keeps the invariant. */
  lemma ScanSkip(s: seq<int>, p: seq<int>, t: nat, segs: seq<Segment>, i: nat)
    requires WellFormed(s, p, t) && ScanInv(s, p, t, segs, i) && i < t
    requires !(i > SlopeRange + 1 && (p[i] == 1 || p[i] == -1))
    ensures ScanInv(s, p, t, segs, i + 1)
  {
    PeakFormula(s, p, t, i);
    if segs != [] && i == segs[|segs| - 1].end {
      EndIsPeak(s, p, t, segs[|segs| - 1]);
    }
  }

  /** A peak opens a sweep whose slope is the peak's, and (after an
      earlier sweep) it is where that sweep ended, with the opposite sign. */
  lemma PeakOpens(s: seq<int>, p: seq<int>, t: nat, segs: seq<Segment>, i: nat, dir: Direction)
    requires WellFormed(s, p, t) && ScanInv(s, p, t, segs, i) && i < t
    requires i > SlopeRange + 1 && p[i] == PeakSign(dir)
    ensures s[i] == DirSlope(dir)
    ensures segs != [] ==> i == segs[|segs| - 1].end && dir == Flip(segs[|segs| - 1].dir)
  {
    PeakFormula(s, p, t, i);
    assert s[i] == 1 || s[i] == -1;
    if segs != [] {
      var last := segs[|segs| - 1];
      if i < last.end {
        InsideHasNoPeak(s, p, t, last, i);
      }
      EndIsPeak(s, p, t, last);
    }
  }

  /** A sweep opened at a peak i and walked to j is a sweep the scan
      may record. */
  lemma NewSegmentOk(s: seq<int>, p: seq<int>, t: nat, i: nat, j: nat, dir: Direction)
    requires |s| == NN && |p| == NN && i < t <= NN
    requires i > SlopeRange + 1 && p[i] == PeakSign(dir) && s[i] == DirSlope(dir)
    requires i + 1 <= j <= t && (forall q :: i + 1 <= q < j ==> s[q] == DirSlope(dir))
    requires j == NN || s[j] != DirSlope(dir)
    ensures SegmentOk(s, p, t, Segment(i + 1, j, dir))
  {
  }

  /** A sweep opened at a peak i and walked to j keeps the invariant. */
  lemma ScanOpen(s: seq<int>, p: seq<int>, t: nat, segs: seq<Segment>, i: nat, j: nat, dir: Direction)
    requires |s| == NN && |p| == NN && ScanInv(s, p, t, segs, i) && i < t
    requires i > SlopeRange + 1 && p[i] == PeakSign(dir) && s[i] == DirSlope(dir)
    requires segs != [] ==> i == segs[|segs| - 1].end && dir == Flip(segs[|segs| - 1].dir)
    requires i + 1 <= j <= t && (forall q :: i + 1 <= q < j ==> s[q] == DirSlope(dir))
    requires j == NN || s[j] != DirSlope(dir)
    ensures ScanInv(s, p, t, segs + [Segment(i + 1, j, dir)], i + 1)
  {
    var g := Segment(i + 1, j, dir);
    NewSegmentOk(s, p, t, i, j, dir);
    var segs' := segs + [g];
    forall k | 0 <= k < |segs'|
      ensures SegmentOk(s, p, t, segs'[k])
    {
      if k < |segs| {
        assert segs'[k] == segs[k];
      }
    }
    forall k | 0 < k < |segs'|
      ensures segs'[k].start == segs'[k - 1].end + 1 && segs'[k].dir != segs'[k - 1].dir
    {
      if k < |segs| {
        assert segs'[k] == segs[k] && segs'[k - 1] == segs[k - 1];
      }
    }
    assert segs'[0] == if segs == [] then g else segs[0];
  }

  /** What the scan returns: at most Secs sweeps of each direction, chained
      and each one a proper sweep; no peak past SlopeRange + 1 before the
      first sweep opens (none at all when no sweep is recorded); and,
      unless the scan stopped on its count, the last sweep runs to the
      end of the samples. */
  ghost predicate Scanned(s: seq<int>, p: seq<int>, t: nat, segs: seq<Segment>)
    requires |s| == NN && |p| == NN
  {
    && t <= NN
    && |segs| <= 2 * Secs && Chained(segs)
    && (forall k :: 0 <= k < |segs| ==> SegmentOk(s, p, t, segs[k]))
    && (segs == [] ==> forall q :: SlopeRange + 1 < q < t ==> p[q] == 0)
    && (segs != [] ==> forall q :: SlopeRange + 1 < q < segs[0].start - 1 && q < NN ==> p[q] == 0)
    && (0 < |segs| < 2 * Secs ==> segs[|segs| - 1].end == t)
  }

  /** The counters section_index_reverse and section_index_forward: they
      count the recorded sweeps of each direction, and since directions
      alternate, the direction of the last sweep is the one counted ahead
      (or the two counts are equal). */
  ghost predicate Counted(segs: seq<Segment>, rev: nat, fwd: nat)
  {
    && rev + fwd == |segs| && rev <= Secs && fwd <= Secs
    && (segs != [] && segs[|segs| - 1].dir == Reverse ==> rev == fwd || rev == fwd + 1)
    && (segs != [] && segs[|segs| - 1].dir == Forward ==> fwd == rev || fwd == rev + 1)
  }

  /** Recording a sweep of the direction opposite to the last one keeps
      the counters, and the row it fills in its section table (of Secs
      rows) exists. */
  lemma CountOpen(segs: seq<Segment>, rev: nat, fwd: nat, g: Segment)
    requires Counted(segs, rev, fwd) && !(rev == Secs && fwd == Secs)
    requires segs != [] ==> segs[|segs| - 1].dir == Flip(g.dir)
    ensures (if g.dir == Reverse then rev else fwd) < Secs
    ensures Counted(segs + [g], if g.dir == Reverse then rev + 1 else rev, if g.dir == Forward then fwd + 1 else fwd)
  {
  }

  /** What the scan promises when it stops: at the end of the samples,
      at a sweep that reaches the capacity, or with Secs sweeps of each
      direction. */
  lemma ScanExit(s: seq<int>, p: seq<int>, t: nat, segs: seq<Segment>, i: nat, rev: nat, fwd: nat)
    requires |s| == NN && |p| == NN && ScanInv(s, p, t, segs, i) && Counted(segs, rev, fwd)
    requires i == t || (segs != [] && segs[|segs| - 1].end == NN) || (rev == Secs && fwd == Secs)
    ensures Scanned(s, p, t, segs)
  {
    if 0 < |segs| < 2 * Secs {
      assert SegmentOk(s, p, t, segs[|segs| - 1]);
    }
  }

  /** The body of the scan at a peak i: the walk of the sweep it opens,
      which keeps the scan invariant and follows a sweep of the opposite
      direction. */
  method OpenSweep(slope: array<int>, peak: array<int>, t: nat, ghost segs: seq<Segment>, i: nat, dir: Direction)
    returns (j: nat)
    requires slope.Length == NN && peak.Length == NN
    requires WellFormed(slope[..], peak[..], t) && ScanInv(slope[..], peak[..], t, segs, i)
    requires SlopeRange + 1 < i < t && i + 1 < NN && peak[i] == PeakSign(dir)
    ensures i + 1 <= j <= t
    ensures ScanInv(slope[..], peak[..], t, segs + [Segment(i + 1, j, dir)], i + 1)
    ensures segs != [] ==> segs[|segs| - 1].dir == Flip(dir)
  {
    ghost var s, p := slope[..], peak[..];
    PeakOpens(s, p, t, segs, i, dir);
    j := Walk(slope, i + 1, DirSlope(dir), t);
    ScanOpen(s, p, t, segs, i, j, dir);
  }

  /** One iteration of the scan at sample i: a peak past SlopeRange + 1
      opens a sweep (recorded, and counted in section_index_reverse or
      section_index_forward), anything else is skipped. stop is the
      source's break: the sweep reached the capacity, or Secs sweeps of
      each direction are recorded. */
  method ScanStep(slope: array<int>, peak: array<int>, t: nat, segs: seq<Segment>, i: nat, rev: nat, fwd: nat)
    returns (r: Result<seq<Segment>>, rev': nat, fwd': nat, stop: bool)
    requires slope.Length == NN && peak.Length == NN && WellFormed(slope[..], peak[..], t)
    requires i < t && ScanInv(slope[..], peak[..], t, segs, i)
    requires Counted(segs, rev, fwd) && !(rev == Secs && fwd == Secs)
    ensures r.Err? ==> r.error == IndexError && t == NN && peak[NN - 1] != 0
    ensures r.Ok? ==> ScanInv(slope[..], peak[..], t, r.value, i + 1) && Counted(r.value, rev', fwd')
    ensures r.Ok? && !stop ==> !(rev' == Secs && fwd' == Secs)
    ensures r.Ok? && stop ==> r.value != [] && (r.value[|r.value| - 1].end == NN || (rev' == Secs && fwd' == Secs))
  {
    rev', fwd', stop := rev, fwd, false;
    if i > SlopeRange + 1 && (peak[i] == 1 || peak[i] == -1) {
      var dir := if peak[i] == 1 then Reverse else Forward;
      if i + 1 == NN {
        return Err(IndexError), rev', fwd', stop;
      }
      var j := OpenSweep(slope, peak, t, segs, i, dir);
      // the walk stores its samples in row rev (or fwd) of a section
      // table with Secs rows
      CountOpen(segs, rev, fwd, Segment(i + 1, j, dir));
      r := Ok(segs + [Segment(i + 1, j, dir)]);
      if dir == Reverse {
        rev' := rev + 1;
      } else {
        fwd' := fwd + 1;
      }
      stop := j == NN || (rev' == Secs && fwd' == Secs);
    } else {
      ScanSkip(slope[..], peak[..], t, segs, i);
      r := Ok(segs);
    }
  }

  /** The second loop of the post-processing: for every sample index i
      past SlopeRange + 1 holding a peak, a sweep opens at i + 1 and runs
      while the slope keeps the sweep's sign. The walk advances its own
      cursor; the for loop then resumes at i + 1, where (inside the sweep)
      there is no peak. The scan stops when a sweep reaches the array
      capacity or once Secs sweeps of each direction are recorded; a peak
      in the very last slot makes the walk read past the array
      (IndexError). */
  method ScanSegments(slope: array<int>, peak: array<int>, t: nat) returns (r: Result<seq<Segment>>)
    requires slope.Length == NN && peak.Length == NN
    requires WellFormed(slope[..], peak[..], t)
    ensures r.Err? ==> r.error == IndexError && t == NN && peak[NN - 1] != 0
    ensures r.Ok? ==> Scanned(slope[..], peak[..], t, r.value)
  {
    ghost var s, p := slope[..], peak[..];
    var segs: seq<Segment> := [];
    var rev, fwd := 0, 0;
    var i := 0;
    while i < t
      invariant 0 <= i <= t
      invariant ScanInv(s, p, t, segs, i)
      invariant Counted(segs, rev, fwd) && !(rev == Secs && fwd == Secs)
    {
      var next, stop;
      next, rev, fwd, stop := ScanStep(slope, peak, t, segs, i, rev, fwd);
      if next.Err? {
        return next;
      }
      segs, i := next.value, i + 1;
      if stop {
        // break: nothing follows the loop but the result
        ScanExit(s, p, t, segs, i, rev, fwd);
        return Ok(segs);
      }
    }
    ScanExit(s, p, t, segs, i, rev, fwd);
    r := Ok(segs);
  }

  // ---------------------------------------------------------------------
  // Clean-up

  /** list.pop(len(list) - 1): removes the last sweep, which the source
      treats as incomplete; an empty list raises IndexError. */
  function PopLast(segs: seq<Segment>): (r: Result<seq<Segment>>)
    ensures r.Ok? <==> segs != []
    ensures r.Err? ==> r.error == IndexError
    ensures r.Ok? ==> r.value + [segs[|segs| - 1]] == segs
  {
    if segs == [] then Err(IndexError) else Ok(segs[..|segs| - 1])
  }

  predicate Long(g: Segment)
  {
    g.end - g.start >= MinSweepLength
  }

  /** The sweeps of segs that are at least MinSweepLength samples long,
      in order. */
  function KeepLong(segs: seq<Segment>): (r: seq<Segment>)
    ensures |r| <= |segs|
  {
    if segs == [] then []
    else if Long(segs[0]) then [segs[0]] + KeepLong(segs[1..])
    else KeepLong(segs[1..])
  }

  /** KeepLong keeps exactly the long sweeps. */
  lemma {:induction false} KeepLongMembers(segs: seq<Segment>, g: Segment)
    ensures g in KeepLong(segs) <==> g in segs && Long(g)
  {
    if segs != [] {
      KeepLongMembers(segs[1..], g);
      assert segs == [segs[0]] + segs[1..];
    }
  }

  lemma {:induction false} KeepLongAppend(segs: seq<Segment>, g: Segment)
    ensures KeepLong(segs + [g]) == KeepLong(segs) + (if Long(g) then [g] else [])
  {
    if segs != [] {
      assert (segs + [g])[1..] == segs[1..] + [g];
      KeepLongAppend(segs[1..], g);
    } else {
      assert [g][1..] == [];
    }
  }

  /** What the filter leaves of segs: the long sweeps among all but the
      last, in order, and then the last sweep whatever its length. */
  function Filtered(segs: seq<Segment>): (r: seq<Segment>)
    ensures |r| <= |segs|
    ensures segs != [] ==> r != [] && r[|r| - 1] == segs[|segs| - 1]
  {
    if segs == [] then [] else KeepLong(segs[..|segs| - 1]) + [segs[|segs| - 1]]
  }

  /** The filter loop: iterates over range(len - 1), fixed when the loop
      starts, and looks at position i - c, where c counts the sweeps
      removed so far. Every sweep but the last is examined once, so the
      last sweep stays whatever its length. */
  method FilterShort(segs: seq<Segment>) returns (out: seq<Segment>)
    ensures segs == [] ==> out == []
    ensures segs != [] ==> out == KeepLong(segs[..|segs| - 1]) + [segs[|segs| - 1]]
    ensures out == Filtered(segs)
  {
    out := segs;
    var c := 0;
    var n := |segs| - 1 - c;
    var i := 0;
    while i < n
      invariant 0 <= c <= i && (i <= n || i == 0)
      invariant out == KeepLong(segs[..i]) + segs[i..]
      invariant |KeepLong(segs[..i])| == i - c
    {
      FilterStep(segs, i, KeepLong(segs[..i]), out);
      if out[i - c].end - out[i - c].start < MinSweepLength {
        out := out[..i - c] + out[i - c + 1..];
        c := c + 1;
      }
      i := i + 1;
    }
    if n > 0 {
      assert segs[i..] == [segs[|segs| - 1]];
    } else if segs != [] {
      assert segs[..|segs| - 1] == [];
    }
  }

  /** One iteration of the filter loop, on the list as it stands after
      the first i sweeps were examined. */
  lemma FilterStep(segs: seq<Segment>, i: nat, kept: seq<Segment>, out: seq<Segment>)
    requires i < |segs| && kept == KeepLong(segs[..i]) && out == kept + segs[i..]
    ensures out[|kept|] == segs[i]
    ensures Long(segs[i]) ==> out == KeepLong(segs[..i + 1]) + segs[i + 1..]
    ensures !Long(segs[i]) ==> out[..|kept|] + out[|kept| + 1..] == KeepLong(segs[..i + 1]) + segs[i + 1..]
    ensures |KeepLong(segs[..i + 1])| == |kept| + if Long(segs[i]) then 1 else 0
  {
    assert segs[..i + 1] == segs[..i] + [segs[i]];
    assert segs[i..] == [segs[i]] + segs[i + 1..];
    KeepLongAppend(segs[..i], segs[i]);
    assert out[..|kept|] == kept;
    assert out[|kept| + 1..] == segs[i + 1..];
  }

  /** Every sweep kept, except the final one, is long, and every long
      sweep but the final one is kept. */
  lemma FilterShortKeepsLong(segs: seq<Segment>, out: seq<Segment>, g: Segment)
    requires segs != [] && out == KeepLong(segs[..|segs| - 1]) + [segs[|segs| - 1]]
    ensures g in out[..|out| - 1] <==> g in segs[..|segs| - 1] && Long(g)
  {
    assert out[..|out| - 1] == KeepLong(segs[..|segs| - 1]);
    KeepLongMembers(segs[..|segs| - 1], g);
  }

  // ---------------------------------------------------------------------
  // The whole post-processing step

  /** A sweep of the measured gate voltage vb: it opens right after a peak
      of the matching sign, and over the sweep the slope of vb has the
      sweep's sign. */
  ghost predicate SweepOk(vb: seq<real>, g: Segment)
  {
    && SlopeRange + 1 < g.start - 1
    && g.start <= g.end <= |vb|
    && PeakAt(vb, g.start - 1) == PeakSign(g.dir)
    && (forall j :: g.start <= j < g.end ==> SlopeAt(vb, j) == DirSlope(g.dir))
    && (g.end < |vb| ==> SlopeAt(vb, g.end) != DirSlope(g.dir))
  }

  lemma SegmentOkOnPass(vb: seq<real>, s: seq<int>, p: seq<int>, g: Segment)
    requires PassOf(vb, s, p) && SegmentOk(s, p, |vb|, g)
    ensures SweepOk(vb, g)
  {
    assert p[g.start - 1] == PeakAt(vb, g.start - 1);
    if g.end < |vb| {
      assert s[g.end] == SlopeAt(vb, g.end);
    }
  }

  /** What survives the pop and the filter is taken from the scan, and all
      of it but the final sweep is long. */
  lemma KeptFromScan(all: seq<Segment>, popped: seq<Segment>, kept: seq<Segment>)
    requires PopLast(all) == Ok(popped) && popped != []
    requires kept == KeepLong(popped[..|popped| - 1]) + [popped[|popped| - 1]]
    ensures forall k :: 0 <= k < |kept| ==> kept[k] in all
    ensures forall k :: 0 <= k < |kept| - 1 ==> Long(kept[k])
  {
    assert popped == all[..|all| - 1];
    forall k | 0 <= k < |kept|
      ensures kept[k] in all
      ensures k < |kept| - 1 ==> Long(kept[k])
    {
      FilterShortKeepsLong(popped, kept, kept[k]);
      if k < |kept| - 1 {
        assert kept[k] in kept[..|kept| - 1];
      } else {
        assert kept[k] == popped[|popped| - 1];
      }
    }
  }

  /** s and p are the _slope and _peak arrays after the pass over vb on
      zeroed arrays. */
  ghost predicate PassOf(vb: seq<real>, s: seq<int>, p: seq<int>)
  {
    && |vb| <= NN && |s| == NN && |p| == NN
    && WellFormed(s, p, |vb|)
    && forall j :: 0 <= j < |vb| ==> s[j] == SlopeAt(vb, j) && p[j] == PeakAt(vb, j)
  }

  /** The pass over freshly zeroed _slope/_peak arrays. */
  method FreshSlopePeak(vb: seq<real>) returns (slope: array<int>, peak: array<int>)
    requires |vb| <= NN
    ensures fresh(slope) && fresh(peak) && slope.Length == NN && peak.Length == NN
    ensures PassOf(vb, slope[..], peak[..])
  {
    slope := new int[NN](_ => 0);
    peak := new int[NN](_ => 0);
    SlopePeakPass(vb, slope, peak);
    PassWellFormed(vb, slope[..], peak[..]);
  }

  /** The sweeps the scan records from the gate voltage vb: at most Secs
      of each direction, chained, each a sweep of vb; no peak past
      SlopeRange + 1 before the first one; and, unless the scan stopped on
      its count, the last one runs to the end of the samples. */
  ghost predicate SweepsOf(vb: seq<real>, segs: seq<Segment>)
  {
    && |segs| <= 2 * Secs && Chained(segs)
    && (forall k :: 0 <= k < |segs| ==> SweepOk(vb, segs[k]))
    && (segs != [] ==> forall q :: SlopeRange + 1 < q < segs[0].start - 1 && q < |vb| ==> PeakAt(vb, q) == 0)
    && (0 < |segs| < 2 * Secs ==> segs[|segs| - 1].end == |vb|)
  }

  /** The scan of the pass's arrays records the sweeps of vb, and none at
      all exactly when no peak follows sample SlopeRange + 1. */
  lemma ScannedSweeps(vb: seq<real>, s: seq<int>, p: seq<int>, segs: seq<Segment>)
    requires PassOf(vb, s, p) && Scanned(s, p, |vb|, segs)
    ensures SweepsOf(vb, segs)
    ensures segs == [] <==> forall q :: SlopeRange + 1 < q < |vb| ==> PeakAt(vb, q) == 0
  {
    forall k | 0 <= k < |segs|
      ensures SweepOk(vb, segs[k])
    {
      SegmentOkOnPass(vb, s, p, segs[k]);
    }
    if segs == [] {
      forall q | SlopeRange + 1 < q < |vb|
        ensures PeakAt(vb, q) == 0
      {
        assert p[q] == 0;
      }
    } else {
      forall q | SlopeRange + 1 < q < segs[0].start - 1 && q < |vb|
        ensures PeakAt(vb, q) == 0
      {
        assert p[q] == PeakAt(vb, q);
      }
      var q := segs[0].start - 1;
      assert SegmentOk(s, p, |vb|, segs[0]);
      assert p[q] == PeakAt(vb, q) != 0;
    }
  }

  /** What survives the pop and the filter are sweeps of vb, all of them
      long but the final one. */
  lemma CleanedSweeps(vb: seq<real>, scanned: seq<Segment>, kept: seq<Segment>)
    requires SweepsOf(vb, scanned) && scanned != []
    requires kept == Filtered(scanned[..|scanned| - 1])
    ensures forall k :: 0 <= k < |kept| - 1 ==> Long(kept[k])
    ensures forall k :: 0 <= k < |kept| ==> SweepOk(vb, kept[k])
  {
    var popped := scanned[..|scanned| - 1];
    if popped != [] {
      assert PopLast(scanned) == Ok(popped);
      KeptFromScan(scanned, popped, kept);
      forall k | 0 <= k < |kept|
        ensures SweepOk(vb, kept[k])
      {
        var n :| 0 <= n < |scanned| && scanned[n] == kept[k];
      }
    }
  }

  /** Runs the pass and the scan over the |vb| gate-voltage samples of one
      acquisition, drops the last sweep and filters the short ones.
      scanned is the list the scan recorded (empty when the scan raised):
      the result is that list without its last sweep, filtered. */
  method SegmentSweep(vb: seq<real>) returns (r: Result<seq<Segment>>, ghost scanned: seq<Segment>)
    requires |vb| <= NN
    ensures r.Err? ==> r.error == IndexError
    ensures r.Err? <==> scanned == []
    ensures |vb| < NN ==> (r.Err? <==> forall q :: SlopeRange + 1 < q < |vb| ==> PeakAt(vb, q) == 0)
    ensures SweepsOf(vb, scanned)
    ensures r.Ok? ==> r.value == Filtered(scanned[..|scanned| - 1])
    ensures r.Ok? ==> forall k :: 0 <= k < |r.value| - 1 ==> Long(r.value[k])
    ensures r.Ok? ==> forall k :: 0 <= k < |r.value| ==> SweepOk(vb, r.value[k])
  {
    var slope, peak := FreshSlopePeak(vb);
    ghost var s, p := slope[..], peak[..];
    var all := ScanSegments(slope, peak, |vb|);
    if all.Err? {
      return Err(all.error), [];
    }
    scanned := all.value;
    ScannedSweeps(vb, s, p, scanned);
    var popped := PopLast(all.value);
    if popped.Err? {
      return Err(popped.error), scanned;
    }
    assert popped.value == scanned[..|scanned| - 1];
    var kept := FilterShort(popped.value);
    CleanedSweeps(vb, scanned, kept);
    r := Ok(kept);
  }
}
