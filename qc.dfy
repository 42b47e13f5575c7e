/**
 * The parts of quality_control that are not curve fitting: the weighted
 * score over the fitted parameters, the voltage at the first current
 * minimum of each sweep (sweepmean), the clamp that splits a sweep for the
 * two linear fits, the normalisation of a sweep, and the verdict that
 * quality_control hands back to the operator loop.
 */
module Qc {
  import opened PyCore
  import opened Splitz
  import MatlabHelpers

  // ---------------------------------------------------------------------
  // score

  /** hyperbolic_fit.x: the model sqrt(b^2 ((x - h)^2 / a^2 + 1)) + c. */
  datatype HyperbolaFit = HyperbolaFit(a: real, b: real, c: real, h: real)
  /** parabolic_fit[0..2], checked under the names b, c and p. */
  datatype ParabolaFit = ParabolaFit(b: real, c: real, p: real)
  /** moving_mean_fit: the maximum and average moving-mean residual. */
  datatype Smoothness = Smoothness(maxn: real, avgn: real)
  /** linear_fit: the slopes left and right of the current minimum. */
  datatype SlopeFit = SlopeFit(lsl: real, rsl: real)

  /** One scoring criterion: whether it failed, its weight counted in
      halves, and the line it adds to the message. */
  datatype Check = Check(failed: bool, halves: nat, name: Criterion)

  /** The criteria of score, in the order they are checked. */
  datatype Criterion =
    | ParabolaB | ParabolaC | ParabolaP
    | HyperbolicA | HyperbolicB | HyperbolicC | HyperbolicH
    | SmoothAvg | SmoothMax | LeftSlope | RightSlope

  /** The message line of a failed criterion. */
  function FailLine(c: Criterion): string
  {
    match c
    case ParabolaB => "Parabola b: fail\n"
    case ParabolaC => "Parabola c: fail\n"
    case ParabolaP => "Parabola p: fail\n"
    case HyperbolicA => "Hyperbolic a: fail\n"
    case HyperbolicB => "Hyperbolic b: fail\n"
    case HyperbolicC => "Hyperbolic c: fail\n"
    case HyperbolicH => "Hyperbolic h: fail\n"
    case SmoothAvg => "Smooth avg: fail\n"
    case SmoothMax => "Smooth max: fail\n"
    case LeftSlope => "Left slope: fail\n"
    case RightSlope => "Right slope: fail\n"
  }

  const ScoreLimit: real := 1.0
  const BadVerdict := "This data set is bad"
  const GoodVerdict := "This data set is good"

  /** The eleven criteria of score in the order they are checked, with the
      weights pw = hw / 4 = nw = sw / 6 = 0.5. */
  function Checks(hyp: HyperbolaFit, par: ParabolaFit, mm: Smoothness, lin: SlopeFit): (cs: seq<Check>)
    ensures |cs| == 11
  {
    seq(11, k requires 0 <= k < 11 => CheckAt(k, hyp, par, mm, lin))
  }

  /** Criterion k of the table. */
  function CheckAt(k: nat, hyp: HyperbolaFit, par: ParabolaFit, mm: Smoothness, lin: SlopeFit): Check
    requires k < 11
  {
    if k == 0 then Check(par.b < 0.0, 1, ParabolaB)
    else if k == 1 then Check(par.c > 1.0, 1, ParabolaC)
    else if k == 2 then Check(par.p < 0.0, 1, ParabolaP)
    else if k == 3 then Check(hyp.a < -0.5 || hyp.a > 0.5, 4, HyperbolicA)
    else if k == 4 then Check(hyp.b < -0.5 || hyp.b > 1.0, 4, HyperbolicB)
    else if k == 5 then Check(hyp.c < -1.0 || hyp.c > 1.0, 4, HyperbolicC)
    else if k == 6 then Check(hyp.h < 0.0 || hyp.h > 1.0, 4, HyperbolicH)
    else if k == 7 then Check(mm.avgn < -0.0005 || mm.avgn > 0.005, 1, SmoothAvg)
    else if k == 8 then Check(mm.maxn > 0.1, 1, SmoothMax)
    else if k == 9 then Check(lin.lsl > 0.0, 6, LeftSlope)
    else Check(lin.rsl < 0.0, 6, RightSlope)
  }

  /** Weight, in halves, that a criterion adds to the score. */
  function Halves(c: Check): nat { if c.failed then c.halves else 0 }

  /** Line that a criterion adds to the message. */
  function Line(c: Check): string { if c.failed then FailLine(c.name) else "" }

  /** Total weight, in halves, of the failed criteria among the first k. */
  function FailedHalves(cs: seq<Check>, k: nat): nat
    requires k <= |cs|
  {
    if k == 0 then 0 else FailedHalves(cs, k - 1) + Halves(cs[k - 1])
  }

  /** Total weight, in halves, of the first k criteria. */
  function TotalHalves(cs: seq<Check>, k: nat): nat
    requires k <= |cs|
  {
    if k == 0 then 0 else TotalHalves(cs, k - 1) + cs[k - 1].halves
  }

  /** The lines of the failed criteria among the first k, in order. */
  function Report(cs: seq<Check>, k: nat): string
    requires k <= |cs|
  {
    if k == 0 then "" else Report(cs, k - 1) + Line(cs[k - 1])
  }

  /** Number of failed criteria among the first k. */
  function FailedCount(cs: seq<Check>, k: nat): nat
    requires k <= |cs|
  {
    if k == 0 then 0 else FailedCount(cs, k - 1) + (if cs[k - 1].failed then 1 else 0)
  }

  /** The closing line of the message. */
  function Verdict(sco: real): string
  {
    if sco > ScoreLimit then BadVerdict else GoodVerdict
  }

  /** score(hyperbolic_fit, parabolic_fit, moving_mean_fit, linear_fit):
      each failed criterion adds its weight to the score and its line to
      the message, in the order of Checks; the message then ends with the
      verdict, bad when the score exceeds the limit of 1. */
  function Score(hyp: HyperbolaFit, par: ParabolaFit, mm: Smoothness, lin: SlopeFit): (r: (real, string))
    ensures 0.0 <= r.0 <= 16.5
  {
    var cs := Checks(hyp, par, mm, lin);
    FailedWithinTotal(cs, 11);
    ChecksTotal(hyp, par, mm, lin);
    var sco := FailedHalves(cs, 11) as real / 2.0;
    (sco, Report(cs, 11) + Verdict(sco))
  }

  /** One conditional of helperfuncs.score: when the condition holds, the
      weight is added to the score and the line to the message. */
  function Tally(cond: bool, w: real, line: string, acc: (real, string)): (r: (real, string))
    requires w >= 0.0
    ensures acc.0 <= r.0 <= acc.0 + w
  {
    if cond then (acc.0 + w, acc.1 + line) else acc
  }

  /** The first three conditionals of helperfuncs.score: its first
      argument indexed as the parabola (b, c, p), each worth pw = 0.5. */
  function HelperParabolaChecks(hyperbolicFit: ParabolaFit, acc: (real, string)): (r: (real, string))
    ensures acc.0 <= r.0 <= acc.0 + 1.5
  {
    var pw := 0.5;
    var a1 := Tally(hyperbolicFit.b < 0.0, pw, "Parabola b: fail\n", acc);
    var a2 := Tally(hyperbolicFit.c > 1.0, pw, "Parabola c: fail\n", a1);
    Tally(hyperbolicFit.p < 0.0, pw, "Parabola p: fail\n", a2)
  }

  /** The next four: the x of its second argument indexed as the hyperbola
      (a, b, c, h), each worth hw = 2. */
  function HelperHyperbolaChecks(parabolicFit: HyperbolaFit, acc: (real, string)): (r: (real, string))
    ensures acc.0 <= r.0 <= acc.0 + 8.0
  {
    var hw := 2.0;
    var a4 := Tally(parabolicFit.a < -0.5 || parabolicFit.a > 0.5, hw, "Hyperbolic a: fail\n", acc);
    var a5 := Tally(parabolicFit.b < -0.5 || parabolicFit.b > 1.0, hw, "Hyperbolic b: fail\n", a4);
    var a6 := Tally(parabolicFit.c < -1.0 || parabolicFit.c > 1.0, hw, "Hyperbolic c: fail\n", a5);
    Tally(parabolicFit.h < 0.0 || parabolicFit.h > 1.0, hw, "Hyperbolic h: fail\n", a6)
  }

  /** The last four: the smoothness figures, worth nw = 0.5, and the
      slopes, worth sw = 3. */
  function HelperResidualChecks(mm: Smoothness, lin: SlopeFit, acc: (real, string)): (r: (real, string))
    ensures acc.0 <= r.0 <= acc.0 + 7.0
  {
    var nw, sw := 0.5, 3.0;
    var a8 := Tally(mm.avgn < -0.0005 || mm.avgn > 0.005, nw, "Smooth avg: fail\n", acc);
    var a9 := Tally(mm.maxn > 0.1, nw, "Smooth max: fail\n", a8);
    var a10 := Tally(lin.lsl > 0.0, sw, "Left slope: fail\n", a9);
    Tally(lin.rsl < 0.0, sw, "Right slope: fail\n", a10)
  }

  /** score as helperfuncs.py writes it: the same parameter names as the
      driver's copy, but its first argument is checked as the parabola and
      the x of its second as the hyperbola; the message ends with the
      verdict, bad when the score exceeds scorelimit = 1. */
  function HelperScore(hyperbolicFit: ParabolaFit, parabolicFit: HyperbolaFit, mm: Smoothness, lin: SlopeFit): (r: (real, string))
    ensures 0.0 <= r.0 <= 16.5
  {
    var scoreLimit := 1.0;
    var acc := HelperResidualChecks(mm, lin, HelperHyperbolaChecks(parabolicFit, HelperParabolaChecks(hyperbolicFit, (0.0, ""))));
    if acc.0 > scoreLimit then (acc.0, acc.1 + "This data set is bad")
    else (acc.0, acc.1 + "This data set is good")
  }

  /** The conditionals of the helper copy applied to the first k criteria
      of the driver's table, in order. */
  function Tallied(cs: seq<Check>, k: nat): (r: (real, string))
    requires k <= |cs|
    ensures 0.0 <= r.0
  {
    if k == 0 then (0.0, "")
    else Tally(cs[k - 1].failed, cs[k - 1].halves as real / 2.0, FailLine(cs[k - 1].name), Tallied(cs, k - 1))
  }

  /** Adding weights one conditional at a time gives the driver's total and
      report. */
  lemma {:induction false} TalliedTotals(cs: seq<Check>, k: nat)
    requires k <= |cs|
    ensures Tallied(cs, k) == (FailedHalves(cs, k) as real / 2.0, Report(cs, k))
  {
    if k > 0 {
      TalliedTotals(cs, k - 1);
      var h := FailedHalves(cs, k - 1);
      var c := cs[k - 1];
      if c.failed {
        assert (h + c.halves) as real / 2.0 == h as real / 2.0 + c.halves as real / 2.0;
      } else {
        assert Report(cs, k) == Report(cs, k - 1) + "";
        assert Report(cs, k - 1) + "" == Report(cs, k - 1);
      }
    }
  }

  /** The table of criteria written out. */
  lemma ChecksListed(hyp: HyperbolaFit, par: ParabolaFit, mm: Smoothness, lin: SlopeFit)
    ensures Checks(hyp, par, mm, lin) == [
      Check(par.b < 0.0, 1, ParabolaB), Check(par.c > 1.0, 1, ParabolaC), Check(par.p < 0.0, 1, ParabolaP),
      Check(hyp.a < -0.5 || hyp.a > 0.5, 4, HyperbolicA), Check(hyp.b < -0.5 || hyp.b > 1.0, 4, HyperbolicB),
      Check(hyp.c < -1.0 || hyp.c > 1.0, 4, HyperbolicC), Check(hyp.h < 0.0 || hyp.h > 1.0, 4, HyperbolicH),
      Check(mm.avgn < -0.0005 || mm.avgn > 0.005, 1, SmoothAvg), Check(mm.maxn > 0.1, 1, SmoothMax),
      Check(lin.lsl > 0.0, 6, LeftSlope), Check(lin.rsl < 0.0, 6, RightSlope)]
  {
  }

  /** The helper's parabola conditionals are the driver's criteria 0..2. */
  lemma HelperParabolaStage(hyperbolicFit: ParabolaFit, parabolicFit: HyperbolaFit, mm: Smoothness, lin: SlopeFit)
    ensures Tallied(Checks(parabolicFit, hyperbolicFit, mm, lin), 3) == HelperParabolaChecks(hyperbolicFit, (0.0, ""))
  {
    var cs := Checks(parabolicFit, hyperbolicFit, mm, lin);
    ChecksListed(parabolicFit, hyperbolicFit, mm, lin);
    var a1 := Tally(hyperbolicFit.b < 0.0, 0.5, "Parabola b: fail\n", (0.0, ""));
    assert Tallied(cs, 1) == a1;
    var a2 := Tally(hyperbolicFit.c > 1.0, 0.5, "Parabola c: fail\n", a1);
    assert Tallied(cs, 2) == a2;
  }

  /** The helper's hyperbola conditionals are the driver's criteria 3..6. */
  lemma HelperHyperbolaStage(hyperbolicFit: ParabolaFit, parabolicFit: HyperbolaFit, mm: Smoothness, lin: SlopeFit)
    ensures var cs := Checks(parabolicFit, hyperbolicFit, mm, lin);
      Tallied(cs, 7) == HelperHyperbolaChecks(parabolicFit, Tallied(cs, 3))
  {
    var cs := Checks(parabolicFit, hyperbolicFit, mm, lin);
    ChecksListed(parabolicFit, hyperbolicFit, mm, lin);
    var a4 := Tally(parabolicFit.a < -0.5 || parabolicFit.a > 0.5, 2.0, "Hyperbolic a: fail\n", Tallied(cs, 3));
    assert Tallied(cs, 4) == a4;
    var a5 := Tally(parabolicFit.b < -0.5 || parabolicFit.b > 1.0, 2.0, "Hyperbolic b: fail\n", a4);
    assert Tallied(cs, 5) == a5;
    var a6 := Tally(parabolicFit.c < -1.0 || parabolicFit.c > 1.0, 2.0, "Hyperbolic c: fail\n", a5);
    assert Tallied(cs, 6) == a6;
  }

  /** The helper's smoothness and slope conditionals are the driver's
      criteria 7..10. */
  lemma HelperResidualStage(hyperbolicFit: ParabolaFit, parabolicFit: HyperbolaFit, mm: Smoothness, lin: SlopeFit)
    ensures var cs := Checks(parabolicFit, hyperbolicFit, mm, lin);
      Tallied(cs, 11) == HelperResidualChecks(mm, lin, Tallied(cs, 7))
  {
    var cs := Checks(parabolicFit, hyperbolicFit, mm, lin);
    ChecksListed(parabolicFit, hyperbolicFit, mm, lin);
    var a8 := Tally(mm.avgn < -0.0005 || mm.avgn > 0.005, 0.5, "Smooth avg: fail\n", Tallied(cs, 7));
    assert Tallied(cs, 8) == a8;
    var a9 := Tally(mm.maxn > 0.1, 0.5, "Smooth max: fail\n", a8);
    assert Tallied(cs, 9) == a9;
    var a10 := Tally(lin.lsl > 0.0, 3.0, "Left slope: fail\n", a9);
    assert Tallied(cs, 10) == a10;
  }

  /** The driver's score is the verdict on the tally of its criteria. */
  lemma ScoreTallied(hyp: HyperbolaFit, par: ParabolaFit, mm: Smoothness, lin: SlopeFit)
    ensures var t := Tallied(Checks(hyp, par, mm, lin), 11);
      Score(hyp, par, mm, lin) == (t.0, t.1 + Verdict(t.0))
  {
    TalliedTotals(Checks(hyp, par, mm, lin), 11);
  }

  /** The two copies of score agree: helperfuncs.score(X, Y, m, l) is the
      driver's score(Y.x, X, m, l), score and message alike, so every
      property proved of Score holds of the helper copy. */
  lemma HelperScoreIsScore(hyperbolicFit: ParabolaFit, parabolicFit: HyperbolaFit, mm: Smoothness, lin: SlopeFit)
    ensures HelperScore(hyperbolicFit, parabolicFit, mm, lin) == Score(parabolicFit, hyperbolicFit, mm, lin)
  {
    var cs := Checks(parabolicFit, hyperbolicFit, mm, lin);
    HelperParabolaStage(hyperbolicFit, parabolicFit, mm, lin);
    HelperHyperbolaStage(hyperbolicFit, parabolicFit, mm, lin);
    HelperResidualStage(hyperbolicFit, parabolicFit, mm, lin);
    ScoreTallied(parabolicFit, hyperbolicFit, mm, lin);
    var t := Tallied(cs, 11);
    assert HelperResidualChecks(mm, lin, HelperHyperbolaChecks(parabolicFit, HelperParabolaChecks(hyperbolicFit, (0.0, "")))) == t;
  }

  /** With every criterion met, the helper copy also reports exactly
      "This data set is good" with score 0. */
  lemma HelperAllPassIsGood(hyperbolicFit: ParabolaFit, parabolicFit: HyperbolaFit, mm: Smoothness, lin: SlopeFit)
    requires hyperbolicFit.b >= 0.0 && hyperbolicFit.c <= 1.0 && hyperbolicFit.p >= 0.0
    requires -0.5 <= parabolicFit.a <= 0.5 && -0.5 <= parabolicFit.b <= 1.0
    requires -1.0 <= parabolicFit.c <= 1.0 && 0.0 <= parabolicFit.h <= 1.0
    requires -0.0005 <= mm.avgn <= 0.005 && mm.maxn <= 0.1
    requires lin.lsl <= 0.0 && lin.rsl >= 0.0
    ensures HelperScore(hyperbolicFit, parabolicFit, mm, lin) == (0.0, GoodVerdict)
  {
    HelperScoreIsScore(hyperbolicFit, parabolicFit, mm, lin);
    AllPassIsGood(parabolicFit, hyperbolicFit, mm, lin);
  }

  /** In the helper copy too, one failed hyperbola or slope criterion makes
      the data set bad. */
  lemma HelperHeavyFailureIsBad(hyperbolicFit: ParabolaFit, parabolicFit: HyperbolaFit, mm: Smoothness, lin: SlopeFit)
    requires parabolicFit.h < 0.0 || parabolicFit.h > 1.0 || lin.lsl > 0.0 || lin.rsl < 0.0
      || parabolicFit.a < -0.5 || parabolicFit.a > 0.5 || parabolicFit.b < -0.5 || parabolicFit.b > 1.0
      || parabolicFit.c < -1.0 || parabolicFit.c > 1.0
    ensures HelperScore(hyperbolicFit, parabolicFit, mm, lin).0 > 1.0
    ensures EndsWith(HelperScore(hyperbolicFit, parabolicFit, mm, lin).1, BadVerdict)
  {
    HelperScoreIsScore(hyperbolicFit, parabolicFit, mm, lin);
    var cs := Checks(parabolicFit, hyperbolicFit, mm, lin);
    assert cs[3].failed || cs[4].failed || cs[5].failed || cs[6].failed || cs[9].failed || cs[10].failed;
    var i :| (3 <= i <= 6 || 9 <= i <= 10) && cs[i].failed;
    HeavyFailureIsBad(parabolicFit, hyperbolicFit, mm, lin, i);
    ScoreVerdict(parabolicFit, hyperbolicFit, mm, lin);
  }

  lemma {:induction false} FailedWithinTotal(cs: seq<Check>, k: nat)
    requires k <= |cs|
    ensures FailedHalves(cs, k) <= TotalHalves(cs, k)
  {
    if k > 0 {
      FailedWithinTotal(cs, k - 1);
    }
  }

  /** All weights together: 3 * 0.5 + 4 * 2 + 2 * 0.5 + 2 * 3 = 16.5. */
  lemma ChecksTotal(hyp: HyperbolaFit, par: ParabolaFit, mm: Smoothness, lin: SlopeFit)
    ensures TotalHalves(Checks(hyp, par, mm, lin), 11) == 33
  {
    var cs := Checks(hyp, par, mm, lin);
    assert TotalHalves(cs, 1) == 1;
    assert TotalHalves(cs, 2) == 2;
    assert TotalHalves(cs, 3) == 3;
    assert TotalHalves(cs, 4) == 7;
    assert TotalHalves(cs, 5) == 11;
    assert TotalHalves(cs, 6) == 15;
    assert TotalHalves(cs, 7) == 19;
    assert TotalHalves(cs, 8) == 20;
    assert TotalHalves(cs, 9) == 21;
    assert TotalHalves(cs, 10) == 27;
  }

  /** The first k criteria decide the weight of the failures among them. */
  lemma {:induction false} FailedHalvesPrefix(cs: seq<Check>, ds: seq<Check>, k: nat)
    requires k <= |cs| && k <= |ds| && cs[..k] == ds[..k]
    ensures FailedHalves(cs, k) == FailedHalves(ds, k)
  {
    if k > 0 {
      assert cs[..k - 1] == cs[..k][..k - 1] && ds[..k - 1] == ds[..k][..k - 1];
      assert cs[k - 1] == cs[..k][k - 1] && ds[k - 1] == ds[..k][k - 1];
      FailedHalvesPrefix(cs, ds, k - 1);
    }
  }

  /** At most k of the first k criteria fail. */
  lemma {:induction false} FailedCountAtMost(cs: seq<Check>, k: nat)
    requires k <= |cs|
    ensures FailedCount(cs, k) <= k
  {
    if k > 0 {
      FailedCountAtMost(cs, k - 1);
    }
  }

  /** A failed criterion adds exactly its weight: had it passed, the total
      would be lower by its weight and nothing else. */
  lemma {:induction false} FailedCounts(cs: seq<Check>, k: nat, i: nat)
    requires i < k <= |cs| && cs[i].failed
    ensures FailedHalves(cs[i := cs[i].(failed := false)], k) + cs[i].halves == FailedHalves(cs, k)
    ensures FailedHalves(cs, k) >= cs[i].halves
    ensures FailedCount(cs, k) <= k
  {
    var passed := cs[i := cs[i].(failed := false)];
    FailedCountAtMost(cs, k);
    if i < k - 1 {
      FailedCounts(cs, k - 1, i);
      assert passed[k - 1] == cs[k - 1];
    } else {
      assert cs[..i] == passed[..i];
      FailedHalvesPrefix(cs, passed, i);
    }
  }

  /** Without failures the score is 0. */
  lemma {:induction false} NoFailures(cs: seq<Check>, k: nat)
    requires k <= |cs|
    requires forall i :: 0 <= i < k ==> !cs[i].failed
    ensures FailedHalves(cs, k) == 0 && Report(cs, k) == ""
  {
    if k > 0 {
      NoFailures(cs, k - 1);
    }
  }

  /** When every failure weighs half a point, the score counts failures. */
  lemma {:induction false} LightFailures(cs: seq<Check>, k: nat)
    requires k <= |cs|
    requires forall i :: 0 <= i < k && cs[i].failed ==> cs[i].halves == 1
    ensures FailedHalves(cs, k) == FailedCount(cs, k)
  {
    if k > 0 {
      LightFailures(cs, k - 1);
    }
  }

  predicate EndsWith(s: string, suffix: string)
  {
    |suffix| <= |s| && s[|s| - |suffix|..] == suffix
  }

  /** The message ends "This data set is bad" exactly when the score
      exceeds 1, and "This data set is good" otherwise. */
  lemma ScoreVerdict(hyp: HyperbolaFit, par: ParabolaFit, mm: Smoothness, lin: SlopeFit)
    ensures var (sco, msg) := Score(hyp, par, mm, lin);
      && (EndsWith(msg, BadVerdict) <==> sco > 1.0)
      && (EndsWith(msg, GoodVerdict) <==> sco <= 1.0)
  {
    var (sco, msg) := Score(hyp, par, mm, lin);
    var rep := Report(Checks(hyp, par, mm, lin), 11);
    if sco > 1.0 {
      assert msg == rep + BadVerdict;
      assert msg[|msg| - |BadVerdict|..] == BadVerdict;
      assert msg[|msg| - 3] == 'b' != GoodVerdict[|GoodVerdict| - 3];
    } else {
      assert msg == rep + GoodVerdict;
      assert msg[|msg| - |GoodVerdict|..] == GoodVerdict;
      assert msg[|msg| - 3] == 'o' != BadVerdict[|BadVerdict| - 3];
    }
  }

  /** The score is a whole number of half points: twice it is an integer. */
  lemma ScoreInHalves(hyp: HyperbolaFit, par: ParabolaFit, mm: Smoothness, lin: SlopeFit)
    ensures (2.0 * Score(hyp, par, mm, lin).0).Floor as real == 2.0 * Score(hyp, par, mm, lin).0
  {
    var n := FailedHalves(Checks(hyp, par, mm, lin), 11);
    assert 2.0 * Score(hyp, par, mm, lin).0 == n as real;
  }

  /** With every criterion met the score is 0 and the data set is good. */
  lemma AllPassIsGood(hyp: HyperbolaFit, par: ParabolaFit, mm: Smoothness, lin: SlopeFit)
    requires par.b >= 0.0 && par.c <= 1.0 && par.p >= 0.0
    requires -0.5 <= hyp.a <= 0.5 && -0.5 <= hyp.b <= 1.0 && -1.0 <= hyp.c <= 1.0 && 0.0 <= hyp.h <= 1.0
    requires -0.0005 <= mm.avgn <= 0.005 && mm.maxn <= 0.1
    requires lin.lsl <= 0.0 && lin.rsl >= 0.0
    ensures Score(hyp, par, mm, lin) == (0.0, GoodVerdict)
  {
    var cs := Checks(hyp, par, mm, lin);
    NoFailures(cs, 11);
    assert Report(cs, 11) + GoodVerdict == GoodVerdict;
  }

  /** A single failed hyperbola or slope criterion (weight 2 or 3) is
      enough to make the data set bad. */
  lemma HeavyFailureIsBad(hyp: HyperbolaFit, par: ParabolaFit, mm: Smoothness, lin: SlopeFit, i: nat)
    requires 3 <= i <= 6 || 9 <= i <= 10
    requires Checks(hyp, par, mm, lin)[i].failed
    ensures Score(hyp, par, mm, lin).0 > ScoreLimit
  {
    FailedCounts(Checks(hyp, par, mm, lin), 11, i);
  }

  /** When the hyperbola and slope criteria all hold, the data set is bad
      exactly when at least three of the five half-point criteria fail. */
  lemma LightFailuresVerdict(hyp: HyperbolaFit, par: ParabolaFit, mm: Smoothness, lin: SlopeFit)
    requires -0.5 <= hyp.a <= 0.5 && -0.5 <= hyp.b <= 1.0 && -1.0 <= hyp.c <= 1.0 && 0.0 <= hyp.h <= 1.0
    requires lin.lsl <= 0.0 && lin.rsl >= 0.0
    ensures Score(hyp, par, mm, lin).0 > ScoreLimit <==> FailedCount(Checks(hyp, par, mm, lin), 11) >= 3
  {
    var cs := Checks(hyp, par, mm, lin);
    LightFailures(cs, 11);
  }

  // ---------------------------------------------------------------------
  // sweepmean: the voltage at the first minimum of the current

  /** min(xs): the smallest element; defined for non-empty lists only. */
  function MinOf(xs: seq<real>): (m: real)
    requires |xs| > 0
    ensures m in xs
    ensures forall i :: 0 <= i < |xs| ==> m <= xs[i]
  {
    if |xs| == 1 then xs[0]
    else
      var rest := MinOf(xs[1..]);
      if xs[0] <= rest then xs[0] else rest
  }

  /** xs.index(v): the position of the first occurrence of v. */
  function IndexOf(xs: seq<real>, v: real): (i: nat)
    requires v in xs
    ensures i < |xs| && xs[i] == v
    ensures forall j :: 0 <= j < i ==> xs[j] != v
  {
    if xs[0] == v then 0 else 1 + IndexOf(xs[1..], v)
  }

  /** i is the first position holding the minimum of xs. */
  predicate FirstArgMin(xs: seq<real>, i: int)
  {
    && 0 <= i < |xs|
    && (forall j :: 0 <= j < |xs| ==> xs[i] <= xs[j])
    && (forall j :: 0 <= j < i ==> xs[j] > xs[i])
  }

  /** There is one first minimum. */
  lemma FirstArgMinUnique(xs: seq<real>, i: int, j: int)
    requires FirstArgMin(xs, i) && FirstArgMin(xs, j)
    ensures i == j
  {
    var xi, xj := xs[i], xs[j];
  }

  /** IDs.index(min(IDs)) is the first minimum. */
  lemma IndexOfMinIsFirstArgMin(xs: seq<real>)
    requires |xs| > 0
    ensures FirstArgMin(xs, IndexOf(xs, MinOf(xs)))
  {
  }

  /** The drain-current column of a sweep. */
  function Ids(row: seq<Row>): (ids: seq<real>)
    ensures |ids| == |row| && forall i :: 0 <= i < |row| ==> ids[i] == row[i].ids
  {
    seq(|row|, i requires 0 <= i < |row| => row[i].ids)
  }

  /** The gate-voltage column of a sweep. */
  function GateColumn(row: seq<Row>): (v: seq<real>)
    ensures |v| == |row| && forall i :: 0 <= i < |row| ==> v[i] == row[i].gate
  {
    seq(|row|, i requires 0 <= i < |row| => row[i].gate)
  }

  /** The loop of sweepmean: for each sweep, the gate voltage at the first
      point of lowest drain current; min() of an empty sweep raises
      ValueError. */
  method SweepMinVoltages(s: seq<seq<Row>>) returns (r: Result<seq<real>>)
    ensures r.Ok? <==> forall k :: 0 <= k < |s| ==> |s[k]| > 0
    ensures r.Err? ==> r.error == ValueError
    ensures r.Ok? ==> |r.value| == |s|
    ensures r.Ok? ==> forall k, i :: 0 <= k < |s| && FirstArgMin(Ids(s[k]), i) ==> r.value[k] == s[k][i].gate
  {
    var jmin: seq<real> := [];
    for k := 0 to |s|
      invariant |jmin| == k
      invariant forall c :: 0 <= c < k ==> |s[c]| > 0
      invariant forall c, i :: 0 <= c < k && FirstArgMin(Ids(s[c]), i) ==> jmin[c] == s[c][i].gate
    {
      var ids := Ids(s[k]);
      var voltages := GateColumn(s[k]);
      if |ids| == 0 {
        return Err(ValueError);
      }
      var minId := MinOf(ids);
      var i := IndexOf(ids, minId);
      IndexOfMinIsFirstArgMin(ids);
      forall i' | FirstArgMin(ids, i')
        ensures i' == i
      {
        FirstArgMinUnique(ids, i, i');
      }
      jmin := jmin + [voltages[i]];
    }
    r := Ok(jmin);
  }

  // ---------------------------------------------------------------------
  // The split for the two linear fits

  /** xmin = min(max(index, 2), len - 2). */
  function SplitIndex(idx: int, n: int): int
  {
    Min(Max(idx, 2), n - 2)
  }

  /** With at least four points both halves ys[:xmin] and ys[xmin:] hold
      at least two points, so each line fit has two points to go on; an
      index already in [2, n - 2] is kept. */
  lemma SplitIndexSides(ys: seq<real>, idx: int)
    requires |ys| >= 4
    ensures var x := SplitIndex(idx, |ys|);
      && 2 <= x <= |ys| - 2
      && |PySlice(ys, 0, x)| >= 2 && |PySlice(ys, x, |ys|)| >= 2
      && PySlice(ys, 0, x) + PySlice(ys, x, |ys|) == ys
    ensures 2 <= idx <= |ys| - 2 ==> SplitIndex(idx, |ys|) == idx
  {
    var x := SplitIndex(idx, |ys|);
    PySliceNonNegative(ys, 0, x);
    PySliceNonNegative(ys, x, |ys|);
    assert ys[..x] + ys[x..] == ys;
  }

  /** With fewer than four points the left part ys[:xmin] has fewer than
      two points (xmin is negative for a single point and then counts from
      the end). */
  lemma SplitIndexShort(ys: seq<real>, idx: int)
    requires 0 < |ys| < 4
    ensures |PySlice(ys, 0, SplitIndex(idx, |ys|))| < 2
  {
  }

  // ---------------------------------------------------------------------
  // quality_control without the curve fits

  /** max(xs): the largest element. */
  function MaxOf(xs: seq<real>): (m: real)
    requires |xs| > 0
    ensures m in xs
    ensures forall i :: 0 <= i < |xs| ==> xs[i] <= m
  {
    if |xs| == 1 then xs[0]
    else
      var rest := MaxOf(xs[1..]);
      if xs[0] >= rest then xs[0] else rest
  }

  /** A float64 quotient as numpy computes it: a nonzero divisor gives the
      (real-valued) quotient; a zero divisor gives an infinity of the
      dividend's sign, or NaN for 0 / 0, with a warning and no exception. */
  datatype Float64 = Finite(v: real) | PosInf | NegInf | NaN

  function Divide(x: real, m: real): (q: Float64)
    ensures q.Finite? <==> m != 0.0
  {
    if m != 0.0 then Finite(x / m)
    else if x > 0.0 then PosInf
    else if x < 0.0 then NegInf
    else NaN
  }

  /** [item / max(xs) for item in xs] over the float64 columns of a sweep:
      max is evaluated only for an element, so an empty list gives [];
      a zero maximum makes every entry non-finite: infinite where the
      element is nonzero, NaN where it is zero. */
  function Normalize(xs: seq<real>): (r: seq<Float64>)
    ensures |r| == |xs|
    ensures |xs| > 0 && MaxOf(xs) != 0.0 ==> forall i :: 0 <= i < |xs| ==> r[i] == Finite(xs[i] / MaxOf(xs))
    ensures |xs| > 0 && MaxOf(xs) == 0.0 ==> forall i :: 0 <= i < |xs| ==> !r[i].Finite? && (r[i] == NaN <==> xs[i] == 0.0)
  {
    if |xs| == 0 then []
    else
      var m := MaxOf(xs);
      seq(|xs|, i requires 0 <= i < |xs| => Divide(xs[i], m))
  }

  lemma RatioAtMostOne(x: real, m: real)
    requires m > 0.0 && x <= m
    ensures x / m <= 1.0
  {
    var q := x / m;
    assert q * m == x;
    assert q > 1.0 ==> (q - 1.0) * m > 0.0;
  }

  /** Normalising by a positive maximum leaves every element at most 1 ... */
  lemma NormalizedAtMostOne(xs: seq<real>)
    requires |xs| > 0 && MaxOf(xs) > 0.0
    ensures forall i :: 0 <= i < |xs| ==> Normalize(xs)[i].Finite? && Normalize(xs)[i].v <= 1.0
  {
    var m := MaxOf(xs);
    var ys := Normalize(xs);
    forall i | 0 <= i < |xs|
      ensures ys[i].Finite? && ys[i].v <= 1.0
    {
      RatioAtMostOne(xs[i], m);
    }
  }

  lemma SelfRatio(m: real)
    requires m != 0.0
    ensures m / m == 1.0
  {
  }

  /** ... and the maximum itself becomes 1. */
  lemma NormalizedMaxIsOne(xs: seq<real>)
    requires |xs| > 0 && MaxOf(xs) != 0.0
    ensures Finite(1.0) in Normalize(xs)
  {
    var m := MaxOf(xs);
    var ys := Normalize(xs);
    var k := IndexOf(xs, m);
    SelfRatio(m);
    assert ys[k] == Finite(1.0);
  }

  /** sweep_num = 2 selects the third rising sweep, which exists exactly
      when there are at least nine breakpoints. */
  lemma ThirdSweepNeedsNineBreakpoints(n: nat)
    ensures SweepCount(n) > 2 <==> n >= 9
  {
  }

  /** quality_control up to the curve fits: split both recordings, take
      sweep sweep_num of each rising list, project and normalise the two
      columns, and compare their lengths. The fits, the moving-mean noise
      figures, the line fits and the scores only feed the qc_params file,
      so the verdict does not depend on them. Normalising never raises on
      float64 data, and the length checks compare columns of the same rows
      and always agree, so the verdict is never False: the only failures
      are the IndexErrors of the split and of the sweep selection. */
  method QualityControl(baseline: seq<Row>, sampling: seq<Row>, bpts: seq<int>, spts: seq<int>, sweepNum: int)
    returns (r: Result<bool>)
    ensures r != Ok(false)
    ensures r.Err? ==> r.error == IndexError
    ensures r.Ok? <==>
      && |bpts| >= 3 && |spts| >= 3
      && 0 <= sweepNum + SweepCount(|bpts|) && sweepNum < SweepCount(|bpts|)
      && 0 <= sweepNum + SweepCount(|spts|) && sweepNum < SweepCount(|spts|)
  {
    var b := SplitSweeps(baseline, bpts);
    if b.Err? { return Err(b.error); }
    var s := SplitSweeps(sampling, spts);
    if s.Err? { return Err(s.error); }
    var bsweep := PyIndex(b.value.0, sweepNum);
    if bsweep.Err? { return Err(bsweep.error); }
    var bxn := Normalize(GateColumn(bsweep.value));
    var byn := Normalize(Ids(bsweep.value));
    var ssweep := PyIndex(s.value.0, sweepNum);
    if ssweep.Err? { return Err(ssweep.error); }
    var sxn := Normalize(GateColumn(ssweep.value));
    var syn := Normalize(Ids(ssweep.value));
    if |bxn| != |byn| || |sxn| != |syn| {
      return Ok(false);
    }
    r := Ok(true);
  }
}
