/**
 * The operator loop of the standalone instrument: ten states, each shown
 * by an RGB LED colour that is solid or flashing, driven by the two
 * buttons, by the end of a data collection and by the outcome of quality
 * control. The loop waits on blocking button reads; here every wake-up is
 * an event and a step says which LED states are lit in response.
 */
module DeviceStates {
  import opened PyCore

  datatype State =
    | Idle
    | BaselineRunning
    | BaselineComplete
    | SamplingRunning
    | SamplingComplete
    | BadQc
    | ResultPositive
    | ResultNegative
    | ResultInconclusive
    | Error

  // ---------------------------------------------------------------------
  // LEDs

  /** The states table: colour name and whether the LED flashes. */
  function Led(s: State): (string, bool)
  {
    match s
    case Idle => ("YELLOW", false)
    case BaselineRunning => ("BLUE", true)
    case BaselineComplete => ("BLUE", false)
    case SamplingRunning => ("MAGENTA", true)
    case SamplingComplete => ("MAGENTA", false)
    case BadQc => ("YELLOW", true)
    case ResultPositive => ("RED", false)
    case ResultNegative => ("GREEN", false)
    case ResultInconclusive => ("CYAN", false)
    case Error => ("RED", true)
  }

  /** No two states look alike on the LED. */
  lemma LedDistinct(s: State, t: State)
    requires Led(s) == Led(t)
    ensures s == t
  {
    assert Led(s).0[0] == Led(t).0[0];
  }

  const RedPin := "149"
  const GreenPin := "148"
  const BluePin := "147"

  /** LED_thread.get_color_set: the GPIO pins to drive for a colour name. */
  function ColorSet(color: string): seq<string>
  {
    if color == "RED" then [RedPin]
    else if color == "GREEN" then [GreenPin]
    else if color == "BLUE" then [BluePin]
    else if color == "CYAN" then [GreenPin, BluePin]
    else if color == "MAGENTA" then [BluePin, RedPin]
    else if color == "YELLOW" then [RedPin, GreenPin]
    else if color == "WHITE" then [RedPin, GreenPin, BluePin]
    else []
  }

  const Primaries := {"RED", "GREEN", "BLUE"}
  const KnownColors := {"RED", "GREEN", "BLUE", "CYAN", "MAGENTA", "YELLOW", "WHITE"}

  /** Only the three RGB pins are ever driven, each at most once, and an
      unknown colour drives none. */
  lemma ColorSetPins(color: string)
    ensures forall i :: 0 <= i < |ColorSet(color)| ==> ColorSet(color)[i] in {RedPin, GreenPin, BluePin}
    ensures forall i, j :: 0 <= i < j < |ColorSet(color)| ==> ColorSet(color)[i] != ColorSet(color)[j]
    ensures color !in KnownColors <==> ColorSet(color) == []
  {
  }

  /** Mixed colours light their primaries' pins, in the source's order. */
  lemma ColorSetMixes()
    ensures ColorSet("CYAN") == ColorSet("GREEN") + ColorSet("BLUE")
    ensures ColorSet("MAGENTA") == ColorSet("BLUE") + ColorSet("RED")
    ensures ColorSet("YELLOW") == ColorSet("RED") + ColorSet("GREEN")
    ensures ColorSet("WHITE") == ColorSet("RED") + ColorSet("GREEN") + ColorSet("BLUE")
  {
  }

  /** Every colour of the states table lights at least one pin. */
  lemma LedColorsKnown(s: State)
    ensures |ColorSet(Led(s).0)| > 0
  {
  }

  // ---------------------------------------------------------------------
  // Classification

  const Threshold: real := 80.0
  const Buffer: real := 10.0

  /** abs(mean(baseline diracs) - mean(sampling diracs)) in mV; the mean of
      an empty list is NaN. */
  datatype Measure = Num(x: real) | NaN

  /** The result states: below threshold - buffer negative, above
      threshold + buffer positive, otherwise (NaN included, since every
      comparison with NaN is false) inconclusive. */
  function Classify(d: Measure): (s: State)
    ensures s in {ResultNegative, ResultPositive, ResultInconclusive}
    ensures s == ResultNegative <==> d.Num? && d.x < 70.0
    ensures s == ResultPositive <==> d.Num? && d.x > 90.0
    ensures s == ResultInconclusive <==> d.NaN? || 70.0 <= d.x <= 90.0
  {
    if d.Num? && d.x < Threshold - Buffer then ResultNegative
    else if d.Num? && d.x > Threshold + Buffer then ResultPositive
    else ResultInconclusive
  }

  // ---------------------------------------------------------------------
  // Transitions

  /** What wakes the loop: a button press (B1 also interrupts a running
      collection), the end of the 180 s collection window (with the
      thread's completed flag), or quality control, which either raises or
      returns its verdict together with the Dirac difference. */
  datatype Event =
    | B1Pressed
    | B2Pressed
    | CollectionTimedOut(completed: bool)
    | QcDone(verdict: Result<bool>, diff: Measure)

  /** The LED states lit by main in response to an event, in order; empty
      when the loop is not waiting for that event. In BASELINE_COMPLETE,
      wait_for_buttons adds two dicts with +=, which raises TypeError, so
      the handler moves straight on to ERROR. */
  function Step(s: State, e: Event): (lit: seq<State>)
    ensures |lit| <= 2
  {
    match (s, e)
    case (Idle, B2Pressed) => [BaselineRunning]
    case (BaselineRunning, B1Pressed) => [Idle]
    case (BaselineRunning, CollectionTimedOut(completed)) =>
      if completed then [BaselineComplete, Error] else [Error]
    case (SamplingRunning, B1Pressed) => [Idle]
    case (SamplingRunning, CollectionTimedOut(completed)) =>
      if completed then [SamplingComplete] else [Error]
    case (SamplingComplete, QcDone(verdict, diff)) =>
      if verdict.Err? then [Error]
      else if !verdict.value then [BadQc]
      else [Classify(diff)]
    case (BadQc, B1Pressed) => [Idle]
    case (ResultPositive, B1Pressed) => [Idle]
    case (ResultNegative, B1Pressed) => [Idle]
    case (ResultInconclusive, B1Pressed) => [Idle]
    case (Error, B1Pressed) => [Idle]
    case _ => []
  }

  /** The state the loop rests in after a step. */
  function After(s: State, lit: seq<State>): State
  {
    if lit == [] then s else lit[|lit| - 1]
  }

  /** The state after a sequence of events. */
  function Run(s: State, events: seq<Event>): State
  {
    if events == [] then s
    else
      var before := Run(s, events[..|events| - 1]);
      After(before, Step(before, events[|events| - 1]))
  }

  /** Every LED state lit while the events are handled, in order. */
  function Trace(s: State, events: seq<Event>): seq<State>
  {
    if events == [] then []
    else Trace(s, events[..|events| - 1]) + Step(Run(s, events[..|events| - 1]), events[|events| - 1])
  }

  /** main: starting in IDLE, handle the events one by one, lighting each
      state the code passes through. */
  method OperatorLoop(events: seq<Event>) returns (lit: seq<State>, state: State)
    ensures lit == [Idle] + Trace(Idle, events)
    ensures state == Run(Idle, events)
  {
    state := Idle;
    lit := [Idle];
    for i := 0 to |events|
      invariant lit == [Idle] + Trace(Idle, events[..i])
      invariant state == Run(Idle, events[..i])
    {
      assert events[..i + 1][..i] == events[..i];
      var now := Step(state, events[i]);
      lit := lit + now;
      if now != [] {
        state := now[|now| - 1];
      }
    }
    assert events[..|events|] == events;
  }

  /** The states the as-written loop can rest in. */
  predicate Resting(s: State)
  {
    s in {Idle, BaselineRunning, Error}
  }

  /** Because of the TypeError in BASELINE_COMPLETE, the loop never gets
      past the baseline: from IDLE it only ever lights IDLE,
      BASELINE_RUNNING, BASELINE_COMPLETE and ERROR. */
  lemma {:induction false} OnlyBaselineReachable(events: seq<Event>)
    ensures Resting(Run(Idle, events))
    ensures forall i :: 0 <= i < |Trace(Idle, events)| ==>
      Trace(Idle, events)[i] in {Idle, BaselineRunning, BaselineComplete, Error}
  {
    if events != [] {
      var prefix := events[..|events| - 1];
      OnlyBaselineReachable(prefix);
    }
  }

  /** A B1 press in ERROR, in a result state or in BAD_QC returns to IDLE;
      B1 during a collection interrupts it, also back to IDLE. */
  lemma B1ReturnsToIdle(s: State)
    requires s in {Error, BadQc, ResultPositive, ResultNegative, ResultInconclusive, BaselineRunning, SamplingRunning}
    ensures Step(s, B1Pressed) == [Idle]
  {
  }

  // ---------------------------------------------------------------------
  // The loop as intended

  /** main with wait_for_buttons returning the pressed buttons: in
      BASELINE_COMPLETE, B1 goes back to IDLE and B2 starts the sampling
      run. */
  function StepIntended(s: State, e: Event): (lit: seq<State>)
    ensures s != BaselineComplete ==> lit == Step(s, e) || (s == BaselineRunning && lit == [BaselineComplete])
  {
    match (s, e)
    case (BaselineRunning, CollectionTimedOut(true)) => [BaselineComplete]
    case (BaselineComplete, B1Pressed) => [Idle]
    case (BaselineComplete, B2Pressed) => [SamplingRunning]
    case _ => Step(s, e)
  }

  function RunIntended(s: State, events: seq<Event>): State
  {
    if events == [] then s
    else
      var before := RunIntended(s, events[..|events| - 1]);
      After(before, StepIntended(before, events[|events| - 1]))
  }

  /** The intended loop reaches a positive result: B2, a completed
      baseline, B2, a completed sample and a passing QC with a Dirac shift
      above 90 mV. */
  lemma IntendedReachesResult(d: real)
    requires d > 90.0
    ensures RunIntended(Idle, [B2Pressed, CollectionTimedOut(true), B2Pressed, CollectionTimedOut(true), QcDone(Ok(true), Num(d))]) == ResultPositive
  {
    var evs := [B2Pressed, CollectionTimedOut(true), B2Pressed, CollectionTimedOut(true), QcDone(Ok(true), Num(d))];
    assert evs[..4][..3] == evs[..3] && evs[..3][..2] == evs[..2];
    assert evs[..2][..1] == evs[..1] && evs[..1][..0] == [] && evs[..5] == evs;
    assert RunIntended(Idle, evs[..1]) == BaselineRunning;
    assert RunIntended(Idle, evs[..2]) == BaselineComplete;
    assert RunIntended(Idle, evs[..3]) == SamplingRunning;
    assert RunIntended(Idle, evs[..4]) == SamplingComplete;
  }

  /** The same events leave the as-written loop in ERROR: the completed
      baseline lights BASELINE_COMPLETE and then ERROR, and ERROR ignores
      everything but B1. */
  lemma AsWrittenStopsAtBaseline(d: real)
    ensures Run(Idle, [B2Pressed, CollectionTimedOut(true), B2Pressed, CollectionTimedOut(true), QcDone(Ok(true), Num(d))]) == Error
  {
    var evs := [B2Pressed, CollectionTimedOut(true), B2Pressed, CollectionTimedOut(true), QcDone(Ok(true), Num(d))];
    assert evs[..4][..3] == evs[..3] && evs[..3][..2] == evs[..2];
    assert evs[..2][..1] == evs[..1] && evs[..1][..0] == [] && evs[..5] == evs;
    assert Run(Idle, evs[..1]) == BaselineRunning;
    assert Run(Idle, evs[..2]) == Error;
    assert Run(Idle, evs[..3]) == Error;
    assert Run(Idle, evs[..4]) == Error;
  }

  /** quality_control never returns False (its length checks compare
      columns of the same rows), so when every QC outcome is an exception
      or True, BAD_QC is never lit, even in the intended loop. */
  lemma {:induction false} NoBadQcWithoutFalse(s: State, events: seq<Event>)
    requires s != BadQc
    requires forall i :: 0 <= i < |events| && events[i].QcDone? ==> events[i].verdict != Ok(false)
    ensures RunIntended(s, events) != BadQc
  {
    if events != [] {
      NoBadQcWithoutFalse(s, events[..|events| - 1]);
    }
  }
}
