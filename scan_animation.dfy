/** The landing-page scan animation (src/components/home/ScanAnimation.tsx):
    a fixed table of steps, a 30 ms timer that advances the elapsed time,
    a progress percentage derived from it, the current step found by a
    search over cumulative durations, and a completion flag set 500 ms
    after the timer stops. Times are whole milliseconds. */
module ScanAnimation {
  import opened Wrappers

  datatype ScanStep = ScanStep(name: string, duration: nat)

  const ScanSteps: seq<ScanStep> := [
    ScanStep("Initializing scan engine", 1500),
    ScanStep("Analyzing system files", 2000),
    ScanStep("Scanning for vulnerabilities", 2200),
    ScanStep("Checking network connections", 1800),
    ScanStep("Examining application permissions", 1600),
    ScanStep("Finalizing scan results", 1200)
  ]

  /** The timer period, which is also what each tick adds to the elapsed
      time. */
  const TickInterval: nat := 30

  /** The sum of the step durations, accumulated left to right. */
  function TotalDuration(steps: seq<ScanStep>): nat
    decreases |steps|
  {
    if steps == [] then 0 else TotalDuration(steps[..|steps| - 1]) + steps[|steps| - 1].duration
  }

  /** The duration of the steps up to and including step i. */
  function Cumulative(steps: seq<ScanStep>, i: nat): nat
    requires i < |steps|
  {
    TotalDuration(steps[..i + 1])
  }

  /** Adding a step cannot lower the cumulative duration. */
  lemma {:induction false} CumulativeMonotone(steps: seq<ScanStep>, i: nat, j: nat)
    requires i <= j < |steps|
    ensures Cumulative(steps, i) <= Cumulative(steps, j)
    ensures Cumulative(steps, |steps| - 1) == TotalDuration(steps)
    decreases j - i
  {
    assert steps[..|steps|] == steps;
    if i < j {
      CumulativeMonotone(steps, i, j - 1);
      assert steps[..j + 1][..j] == steps[..j];
    }
  }

  /** The cumulative durations of the page's step table. */
  lemma ScanStepsCumulative()
    ensures Cumulative(ScanSteps, 0) == 1500
    ensures Cumulative(ScanSteps, 1) == 3500
    ensures Cumulative(ScanSteps, 2) == 5700
    ensures Cumulative(ScanSteps, 3) == 7500
    ensures Cumulative(ScanSteps, 4) == 9100
    ensures Cumulative(ScanSteps, 5) == 10300
    ensures TotalDuration(ScanSteps) == 10300
  {
    var s := ScanSteps;
    assert s[..1][..0] == [];
    assert TotalDuration(s[..1]) == 1500;
    assert s[..2][..1] == s[..1];
    assert TotalDuration(s[..2]) == 3500;
    assert s[..3][..2] == s[..2];
    assert TotalDuration(s[..3]) == 5700;
    assert s[..4][..3] == s[..3];
    assert TotalDuration(s[..4]) == 7500;
    assert s[..5][..4] == s[..4];
    assert TotalDuration(s[..5]) == 9100;
    assert s[..6][..5] == s[..5];
    assert TotalDuration(s[..6]) == 10300;
    assert s[..6] == s;
  }

  const Total: nat := TotalDuration(ScanSteps)

  /** Math.min(100, elapsed / total * 100). */
  function ProgressAt(elapsed: nat, total: nat): (p: real)
    requires total > 0
    ensures 0.0 <= p <= 100.0
    ensures p == 100.0 <==> elapsed >= total
  {
    var x := (elapsed as real / total as real) * 100.0;
    DivisionBelowOne(elapsed, total);
    if 100.0 < x then 100.0 else x
  }

  lemma DivisionBelowOne(e: nat, t: nat)
    requires t > 0
    ensures (e as real / t as real < 1.0) <==> e < t
    ensures 0.0 <= e as real / t as real
  {
    var q := e as real / t as real;
    assert q * t as real == e as real;
    if q < 1.0 {
      ScaleStrict(q, 1.0, t as real);
    } else {
      ScaleStrict(1.0, q, t as real);
    }
    if q < 0.0 {
      ScaleStrict(q, 0.0, t as real);
    }
  }

  /** Scaling by a positive factor keeps a strict order. */
  lemma ScaleStrict(a: real, b: real, c: real)
    requires c > 0.0
    ensures a < b ==> a * c < b * c
    ensures a == b ==> a * c == b * c
  {
    if a < b {
      assert b * c - a * c == (b - a) * c;
    }
  }

  /** Progress never decreases as time goes on. */
  lemma ProgressMonotone(e1: nat, e2: nat, total: nat)
    requires total > 0 && e1 <= e2
    ensures ProgressAt(e1, total) <= ProgressAt(e2, total)
  {
    var q1 := e1 as real / total as real;
    var q2 := e2 as real / total as real;
    assert q1 * total as real == e1 as real;
    assert q2 * total as real == e2 as real;
    assert q1 <= q2;
  }

  /** The least index from i on whose cumulative duration reaches elapsed. */
  function FirstReaching(steps: seq<ScanStep>, elapsed: nat, i: nat): Option<nat>
    requires i <= |steps|
    decreases |steps| - i
  {
    if i == |steps| then None
    else if elapsed <= Cumulative(steps, i) then Some(i)
    else FirstReaching(steps, elapsed, i + 1)
  }

  /** The step that covers an elapsed time: the least index whose cumulative
      duration reaches it, or none once the elapsed time passes the total. */
  function StepIndex(steps: seq<ScanStep>, elapsed: nat): Option<nat> {
    FirstReaching(steps, elapsed, 0)
  }

  lemma {:induction false} FirstReachingIsLeast(steps: seq<ScanStep>, elapsed: nat, i: nat)
    requires i <= |steps|
    requires forall j :: 0 <= j < i ==> elapsed > Cumulative(steps, j)
    ensures FirstReaching(steps, elapsed, i).Some? ==>
      var k := FirstReaching(steps, elapsed, i).value;
      && k < |steps| && elapsed <= Cumulative(steps, k)
      && forall j :: 0 <= j < k ==> elapsed > Cumulative(steps, j)
    ensures FirstReaching(steps, elapsed, i).None? <==>
      forall j :: 0 <= j < |steps| ==> elapsed > Cumulative(steps, j)
    decreases |steps| - i
  {
    if i < |steps| && elapsed > Cumulative(steps, i) {
      FirstReachingIsLeast(steps, elapsed, i + 1);
    }
  }

  /** StepIndex finds the least step reaching the elapsed time, and finds
      none exactly when the elapsed time exceeds every cumulative duration. */
  lemma StepIndexIsLeast(steps: seq<ScanStep>, elapsed: nat)
    ensures StepIndex(steps, elapsed).Some? ==>
      var k := StepIndex(steps, elapsed).value;
      && k < |steps| && elapsed <= Cumulative(steps, k)
      && forall j :: 0 <= j < k ==> elapsed > Cumulative(steps, j)
    ensures StepIndex(steps, elapsed).None? <==>
      forall j :: 0 <= j < |steps| ==> elapsed > Cumulative(steps, j)
  {
    FirstReachingIsLeast(steps, elapsed, 0);
  }

  /** A later time never maps to an earlier step. */
  lemma StepIndexMonotone(steps: seq<ScanStep>, e1: nat, e2: nat)
    requires e1 <= e2 && StepIndex(steps, e2).Some?
    ensures StepIndex(steps, e1).Some?
    ensures StepIndex(steps, e1).value <= StepIndex(steps, e2).value
  {
    StepIndexIsLeast(steps, e1);
    StepIndexIsLeast(steps, e2);
    var k2 := StepIndex(steps, e2).value;
    assert e1 <= Cumulative(steps, k2);
  }

  /** The tick's search loop: accumulate durations until the elapsed time
      is reached; keep the current step when it never is. */
  method FindStep(steps: seq<ScanStep>, elapsed: nat, current: nat) returns (step: nat)
    ensures step == StepIndex(steps, elapsed).GetOr(current)
  {
    var stepDuration := 0;
    for i := 0 to |steps|
      invariant stepDuration == TotalDuration(steps[..i])
      invariant StepIndex(steps, elapsed) == FirstReaching(steps, elapsed, i)
    {
      stepDuration := stepDuration + steps[i].duration;
      assert steps[..i + 1][..i] == steps[..i];
      if elapsed <= stepDuration {
        step := i;
        return;
      }
    }
    step := current;
  }

  /** The step shown for an elapsed time: once the elapsed time passes the
      total, the search finds nothing and the last step stays shown. */
  function ShownStep(elapsed: nat): nat {
    StepIndex(ScanSteps, elapsed).GetOr(|ScanSteps| - 1)
  }

  class ScanAnimation {
    var isScanning: bool
    var currentStep: nat
    var progress: real
    var scanComplete: bool
    /** The tick closure's elapsed-time counter. */
    var elapsed: nat
    var timerActive: bool
    /** The 500 ms timeout that sets scanComplete has been scheduled. */
    var completionPending: bool

    ghost predicate Valid()
      reads this
    {
      && elapsed % TickInterval == 0
      && progress == ProgressAt(elapsed, Total)
      && currentStep == ShownStep(elapsed)
      && (!isScanning ==> elapsed == 0 && !timerActive && !completionPending && !scanComplete)
      && (timerActive ==> elapsed < Total && !completionPending && !scanComplete)
      && (completionPending ==> elapsed >= Total && !scanComplete)
      && (isScanning && !timerActive && !completionPending ==> scanComplete)
      && (scanComplete ==> elapsed >= Total)
    }

    constructor ()
      ensures Valid()
      ensures !isScanning && currentStep == 0 && progress == 0.0 && !scanComplete
    {
      isScanning := false;
      currentStep := 0;
      progress := 0.0;
      scanComplete := false;
      elapsed := 0;
      timerActive := false;
      completionPending := false;
      ScanStepsCumulative();
    }

    /** The start button is enabled unless a scan is running and not yet
        complete. */
    predicate StartEnabled()
      reads this
    {
      !(isScanning && !scanComplete)
    }

    /** startScan: the button's click handler. */
    method StartScan()
      requires Valid() && StartEnabled()
      modifies this
      ensures Valid()
      ensures isScanning && currentStep == 0 && progress == 0.0 && !scanComplete
      ensures timerActive && elapsed == 0 && !StartEnabled()
    {
      ScanStepsCumulative();
      isScanning := true;
      currentStep := 0;
      progress := 0.0;
      scanComplete := false;
      elapsed := 0;
      timerActive := true;
      completionPending := false;
    }

    /** One run of the 30 ms interval callback. */
    method Tick()
      requires Valid() && timerActive
      modifies this
      ensures Valid()
      ensures elapsed == old(elapsed) + TickInterval
      ensures old(progress) <= progress <= 100.0
      ensures old(currentStep) <= currentStep < |ScanSteps|
      ensures timerActive <==> elapsed < Total
      ensures !timerActive ==> progress == 100.0 && completionPending && elapsed == 10320
      ensures isScanning && !scanComplete
    {
      ScanStepsCumulative();
      ghost var before := elapsed;
      elapsed := elapsed + TickInterval;
      progress := ProgressAt(elapsed, Total);
      ProgressMonotone(before, elapsed, Total);
      currentStep := FindStep(ScanSteps, elapsed, currentStep);
      StepIndexIsLeast(ScanSteps, before);
      StepIndexIsLeast(ScanSteps, elapsed);
      if StepIndex(ScanSteps, elapsed).Some? {
        StepIndexMonotone(ScanSteps, before, elapsed);
      } else {
        assert before > Cumulative(ScanSteps, 4);
      }
      if progress >= 100.0 {
        timerActive := false;
        completionPending := true;
      }
    }

    /** The 500 ms timeout scheduled at completion fires. */
    method CompletionTimeout()
      requires Valid() && completionPending
      modifies this
      ensures Valid()
      ensures scanComplete && !completionPending && progress == 100.0 && StartEnabled()
      ensures elapsed == old(elapsed) && currentStep == old(currentStep)
    {
      scanComplete := true;
      completionPending := false;
    }
  }
}
