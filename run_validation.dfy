/**
 * The validation-run page: six configured steps executed strictly in order,
 * each driven from 0 to 100 percent by a 500 ms interval that adds a random
 * increment below 20, followed by a 1000 ms pause before the next step; a
 * run record aggregates the progress; Start, Pause, Resume and Stop (through
 * a confirmation dialog) overwrite the run status.
 *
 * The timers become two methods a scheduler calls (Tick for the interval,
 * ProcessStep for the timeout), and Math.random becomes their parameters.
 * Percentages are exact reals; timestamps are integer milliseconds.
 */
module RunValidation {
  import opened Js

  datatype StepStatus = Pending | Running | Completed | Failed | Skipped
  datatype RunStatus = NotStarted | Running | Paused | Completed | Failed

  datatype Step = Step(
    id: string,
    name: string,
    status: StepStatus,
    progress: real,
    startTime: Option<int>,
    endTime: Option<int>,
    duration: Option<string>,
    recordsProcessed: Option<nat>,
    totalRecords: Option<nat>,
    errors: Option<seq<string>>,
    warnings: Option<seq<string>>)

  datatype Run = Run(
    id: string,
    status: RunStatus,
    overallProgress: real,
    startTime: Option<int>,
    estimatedCompletion: Option<int>,
    totalSteps: nat,
    completedSteps: nat)

  /** The `totalSteps` the run record is created with. */
  const StepCount: nat := 6
  /** Start sets the estimated completion this many milliseconds ahead (15 minutes). */
  const EtaOffsetMs: int := 15 * 60 * 1000
  /** Math.random() * 20 lies in [0, 20). */
  const MaxIncrement: real := 20.0

  function PendingStep(id: string, name: string, totalRecords: Option<nat>): Step
  {
    Step(id, name, StepStatus.Pending, 0.0, None, None, None, None, totalRecords, None, None)
  }

  /** The step array the page starts with. */
  function ConfiguredSteps(): (r: seq<Step>)
    ensures |r| == StepCount
    ensures forall j :: 0 <= j < |r| ==> r[j].status == StepStatus.Pending && r[j].progress == 0.0
    ensures forall j :: 0 <= j < |r| ==> r[j].recordsProcessed.None? && r[j].startTime.None?
  {
    [ PendingStep("init", "Initialize Validation", None),
      PendingStep("row-count", "Row Count Validation", Some(57000)),
      PendingStep("data-type", "Data Type Validation", Some(12500)),
      PendingStep("null-check", "NULL Value Validation", Some(57000)),
      PendingStep("primary-key", "Primary Key Validation", Some(4)),
      PendingStep("finalize", "Generate Report", None) ]
  }

  // ---------------------------------------------------------------------
  // Progress arithmetic
  // ---------------------------------------------------------------------

  /** One interval tick of the step accumulator: add the increment, clamp at 100. */
  function Advance(p: real, increment: real): (r: real)
    requires 0.0 <= p < 100.0 && 0.0 <= increment < MaxIncrement
    ensures p <= r <= 100.0 && r - p < MaxIncrement
    ensures r == 100.0 <==> p + increment >= 100.0
    ensures r < 100.0 ==> r == p + increment
  {
    var q := p + increment;
    if q >= 100.0 then 100.0 else q
  }

  /** `step.totalRecords || 0`. */
  function TotalOrZero(total: Option<nat>): nat
  {
    if total.Some? then total.value else 0
  }

  /** `Math.floor((progress / 100) * (totalRecords || 0))`. */
  function RecordsAt(progress: real, total: Option<nat>): (r: nat)
    requires 0.0 <= progress <= 100.0
    ensures r <= TotalOrZero(total)
    ensures progress == 100.0 ==> r == TotalOrZero(total)
    ensures progress == 0.0 ==> r == 0
  {
    var t := TotalOrZero(total) as real;
    var x := (progress / 100.0) * t;
    ScaleWithin(progress / 100.0, t);
    FloorMonotone(x, t);
    assert progress == 100.0 ==> x == t;
    assert progress == 0.0 ==> x == 0.0;
    x.Floor
  }

  lemma ScaleWithin(a: real, t: real)
    requires 0.0 <= a <= 1.0 && 0.0 <= t
    ensures 0.0 <= a * t <= t
  {
  }

  /** The records shown for a running step never go down while progress goes up. */
  lemma RecordsAtMonotone(p: real, q: real, total: Option<nat>)
    requires 0.0 <= p <= q <= 100.0
    ensures RecordsAt(p, total) <= RecordsAt(q, total)
  {
    var t := TotalOrZero(total) as real;
    DivideMonotone(p, q, 100.0);
    ScaleMonotone(p / 100.0, q / 100.0, t);
    FloorMonotone((p / 100.0) * t, (q / 100.0) * t);
  }

  lemma ScaleMonotone(a: real, b: real, t: real)
    requires a <= b && 0.0 <= t
    ensures a * t <= b * t
  {
  }

  lemma FloorMonotone(x: real, y: real)
    requires x <= y
    ensures x.Floor <= y.Floor
  {
  }

  /** Overall progress once `completed` of `n` steps have finished (lines 203-205). */
  function OverallAt(completed: nat, n: nat): (r: real)
    requires 0 < n && completed <= n
    ensures 0.0 <= r <= 100.0
    ensures completed == n ==> r == 100.0
    ensures completed == 0 ==> r == 0.0
  {
    (completed as real / n as real) * 100.0
  }

  /** Overall progress while step `i` of `n` stands at `p` percent (lines 233-237). */
  function OverallDuring(i: nat, n: nat, p: real): (r: real)
    requires i < n && 0.0 <= p <= 100.0
    ensures OverallAt(i, n) <= r <= OverallAt(i + 1, n)
  {
    var N := n as real;
    var r := (i as real / N) * 100.0 + (p / 100.0) * (100.0 / N);
    assert r == (100.0 * i as real + p) / N by {
      assert (i as real / N) * 100.0 == (100.0 * i as real) / N;
      assert (p / 100.0) * (100.0 / N) == p / N;
    }
    assert OverallAt(i, n) == (100.0 * i as real) / N;
    assert OverallAt(i + 1, n) == (100.0 * i as real + 100.0) / N;
    DivideMonotone(100.0 * i as real, 100.0 * i as real + p, N);
    DivideMonotone(100.0 * i as real + p, 100.0 * i as real + 100.0, N);
    r
  }

  /** OverallDuring is the share of finished steps plus p percent of one step's share. */
  lemma OverallDuringIsShare(i: nat, n: nat, p: real)
    requires i < n && 0.0 <= p <= 100.0
    ensures OverallDuring(i, n, p) == (100.0 * i as real + p) / n as real
  {
    var N := n as real;
    assert (i as real / N) * 100.0 == (100.0 * i as real) / N;
    assert (p / 100.0) * (100.0 / N) == p / N;
  }

  /**
   * During step i the figure lies between the value after i steps and the
   * value after i + 1, starts at the first, reaches the second only at
   * 100 percent, and grows with p.
   */
  lemma OverallDuringBetween(i: nat, n: nat, p: real)
    requires i < n && 0.0 <= p <= 100.0
    ensures OverallAt(i, n) <= OverallDuring(i, n, p) <= OverallAt(i + 1, n)
    ensures OverallDuring(i, n, p) == OverallAt(i + 1, n) <==> p == 100.0
    ensures p == 0.0 ==> OverallDuring(i, n, p) == OverallAt(i, n)
    ensures 0.0 <= OverallDuring(i, n, p) <= 100.0
  {
    var N := n as real;
    OverallDuringIsShare(i, n, p);
    assert OverallAt(i, n) == (100.0 * i as real) / N;
    assert OverallAt(i + 1, n) == (100.0 * i as real + 100.0) / N;
    DivideMonotone(100.0 * i as real, 100.0 * i as real + p, N);
    DivideMonotone(100.0 * i as real + p, 100.0 * i as real + 100.0, N);
    if p < 100.0 {
      DivideStrict(100.0 * i as real + p, 100.0 * i as real + 100.0, N);
    }
  }

  lemma DivideMonotone(x: real, y: real, d: real)
    requires x <= y && d > 0.0
    ensures x / d <= y / d
  {
  }

  lemma DivideStrict(x: real, y: real, d: real)
    requires x < y && d > 0.0
    ensures x / d < y / d
  {
  }

  lemma OverallDuringMonotone(i: nat, n: nat, p: real, q: real)
    requires i < n && 0.0 <= p <= q <= 100.0
    ensures OverallDuring(i, n, p) <= OverallDuring(i, n, q)
  {
    OverallDuringIsShare(i, n, p);
    OverallDuringIsShare(i, n, q);
    DivideMonotone(100.0 * i as real + p, 100.0 * i as real + q, n as real);
  }

  // ---------------------------------------------------------------------
  // Step records
  // ---------------------------------------------------------------------

  predicate IsTerminal(s: StepStatus)
  {
    s == StepStatus.Completed || s == StepStatus.Failed || s == StepStatus.Skipped
  }

  /** What the completion update of lines 185-199 leaves in a step. */
  predicate IsFinished(s: Step)
  {
    && (s.status == StepStatus.Completed || s.status == StepStatus.Failed)
    && s.progress == 100.0
    && s.recordsProcessed == s.totalRecords
  }

  /** The step is the one the interval is driving, standing at `p` percent. */
  predicate IsRunningAt(s: Step, p: real)
  {
    && s.status == StepStatus.Running
    && 0.0 <= p < 100.0
    && s.progress == p
    && s.startTime.Some?
    && (s.recordsProcessed == Some(RecordsAt(p, s.totalRecords))
        || (s.recordsProcessed.None? && p == 0.0))
  }

  /** The configured, never-rewritten fields agree. */
  predicate SameTemplate(s: Step, t: Step)
  {
    s.id == t.id && s.name == t.name && s.totalRecords == t.totalRecords
  }

  /** Lines 163-173: the step at the index goes to running and gets its start time. */
  function StartStep(s: Step, now: int): (r: Step)
    ensures s.progress == 0.0 && s.recordsProcessed.None? ==> IsRunningAt(r, 0.0)
    ensures SameTemplate(r, s) && r.startTime == Some(now) && r.status == StepStatus.Running
  {
    s.(status := StepStatus.Running, startTime := Some(now))
  }

  /** Lines 218-230: a tick that stays below 100 stores progress and the records figure. */
  function ProgressStep(s: Step, p: real): (r: Step)
    requires 0.0 <= p < 100.0
    ensures s.status == StepStatus.Running && s.startTime.Some? ==> IsRunningAt(r, p)
    ensures SameTemplate(r, s) && r.status == s.status
    ensures r.recordsProcessed.Some? && r.recordsProcessed.value <= TotalOrZero(s.totalRecords)
  {
    s.(progress := p, recordsProcessed := Some(RecordsAt(p, s.totalRecords)))
  }

  /**
   * Lines 185-199: the tick that reaches 100 finishes the step. Its status,
   * its error and its warning come from three independent random draws,
   * here the three flags.
   */
  function FinishStep(s: Step, failed: bool, withError: bool, withWarning: bool, now: int): (r: Step)
    ensures IsFinished(r) && SameTemplate(r, s)
    ensures r.status == StepStatus.Failed <==> failed
    ensures r.errors == Some(if withError then ["Sample error message"] else [])
    ensures r.warnings == Some(if withWarning then ["Sample warning"] else [])
    ensures r.startTime == s.startTime && r.endTime == Some(now)
  {
    s.(status := if failed then StepStatus.Failed else StepStatus.Completed,
       progress := 100.0,
       endTime := Some(now),
       duration := Some("1.2s"),
       recordsProcessed := s.totalRecords,
       errors := Some(if withError then ["Sample error message"] else []),
       warnings := Some(if withWarning then ["Sample warning"] else []))
  }

  // ---------------------------------------------------------------------
  // The simulator's state and its invariant
  // ---------------------------------------------------------------------

  /**
   * Where the simulator is: not yet started; a step's 500 ms interval is
   * armed; the 1000 ms timeout before the next processStep is pending;
   * processStep has found no step left.
   */
  datatype Phase = Idle | StepTicking | BetweenSteps | Over

  /**
   * The relation the page keeps between the run record, the steps and the
   * simulator's closure variables (the current index and the accumulator).
   */
  ghost predicate Coherent(run: Run, steps: seq<Step>, phase: Phase, index: nat, acc: real)
  {
    var n := |steps|;
    && n == StepCount && run.totalSteps == n
    && index <= n
    && run.completedSteps == index
    && (forall j :: 0 <= j < n ==> SameTemplate(steps[j], ConfiguredSteps()[j]))
    && (forall j :: 0 <= j < index ==> IsFinished(steps[j]))
    && (forall j :: index < j < n ==> steps[j] == ConfiguredSteps()[j])
    && (run.status == RunStatus.NotStarted <==> phase == Idle)
    && match phase
       case Idle =>
         index == 0 && steps == ConfiguredSteps() && run.overallProgress == 0.0
       case StepTicking =>
         index < n && IsRunningAt(steps[index], acc)
         && run.overallProgress == OverallDuring(index, n, acc)
         && run.status != RunStatus.Completed
       case BetweenSteps =>
         (index < n ==> steps[index] == ConfiguredSteps()[index])
         && run.overallProgress == OverallAt(index, n)
         && run.status != RunStatus.Completed
       case Over =>
         index == n && run.overallProgress == 100.0
         && (run.status == RunStatus.Completed || run.status == RunStatus.Failed)
  }

  /** At most one step is running, and only while its interval is armed. */
  lemma OnlyCurrentStepRuns(run: Run, steps: seq<Step>, phase: Phase, index: nat, acc: real, j: nat)
    requires Coherent(run, steps, phase, index, acc)
    requires j < |steps| && steps[j].status == StepStatus.Running
    ensures j == index && phase == StepTicking
  {
    assert ConfiguredSteps()[j].status == StepStatus.Pending;
  }

  /**
   * Steps leave `pending` strictly in array order: a step that has moved on
   * has only terminal steps before it.
   */
  lemma StepsStartInOrder(run: Run, steps: seq<Step>, phase: Phase, index: nat, acc: real, j: nat, k: nat)
    requires Coherent(run, steps, phase, index, acc)
    requires j < k < |steps| && steps[k].status != StepStatus.Pending
    ensures IsTerminal(steps[j].status)
  {
    assert ConfiguredSteps()[k].status == StepStatus.Pending;
  }

  /** Every step's records figure lies within its total; a finished step shows exactly its total. */
  lemma RecordsWithinTotal(run: Run, steps: seq<Step>, phase: Phase, index: nat, acc: real, j: nat)
    requires Coherent(run, steps, phase, index, acc)
    requires j < |steps| && steps[j].recordsProcessed.Some?
    ensures steps[j].recordsProcessed.value <= TotalOrZero(steps[j].totalRecords)
    ensures IsTerminal(steps[j].status) ==> steps[j].recordsProcessed == steps[j].totalRecords
  {
    assert ConfiguredSteps()[j].recordsProcessed.None?;
  }

  /**
   * The overall figure is 100 exactly when every step has finished. It gets
   * there one second before the run is marked completed, so "100 percent"
   * and "completed" are not the same thing.
   */
  lemma OverallFullIffAllFinished(run: Run, steps: seq<Step>, phase: Phase, index: nat, acc: real)
    requires Coherent(run, steps, phase, index, acc)
    ensures run.overallProgress == 100.0 <==> index == |steps|
    ensures 0.0 <= run.overallProgress <= 100.0
  {
    var n := |steps|;
    match phase
    case Idle =>
    case StepTicking =>
      OverallDuringBetween(index, n, acc);
      assert OverallAt(index + 1, n) <= 100.0;
    case BetweenSteps =>
      if index < n {
        assert OverallAt(index, n) == (100.0 * index as real) / n as real;
        DivideStrict(100.0 * index as real, 100.0 * n as real, n as real);
      }
    case Over =>
  }

  /** An interval tick that stays below 100 keeps the run coherent and the overall figure rising. */
  lemma TickBelowFull(run: Run, steps: seq<Step>, index: nat, acc: real, p: real)
    requires Coherent(run, steps, StepTicking, index, acc)
    requires acc <= p < 100.0
    ensures var n := |steps|;
      && Coherent(run.(overallProgress := OverallDuring(index, n, p)),
                  steps[index := ProgressStep(steps[index], p)], StepTicking, index, p)
      && OverallDuring(index, n, p) >= run.overallProgress
  {
    var n := |steps|;
    OverallDuringMonotone(index, n, acc, p);
    OverallDuringBetween(index, n, p);
    var steps' := steps[index := ProgressStep(steps[index], p)];
    assert forall j :: 0 <= j < n && j != index ==> steps'[j] == steps[j];
  }

  /** The tick that reaches 100 finishes the step, keeps the run coherent and the overall figure rising. */
  lemma TickReachesFull(run: Run, steps: seq<Step>, index: nat, acc: real, finished: Step)
    requires Coherent(run, steps, StepTicking, index, acc)
    requires IsFinished(finished) && SameTemplate(finished, steps[index])
    ensures var n := |steps|;
      && Coherent(run.(overallProgress := OverallAt(index + 1, n), completedSteps := index + 1),
                  steps[index := finished], BetweenSteps, index + 1, 100.0)
      && OverallAt(index + 1, n) >= run.overallProgress
  {
    var n := |steps|;
    OverallDuringBetween(index, n, acc);
    var steps' := steps[index := finished];
    assert forall j :: 0 <= j < n && j != index ==> steps'[j] == steps[j];
  }

  // ---------------------------------------------------------------------
  // Controls
  // ---------------------------------------------------------------------

  datatype Control = Start | Pause | Resume | Stop

  /** The status each control's handler writes (Stop after confirmation). */
  function ControlTarget(c: Control): RunStatus
  {
    match c
    case Start => RunStatus.Running
    case Pause => RunStatus.Paused
    case Resume => RunStatus.Running
    case Stop => RunStatus.Failed
  }

  /** The four transitions the controls are meant to offer. */
  predicate ControlTransition(from: RunStatus, to: RunStatus)
  {
    || (from == RunStatus.NotStarted && to == RunStatus.Running)
    || (from == RunStatus.Running && to == RunStatus.Paused)
    || (from == RunStatus.Paused && to == RunStatus.Running)
    || ((from == RunStatus.Running || from == RunStatus.Paused) && to == RunStatus.Failed)
  }

  /** The buttons rendered for each run status (lines 345-391). */
  function Offered(status: RunStatus): (r: set<Control>)
    ensures forall c :: c in r ==> ControlTransition(status, ControlTarget(c))
    ensures r == {} <==> status == RunStatus.Completed || status == RunStatus.Failed
    ensures Stop in r <==> status == RunStatus.Running || status == RunStatus.Paused
  {
    match status
    case NotStarted => {Start}
    case Running => {Pause, Stop}
    case Paused => {Resume, Stop}
    case Completed => {}
    case Failed => {}
  }

  // ---------------------------------------------------------------------
  // The page
  // ---------------------------------------------------------------------

  class ValidationRunner {
    var run: Run
    var steps: seq<Step>
    var showStopDialog: bool
    // the simulator's closure variables and which of its timers is armed
    var phase: Phase
    var currentStepIndex: nat
    var stepProgress: real

    ghost predicate Valid()
      reads this
    {
      Coherent(run, steps, phase, currentStepIndex, stepProgress)
      && (showStopDialog ==> phase != Idle)
    }

    /** The page's initial state; `now` stands for Date.now() in the run id. */
    constructor (now: int)
      ensures Valid()
      ensures steps == ConfiguredSteps() && run.totalSteps == |steps| == 6
      ensures run == Run("run-" + IntToString(now), RunStatus.NotStarted, 0.0, None, None, 6, 0)
      ensures !showStopDialog
    {
      run := Run("run-" + IntToString(now), RunStatus.NotStarted, 0.0, None, None, StepCount, 0);
      steps := ConfiguredSteps();
      showStopDialog := false;
      phase := Idle;
      currentStepIndex := 0;
      stepProgress := 0.0;
    }

    /** startValidation: mark the run running, stamp it, and run processStep for step 0. */
    method StartValidation(now: int)
      requires Valid() && Start in Offered(run.status)
      modifies this
      ensures Valid()
      ensures run.status == RunStatus.Running && run.startTime == Some(now)
      ensures run.estimatedCompletion == Some(now + EtaOffsetMs)
      ensures run.overallProgress == 0.0 && run.completedSteps == 0
      ensures phase == StepTicking && currentStepIndex == 0 && stepProgress == 0.0
      ensures steps == old(steps)[0 := StartStep(old(steps)[0], now)]
      ensures showStopDialog == old(showStopDialog)
    {
      run := run.(status := RunStatus.Running, startTime := Some(now),
                  estimatedCompletion := Some(now + EtaOffsetMs));
      currentStepIndex := 0;
      phase := BetweenSteps;
      ProcessStep(now);
    }

    /**
     * processStep, run by StartValidation and by the 1000 ms timeout after a
     * step finishes: past the last step the run is completed, otherwise the
     * step at the index starts and its interval is armed. Without a pending
     * timeout nothing happens.
     */
    method ProcessStep(now: int)
      requires Valid()
      modifies this
      ensures Valid()
      ensures old(phase) != BetweenSteps ==> unchanged(this)
      ensures showStopDialog == old(showStopDialog) && currentStepIndex == old(currentStepIndex)
      ensures old(phase) == BetweenSteps && old(currentStepIndex) >= |old(steps)| ==>
        && phase == Over && steps == old(steps)
        && run == old(run).(status := RunStatus.Completed, overallProgress := 100.0,
                            completedSteps := old(run).totalSteps)
      ensures old(phase) == BetweenSteps && old(currentStepIndex) < |old(steps)| ==>
        && phase == StepTicking && stepProgress == 0.0 && run == old(run)
        && steps == old(steps)[old(currentStepIndex) := StartStep(old(steps)[old(currentStepIndex)], now)]
      ensures run.overallProgress >= old(run.overallProgress)
    {
      if phase == BetweenSteps {
        if currentStepIndex >= |steps| {
          run := run.(status := RunStatus.Completed, overallProgress := 100.0,
                      completedSteps := run.totalSteps);
          phase := Over;
        } else {
          OverallDuringBetween(currentStepIndex, |steps|, 0.0);
          steps := steps[currentStepIndex := StartStep(steps[currentStepIndex], now)];
          stepProgress := 0.0;
          phase := StepTicking;
        }
      }
    }

    /**
     * One firing of the 500 ms interval with Math.random() * 20 = `increment`
     * and, for a finishing step, the three outcome draws. Only the step at
     * the current index is rewritten. The run status is neither read nor
     * written: pausing or stopping does not hold the interval back.
     */
    method Tick(increment: real, failed: bool, withError: bool, withWarning: bool, now: int)
      requires Valid()
      requires 0.0 <= increment < MaxIncrement
      modifies this`run, this`steps, this`phase, this`currentStepIndex, this`stepProgress
      ensures Valid()
      ensures old(phase) != StepTicking ==> unchanged(this)
      ensures run.status == old(run.status)
      ensures run.overallProgress >= old(run.overallProgress)
      ensures |steps| == |old(steps)|
      ensures forall j :: 0 <= j < |steps| && j != old(currentStepIndex) ==> steps[j] == old(steps)[j]
      ensures old(phase) == StepTicking && old(stepProgress) + increment < 100.0 ==>
        && phase == StepTicking && currentStepIndex == old(currentStepIndex)
        && stepProgress == Advance(old(stepProgress), increment)
        && steps[currentStepIndex] == ProgressStep(old(steps)[currentStepIndex], stepProgress)
        && run == old(run).(overallProgress := OverallDuring(currentStepIndex, |steps|, stepProgress))
      ensures old(phase) == StepTicking && old(stepProgress) + increment >= 100.0 ==>
        && phase == BetweenSteps && currentStepIndex == old(currentStepIndex) + 1
        && stepProgress == 100.0
        && steps[old(currentStepIndex)] ==
             FinishStep(old(steps)[old(currentStepIndex)], failed, withError, withWarning, now)
        && run == old(run).(overallProgress := OverallAt(currentStepIndex, |steps|),
                            completedSteps := currentStepIndex)
    {
      if phase == StepTicking {
        if stepProgress + increment >= 100.0 {
          FinishCurrentStep(FinishStep(steps[currentStepIndex], failed, withError, withWarning, now));
        } else {
          AdvanceCurrentStep(Advance(stepProgress, increment));
        }
      }
    }

    /** The completion branch of the interval: the step is replaced by its finished record. */
    method FinishCurrentStep(finished: Step)
      requires Valid() && phase == StepTicking
      requires IsFinished(finished) && SameTemplate(finished, steps[currentStepIndex])
      modifies this`run, this`steps, this`phase, this`currentStepIndex, this`stepProgress
      ensures Valid()
      ensures phase == BetweenSteps && currentStepIndex == old(currentStepIndex) + 1 && stepProgress == 100.0
      ensures steps == old(steps)[old(currentStepIndex) := finished]
      ensures run == old(run).(overallProgress := OverallAt(currentStepIndex, |steps|),
                               completedSteps := currentStepIndex)
      ensures run.overallProgress >= old(run.overallProgress)
    {
      var i := currentStepIndex;
      TickReachesFull(run, steps, i, stepProgress, finished);
      steps := steps[i := finished];
      run := run.(overallProgress := OverallAt(i + 1, |steps|), completedSteps := i + 1);
      currentStepIndex := i + 1;
      stepProgress := 100.0;
      phase := BetweenSteps;
    }

    /** The progress branch of the interval: the step stands at `p` percent. */
    method AdvanceCurrentStep(p: real)
      requires Valid() && phase == StepTicking && stepProgress <= p < 100.0
      modifies this`run, this`steps, this`stepProgress
      ensures Valid()
      ensures stepProgress == p
      ensures steps == old(steps)[currentStepIndex := ProgressStep(old(steps)[currentStepIndex], p)]
      ensures run == old(run).(overallProgress := OverallDuring(currentStepIndex, |steps|, p))
      ensures run.overallProgress >= old(run.overallProgress)
    {
      TickBelowFull(run, steps, currentStepIndex, stepProgress, p);
      steps := steps[currentStepIndex := ProgressStep(steps[currentStepIndex], p)];
      run := run.(overallProgress := OverallDuring(currentStepIndex, |steps|, p));
      stepProgress := p;
    }

    /** pauseValidation, offered while running. */
    method PauseValidation()
      requires Valid() && Pause in Offered(run.status)
      modifies this`run
      ensures Valid() && run == old(run).(status := RunStatus.Paused)
    {
      run := run.(status := RunStatus.Paused);
    }

    /** resumeValidation, offered while paused. */
    method ResumeValidation()
      requires Valid() && Resume in Offered(run.status)
      modifies this`run
      ensures Valid() && run == old(run).(status := RunStatus.Running)
    {
      run := run.(status := RunStatus.Running);
    }

    /** The Stop button, offered while running or paused, only opens the dialog. */
    method OpenStopDialog()
      requires Valid() && Stop in Offered(run.status)
      modifies this`showStopDialog
      ensures Valid() && showStopDialog
    {
      showStopDialog := true;
    }

    /** Cancel, or any other way of closing the dialog. */
    method CloseStopDialog()
      requires Valid()
      modifies this`showStopDialog
      ensures Valid() && !showStopDialog
    {
      showStopDialog := false;
    }

    /**
     * stopValidation, from the open dialog: the status becomes failed
     * whatever it is by then, and the dialog closes.
     */
    method StopValidation()
      requires Valid() && showStopDialog
      modifies this`run, this`showStopDialog
      ensures Valid() && !showStopDialog
      ensures run == old(run).(status := RunStatus.Failed)
    {
      run := run.(status := RunStatus.Failed);
      showStopDialog := false;
    }
  }
}
