/**
 * The simulated audit progress of `LoadingScreen`: while the screen is visible an
 * interval adds a random increment in [5, 20) to the progress, clamps it at 100
 * (and then stops itself), and moves the stage label forward when the stage index
 * computed from the progress changes. The random increment is a parameter here.
 */
module LoadingScreen {

  /** The texts of the `stages` table, in order. */
  const Stages: seq<string> := [
    "Initializing AI models",
    "Scanning for vulnerabilities",
    "Analyzing gas optimization",
    "Verifying code intent",
    "Generating report"
  ]

  /** The default of the `stage` prop. */
  const DefaultStage: string := "Initializing analysis"

  const Complete: real := 100.0

  /** `Math.floor((p / 100) * stages.length)`. */
  function StageIndexOf(p: real): int
  {
    ((p / 100.0) * (|Stages| as real)).Floor
  }

  /** `Math.random() * 15 + 5` lies in [5, 20). */
  predicate IsIncrement(d: real)
  {
    5.0 <= d < 20.0
  }

  /**
   * What one run of the effect works on: the closure's `progressValue` and
   * `stageIndex`, the component's `displayProgress` and `currentStage`, and
   * whether the interval is still scheduled.
   */
  datatype Snapshot = Snapshot(progress: real, stageIndex: int, display: real, caption: string, running: bool)

  /** The state right after the effect starts a run, `caption` being what `currentStage` holds. */
  function Start(caption: string, display: real): Snapshot
  {
    Snapshot(0.0, 0, display, caption, true)
  }

  /** One call of the interval callback with increment `inc`. */
  function Step(s: Snapshot, inc: real): (t: Snapshot)
    requires 0.0 <= s.progress && IsIncrement(inc)
    ensures s.progress <= Complete ==> s.progress <= t.progress <= Complete
    ensures t.display == t.progress
    ensures t.running <==> s.progress + inc < Complete
    ensures !t.running ==> t.progress == Complete
  {
    var sum := s.progress + inc;
    var p := if sum >= Complete then Complete else sum;
    var k := StageIndexOf(p);
    if k != s.stageIndex && k < |Stages| then Snapshot(p, k, p, Stages[k], sum < Complete)
    else Snapshot(p, s.stageIndex, p, s.caption, sum < Complete)
  }

  /**
   * The invariant of a run: progress in [0, 100], below 100 while ticking, the
   * stage index a valid index into `Stages` that follows the progress, and a
   * non-zero stage index always shown as its label.
   */
  ghost predicate Inv(s: Snapshot)
  {
    && 0.0 <= s.progress <= Complete
    && (s.running ==> s.progress < Complete)
    && 0 <= s.stageIndex < |Stages|
    && s.stageIndex == (if StageIndexOf(s.progress) < |Stages| then StageIndexOf(s.progress) else |Stages| - 1)
    && (s.stageIndex > 0 ==> s.caption == Stages[s.stageIndex])
  }

  lemma StartInv(caption: string, display: real)
    ensures Inv(Start(caption, display))
  {
  }

  /** Every tick keeps the invariant, and the stage index never goes back. */
  lemma StepInv(s: Snapshot, inc: real)
    requires Inv(s) && s.running && IsIncrement(inc)
    ensures Inv(Step(s, inc))
    ensures s.stageIndex <= Step(s, inc).stageIndex
  {
    var sum := s.progress + inc;
    if sum >= Complete {
      // the step before crossing 100 was already past 80, hence in the last stage
      assert s.progress > 80.0;
      assert StageIndexOf(s.progress) >= 4;
      assert StageIndexOf(Complete) == |Stages|;
    } else {
      assert StageIndexOf(s.progress) <= StageIndexOf(sum) < |Stages|;
    }
  }

  /**
   * A tick changes the label only to the text of stage 1 to 4: stage 0
   * ("Initializing AI models") is never assigned, as the index starts at 0.
   */
  lemma StepLabel(s: Snapshot, inc: real)
    requires Inv(s) && s.running && IsIncrement(inc)
    ensures var t := Step(s, inc);
      t.caption == s.caption || (1 <= t.stageIndex < |Stages| && t.caption == Stages[t.stageIndex])
  {
  }

  /**
   * When the progress reaches 100 the computed index is 5, which is rejected:
   * the label stays at the last stage assigned, "Generating report".
   */
  lemma CompletionLabel(s: Snapshot, inc: real)
    requires Inv(s) && s.running && IsIncrement(inc)
    requires s.progress + inc >= Complete
    ensures StageIndexOf(Step(s, inc).progress) == |Stages|
    ensures Step(s, inc).stageIndex == |Stages| - 1 && Step(s, inc).caption == "Generating report"
  {
    StepInv(s, inc);
  }

  /** The interval callback applied once per increment, as long as the interval is scheduled. */
  function Ticks(s: Snapshot, incs: seq<real>): Snapshot
    requires 0.0 <= s.progress
    requires forall i :: 0 <= i < |incs| ==> IsIncrement(incs[i])
    decreases |incs|
  {
    if incs == [] || !s.running then s else Ticks(Step(s, incs[0]), incs[1..])
  }

  /** Any number of ticks keeps the invariant and never lowers progress or stage index. */
  lemma {:induction false} TicksInv(s: Snapshot, incs: seq<real>)
    requires Inv(s)
    requires forall i :: 0 <= i < |incs| ==> IsIncrement(incs[i])
    ensures Inv(Ticks(s, incs))
    ensures s.progress <= Ticks(s, incs).progress
    ensures s.stageIndex <= Ticks(s, incs).stageIndex
    decreases |incs|
  {
    if incs != [] && s.running {
      StepInv(s, incs[0]);
      TicksInv(Step(s, incs[0]), incs[1..]);
    }
  }

  /** While still ticking, every increment has added at least 5; so 100 is reached in time. */
  lemma {:induction false} TicksStop(s: Snapshot, incs: seq<real>)
    requires Inv(s) && s.running
    requires forall i :: 0 <= i < |incs| ==> IsIncrement(incs[i])
    requires s.progress + 5.0 * (|incs| as real) >= Complete
    ensures !Ticks(s, incs).running
    ensures Ticks(s, incs).progress == Complete
    decreases |incs|
  {
    if incs != [] && s.running {
      var t := Step(s, incs[0]);
      StepInv(s, incs[0]);
      if t.running {
        TicksStop(t, incs[1..]);
      } else {
        assert Ticks(t, incs[1..]) == t;
      }
    }
  }

  /** A run from 0 stops, at exactly 100, within 20 ticks. */
  lemma StopsWithinTwentyTicks(caption: string, display: real, incs: seq<real>)
    requires |incs| == 20
    requires forall i :: 0 <= i < |incs| ==> IsIncrement(incs[i])
    ensures !Ticks(Start(caption, display), incs).running
    ensures Ticks(Start(caption, display), incs).progress == Complete
  {
    TicksStop(Start(caption, display), incs);
  }

  /** While the stage index is still 0, the label is the one the run started with. */
  lemma {:induction false} LabelHeldInStageZero(s: Snapshot, incs: seq<real>)
    requires Inv(s) && s.stageIndex == 0
    requires forall i :: 0 <= i < |incs| ==> IsIncrement(incs[i])
    requires Ticks(s, incs).stageIndex == 0
    ensures Ticks(s, incs).caption == s.caption
    decreases |incs|
  {
    if incs != [] && s.running {
      var t := Step(s, incs[0]);
      StepInv(s, incs[0]);
      TicksInv(t, incs[1..]);
      assert t.stageIndex == 0;
      assert t.caption == s.caption;
      LabelHeldInStageZero(t, incs[1..]);
    }
  }

  /** In a run from the start, the `stage` text stays on screen until the progress reaches 20. */
  lemma LabelHeldBelowTwenty(caption: string, display: real, incs: seq<real>)
    requires forall i :: 0 <= i < |incs| ==> IsIncrement(incs[i])
    requires Ticks(Start(caption, display), incs).progress < 20.0
    ensures Ticks(Start(caption, display), incs).caption == caption
  {
    var s := Start(caption, display);
    TicksInv(s, incs);
    var t := Ticks(s, incs);
    assert StageIndexOf(t.progress) == 0;
    LabelHeldInStageZero(s, incs);
  }

  /** From 0 a tick of 15 gives 15 in stage 0; 82 lies in the last stage. */
  lemma Scenarios(caption: string, display: real)
    ensures Step(Start(caption, display), 15.0).progress == 15.0
    ensures Step(Start(caption, display), 15.0).stageIndex == 0
    ensures StageIndexOf(82.0) == 4
  {
  }

  // ---------------------------------------------------------------------------
  // Stage indicator dots

  /** `stages.findIndex(s => s.text === label)`: the first position of `label`, or -1. */
  function FindStage(caption: string): (k: int)
    ensures -1 <= k < |Stages|
    ensures k == -1 <==> caption !in Stages
    ensures k >= 0 ==> Stages[k] == caption && forall j :: 0 <= j < k ==> Stages[j] != caption
  {
    if caption == Stages[0] then 0
    else if caption == Stages[1] then 1
    else if caption == Stages[2] then 2
    else if caption == Stages[3] then 3
    else if caption == Stages[4] then 4
    else -1
  }

  /** Dot `i` is drawn in the primary colour. */
  predicate DotLit(caption: string, i: nat)
  {
    FindStage(caption) >= i
  }

  /** The dots up to the current stage are lit; none is lit while the label is not a stage text. */
  lemma DotsLit(caption: string, i: nat)
    requires i < |Stages|
    ensures caption !in Stages ==> !DotLit(caption, i)
    ensures forall k :: 0 <= k < |Stages| && caption == Stages[k] ==> (DotLit(caption, i) <==> i <= k)
  {
  }

  /**
   * The default `stage` prop is not one of the stage texts, so a screen mounted
   * with it lights no dot until the progress first moves the label on.
   */
  lemma DefaultStageUnlit()
    ensures DefaultStage !in Stages && FindStage(DefaultStage) == -1
    ensures forall i: nat :: i < |Stages| ==> !DotLit(DefaultStage, i)
  {
  }

  // ---------------------------------------------------------------------------
  // The component

  /**
   * `LoadingScreen` with its `isVisible` prop, its `displayProgress` and
   * `currentStage` state, and the closure state of the effect's current run.
   */
  class LoadingScreenView {
    var isVisible: bool
    var displayProgress: real
    var currentStage: string
    var progressValue: real
    var stageIndex: int
    var ticking: bool

    function State(): Snapshot
      reads this
    {
      Snapshot(progressValue, stageIndex, displayProgress, currentStage, ticking)
    }

    /** The interval is scheduled only while the screen is visible. */
    ghost predicate Valid()
      reads this
    {
      Inv(State()) && (ticking ==> isVisible)
    }

    /** Mounting: the state starts at 0 and the `stage` prop; a visible screen starts a run. */
    constructor (stage: string, visible: bool)
      ensures Valid()
      ensures isVisible == visible && ticking == visible
      ensures State() == Snapshot(0.0, 0, 0.0, stage, visible)
    {
      isVisible := visible;
      displayProgress := 0.0;
      currentStage := stage;
      progressValue := 0.0;
      stageIndex := 0;
      ticking := visible;
    }

    /** One firing of the 300 ms interval. */
    method Tick(increment: real)
      requires Valid() && ticking && IsIncrement(increment)
      modifies this
      ensures Valid() && isVisible == old(isVisible)
      ensures State() == Step(old(State()), increment)
    {
      StepInv(State(), increment);
      progressValue := progressValue + increment;
      var stillTicking := true;
      if progressValue >= Complete {
        progressValue := Complete;
        stillTicking := false;
      }
      displayProgress := progressValue;
      var newStageIndex := StageIndexOf(progressValue);
      if newStageIndex != stageIndex && newStageIndex < |Stages| {
        stageIndex := newStageIndex;
        currentStage := Stages[stageIndex];
      }
      ticking := stillTicking;
    }

    /**
     * A new `isVisible` prop. Hiding clears the interval (the effect's cleanup);
     * showing starts a fresh run from 0 while `displayProgress` and `currentStage`
     * keep their values until the next tick.
     */
    method SetVisible(visible: bool)
      requires Valid()
      modifies this
      ensures Valid() && isVisible == visible
      ensures displayProgress == old(displayProgress) && currentStage == old(currentStage)
      ensures visible == old(isVisible) ==> State() == old(State())
      ensures visible && !old(isVisible) ==> State() == Start(currentStage, displayProgress)
      ensures !visible ==> !ticking
    {
      if visible != isVisible {
        if isVisible {
          ticking := false;
        }
        if visible {
          progressValue := 0.0;
          stageIndex := 0;
          ticking := true;
        }
        isVisible := visible;
      }
    }
  }
}
