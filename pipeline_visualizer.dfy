/** The progress display (components/PipelineVisualizer.tsx): which of the four
    stages are shown as completed, which as active, and which connectors
    between them are lit, for the current pipeline step. */
module PipelineVisualizer {
  import opened Types

  /** The displayed stages of `steps`, in order. */
  const Stages: seq<PipelineStep> := [Crawling, Summarizing, GeneratingImage, Completed]

  /** `findIndex`: the first position holding `x`, or -1. */
  function FindIndex(s: seq<PipelineStep>, x: PipelineStep): (r: int)
    ensures -1 <= r < |s|
    ensures r == -1 <==> x !in s
    ensures r >= 0 ==> s[r] == x && x !in s[..r]
  {
    if s == [] then -1
    else if s[0] == x then 0
    else
      var r := FindIndex(s[1..], x);
      if r == -1 then -1
      else
        assert s[..r + 1] == [s[0]] + s[1..][..r];
        r + 1
  }

  /** `getStepIndex`: the stage's position, or -1 for a step that is not a stage. */
  function StepIndex(step: PipelineStep): (r: int)
    ensures -1 <= r < |Stages|
    ensures r == -1 <==> step == Idle
    ensures r >= 0 ==> Stages[r] == step
  {
    FindIndex(Stages, step)
  }

  /** Each running or finished step sits at its own position; `Idle` is not a
      stage. */
  lemma StepIndices()
    ensures StepIndex(Idle) == -1
    ensures StepIndex(Crawling) == 0 && StepIndex(Summarizing) == 1
    ensures StepIndex(GeneratingImage) == 2 && StepIndex(Completed) == 3
  {
  }

  /** `isCompleted`: nothing is completed in `Idle`, everything in `Completed`. */
  predicate IsCompleted(current: PipelineStep, index: int)
    ensures current == Idle && index >= 0 ==> !IsCompleted(current, index)
    ensures current == Completed ==> IsCompleted(current, index)
  {
    index < StepIndex(current) || current == Completed
  }

  /** `isActive`: only the stage the current step names can be active. */
  predicate IsActive(current: PipelineStep, index: int)
    ensures IsActive(current, index) && index >= 0 ==> index < |Stages| - 1 && Stages[index] == current
  {
    assert Stages[|Stages| - 1] == Completed;
    index == StepIndex(current) && current != Completed
  }

  /** There is a connector after every stage but the last. */
  function ConnectorCount(): (n: nat)
    ensures n == 3
  {
    |Stages| - 1
  }

  /** The connector below stage `index` is lit once the stage after it is
      reached; a lit connector always follows a completed stage. */
  predicate ConnectorLit(current: PipelineStep, index: int)
    ensures ConnectorLit(current, index) ==> IsCompleted(current, index)
    ensures ConnectorLit(current, index) && index >= 0 ==> current != Idle
  {
    index < StepIndex(current)
  }

  /** In `Idle` nothing is completed, active or lit. */
  lemma IdleShowsNothing(index: int)
    requires 0 <= index < |Stages|
    ensures !IsCompleted(Idle, index) && !IsActive(Idle, index) && !ConnectorLit(Idle, index)
  {
    StepIndices();
  }

  /** In `Completed` every stage is completed, none is active and every
      connector is lit. */
  lemma CompletedShowsAllDone(index: int)
    requires 0 <= index < |Stages|
    ensures IsCompleted(Completed, index) && !IsActive(Completed, index)
    ensures index < ConnectorCount() ==> ConnectorLit(Completed, index)
  {
    StepIndices();
  }

  /** While a stage runs, it is the only active one and exactly the stages
      before it are completed, with the connectors between them lit. */
  lemma RunningStepShowsItself(current: PipelineStep, index: int)
    requires current == Crawling || current == Summarizing || current == GeneratingImage
    requires 0 <= index < |Stages|
    ensures IsActive(current, index) <==> Stages[index] == current
    ensures IsCompleted(current, index) <==> index < StepIndex(current)
    ensures ConnectorLit(current, index) <==> IsCompleted(current, index)
  {
    StepIndices();
  }

  /** No stage is both completed and active, at most one stage is active, and
      the completed stages form a prefix. */
  lemma DisplayInvariants(current: PipelineStep, i: int, j: int)
    ensures !(IsCompleted(current, i) && IsActive(current, i))
    ensures IsActive(current, i) && IsActive(current, j) ==> i == j
    ensures 0 <= i <= j && IsCompleted(current, j) ==> IsCompleted(current, i)
  {
  }
}
