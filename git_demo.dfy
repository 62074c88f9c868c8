/** The Git demo (src/components/skills/demos/GitDemo.tsx): a five-step
    counter from which the lit commits, the lit action and the branch
    label are derived. */
module GitDemo {
  import opened DemoCounter

  const Steps: nat := 5

  /** Commit `i` (c1..c5 are 0..4) is lit once the step has reached it. */
  predicate CommitActive(step: nat, i: nat) {
    step >= i
  }

  /** The lit commits are the first `step + 1`; c1 is always lit. */
  lemma LitCommitsArePrefix(step: nat, i: nat)
    requires step < Steps && i < Steps
    ensures CommitActive(step, i) <==> i < step + 1
    ensures CommitActive(step, 0)
  {
  }

  datatype Action = Commit | Branch | Work | Merge

  /** Which action button is lit. */
  predicate ActionActive(step: nat, a: Action) {
    match a
    case Commit => step < 2
    case Branch => step == 2
    case Work => step == 3
    case Merge => step == 4
  }

  /** The action lit at a step. */
  function LitAction(step: nat): (a: Action)
    requires step < Steps
    ensures ActionActive(step, a)
    ensures forall b :: ActionActive(step, b) ==> b == a
  {
    if step < 2 then Commit else if step == 2 then Branch else if step == 3 then Work else Merge
  }

  /** The "feature" label is shown exactly from the branching step on, and
      then the feature commits c3 and c4 are the ones being drawn. */
  predicate FeatureLabelVisible(step: nat) {
    step >= 2
  }

  lemma FeatureLabelWithBranch(step: nat)
    requires step < Steps
    ensures FeatureLabelVisible(step) <==> CommitActive(step, 2)
    ensures FeatureLabelVisible(step) <==> LitAction(step) != Commit
  {
  }

  class Demo {
    var step: nat
    var isPlaying: bool

    predicate Valid()
      reads this
    {
      step < Steps
    }

    constructor (playing: bool)
      ensures step == 0 && isPlaying == playing && Valid()
    {
      step, isPlaying := 0, playing;
    }

    method SetPlaying(playing: bool)
      modifies this
      ensures isPlaying == playing && step == old(step)
    {
      isPlaying := playing;
    }

    method Tick()
      requires Valid() && isPlaying
      modifies this
      ensures Valid() && isPlaying
      ensures step == Next(old(step), Steps)
    {
      step := Next(step, Steps);
    }
  }
}
