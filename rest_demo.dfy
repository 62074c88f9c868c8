/** The REST demo (src/components/skills/demos/RestDemo.tsx): request,
    JSON and UI stages lit in turn by a four-step counter. */
module RestDemo {
  import opened DemoCounter

  const Steps: nat := 4

  datatype Stage = Request | Json | Ui

  /** Which stage box is lit. */
  predicate StageLit(step: nat, s: Stage) {
    match s
    case Request => step == 0
    case Json => step == 1 || step == 2
    case Ui => step == 3
  }

  /** The stage lit at a step; no other is. */
  function LitStage(step: nat): (s: Stage)
    requires step < Steps
    ensures StageLit(step, s)
    ensures forall t :: StageLit(step, t) ==> t == s
  {
    if step == 0 then Request else if step < 3 then Json else Ui
  }

  /** Dot `i` of the step indicator is lit when the step is `i`. */
  predicate DotLit(step: nat, i: nat) {
    step == i
  }

  lemma ExactlyOneDot(step: nat)
    requires step < Steps
    ensures DotLit(step, step)
    ensures forall i :: 0 <= i < Steps && DotLit(step, i) ==> i == step
  {
  }

  class Demo {
    var step: nat
    var isPlaying: bool

    predicate Valid()
      reads this
    {
      step < Steps
    }

    constructor (playing: bool)
      ensures step == 0 && isPlaying == playing && Valid()
    {
      step, isPlaying := 0, playing;
    }

    method SetPlaying(playing: bool)
      modifies this
      ensures isPlaying == playing && step == old(step)
    {
      isPlaying := playing;
    }

    method Tick()
      requires Valid() && isPlaying
      modifies this
      ensures Valid() && isPlaying
      ensures step == Next(old(step), Steps)
    {
      step := Next(step, Steps);
    }
  }
}
