/** The TypeScript demo (src/components/skills/demos/TypeScriptDemo.tsx):
    a type error, its fix, and success, cycled by an interval whose index
    lives in the effect's closure. */
module TypeScriptDemo {
  import opened DemoCounter

  datatype Phase = Error | Fix | Success

  const Phases: seq<Phase> := [Error, Fix, Success]

  /** The value written after `age:` in the code sample. */
  function AgeLiteral(p: Phase): (lit: string)
    ensures lit == " \"25\"" <==> p == Error
    ensures p != Error ==> lit == " 25"
  {
    if p == Error then " \"25\"" else " 25"
  }

  /** The red squiggle under the value. */
  predicate SquiggleShown(p: Phase) {
    p == Error
  }

  /** The status line. */
  function StatusMessage(p: Phase): string {
    match p
    case Error => "Type 'string' is not assignable to type 'number'"
    case Fix => "Fixing type error..."
    case Success => "No type errors found!"
  }

  /** One message per phase, all different; the squiggle goes with the
      quoted value. */
  lemma PhaseDisplay(p: Phase, q: Phase)
    ensures p != q ==> StatusMessage(p) != StatusMessage(q)
    ensures SquiggleShown(p) <==> AgeLiteral(p) == " \"25\""
  {
  }

  class Demo {
    var phase: Phase
    /** The closure's `index`; it starts at 0 on every start of the interval. */
    var index: nat
    var isPlaying: bool

    predicate Valid()
      reads this
    {
      index < |Phases|
    }

    constructor (playing: bool)
      ensures phase == Error && index == 0 && isPlaying == playing && Valid()
    {
      phase, index, isPlaying := Error, 0, playing;
    }

    /** The prop changes; starting creates a fresh closure with index 0 and
        leaves the phase as it was. */
    method SetPlaying(playing: bool)
      requires Valid()
      modifies this
      ensures Valid() && isPlaying == playing && phase == old(phase)
      ensures playing && !old(isPlaying) ==> index == 0
      ensures !(playing && !old(isPlaying)) ==> index == old(index)
    {
      if playing && !isPlaying {
        index := 0;
      }
      isPlaying := playing;
    }

    method Tick()
      requires Valid() && isPlaying
      modifies this
      ensures Valid() && isPlaying
      ensures index == Next(old(index), |Phases|)
      ensures phase == Phases[index]
    {
      index := Next(index, |Phases|);
      phase := Phases[index];
    }
  }

  /** From a fresh start the ticks show fix, success, error, fix. */
  method FreshCycle() returns (d: Demo)
    ensures d.phase == Fix && d.index == 1
  {
    d := new Demo(true);
    d.Tick();
    assert d.phase == Fix;
    d.Tick();
    assert d.phase == Success;
    d.Tick();
    assert d.phase == Error;
    d.Tick();
  }

  /** Pausing and resuming in the success phase skips the error: the first
      tick after the resume shows the fix again. */
  method ResumeShowsFix(d: Demo)
    requires d.Valid() && d.isPlaying
    modifies d
    ensures d.phase == Fix
  {
    d.SetPlaying(false);
    d.SetPlaying(true);
    d.Tick();
  }
}
