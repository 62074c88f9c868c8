/** The Node.js event-loop demo (src/components/skills/demos/NodeDemo.tsx):
    a six-phase counter with a callback queue derived from the phase. */
module NodeDemo {
  import opened DemoCounter

  const Phases: nat := 6

  /** The callback queue the tick sets for the phase it lands on. */
  function QueueFor(phase: nat): (q: seq<string>)
    ensures |q| <= 2
    ensures "timer" in q <==> phase == 1 || phase == 2
    ensures "I/O" in q <==> phase == 2 || phase == 3
    ensures q == [] <==> !(1 <= phase <= 3)
  {
    if phase == 1 then ["timer"]
    else if phase == 2 then ["timer", "I/O"]
    else if phase == 3 then ["I/O"]
    else []
  }

  /** The event-loop steps Timers, Pending, Poll, Check, Close are steps
      1 to 5; step `k` is lit when the phase is `k`. */
  predicate StepActive(phase: nat, k: nat) {
    phase == k
  }

  /** At most one step is lit, and none in phase 0. */
  lemma AtMostOneStep(phase: nat, j: nat, k: nat)
    requires 1 <= j < k <= 5
    ensures !(StepActive(phase, j) && StepActive(phase, k))
    ensures phase == 0 ==> !StepActive(phase, j) && !StepActive(phase, k)
  {
  }

  class Demo {
    var phase: nat
    var callbackQueue: seq<string>
    /** The `isPlaying` prop; the interval exists exactly while it holds. */
    var isPlaying: bool

    /** The queue always matches the phase. */
    predicate Valid()
      reads this
    {
      phase < Phases && callbackQueue == QueueFor(phase)
    }

    constructor (playing: bool)
      ensures phase == 0 && callbackQueue == [] && isPlaying == playing
      ensures Valid()
    {
      phase, callbackQueue, isPlaying := 0, [], playing;
    }

    /** The prop changes: the effect starts or clears the interval. */
    method SetPlaying(playing: bool)
      modifies this
      ensures isPlaying == playing
      ensures phase == old(phase) && callbackQueue == old(callbackQueue)
    {
      isPlaying := playing;
    }

    /** One firing of the interval. */
    method Tick()
      requires Valid() && isPlaying
      modifies this
      ensures Valid()
      ensures phase == Next(old(phase), Phases)
      ensures isPlaying
    {
      var next := Next(phase, Phases);
      if next == 1 {
        callbackQueue := ["timer"];
      } else if next == 2 {
        callbackQueue := ["timer", "I/O"];
      } else if next == 3 {
        callbackQueue := ["I/O"];
      } else if next == 4 {
        callbackQueue := [];
      } else {
        callbackQueue := [];
      }
      phase := next;
    }
  }
}
