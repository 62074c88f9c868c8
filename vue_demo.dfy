/** The Vue reactivity demo (src/components/skills/demos/VueDemo.tsx): each
    interval firing marks an update and schedules, 300 ms later, the
    increment that ends it. */
module VueDemo {
  import opened DemoCounter

  const Modulus: nat := 10

  /** The computed value on screen. */
  function Computed(count: nat): (v: nat)
    requires count < Modulus
    ensures v % 2 == 0 && v < 2 * Modulus
    ensures v / 2 == count
  {
    count * 2
  }

  class Demo {
    var count: nat
    var isUpdating: bool
    /** Increments scheduled by `setTimeout` that have not run yet. */
    var pendingUpdates: nat
    var isPlaying: bool

    predicate Valid()
      reads this
    {
      count < Modulus
    }

    constructor (playing: bool)
      ensures count == 0 && !isUpdating && pendingUpdates == 0 && isPlaying == playing && Valid()
    {
      count, isUpdating, pendingUpdates, isPlaying := 0, false, 0, playing;
    }

    /** The flow steps are lit exactly while an update is marked. */
    function FlowLit(): bool
      reads this
    {
      isUpdating
    }

    /** The prop changes; stopping clears the interval only, so scheduled
        increments stay scheduled. */
    method SetPlaying(playing: bool)
      modifies this
      ensures isPlaying == playing
      ensures count == old(count) && isUpdating == old(isUpdating)
      ensures pendingUpdates == old(pendingUpdates)
    {
      isPlaying := playing;
    }

    /** The interval fires. */
    method Tick()
      requires Valid() && isPlaying
      modifies this
      ensures Valid() && isPlaying
      ensures isUpdating && FlowLit()
      ensures count == old(count) && pendingUpdates == old(pendingUpdates) + 1
    {
      isUpdating := true;
      pendingUpdates := pendingUpdates + 1;
    }

    /** A scheduled increment runs, whether or not the demo still plays. */
    method TimeoutFires()
      requires Valid() && pendingUpdates > 0
      modifies this
      ensures Valid()
      ensures count == Next(old(count), Modulus) && !isUpdating
      ensures pendingUpdates == old(pendingUpdates) - 1 && isPlaying == old(isPlaying)
    {
      count := Next(count, Modulus);
      isUpdating := false;
      pendingUpdates := pendingUpdates - 1;
    }
  }

  /** Pausing right after a firing still lets its increment land: the
      counter moves while the demo is paused. */
  method IncrementAfterPause() returns (d: Demo)
    ensures !d.isPlaying && d.count == 1 && !d.isUpdating
  {
    d := new Demo(true);
    d.Tick();
    d.SetPlaying(false);
    d.TimeoutFires();
  }
}
