/** The Redis demo (src/components/skills/demos/RedisDemo.tsx): a cache
    that alternates between a miss and a hit. */
module RedisDemo {

  datatype Phase = Miss | Hit

  /** `p === 'miss' ? 'hit' : 'miss'`. */
  function Flip(p: Phase): (q: Phase)
    ensures q != p
  {
    if p == Miss then Hit else Miss
  }

  lemma FlipTwice(p: Phase)
    ensures Flip(Flip(p)) == p
  {
  }

  function CacheLabel(p: Phase): string {
    if p == Hit then "HIT \U{26A1}" else "MISS"
  }

  function DbLabel(p: Phase): string {
    if p == Miss then "~100ms" else "skipped"
  }

  /** "Slow" is lit on a miss, "Fast" on a hit. */
  predicate SlowLit(p: Phase) { p == Miss }
  predicate FastLit(p: Phase) { p == Hit }

  /** Exactly one speed is lit, and the labels agree with it: the database
      is reached exactly when the cache misses. */
  lemma PhaseDisplay(p: Phase)
    ensures SlowLit(p) != FastLit(p)
    ensures DbLabel(p) == "~100ms" <==> SlowLit(p)
    ensures CacheLabel(p) == "MISS" <==> SlowLit(p)
  {
  }

  class Demo {
    var phase: Phase
    var isPlaying: bool

    constructor (playing: bool)
      ensures phase == Miss && isPlaying == playing
    {
      phase, isPlaying := Miss, playing;
    }

    method SetPlaying(playing: bool)
      modifies this
      ensures isPlaying == playing && phase == old(phase)
    {
      isPlaying := playing;
    }

    method Tick()
      requires isPlaying
      modifies this
      ensures isPlaying && phase == Flip(old(phase))
    {
      phase := Flip(phase);
    }
  }
}
