/** The experience timeline (src/components/Experience.tsx): the drawn
    line's progress and the bullet translation keys. */
module Experience {
  import opened Wrappers
  import opened Text

  /** The translation key for a bullet: the key split at '.' into company
      and bullet, rebuilt under "experience.bullets."; a missing bullet
      part is written "undefined". */
  function BulletTranslation(bulletKey: string): string {
    var parts := Split(bulletKey, '.');
    "experience.bullets." + parts[0] + "." + Interpolate(At(parts, 1))
  }

  /** For a key with exactly one dot the rebuilt key is the original key
      under "experience.bullets.". */
  lemma BulletKeyRoundTrip(company: string, bullet: string)
    requires '.' !in company && '.' !in bullet
    ensures BulletTranslation(company + "." + bullet) == "experience.bullets." + (company + "." + bullet)
  {
    SplitTwo(company, bullet, '.');
    assert company + "." + bullet == company + ['.'] + bullet;
  }

  /** The bullet keys of the experience table. */
  const BulletKeys: seq<seq<string>> := [
    ["techCorp.bullet1", "techCorp.bullet2", "techCorp.bullet3"],
    ["startupInc.bullet1", "startupInc.bullet2", "startupInc.bullet3"],
    ["agencyPro.bullet1", "agencyPro.bullet2"]
  ]

  const Companies: seq<string> := ["techCorp", "startupInc", "agencyPro"]

  /** Every bullet in the table is translated under its own key. */
  lemma TableBulletsRoundTrip(e: nat, i: nat)
    requires e < |BulletKeys| && i < |BulletKeys[e]|
    ensures BulletTranslation(BulletKeys[e][i]) == "experience.bullets." + BulletKeys[e][i]
  {
    var bullet := ["bullet1", "bullet2", "bullet3"][i];
    assert BulletKeys[e][i] == Companies[e] + "." + bullet;
    BulletKeyRoundTrip(Companies[e], bullet);
  }

  class Timeline {
    /** How much of the line is drawn: 0 or 1. */
    var pathLength: real
    /** Whether the 300 ms timer that draws the line is pending. */
    var timerPending: bool

    predicate Valid()
      reads this
    {
      pathLength == 0.0 || pathLength == 1.0
    }

    constructor ()
      ensures pathLength == 0.0 && !timerPending && Valid()
    {
      pathLength, timerPending := 0.0, false;
    }

    /** A run of the effect after its inputs change: the previous run's
        timer is cleared; in view without reduced motion a new timer starts;
        with reduced motion the line is drawn at once. */
    method RunEffect(isInView: bool, reducedMotion: bool)
      requires Valid()
      modifies this
      ensures Valid()
      ensures timerPending <==> isInView && !reducedMotion
      ensures reducedMotion ==> pathLength == 1.0
      ensures !reducedMotion ==> pathLength == old(pathLength)
    {
      timerPending := false;
      if isInView && !reducedMotion {
        timerPending := true;
      } else if reducedMotion {
        pathLength := 1.0;
      }
    }

    /** The timer fires. */
    method TimerFires()
      requires Valid() && timerPending
      modifies this
      ensures Valid() && pathLength == 1.0 && !timerPending
    {
      pathLength := 1.0;
      timerPending := false;
    }

    /** `1 - pathLength`: the line is hidden at offset 1 and fully drawn at 0. */
    function DashOffset(): (offset: real)
      reads this
      requires Valid()
      ensures offset == 0.0 || offset == 1.0
      ensures offset == 0.0 <==> pathLength == 1.0
    {
      1.0 - pathLength
    }
  }

  /** Once drawn, the line stays drawn whatever the effect and the timer
      do next. */
  method DrawnStaysDrawn(t: Timeline, isInView: bool, reducedMotion: bool)
    requires t.Valid() && t.pathLength == 1.0
    modifies t
    ensures t.Valid() && t.pathLength == 1.0
  {
    t.RunEffect(isInView, reducedMotion);
    if t.timerPending {
      t.TimerFires();
    }
  }
}
