/** The reduced-motion preference (src/hooks/useReducedMotion.tsx): what the
    system asks for, and what the site applies. */
module ReducedMotion {
  import opened Wrappers

  /** The `enabled` flag after a media change: switched on when the query
      matches, otherwise left as it was. */
  function EnabledAfterChange(enabled: bool, matches: bool): (e: bool)
    ensures matches ==> e
    ensures enabled ==> e
    ensures e ==> enabled || matches
  {
    enabled || matches
  }

  class ReducedMotionProvider {
    var prefersReducedMotion: bool
    var reducedMotionEnabled: bool

    /** Before the mount effect both flags are false. */
    constructor ()
      ensures !prefersReducedMotion && !reducedMotionEnabled
    {
      prefersReducedMotion, reducedMotionEnabled := false, false;
    }

    /** The mount effect: both flags take the media query's current match. */
    method Mount(matches: bool)
      modifies this
      ensures prefersReducedMotion == matches && reducedMotionEnabled == matches
    {
      prefersReducedMotion := matches;
      reducedMotionEnabled := matches;
    }

    /** `handleChange`: the preference follows the event; the applied flag is
        switched on by a match and never switched off. */
    method HandleChange(matches: bool)
      modifies this
      ensures prefersReducedMotion == matches
      ensures reducedMotionEnabled == EnabledAfterChange(old(reducedMotionEnabled), matches)
    {
      prefersReducedMotion := matches;
      if matches {
        reducedMotionEnabled := true;
      }
    }

    /** `setReducedMotionEnabled`: the user may set either value, whatever
        the system prefers. */
    method SetReducedMotionEnabled(enabled: bool)
      modifies this
      ensures reducedMotionEnabled == enabled
      ensures prefersReducedMotion == old(prefersReducedMotion)
    {
      reducedMotionEnabled := enabled;
    }
  }

  /** Once the user switches reduced motion off, a later change event that
      does not match leaves it off, while the preference records the event. */
  method UserOverrideSurvivesNonMatch(p: ReducedMotionProvider)
    modifies p
    ensures !p.reducedMotionEnabled && !p.prefersReducedMotion
  {
    p.SetReducedMotionEnabled(false);
    p.HandleChange(false);
  }

  const MissingProvider: string := "useReducedMotion must be used within ReducedMotionProvider"

  /** `useReducedMotion`: the provided store, or the error thrown outside a
      provider. */
  function UseReducedMotion(context: Option<ReducedMotionProvider>): (r: Result<ReducedMotionProvider, string>)
    ensures r.Err? <==> context.None?
    ensures r.Err? ==> r.error == MissingProvider
  {
    RequireContext(context, MissingProvider)
  }
}
