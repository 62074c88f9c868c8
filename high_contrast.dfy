/** The high-contrast switch (src/hooks/useHighContrast.tsx). */
module HighContrast {
  import opened Wrappers

  const HighContrastClass: string := "high-contrast"

  /** The class of the wrapper element. */
  function WrapperClass(enabled: bool): (c: string)
    ensures c == HighContrastClass <==> enabled
    ensures !enabled ==> c == ""
  {
    if enabled then HighContrastClass else ""
  }

  class HighContrastProvider {
    var highContrastEnabled: bool

    constructor ()
      ensures !highContrastEnabled
    {
      highContrastEnabled := false;
    }

    /** `toggleHighContrast`. */
    method Toggle()
      modifies this
      ensures highContrastEnabled == !old(highContrastEnabled)
    {
      highContrastEnabled := !highContrastEnabled;
    }

    function Wrapper(): string
      reads this
    {
      WrapperClass(highContrastEnabled)
    }
  }

  /** Toggling twice restores the flag and the wrapper class. */
  method ToggleTwice(p: HighContrastProvider)
    modifies p
    ensures p.highContrastEnabled == old(p.highContrastEnabled)
    ensures p.Wrapper() == old(p.Wrapper())
  {
    p.Toggle();
    p.Toggle();
  }

  const MissingProvider: string := "useHighContrast must be used within a HighContrastProvider"

  /** `useHighContrast`: the provided store, or the error thrown outside a
      provider. */
  function UseHighContrast(context: Option<HighContrastProvider>): (r: Result<HighContrastProvider, string>)
    ensures r.Err? <==> context.None?
    ensures r.Err? ==> r.error == MissingProvider
  {
    RequireContext(context, MissingProvider)
  }
}
