/** The site header (src/components/Header.tsx): navigation links, the
    mobile menu and the language menu. */
module Header {
  import opened I18n
  import BackgroundManager

  datatype NavLink = NavLink(key: string, href: string)

  const NavKeys: seq<string> := ["about", "skills", "projects", "experience", "languages", "contact"]

  /** `navLinks`. */
  const NavLinks: seq<NavLink> := [
    NavLink("about", "#about"),
    NavLink("skills", "#skills"),
    NavLink("projects", "#projects"),
    NavLink("experience", "#experience"),
    NavLink("languages", "#languages"),
    NavLink("contact", "#contact")
  ]

  /** Every link's href is '#' followed by its key, and the links follow the
      page's section order. */
  lemma NavLinksAreAnchors()
    ensures |NavLinks| == |NavKeys|
    ensures forall i :: 0 <= i < |NavLinks| ==> NavLinks[i].key == NavKeys[i] && NavLinks[i].href == "#" + NavKeys[i]
  {
  }

  /** Every link targets one of the sections that has a background, so
      following a link never lands on a section without one. */
  lemma NavTargetsHaveBackgrounds()
    ensures forall i :: 0 <= i < |NavLinks| ==> BackgroundManager.BackgroundFor(NavLinks[i].key).Some?
  {
  }

  class HeaderState {
    var isMobileMenuOpen: bool
    var isLangMenuOpen: bool

    /** Both menus start closed. */
    constructor ()
      ensures !isMobileMenuOpen && !isLangMenuOpen
    {
      isMobileMenuOpen, isLangMenuOpen := false, false;
    }

    /** The language button. */
    method ToggleLangMenu()
      modifies this
      ensures isLangMenuOpen == !old(isLangMenuOpen)
      ensures isMobileMenuOpen == old(isMobileMenuOpen)
    {
      isLangMenuOpen := !isLangMenuOpen;
    }

    /** `handleLanguageChange`: switch language, then close the menu. */
    method HandleLanguageChange(store: LanguageStore, l: Lang)
      modifies this, store
      ensures store.language == Code(l)
      ensures store.storage == old(store.storage)[StorageKey := Code(l)]
      ensures !isLangMenuOpen
      ensures isMobileMenuOpen == old(isMobileMenuOpen)
    {
      store.ChangeLanguage(l);
      isLangMenuOpen := false;
    }

    /** `toggleMobileMenu`. */
    method ToggleMobileMenu()
      modifies this
      ensures isMobileMenuOpen == !old(isMobileMenuOpen)
      ensures isLangMenuOpen == old(isLangMenuOpen)
    {
      isMobileMenuOpen := !isMobileMenuOpen;
    }

    /** `closeMobileMenu`, run by the backdrop and by every mobile nav link. */
    method CloseMobileMenu()
      modifies this
      ensures !isMobileMenuOpen
      ensures isLangMenuOpen == old(isLangMenuOpen)
    {
      isMobileMenuOpen := false;
    }
  }

  /** Closing twice is closing once. */
  method CloseTwice(h: HeaderState)
    modifies h
    ensures !h.isMobileMenuOpen && h.isLangMenuOpen == old(h.isLangMenuOpen)
  {
    h.CloseMobileMenu();
    h.CloseMobileMenu();
  }
}
