/** The section background manager (src/components/backgrounds/BackgroundManager.tsx):
    which section is active, and which animated background it shows. */
module BackgroundManager {
  import opened Wrappers
  import opened Visibility

  /** The seven section ids the table is written for. */
  datatype SectionType = Hero | About | Skills | Projects | Experience | Languages | Contact

  datatype Variant = Aurora | TechGrid | Noise | Path

  function SectionId(s: SectionType): string {
    match s
    case Hero => "hero" case About => "about" case Skills => "skills"
    case Projects => "projects" case Experience => "experience"
    case Languages => "languages" case Contact => "contact"
  }

  /** Reading an element id as a section type; ids outside the seven have
      no section type. */
  function ParseSection(id: string): (r: Option<SectionType>)
    ensures r.Some? ==> SectionId(r.value) == id
  {
    if id == "hero" then Some(Hero)
    else if id == "about" then Some(About)
    else if id == "skills" then Some(Skills)
    else if id == "projects" then Some(Projects)
    else if id == "experience" then Some(Experience)
    else if id == "languages" then Some(Languages)
    else if id == "contact" then Some(Contact)
    else None
  }

  lemma ParseSectionId(s: SectionType)
    ensures ParseSection(SectionId(s)) == Some(s)
  {
  }

  /** The `sectionBackgrounds` table. */
  function VariantOf(s: SectionType): Variant {
    match s
    case Hero => Aurora case About => Aurora case Contact => Aurora
    case Skills => TechGrid
    case Projects => Noise
    case Experience => Path case Languages => Path
  }

  /** The component looked up for the active section. The id is cast to a
      section type without a check, so an id outside the seven looks up
      nothing. */
  function BackgroundFor(id: string): (r: Option<Variant>)
    ensures r.Some? <==> ParseSection(id).Some?
  {
    match ParseSection(id)
    case Some(s) => Some(VariantOf(s))
    case None => None
  }

  /** The table covers all seven sections, with the documented variants. */
  lemma BackgroundTable()
    ensures BackgroundFor("hero") == Some(Aurora)
    ensures BackgroundFor("about") == Some(Aurora)
    ensures BackgroundFor("contact") == Some(Aurora)
    ensures BackgroundFor("skills") == Some(TechGrid)
    ensures BackgroundFor("projects") == Some(Noise)
    ensures BackgroundFor("experience") == Some(Path)
    ensures BackgroundFor("languages") == Some(Path)
    ensures forall s: SectionType :: BackgroundFor(SectionId(s)) == Some(VariantOf(s))
  {
    forall s: SectionType ensures BackgroundFor(SectionId(s)) == Some(VariantOf(s)) {
      ParseSectionId(s);
    }
  }

  /** The services section carries the id "services", which is not in the
      table: once it wins, the lookup yields nothing. */
  lemma ServicesHasNoBackground()
    ensures BackgroundFor("services") == None
  {
  }

  /** The cross-fade lasts 0 seconds exactly when reduced motion is on, and
      0.8 seconds otherwise. */
  function CrossFadeDuration(reducedMotion: bool): (d: real)
    ensures d == 0.0 <==> reducedMotion
    ensures !reducedMotion ==> d == 0.8
  {
    if reducedMotion then 0.0 else 0.8
  }

  /** The hysteresis threshold the batch maximum must exceed. */
  const Threshold: real := 0.3

  class Manager {
    /** The `activeSection` state; a string, because the cast does not check. */
    var activeSection: string

    constructor ()
      ensures activeSection == "hero"
    {
      activeSection := "hero";
    }

    /** The component currently shown. */
    function Background(): Option<Variant>
      reads this
    {
      BackgroundFor(activeSection)
    }

    /** `handleIntersection`: the section changes to the most visible entry's
        id only when the batch maximum is strictly above 0.3. */
    method HandleIntersection(entries: seq<Entry>)
      modifies this
      ensures MaxRatio(entries) > Threshold ==>
        Winner(entries).Some? && activeSection == entries[Winner(entries).value].id
      ensures MaxRatio(entries) <= Threshold ==> activeSection == old(activeSection)
    {
      var maxRatio, best := MostVisible(entries);
      WinnerIsFirstMaximum(entries);
      var mostVisibleSection := "hero";
      if best.Some? {
        mostVisibleSection := entries[best.value].id;
      }
      if maxRatio > Threshold {
        activeSection := mostVisibleSection;
      }
    }
  }

  /** An empty batch, or one whose ratios are all 0, leaves the section as
      it was: no section is kept and the maximum stays 0. */
  lemma QuietBatchKeepsSection(entries: seq<Entry>)
    requires forall i :: 0 <= i < |entries| ==> entries[i].ratio == 0.0
    ensures MaxRatio(entries) <= Threshold
    ensures Winner(entries) == None
  {
    WinnerIsFirstMaximum(entries);
  }

  /** When every observed section is one of the seven, a change keeps a
      background on screen. */
  lemma KnownSectionsKeepBackground(entries: seq<Entry>)
    requires forall i :: 0 <= i < |entries| ==> ParseSection(entries[i].id).Some?
    requires MaxRatio(entries) > Threshold
    ensures Winner(entries).Some?
    ensures BackgroundFor(entries[Winner(entries).value].id).Some?
  {
    WinnerIsFirstMaximum(entries);
  }
}
