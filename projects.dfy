/** The projects section (src/components/Projects.tsx) over the project
    table (src/data/projects.ts): stack chips with an overflow badge, and
    the selection that opens the case-study dialog. */
module Projects {
  import opened Wrappers
  import opened CaseStudyModal

  datatype Project = Project(
    id: string,
    titleKey: string,
    stack: seq<string>,
    links: seq<LinkType>,
    screenshots: nat,
    ownedKeys: seq<string>)

  /** The project table, reduced to the fields the rules read. */
  const ProjectTable: seq<Project> := [
    Project("ecommerce-platform", "ecommerce",
            ["React", "TypeScript", "Node.js", "PostgreSQL", "Redis", "Docker"],
            [Live, Github], 3, ["ecommerce.owned1", "ecommerce.owned2", "ecommerce.owned3"]),
    Project("analytics-dashboard", "analytics",
            ["Vue.js", "Nuxt", "D3.js", "GraphQL", "MongoDB"],
            [Live], 2, ["analytics.owned1", "analytics.owned2"]),
    Project("mobile-app", "mobileApp",
            ["React Native", "TypeScript", "Firebase", "Redux"],
            [Github], 2, ["mobileApp.owned1", "mobileApp.owned2"])
  ]

  const MaxChips: nat := 4

  /** `stack.slice(0, 4)`. */
  function ShownChips(stack: seq<string>): (chips: seq<string>)
    ensures |chips| <= MaxChips
    ensures chips <= stack
    ensures |stack| <= MaxChips ==> chips == stack
  {
    if |stack| <= MaxChips then stack else stack[..MaxChips]
  }

  /** The "+k" badge, present only when chips were cut off. */
  function OverflowBadge(stack: seq<string>): (k: Option<nat>)
    ensures k.Some? <==> |stack| > MaxChips
  {
    if |stack| > MaxChips then Some(|stack| - MaxChips) else None
  }

  /** The chips plus the badge account for the whole stack. */
  lemma ChipsAndBadgeCoverStack(stack: seq<string>)
    ensures |ShownChips(stack)| + OverflowBadge(stack).GetOr(0) == |stack|
    ensures OverflowBadge(stack).Some? ==> OverflowBadge(stack).value >= 1
  {
  }

  /** In the table: "+2" on the first card, "+1" on the second, no badge
      on the third. */
  lemma TableBadges()
    ensures OverflowBadge(ProjectTable[0].stack) == Some(2)
    ensures OverflowBadge(ProjectTable[1].stack) == Some(1)
    ensures OverflowBadge(ProjectTable[2].stack) == None
  {
  }

  /** Every owned key in the table is `titleKey.ownedN`, so the dialog's
      rebuilt translation key is the entry's own key under
      "projects.items.". */
  lemma TableOwnedKeysRoundTrip(p: nat, i: nat)
    requires p < |ProjectTable| && i < |ProjectTable[p].ownedKeys|
    ensures OwnedKeyTranslation(ProjectTable[p].titleKey, ProjectTable[p].ownedKeys[i])
            == "projects.items." + ProjectTable[p].ownedKeys[i]
  {
    var t := ProjectTable[p].titleKey;
    var suffix := ["owned1", "owned2", "owned3"][i];
    assert ProjectTable[p].ownedKeys[i] == t + "." + suffix;
    OwnedKeyRoundTrip(t, suffix);
  }

  /** Where a click on a card lands: the card body, or one of its links,
      whose handler stops the event before it reaches the card. */
  datatype CardClick = CardBody | CardLink

  class ProjectsSection {
    /** `selectedProject`. */
    var selected: Option<Project>

    constructor ()
      ensures selected == None
    {
      selected := None;
    }

    /** The dialog is rendered exactly when a project is selected. */
    function ModalOpen(): bool
      reads this
    {
      selected.Some?
    }

    /** A click on a card. */
    method Click(p: Project, target: CardClick)
      modifies this
      ensures target == CardBody ==> selected == Some(p)
      ensures target == CardLink ==> selected == old(selected)
    {
      if target == CardBody {
        selected := Some(p);
      }
    }

    /** An event inside the open dialog: the closing ones clear the
        selection, which unmounts the dialog. */
    method DialogEvent(e: ModalEvent)
      modifies this
      ensures ClosesOn(e) ==> selected == None && !ModalOpen()
      ensures !ClosesOn(e) ==> selected == old(selected)
    {
      if ClosesOn(e) {
        selected := None;
      }
    }
  }
}
