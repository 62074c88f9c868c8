/** The skills lab panel (src/components/SkillsLab.tsx): category tabs, a
    grid of the category's skills, the selected skill's demo and a
    play/pause toggle. */
module SkillsLab {
  import opened Wrappers
  import opened SkillsData

  class Lab {
    var activeCategory: SkillCategory
    /** `Skill | null` in the source. */
    var selectedSkill: Option<Skill>
    var isPlaying: bool

    /** The selected skill is one of the active category's skills. */
    predicate Valid()
      reads this
    {
      selectedSkill.Some? && selectedSkill.value in SkillsByCategory(activeCategory)
    }

    constructor ()
      ensures activeCategory == Frontend
      ensures selectedSkill == Some(Skills[0])
      ensures isPlaying
      ensures Valid()
    {
      FirstSkill();
      SkillsByCategoryValue(Frontend);
      assert Skills[0] in Block(Frontend);
      activeCategory := Frontend;
      selectedSkill := Some(Skills[0]);
      isPlaying := true;
    }

    /** The skills the grid shows. */
    function Grid(): seq<Skill>
      reads this
    {
      SkillsByCategory(activeCategory)
    }

    /** `handleCategoryChange`: switch tab and select the tab's first skill,
        also when the tab was already active. */
    method HandleCategoryChange(category: SkillCategory)
      modifies this
      ensures activeCategory == category
      ensures |SkillsByCategory(category)| > 0
      ensures selectedSkill == Some(SkillsByCategory(category)[0])
      ensures isPlaying == old(isPlaying)
      ensures Valid()
    {
      activeCategory := category;
      var newSkills := SkillsByCategory(category);
      EveryCategoryHasSkills(category);
      if |newSkills| > 0 {
        selectedSkill := Some(newSkills[0]);
        assert newSkills[0] in newSkills;
      }
    }

    /** A click on a grid item selects exactly that skill. */
    method SelectSkill(skill: Skill)
      requires skill in Grid()
      modifies this
      ensures selectedSkill == Some(skill)
      ensures activeCategory == old(activeCategory) && isPlaying == old(isPlaying)
      ensures Valid()
    {
      selectedSkill := Some(skill);
    }

    /** The play/pause button. */
    method TogglePlay()
      modifies this
      ensures isPlaying == !old(isPlaying)
      ensures activeCategory == old(activeCategory) && selectedSkill == old(selectedSkill)
    {
      isPlaying := !isPlaying;
    }

    /** A grid item is highlighted when its id is the selected skill's id. */
    predicate Highlighted(skill: Skill)
      reads this
    {
      selectedSkill.Some? && selectedSkill.value.id == skill.id
    }
  }

  /** In a valid panel the selected skill belongs to the active category. */
  lemma SelectedInActiveCategory(lab: Lab)
    requires lab.Valid()
    ensures lab.selectedSkill.value.category == lab.activeCategory
    ensures lab.selectedSkill.value in lab.Grid()
  {
    SkillsByCategoryExact(lab.activeCategory);
  }

  /** Since ids are unique, exactly the selected grid item is highlighted. */
  lemma HighlightIsSelection(lab: Lab, skill: Skill)
    requires lab.Valid()
    requires skill in lab.Grid()
    ensures lab.Highlighted(skill) <==> lab.selectedSkill == Some(skill)
  {
    SkillsByCategoryExact(lab.activeCategory);
    if lab.Highlighted(skill) {
      SameIdSameSkill(lab.selectedSkill.value, skill);
    }
  }
}
