/** The skills table (src/data/skills.ts): nine categories, 27 skills and the
    category filter the skills panel shows. */
module SkillsData {
  import opened Seqs

  datatype SkillCategory = Frontend | Ui | Vue | Backend | Data | Devops | Tooling | Platforms | Seo

  datatype DemoType =
    | ReduxDemo | WebSocketsDemo | RedisDemo | DockerDemo | RestDemo
    | ReactDemo | GraphQLDemo | TypeScriptDemo | GitDemo | VueDemo | NodeJsDemo
    | DefaultDemo

  /** `color` is optional in the source; every entry of the table sets it. */
  datatype Skill = Skill(id: string, labelKey: string, category: SkillCategory, icon: string,
                         demoType: DemoType, color: string)

  const SkillCategories: seq<SkillCategory> :=
    [Frontend, Ui, Vue, Backend, Data, Devops, Tooling, Platforms, Seo]

  /** The `skills` table. The source writes it as one array whose entries
      are grouped by category in the order of `SkillCategories`; here it is
      the concatenation of those groups, which is the same sequence. */
  const Skills: seq<Skill> := Concat(GroupsFrom(0))

  const FrontendSkills: seq<Skill> := [
    Skill("react", "react", Frontend, "atom", ReactDemo, "#61DAFB"),
    Skill("typescript", "typescript", Frontend, "file-code", TypeScriptDemo, "#3178C6"),
    Skill("nextjs", "nextjs", Frontend, "triangle", DefaultDemo, "#FFFFFF"),
    Skill("tailwind", "tailwind", Frontend, "palette", DefaultDemo, "#06B6D4"),
    Skill("redux", "redux", Frontend, "layers", ReduxDemo, "#764ABC")
  ]
  const UiSkills: seq<Skill> := [
    Skill("figma", "figma", Ui, "figma", DefaultDemo, "#F24E1E"),
    Skill("framer", "framer", Ui, "sparkles", DefaultDemo, "#BB4DFF")
  ]
  const VueSkills: seq<Skill> := [
    Skill("vue", "vue", Vue, "component", VueDemo, "#4FC08D"),
    Skill("nuxt", "nuxt", Vue, "hexagon", DefaultDemo, "#00DC82"),
    Skill("pinia", "pinia", Vue, "database", DefaultDemo, "#FFD859")
  ]
  const BackendSkills: seq<Skill> := [
    Skill("nodejs", "nodejs", Backend, "server", NodeJsDemo, "#339933"),
    Skill("express", "express", Backend, "route", DefaultDemo, "#FFFFFF"),
    Skill("graphql", "graphql", Backend, "share-2", GraphQLDemo, "#E10098"),
    Skill("websockets", "websockets", Backend, "radio", WebSocketsDemo, "#00D4FF"),
    Skill("rest", "rest", Backend, "arrow-right-left", RestDemo, "#FF6B6B")
  ]
  const DataSkills: seq<Skill> := [
    Skill("postgresql", "postgresql", Data, "database", DefaultDemo, "#336791"),
    Skill("mongodb", "mongodb", Data, "leaf", DefaultDemo, "#47A248"),
    Skill("redis", "redis", Data, "zap", RedisDemo, "#DC382D")
  ]
  const DevopsSkills: seq<Skill> := [
    Skill("docker", "docker", Devops, "container", DockerDemo, "#2496ED"),
    Skill("kubernetes", "kubernetes", Devops, "network", DefaultDemo, "#326CE5"),
    Skill("aws", "aws", Devops, "cloud", DefaultDemo, "#FF9900")
  ]
  const ToolingSkills: seq<Skill> := [
    Skill("git", "git", Tooling, "git-branch", GitDemo, "#F05032"),
    Skill("webpack", "webpack", Tooling, "package", DefaultDemo, "#8DD6F9"),
    Skill("vite", "vite", Tooling, "bolt", DefaultDemo, "#646CFF")
  ]
  const PlatformsSkills: seq<Skill> := [
    Skill("vercel", "vercel", Platforms, "triangle", DefaultDemo, "#FFFFFF"),
    Skill("supabase", "supabase", Platforms, "database", DefaultDemo, "#3ECF8E")
  ]
  const SeoSkills: seq<Skill> := [
    Skill("seo", "seo", Seo, "search", DefaultDemo, "#4285F4")
  ]

  /** The group of the table holding category `c`. */
  function Block(c: SkillCategory): (b: seq<Skill>)
    ensures |b| >= 1
    ensures forall i :: 0 <= i < |b| ==> b[i].category == c
  {
    match c
    case Frontend => FrontendSkills
    case Ui => UiSkills
    case Vue => VueSkills
    case Backend => BackendSkills
    case Data => DataSkills
    case Devops => DevopsSkills
    case Tooling => ToolingSkills
    case Platforms => PlatformsSkills
    case Seo => SeoSkills
  }

  /** The groups of the categories from the `k`-th one on. */
  function GroupsFrom(k: nat): (gs: seq<seq<Skill>>)
    requires k <= |SkillCategories|
    ensures |gs| == |SkillCategories| - k
    ensures forall j :: 0 <= j < |gs| ==> gs[j] == Block(SkillCategories[k + j])
    decreases |SkillCategories| - k
  {
    if k == |SkillCategories| then []
    else
      var rest := GroupsFrom(k + 1);
      assert forall j :: 1 <= j <= |rest| ==> ([Block(SkillCategories[k])] + rest)[j] == rest[j - 1];
      [Block(SkillCategories[k])] + rest
  }

  /** Where the group of the `k`-th category starts in the table; the last
      entry is the table's length. */
  const GroupStarts: seq<nat> := [0, 5, 7, 10, 15, 18, 21, 24, 26, 27]

  /** Position of `c` in `SkillCategories`. */
  function CategoryIndex(c: SkillCategory): (k: nat)
    ensures k < |SkillCategories| && SkillCategories[k] == c
  {
    match c
    case Frontend => 0 case Ui => 1 case Vue => 2 case Backend => 3 case Data => 4
    case Devops => 5 case Tooling => 6 case Platforms => 7 case Seo => 8
  }

  /** Every category of the type is listed once in `SkillCategories`. */
  lemma SkillCategoriesComplete()
    ensures forall c: SkillCategory :: c in SkillCategories
    ensures Distinct(SkillCategories)
  {
    forall c: SkillCategory ensures c in SkillCategories {
      assert SkillCategories[CategoryIndex(c)] == c;
    }
  }

  /** `getSkillsByCategory`: the skills of one category, in table order. */
  function SkillsByCategory(c: SkillCategory): seq<Skill> {
    Filter(Skills, (s: Skill) => s.category == c)
  }

  /** The filter returns exactly the skills of category `c`, in table order. */
  lemma SkillsByCategoryExact(c: SkillCategory)
    ensures forall s :: s in SkillsByCategory(c) <==> s in Skills && s.category == c
    ensures IsSubsequence(SkillsByCategory(c), Skills)
  {
    forall s ensures s in SkillsByCategory(c) <==> s in Skills && s.category == c {
      FilterMembership(Skills, (s: Skill) => s.category == c, s);
    }
    FilterIsSubsequence(Skills, (s: Skill) => s.category == c);
  }

  /** The concrete result of the filter for every category: the group of the
      table holding that category. */
  lemma SkillsByCategoryValue(c: SkillCategory)
    ensures SkillsByCategory(c) == Block(c)
  {
    var p := (s: Skill) => s.category == c;
    var gs := GroupsFrom(0);
    SkillCategoriesComplete();
    forall k, i | 0 <= k < |gs| && 0 <= i < |gs[k]|
      ensures p(gs[k][i]) <==> k == CategoryIndex(c)
    {
      assert gs[k][i].category == SkillCategories[k];
    }
    FilterConcatOne(gs, p, CategoryIndex(c));
  }

  /** Every category tab has at least one skill, so the category handler
      always finds a first skill to select. */
  lemma EveryCategoryHasSkills(c: SkillCategory)
    ensures |SkillsByCategory(c)| >= 1
    ensures SkillsByCategory(c)[0].category == c
  {
    SkillsByCategoryValue(c);
  }

  /** Group sizes, read off the table. */
  lemma GroupSizes()
    ensures forall k :: 0 <= k < |SkillCategories| ==>
      GroupStarts[k] + |Block(SkillCategories[k])| == GroupStarts[k + 1]
  {
  }

  /** The groups from the `k`-th on cover the table from `GroupStarts[k]` to its end. */
  lemma {:induction false} TailLength(k: nat)
    requires k <= |SkillCategories|
    ensures |Concat(GroupsFrom(k))| == 27 - GroupStarts[k]
    decreases |SkillCategories| - k
  {
    if k < |SkillCategories| {
      TailLength(k + 1);
      GroupSizes();
      ConcatCons(Block(SkillCategories[k]), GroupsFrom(k + 1));
    }
  }

  /** The table holds 27 skills. */
  lemma TableLength()
    ensures |Skills| == 27
  {
    TailLength(0);
  }

  /** The categories partition the table: the per-category lists add up to
      the 27 skills. */
  lemma CategoriesPartitionSkills()
    ensures |SkillsByCategory(Frontend)| + |SkillsByCategory(Ui)| + |SkillsByCategory(Vue)|
          + |SkillsByCategory(Backend)| + |SkillsByCategory(Data)| + |SkillsByCategory(Devops)|
          + |SkillsByCategory(Tooling)| + |SkillsByCategory(Platforms)| + |SkillsByCategory(Seo)|
          == |Skills| == 27
  {
    TableLength();
    SkillsByCategoryValue(Frontend);
    SkillsByCategoryValue(Ui);
    SkillsByCategoryValue(Vue);
    SkillsByCategoryValue(Backend);
    SkillsByCategoryValue(Data);
    SkillsByCategoryValue(Devops);
    SkillsByCategoryValue(Tooling);
    SkillsByCategoryValue(Platforms);
    SkillsByCategoryValue(Seo);
  }

  /** The first skill of the table is React, in the frontend category. */
  lemma FirstSkill()
    ensures |Skills| >= 1 && Skills[0] == FrontendSkills[0]
    ensures Skills[0].id == "react" && Skills[0].category == Frontend
  {
    ConcatCons(FrontendSkills, GroupsFrom(1));
  }

  /** Position of an id in the table (-1 when absent); a proof device for
      the uniqueness of ids. */
  ghost function IdPosition(id: string): int {
    if id == "react" then 0
    else if id == "typescript" then 1
    else if id == "nextjs" then 2
    else if id == "tailwind" then 3
    else if id == "redux" then 4
    else if id == "figma" then 5
    else if id == "framer" then 6
    else if id == "vue" then 7
    else if id == "nuxt" then 8
    else if id == "pinia" then 9
    else if id == "nodejs" then 10
    else if id == "express" then 11
    else if id == "graphql" then 12
    else if id == "websockets" then 13
    else if id == "rest" then 14
    else if id == "postgresql" then 15
    else if id == "mongodb" then 16
    else if id == "redis" then 17
    else if id == "docker" then 18
    else if id == "kubernetes" then 19
    else if id == "aws" then 20
    else if id == "git" then 21
    else if id == "webpack" then 22
    else if id == "vite" then 23
    else if id == "vercel" then 24
    else if id == "supabase" then 25
    else if id == "seo" then 26
    else -1
  }

  /** Within its group, each skill's id sits at its position in the table. */
  lemma GroupRanked(k: nat)
    requires k < |SkillCategories|
    ensures forall i :: 0 <= i < |Block(SkillCategories[k])| ==>
      IdPosition(Block(SkillCategories[k])[i].id) == GroupStarts[k] + i
  {
    match SkillCategories[k]
    case Frontend => FrontendRanked();
    case Ui => UiRanked();
    case Vue => VueRanked();
    case Backend => BackendRanked();
    case Data => DataRanked();
    case Devops => DevopsRanked();
    case Tooling => ToolingRanked();
    case Platforms => PlatformsRanked();
    case Seo => SeoRanked();
  }

  lemma FrontendRanked()
    ensures forall i :: 0 <= i < |FrontendSkills| ==> IdPosition(FrontendSkills[i].id) == 0 + i
  {
  }

  lemma UiRanked()
    ensures forall i :: 0 <= i < |UiSkills| ==> IdPosition(UiSkills[i].id) == 5 + i
  {
  }

  lemma VueRanked()
    ensures forall i :: 0 <= i < |VueSkills| ==> IdPosition(VueSkills[i].id) == 7 + i
  {
  }

  lemma BackendRanked()
    ensures forall i :: 0 <= i < |BackendSkills| ==> IdPosition(BackendSkills[i].id) == 10 + i
  {
  }

  lemma DataRanked()
    ensures forall i :: 0 <= i < |DataSkills| ==> IdPosition(DataSkills[i].id) == 15 + i
  {
  }

  lemma DevopsRanked()
    ensures forall i :: 0 <= i < |DevopsSkills| ==> IdPosition(DevopsSkills[i].id) == 18 + i
  {
  }

  lemma ToolingRanked()
    ensures forall i :: 0 <= i < |ToolingSkills| ==> IdPosition(ToolingSkills[i].id) == 21 + i
  {
  }

  lemma PlatformsRanked()
    ensures forall i :: 0 <= i < |PlatformsSkills| ==> IdPosition(PlatformsSkills[i].id) == 24 + i
  {
  }

  lemma SeoRanked()
    ensures forall i :: 0 <= i < |SeoSkills| ==> IdPosition(SeoSkills[i].id) == 26 + i
  {
  }

  /** A numbering that agrees with `GroupStarts` on every group numbers the
      groups from the `k`-th on consecutively. */
  lemma {:induction false} TailRanked(k: nat, rank: Skill -> int)
    requires k <= |SkillCategories|
    requires forall m, i :: 0 <= m < |SkillCategories| && 0 <= i < |Block(SkillCategories[m])| ==>
      rank(Block(SkillCategories[m])[i]) == GroupStarts[m] + i
    ensures RankedFrom(GroupsFrom(k), rank, GroupStarts[k])
    decreases |SkillCategories| - k
  {
    if k < |SkillCategories| {
      var g := Block(SkillCategories[k]);
      TailRanked(k + 1, rank);
      assert GroupStarts[k] + |g| == GroupStarts[k + 1] by { GroupSizes(); }
      assert forall i :: 0 <= i < |g| ==> rank(g[i]) == GroupStarts[k] + i;
      RankedCons(g, GroupsFrom(k + 1), rank, GroupStarts[k]);
      assert GroupsFrom(k) == [g] + GroupsFrom(k + 1);
    }
  }

  /** Each skill's id sits at that skill's own position. */
  lemma IdPositionOfEntry()
    ensures forall i :: 0 <= i < |Skills| ==> IdPosition(Skills[i].id) == i
  {
    var rank := (s: Skill) => IdPosition(s.id);
    forall m | 0 <= m < |SkillCategories| {
      GroupRanked(m);
    }
    TailRanked(0, rank);
    RankedConcat(GroupsFrom(0), rank, 0);
  }

  /** No two skills share an id. */
  lemma SkillIdsUnique()
    ensures forall i, j :: 0 <= i < j < |Skills| ==> Skills[i].id != Skills[j].id
  {
    IdPositionOfEntry();
    forall i, j | 0 <= i < j < |Skills| ensures Skills[i].id != Skills[j].id {
      assert IdPosition(Skills[i].id) != IdPosition(Skills[j].id);
    }
  }

  /** An id names one entry of the table. */
  lemma SameIdSameSkill(s: Skill, t: Skill)
    requires s in Skills && t in Skills && s.id == t.id
    ensures s == t
  {
    SkillIdsUnique();
    var i :| 0 <= i < |Skills| && Skills[i] == s;
    var j :| 0 <= j < |Skills| && Skills[j] == t;
    assert !(i < j) && !(j < i);
  }
}
