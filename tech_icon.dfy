/** The technology icon (src/components/TechIcon.tsx): a name-to-icon map
    with a fallback. */
module TechIcon {
  import opened Wrappers
  import SkillsData
  import ServicesData

  /** The lucide icons the map uses. */
  datatype Icon =
      Atom | FileCode | Triangle | Palette | Layers | Figma | Sparkles | Component
    | Hexagon | Database | Server | Route | Share2 | Radio | ArrowRightLeft | Leaf | Zap
    | Container | Network | Cloud | GitBranch | Package | Bolt | Search

  /** `iconMap`. */
  const IconMap: map<string, Icon> := map[
    "atom" := Atom,
    "file-code" := FileCode,
    "triangle" := Triangle,
    "palette" := Palette,
    "layers" := Layers,
    "figma" := Figma,
    "sparkles" := Sparkles,
    "component" := Component,
    "hexagon" := Hexagon,
    "database" := Database,
    "server" := Server,
    "route" := Route,
    "share-2" := Share2,
    "radio" := Radio,
    "arrow-right-left" := ArrowRightLeft,
    "leaf" := Leaf,
    "zap" := Zap,
    "container" := Container,
    "network" := Network,
    "cloud" := Cloud,
    "git-branch" := GitBranch,
    "package" := Package,
    "bolt" := Bolt,
    "search" := Search
  ]

  /** The key each icon is registered under. */
  function IconName(i: Icon): string {
    match i
    case Atom => "atom"
    case FileCode => "file-code"
    case Triangle => "triangle"
    case Palette => "palette"
    case Layers => "layers"
    case Figma => "figma"
    case Sparkles => "sparkles"
    case Component => "component"
    case Hexagon => "hexagon"
    case Database => "database"
    case Server => "server"
    case Route => "route"
    case Share2 => "share-2"
    case Radio => "radio"
    case ArrowRightLeft => "arrow-right-left"
    case Leaf => "leaf"
    case Zap => "zap"
    case Container => "container"
    case Network => "network"
    case Cloud => "cloud"
    case GitBranch => "git-branch"
    case Package => "package"
    case Bolt => "bolt"
    case Search => "search"
  }

  /** `iconMap[name] || Atom`: the mapped icon for a key, Atom otherwise. */
  function IconFor(name: string): Icon {
    if name in IconMap then IconMap[name] else Atom
  }

  /** Every icon of the set is registered, under its own name. */
  lemma EveryIconRegistered(i: Icon)
    ensures IconName(i) in IconMap
    ensures IconMap[IconName(i)] == i
    ensures IconFor(IconName(i)) == i
  {
    match i
    case Atom | FileCode | Triangle | Palette => RegisteredGroup1();
    case Layers | Figma | Sparkles | Component => RegisteredGroup2();
    case Hexagon | Database | Server | Route => RegisteredGroup3();
    case Share2 | Radio | ArrowRightLeft | Leaf => RegisteredGroup4();
    case Zap | Container | Network | Cloud => RegisteredGroup5();
    case GitBranch | Package | Bolt | Search => RegisteredGroup6();
  }

  /** The map sends atom, file-code, triangle and palette to their icons. */
  lemma RegisteredGroup1()
    ensures IconMap["atom"] == Atom
    ensures IconMap["file-code"] == FileCode
    ensures IconMap["triangle"] == Triangle
    ensures IconMap["palette"] == Palette
  {
  }

  /** The map sends layers, figma, sparkles and component to their icons. */
  lemma RegisteredGroup2()
    ensures IconMap["layers"] == Layers
    ensures IconMap["figma"] == Figma
    ensures IconMap["sparkles"] == Sparkles
    ensures IconMap["component"] == Component
  {
  }

  /** The map sends hexagon, database, server and route to their icons. */
  lemma RegisteredGroup3()
    ensures IconMap["hexagon"] == Hexagon
    ensures IconMap["database"] == Database
    ensures IconMap["server"] == Server
    ensures IconMap["route"] == Route
  {
  }

  /** The map sends share-2, radio, arrow-right-left and leaf to their icons. */
  lemma RegisteredGroup4()
    ensures IconMap["share-2"] == Share2
    ensures IconMap["radio"] == Radio
    ensures IconMap["arrow-right-left"] == ArrowRightLeft
    ensures IconMap["leaf"] == Leaf
  {
  }

  /** The map sends zap, container, network and cloud to their icons. */
  lemma RegisteredGroup5()
    ensures IconMap["zap"] == Zap
    ensures IconMap["container"] == Container
    ensures IconMap["network"] == Network
    ensures IconMap["cloud"] == Cloud
  {
  }

  /** The map sends git-branch, package, bolt and search to their icons. */
  lemma RegisteredGroup6()
    ensures IconMap["git-branch"] == GitBranch
    ensures IconMap["package"] == Package
    ensures IconMap["bolt"] == Bolt
    ensures IconMap["search"] == Search
  {
  }

  /** The lookup is total; names outside the map get Atom, and among the
      keys only "atom" does. */
  lemma LookupFallback(name: string)
    ensures name in IconMap ==> IconFor(name) == IconMap[name]
    ensures name !in IconMap ==> IconFor(name) == Atom
    ensures IconFor(name) == Atom <==> name !in IconMap || name == "atom"
  {
  }

  /** The rendered element: the icon with `className` (default empty) and
      `style` passed through. */
  datatype Element = Element(icon: Icon, className: string, style: Option<string>)

  function Render(name: string, className: Option<string>, style: Option<string>): (e: Element)
    ensures e.icon == IconFor(name)
    ensures className.Some? ==> e.className == className.value
    ensures className.None? ==> e.className == ""
    ensures e.style == style
  {
    Element(IconFor(name), className.GetOr(""), style)
  }

  /** Every icon name used by a group of the skills table is a key of the map. */
  lemma SkillGroupIconsMapped(c: SkillsData.SkillCategory)
    ensures forall i :: 0 <= i < |SkillsData.Block(c)| ==> SkillsData.Block(c)[i].icon in IconMap
  {
    var b := SkillsData.Block(c);
    forall i | 0 <= i < |b| ensures b[i].icon in IconMap {
      match c
      case Frontend => assert b[i] in SkillsData.FrontendSkills;
      case Ui => assert b[i] in SkillsData.UiSkills;
      case Vue => assert b[i] in SkillsData.VueSkills;
      case Backend => assert b[i] in SkillsData.BackendSkills;
      case Data => assert b[i] in SkillsData.DataSkills;
      case Devops => assert b[i] in SkillsData.DevopsSkills;
      case Tooling => assert b[i] in SkillsData.ToolingSkills;
      case Platforms => assert b[i] in SkillsData.PlatformsSkills;
      case Seo => assert b[i] in SkillsData.SeoSkills;
    }
  }

  /** Every skill's icon is a key of the map, so no skill falls back to Atom
      unless its icon is "atom" itself. */
  lemma SkillIconsMapped(s: SkillsData.Skill)
    requires s in SkillsData.Skills
    ensures s.icon in IconMap
    ensures IconFor(s.icon) == IconMap[s.icon]
  {
    SkillsData.SkillsByCategoryExact(s.category);
    SkillsData.SkillsByCategoryValue(s.category);
    SkillGroupIconsMapped(s.category);
  }

  /** Eight of the fourteen service icon names are not keys of the map, and
      those services are drawn with the Atom fallback. */
  const UnmappedServiceIcons: seq<string> :=
    ["globe", "smartphone", "shopping-cart", "layout", "users", "star", "lightbulb", "code"]

  /** Eight of the service icon names are not keys of the map; those
      services are drawn with the Atom fallback. */
  lemma ServiceIconsFallBack()
    ensures forall n :: n in UnmappedServiceIcons ==> n !in IconMap
    ensures forall n :: n in UnmappedServiceIcons ==> IconFor(n) == Atom
  {
    UnmappedFirstHalf();
    UnmappedSecondHalf();
    forall n | n in UnmappedServiceIcons ensures n !in IconMap {
      assert n == "globe" || n == "smartphone" || n == "shopping-cart" || n == "layout"
        || n == "users" || n == "star" || n == "lightbulb" || n == "code";
    }
  }

  lemma UnmappedFirstHalf()
    ensures "globe" !in IconMap && "smartphone" !in IconMap
    ensures "shopping-cart" !in IconMap && "layout" !in IconMap
  {
  }

  lemma UnmappedSecondHalf()
    ensures "users" !in IconMap && "star" !in IconMap
    ensures "lightbulb" !in IconMap && "code" !in IconMap
  {
  }

  /** The first two services, web apps and mobile apps, are among them. */
  lemma FirstServicesFallBack()
    ensures ServicesData.DevelopmentServices[0].icon in UnmappedServiceIcons
    ensures ServicesData.DevelopmentServices[1].icon in UnmappedServiceIcons
  {
  }

  /** The other six service icon names are keys. */
  lemma SharedServiceIconsMapped()
    ensures forall n :: n in ["server", "cloud", "palette", "figma", "layers", "search"] ==> n in IconMap
  {
  }
}
