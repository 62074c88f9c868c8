/** The services table (src/data/services.ts): three categories, 14
    services and the category filter the services panel shows. */
module ServicesData {
  import opened Seqs

  datatype ServiceCategory = Development | Design | Consulting

  /** `color` is optional in the source; every entry of the table sets it. */
  datatype Service = Service(id: string, labelKey: string, category: ServiceCategory,
                             icon: string, color: string)

  const ServiceCategories: seq<ServiceCategory> := [Development, Design, Consulting]

  /** The `services` table. The source writes it as one array whose entries
      are grouped by category in the order of `ServiceCategories`; here it
      is the concatenation of those groups, which is the same sequence. */
  const Services: seq<Service> := Concat(GroupsFrom(0))

  const DevelopmentServices: seq<Service> := [
    Service("web-apps", "webApps", Development, "globe", "#61DAFB"),
    Service("mobile-apps", "mobileApps", Development, "smartphone", "#4FC08D"),
    Service("api-development", "apiDevelopment", Development, "server", "#339933"),
    Service("ecommerce", "ecommerce", Development, "shopping-cart", "#FF9900"),
    Service("saas", "saas", Development, "cloud", "#3178C6"),
    Service("cms", "cms", Development, "layout", "#E10098")
  ]
  const DesignServices: seq<Service> := [
    Service("ui-design", "uiDesign", Design, "palette", "#F24E1E"),
    Service("ux-design", "uxDesign", Design, "users", "#BB4DFF"),
    Service("branding", "branding", Design, "star", "#FFD859"),
    Service("prototyping", "prototyping", Design, "figma", "#00DC82")
  ]
  const ConsultingServices: seq<Service> := [
    Service("tech-consulting", "techConsulting", Consulting, "lightbulb", "#06B6D4"),
    Service("code-review", "codeReview", Consulting, "code", "#764ABC"),
    Service("architecture", "architecture", Consulting, "layers", "#326CE5"),
    Service("seo-optimization", "seoOptimization", Consulting, "search", "#4285F4")
  ]

  /** The group of the table holding category `c`. */
  function Block(c: ServiceCategory): (b: seq<Service>)
    ensures |b| >= 1
    ensures forall i :: 0 <= i < |b| ==> b[i].category == c
  {
    match c
    case Development => DevelopmentServices
    case Design => DesignServices
    case Consulting => ConsultingServices
  }

  /** The groups of the categories from the `k`-th one on. */
  function GroupsFrom(k: nat): (gs: seq<seq<Service>>)
    requires k <= |ServiceCategories|
    ensures |gs| == |ServiceCategories| - k
    ensures forall j :: 0 <= j < |gs| ==> gs[j] == Block(ServiceCategories[k + j])
    decreases |ServiceCategories| - k
  {
    if k == |ServiceCategories| then []
    else
      var rest := GroupsFrom(k + 1);
      assert forall j :: 1 <= j <= |rest| ==> ([Block(ServiceCategories[k])] + rest)[j] == rest[j - 1];
      [Block(ServiceCategories[k])] + rest
  }

  /** Where the group of the `k`-th category starts in the table; the last
      entry is the table's length. */
  const GroupStarts: seq<nat> := [0, 6, 10, 14]

  /** Position of `c` in `ServiceCategories`. */
  function CategoryIndex(c: ServiceCategory): (k: nat)
    ensures k < |ServiceCategories| && ServiceCategories[k] == c
  {
    match c
    case Development => 0 case Design => 1 case Consulting => 2
  }

  /** Every category of the type is listed once in `ServiceCategories`. */
  lemma ServiceCategoriesComplete()
    ensures forall c: ServiceCategory :: c in ServiceCategories
    ensures Distinct(ServiceCategories)
  {
    forall c: ServiceCategory ensures c in ServiceCategories {
      assert ServiceCategories[CategoryIndex(c)] == c;
    }
  }

  /** `getServicesByCategory`: the services of one category, in table order. */
  function ServicesByCategory(c: ServiceCategory): seq<Service> {
    Filter(Services, (s: Service) => s.category == c)
  }

  /** The filter returns exactly the services of category `c`, in table order. */
  lemma ServicesByCategoryExact(c: ServiceCategory)
    ensures forall s :: s in ServicesByCategory(c) <==> s in Services && s.category == c
    ensures IsSubsequence(ServicesByCategory(c), Services)
  {
    forall s ensures s in ServicesByCategory(c) <==> s in Services && s.category == c {
      FilterMembership(Services, (s: Service) => s.category == c, s);
    }
    FilterIsSubsequence(Services, (s: Service) => s.category == c);
  }

  /** The concrete result of the filter for every category: the group of the
      table holding that category. */
  lemma ServicesByCategoryValue(c: ServiceCategory)
    ensures ServicesByCategory(c) == Block(c)
  {
    var p := (s: Service) => s.category == c;
    var gs := GroupsFrom(0);
    ServiceCategoriesComplete();
    forall k, i | 0 <= k < |gs| && 0 <= i < |gs[k]|
      ensures p(gs[k][i]) <==> k == CategoryIndex(c)
    {
      assert gs[k][i].category == ServiceCategories[k];
    }
    FilterConcatOne(gs, p, CategoryIndex(c));
  }

  /** Every category tab has at least one service, and the three hold 6, 4
      and 4 services. */
  lemma EveryCategoryHasServices(c: ServiceCategory)
    ensures |ServicesByCategory(c)| >= 1
    ensures ServicesByCategory(c)[0].category == c
    ensures |ServicesByCategory(c)| == GroupStarts[CategoryIndex(c) + 1] - GroupStarts[CategoryIndex(c)]
  {
    ServicesByCategoryValue(c);
  }

  /** Group sizes, read off the table. */
  lemma GroupSizes()
    ensures forall k :: 0 <= k < |ServiceCategories| ==>
      GroupStarts[k] + |Block(ServiceCategories[k])| == GroupStarts[k + 1]
  {
  }

  /** The groups from the `k`-th on cover the table from `GroupStarts[k]` to its end. */
  lemma {:induction false} TailLength(k: nat)
    requires k <= |ServiceCategories|
    ensures |Concat(GroupsFrom(k))| == 14 - GroupStarts[k]
    decreases |ServiceCategories| - k
  {
    if k < |ServiceCategories| {
      TailLength(k + 1);
      GroupSizes();
      ConcatCons(Block(ServiceCategories[k]), GroupsFrom(k + 1));
    }
  }

  /** The table holds 14 services. */
  lemma TableLength()
    ensures |Services| == 14
  {
    TailLength(0);
  }

  /** The categories partition the table: 6 + 4 + 4 services make up the 14. */
  lemma CategoriesPartitionServices()
    ensures |ServicesByCategory(Development)| == 6
    ensures |ServicesByCategory(Design)| == 4
    ensures |ServicesByCategory(Consulting)| == 4
    ensures |ServicesByCategory(Development)| + |ServicesByCategory(Design)|
          + |ServicesByCategory(Consulting)| == |Services| == 14
  {
    TableLength();
    ServicesByCategoryValue(Development);
    ServicesByCategoryValue(Design);
    ServicesByCategoryValue(Consulting);
  }

  /** The first service of the table is web apps, in the development category. */
  lemma FirstService()
    ensures |Services| >= 1 && Services[0] == DevelopmentServices[0]
    ensures Services[0].id == "web-apps" && Services[0].category == Development
  {
    ConcatCons(DevelopmentServices, GroupsFrom(1));
  }

  /** Position of an id in the table (-1 when absent); a proof device for
      the uniqueness of ids. */
  ghost function IdPosition(id: string): int {
    if id == "web-apps" then 0
    else if id == "mobile-apps" then 1
    else if id == "api-development" then 2
    else if id == "ecommerce" then 3
    else if id == "saas" then 4
    else if id == "cms" then 5
    else if id == "ui-design" then 6
    else if id == "ux-design" then 7
    else if id == "branding" then 8
    else if id == "prototyping" then 9
    else if id == "tech-consulting" then 10
    else if id == "code-review" then 11
    else if id == "architecture" then 12
    else if id == "seo-optimization" then 13
    else -1
  }

  /** Within its group, each service's id sits at its position in the table. */
  lemma GroupRanked(k: nat)
    requires k < |ServiceCategories|
    ensures forall i :: 0 <= i < |Block(ServiceCategories[k])| ==>
      IdPosition(Block(ServiceCategories[k])[i].id) == GroupStarts[k] + i
  {
    var b := Block(ServiceCategories[k]);
    forall i | 0 <= i < |b| ensures IdPosition(b[i].id) == GroupStarts[k] + i {
      if k == 0 {
        if i == 0 { assert b[0].id == DevelopmentServices[0].id; } else if i == 1 { assert b[1].id == DevelopmentServices[1].id; } else if i == 2 { assert b[2].id == DevelopmentServices[2].id; } else if i == 3 { assert b[3].id == DevelopmentServices[3].id; } else if i == 4 { assert b[4].id == DevelopmentServices[4].id; } else if i == 5 { assert b[5].id == DevelopmentServices[5].id; }
      } else if k == 1 {
        if i == 0 { assert b[0].id == DesignServices[0].id; } else if i == 1 { assert b[1].id == DesignServices[1].id; } else if i == 2 { assert b[2].id == DesignServices[2].id; } else if i == 3 { assert b[3].id == DesignServices[3].id; }
      } else {
        if i == 0 { assert b[0].id == ConsultingServices[0].id; } else if i == 1 { assert b[1].id == ConsultingServices[1].id; } else if i == 2 { assert b[2].id == ConsultingServices[2].id; } else if i == 3 { assert b[3].id == ConsultingServices[3].id; }
      }
    }
  }

  /** A numbering that agrees with `GroupStarts` on every group numbers the
      groups from the `k`-th on consecutively. */
  lemma {:induction false} TailRanked(k: nat, rank: Service -> int)
    requires k <= |ServiceCategories|
    requires forall m, i :: 0 <= m < |ServiceCategories| && 0 <= i < |Block(ServiceCategories[m])| ==>
      rank(Block(ServiceCategories[m])[i]) == GroupStarts[m] + i
    ensures RankedFrom(GroupsFrom(k), rank, GroupStarts[k])
    decreases |ServiceCategories| - k
  {
    if k < |ServiceCategories| {
      var g := Block(ServiceCategories[k]);
      TailRanked(k + 1, rank);
      assert GroupStarts[k] + |g| == GroupStarts[k + 1] by { GroupSizes(); }
      assert forall i :: 0 <= i < |g| ==> rank(g[i]) == GroupStarts[k] + i;
      RankedCons(g, GroupsFrom(k + 1), rank, GroupStarts[k]);
      assert GroupsFrom(k) == [g] + GroupsFrom(k + 1);
    }
  }

  /** Each service's id sits at that service's own position. */
  lemma IdPositionOfEntry()
    ensures forall i :: 0 <= i < |Services| ==> IdPosition(Services[i].id) == i
  {
    var rank := (s: Service) => IdPosition(s.id);
    forall m | 0 <= m < |ServiceCategories| {
      GroupRanked(m);
    }
    TailRanked(0, rank);
    RankedConcat(GroupsFrom(0), rank, 0);
  }

  /** No two services share an id. */
  lemma ServiceIdsUnique()
    ensures forall i, j :: 0 <= i < j < |Services| ==> Services[i].id != Services[j].id
  {
    IdPositionOfEntry();
    forall i, j | 0 <= i < j < |Services| ensures Services[i].id != Services[j].id {
      assert IdPosition(Services[i].id) != IdPosition(Services[j].id);
    }
  }

  /** An id names one entry of the table. */
  lemma SameIdSameService(s: Service, t: Service)
    requires s in Services && t in Services && s.id == t.id
    ensures s == t
  {
    ServiceIdsUnique();
    var i :| 0 <= i < |Services| && Services[i] == s;
    var j :| 0 <= j < |Services| && Services[j] == t;
    assert !(i < j) && !(j < i);
  }
}
