/** The projects section: the filter buttons and the filtered list, and on
    each card the title and description in the active language, the first
    four technology tags with a `+N` badge for the rest, and each tag's colour. */
module Projects {
  import opened Prelude
  import opened Language

  datatype ProjectType = Mobile | Ecommerce | Educational | Portfolio | Saas

  /** The string a project's `type` holds. */
  function TypeKey(t: ProjectType): string
  {
    match t
    case Mobile => "mobile"
    case Ecommerce => "ecommerce"
    case Educational => "educational"
    case Portfolio => "portfolio"
    case Saas => "saas"
  }

  /** A project as the cards use it; its image and links are not modelled. */
  datatype Project = Project(id: string, title: string, description: string, technologies: seq<string>, kind: ProjectType)

  // The site's projects; titles and descriptions are the Arabic originals.

  const NovelsAppTitle: string := "تطبيق قراءة الروايات"
  const NovelsAppDescription: string := "تطبيق موبايل متكامل لقراءة الروايات مع نظام إدارة محتوى شامل وbackend قوي. يتضمن ميزات القراءة الليلية، حفظ التقدم، والإشعارات."
  const NovelsApp: Project := Project("novels-app", NovelsAppTitle, NovelsAppDescription,
    ["Flutter", "Laravel API", "PostgreSQL", "Push Notifications", "REST API"], Mobile)

  const SheikhHerbsTitle: string := "متجر شيخ العشابين الإلكتروني"
  const SheikhHerbsDescription: string := "متجر إلكتروني متكامل لبيع المنتجات العشبية والطبيعية مع لوحة تحكم شاملة لإدارة المنتجات والطلبات والعملاء."
  const SheikhHerbs: Project := Project("sheikh-herbs", SheikhHerbsTitle, SheikhHerbsDescription,
    ["Laravel", "MySQL", "Bootstrap", "Payment Gateway", "Admin Dashboard"], Ecommerce)

  const ValdorStoreTitle: string := "متجر فالدور الإلكتروني"
  const ValdorStoreDescription: string := "منصة تجارة إلكترونية احترافية مع نظام إدارة متقدم، معالجة دفع آمنة، وتتبع الشحنات."
  const ValdorStore: Project := Project("valdor-store", ValdorStoreTitle, ValdorStoreDescription,
    ["Laravel", "MySQL", "Vue.js", "Shipping APIs", "Admin Panel"], Ecommerce)

  const BrozPlatformTitle: string := "منصة بروز التعليمية"
  const BrozPlatformDescription: string := "منصة تعليمية متكاملة لحجز وإدارة الكورسات التدريبية مع نظام دفع إلكتروني ولوحة تحكم للمدربين والطلاب."
  const BrozPlatform: Project := Project("broz-platform", BrozPlatformTitle, BrozPlatformDescription,
    ["Next.js", "Laravel API", "PostgreSQL", "Stripe", "Authentication"], Educational)

  const PortfolioSiteTitle: string := "بورتفوليو شخصي"
  const PortfolioSiteDescription: string := "موقع بورتفوليو احترافي لعرض المشاريع والخبرات مع تصميم عصري وتجربة مستخدم سلسة."
  const PortfolioSite: Project := Project("portfolio", PortfolioSiteTitle, PortfolioSiteDescription,
    ["Next.js", "TypeScript", "Tailwind CSS", "Framer Motion"], Portfolio)

  /** The site's projects, in display order. */
  const ProjectList: seq<Project> := [NovelsApp, SheikhHerbs, ValdorStore, BrozPlatform, PortfolioSite]

  // The English titles and descriptions, keyed by project id.

  const NovelsAppTitleEn: string := "Novels Reading App"
  const SheikhHerbsTitleEn: string := "Sheikh Al-Ashabin Store"
  const ValdorStoreTitleEn: string := "Valdor E-commerce Store"
  const BrozPlatformTitleEn: string := "Broz Educational Platform"
  const PortfolioSiteTitleEn: string := "Personal Portfolio"
  const NovelsAppDescriptionEn: string := "A comprehensive mobile app for reading novels with a complete content management system and powerful backend. Includes night reading mode, progress saving, and notifications."
  const SheikhHerbsDescriptionEn: string := "A complete e-commerce store for herbal and natural products with a comprehensive admin panel for managing products, orders, and customers."
  const ValdorStoreDescriptionEn: string := "A professional e-commerce platform with an advanced management system, secure payment processing, and shipment tracking."
  const BrozPlatformDescriptionEn: string := "A comprehensive educational platform for booking and managing training courses with an electronic payment system and admin panels for trainers and students."
  const PortfolioSiteDescriptionEn: string := "A professional portfolio website showcasing projects and experiences with a modern design and smooth user experience."

  const ProjectTitlesEn: map<string, string> := map[
    "novels-app" := NovelsAppTitleEn,
    "sheikh-herbs" := SheikhHerbsTitleEn,
    "valdor-store" := ValdorStoreTitleEn,
    "broz-platform" := BrozPlatformTitleEn,
    "portfolio" := PortfolioSiteTitleEn
  ]

  const ProjectDescriptionsEn: map<string, string> := map[
    "novels-app" := NovelsAppDescriptionEn,
    "sheikh-herbs" := SheikhHerbsDescriptionEn,
    "valdor-store" := ValdorStoreDescriptionEn,
    "broz-platform" := BrozPlatformDescriptionEn,
    "portfolio" := PortfolioSiteDescriptionEn
  ]

  const TechColors: map<string, string> := map[
    "Flutter" := "bg-blue-500/10 text-blue-600 dark:text-blue-400",
    "Laravel" := "bg-red-500/10 text-red-600 dark:text-red-400",
    "Laravel API" := "bg-red-500/10 text-red-600 dark:text-red-400",
    "Next.js" := "bg-foreground/10 text-foreground",
    "Vue.js" := "bg-green-500/10 text-green-600 dark:text-green-400",
    "PostgreSQL" := "bg-blue-600/10 text-blue-700 dark:text-blue-300",
    "MySQL" := "bg-orange-500/10 text-orange-600 dark:text-orange-400",
    "TypeScript" := "bg-blue-600/10 text-blue-700 dark:text-blue-300",
    "Tailwind CSS" := "bg-cyan-500/10 text-cyan-600 dark:text-cyan-400",
    "Framer Motion" := "bg-purple-500/10 text-purple-600 dark:text-purple-400",
    "Stripe" := "bg-purple-600/10 text-purple-700 dark:text-purple-300",
    "Bootstrap" := "bg-purple-500/10 text-purple-600 dark:text-purple-400",
    "REST API" := "bg-green-500/10 text-green-600 dark:text-green-400"
  ]

  const DefaultTechClass: string := "bg-muted text-muted-foreground"

  // ---- Filtering ----

  /** The keys of the filter buttons, in order; `"all"` is the initial filter. */
  const FilterKeys: seq<string> := ["all", "ecommerce", "mobile", "educational", "portfolio"]

  const InitialFilter: string := "all"

  predicate MatchesFilter(activeFilter: string, p: Project)
  {
    activeFilter == "all" || TypeKey(p.kind) == activeFilter
  }

  function FilteredProjects(projects: seq<Project>, activeFilter: string): seq<Project>
  {
    Filter(projects, (p: Project) => MatchesFilter(activeFilter, p))
  }

  /** Under `"all"` every project is listed, in its order. */
  lemma AllShowsEverything(projects: seq<Project>)
    ensures FilteredProjects(projects, "all") == projects
  {
    FilterKeepsAll(projects, (p: Project) => MatchesFilter("all", p));
  }

  /** Under any other filter exactly the projects of that type are listed, in
      their original order. */
  lemma FilterSelectsType(projects: seq<Project>, activeFilter: string, p: Project)
    ensures p in FilteredProjects(projects, activeFilter) <==>
      p in projects && (activeFilter == "all" || TypeKey(p.kind) == activeFilter)
    ensures IsSubsequence(FilteredProjects(projects, activeFilter), projects)
  {
    FilterMembership(projects, (q: Project) => MatchesFilter(activeFilter, q), p);
    FilterIsSubsequence(projects, (q: Project) => MatchesFilter(activeFilter, q));
  }

  /** A `saas` project, which the type allows, has no button of its own: among
      the filters a visitor can pick it shows only under `"all"`. */
  lemma SaasOnlyUnderAll(projects: seq<Project>, i: int, p: Project)
    requires 0 <= i < |FilterKeys| && p.kind == Saas
    ensures p in FilteredProjects(projects, FilterKeys[i]) <==> p in projects && i == 0
  {
    FilterSelectsType(projects, FilterKeys[i], p);
  }

  /** With the site's data, `ecommerce` lists the two stores, in order. */
  lemma EcommerceFilter()
    ensures FilteredProjects(ProjectList, "ecommerce") == [SheikhHerbs, ValdorStore]
  {
    FilterFive(ProjectList, (p: Project) => MatchesFilter("ecommerce", p));
  }

  /** Each of the other buttons lists one project. */
  lemma SingleProjectFilters()
    ensures FilteredProjects(ProjectList, "mobile") == [NovelsApp]
    ensures FilteredProjects(ProjectList, "educational") == [BrozPlatform]
    ensures FilteredProjects(ProjectList, "portfolio") == [PortfolioSite]
  {
    FilterFive(ProjectList, (p: Project) => MatchesFilter("mobile", p));
    FilterFive(ProjectList, (p: Project) => MatchesFilter("educational", p));
    FilterFive(ProjectList, (p: Project) => MatchesFilter("portfolio", p));
  }

  /** A button is highlighted when its key is the active filter. */
  predicate IsHighlighted(activeFilter: string, key: string)
  {
    activeFilter == key
  }

  /** Exactly one button is highlighted for a filter chosen from the buttons. */
  lemma ExactlyOneHighlighted(i: int, j: int)
    requires 0 <= i < |FilterKeys| && 0 <= j < |FilterKeys|
    ensures IsHighlighted(FilterKeys[i], FilterKeys[j]) <==> i == j
  {
  }

  // ---- Cards ----

  /** The card title: the Arabic original in Arabic; in English the English
      title when there is a non-empty one, else the original. */
  function ProjectTitle(lang: Lang, p: Project): string
  {
    if lang == Ar then p.title else LookupOr(ProjectTitlesEn, p.id, p.title)
  }

  function ProjectDescription(lang: Lang, p: Project): string
  {
    if lang == Ar then p.description else LookupOr(ProjectDescriptionsEn, p.id, p.description)
  }

  /** The title and description fall back to the originals exactly when no
      English text exists. */
  lemma CardTextFallback(lang: Lang, p: Project)
    ensures lang == Ar ==> ProjectTitle(lang, p) == p.title && ProjectDescription(lang, p) == p.description
    ensures lang == En && Truthy(ProjectTitlesEn, p.id) ==> ProjectTitle(lang, p) == ProjectTitlesEn[p.id]
    ensures lang == En && !Truthy(ProjectTitlesEn, p.id) ==> ProjectTitle(lang, p) == p.title
    ensures lang == En && Truthy(ProjectDescriptionsEn, p.id) ==> ProjectDescription(lang, p) == ProjectDescriptionsEn[p.id]
    ensures lang == En && !Truthy(ProjectDescriptionsEn, p.id) ==> ProjectDescription(lang, p) == p.description
  {
    LookupOrUsesEntry(ProjectTitlesEn, p.id, p.title);
    LookupOrUsesEntry(ProjectDescriptionsEn, p.id, p.description);
  }

  /** Every project of the site has an English title and description. */
  lemma EveryProjectTranslated(i: int)
    requires 0 <= i < |ProjectList|
    ensures Truthy(ProjectTitlesEn, ProjectList[i].id) && Truthy(ProjectDescriptionsEn, ProjectList[i].id)
  {
  }

  /** The tags shown on a card: `technologies.slice(0, 4)`. */
  function ShownTechnologies(p: Project): seq<string>
  {
    Take(p.technologies, 4)
  }

  /** The `+N` badge, present only when more than four technologies exist. */
  function OverflowCount(p: Project): Option<nat>
  {
    if |p.technologies| > 4 then Some(|p.technologies| - 4) else None
  }

  /** The card shows the first `min(4, n)` technologies, in order, and the badge
      accounts for exactly the rest. */
  lemma TagsAccountForAll(p: Project)
    ensures |ShownTechnologies(p)| == Min(4, |p.technologies|)
    ensures ShownTechnologies(p) == p.technologies[..|ShownTechnologies(p)|]
    ensures OverflowCount(p).Some? <==> |p.technologies| > 4
    ensures |ShownTechnologies(p)| + (if OverflowCount(p).Some? then OverflowCount(p).value else 0) == |p.technologies|
  {
  }

  /** A tag's colour: its entry, or the muted default for an unknown technology. */
  function TechClass(tech: string): string
  {
    LookupOr(TechColors, tech, DefaultTechClass)
  }

  lemma TechClassFallback(tech: string)
    ensures tech !in TechColors ==> TechClass(tech) == DefaultTechClass
    ensures tech in TechColors ==> TechClass(tech) == TechColors[tech]
  {
    assert forall k :: k in TechColors ==> TechColors[k] != "";
  }

  /** The first card: four tags, a `+1` badge, and the muted default on the
      `Push Notifications` tag, which has no colour of its own. */
  lemma NovelsAppCard()
    ensures ShownTechnologies(ProjectList[0]) == ["Flutter", "Laravel API", "PostgreSQL", "Push Notifications"]
    ensures OverflowCount(ProjectList[0]) == Some(1)
    ensures TechClass("Push Notifications") == DefaultTechClass
  {
    assert ProjectList[0].technologies[..4] == ["Flutter", "Laravel API", "PostgreSQL", "Push Notifications"];
  }
}
