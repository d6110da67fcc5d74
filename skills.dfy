/** The skills section: one card per category, in a fixed order, each listing
    the skills of its category in data order, under a translated heading, with
    an icon per skill or a default one. */
module Skills {
  import opened Prelude
  import opened Language

  /** The categories a skill may carry; `Soft` has no section. */
  datatype Category = Frontend | Backend | Mobile | Database | Soft

  function CategoryKey(c: Category): string
  {
    match c
    case Frontend => "frontend"
    case Backend => "backend"
    case Mobile => "mobile"
    case Database => "database"
    case Soft => "soft"
  }

  datatype Skill = Skill(name: string, level: int, category: Category)

  /** The sections, in the order the page shows them. */
  const SectionCategories: seq<Category> := [Frontend, Backend, Mobile, Database]

  /** The skills one section lists. */
  function SectionSkills(skills: seq<Skill>, c: Category): seq<Skill>
  {
    Filter(skills, (s: Skill) => s.category == c)
  }

  /** A section lists exactly the skills of its category, in data order. */
  lemma SectionListsItsCategory(skills: seq<Skill>, c: Category, s: Skill)
    ensures s in SectionSkills(skills, c) <==> s in skills && s.category == c
    ensures IsSubsequence(SectionSkills(skills, c), skills)
  {
    FilterMembership(skills, (x: Skill) => x.category == c, s);
    FilterIsSubsequence(skills, (x: Skill) => x.category == c);
  }

  /** The page has a section for every category but `Soft`. */
  lemma SectionsAreTheFour(c: Category)
    ensures c in SectionCategories <==> c != Soft
  {
  }

  /** A soft skill appears in no section, and every other skill in exactly the
      section of its own category. */
  lemma SkillShownOnce(skills: seq<Skill>, s: Skill, i: int)
    requires s in skills && 0 <= i < |SectionCategories|
    ensures s in SectionSkills(skills, SectionCategories[i]) <==> s.category == SectionCategories[i]
    ensures s.category == Soft ==> s !in SectionSkills(skills, SectionCategories[i])
  {
    SectionListsItsCategory(skills, SectionCategories[i], s);
  }

  /** The number of skills the page lists: the four sections together. */
  function ShownCount(skills: seq<Skill>): nat
  {
    |SectionSkills(skills, Frontend)| + |SectionSkills(skills, Backend)| +
    |SectionSkills(skills, Mobile)| + |SectionSkills(skills, Database)|
  }

  /** The skills not shown anywhere. */
  function SoftSkills(skills: seq<Skill>): seq<Skill>
  {
    SectionSkills(skills, Soft)
  }

  /** The sections together with the soft skills account for every skill once:
      nothing is listed twice and only soft skills are dropped. */
  lemma {:induction false} SectionsPartitionSkills(skills: seq<Skill>)
    ensures ShownCount(skills) + |SoftSkills(skills)| == |skills|
  {
    if skills != [] {
      SectionsPartitionSkills(skills[1..]);
    }
  }

  /** Every skill is shown when there are no soft skills. */
  lemma AllShownWithoutSoft(skills: seq<Skill>)
    requires forall i :: 0 <= i < |skills| ==> skills[i].category != Soft
    ensures ShownCount(skills) == |skills|
  {
    SectionsPartitionSkills(skills);
    FilterNoneKept(skills, (s: Skill) => s.category == Soft);
  }

  /** A section heading: `t('skills.' + category)`. */
  function CategoryLabel(lang: Lang, c: Category): string
  {
    Translate(lang, "skills." + CategoryKey(c))
  }

  /** Each section heading is the table's entry, never the raw key. */
  lemma CategoryLabelsTranslated(lang: Lang, i: int)
    requires 0 <= i < |SectionCategories|
    ensures Truthy(Dictionary(lang), "skills." + CategoryKey(SectionCategories[i]))
    ensures CategoryLabel(lang, SectionCategories[i]) == Dictionary(lang)["skills." + CategoryKey(SectionCategories[i])]
  {
    var c := SectionCategories[i];
    var key := "skills." + CategoryKey(c);
    if c == Frontend {
      assert key == "skills.frontend";
    } else if c == Backend {
      assert key == "skills.backend";
    } else if c == Mobile {
      assert key == "skills.mobile";
    } else {
      assert key == "skills.database";
    }
    assert Truthy(Dictionary(lang), key) by {
      if lang == Ar {
        assert key in ArTranslations && ArTranslations[key] != "";
      } else {
        assert key in EnTranslations && EnTranslations[key] != "";
      }
    }
  }

  /** The skill list of the site, in data order. */
  const SiteSkills: seq<Skill> := [
    Skill("Next.js", 95, Frontend), Skill("React", 95, Frontend), Skill("TypeScript", 90, Frontend),
    Skill("Tailwind CSS", 95, Frontend), Skill("Vue.js", 75, Frontend), Skill("HTML5/CSS3", 98, Frontend),
    Skill("Framer Motion", 85, Frontend),
    Skill("Laravel", 95, Backend), Skill("Node.js", 85, Backend), Skill("Express.js", 80, Backend),
    Skill("PHP", 90, Backend), Skill("RESTful APIs", 95, Backend), Skill("GraphQL", 70, Backend),
    Skill("Flutter", 95, Mobile), Skill("Dart", 90, Mobile), Skill("Android", 85, Mobile),
    Skill("iOS", 85, Mobile), Skill("React Native", 75, Mobile),
    Skill("PostgreSQL", 90, Database), Skill("MySQL", 92, Database), Skill("MongoDB", 80, Database),
    Skill("Git & GitHub", 95, Database), Skill("Docker", 75, Database), Skill("AWS/DigitalOcean", 85, Database)
  ]

  /** The site has no soft skill, so the page shows all of its skills, each once. */
  lemma SiteSkillsAllShown()
    ensures ShownCount(SiteSkills) == |SiteSkills| == 24
  {
    AllShownWithoutSoft(SiteSkills);
  }

  /** The icon next to a skill: its brand icon, or the default laptop. */
  datatype Icon = BrandIcon(skill: string) | DefaultIcon

  /** The skills `skillIcons` has an entry for. */
  const SkillIconNames: set<string> := {
    "Next.js", "React", "TypeScript", "Tailwind CSS", "Vue.js", "HTML5/CSS3", "Framer Motion",
    "Laravel", "Node.js", "Express.js", "PHP", "RESTful APIs", "GraphQL",
    "Flutter", "Dart", "Android", "iOS", "React Native",
    "PostgreSQL", "MySQL", "MongoDB", "Git & GitHub", "Docker", "AWS/DigitalOcean"
  }

  function SkillIcon(name: string): Icon
  {
    if name in SkillIconNames then BrandIcon(name) else DefaultIcon
  }

  /** Every skill the site lists has its own icon: the laptop default is never
      shown on the page. */
  lemma SiteSkillsHaveBrandIcons(i: int)
    requires 0 <= i < |SiteSkills|
    ensures SkillIcon(SiteSkills[i].name) == BrandIcon(SiteSkills[i].name)
  {
  }
}
