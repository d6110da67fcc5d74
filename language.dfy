/** The bilingual resolver: the active language, the translation tables and
    the lookup with its fall-back-to-the-key rule. */
module Language {
  import opened Prelude

  datatype Lang = Ar | En

  /** The Arabic table, restricted to the keys the rest of the model refers to:
      the navigation labels, the skill category labels, the contact form's
      project types and its success message. */
  const ArTranslations: map<string, string> :=
    map[
      "nav.home" := "الرئيسية",
      "nav.projects" := "المشاريع",
      "nav.skills" := "المهارات",
      "nav.services" := "الخدمات",
      "nav.about" := "من أنا",
      "nav.contact" := "تواصل معي",
      "skills.frontend" := "تطوير الواجهات",
      "skills.backend" := "تطوير الباك إند",
      "skills.mobile" := "تطوير الموبايل",
      "skills.database" := "قواعد البيانات والأدوات",
      "contact.form.type.web" := "تطوير ويب",
      "contact.form.type.mobile" := "تطبيق موبايل",
      "contact.form.type.saas" := "منصة SaaS",
      "contact.form.type.other" := "أخرى",
      "contact.form.success" := "تم إرسال رسالتك بنجاح! سأتواصل معك قريباً."
    ]

  /** The English table, restricted to the same keys as the Arabic one. */
  const EnTranslations: map<string, string> :=
    map[
      "nav.home" := "Home",
      "nav.projects" := "Projects",
      "nav.skills" := "Skills",
      "nav.services" := "Services",
      "nav.about" := "About",
      "nav.contact" := "Contact",
      "skills.frontend" := "Frontend Development",
      "skills.backend" := "Backend Development",
      "skills.mobile" := "Mobile Development",
      "skills.database" := "Database & Tools",
      "contact.form.type.web" := "Web Development",
      "contact.form.type.mobile" := "Mobile App",
      "contact.form.type.saas" := "SaaS Platform",
      "contact.form.type.other" := "Other",
      "contact.form.success" := "Your message has been sent successfully! I will contact you soon."
    ]

  function Dictionary(lang: Lang): map<string, string>
  {
    match lang
    case Ar => ArTranslations
    case En => EnTranslations
  }

  /** `translations[language][key] || key`: a missing or empty entry gives the key back. */
  function Translate(lang: Lang, key: string): string
  {
    LookupOr(Dictionary(lang), key, key)
  }

  /** The state updater passed to `setLanguage` by the toggle. */
  function Toggled(lang: Lang): (r: Lang)
    ensures r != lang
  {
    if lang == Ar then En else Ar
  }

  /** Right-to-left layout. */
  predicate IsRtl(lang: Lang)
  {
    lang == Ar
  }

  ghost predicate NoEmptyEntries(dict: map<string, string>)
  {
    forall key :: key in dict ==> dict[key] != ""
  }

  lemma ToggleTwiceRestores(lang: Lang)
    ensures Toggled(Toggled(lang)) == lang
  {
  }

  lemma ToggleNegatesRtl(lang: Lang)
    ensures IsRtl(Toggled(lang)) == !IsRtl(lang)
    ensures IsRtl(lang) <==> lang == Ar
  {
  }

  /** A present, non-empty entry is returned; anything else yields the key itself. */
  lemma TranslateUsesEntry(lang: Lang, key: string)
    ensures Truthy(Dictionary(lang), key) ==> Translate(lang, key) == Dictionary(lang)[key]
    ensures key !in Dictionary(lang) ==> Translate(lang, key) == key
    ensures key in Dictionary(lang) && Dictionary(lang)[key] == "" ==> Translate(lang, key) == key
  {
  }

  /** A key that neither table knows resolves to itself under either language. */
  lemma UnknownKeyResolvesToItself(lang: Lang, key: string)
    requires key !in ArTranslations && key !in EnTranslations
    ensures Translate(lang, key) == key
  {
  }

  /** With equal key sets and no empty value, a lookup falls back exactly for
      keys that are absent from both tables. */
  lemma FallbackIffAbsentFromBoth(first: map<string, string>, second: map<string, string>, key: string)
    requires first.Keys == second.Keys
    requires NoEmptyEntries(first) && NoEmptyEntries(second)
    ensures !Truthy(first, key) <==> key !in first && key !in second
    ensures !Truthy(second, key) <==> key !in first && key !in second
  {
  }

  /** The two tables have the same keys and no empty value. */
  lemma TablesAgree()
    ensures ArTranslations.Keys == EnTranslations.Keys
    ensures NoEmptyEntries(ArTranslations) && NoEmptyEntries(EnTranslations)
  {
  }

  /** Consequently the resolver falls back to the key only for keys unknown to both tables. */
  lemma FallbackOnlyForUnknownKeys(lang: Lang, key: string)
    ensures !Truthy(Dictionary(lang), key) <==> key !in ArTranslations && key !in EnTranslations
  {
    TablesAgree();
    FallbackIffAbsentFromBoth(ArTranslations, EnTranslations, key);
  }

  /** The language state of `LanguageProvider`. */
  class LanguageProvider {
    var language: Lang

    constructor ()
      ensures language == Ar
    {
      language := Ar;
    }

    method ToggleLanguage()
      modifies this
      ensures language == Toggled(old(language))
      ensures IsRTL() == !old(IsRTL())
    {
      language := Toggled(language);
    }

    /** `t(key)` for the active language. */
    function T(key: string): string
      reads this
    {
      Translate(language, key)
    }

    function IsRTL(): bool
      reads this
    {
      IsRtl(language)
    }
  }

  /** Starting in Arabic, `t('nav.home')` is the Arabic label; after one toggle it
      is the English one and the layout is left-to-right. */
  method NavHomeScenario() returns (initialHome: string, initialRtl: bool, toggledHome: string, toggledRtl: bool)
    ensures initialHome == "الرئيسية" && initialRtl
    ensures toggledHome == "Home" && !toggledRtl
  {
    var provider := new LanguageProvider();
    initialHome, initialRtl := provider.T("nav.home"), provider.IsRTL();
    provider.ToggleLanguage();
    toggledHome, toggledRtl := provider.T("nav.home"), provider.IsRTL();
  }
}
