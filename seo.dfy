/** The page metadata chosen from the language: the document's `lang`, `dir`
    and title, the content of the description, Open Graph and Twitter tags
    present in the head, and the JSON-LD record describing the site's owner. */
module Seo {
  import opened Language

  // The texts the page writes; the file repeats some of them literally, and
  // each is named once here.

  const TitleAr: string := "محمد سعيد - مهندس تطوير ويب وتطبيقات موبايل"
  const TitleEn: string := "Mohamed Saeed - Web & Mobile Application Engineer"
  const PageDescriptionAr: string := "مهندس برمجيات متخصص في بناء حلول رقمية متكاملة مع 10 سنوات خبرة في Next.js, Laravel, Flutter"
  const PageDescriptionEn: string := "Software engineer specialized in building integrated digital solutions with 10 years of experience in Next.js, Laravel, Flutter"
  const SocialDescriptionAr: string := "مهندس برمجيات متخصص في بناء حلول رقمية متكاملة مع 10 سنوات خبرة"
  const SocialDescriptionEn: string := "Software engineer specialized in building integrated digital solutions with 10 years of experience"
  const NameAr: string := "محمد سعيد"
  const NameEn: string := "Mohamed Saeed"
  const JobTitleAr: string := "مهندس تطوير ويب وتطبيقات موبايل"
  const JobTitleEn: string := "Web & Mobile Application Engineer"

  /** `document.documentElement.lang`. */
  function DocumentLang(lang: Lang): string
  {
    if lang == Ar then "ar" else "en"
  }

  /** `document.documentElement.dir`. */
  function DocumentDir(lang: Lang): string
  {
    if lang == Ar then "rtl" else "ltr"
  }

  /** `document.title`. */
  function DocumentTitle(lang: Lang): string
  {
    if lang == Ar then TitleAr else TitleEn
  }

  /** The head's meta tags the page writes to, when present. */
  datatype MetaTag = Description | OgTitle | OgDescription | OgLocale | TwitterTitle | TwitterDescription

  /** The content each meta tag receives; each tag has its own choice. */
  function MetaContent(lang: Lang, tag: MetaTag): string
  {
    match tag
    case Description => if lang == Ar then PageDescriptionAr else PageDescriptionEn
    case OgTitle => if lang == Ar then TitleAr else TitleEn
    case OgDescription => if lang == Ar then SocialDescriptionAr else SocialDescriptionEn
    case OgLocale => if lang == Ar then "ar_EG" else "en_US"
    case TwitterTitle => if lang == Ar then TitleAr else TitleEn
    case TwitterDescription => if lang == Ar then SocialDescriptionAr else SocialDescriptionEn
  }

  /** The head's meta contents after the update: every present tag gets the
      content for the language; no tag is added. */
  function AppliedMeta(meta: map<MetaTag, string>, lang: Lang): map<MetaTag, string>
  {
    map tag | tag in meta :: MetaContent(lang, tag)
  }

  /** One guarded write: the tag's content is set only if the head has the tag. */
  function SetIfPresent(meta: map<MetaTag, string>, tag: MetaTag, content: string): map<MetaTag, string>
  {
    if tag in meta then meta[tag := content] else meta
  }

  lemma SetIfPresentFacts(meta: map<MetaTag, string>, tag: MetaTag, content: string)
    ensures SetIfPresent(meta, tag, content).Keys == meta.Keys
    ensures tag in meta ==> SetIfPresent(meta, tag, content)[tag] == content
    ensures forall t :: t in meta && t != tag ==> SetIfPresent(meta, tag, content)[t] == meta[t]
  {
  }

  /** The six guarded writes, in the page's order, with the contents `f` gives. */
  function WriteAll(meta: map<MetaTag, string>, f: MetaTag -> string): map<MetaTag, string>
  {
    var m1 := SetIfPresent(meta, Description, f(Description));
    var m2 := SetIfPresent(m1, OgTitle, f(OgTitle));
    var m3 := SetIfPresent(m2, OgDescription, f(OgDescription));
    var m4 := SetIfPresent(m3, OgLocale, f(OgLocale));
    var m5 := SetIfPresent(m4, TwitterTitle, f(TwitterTitle));
    SetIfPresent(m5, TwitterDescription, f(TwitterDescription))
  }

  /** Each tag is written once, so after the six writes every present tag
      holds its new content and no tag was added. */
  lemma WriteAllSetsEveryTag(meta: map<MetaTag, string>, f: MetaTag -> string)
    ensures WriteAll(meta, f) == map tag | tag in meta :: f(tag)
  {
    var m1 := SetIfPresent(meta, Description, f(Description));
    var m2 := SetIfPresent(m1, OgTitle, f(OgTitle));
    var m3 := SetIfPresent(m2, OgDescription, f(OgDescription));
    var m4 := SetIfPresent(m3, OgLocale, f(OgLocale));
    var m5 := SetIfPresent(m4, TwitterTitle, f(TwitterTitle));
    var r := SetIfPresent(m5, TwitterDescription, f(TwitterDescription));
    SetIfPresentFacts(meta, Description, f(Description));
    SetIfPresentFacts(m1, OgTitle, f(OgTitle));
    SetIfPresentFacts(m2, OgDescription, f(OgDescription));
    SetIfPresentFacts(m3, OgLocale, f(OgLocale));
    SetIfPresentFacts(m4, TwitterTitle, f(TwitterTitle));
    SetIfPresentFacts(m5, TwitterDescription, f(TwitterDescription));
    forall tag | tag in meta
      ensures r[tag] == f(tag)
    {
      match tag
      case Description => assert m1[tag] == f(tag);
      case OgTitle => assert m2[tag] == f(tag);
      case OgDescription => assert m3[tag] == f(tag);
      case OgLocale => assert m4[tag] == f(tag);
      case TwitterTitle => assert m5[tag] == f(tag);
      case TwitterDescription =>
    }
    assert r.Keys == meta.Keys;
  }

  /** The document state the update writes. */
  class Document {
    var lang: string
    var dir: string
    var title: string
    /** The meta tags present in the head, with their content. */
    var meta: map<MetaTag, string>

    constructor (lang: string, dir: string, title: string, meta: map<MetaTag, string>)
      ensures this.lang == lang && this.dir == dir && this.title == title && this.meta == meta
    {
      this.lang, this.dir, this.title, this.meta := lang, dir, title, meta;
    }

    /** `querySelector(...)` and, if found, `setAttribute('content', ...)`. */
    method WriteIfPresent(tag: MetaTag, content: string)
      modifies this`meta
      ensures meta == SetIfPresent(old(meta), tag, content)
    {
      if tag in meta {
        meta := meta[tag := content];
      }
    }

    /** The effect run on every language change: sets the root attributes and
        the title, then each meta tag in turn if the head has it. */
    method ApplySeo(language: Lang)
      modifies this
      ensures lang == DocumentLang(language) && dir == DocumentDir(language) && title == DocumentTitle(language)
      ensures meta == AppliedMeta(old(meta), language)
    {
      lang := DocumentLang(language);
      dir := DocumentDir(language);
      title := DocumentTitle(language);
      WriteIfPresent(Description, MetaContent(language, Description));
      WriteIfPresent(OgTitle, MetaContent(language, OgTitle));
      WriteIfPresent(OgDescription, MetaContent(language, OgDescription));
      WriteIfPresent(OgLocale, MetaContent(language, OgLocale));
      WriteIfPresent(TwitterTitle, MetaContent(language, TwitterTitle));
      WriteIfPresent(TwitterDescription, MetaContent(language, TwitterDescription));
      WriteAllSetsEveryTag(old(meta), (tag: MetaTag) => MetaContent(language, tag));
    }
  }

  /** The update never adds or removes a tag, and a tag keeps nothing of its
      old content. */
  lemma AppliedMetaKeepsTags(meta: map<MetaTag, string>, lang: Lang, tag: MetaTag)
    ensures tag in AppliedMeta(meta, lang) <==> tag in meta
    ensures tag in meta ==> AppliedMeta(meta, lang)[tag] == MetaContent(lang, tag)
  {
  }

  /** Running the effect again for the same language changes nothing, and the
      result does not depend on the language the head was in before. */
  lemma AppliedMetaIdempotent(meta: map<MetaTag, string>, lang: Lang, other: Lang)
    ensures AppliedMeta(AppliedMeta(meta, lang), lang) == AppliedMeta(meta, lang)
    ensures AppliedMeta(AppliedMeta(meta, other), lang) == AppliedMeta(meta, lang)
  {
  }

  /** `lang` is "ar" exactly in Arabic. */
  lemma DocumentLangIff(lang: Lang)
    ensures DocumentLang(lang) == "ar" <==> lang == Ar
    ensures DocumentLang(lang) == "en" <==> lang == En
  {
  }

  /** `dir` is "rtl" exactly when the language provider reports right-to-left. */
  lemma DirAgreesWithRtl(lang: Lang)
    ensures DocumentDir(lang) == "rtl" <==> IsRtl(lang)
    ensures DocumentDir(lang) == "ltr" <==> !IsRtl(lang)
  {
  }

  /** The Open Graph locale is `ar_EG` or `en_US` and starts with the document's `lang`. */
  lemma LocaleMatchesLang(lang: Lang)
    ensures MetaContent(lang, OgLocale) == (if lang == Ar then "ar_EG" else "en_US")
    ensures |MetaContent(lang, OgLocale)| == 5 && MetaContent(lang, OgLocale)[..2] == DocumentLang(lang)
  {
  }

  /** The document title, `og:title` and `twitter:title` agree, and the two
      languages have different titles. */
  lemma TitlesAgree(lang: Lang)
    ensures MetaContent(lang, OgTitle) == DocumentTitle(lang)
    ensures MetaContent(lang, TwitterTitle) == DocumentTitle(lang)
    ensures DocumentTitle(Ar) != DocumentTitle(En)
  {
    assert |DocumentTitle(Ar)| != |DocumentTitle(En)|;
  }

  /** `og:description` and `twitter:description` agree. */
  lemma SocialDescriptionsAgree(lang: Lang)
    ensures MetaContent(lang, TwitterDescription) == MetaContent(lang, OgDescription)
  {
  }

  datatype PostalAddress = PostalAddress(addressLocality: string, addressCountry: string)

  /** A named organisation with its schema.org type. */
  datatype Organization = Organization(orgType: string, name: string)

  /** The JSON-LD `Person` record serialised into the page. */
  datatype Person = Person(
    context: string, personType: string,
    name: string, jobTitle: string, description: string,
    url: string, email: string, telephone: string,
    address: PostalAddress, sameAs: seq<string>, knowsAbout: seq<string>,
    alumniOf: Organization, worksFor: Organization)

  function JsonLd(lang: Lang): Person
  {
    Person("https://schema.org", "Person",
      if lang == Ar then NameAr else NameEn,
      if lang == Ar then JobTitleAr else JobTitleEn,
      if lang == Ar then SocialDescriptionAr else SocialDescriptionEn,
      "https://mohamed-saeed.dev", "mohamed.saeed@example.com", "+201234567890",
      PostalAddress((if lang == Ar then "الإسكندرية" else "Alexandria"), (if lang == Ar then "مصر" else "Egypt")),
      ["https://github.com/mohamedsaeed", "https://linkedin.com/in/mohamedsaeed", "https://twitter.com/mohamedsaeed"],
      ["Next.js", "React", "Laravel", "Flutter", "TypeScript", "Node.js", "PostgreSQL", "MongoDB", "Tailwind CSS"],
      Organization("EducationalOrganization", (if lang == Ar then "جامعة الإسكندرية" else "Alexandria University")),
      Organization("Organization", (if lang == Ar then "مستقل" else "Freelancer")))
  }

  /** The fields that do not depend on the language are the same in both records. */
  lemma JsonLdSharedFields(a: Lang, b: Lang)
    ensures JsonLd(a).context == JsonLd(b).context && JsonLd(a).personType == JsonLd(b).personType
    ensures JsonLd(a).url == JsonLd(b).url && JsonLd(a).email == JsonLd(b).email
    ensures JsonLd(a).telephone == JsonLd(b).telephone
    ensures JsonLd(a).sameAs == JsonLd(b).sameAs && JsonLd(a).knowsAbout == JsonLd(b).knowsAbout
    ensures JsonLd(a).alumniOf.orgType == JsonLd(b).alumniOf.orgType && JsonLd(a).worksFor.orgType == JsonLd(b).worksFor.orgType
  {
  }

  /** The record agrees with the head: its description is the social one. */
  lemma JsonLdDescriptionIsSocial(lang: Lang)
    ensures JsonLd(lang).description == MetaContent(lang, OgDescription)
  {
  }
}
