/** The language context of src/context/LanguageContext.tsx: the three site languages, the choice of
    language on load (cookie, then local storage, then the browser's language, then Russian), the
    language switch, and the translation lookup with its fallback to the key. */
module Language {
  import opened Common

  datatype Lang = Ru | En | Ar

  datatype Dir = Ltr | Rtl

  /** The language code stored in the cookie and in local storage and set as the document's `lang`. */
  function Code(l: Lang): string {
    match l
    case Ru => "ru"
    case En => "en"
    case Ar => "ar"
  }

  /** The stored or detected value is adopted only when it is one of the three codes. */
  function ParseLang(s: Option<string>): (r: Option<Lang>)
    ensures r.Some? <==> s.Some? && s.value in {"ru", "en", "ar"}
    ensures r.Some? ==> Code(r.value) == s.value
  {
    if s == Some("ru") then Some(Ru)
    else if s == Some("en") then Some(En)
    else if s == Some("ar") then Some(Ar)
    else None
  }

  lemma ParseCode(l: Lang)
    ensures ParseLang(Some(Code(l))) == Some(l)
  {
  }

  /** The document direction for a language: right to left for Arabic only. */
  function DirOf(l: Lang): (d: Dir)
    ensures d == Rtl <==> l == Ar
  {
    if l == Ar then Rtl else Ltr
  }

  /** `navigator.language.split('-')[0]`: the text before the first `-`. */
  function PrimarySubtag(s: string): (r: string)
    ensures |r| <= |s| && r == s[..|r|]
    ensures '-' !in r
    ensures |r| < |s| ==> s[|r|] == '-'
  {
    if s == [] || s[0] == '-' then [] else [s[0]] + PrimarySubtag(s[1..])
  }

  /** The outcome of `loadLanguage`: the language chosen and the direction set on the document (`None`
      when the direction is left as it was). */
  datatype Resolution = Resolution(lang: Lang, dir: Option<Dir>)

  /** `loadLanguage`: the first recognised value of the cookie and local storage wins, and only the
      language is set; otherwise the browser's primary subtag is tried, and failing that Russian, and
      in this branch the direction is set too. */
  function ResolveLanguage(cookie: Option<string>, stored: Option<string>, browser: string): (r: Resolution)
    ensures ParseLang(cookie).Some? ==> r == Resolution(ParseLang(cookie).value, None)
    ensures ParseLang(cookie).None? && ParseLang(stored).Some? ==> r == Resolution(ParseLang(stored).value, None)
    ensures ParseLang(cookie).None? && ParseLang(stored).None? ==>
              r.lang == ParseLang(Some(PrimarySubtag(browser))).GetOr(Ru) && r.dir == Some(DirOf(r.lang))
    ensures r.lang != Ru ==>
              ParseLang(cookie) == Some(r.lang) || ParseLang(stored) == Some(r.lang) ||
              ParseLang(Some(PrimarySubtag(browser))) == Some(r.lang)
  {
    var fromCookie := ParseLang(cookie);
    if fromCookie.Some? then Resolution(fromCookie.value, None)
    else
      var fromStorage := ParseLang(stored);
      if fromStorage.Some? then Resolution(fromStorage.value, None)
      else
        var primary := PrimarySubtag(browser);
        if primary == "ru" then Resolution(Ru, Some(Ltr))
        else if primary == "en" then Resolution(En, Some(Ltr))
        else if primary == "ar" then Resolution(Ar, Some(Rtl))
        else Resolution(Ru, Some(Ltr))
  }

  /** A region suffix does not matter: `en-GB` and `en` choose the same language. */
  lemma RegionIgnored(cookie: Option<string>, stored: Option<string>, tag: string, region: string)
    requires '-' !in tag
    ensures ResolveLanguage(cookie, stored, tag + "-" + region) == ResolveLanguage(cookie, stored, tag)
  {
    PrimaryOfTagged(tag, region);
    PrimaryOfPlain(tag);
  }

  lemma {:induction false} PrimaryOfTagged(tag: string, region: string)
    requires '-' !in tag
    ensures PrimarySubtag(tag + "-" + region) == tag
  {
    if tag != [] {
      assert (tag + "-" + region)[1..] == tag[1..] + "-" + region;
      assert tag[0] in tag;
      PrimaryOfTagged(tag[1..], region);
      assert [tag[0]] + tag[1..] == tag;
    }
  }

  lemma {:induction false} PrimaryOfPlain(tag: string)
    requires '-' !in tag
    ensures PrimarySubtag(tag) == tag
  {
    if tag != [] {
      assert tag[0] in tag;
      PrimaryOfPlain(tag[1..]);
      assert [tag[0]] + tag[1..] == tag;
    }
  }

  /** The keys of the translation tables. */
  const TranslationKeys: set<string> := {
    "nav.bestsellers", "nav.courses", "nav.challenge", "nav.home", "nav.marathon", "nav.app",
    "nav.about", "nav.faq", "home.hero.title", "home.info.courses.title",
    "home.info.courses.description", "home.info.marathon.title", "home.info.marathon.description",
    "home.hero.subtitle", "home.hero.cta", "home.marquee.text", "home.bestsellers.title",
    "home.approach.title", "home.approach.text", "home.approach.cta", "home.expect.title",
    "home.expect.training.title", "home.expect.training.text", "home.expect.nutrition.title",
    "home.expect.nutrition.text", "home.expect.support.title", "home.expect.support.text",
    "home.expect.results.title", "home.expect.results.text", "courses.title", "courses.filter.price",
    "courses.filter.price.asc", "courses.filter.price.desc", "courses.filter.target",
    "courses.filter.target.all", "courses.filter.target.legs", "courses.filter.target.arms",
    "courses.filter.target.glutes", "courses.forhome", "courses.buy", "course.back", "course.buy",
    "course.cart", "course.details", "course.included", "course.benefits", "course.forwhom",
    "course.trainer", "course.reviews", "course.related", "about.title", "course.processing",
    "about.intro", "about.desc", "about.safety.title", "about.community.title",
    "about.expertise.title", "footer.offer", "footer.policy", "footer.copyright", "lang.ru", "lang.en",
    "lang.loading", "app.title", "app.subtitle", "app.features.title", "app.features.workout",
    "app.features.progress", "app.features.nutrition", "app.download.ios", "app.download.android",
    "app.download.title", "app.download.subtitle"
  }

  /** The two keys the Arabic table lacks. */
  const MissingInArabic: set<string> := {"home.info.marathon.title", "home.info.marathon.description"}

  /** The shape of the translation tables (their texts are not part of this model): the Russian and
      English tables have every key, the Arabic one all but the two marathon keys, and no entry is
      empty. */
  ghost predicate ShapedLikeSite(tables: map<Lang, map<string, string>>) {
    && Ru in tables && En in tables && Ar in tables
    && tables[Ru].Keys == TranslationKeys
    && tables[En].Keys == TranslationKeys
    && tables[Ar].Keys == TranslationKeys - MissingInArabic
    && forall l, k :: l in tables && k in tables[l] ==> tables[l][k] != ""
  }

  /** `translations[language][key] || key` */
  function Translate(table: map<string, string>, key: string): (r: string)
    ensures key in table && table[key] != "" ==> r == table[key]
    ensures !(key in table && table[key] != "") ==> r == key
  {
    if key in table && table[key] != "" then table[key] else key
  }

  /** In tables shaped like the site's, a key is shown untranslated exactly when it is a marathon key
      looked up in Arabic (or no key at all). */
  lemma FallbackOnlyForMissing(tables: map<Lang, map<string, string>>, l: Lang, key: string)
    requires ShapedLikeSite(tables)
    requires key in TranslationKeys
    ensures l != Ar ==> Translate(tables[l], key) == tables[l][key]
    ensures l == Ar && key !in MissingInArabic ==> Translate(tables[l], key) == tables[l][key]
    ensures l == Ar && key in MissingInArabic ==> Translate(tables[l], key) == key
  {
  }

  /** The language state, the document's `lang` and `dir` attributes, and the two stores the choice
      is saved in. */
  class LanguageState {
    var language: Lang
    var isChangingLanguage: bool
    var documentLang: string
    var documentDir: Option<Dir>
    var cookie: Option<string>
    var localStorage: Option<string>
    const tables: map<Lang, map<string, string>>

    /** The provider's first render: Russian, no change in progress; the stores hold whatever an earlier
        visit left. */
    constructor (tables: map<Lang, map<string, string>>, cookie: Option<string>, stored: Option<string>,
                 documentLang: string, documentDir: Option<Dir>)
      ensures this.tables == tables && language == Ru && !isChangingLanguage
      ensures this.cookie == cookie && localStorage == stored
      ensures this.documentLang == documentLang && this.documentDir == documentDir
    {
      this.tables := tables;
      language := Ru;
      isChangingLanguage := false;
      this.cookie := cookie;
      localStorage := stored;
      this.documentLang := documentLang;
      this.documentDir := documentDir;
    }

    /** The mount effect: resolves the language from the stores and the browser's language and applies
        it; the direction is only written in the browser branch. */
    method LoadLanguage(browser: string)
      modifies this
      ensures var r := ResolveLanguage(cookie, localStorage, browser);
              language == r.lang && documentLang == Code(r.lang) &&
              documentDir == (if r.dir.Some? then r.dir else old(documentDir))
      ensures isChangingLanguage == old(isChangingLanguage)
      ensures cookie == old(cookie) && localStorage == old(localStorage)
    {
      var r := ResolveLanguage(cookie, localStorage, browser);
      language := r.lang;
      documentLang := Code(r.lang);
      if r.dir.Some? {
        documentDir := r.dir;
      }
    }

    /** The first phase of `setLanguage`: the change flag goes up, nothing else changes. */
    method BeginChange()
      modifies this
      ensures isChangingLanguage
      ensures language == old(language) && documentLang == old(documentLang) && documentDir == old(documentDir)
      ensures cookie == old(cookie) && localStorage == old(localStorage)
    {
      isChangingLanguage := true;
    }

    /** The second phase: the language is set, saved to both stores, and written to the document with
        its direction. */
    method ApplyChange(l: Lang)
      modifies this
      ensures language == l && cookie == Some(Code(l)) && localStorage == Some(Code(l))
      ensures documentLang == Code(l) && documentDir == Some(DirOf(l))
      ensures isChangingLanguage == old(isChangingLanguage)
    {
      language := l;
      cookie := Some(Code(l));
      localStorage := Some(Code(l));
      documentLang := Code(l);
      documentDir := Some(DirOf(l));
    }

    /** The last phase: the change flag is cleared. */
    method FinishChange()
      modifies this
      ensures !isChangingLanguage
      ensures language == old(language) && documentLang == old(documentLang) && documentDir == old(documentDir)
      ensures cookie == old(cookie) && localStorage == old(localStorage)
    {
      isChangingLanguage := false;
    }

    /** `setLanguage(l)` with its two timers run out: afterwards the next load chooses `l` again
        whatever the browser's language. */
    method SetLanguage(l: Lang)
      modifies this
      ensures language == l && !isChangingLanguage
      ensures cookie == Some(Code(l)) && localStorage == Some(Code(l))
      ensures documentLang == Code(l) && documentDir == Some(DirOf(l))
      ensures forall browser :: ResolveLanguage(cookie, localStorage, browser) == Resolution(l, None)
    {
      BeginChange();
      ApplyChange(l);
      FinishChange();
      forall browser ensures ResolveLanguage(cookie, localStorage, browser) == Resolution(l, None) {
        ParseCode(l);
      }
    }

    /** `t(key)` in the current language. */
    function T(key: string): (r: string)
      reads this
      ensures language in tables && key in tables[language] && tables[language][key] != "" ==>
                r == tables[language][key]
      ensures !(language in tables && key in tables[language] && tables[language][key] != "") ==> r == key
    {
      if language in tables then Translate(tables[language], key) else key
    }
  }

  /** A saved choice survives a reload: with the stores `setLanguage` writes, loading picks the same
      language back and leaves the direction untouched. */
  lemma SavedChoiceRoundTrip(l: Lang, browser: string)
    ensures ResolveLanguage(Some(Code(l)), Some(Code(l)), browser) == Resolution(l, None)
  {
    ParseCode(l);
  }

  /** With nothing stored, an Arabic browser gets Arabic written right to left, and an unknown
      browser language gets Russian written left to right. */
  lemma BrowserDetectionExamples()
    ensures ResolveLanguage(None, None, "ar-EG") == Resolution(Ar, Some(Rtl))
    ensures ResolveLanguage(None, Some("de"), "de-DE") == Resolution(Ru, Some(Ltr))
  {
    PrimaryOfTagged("ar", "EG");
    PrimaryOfTagged("de", "DE");
  }
}
