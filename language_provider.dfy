/**
 * The front end's language context: the current locale (Spanish at first), the string tables
 * of the two locales it has tables for, and `t`, which looks a key up in the current locale's
 * table and falls back to the key itself.
 */
module LanguageProvider {
  import opened Wrappers

  /** The locale a new provider starts with. */
  const DefaultLocale := "es"

  /** The keys both string tables define. */
  const TranslationKeys: set<string> := {
    "nav.checking", "nav.dashboard", "hero.title", "hero.subtitle", "hero.desc",
    "hero.cta", "hero.dashboard", "features.ats", "features.layout", "features.ai"
  }

  /** `translations`: one table per locale, for English and Spanish only. */
  const Translations: map<string, map<string, string>> := map["en" := English, "es" := Spanish]

  const English: map<string, string> := map[
      "nav.checking" := "Checking",
      "nav.dashboard" := "Dashboard",
      "hero.title" := "Recruiting Logic,",
      "hero.subtitle" := "Decompiled.",
      "hero.desc" := "Reverse engineer the hiring process. Analyze your resume against ATS algorithms and optimize with AI-driven insights.",
      "hero.cta" := "Run Diagnostics",
      "hero.dashboard" := "Open Dashboard",
      "features.ats" := "Heuristic analysis engine that decodes PDF structures to verify machine-readability.",
      "features.layout" := "Server-side rendering (WeasyPrint) to generate Harvard-standard standardized documents.",
      "features.ai" := "Integrated LLM analysis for deep semantic evaluation of professional experience."
    ]

  const Spanish: map<string, string> := map[
      "nav.checking" := "Verificador",
      "nav.dashboard" := "Panel de Control",
      "hero.title" := "Lógica de Reclutamiento,",
      "hero.subtitle" := "Descompilada.",
      "hero.desc" := "Realiza ingeniería inversa a tu proceso de contratación. Analiza tu CV contra algoritmos ATS y optimízalo con IA.",
      "hero.cta" := "Ejecutar Diagnóstico",
      "hero.dashboard" := "Abrir Panel",
      "features.ats" := "Motor de análisis heurístico que decodifica estructuras PDF para verificar legibilidad por máquina.",
      "features.layout" := "Renderizado del lado del servidor (WeasyPrint) para generar documentos estandarizados formato Harvard.",
      "features.ai" := "Análisis LLM integrado para evaluación semántica profunda de experiencia profesional."
    ]

  /** The two tables define the same ten keys, and there is no table for any other locale. */
  lemma TablesAgreeOnKeys()
    ensures Translations.Keys == {"en", "es"}
    ensures Translations["en"].Keys == TranslationKeys && Translations["es"].Keys == TranslationKeys
  {
    EnglishKeys();
    SpanishKeys();
  }

  lemma EnglishKeys()
    ensures English.Keys == TranslationKeys
  {
  }

  lemma SpanishKeys()
    ensures Spanish.Keys == TranslationKeys
  {
  }

  /** The TypeError `t` raises when the current locale has no table. */
  datatype TranslateError = NoTable(locale: string)

  /** `t(key)` as written: the current table's entry, or the key when the entry is missing or
      empty; a locale without a table makes the lookup raise. */
  function Translate(locale: string, key: string): (r: Result<string, TranslateError>)
    ensures locale !in Translations ==> r == Err(NoTable(locale))
    ensures locale in Translations && key in Translations[locale] ==> r == Ok(Translations[locale][key])
    ensures locale in Translations && key !in Translations[locale] ==> r == Ok(key)
  {
    if locale !in Translations then Err(NoTable(locale))
    else
      var table := Translations[locale];
      if key in table && table[key] != "" then Ok(table[key]) else Ok(key)
  }

  /** `t(key)` as evidently intended: a locale without a table reads the English one, as the
      pricing and login pages do with `table[locale] || table.en`. */
  function TranslateWithFallback(locale: string, key: string): (r: string)
    ensures locale in Translations ==> Translate(locale, key) == Ok(r)
  {
    var table := if locale in Translations then Translations[locale] else Translations["en"];
    if key in table && table[key] != "" then table[key] else key
  }

  /** The corrected lookup never fails, agrees with `t` wherever `t` succeeds, gives the English
      text for a locale without a table, and still falls back to the key. */
  lemma TranslateWithFallbackSpec(locale: string, key: string)
    ensures Translate(locale, key).Ok? ==> Translate(locale, key).value == TranslateWithFallback(locale, key)
    ensures locale !in Translations && key in TranslationKeys ==>
      TranslateWithFallback(locale, key) == Translations["en"][key]
    ensures key !in TranslationKeys ==> TranslateWithFallback(locale, key) == key
  {
    assert Translations["en"] == English;
    EnglishKeys();
  }

  /** The value a provider gives its children. */
  datatype LanguageContext = LanguageContext(locale: string)

  /** `useLanguage`: the surrounding provider's value, or the error thrown outside any provider. */
  function UseLanguage(context: Option<LanguageContext>): (r: Result<LanguageContext, string>)
    ensures context == None ==> r == Err("useLanguage must be used within a LanguageProvider")
    ensures context.Some? ==> r == Ok(context.value)
  {
    match context
    case None => Err("useLanguage must be used within a LanguageProvider")
    case Some(c) => Ok(c)
  }

  /** The provider's state: the current locale, replaced by `setLocale`. */
  class Provider {
    var locale: string

    constructor ()
      ensures locale == DefaultLocale
    {
      locale := DefaultLocale;
    }

    method SetLocale(l: string)
      modifies this
      ensures locale == l
    {
      locale := l;
    }

    /** The context value handed to the children. */
    function Context(): (c: LanguageContext)
      reads this
      ensures c.locale == locale
    {
      LanguageContext(locale)
    }

    /** `t` as the provider hands it out: the current table's text, or the key when the table
        lacks it; with a locale that has no table the lookup raises. */
    function T(key: string): (r: Result<string, TranslateError>)
      reads this
      ensures locale !in Translations ==> r == Err(NoTable(locale))
      ensures locale in Translations && key in Translations[locale] ==> r == Ok(Translations[locale][key])
      ensures locale in Translations && key !in Translations[locale] ==> r == Ok(key)
    {
      Translate(locale, key)
    }

    /** `t` with the corrected lookup: the current table's text, the English text for a locale
        without a table, and otherwise the key; it never raises. */
    function TWithFallback(key: string): (r: string)
      reads this
      ensures T(key).Ok? ==> r == T(key).value
      ensures locale !in Translations && key in TranslationKeys ==> r == Translations["en"][key]
      ensures key !in TranslationKeys ==> r == key
    {
      TranslateWithFallbackSpec(locale, key);
      TranslateWithFallback(locale, key)
    }
  }
}
