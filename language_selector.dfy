/**
 * The language selector: a button showing the current language's flag that opens a menu of
 * three languages; choosing one sets the locale and closes the menu, and a mouse press
 * outside the menu closes it too.
 */
module LanguageSelector {
  import opened Wrappers
  import opened LanguageProvider

  datatype Language = Language(code: string, name: string, flag: string)

  /** `languages`, in menu order. */
  const Languages: seq<Language> := [
    Language("es", "Español", "🇪🇸"),
    Language("en", "English", "🇺🇸"),
    Language("ru", "Русский", "🇷🇺")
  ]

  /** `langs.find(l => l.code === locale)`: the first entry with that code. */
  function Find(langs: seq<Language>, locale: string): (r: Option<Language>)
    ensures r == None <==> forall i :: 0 <= i < |langs| ==> langs[i].code != locale
    ensures r.Some? ==> exists i ::
      && 0 <= i < |langs| && langs[i] == r.value && r.value.code == locale
      && forall j :: 0 <= j < i ==> langs[j].code != locale
  {
    if langs == [] then None
    else if langs[0].code == locale then Some(langs[0])
    else Find(langs[1..], locale)
  }

  /** `currentLang`: the entry for the locale, or the first entry (Spanish) when there is none. */
  function CurrentLang(locale: string): (r: Language)
    ensures (exists i :: 0 <= i < |Languages| && Languages[i].code == locale) ==> r in Languages && r.code == locale
    ensures (forall i :: 0 <= i < |Languages| ==> Languages[i].code != locale) ==> r == Languages[0]
  {
    match Find(Languages, locale)
    case Some(l) => l
    case None => Languages[0]
  }

  /** The menu entry that is highlighted and checked. */
  predicate IsCurrent(lang: Language, locale: string)
  {
    locale == lang.code
  }

  /** The codes are distinct, so at most one menu entry is marked as current. */
  lemma {:induction false} AtMostOneCurrent(locale: string, i: nat, j: nat)
    requires i < |Languages| && j < |Languages|
    requires IsCurrent(Languages[i], locale) && IsCurrent(Languages[j], locale)
    ensures i == j
  {
    assert Languages[0].code == "es" && Languages[1].code == "en" && Languages[2].code == "ru";
  }

  /** The menu offers Russian, for which `t` has no table: after choosing it, every lookup
      raises. With the corrected lookup it reads the English table instead. */
  lemma RussianHasNoTable(key: string)
    ensures Languages[2].code == "ru"
    ensures Translate(Languages[2].code, key) == Err(NoTable("ru"))
    ensures key in TranslationKeys ==> TranslateWithFallback(Languages[2].code, key) == Translations["en"][key]
  {
    TranslateWithFallbackSpec("ru", key);
  }

  /** The selector's own state. */
  class Selector {
    var isOpen: bool

    constructor ()
      ensures !isOpen
    {
      isOpen := false;
    }

    /** The button: opens a closed menu and closes an open one. */
    method Toggle()
      modifies this
      ensures isOpen == !old(isOpen)
    {
      isOpen := !isOpen;
    }

    /** A menu entry: sets the locale to its code and closes the menu. */
    method Select(lang: Language, provider: Provider)
      modifies this, provider
      ensures provider.locale == lang.code && !isOpen
    {
      provider.SetLocale(lang.code);
      isOpen := false;
    }

    /** A mouse press anywhere on the document: while the selector is mounted, a press outside
        it closes the menu; a press inside, or before it is mounted, changes nothing. */
    method MouseDown(mounted: bool, insideSelector: bool)
      modifies this
      ensures mounted && !insideSelector ==> !isOpen
      ensures !(mounted && !insideSelector) ==> isOpen == old(isOpen)
    {
      if mounted && !insideSelector {
        isOpen := false;
      }
    }
  }
}
