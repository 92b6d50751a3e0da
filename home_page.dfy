/** The landing page's language button, which steps through Spanish, English and Russian. */
module HomePage {
  import opened LanguageProvider

  /** The cycle order. */
  const Order: seq<string> := ["es", "en", "ru"]

  /** `xs.indexOf(x)`: the first position of x, or -1 when x does not occur. */
  function IndexOf(xs: seq<string>, x: string): (r: int)
    ensures -1 <= r < |xs|
    ensures r >= 0 ==> xs[r] == x && forall j :: 0 <= j < r ==> xs[j] != x
    ensures r == -1 <==> x !in xs
  {
    if xs == [] then -1
    else if xs[0] == x then 0
    else
      var r := IndexOf(xs[1..], x);
      if r == -1 then -1 else r + 1
  }

  /** The locale after `cycleLanguage`; the dividend is never negative, so JavaScript's `%`
      and Dafny's agree. */
  function Cycle(locale: string): (r: string)
    ensures r in Order
  {
    var next := (IndexOf(Order, locale) + 1) % |Order|;
    Order[next]
  }

  /** es goes to en, en to ru, and ru back to es. */
  lemma CycleSteps()
    ensures Cycle("es") == "en" && Cycle("en") == "ru" && Cycle("ru") == "es"
  {
    assert IndexOf(Order, "es") == 0;
    assert IndexOf(Order, "en") == 1;
    assert IndexOf(Order, "ru") == 2;
  }

  /** Three presses bring any locale of the order back. */
  lemma CycleThrice(locale: string)
    requires locale in Order
    ensures Cycle(Cycle(Cycle(locale))) == locale
  {
    CycleSteps();
  }

  /** A locale outside the order goes to Spanish. */
  lemma CycleUnknown(locale: string)
    requires locale !in Order
    ensures Cycle(locale) == "es"
  {
  }

  /** Two presses from the initial Spanish reach Russian, which has no string table. */
  lemma CycleReachesLocaleWithoutTable()
    ensures Cycle(Cycle(DefaultLocale)) == "ru" && "ru" !in Translations
  {
    CycleSteps();
  }

  /** The button's handler. */
  method CycleLanguage(provider: Provider)
    modifies provider
    ensures provider.locale == Cycle(old(provider.locale))
  {
    provider.SetLocale(Cycle(provider.locale));
  }
}
