/** The sidebar's language links (`src/components/admin/layouts/locale-switcher.jsx`). */
module LocaleSwitcher {
  import opened Js
  import opened Rows

  /** `i18n.locales` in `next.config.js`. */
  const ConfiguredLocales := ["default", "en", "mm"]

  /** The callback `locale !== activeLocale && locale !== "default"`; it
      never throws. */
  function IsOther(activeLocale: string, locale: string): Option<bool> {
    Some(locale != activeLocale && locale != "default")
  }

  /** `locales?.filter(...)`: `None` stands for `undefined`. The result is
      an order-preserving subsequence holding every locale except the active
      one and `"default"`. */
  function OtherLocales(locales: Option<seq<string>>, activeLocale: string): (r: Option<seq<string>>)
    ensures r.None? <==> locales.None?
    ensures r.Some? ==> Subsequence(r.value, locales.value)
    ensures r.Some? ==> forall l :: l in r.value <==> l in locales.value && l != activeLocale && l != "default"
  {
    match locales
    case None => None
    case Some(xs) =>
      KeptSpec(xs, activeLocale, IsOther);
      Some(Kept(xs, activeLocale, IsOther))
  }

  /** The flag image; `None` is `null`. */
  function FlagUrl(locale: string): Option<string> {
    if locale == "en" then Some("/images/flags/en.png")
    else if locale == "mm" then Some("/images/flags/mm.png")
    else None
  }

  /** The link text; `None` is `null`. */
  function Label(locale: string): Option<string> {
    if locale == "en" then Some("English")
    else if locale == "mm" then Some("Myanmar")
    else None
  }

  /** A locale has a flag exactly when it has a label, and its flag is the
      image named after it. */
  lemma {:induction false} FlagAndLabel(locale: string)
    ensures FlagUrl(locale).Some? <==> Label(locale).Some?
    ensures FlagUrl(locale).Some? <==> locale == "en" || locale == "mm"
    ensures FlagUrl(locale).Some? ==> FlagUrl(locale).value == "/images/flags/" + locale + ".png"
  {
  }

  /** With the configured locales, the page in English links to Myanmar only,
      and every link the switcher shows has a flag and a label. */
  lemma {:induction false} ConfiguredLinks(activeLocale: string)
    ensures OtherLocales(Some(ConfiguredLocales), "en") == Some(["mm"])
    ensures forall l :: l in OtherLocales(Some(ConfiguredLocales), activeLocale).value ==>
      FlagUrl(l).Some? && Label(l).Some?
  {
    assert Kept(ConfiguredLocales, "en", IsOther) == Kept(["en", "mm"], "en", IsOther) by {
      assert ConfiguredLocales[1..] == ["en", "mm"];
    }
    assert Kept(["en", "mm"], "en", IsOther) == Kept(["mm"], "en", IsOther) by {
      assert ["en", "mm"][1..] == ["mm"];
    }
    assert Kept(["mm"], "en", IsOther) == ["mm"] by {
      assert ["mm"][1..] == [];
    }
  }
}
