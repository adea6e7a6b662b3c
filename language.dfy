/** The interface-language context of the web client
    (frontend/src/context/LanguageContext.tsx): the display names, the
    provider holding the current language and the browser storage it is
    saved in, and the lookup `t` with the key itself as fallback. The
    translation table is a parameter; browser storage is a map. */
module LanguageContext {
  import opened Common
  import opened Domain

  /** The storage key the language is saved under. */
  const StorageKey: string := "qineguide-language"

  const AmharicName: string := "አማርኛ (Amharic)"
  const TigrinyaName: string := "ትግርኛ (Tigrigna)"
  const SomaliName: string := "Soomaali (Somali)"

  /** `languageNames`. */
  function LanguageName(l: Language): (name: string)
    ensures |name| > 0
  {
    match l
    case En => "English"
    case Am => AmharicName
    case Om => "Oromiffa"
    case Tg => TigrinyaName
    case So => SomaliName
  }

  /** The five display names are all different. */
  lemma LanguageNamesDistinct(a: Language, b: Language)
    requires a != b
    ensures LanguageName(a) != LanguageName(b)
  {
    assert |AmharicName| == 14 && |TigrinyaName| == 15 && |SomaliName| == 17;
  }

  /** The language a provider starts in: the saved value when it is
      non-empty, unchecked, else "en". */
  function InitialLanguage(storage: map<string, string>): (code: string)
    ensures StorageKey in storage && storage[StorageKey] != "" ==> code == storage[StorageKey]
    ensures !(StorageKey in storage && storage[StorageKey] != "") ==> code == "en"
  {
    if StorageKey in storage && storage[StorageKey] != "" then storage[StorageKey] else "en"
  }

  const OutsideProviderPart: string := "useLanguage must be used "
  const WithinProviderPart: string := "within a LanguageProvider"

  /** `translations[language][key] || key`. The current code is looked up
      in the table as it is: a code the table lacks makes the lookup throw
      (None). */
  function Translate(table: Language -> map<string, string>, code: string, key: string): (r: Option<string>)
    ensures r.None? <==> ParseLanguage(code).None?
    ensures r.Some? && key in table(ParseLanguage(code).value) && table(ParseLanguage(code).value)[key] != "" ==>
      r.value == table(ParseLanguage(code).value)[key]
    ensures r.Some? && !(key in table(ParseLanguage(code).value) && table(ParseLanguage(code).value)[key] != "") ==>
      r.value == key
  {
    var lang := ParseLanguage(code);
    if lang.None? then None
    else
      var entries := table(lang.value);
      if key in entries && entries[key] != "" then Some(entries[key]) else Some(key)
  }

  class LanguageProvider {
    /** The current language code (`language` state). */
    var language: string
    /** Browser storage. */
    var storage: map<string, string>
    const table: Language -> map<string, string>

    /** Mounting the provider reads the saved language. */
    constructor(saved: map<string, string>, translations: Language -> map<string, string>)
      ensures language == InitialLanguage(saved) && storage == saved && table == translations
    {
      language := InitialLanguage(saved);
      storage := saved;
      table := translations;
    }

    /** `handleSetLanguage`: switches the language and saves it. */
    method SetLanguage(lang: Language)
      modifies this
      ensures language == LanguageCode(lang)
      ensures storage == old(storage)[StorageKey := LanguageCode(lang)]
    {
      language := LanguageCode(lang);
      storage := storage[StorageKey := LanguageCode(lang)];
    }

    /** `t(key)`. */
    function T(key: string): Option<string>
      reads this
    {
      Translate(table, language, key)
    }
  }

  /** A saved language survives a reload: a provider mounted on the storage
      a switch left behind starts in the language switched to, and its
      lookups do not throw. */
  lemma SwitchSurvivesReload(storage: map<string, string>, lang: Language, table: Language -> map<string, string>, key: string)
    ensures InitialLanguage(storage[StorageKey := LanguageCode(lang)]) == LanguageCode(lang)
    ensures Translate(table, InitialLanguage(storage[StorageKey := LanguageCode(lang)]), key).Some?
  {
    ParseLanguageCode(lang);
  }

  /** With nothing saved the provider starts in English, whose lookups fall
      back to the key when the table has no entry for it. */
  lemma FreshProviderIsEnglish(table: Language -> map<string, string>, key: string)
    ensures InitialLanguage(map[]) == "en"
    ensures key !in table(En) ==> Translate(table, InitialLanguage(map[]), key) == Some(key)
  {
    ParseLanguageCode(En);
  }

  /** `useLanguage`: the provider's value, or an error outside any provider. */
  function UseLanguage(context: Option<LanguageProvider>): (r: Result<LanguageProvider, string>)
    ensures r.Err? <==> context.None?
    ensures r.Err? ==> r.error == OutsideProviderPart + WithinProviderPart
    ensures r.Ok? ==> r.value == context.value
  {
    if context.None? then Err(OutsideProviderPart + WithinProviderPart) else Ok(context.value)
  }
}
