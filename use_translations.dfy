/**
 * The `useTranslations` hook: `t` looks a translation tag up in the
 * translation table and answers in the language selected in the store,
 * falling back to the `errorLocalizedIdNotFound` entry for unknown tags; a
 * text given directly is read in the selected language.
 */
module UseTranslations {
  import opened I18nTypes
  import opened SetLanguageReducer

  /** The tag of the entry used for unknown tags. */
  const ErrorTag: string := "errorLocalizedIdNotFound"

  /** `I18nType | string`: a translation tag or a text given in every language. */
  datatype Identifier = Tag(tag: string) | Text(text: I18n)

  /**
   * `t(stringIdentifier)` under the selected language `lang`, over the
   * translation table `translations` (which always holds the error entry).
   */
  function T(translations: map<string, I18n>, lang: Language, ident: Identifier): (r: string)
    requires ErrorTag in translations
    ensures ident.Tag? && ident.tag in translations ==> r == translations[ident.tag].Get(lang)
    ensures ident.Tag? && ident.tag !in translations ==> r == translations[ErrorTag].Get(lang)
    ensures ident.Text? ==> r == ident.text.Get(lang)
  {
    match ident
    case Tag(tag) =>
      if tag in translations then translations[tag].Get(lang)
      else translations[ErrorTag].Get(lang)
    case Text(text) => text.Get(lang)
  }

  /** Looking a tag up gives the same string as passing its entry directly. */
  lemma TagMatchesText(translations: map<string, I18n>, lang: Language, tag: string)
    requires ErrorTag in translations && tag in translations
    ensures T(translations, lang, Tag(tag)) == T(translations, lang, Text(translations[tag]))
  {
  }

  /** Every unknown tag reads as the error entry itself. */
  lemma UnknownTagIsError(translations: map<string, I18n>, lang: Language, tag: string)
    requires ErrorTag in translations && tag !in translations
    ensures T(translations, lang, Tag(tag)) == T(translations, lang, Tag(ErrorTag))
  {
  }

  /** A tag always reads as some entry of the table in the selected language: `t` never fails. */
  lemma TagReadsSomeEntry(translations: map<string, I18n>, lang: Language, tag: string)
    requires ErrorTag in translations
    ensures exists e :: e in translations.Values && T(translations, lang, Tag(tag)) == e.Get(lang)
  {
    var key := if tag in translations then tag else ErrorTag;
    assert translations[key] in translations.Values;
  }

  /**
   * A fresh store answers in Spanish; after `setLanguage('en')` the same tag
   * answers in English.
   */
  method LanguageSwitch(translations: map<string, I18n>, tag: string) returns (before: string, after: string)
    requires ErrorTag in translations
    ensures tag in translations ==> before == translations[tag].es && after == translations[tag].en
    ensures tag !in translations ==> before == translations[ErrorTag].es && after == translations[ErrorTag].en
  {
    var state := new AppState();
    before := T(translations, state.SelectedLanguage(), Tag(tag));
    SetLanguage(state, ActionWithPayload("AppSlice/setLanguage", En));
    after := T(translations, state.SelectedLanguage(), Tag(tag));
  }
}
