/**
 * The translation vocabulary: the language ids (`LanguageIdType`, the keys of
 * `I18nType`) and a text given in every language (`I18nType`).
 */
module I18nTypes {

  /** `LanguageIdType`: es, en, fr, de, it, ja, zhHans, pt, ru, ko, zhHant. */
  datatype Language = Es | En | Fr | De | It | Ja | ZhHans | Pt | Ru | Ko | ZhHant

  /** `I18nType`: one string per language. */
  datatype I18n = I18n(
    es: string, en: string, fr: string, de: string, it: string, ja: string,
    zhHans: string, pt: string, ru: string, ko: string, zhHant: string)
  {
    /** `text[lang]`: the field named by the language id. */
    function Get(lang: Language): string {
      match lang
      case Es => es
      case En => en
      case Fr => fr
      case De => de
      case It => it
      case Ja => ja
      case ZhHans => zhHans
      case Pt => pt
      case Ru => ru
      case Ko => ko
      case ZhHant => zhHant
    }
  }
}
