/**
 * The UI string table of Localized.swift: two locales and a switch over
 * (key, locale) pairs, with any other key shown as the key itself.
 */
module Localization {
  import opened Options

  /** `QuestMeLocale`: Japanese or English. */
  datatype QuestMeLocale = Ja | En

  /** The raw value of each locale. */
  function LocaleRawValue(l: QuestMeLocale): (r: string)
    ensures |r| == 2
  {
    match l
    case Ja => "ja"
    case En => "en"
  }

  /** `QuestMeLocale(rawValue:)`. */
  function LocaleFromRawValue(s: string): (r: Option<QuestMeLocale>)
    ensures r.Some? ==> LocaleRawValue(r.value) == s
    ensures r.None? ==> forall l :: LocaleRawValue(l) != s
  {
    match s
    case "ja" => Some(Ja)
    case "en" => Some(En)
    case _ => None
  }

  /** Decoding a raw value gives the locale back. */
  lemma LocaleRoundTrip(l: QuestMeLocale)
    ensures LocaleFromRawValue(LocaleRawValue(l)) == Some(l)
  {
  }

  // The keys that have a translation.
  const TitleKey: string := "title"
  const VoiceSelectedKey: string := "voiceSelected"

  /** The keys the table translates. */
  predicate IsTranslatedKey(key: string) {
    key == TitleKey || key == VoiceSelectedKey
  }

  /**
   * `Localized.text(for:locale:)`, Japanese by default. A translated key never
   * comes back as itself and its two locales differ; any other key comes
   * back verbatim.
   */
  function Text(key: string, locale: QuestMeLocale := Ja): (r: string)
    ensures !IsTranslatedKey(key) ==> r == key
    ensures IsTranslatedKey(key) ==> r != key && |r| > 0
  {
    match (key, locale)
    case ("title", Ja) => "🧍‍♂️ コンパニオン生成"
    case ("title", En) => "🧍‍♂️ Companion Creation"
    case ("voiceSelected", Ja) => "選択された声色: "
    case ("voiceSelected", En) => "Selected Voice: "
    case _ => key
  }

  /** The two translations of each translated key differ. */
  lemma LocalesDiffer(key: string)
    requires IsTranslatedKey(key)
    ensures Text(key, Ja) != Text(key, En)
  {
  }

  /** The strings of the table. */
  lemma TitleTexts()
    ensures Text(TitleKey, Ja) == "🧍‍♂️ コンパニオン生成"
    ensures Text(TitleKey, En) == "🧍‍♂️ Companion Creation"
  {
  }

  lemma VoiceSelectedTexts()
    ensures Text(VoiceSelectedKey, Ja) == "選択された声色: "
    ensures Text(VoiceSelectedKey, En) == "Selected Voice: "
  {
  }

  /** Leaving out the locale is asking for Japanese. */
  lemma DefaultLocaleIsJapanese(key: string)
    ensures Text(key) == Text(key, Ja)
  {
  }
}
