/**
 * The conversation subjects of ConversationSubject.swift: a subject is
 * nothing but its label, ten labels are named catalog constants, and a
 * two-language table gives their display names. `localizedLabel(for:)`
 * looks the language code up exactly as given and falls back to the raw
 * label on any miss.
 */
module Subjects {
  import opened Options

  /** A subject is its label (`label` in Swift); the synthesised equality compares labels only. */
  datatype ConversationSubject = ConversationSubject(name: string)

  // The catalog constants.
  const Health: ConversationSubject        := ConversationSubject("health")
  const Work: ConversationSubject          := ConversationSubject("work")
  const Family: ConversationSubject        := ConversationSubject("family")
  const Anxiety: ConversationSubject       := ConversationSubject("anxiety")
  const Entertainment: ConversationSubject := ConversationSubject("entertainment")
  const Life: ConversationSubject          := ConversationSubject("life")
  const Politics: ConversationSubject      := ConversationSubject("politics")
  const Growth: ConversationSubject        := ConversationSubject("growth")
  const Other: ConversationSubject         := ConversationSubject("other")
  const General: ConversationSubject       := ConversationSubject("general")

  /** The ten catalog constants, in declaration order. */
  const Catalog: seq<ConversationSubject> :=
    [Health, Work, Family, Anxiety, Entertainment, Life, Politics, Growth, Other, General]

  /** A display name: never empty. */
  type Name = s: string | |s| > 0 witness "?"

  /** One row of `localizedLabels`: the Japanese and the English name of a label. */
  datatype Names = Names(ja: Name, en: Name)

  /** `localizedLabels[key]`: the row of a catalog label, if it has one. */
  function LocalizedLabels(key: string): Option<Names> {
    match key
    case "health"        => Some(Names("健康", "Health"))
    case "work"          => Some(Names("仕事", "Work"))
    case "family"        => Some(Names("家族", "Family"))
    case "anxiety"       => Some(Names("不安", "Anxiety"))
    case "entertainment" => Some(Names("娯楽", "Entertainment"))
    case "life"          => Some(Names("生活", "Life"))
    case "politics"      => Some(Names("政治", "Politics"))
    case "growth"        => Some(Names("成長", "Growth"))
    case "other"         => Some(Names("その他", "Other"))
    case "general"       => Some(Names("一般", "General"))
    case _               => None
  }

  /** `row[language]`: the name under the exact key "ja" or "en". */
  function NameIn(row: Names, language: string): Option<Name> {
    match language
    case "ja" => Some(row.ja)
    case "en" => Some(row.en)
    case _    => None
  }

  /**
   * `localizedLabel(for:)`: the table entry when there is one, the raw label
   * otherwise. Only the two exact keys "ja" and "en" can change the result,
   * and a non-empty label never gives an empty name.
   */
  function LocalizedLabel(s: ConversationSubject, language: string): (r: string)
    ensures LocalizedLabels(s.name).None? ==> r == s.name
    ensures language != "ja" && language != "en" ==> r == s.name
    ensures LocalizedLabels(s.name).Some? && language == "ja" ==> r == LocalizedLabels(s.name).value.ja
    ensures LocalizedLabels(s.name).Some? && language == "en" ==> r == LocalizedLabels(s.name).value.en
    ensures |s.name| > 0 ==> |r| > 0
  {
    match LocalizedLabels(s.name)
    case None => s.name
    case Some(row) =>
      match NameIn(row, language)
      case Some(n) => n
      case None => s.name
  }

  /** Equality is by label alone. */
  lemma EqualByLabel(a: ConversationSubject, b: ConversationSubject)
    ensures a == b <==> a.name == b.name
  {
  }

  /** The ten catalog constants have pairwise distinct labels. */
  lemma CatalogDistinct()
    ensures |Catalog| == 10
    ensures forall i, j :: 0 <= i < j < |Catalog| ==> Catalog[i] != Catalog[j]
  {
  }

  /** Every catalog constant has a row, so both a Japanese and an English name. */
  lemma CatalogHasNames(s: ConversationSubject)
    requires s in Catalog
    ensures LocalizedLabels(s.name).Some?
    ensures LocalizedLabel(s, "ja") == LocalizedLabels(s.name).value.ja
    ensures LocalizedLabel(s, "en") == LocalizedLabels(s.name).value.en
  {
  }

  /** The keys of the table are exactly the catalog labels. */
  lemma TableKeysAreCatalog(key: string)
    ensures LocalizedLabels(key).Some? <==> ConversationSubject(key) in Catalog
  {
  }

  lemma WorkInJapanese()
    ensures LocalizedLabel(Work, "ja") == "仕事"
  {
  }

  lemma GeneralInEnglish()
    ensures LocalizedLabel(General, "en") == "General"
  {
  }

  /** The code is not normalised: "en-US", "EN" and "de" all miss and give the raw label. */
  lemma CodeMatchedVerbatim()
    ensures LocalizedLabel(Work, "en-US") == "work"
    ensures LocalizedLabel(Work, "EN") == "work"
    ensures LocalizedLabel(Work, "de") == "work"
  {
  }
}
