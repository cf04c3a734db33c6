/**
 * The keyword classifier of TopicClassifier.swift. The subject of an entry
 * is decided by the first of three Japanese keywords its text contains, in
 * the fixed order 仕事 (work), 家族 (family), 健康 (health), with 一般
 * (general) when none occurs; the dominant emotion is the entry's own or an
 * override, and the confidence is a constant of the path taken.
 */
module Topics {
  import opened Strings
  import opened Emotions
  import opened Subjects
  import opened Entries

  /** `TopicResult`. The `Double` confidence is carried as an exact constant. */
  datatype TopicResult = TopicResult(subject: ConversationSubject, dominantEmotion: EmotionType, confidence: real)

  /** The confidence of `classify(entry:)`. */
  const PlainConfidence: real := 0.85

  /** The confidence of `classify(entry:withEmotion:)`. */
  const OverrideConfidence: real := 0.9

  // The keywords, in the order they are tried, and the label used when none occurs.
  const WorkKeyword: string := "仕事"
  const FamilyKeyword: string := "家族"
  const HealthKeyword: string := "健康"
  const GeneralKeyword: string := "一般"

  /** The four labels the classifier can produce. */
  predicate IsClassifierLabel(name: string) {
    name == WorkKeyword || name == FamilyKeyword || name == HealthKeyword || name == GeneralKeyword
  }

  /**
   * `inferSubject(from:)`. A keyword wins exactly when it occurs and no
   * earlier keyword does; 一般 is chosen exactly when none occurs.
   */
  function InferSubject(text: string): (r: ConversationSubject)
    ensures IsClassifierLabel(r.name)
    ensures r.name == WorkKeyword <==> OccursIn(WorkKeyword, text)
    ensures r.name == FamilyKeyword <==> !OccursIn(WorkKeyword, text) && OccursIn(FamilyKeyword, text)
    ensures r.name == HealthKeyword <==>
      !OccursIn(WorkKeyword, text) && !OccursIn(FamilyKeyword, text) && OccursIn(HealthKeyword, text)
    ensures r.name == GeneralKeyword <==>
      !OccursIn(WorkKeyword, text) && !OccursIn(FamilyKeyword, text) && !OccursIn(HealthKeyword, text)
  {
    if Contains(text, WorkKeyword) then ConversationSubject(WorkKeyword)
    else if Contains(text, FamilyKeyword) then ConversationSubject(FamilyKeyword)
    else if Contains(text, HealthKeyword) then ConversationSubject(HealthKeyword)
    else ConversationSubject(GeneralKeyword)
  }

  /** `classify(entry:)`: the inferred subject, the entry's own emotion, confidence 0.85. */
  function Classify(entry: ConversationEntry): (r: TopicResult)
    ensures r.subject == InferSubject(entry.text)
    ensures r.dominantEmotion == entry.emotion
    ensures r.confidence == PlainConfidence
  {
    TopicResult(InferSubject(entry.text), entry.emotion, PlainConfidence)
  }

  /** `classify(entry:withEmotion:)`: the same subject, the given emotion, confidence 0.9. */
  function ClassifyWithEmotion(entry: ConversationEntry, emotion: EmotionType): (r: TopicResult)
    ensures r.subject == Classify(entry).subject
    ensures r.dominantEmotion == emotion
    ensures r.confidence == OverrideConfidence
  {
    TopicResult(InferSubject(entry.text), emotion, OverrideConfidence)
  }

  /** `classify(entries:)`: one result per entry, in the same order. */
  function ClassifyAll(entries: seq<ConversationEntry>): (rs: seq<TopicResult>)
    ensures |rs| == |entries|
    ensures forall i :: 0 <= i < |entries| ==> rs[i] == Classify(entries[i])
  {
    if entries == [] then [] else [Classify(entries[0])] + ClassifyAll(entries[1..])
  }

  /** Classifying a concatenation classifies each part. */
  lemma ClassifyAllAppend(a: seq<ConversationEntry>, b: seq<ConversationEntry>)
    ensures ClassifyAll(a + b) == ClassifyAll(a) + ClassifyAll(b)
  {
    var whole, parts := ClassifyAll(a + b), ClassifyAll(a) + ClassifyAll(b);
    forall i | 0 <= i < |whole| ensures whole[i] == parts[i] {
      if i < |a| {
        assert (a + b)[i] == a[i];
      } else {
        assert (a + b)[i] == b[i - |a|];
      }
    }
  }

  /** Only the text and the emotion of an entry are read: id, speaker, date and topic are ignored. */
  lemma ClassifyReadsTextAndEmotion(a: ConversationEntry, b: ConversationEntry)
    requires a.text == b.text && a.emotion == b.emotion
    ensures Classify(a) == Classify(b)
  {
  }

  /** The override replaces the emotion and the confidence, and nothing else. */
  lemma OverrideKeepsSubject(entry: ConversationEntry)
    ensures ClassifyWithEmotion(entry, entry.emotion) == Classify(entry).(confidence := OverrideConfidence)
  {
  }

  /** "仕事" wins whatever else the text holds; with "家族" and "健康" but no "仕事", "家族" wins. */
  lemma WorkWinsOverEverything(text: string)
    requires OccursIn(WorkKeyword, text)
    ensures InferSubject(text).name == WorkKeyword
  {
  }

  lemma FamilyBeatsHealth(text: string)
    requires !OccursIn(WorkKeyword, text) && OccursIn(FamilyKeyword, text) && OccursIn(HealthKeyword, text)
    ensures InferSubject(text).name == FamilyKeyword
  {
  }

  /** Empty text has no keyword and is general. */
  lemma EmptyTextIsGeneral()
    ensures InferSubject("").name == GeneralKeyword
  {
    NothingOccursInEmpty(WorkKeyword);
    NothingOccursInEmpty(FamilyKeyword);
    NothingOccursInEmpty(HealthKeyword);
  }

  // ---------------------------------------------------------------------------
  // The classifier's subjects against the subject catalog
  // ---------------------------------------------------------------------------

  /** A classifier subject is none of the catalog constants: its label is Japanese, not a table key. */
  lemma ClassifierSubjectNotInCatalog(text: string)
    ensures InferSubject(text) !in Catalog
    ensures LocalizedLabels(InferSubject(text).name).None?
  {
  }

  /** So `localizedLabel(for:)` returns a classifier subject's label unchanged, for every language. */
  lemma ClassifierSubjectLocalisesToItself(text: string, language: string)
    ensures LocalizedLabel(InferSubject(text), language) == InferSubject(text).name
  {
    ClassifierSubjectNotInCatalog(text);
  }

  /** Each classifier label is the Japanese name of the matching catalog constant. */
  lemma ClassifierLabelsAreJapaneseNames()
    ensures LocalizedLabel(Work, "ja") == WorkKeyword
    ensures LocalizedLabel(Family, "ja") == FamilyKeyword
    ensures LocalizedLabel(Health, "ja") == HealthKeyword
    ensures LocalizedLabel(General, "ja") == GeneralKeyword
  {
  }
}
