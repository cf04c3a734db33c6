/**
 * The emotion catalog of EmotionType.swift: the 23 emotion kinds, their
 * Japanese display label, icon name and default phrase, and the
 * twelve-language label table behind `label(for:)` with its normalisation
 * of language codes.
 */
module Emotions {
  import opened Options
  import opened LanguageCodes

  /** The closed set of emotion kinds; the Swift raw value is the case name. */
  datatype EmotionType =
    | Neutral | Happy | Sad | Angry | Thinking | Sexy | Encouraging | Gentle | Surprised
    | Lonely | Focused | Nostalgic | Sleepy
    | Poetic | Philosophical | Childish | Elderly | Robotic | Romantic | Playful | Shy | Proud | Confused

  /** `EmotionType.allCases`, in declaration order. */
  const AllCases: seq<EmotionType> := [
    Neutral, Happy, Sad, Angry, Thinking, Sexy, Encouraging, Gentle, Surprised, Lonely, Focused, Nostalgic, Sleepy,
    Poetic, Philosophical, Childish, Elderly, Robotic, Romantic, Playful, Shy, Proud, Confused
  ]

  /** The position of each kind in `allCases`. */
  function Ordinal(e: EmotionType): (i: nat)
    ensures i < |AllCases| && AllCases[i] == e
  {
    match e
    case Neutral        => 0
    case Happy          => 1
    case Sad            => 2
    case Angry          => 3
    case Thinking       => 4
    case Sexy           => 5
    case Encouraging    => 6
    case Gentle         => 7
    case Surprised      => 8
    case Lonely         => 9
    case Focused        => 10
    case Nostalgic      => 11
    case Sleepy         => 12
    case Poetic         => 13
    case Philosophical  => 14
    case Childish       => 15
    case Elderly        => 16
    case Robotic        => 17
    case Romantic       => 18
    case Playful        => 19
    case Shy            => 20
    case Proud          => 21
    case Confused       => 22
  }

  /** `allCases` lists every kind exactly once, so there are exactly 23 kinds. */
  lemma AllCasesComplete()
    ensures |AllCases| == 23
    ensures forall e :: e in AllCases
    ensures forall i, j :: 0 <= i < j < |AllCases| ==> AllCases[i] != AllCases[j]
  {
    forall e ensures e in AllCases {
      assert AllCases[Ordinal(e)] == e;
    }
    forall i | 0 <= i < |AllCases| ensures Ordinal(AllCases[i]) == i {
    }
  }

  /** The `String` raw value used by `Codable`. */
  function RawValue(e: EmotionType): (r: string)
    ensures |r| > 0
  {
    match e
    case Neutral       => "neutral"
    case Happy         => "happy"
    case Sad           => "sad"
    case Angry         => "angry"
    case Thinking      => "thinking"
    case Sexy          => "sexy"
    case Encouraging   => "encouraging"
    case Gentle        => "gentle"
    case Surprised     => "surprised"
    case Lonely        => "lonely"
    case Focused       => "focused"
    case Nostalgic     => "nostalgic"
    case Sleepy        => "sleepy"
    case Poetic        => "poetic"
    case Philosophical => "philosophical"
    case Childish      => "childish"
    case Elderly       => "elderly"
    case Robotic       => "robotic"
    case Romantic      => "romantic"
    case Playful       => "playful"
    case Shy           => "shy"
    case Proud         => "proud"
    case Confused      => "confused"
  }

  /** `EmotionType(rawValue:)`: the case whose raw value is `s`, if any. */
  function FromRawValue(s: string): Option<EmotionType>
  {
    match s
    case "neutral"        => Some(Neutral)
    case "happy"          => Some(Happy)
    case "sad"            => Some(Sad)
    case "angry"          => Some(Angry)
    case "thinking"       => Some(Thinking)
    case "sexy"           => Some(Sexy)
    case "encouraging"    => Some(Encouraging)
    case "gentle"         => Some(Gentle)
    case "surprised"      => Some(Surprised)
    case "lonely"         => Some(Lonely)
    case "focused"        => Some(Focused)
    case "nostalgic"      => Some(Nostalgic)
    case "sleepy"         => Some(Sleepy)
    case "poetic"         => Some(Poetic)
    case "philosophical"  => Some(Philosophical)
    case "childish"       => Some(Childish)
    case "elderly"        => Some(Elderly)
    case "robotic"        => Some(Robotic)
    case "romantic"       => Some(Romantic)
    case "playful"        => Some(Playful)
    case "shy"            => Some(Shy)
    case "proud"          => Some(Proud)
    case "confused"       => Some(Confused)
    case _                => None
  }

  /** Decoding a raw value gives back the kind; so no two kinds share a raw value. */
  lemma RawValueRoundTrip(e: EmotionType)
    ensures FromRawValue(RawValue(e)) == Some(e)
  {
  }

  /** Decoding succeeds only on a raw value: "Happy" or "happy " decode to nothing. */
  lemma FromRawValueSound(s: string)
    ensures FromRawValue(s).Some? ==> RawValue(FromRawValue(s).value) == s
  {
  }

  lemma RawValueInjective(a: EmotionType, b: EmotionType)
    ensures RawValue(a) == RawValue(b) ==> a == b
  {
    RawValueRoundTrip(a);
    RawValueRoundTrip(b);
  }

  /** `label`: the Japanese display label of every kind. */
  function Label(e: EmotionType): (r: string)
    ensures |r| > 0
  {
    match e
    case Neutral       => "ふつう"
    case Happy         => "うれしい"
    case Sad           => "かなしい"
    case Angry         => "おこってる"
    case Thinking      => "かんがえ中"
    case Sexy          => "セクシー"
    case Encouraging   => "おうえん"
    case Gentle        => "やさしい"
    case Surprised     => "びっくり"
    case Lonely        => "さびしい"
    case Focused       => "しゅうちゅう"
    case Nostalgic     => "なつかしい"
    case Sleepy        => "ねむい"
    case Poetic        => "しとやか"
    case Philosophical => "しさつてき"
    case Childish      => "むじゃき"
    case Elderly       => "おだやか"
    case Robotic       => "むきしつ"
    case Romantic      => "ときめき"
    case Playful       => "あそびごころ"
    case Shy           => "てれくさい"
    case Proud         => "じしんまんまん"
    case Confused      => "とまどい"
  }

  /** The 23 labels are pairwise distinct. */
  lemma LabelInjective(a: EmotionType, b: EmotionType)
    ensures Label(a) == Label(b) ==> a == b
  {
    if Label(a) == Label(b) {
      assert Label(a)[0] == Label(b)[0] && Label(a)[1] == Label(b)[1];
    }
  }

  /** The label of `.angry` is "おこってる", the plain form, not "おこっている". */
  lemma AngryLabel()
    ensures Label(Angry) == "おこってる"
    ensures Label(Angry) != "おこっている"
  {
  }

  /** `icon`: the SF Symbols name shown for every kind. */
  function Icon(e: EmotionType): (r: string)
    ensures |r| > 0
  {
    match e
    case Neutral       => "circle"
    case Happy         => "sun.max.fill"
    case Sad           => "cloud.rain.fill"
    case Angry         => "flame.fill"
    case Thinking      => "brain.head.profile"
    case Sexy          => "heart.fill"
    case Encouraging   => "hands.sparkles.fill"
    case Gentle        => "leaf.fill"
    case Surprised     => "exclamationmark.triangle.fill"
    case Lonely        => "person.fill.questionmark"
    case Focused       => "scope"
    case Nostalgic     => "clock.arrow.circlepath"
    case Sleepy        => "moon.zzz.fill"
    case Poetic        => "sparkles"
    case Philosophical => "books.vertical.fill"
    case Childish      => "face.smiling"
    case Elderly       => "person.crop.circle.badge.clock"
    case Robotic       => "cpu.fill"
    case Romantic      => "heart.circle.fill"
    case Playful       => "gamecontroller.fill"
    case Shy           => "eye.slash.fill"
    case Proud         => "star.fill"
    case Confused      => "questionmark.circle.fill"
  }

  /** The phrase of every kind that has no phrase of its own. */
  const GenericPhrase: string := "今の気持ちを整理しています。"

  /** The nine kinds that `defaultPhrase` gives a phrase of their own. */
  const PhraseKinds: set<EmotionType> :=
    {Happy, Sad, Angry, Thinking, Surprised, Gentle, Encouraging, Neutral, Sexy}

  /** `defaultPhrase`: a phrase of its own for the nine phrase kinds, the generic one for the rest. */
  function DefaultPhrase(e: EmotionType): (r: string)
    ensures r == GenericPhrase <==> e !in PhraseKinds
    ensures |r| > 0
  {
    match e
    case Happy         => "嬉しい気持ちです！"
    case Sad           => "少し落ち込んでいます…"
    case Angry         => "ちょっと怒ってるかも。"
    case Thinking      => "考え中です。"
    case Surprised     => "びっくりしました！"
    case Gentle        => "穏やかな気持ちです。"
    case Encouraging   => "あなたを応援しています！"
    case Neutral       => "落ち着いています。"
    case Sexy          => "魅力的な気分です。"
    case _              => GenericPhrase
  }

  // ---------------------------------------------------------------------------
  // The label table of `label(for:)`
  // ---------------------------------------------------------------------------

  /** A string with at least one character: every entry of the label table is one. */
  type Text = s: string | |s| > 0 witness "?"

  /** One row of the label table: the label of one kind in each of the twelve languages. */
  datatype LabelRow = LabelRow(en: Text, ja: Text, fr: Text, de: Text, es: Text, zh: Text, ko: Text, ru: Text, ar: Text, hi: Text, pt: Text, it: Text)

  /** The entry of a row for one language. */
  function Entry(r: LabelRow, l: Language): Text {
    match l
    case En => r.en
    case Ja => r.ja
    case Fr => r.fr
    case De => r.de
    case Es => r.es
    case Zh => r.zh
    case Ko => r.ko
    case Ru => r.ru
    case Ar => r.ar
    case Hi => r.hi
    case Pt => r.pt
    case It => r.it
  }

  // The rows of the label table, one per kind.
  const NeutralLabels: LabelRow :=
    LabelRow("Neutral", "ふつう", "Neutre", "Neutral", "Neutral", "中性", "중립", "Нейтральный", "محايد", "तटस्थ", "Neutro", "Neutro")
  const HappyLabels: LabelRow :=
    LabelRow("Happy", "うれしい", "Heureux", "Glücklich", "Feliz", "开心", "행복", "Счастливый", "سعيد", "खुश", "Feliz", "Felice")
  const SadLabels: LabelRow :=
    LabelRow("Sad", "かなしい", "Triste", "Traurig", "Triste", "伤心", "슬픔", "Грустный", "حزين", "उदास", "Triste", "Triste")
  const AngryLabels: LabelRow :=
    LabelRow("Angry", "おこってる", "Fâché", "Wütend", "Enojado", "生气", "화남", "Злой", "غاضب", "गुस्सा", "Bravo", "Arrabbiato")
  const ThinkingLabels: LabelRow :=
    LabelRow("Thinking", "かんがえ中", "Pensif", "Nachdenklich", "Pensando", "思考中", "생각중", "Размышляющий", "يفكر", "सोच रहा है", "Pensando", "Pensieroso")
  const SexyLabels: LabelRow :=
    LabelRow("Sexy", "セクシー", "Sexy", "Sexy", "Sexy", "性感", "섹시", "Сексуальный", "جذاب", "सेक्सी", "Sexy", "Sexy")
  const EncouragingLabels: LabelRow :=
    LabelRow("Encouraging", "おうえん", "Encourageant", "Ermutigend", "Motivador", "鼓舞", "격려", "Воодушевляющий", "مشجع", "प्रोत्साहन", "Incentivador", "Incoraggiante")
  const GentleLabels: LabelRow :=
    LabelRow("Gentle", "やさしい", "Doux", "Sanft", "Amable", "温柔", "부드러운", "Нежный", "لطيف", "कोमल", "Gentil", "Gentile")
  const SurprisedLabels: LabelRow :=
    LabelRow("Surprised", "びっくり", "Surpris", "Überrascht", "Sorprendido", "惊讶", "놀람", "Удивлённый", "مندهش", "आश्चर्यचकित", "Surpreso", "Sorpreso")
  const LonelyLabels: LabelRow :=
    LabelRow("Lonely", "さびしい", "Solitaire", "Einsam", "Solitario", "孤独", "외로운", "Одинокий", "وحيد", "अकेला", "Solitário", "Solitario")
  const FocusedLabels: LabelRow :=
    LabelRow("Focused", "しゅうちゅう", "Concentré", "Fokussiert", "Concentrado", "专注", "집중", "Сосредоточенный", "مركز", "एकाग्र", "Concentrado", "Concentrato")
  const NostalgicLabels: LabelRow :=
    LabelRow("Nostalgic", "なつかしい", "Nostalgique", "Nostalgisch", "Nostálgico", "怀旧", "향수", "Ностальгический", "حنين", "नॉस्टैल्जिक", "Nostálgico", "Nostalgico")
  const SleepyLabels: LabelRow :=
    LabelRow("Sleepy", "ねむい", "Fatigué", "Schläfrig", "Somnoliento", "困", "졸림", "Сонный", "نعسان", "नींद आ रही", "Sonolento", "Assonnato")
  const PoeticLabels: LabelRow :=
    LabelRow("Poetic", "しとやか", "Poétique", "Poetisch", "Poético", "诗意", "시적", "Поэтичный", "شاعري", "काव्यात्मक", "Poético", "Poetico")
  const PhilosophicalLabels: LabelRow :=
    LabelRow("Philosophical", "しさつてき", "Philosophique", "Philosophisch", "Filosófico", "哲学的", "철학적", "Философский", "فلسفي", "दार्शनिक", "Filosófico", "Filosofico")
  const ChildishLabels: LabelRow :=
    LabelRow("Childish", "むじゃき", "Enfantin", "Kindisch", "Infantil", "幼稚", "유치한", "Детский", "طفولي", "बचकाना", "Infantil", "Infantile")
  const ElderlyLabels: LabelRow :=
    LabelRow("Elderly", "おだやか", "Âgé", "Alt", "Anciano", "年长", "노인", "Пожилой", "مسن", "वृद्ध", "Idoso", "Anziano")
  const RoboticLabels: LabelRow :=
    LabelRow("Robotic", "むきしつ", "Robotique", "Roboterhaft", "Robótico", "机械", "로봇같은", "Роботизированный", "آلي", "रोबोटिक", "Robótico", "Robotico")
  const RomanticLabels: LabelRow :=
    LabelRow("Romantic", "ときめき", "Romantique", "Romantisch", "Romántico", "浪漫", "로맨틱", "Романтичный", "رومانسي", "रोमांटिक", "Romântico", "Romantico")
  const PlayfulLabels: LabelRow :=
    LabelRow("Playful", "あそびごころ", "Ludique", "Verspielt", "Juguetón", "活泼", "장난기", "Игривый", "مرِح", "चंचल", "Brincalhão", "Giocoso")
  const ShyLabels: LabelRow :=
    LabelRow("Shy", "てれくさい", "Timide", "Schüchtern", "Tímido", "害羞", "수줍은", "Застенчивый", "خجول", "संकोची", "Tímido", "Timido")
  const ProudLabels: LabelRow :=
    LabelRow("Proud", "じしんまんまん", "Fier", "Stolz", "Orgulloso", "自豪", "자랑스러운", "Гордый", "فخور", "गर्वित", "Orgulhoso", "Orgoglioso")
  const ConfusedLabels: LabelRow :=
    LabelRow("Confused", "とまどい", "Confus", "Verwirrt", "Confundido", "困惑", "혼란스러운", "Сбитый с толку", "مرتبك", "उलझन", "Confuso", "Confuso")

  /** The row of the label table for `e`; the table has a row for every kind. */
  function Row(e: EmotionType): LabelRow
  {
    match e
    case Neutral        => NeutralLabels
    case Happy          => HappyLabels
    case Sad            => SadLabels
    case Angry          => AngryLabels
    case Thinking       => ThinkingLabels
    case Sexy           => SexyLabels
    case Encouraging    => EncouragingLabels
    case Gentle         => GentleLabels
    case Surprised      => SurprisedLabels
    case Lonely         => LonelyLabels
    case Focused        => FocusedLabels
    case Nostalgic      => NostalgicLabels
    case Sleepy         => SleepyLabels
    case Poetic         => PoeticLabels
    case Philosophical  => PhilosophicalLabels
    case Childish       => ChildishLabels
    case Elderly        => ElderlyLabels
    case Robotic        => RoboticLabels
    case Romantic       => RomanticLabels
    case Playful        => PlayfulLabels
    case Shy            => ShyLabels
    case Proud          => ProudLabels
    case Confused       => ConfusedLabels
  }

  /**
   * `labels[self]?[key]`: under the dictionary key of a language, the row's
   * entry for that language; under any other key, nothing.
   */
  function Lookup(e: EmotionType, key: string): (r: Option<Text>)
    ensures forall l :: Code(l) == key ==> r == Some(Entry(Row(e), l))
    ensures (forall l :: Code(l) != key) ==> r == None
  {
    match LanguageOf(key)
    case Some(l) =>
      forall l' | Code(l') == key {
        CodeRoundTrip(l');
      }
      Some(Entry(Row(e), l))
    case None => None
  }

  // The rows are checked a few kinds at a time, which keeps each proof small.
  lemma RowsCheckedA(e: EmotionType)
    requires e in {Neutral, Happy, Sad, Angry, Thinking, Sexy}
    ensures Row(e).ja == Label(e)
  {
  }

  lemma RowsCheckedB(e: EmotionType)
    requires e in {Encouraging, Gentle, Surprised, Lonely, Focused, Nostalgic}
    ensures Row(e).ja == Label(e)
  {
  }

  lemma RowsCheckedC(e: EmotionType)
    requires e in {Sleepy, Poetic, Philosophical, Childish, Elderly, Robotic}
    ensures Row(e).ja == Label(e)
  {
  }

  lemma RowsCheckedD(e: EmotionType)
    requires e in {Romantic, Playful, Shy, Proud, Confused}
    ensures Row(e).ja == Label(e)
  {
  }

  /** The "ja" entry of every row is the kind's `label`. */
  lemma JaColumnIsLabel(e: EmotionType)
    ensures Row(e).ja == Label(e)
  {
    if e in {Neutral, Happy, Sad, Angry, Thinking, Sexy} {
      RowsCheckedA(e);
    } else if e in {Encouraging, Gentle, Surprised, Lonely, Focused, Nostalgic} {
      RowsCheckedB(e);
    } else if e in {Sleepy, Poetic, Philosophical, Childish, Elderly, Robotic} {
      RowsCheckedC(e);
    } else {
      RowsCheckedD(e);
    }
  }

  /** Every row has a "ja" entry, and it is `label`: the last fallback of `label(for:)` is never reached. */
  lemma JaEntryPresent(e: EmotionType)
    ensures Lookup(e, "ja").Some? && Lookup(e, "ja").value == Label(e)
  {
    JaColumnIsLabel(e);
  }

  /**
   * `label(for:)`: the entry for the normalised code, else the row's "ja"
   * entry, else `label`. The result is never empty, is the row's entry when
   * the normalised code is one of the twelve keys, and is `label` otherwise.
   */
  function LabelFor(e: EmotionType, languageCode: string): (r: string)
    ensures |r| > 0
    ensures LanguageOf(NormalizeCode(languageCode)).Some? ==>
      r == Entry(Row(e), LanguageOf(NormalizeCode(languageCode)).value)
    ensures LanguageOf(NormalizeCode(languageCode)).None? ==> r == Label(e)
  {
    var normalized := NormalizeCode(languageCode);
    match Lookup(e, normalized)
    case Some(localized) => localized
    case None =>
      JaEntryPresent(e);
      match Lookup(e, "ja")
      case Some(jp) => jp
      case None => Label(e)
  }

  /** Any code that normalises to "ja" gives the kind's `label`. */
  lemma LabelForJa(e: EmotionType, languageCode: string)
    requires NormalizeCode(languageCode) == "ja"
    ensures LabelFor(e, languageCode) == Label(e)
  {
    JaColumnIsLabel(e);
  }

  /** `label(for: "ja")` is `label` for every kind. */
  lemma LabelForJaCode(e: EmotionType)
    ensures LabelFor(e, "ja") == Label(e)
  {
    NormalizeJapanese();
    LabelForJa(e, "ja");
  }

  // `label(for: "en-US")`, `label(for: "EN")` and `label(for: "-en")` of `.happy` are all "Happy".

  lemma LabelForRegionCode()
    ensures LabelFor(Happy, "en" + "-US") == "Happy"
  {
    NormalizeDropsRegion();
    assert LanguageOf("en") == Some(En);
  }

  lemma LabelForUpperCaseCode()
    ensures LabelFor(Happy, "EN") == "Happy"
  {
    NormalizeLowerCases();
    assert LanguageOf("en") == Some(En);
  }

  lemma LabelForLeadingSeparator()
    ensures LabelFor(Happy, "-" + "en") == "Happy"
  {
    NormalizeSkipsLeadingSeparator();
    assert LanguageOf("en") == Some(En);
  }

  /** Codes outside the twelve languages, such as "xx-ZZ" or "", give the Japanese `label`. */
  lemma LabelForUnknownCode(e: EmotionType)
    ensures LabelFor(e, "xx" + "-ZZ") == Label(e)
  {
    NormalizeUnknown();
    UnknownKeys();
  }

  lemma LabelForEmptyCode(e: EmotionType)
    ensures LabelFor(e, "") == Label(e)
  {
    NormalizeEmpty();
    UnknownKeys();
  }

  lemma LabelForHappyUnknown()
    ensures LabelFor(Happy, "xx" + "-ZZ") == "うれしい"
  {
    LabelForUnknownCode(Happy);
  }
}
