# QuestMeCore, modelled in Dafny

QuestMeCore is the shared core of the QuestMe companion app. This project
models its pure logic and proves properties of it:

- **Emotion catalog** (`EmotionType`). 23 emotion kinds, each with:
  - a Japanese display label;
  - an icon name;
  - a default phrase;
  - `label(for:)`, a twelve-language label lookup that normalises the language code it is given.
- **Conversation subject catalog** (`ConversationSubject`). Ten named subjects and a Japanese/English name table. `localizedLabel(for:)` looks the language code up exactly as given.
- **Topic classifier** (`TopicClassifier`). It picks a subject from three Japanese keywords in a fixed priority order and returns it in a `TopicResult` with a constant confidence.
- **UI string table** (`Localized.text(for:locale:)`) and its two locales.
- **Companion styles** (`CompanionStyle`) and the emotion each one starts in.

All of this code is total and side-effect free. It is modelled as datatypes, functions on them and lemmas relating them. The modules are:

| file | module | models |
|---|---|---|
| strings.dfy | `Strings` | the Swift string operations the core relies on: ASCII `lowercased()`, `split(separator:)` (empty pieces omitted), `contains(_:)` |
| language_codes.dfy | `LanguageCodes` | the code normalisation of `label(for:)` and the twelve language keys of its table |
| emotions.dfy | `Emotions` | EmotionType.swift |
| subjects.dfy | `Subjects` | ConversationSubject.swift |
| entries.dfy | `Entries` | ConversationEntry.swift (the classifier's input record) |
| topics.dfy | `Topics` | TopicClassifier.swift, plus facts linking its subjects to the subject catalog |
| localization.dfy | `Localization` | Localized.swift |
| companions.dfy | `Companions` | CompanionStyle.swift |

Representation choices:

- Strings are `seq<char>`.
- `String.contains` is a left-to-right scan. It is proved equal to the reference predicate `OccursIn`: the pattern occurs as a contiguous run.
- `split` is the list of all pieces between separators, with the empty pieces dropped.
- The nested dictionary of `label(for:)` is a `LabelRow` record per emotion kind, indexed by a `Language` enumeration. The dictionary key of each language is `Code`.
- `ConversationSubject.localizedLabels` is a function from a label to an optional (ja, en) row. The inner key lookup is a match on the exact strings "ja" and "en".
- `Double` confidences are exact `real` constants. No arithmetic is ever done on them.

The classifier does not return the catalog constants. It returns `ConversationSubject(label: "仕事")` and the like: the Japanese keyword itself. The catalog constant `.work` has label `"work"`. The model keeps this distinction and proves its consequences: a classifier subject is never a catalog constant, and `localizedLabel(for:)` returns it unchanged for every language.

The test file expects the label of `.angry` to be "おこっている". The code returns "おこってる" (Sources/QuestMeCore/EmotionType.swift:45). The model follows the code (`Emotions.AngryLabel`).

## Model

| member | source | states |
|---|---|---|
| Strings.Lower | Sources/QuestMeCore/EmotionType.swift:168 | `lowercased()` on ASCII: same length, each character lower-cased, no capital left |
| Strings.LowerKeeps | Sources/QuestMeCore/EmotionType.swift:168 | a string without capitals is its own lower-case form |
| Strings.Split | Sources/QuestMeCore/EmotionType.swift:168 | `split(separator:)`: every piece is non-empty and holds no separator |
| Strings.SplitAfterSeparators | Sources/QuestMeCore/EmotionType.swift:168 | leading separators do not change what `split` returns |
| Strings.SplitFirst | Sources/QuestMeCore/EmotionType.swift:168 | `split(...).first` is empty exactly when the code is nothing but separators; otherwise it is the first run of non-separators after any leading separators |
| Strings.Contains | Sources/QuestMeCore/TopicClassifier.swift:85-91 | `contains` holds exactly when the keyword occurs in the text as a contiguous run |
| LanguageCodes.Code | Sources/QuestMeCore/EmotionType.swift:142-164 | every language key of the table has two letters |
| LanguageCodes.LanguageOf | Sources/QuestMeCore/EmotionType.swift:142-164 | a key names a language exactly when it is that language's code; any other key names none |
| LanguageCodes.CodeRoundTrip | Sources/QuestMeCore/EmotionType.swift:142-164 | every language's code is found again |
| LanguageCodes.UnknownKeys | Sources/QuestMeCore/EmotionType.swift:171 | "xx" and "" are not keys of the table |
| LanguageCodes.NormalizeCode | Sources/QuestMeCore/EmotionType.swift:168 | the normalised code is the first non-empty `-` piece lower-cased, and is non-empty and `-`-free when there is such a piece; otherwise it is the whole code lower-cased |
| LanguageCodes.NormalizeOf | Sources/QuestMeCore/EmotionType.swift:168 | a code made of a non-empty `-`-free piece followed by nothing or by `-` and anything normalises to that piece lower-cased |
| LanguageCodes.NormalizeOfLowerCase | Sources/QuestMeCore/EmotionType.swift:168 | such a code whose first piece has no capital normalises to that piece itself |
| LanguageCodes.NormalizeAfterSeparator | Sources/QuestMeCore/EmotionType.swift:168 | `-` followed by one non-empty `-`-free piece normalises to that piece lower-cased |
| LanguageCodes.NormalizeAfterSeparatorLowerCase | Sources/QuestMeCore/EmotionType.swift:168 | `-` followed by one such piece without capitals normalises to the piece itself |
| LanguageCodes.NormalizeDropsRegion | Sources/QuestMeCore/EmotionType.swift:168 | "en-US" normalises to "en" |
| LanguageCodes.NormalizeLowerCases | Sources/QuestMeCore/EmotionType.swift:168 | "EN" normalises to "en" |
| LanguageCodes.NormalizeSkipsLeadingSeparator | Sources/QuestMeCore/EmotionType.swift:168 | "-en" normalises to "en", because the empty leading piece is omitted |
| LanguageCodes.NormalizeJapanese | Sources/QuestMeCore/EmotionType.swift:168 | "ja" normalises to "ja" |
| LanguageCodes.NormalizeUnknown | Sources/QuestMeCore/EmotionType.swift:168 | "xx-ZZ" normalises to "xx" |
| LanguageCodes.NormalizeEmpty | Sources/QuestMeCore/EmotionType.swift:168 | "" normalises to "" |
| Emotions.AllCasesComplete | Sources/QuestMeCore/EmotionType.swift:33-36 | `allCases` has 23 pairwise distinct entries and lists every kind |
| Emotions.RawValue | Sources/QuestMeCore/EmotionType.swift:33-35 | every raw value is non-empty |
| Emotions.RawValueRoundTrip | Sources/QuestMeCore/EmotionType.swift:33-35 | `EmotionType(rawValue:)` of a kind's raw value gives that kind back |
| Emotions.FromRawValueSound | Sources/QuestMeCore/EmotionType.swift:33-35 | `EmotionType(rawValue:)` succeeds only on a raw value, and then gives the kind with that raw value, so "Happy" and "happy " decode to nothing |
| Emotions.RawValueInjective | Sources/QuestMeCore/EmotionType.swift:33-35 | no two kinds share a raw value |
| Emotions.Label | Sources/QuestMeCore/EmotionType.swift:40-66 | `label` is total and never empty |
| Emotions.LabelInjective | Sources/QuestMeCore/EmotionType.swift:40-66 | the 23 labels are pairwise distinct |
| Emotions.AngryLabel | Sources/QuestMeCore/EmotionType.swift:45 | the label of `.angry` is "おこってる", not the test's "おこっている" |
| Emotions.Icon | Sources/QuestMeCore/EmotionType.swift:96-121 | `icon` is total and never empty |
| Emotions.DefaultPhrase | Sources/QuestMeCore/EmotionType.swift:124-137 | the phrase is the generic "今の気持ちを整理しています。" exactly for the 14 kinds outside happy, sad, angry, thinking, surprised, gentle, encouraging, neutral and sexy; it is never empty |
| Emotions.Lookup | Sources/QuestMeCore/EmotionType.swift:141-165 | `labels[self]?[key]`: under the dictionary key of a language it is that language's entry of the kind's row; under any key that is no language's code it is nothing |
| Emotions.JaColumnIsLabel | Sources/QuestMeCore/EmotionType.swift:141-165 | the "ja" entry of every row equals `label` |
| Emotions.JaEntryPresent | Sources/QuestMeCore/EmotionType.swift:175-179 | every kind has a "ja" entry, so the final `return self.label` is never reached |
| Emotions.LabelFor | Sources/QuestMeCore/EmotionType.swift:140-180 | never empty; the row's entry for the language when the normalised code is one of the twelve keys; `label` otherwise |
| Emotions.LabelForJa | Sources/QuestMeCore/EmotionType.swift:140-180 | any code that normalises to "ja" gives `label` |
| Emotions.LabelForJaCode | Sources/QuestMeCore/EmotionType.swift:140-180 | `label(for: "ja")` is `label` for every kind |
| Emotions.LabelForRegionCode | Sources/QuestMeCore/EmotionType.swift:168-173 | "en-US" gives "Happy" for `.happy` |
| Emotions.LabelForUpperCaseCode | Sources/QuestMeCore/EmotionType.swift:168-173 | "EN" gives "Happy" for `.happy` |
| Emotions.LabelForLeadingSeparator | Sources/QuestMeCore/EmotionType.swift:168-173 | "-en" gives "Happy" for `.happy` |
| Emotions.LabelForUnknownCode | Sources/QuestMeCore/EmotionType.swift:175-177 | "xx-ZZ" gives the Japanese `label` |
| Emotions.LabelForEmptyCode | Sources/QuestMeCore/EmotionType.swift:175-177 | "" gives the Japanese `label` |
| Emotions.LabelForHappyUnknown | Sources/QuestMeCore/EmotionType.swift:175-177 | "xx-ZZ" gives "うれしい" for `.happy` |
| Subjects.LocalizedLabel | Sources/QuestMeCore/ConversationSubject.swift:48-50 | the raw label when the label is not a table key or the language is neither "ja" nor "en"; the row's ja or en name otherwise; so only the exact codes "ja" and "en" change the result; non-empty whenever the label is |
| Subjects.EqualByLabel | Sources/QuestMeCore/ConversationSubject.swift:20-21 | two subjects are equal exactly when their labels are |
| Subjects.CatalogDistinct | Sources/QuestMeCore/ConversationSubject.swift:24-33 | the ten catalog constants are pairwise distinct |
| Subjects.CatalogHasNames | Sources/QuestMeCore/ConversationSubject.swift:24-46 | every catalog constant has a row, and its "ja" and "en" lookups return that row's names |
| Subjects.TableKeysAreCatalog | Sources/QuestMeCore/ConversationSubject.swift:24-46 | the table's keys are exactly the catalog labels |
| Subjects.WorkInJapanese | Sources/QuestMeCore/ConversationSubject.swift:37 | `.work` in "ja" is "仕事" |
| Subjects.GeneralInEnglish | Sources/QuestMeCore/ConversationSubject.swift:45 | `.general` in "en" is "General" |
| Subjects.CodeMatchedVerbatim | Sources/QuestMeCore/ConversationSubject.swift:49 | `.work` in "en-US", "EN" or "de" is "work": codes are not normalised |
| Topics.InferSubject | Sources/QuestMeCore/TopicClassifier.swift:84-94 | the label is one of 仕事, 家族, 健康, 一般; 仕事 exactly when it occurs; 家族 exactly when it occurs and 仕事 does not; 健康 exactly when neither earlier keyword occurs and it does; 一般 exactly when none of the three occurs |
| Topics.Classify | Sources/QuestMeCore/TopicClassifier.swift:66-70 | the subject is inferred from the text, the emotion is the entry's own, the confidence is 0.85 |
| Topics.ClassifyWithEmotion | Sources/QuestMeCore/TopicClassifier.swift:78-81 | the subject is the one `classify(entry:)` gives, the emotion is the given one, the confidence is 0.9 |
| Topics.ClassifyAll | Sources/QuestMeCore/TopicClassifier.swift:73-75 | one result per entry, and result i is `classify(entry:)` of entry i |
| Topics.ClassifyAllAppend | Sources/QuestMeCore/TopicClassifier.swift:73-75 | classifying a concatenation concatenates the results |
| Topics.ClassifyReadsTextAndEmotion | Sources/QuestMeCore/TopicClassifier.swift:66-70 | entries with the same text and emotion get the same result, whatever their id, speaker, date and topic |
| Topics.OverrideKeepsSubject | Sources/QuestMeCore/TopicClassifier.swift:66-81 | overriding with the entry's own emotion changes only the confidence |
| Topics.WorkWinsOverEverything | Sources/QuestMeCore/TopicClassifier.swift:85-86 | a text containing 仕事 is 仕事, whatever else it contains |
| Topics.FamilyBeatsHealth | Sources/QuestMeCore/TopicClassifier.swift:87-88 | a text with 家族 and 健康 but no 仕事 is 家族 |
| Topics.EmptyTextIsGeneral | Sources/QuestMeCore/TopicClassifier.swift:91-93 | the empty text is 一般 |
| Topics.ClassifierSubjectNotInCatalog | Sources/QuestMeCore/TopicClassifier.swift:84-94 | a classifier subject is no catalog constant and has no row in `localizedLabels` |
| Topics.ClassifierSubjectLocalisesToItself | Sources/QuestMeCore/ConversationSubject.swift:49 | `localizedLabel(for:)` of a classifier subject is its own label, for every language |
| Topics.ClassifierLabelsAreJapaneseNames | Sources/QuestMeCore/ConversationSubject.swift:36-45 | the four classifier labels are the Japanese names of `.work`, `.family`, `.health` and `.general` |
| Localization.LocaleRawValue | Sources/QuestMeCore/Localized.swift:17-20 | each raw value has two letters |
| Localization.LocaleFromRawValue | Sources/QuestMeCore/Localized.swift:17-20 | a string decodes to a locale exactly when it is that locale's raw value |
| Localization.LocaleRoundTrip | Sources/QuestMeCore/Localized.swift:17-20 | the raw value of each locale decodes back to it |
| Localization.Text | Sources/QuestMeCore/Localized.swift:23-31 | a key other than "title" and "voiceSelected" comes back verbatim; those two never come back as themselves and are non-empty |
| Localization.LocalesDiffer | Sources/QuestMeCore/Localized.swift:25-28 | the Japanese and English texts of each translated key differ |
| Localization.TitleTexts | Sources/QuestMeCore/Localized.swift:25-26 | the two texts of "title" |
| Localization.VoiceSelectedTexts | Sources/QuestMeCore/Localized.swift:27-28 | the two texts of "voiceSelected" |
| Localization.DefaultLocaleIsJapanese | Sources/QuestMeCore/Localized.swift:23 | leaving out the locale means Japanese |
| Companions.AllStylesComplete | Sources/QuestMeCore/CompanionStyle.swift:20-32 | `allCases` has 12 pairwise distinct entries and lists every style |
| Companions.StyleRawValue | Sources/QuestMeCore/CompanionStyle.swift:20-32 | every raw value is non-empty |
| Companions.DefaultEmotion | Sources/QuestMeCore/CompanionStyle.swift:34-49 | the emotion has the style's raw value, and is never neutral, happy, sad, angry, thinking, sexy, surprised, lonely, focused, nostalgic or sleepy |
| Companions.DefaultEmotionInjective | Sources/QuestMeCore/CompanionStyle.swift:34-49 | no two styles share a default emotion |
| Companions.StylePhrases | Sources/QuestMeCore/EmotionType.swift:124-137 | a style's default emotion has the generic phrase exactly when the style is neither gentle nor encouraging |

## Left out

- `EmotionType.color`: it returns SwiftUI `Color` values, which have no meaning outside the UI.
- SwiftUI screens (VoiceSettingsView.swift, ConfirmationView.swift, `SpeechSyncView`): view code, timers and slider arithmetic.
- `SpeechSync`: a wrapper over the platform speech synthesiser, driven by asynchronous delegate callbacks.
- VoiceProfile.swift: a plain record the core logic does not read.
- `ConversationEntry` defaults `UUID()` and `Date()`: these are nondeterministic. An entry's id and date are ordinary fields of the record, and the classifier never reads them.
- `Codable` encoding and decoding: this is JSON plumbing. Only raw values and their decoding are modelled.
- Strings.Lower: lower-cases ASCII letters only. Swift's `lowercased()` also folds non-ASCII letters; language codes are ASCII.
- Strings.Split: its contract states only that the pieces are non-empty and free of separators, not that they make up the string in order. `label(for:)` reads only the first piece, and `Strings.SplitFirst` characterises that piece completely.
- Strings.Contains: compares code points, not grapheme clusters. The Japanese keywords are single code points per character.
- String equality, dictionary keys and `split` compare code points. Swift compares `Character`s under canonical equivalence, so a label spelled "é" and one spelled "e" + U+0301 are equal subjects in Swift but different in the model (`Subjects.EqualByLabel`). Likewise Swift does not split "en-\u{301}US" at the `-` that a combining mark follows. None of the table keys, catalog labels or classifier keywords has a second canonical spelling, so the results for the modelled tables are unaffected.
- Topics.Classify: the confidences are exact reals, not IEEE doubles. No arithmetic is done on them.
- Emotions.FromRawValue: it carries no contract of its own, because the 23 string cases make a contract on the function itself costly to verify. Two lemmas state both directions of what it guarantees: `RawValueRoundTrip` (every raw value decodes to its kind) and `FromRawValueSound` (only raw values decode).
- The test expectation "おこっている" for `.angry` is not encoded. It disagrees with the code, and the model follows the code.
