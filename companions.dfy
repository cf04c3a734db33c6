/**
 * The companion styles of CompanionStyle.swift and the emotion each one
 * starts in.
 */
module Companions {
  import Emotions

  /** `CompanionStyle`. */
  datatype CompanionStyle =
    | Gentle | Encouraging | Proud | Philosophical | Poetic | Robotic
    | Elderly | Childish | Romantic | Playful | Shy | Confused

  /** `CompanionStyle.allCases`, in declaration order. */
  const AllStyles: seq<CompanionStyle> :=
    [Gentle, Encouraging, Proud, Philosophical, Poetic, Robotic, Elderly, Childish, Romantic, Playful, Shy, Confused]

  /** The `String` raw value: the case name. */
  function StyleRawValue(s: CompanionStyle): (r: string)
    ensures |r| > 0
  {
    match s
    case Gentle        => "gentle"
    case Encouraging   => "encouraging"
    case Proud         => "proud"
    case Philosophical => "philosophical"
    case Poetic        => "poetic"
    case Robotic       => "robotic"
    case Elderly       => "elderly"
    case Childish      => "childish"
    case Romantic      => "romantic"
    case Playful       => "playful"
    case Shy           => "shy"
    case Confused      => "confused"
  }

  /** The eleven emotions no style starts in. */
  const NoStyleEmotions: set<Emotions.EmotionType> :=
    {Emotions.EmotionType.Neutral, Emotions.EmotionType.Happy, Emotions.EmotionType.Sad, Emotions.EmotionType.Angry, Emotions.EmotionType.Thinking,
     Emotions.EmotionType.Sexy, Emotions.EmotionType.Surprised, Emotions.EmotionType.Lonely, Emotions.EmotionType.Focused, Emotions.EmotionType.Nostalgic,
     Emotions.EmotionType.Sleepy}

  /** `defaultEmotion`: the emotion of the same name, which is never one of the other eleven. */
  function DefaultEmotion(s: CompanionStyle): (e: Emotions.EmotionType)
    ensures Emotions.RawValue(e) == StyleRawValue(s)
    ensures e !in NoStyleEmotions
  {
    match s
    case Gentle        => Emotions.EmotionType.Gentle
    case Encouraging   => Emotions.EmotionType.Encouraging
    case Proud         => Emotions.EmotionType.Proud
    case Philosophical => Emotions.EmotionType.Philosophical
    case Poetic        => Emotions.EmotionType.Poetic
    case Robotic       => Emotions.EmotionType.Robotic
    case Elderly       => Emotions.EmotionType.Elderly
    case Childish      => Emotions.EmotionType.Childish
    case Romantic      => Emotions.EmotionType.Romantic
    case Playful       => Emotions.EmotionType.Playful
    case Shy           => Emotions.EmotionType.Shy
    case Confused      => Emotions.EmotionType.Confused
  }

  /** The position of each style in `allCases`. */
  function StyleOrdinal(s: CompanionStyle): (i: nat)
    ensures i < |AllStyles| && AllStyles[i] == s
  {
    match s
    case Gentle        => 0
    case Encouraging   => 1
    case Proud         => 2
    case Philosophical => 3
    case Poetic        => 4
    case Robotic       => 5
    case Elderly       => 6
    case Childish      => 7
    case Romantic      => 8
    case Playful       => 9
    case Shy           => 10
    case Confused      => 11
  }

  /** `allCases` lists every style exactly once, so there are exactly 12 styles. */
  lemma AllStylesComplete()
    ensures |AllStyles| == 12
    ensures forall s :: s in AllStyles
    ensures forall i, j :: 0 <= i < j < |AllStyles| ==> AllStyles[i] != AllStyles[j]
  {
    forall s ensures s in AllStyles {
      assert AllStyles[StyleOrdinal(s)] == s;
    }
    forall i | 0 <= i < |AllStyles| ensures StyleOrdinal(AllStyles[i]) == i {
    }
  }

  /** No two styles share a default emotion. */
  lemma DefaultEmotionInjective(a: CompanionStyle, b: CompanionStyle)
    ensures DefaultEmotion(a) == DefaultEmotion(b) ==> a == b
  {
  }

  /** Only the gentle and the encouraging style start with a phrase of their own. */
  lemma StylePhrases(s: CompanionStyle)
    ensures Emotions.DefaultPhrase(DefaultEmotion(s)) == Emotions.GenericPhrase <==> s != Gentle && s != Encouraging
  {
  }
}
