/**
 * The record of ConversationEntry.swift: one utterance of a conversation,
 * the input of the topic classifier.
 */
module Entries {
  import Emotions
  import Subjects

  /** A `UUID`, as its sixteen bytes (the length is not enforced). */
  type Uuid = seq<bv8>

  /** A `Date`, as seconds from the reference date. */
  type Timestamp = real

  /** `ConversationEntry`: who said what, when, with which emotion and subject. */
  datatype ConversationEntry = ConversationEntry(
    id: Uuid,
    speaker: string,
    text: string,
    createdAt: Timestamp,
    emotion: Emotions.EmotionType,
    topic: Subjects.ConversationSubject)
}
