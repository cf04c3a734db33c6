/**
 * The normalisation `label(for:)` in EmotionType.swift applies to a language
 * code before looking it up: the first non-empty piece of the code split at
 * `-`, lower-cased, and the twelve language keys of its label table.
 */
module LanguageCodes {
  import opened Options
  import opened Strings

  /** The twelve languages of the emotion label table, in the order each of its rows lists them. */
  datatype Language = En | Ja | Fr | De | Es | Zh | Ko | Ru | Ar | Hi | Pt | It

  /** The dictionary key of each language. */
  function Code(l: Language): (r: string)
    ensures |r| == 2
  {
    match l
    case En => "en"
    case Ja => "ja"
    case Fr => "fr"
    case De => "de"
    case Es => "es"
    case Zh => "zh"
    case Ko => "ko"
    case Ru => "ru"
    case Ar => "ar"
    case Hi => "hi"
    case Pt => "pt"
    case It => "it"
  }

  /** The language whose dictionary key is `key`, if any. */
  function LanguageOf(key: string): (r: Option<Language>)
    ensures r.Some? ==> Code(r.value) == key
    ensures r.None? ==> forall l :: Code(l) != key
  {
    match key
    case "en" => Some(En)
    case "ja" => Some(Ja)
    case "fr" => Some(Fr)
    case "de" => Some(De)
    case "es" => Some(Es)
    case "zh" => Some(Zh)
    case "ko" => Some(Ko)
    case "ru" => Some(Ru)
    case "ar" => Some(Ar)
    case "hi" => Some(Hi)
    case "pt" => Some(Pt)
    case "it" => Some(It)
    case _ => None
  }

  /** The key of every language is found again. */
  lemma CodeRoundTrip(l: Language)
    ensures LanguageOf(Code(l)) == Some(l)
  {
  }

  lemma UnknownKeys()
    ensures LanguageOf("xx") == None
    ensures LanguageOf("") == None
  {
  }

  /**
   * The normalised language code of `label(for:)`: the first non-empty
   * `-`-separated piece, lower-cased; the whole code lower-cased when there
   * is no such piece (the code is empty, or nothing but `-`).
   */
  function NormalizeCode(code: string): (r: string)
    ensures FirstPiece(code, '-').Some? ==> r == Lower(FirstPiece(code, '-').value) && r != [] && '-' !in r
    ensures FirstPiece(code, '-') == None ==> r == Lower(code)
  {
    SplitFirst(code, '-');
    var pieces := Split(code, '-');
    if pieces != [] then Lower(pieces[0]) else Lower(code)
  }

  /**
   * A code that starts with a non-empty, `-`-free piece ended by `-` or by
   * the end of the code normalises to that piece lower-cased, whatever follows.
   */
  lemma NormalizeOf(p: string, rest: string)
    requires p != [] && '-' !in p
    requires rest == [] || rest[0] == '-'
    ensures NormalizeCode(p + rest) == Lower(p)
  {
    FirstPieceOf(p, rest, '-');
  }

  /** A code that starts with such a piece and has no capital in it normalises to the piece itself. */
  lemma NormalizeOfLowerCase(p: string, rest: string)
    requires p != [] && '-' !in p
    requires forall i :: 0 <= i < |p| ==> !IsAsciiUpper(p[i])
    requires rest == [] || rest[0] == '-'
    ensures NormalizeCode(p + rest) == p
  {
    NormalizeOf(p, rest);
    LowerKeeps(p);
  }

  /** A leading `-` is skipped: a code made of `-` and one piece normalises to that piece lower-cased. */
  lemma NormalizeAfterSeparator(p: string)
    requires p != [] && '-' !in p
    ensures NormalizeCode("-" + p) == Lower(p)
  {
    assert "-" + p == ['-'] + (p + "");
    FirstPieceSkipsSeparator(p + "", '-');
    FirstPieceOf(p, "", '-');
    assert p + "" == p;
  }

  lemma NormalizeAfterSeparatorLowerCase(p: string)
    requires p != [] && '-' !in p
    requires forall i :: 0 <= i < |p| ==> !IsAsciiUpper(p[i])
    ensures NormalizeCode("-" + p) == p
  {
    NormalizeAfterSeparator(p);
    LowerKeeps(p);
  }

  // Region subtags and letter case do not matter: "en-US", "EN" and "-en" all read as "en".
  // A code is written as its pieces, such as "en" + "-US", so that the proofs
  // follow its structure.

  lemma NormalizeDropsRegion()
    ensures NormalizeCode("en" + "-US") == "en"
  {
    NormalizeOfLowerCase("en", "-US");
  }

  lemma NormalizeLowerCases()
    ensures NormalizeCode("EN") == "en"
  {
    NormalizeOf("EN", "");
    assert "EN" + "" == "EN";
    assert Lower("EN") == "en";
  }

  lemma NormalizeSkipsLeadingSeparator()
    ensures NormalizeCode("-" + "en") == "en"
  {
    NormalizeAfterSeparatorLowerCase("en");
  }

  lemma NormalizeJapanese()
    ensures NormalizeCode("ja") == "ja"
  {
    NormalizeOfLowerCase("ja", "");
    assert "ja" + "" == "ja";
  }

  lemma NormalizeUnknown()
    ensures NormalizeCode("xx" + "-ZZ") == "xx"
  {
    NormalizeOfLowerCase("xx", "-ZZ");
  }

  lemma NormalizeEmpty()
    ensures NormalizeCode("") == ""
  {
  }
}
