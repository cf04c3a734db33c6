/**
 * String operations the catalogs and the classifier rely on, written out
 * with the semantics of the Swift standard library calls they stand for:
 * `String.lowercased()` (ASCII letters only), `split(separator:)` with its
 * default of omitting empty pieces, and `String.contains(_:)` on code points.
 */
module Strings {
  import opened Options

  // ---------------------------------------------------------------------------
  // Lower-casing
  // ---------------------------------------------------------------------------

  predicate IsAsciiUpper(c: char) {
    'A' <= c <= 'Z'
  }

  /** Lower-cases one ASCII capital; every other character is kept. */
  function LowerChar(c: char): (r: char)
    ensures !IsAsciiUpper(r)
    ensures !IsAsciiUpper(c) ==> r == c
    ensures IsAsciiUpper(c) ==> r as int - c as int == 'a' as int - 'A' as int
  {
    if IsAsciiUpper(c) then (c as int + ('a' as int - 'A' as int)) as char else c
  }

  /** `lowercased()` restricted to ASCII: same length, no capital left. */
  function Lower(s: string): (r: string)
    ensures |r| == |s|
    ensures forall i :: 0 <= i < |s| ==> r[i] == LowerChar(s[i])
    ensures forall i :: 0 <= i < |r| ==> !IsAsciiUpper(r[i])
  {
    seq(|s|, i requires 0 <= i < |s| => LowerChar(s[i]))
  }

  /** A string with no capital is its own lower-case form. */
  lemma LowerKeeps(s: string)
    requires forall i :: 0 <= i < |s| ==> !IsAsciiUpper(s[i])
    ensures Lower(s) == s
  {
  }

  // ---------------------------------------------------------------------------
  // Splitting
  // ---------------------------------------------------------------------------

  /**
   * All pieces between separators, empty ones included: a string with n
   * separators has n + 1 pieces, none of which holds a separator.
   */
  function Components(s: string, sep: char): (r: seq<string>)
    ensures |r| == 1 + multiset(s)[sep]
    ensures forall i :: 0 <= i < |r| ==> sep !in r[i]
  {
    if s == [] then [""]
    else
      var rest := Components(s[1..], sep);
      assert s == [s[0]] + s[1..];
      if s[0] == sep then [""] + rest
      else [[s[0]] + rest[0]] + rest[1..]
  }

  /** The pieces that are not empty, in their original order. */
  function NonEmpty(pieces: seq<string>): (r: seq<string>)
    ensures |r| <= |pieces|
    ensures forall i :: 0 <= i < |r| ==> r[i] != [] && r[i] in pieces
    ensures forall i :: 0 <= i < |pieces| && pieces[i] != [] ==> pieces[i] in r
  {
    if pieces == [] then []
    else if pieces[0] == [] then NonEmpty(pieces[1..])
    else [pieces[0]] + NonEmpty(pieces[1..])
  }

  /**
   * `s.split(separator: sep)`: the maximal runs without `sep`, with the empty
   * runs omitted (Swift's default `omittingEmptySubsequences: true`).
   */
  function Split(s: string, sep: char): (r: seq<string>)
    ensures forall i :: 0 <= i < |r| ==> r[i] != [] && sep !in r[i]
  {
    NonEmpty(Components(s, sep))
  }

  /** Independent description of the first piece: skip separators, then read up to the next one. */
  function DropSeparators(s: string, sep: char): (r: string)
    ensures |r| <= |s| && r == s[|s| - |r|..]
    ensures r == [] || r[0] != sep
  {
    if s != [] && s[0] == sep then DropSeparators(s[1..], sep) else s
  }

  function TakeUntilSeparator(s: string, sep: char): (r: string)
    ensures |r| <= |s| && r == s[..|r|] && sep !in r
    ensures |r| < |s| ==> s[|r|] == sep
  {
    if s == [] || s[0] == sep then [] else [s[0]] + TakeUntilSeparator(s[1..], sep)
  }

  function FirstPiece(s: string, sep: char): Option<string> {
    var t := DropSeparators(s, sep);
    if t == [] then None else Some(TakeUntilSeparator(t, sep))
  }

  lemma {:induction false} ComponentsHead(s: string, sep: char)
    ensures Components(s, sep)[0] == TakeUntilSeparator(s, sep)
  {
    if s != [] && s[0] != sep {
      ComponentsHead(s[1..], sep);
    }
  }

  /** A leading separator only adds an empty piece, which `split` omits. */
  lemma SplitSkipsSeparator(s: string, sep: char)
    requires s != [] && s[0] == sep
    ensures Split(s, sep) == Split(s[1..], sep)
  {
    var rest := Components(s[1..], sep);
    assert Components(s, sep) == [""] + rest;
    assert ([""] + rest)[1..] == rest;
  }

  /** A string that starts with a non-separator has its first run as first piece. */
  lemma SplitStartsWithRun(s: string, sep: char)
    requires s != [] && s[0] != sep
    ensures Split(s, sep) != [] && Split(s, sep)[0] == TakeUntilSeparator(s, sep)
  {
    ComponentsHead(s, sep);
    var pieces := Components(s, sep);
    assert pieces[0] == TakeUntilSeparator(s, sep);
    assert pieces[0] != [];
    assert Split(s, sep) == [pieces[0]] + NonEmpty(pieces[1..]);
  }

  /** Leading separators do not change what `split` returns. */
  lemma {:induction false} SplitAfterSeparators(s: string, sep: char)
    ensures Split(s, sep) == Split(DropSeparators(s, sep), sep)
  {
    if s != [] && s[0] == sep {
      SplitSkipsSeparator(s, sep);
      SplitAfterSeparators(s[1..], sep);
    }
  }

  /** Dropping the leading separators leaves nothing exactly when the string is all separators. */
  lemma {:induction false} DropSeparatorsEmpty(s: string, sep: char)
    ensures DropSeparators(s, sep) == [] <==> forall i :: 0 <= i < |s| ==> s[i] == sep
  {
    if s != [] && s[0] == sep {
      DropSeparatorsEmpty(s[1..], sep);
      assert forall i :: 1 <= i < |s| ==> s[i] == s[1..][i - 1];
    }
  }

  /**
   * The first element of `split`, when there is one, is the first run of
   * non-separators; there is none exactly when `s` is made of separators only.
   */
  lemma SplitFirst(s: string, sep: char)
    ensures Split(s, sep) == [] <==> FirstPiece(s, sep) == None
    ensures Split(s, sep) == [] <==> forall i :: 0 <= i < |s| ==> s[i] == sep
    ensures Split(s, sep) != [] ==> Split(s, sep)[0] == FirstPiece(s, sep).value
  {
    var t := DropSeparators(s, sep);
    SplitAfterSeparators(s, sep);
    DropSeparatorsEmpty(s, sep);
    if t == [] {
      assert Components(t, sep) == [""];
    } else {
      SplitStartsWithRun(t, sep);
    }
  }

  /** Reading up to the next separator stops exactly at the end of a separator-free prefix. */
  lemma {:induction false} TakeUntilPrefix(p: string, rest: string, sep: char)
    requires sep !in p
    requires rest == [] || rest[0] == sep
    ensures TakeUntilSeparator(p + rest, sep) == p
  {
    if p != [] {
      assert (p + rest)[1..] == p[1..] + rest;
      TakeUntilPrefix(p[1..], rest, sep);
    }
  }

  /** A code that starts with a separator-free piece, ended by a separator or by its end, has that piece first. */
  lemma FirstPieceOf(p: string, rest: string, sep: char)
    requires p != [] && sep !in p
    requires rest == [] || rest[0] == sep
    ensures FirstPiece(p + rest, sep) == Some(p)
  {
    assert (p + rest)[0] == p[0];
    TakeUntilPrefix(p, rest, sep);
  }

  /** A leading separator does not change the first piece. */
  lemma FirstPieceSkipsSeparator(s: string, sep: char)
    ensures FirstPiece([sep] + s, sep) == FirstPiece(s, sep)
  {
    assert ([sep] + s)[1..] == s;
  }

  // ---------------------------------------------------------------------------
  // Substring search
  // ---------------------------------------------------------------------------

  predicate IsPrefix(p: string, s: string) {
    |p| <= |s| && s[..|p|] == p
  }

  /** `p` occurs in `s` starting at position `i`. */
  predicate OccursAt(p: string, s: string, i: int) {
    0 <= i <= |s| - |p| && s[i..i + |p|] == p
  }

  /** Reference definition: `p` occurs in `s` as a contiguous run of code points. */
  ghost predicate OccursIn(p: string, s: string) {
    exists i :: OccursAt(p, s, i)
  }

  /** `s.contains(p)`, as a left-to-right scan of start positions. */
  function Contains(s: string, p: string): (b: bool)
    ensures b <==> OccursIn(p, s)
    decreases |s|
  {
    if IsPrefix(p, s) then
      assert OccursAt(p, s, 0);
      true
    else if s == [] then
      false
    else
      var b := Contains(s[1..], p);
      assert b ==> OccursIn(p, s) by {
        if b {
          var i :| OccursAt(p, s[1..], i);
          assert s[1..][i..i + |p|] == s[i + 1..i + 1 + |p|];
          assert OccursAt(p, s, i + 1);
        }
      }
      assert OccursIn(p, s) ==> b by {
        if OccursIn(p, s) {
          var i :| OccursAt(p, s, i);
          assert i != 0;
          assert s[1..][i - 1..i - 1 + |p|] == s[i..i + |p|];
          assert OccursAt(p, s[1..], i - 1);
        }
      }
      b
  }

  lemma NothingOccursInEmpty(p: string)
    requires p != []
    ensures !Contains("", p)
  {
  }
}
