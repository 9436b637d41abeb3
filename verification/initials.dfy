/**
 * `getInitials`, written out in src/components/FounderDiscovery.tsx, src/pages/MessagesPage.tsx
 * and src/components/CommentsSheet.tsx: the upper-cased first letters of the space-separated
 * words, at most two of them. An empty word (two spaces in a row, or a leading or trailing
 * space) has no first letter, and `join` writes its `undefined` as nothing.
 */
module Initials {
  import opened Optional
  import opened JsString
  import opened JsArray

  /** `words.map(w => w[0]).join("")`. */
  function Firsts(words: seq<string>): (r: string)
    ensures |r| <= |words|
  {
    if words == [] then ""
    else (if words[0] == "" then "" else [words[0][0]]) + Firsts(words[1..])
  }

  /** `name.split(" ").map(w => w[0]).join("").toUpperCase().slice(0, 2)`. */
  function GetInitials(name: string): (r: string)
    ensures |r| <= 2
    ensures forall i :: 0 <= i < |r| ==> !('a' <= r[i] <= 'z')
  {
    Prefix(Upper(Firsts(Split(name, ' '))), 2)
  }

  /**
   * The characters of `s` that begin a word: not a space, and first in `s` or right after a
   * space (`atStart` says whether the character before `s` was a space or there was none).
   * This reads the initials off the name directly, without splitting it.
   */
  function WordStarts(s: string, atStart: bool): string {
    if s == [] then ""
    else if s[0] == ' ' then WordStarts(s[1..], true)
    else (if atStart then [s[0]] else "") + WordStarts(s[1..], false)
  }

  lemma {:induction false} WordStartsInsideWord(w: string, x: string)
    requires ' ' !in w
    ensures WordStarts(w + x, false) == WordStarts(x, false)
    decreases |w|
  {
    if w == [] {
      assert w + x == x;
    } else {
      assert (w + x)[0] == w[0] && w[0] != ' ';
      assert (w + x)[1..] == w[1..] + x;
      assert ' ' !in w[1..] by { assert forall i :: 0 <= i < |w[1..]| ==> w[1..][i] == w[i + 1]; }
      WordStartsInsideWord(w[1..], x);
    }
  }

  /** The text before the first space contributes its first character, if any. */
  lemma WordStartsOfPiece(w: string, x: string)
    requires ' ' !in w
    requires x == "" || x[0] == ' '
    ensures WordStarts(w + x, true) == (if w == "" then "" else [w[0]]) + WordStarts(x, false)
  {
    if w == [] {
      assert w + x == x;
    } else {
      assert (w + x)[0] == w[0] && w[0] != ' ';
      assert (w + x)[1..] == w[1..] + x;
      assert ' ' !in w[1..] by { assert forall i :: 0 <= i < |w[1..]| ==> w[1..][i] == w[i + 1]; }
      WordStartsInsideWord(w[1..], x);
    }
  }

  /** The first letters `getInitials` collects are exactly the word-initial characters. */
  lemma {:induction false} FirstsAreWordStarts(s: string)
    ensures Firsts(Split(s, ' ')) == WordStarts(s, true)
    decreases |s|
  {
    var k := IndexOf(s, ' ');
    if k == -1 {
      WordStartsOfPiece(s, "");
      assert s + "" == s;
    } else {
      FirstsAreWordStarts(s[k + 1..]);
      FirstsOfSplit(s, k);
      WordStartsAtSpace(s, k);
    }
  }

  /** Splitting at the first space: the first piece gives its first character, if any. */
  lemma FirstsOfSplit(s: string, k: int)
    requires k == IndexOf(s, ' ') && k != -1
    ensures Firsts(Split(s, ' ')) == (if k == 0 then "" else [s[0]]) + Firsts(Split(s[k + 1..], ' '))
  {
    var rest := Split(s[k + 1..], ' ');
    assert Split(s, ' ') == [s[..k]] + rest;
    assert ([s[..k]] + rest)[1..] == rest;
  }

  /** Reading the word starts up to the first space and across it. */
  lemma WordStartsAtSpace(s: string, k: int)
    requires k == IndexOf(s, ' ') && k != -1
    ensures WordStarts(s, true) == (if k == 0 then "" else [s[0]]) + WordStarts(s[k + 1..], true)
  {
    var w, rest := s[..k], s[k + 1..];
    assert s == w + ([' '] + rest);
    WordStartsOfPiece(w, [' '] + rest);
    assert ([' '] + rest)[1..] == rest;
  }

  /** `getInitials` in terms of the name itself: its first two word-initial characters, upper-cased. */
  lemma InitialsOfName(name: string)
    ensures GetInitials(name) == Prefix(Upper(WordStarts(name, true)), 2)
  {
    FirstsAreWordStarts(name);
  }

  /** The version in CommentsSheet: `"?"` for a missing or empty name. */
  function InitialsOrPlaceholder(name: Option<string>): (r: string)
    ensures name.None? || name.value == "" ==> r == "?"
    ensures name.Some? && name.value != "" ==> r == GetInitials(name.value)
  {
    if name.None? || name.value == "" then "?" else GetInitials(name.value)
  }
}
