/**
 * The string operations the user menu applies to a display name:
 * `split(' ')`, `map(n => n[0])`, `join('')`, `toUpperCase()` and `slice(0, n)`,
 * with JavaScript's meaning, and a one-pass reference definition of what the
 * first three compute together.
 */
module Text {

  /** Upper-cases one ASCII letter; every other character is left as it is. */
  function UpperChar(c: char): char {
    if 'a' <= c <= 'z' then (c as int - 32) as char else c
  }

  /** `s.toUpperCase()`, with a case map that keeps the length. */
  function Upper(s: string): (r: string)
    ensures |r| == |s|
    ensures forall i :: 0 <= i < |s| ==> r[i] == UpperChar(s[i])
  {
    seq(|s|, i requires 0 <= i < |s| => UpperChar(s[i]))
  }

  function Min(a: int, b: int): int {
    if a <= b then a else b
  }

  /** `s.slice(0, n)`: the first `n` characters, or all of `s` when it is shorter. */
  function Take(s: string, n: nat): (r: string)
    ensures |r| == Min(n, |s|)
    ensures r <= s
  {
    if |s| <= n then s else s[..n]
  }

  /** Upper-casing and taking a prefix commute, so `slice` may come before or after `toUpperCase`. */
  lemma TakeUpper(s: string, n: nat)
    ensures Take(Upper(s), n) == Upper(Take(s, n))
  {
  }

  /**
   * `s.split(' ')`: the pieces between single spaces, left to right. Empty pieces
   * are kept (a leading, trailing or doubled space yields one), so there is always
   * at least one piece, and no piece holds a space.
   */
  function Split(s: string): (words: seq<string>)
    ensures |words| >= 1
    ensures forall k :: 0 <= k < |words| ==> ' ' !in words[k]
    decreases |s|
  {
    if s == [] then [""]
    else if s[0] == ' ' then [""] + Split(s[1..])
    else
      var rest := Split(s[1..]);
      [[s[0]] + rest[0]] + rest[1..]
  }

  /** `words.join(' ')`, the inverse of Split. */
  function JoinSpaces(words: seq<string>): string
    requires |words| >= 1
  {
    words[0] + JoinTail(words[1..])
  }

  /** The part of `join(' ')` after the first word: each further word with its space. */
  function JoinTail(words: seq<string>): string {
    if words == [] then "" else " " + words[0] + JoinTail(words[1..])
  }

  /** Splitting on spaces loses nothing: joining the pieces back gives the string. */
  lemma {:induction false} SplitJoin(s: string)
    ensures JoinSpaces(Split(s)) == s
    decreases |s|
  {
    if s == [] {
    } else if s[0] == ' ' {
      SplitJoin(s[1..]);
      var rest := Split(s[1..]);
      assert Split(s) == [""] + rest;
      assert ([""] + rest)[1..] == rest;
      assert JoinTail(rest) == " " + rest[0] + JoinTail(rest[1..]);
    } else {
      SplitJoin(s[1..]);
      var rest := Split(s[1..]);
      assert Split(s) == [[s[0]] + rest[0]] + rest[1..];
      assert ([[s[0]] + rest[0]] + rest[1..])[1..] == rest[1..];
      assert s == [s[0]] + s[1..];
    }
  }

  /**
   * `words.map(n => n[0]).join('')`: the first character of every word. An empty
   * word's `n[0]` is undefined, which `join` turns into nothing.
   */
  function FirstChars(words: seq<string>): (r: string)
    ensures |r| <= |words|
    ensures (forall k :: 0 <= k < |words| ==> words[k] != "") ==> |r| == |words|
  {
    if words == [] then ""
    else (if words[0] == "" then "" else [words[0][0]]) + FirstChars(words[1..])
  }

  /**
   * Reference definition, in one pass over the characters: those that begin a
   * word, that is, are not a space and come first or right after a space.
   * `prev` is the character before `s` (a space at the very start).
   */
  function WordStarts(s: string, prev: char): string {
    if s == [] then ""
    else (if s[0] != ' ' && prev == ' ' then [s[0]] else "") + WordStarts(s[1..], s[0])
  }

  /** Every word start is a character of the string, and never a space. */
  lemma {:induction false} WordStartsIn(s: string, prev: char)
    ensures |WordStarts(s, prev)| <= |s|
    ensures forall i :: 0 <= i < |WordStarts(s, prev)| ==> WordStarts(s, prev)[i] in s && WordStarts(s, prev)[i] != ' '
    decreases |s|
  {
    if s != [] {
      WordStartsIn(s[1..], s[0]);
      var head: string := if s[0] != ' ' && prev == ' ' then [s[0]] else "";
      var tail := WordStarts(s[1..], s[0]);
      assert WordStarts(s, prev) == head + tail;
      forall i | 0 <= i < |head + tail|
        ensures (head + tail)[i] in s && (head + tail)[i] != ' '
      {
        if i < |head| {
          assert (head + tail)[i] == s[0];
        } else {
          assert (head + tail)[i] == tail[i - |head|];
          assert tail[i - |head|] in s[1..];
        }
      }
    }
  }

  /**
   * Split, then first characters, is the same as the one-pass WordStarts. After a
   * non-space (in the middle of a word) the first piece's character is already
   * counted, so only the later pieces contribute.
   */
  lemma {:induction false} FirstCharsOfSplit(s: string, prev: char)
    ensures WordStarts(s, prev) == if prev == ' ' then FirstChars(Split(s)) else FirstChars(Split(s)[1..])
    decreases |s|
  {
    if s == [] {
      assert Split(s) == [""];
      assert FirstChars([""]) == "" + FirstChars([]);
    } else if s[0] == ' ' {
      FirstCharsOfSplit(s[1..], ' ');
      var rest := Split(s[1..]);
      assert Split(s) == [""] + rest;
      assert ([""] + rest)[1..] == rest;
      assert FirstChars([""] + rest) == "" + FirstChars(rest);
    } else {
      FirstCharsOfSplit(s[1..], s[0]);
      var rest := Split(s[1..]);
      var first := [s[0]] + rest[0];
      assert Split(s) == [first] + rest[1..];
      assert ([first] + rest[1..])[1..] == rest[1..];
      assert FirstChars([first] + rest[1..]) == [s[0]] + FirstChars(rest[1..]);
    }
  }
}
